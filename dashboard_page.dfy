// The dashboard page's streaming state (static/js/main.js): the session ids
// that gate inbound logs and events, the pending log buffer and the
// per-cluster event buffers with their flush steps, the cluster checkbox
// lists, and the WebSocket dispatcher.
module DashboardPage {
  import opened Wrappers
  import opened Colorizer
  import opened Streams
  import opened Text

  // ------------------------------------------------------- cluster checkboxes

  /** The first loop of `updateClusterContainer`: a label for each new cluster. */
  function AddMissing(labels: seq<string>, clusters: seq<string>): seq<string>
    decreases |clusters|
  {
    if clusters == [] then labels
    else AddMissing(if clusters[0] in labels then labels else labels + [clusters[0]], clusters[1..])
  }

  /** The second loop: the labels whose cluster is still listed, in order. */
  function KeepListed(labels: seq<string>, clusters: seq<string>): seq<string>
  {
    if labels == [] then []
    else
      var last := labels[|labels| - 1];
      KeepListed(labels[..|labels| - 1], clusters) + (if last in clusters then [last] else [])
  }

  /** The labels after `updateClusterContainer`. */
  function Reconciled(labels: seq<string>, clusters: seq<string>): seq<string>
  {
    KeepListed(AddMissing(labels, clusters), clusters)
  }

  lemma {:induction false} AddMissingFacts(labels: seq<string>, clusters: seq<string>)
    ensures labels <= AddMissing(labels, clusters)
    ensures forall x :: x in AddMissing(labels, clusters) <==> x in labels || x in clusters
    ensures Distinct(labels) ==> Distinct(AddMissing(labels, clusters))
    decreases |clusters|
  {
    if clusters != [] {
      var next := if clusters[0] in labels then labels else labels + [clusters[0]];
      AddMissingFacts(next, clusters[1..]);
      assert forall x :: x in clusters <==> x == clusters[0] || x in clusters[1..];
    }
  }

  lemma {:induction false} KeepListedFacts(labels: seq<string>, clusters: seq<string>)
    ensures forall x :: x in KeepListed(labels, clusters) <==> x in labels && x in clusters
    ensures Distinct(labels) ==> Distinct(KeepListed(labels, clusters))
  {
    if labels != [] {
      var init := labels[..|labels| - 1];
      KeepListedFacts(init, clusters);
      assert labels == init + [labels[|labels| - 1]];
      assert forall x :: x in labels <==> x in init || x == labels[|labels| - 1];
    }
  }

  lemma {:induction false} KeepListedAppend(a: seq<string>, b: seq<string>, clusters: seq<string>)
    ensures KeepListed(a + b, clusters) == KeepListed(a, clusters) + KeepListed(b, clusters)
    decreases |b|
  {
    if b != [] {
      var init := b[..|b| - 1];
      KeepListedAppend(a, init, clusters);
      assert (a + b)[..|a + b| - 1] == a + init;
    } else {
      assert a + b == a;
    }
  }

  /**
   * After an update the labels name exactly the listed clusters, once each,
   * and the labels that were kept come first, in their old order.
   */
  lemma ReconciledCorrect(labels: seq<string>, clusters: seq<string>)
    ensures forall x :: x in Reconciled(labels, clusters) <==> x in clusters
    ensures Distinct(labels) ==> Distinct(Reconciled(labels, clusters))
    ensures KeepListed(labels, clusters) <= Reconciled(labels, clusters)
  {
    var added := AddMissing(labels, clusters);
    AddMissingFacts(labels, clusters);
    KeepListedFacts(added, clusters);
    assert added == labels + added[|labels|..];
    KeepListedAppend(labels, added[|labels|..], clusters);
  }

  /** `updateClusterContainer`: add labels for new clusters, then drop stale ones. */
  method ReconcileLabels(labels: seq<string>, clusters: seq<string>) returns (r: seq<string>)
    ensures r == Reconciled(labels, clusters)
    ensures forall x :: x in r <==> x in clusters
    ensures Distinct(labels) ==> Distinct(r)
    ensures KeepListed(labels, clusters) <= r
  {
    r := labels;
    for i := 0 to |clusters|
      invariant AddMissing(r, clusters[i..]) == AddMissing(labels, clusters)
    {
      assert clusters[i..][1..] == clusters[i + 1..];
      if clusters[i] !in r {
        r := r + [clusters[i]];
      }
    }
    var all := r;
    r := [];
    for i := 0 to |all|
      invariant r == KeepListed(all[..i], clusters)
    {
      assert all[..i + 1][..i] == all[..i];
      if all[i] in clusters {
        r := r + [all[i]];
      }
    }
    assert all[..|all|] == all;
    ReconciledCorrect(labels, clusters);
  }

  // ------------------------------------------------------------ event feed

  /** One cluster's events container and its own auto-scroll checkbox. */
  datatype Panel = Panel(box: Box<EventData>, autoScroll: bool)

  /**
   * The event side of the page: `eventFragments` by cluster, the
   * `events-<name>` containers, and whether `eventBatchTimeoutId` is set.
   */
  datatype EventFeed = EventFeed(pending: map<string, seq<EventData>>, panels: map<string, Panel>,
                                 timerArmed: bool)

  /** Every container's offset is one the browser could have produced. */
  predicate FeedSettled(f: EventFeed)
  {
    forall c :: c in f.panels ==> Settled(f.panels[c].box)
  }

  /** A cluster's pending batch, empty when it has none. */
  function Batch(f: EventFeed, name: string): seq<EventData>
  {
    if name in f.pending then f.pending[name] else []
  }

  /** A cluster's events, shown or pending. */
  function EventsOf(f: EventFeed, name: string): seq<EventData>
  {
    (if name in f.panels then f.panels[name].box.entries else []) + Batch(f, name)
  }

  /** Flushing a cluster's pending events into its container. */
  function FlushPanel(p: Panel, xs: seq<EventData>): (r: Panel)
    ensures r.box.entries == p.box.entries + xs && r.autoScroll == p.autoScroll
    ensures Settled(p.box) ==> Settled(r.box)
    ensures xs != [] && p.autoScroll ==> r.box.scrollTop == MaxScroll(r.box)
    ensures Settled(p.box) && !p.autoScroll ==> r.box.scrollTop == p.box.scrollTop
  {
    Panel(FlushBox(p.box, xs, p.autoScroll), p.autoScroll)
  }

  /**
   * `updateEvents`: a container for a cluster seen for the first time (empty,
   * auto-scroll on), the event appended to that cluster's batch, the shared
   * timer armed.
   */
  function QueueEvent(f: EventFeed, e: EventData, panelHeight: nat, lineHeight: nat): (r: EventFeed)
    ensures forall c :: c in r.panels <==> c in f.panels || c == e.clusterName
    ensures forall c :: c in f.panels ==> r.panels[c] == f.panels[c]
    ensures e.clusterName !in f.panels ==>
      r.panels[e.clusterName] == Panel(Box([], panelHeight, lineHeight, 0), true)
    ensures forall c :: c in r.pending <==> c in f.pending || c == e.clusterName
    ensures Batch(r, e.clusterName) == Batch(f, e.clusterName) + [e]
    ensures forall c :: c != e.clusterName ==> Batch(r, c) == Batch(f, c)
    ensures EventsOf(r, e.clusterName) == EventsOf(f, e.clusterName) + [e]
    ensures forall c :: c != e.clusterName ==> EventsOf(r, c) == EventsOf(f, c)
    ensures r.timerArmed
    ensures FeedSettled(f) ==> FeedSettled(r)
  {
    var name := e.clusterName;
    var panels := if name in f.panels then f.panels
                  else f.panels[name := Panel(Box([], panelHeight, lineHeight, 0), true)];
    EventFeed(f.pending[name := Batch(f, name) + [e]], panels, true)
  }

  /**
   * `flushEventBatches`: every cluster whose container exists has its batch
   * flushed and emptied; a cluster whose container is gone keeps its batch;
   * the shared timer is disarmed.
   */
  method FlushBatches(f: EventFeed) returns (r: EventFeed)
    ensures r.pending.Keys == f.pending.Keys && r.panels.Keys == f.panels.Keys
    ensures forall c :: c in r.pending ==> r.pending[c] == (if c in f.panels then [] else f.pending[c])
    ensures forall c :: c in r.panels ==>
      r.panels[c] == (if c in f.pending then FlushPanel(f.panels[c], f.pending[c]) else f.panels[c])
    ensures forall c :: EventsOf(r, c) == EventsOf(f, c)
    ensures !r.timerArmed
    ensures FeedSettled(f) ==> FeedSettled(r)
  {
    var pending, panels := f.pending, f.panels;
    var todo := pending.Keys;
    while todo != {}
      invariant todo <= f.pending.Keys
      invariant pending.Keys == f.pending.Keys && panels.Keys == f.panels.Keys
      invariant forall c :: c in pending ==>
        pending[c] == (if c !in todo && c in f.panels then [] else f.pending[c])
      invariant forall c :: c in panels ==>
        panels[c] == (if c in f.pending && c !in todo then FlushPanel(f.panels[c], f.pending[c]) else f.panels[c])
      decreases todo
    {
      var c :| c in todo;
      todo := todo - {c};
      if |pending[c]| > 0 {
        if c in panels {
          panels := panels[c := FlushPanel(panels[c], pending[c])];
          pending := pending[c := []];
        }
      }
    }
    r := EventFeed(pending, panels, false);
    assert forall c :: c in f.pending && c in f.panels && f.pending[c] == [] ==> FlushPanel(f.panels[c], []) == f.panels[c];
  }

  /** `handleClusterSelection`: the containers of unselected clusters go. */
  function KeepPanels(f: EventFeed, selected: seq<string>): (r: EventFeed)
    ensures forall c :: c in r.panels <==> c in f.panels && c in selected
    ensures forall c :: c in r.panels ==> r.panels[c] == f.panels[c]
    ensures r.pending == f.pending && r.timerArmed == f.timerArmed
    ensures FeedSettled(f) ==> FeedSettled(r)
  {
    f.(panels := map c | c in f.panels && c in selected :: f.panels[c])
  }

  /** A cluster container's own scroll listener, after the reader scrolls to `v`. */
  function ScrollPanel(f: EventFeed, name: string, v: int): (r: EventFeed)
    requires name in f.panels
    ensures r.panels.Keys == f.panels.Keys && r.pending == f.pending && r.timerArmed == f.timerArmed
    ensures r.panels[name].box == ScrollTo(f.panels[name].box, v)
    ensures r.panels[name].autoScroll <==> f.panels[name].autoScroll && NearBottom(r.panels[name].box)
    ensures forall c :: c in f.panels && c != name ==> r.panels[c] == f.panels[c]
    ensures FeedSettled(f) ==> FeedSettled(r)
  {
    var p := f.panels[name];
    var box := ScrollTo(p.box, v);
    f.(panels := f.panels[name := Panel(box, p.autoScroll && NearBottom(box))])
  }

  /**
   * A cluster container's auto-scroll checkbox: the box holds the new state,
   * and checking it jumps that container to its bottom.
   */
  function SetPanelAutoScroll(f: EventFeed, name: string, checked: bool): (r: EventFeed)
    requires name in f.panels
    ensures r.panels.Keys == f.panels.Keys && r.pending == f.pending && r.timerArmed == f.timerArmed
    ensures r.panels[name].autoScroll == checked
    ensures r.panels[name].box.entries == f.panels[name].box.entries
    ensures checked ==> r.panels[name].box.scrollTop == MaxScroll(r.panels[name].box) && NearBottom(r.panels[name].box)
    ensures !checked ==> r.panels[name].box == f.panels[name].box
    ensures forall c :: c in f.panels && c != name ==> r.panels[c] == f.panels[c]
    ensures FeedSettled(f) ==> FeedSettled(r)
  {
    var p := f.panels[name];
    var box := if checked then ScrollTo(p.box, ScrollHeight(p.box)) else p.box;
    f.(panels := f.panels[name := Panel(box, checked)])
  }

  /**
   * Checking a container's box turns auto-scroll back on after a scroll turned
   * it off, and the scroll event that the jump itself fires keeps it on.
   */
  lemma PanelAutoScrollResumes(f: EventFeed, name: string, v: int)
    requires name in f.panels
    ensures var g := SetPanelAutoScroll(ScrollPanel(f, name, v), name, true);
      && g.panels[name].autoScroll
      && ScrollPanel(g, name, g.panels[name].box.scrollTop) == g
  {
    var g := SetPanelAutoScroll(ScrollPanel(f, name, v), name, true);
    var b := g.panels[name].box;
    assert ScrollTo(b, b.scrollTop) == b;
    assert g.panels[name := Panel(b, true)] == g.panels;
  }

  // -------------------------------------------------------------- the page

  class Dashboard {
    /** Layout of a new events container: viewport and entry height. */
    const panelHeight: nat
    const lineHeight: nat

    /** `currentLogSessionId`, `currentEventSessionId`. */
    var logSession: SessionTag
    var eventSession: SessionTag
    /** Every id issued so far is below this (ids are fresh tokens). */
    var nextToken: nat

    /** The logs checkbox and the log feed. */
    var logsChecked: bool
    var log: LogFeed
    /** The per-cluster event feed. */
    var events: EventFeed
    /** What the two search indexes hold. */
    var logIndex: seq<string>
    var eventIndex: seq<EventData>

    /** The cluster checkboxes of the events page and of the logs page. */
    var eventLabels: seq<string>
    var logLabels: seq<string>
    /** The cluster tiles last rendered. */
    var tiles: seq<Tile>

    /** Every request sent over the socket, oldest first. */
    var outbox: seq<Outbound>

    predicate Valid()
      reads this
    {
      && (logSession.Id? ==> logSession.token < nextToken)
      && (eventSession.Id? ==> eventSession.token < nextToken)
      && Settled(log.box) && FeedSettled(events)
      && Distinct(eventLabels) && Distinct(logLabels)
    }

    constructor(logsHeight: nat, panelHeight: nat, lineHeight: nat)
      ensures Valid()
      ensures logSession == Null && eventSession == Null && !logsChecked
      ensures log == LogFeed([], false, Box([], logsHeight, lineHeight, 0), true)
      ensures events == EventFeed(map[], map[], false)
      ensures eventLabels == [] && logLabels == [] && outbox == []
    {
      this.panelHeight := panelHeight;
      this.lineHeight := lineHeight;
      logSession, eventSession, nextToken := Null, Null, 0;
      logsChecked := false;
      log := LogFeed([], false, Box([], logsHeight, lineHeight, 0), true);
      events := EventFeed(map[], map[], false);
      logIndex, eventIndex := [], [];
      eventLabels, logLabels, tiles := [], [], [];
      outbox := [];
    }

    /**
     * `handleLogsSelection`: always drops the pending batch and the shown
     * logs; enabling without follow and without a start time unchecks the box
     * and sends nothing; enabling otherwise opens a fresh session; disabling
     * closes it and empties the log search index.
     */
    method HandleLogsSelection(checked: bool, follow: bool, startTime: string, endTime: string,
                               selected: seq<string>)
      requires Valid()
      modifies this
      ensures Valid()
      ensures log == ResetLines(old(log))
      ensures checked && !LogsAllowed(follow, startTime) ==>
        !logsChecked && logSession == old(logSession) && nextToken == old(nextToken)
        && logIndex == old(logIndex) && outbox == old(outbox)
      ensures checked && LogsAllowed(follow, startTime) ==>
        && logsChecked && logSession == Id(old(nextToken)) && nextToken == old(nextToken) + 1
        && logIndex == old(logIndex)
        && outbox == old(outbox) + [StartLogs(old(nextToken), follow, startTime, endTime, selected)]
      ensures !checked ==>
        !logsChecked && logSession == Null && nextToken == old(nextToken) && logIndex == []
        && outbox == old(outbox) + [LogsStop]
      ensures unchanged(this`eventSession, this`events, this`eventIndex)
      ensures unchanged(this`eventLabels, this`logLabels, this`tiles)
    {
      log := ResetLines(log);
      if checked {
        if !follow && startTime == "" {
          logsChecked := false;
          return;
        }
        logsChecked := true;
        logSession := Id(nextToken);
        nextToken := nextToken + 1;
        outbox := outbox + [StartLogs(logSession.token, follow, startTime, endTime, selected)];
      } else {
        logsChecked := false;
        logSession := Null;
        logIndex := [];
        outbox := outbox + [LogsStop];
      }
    }

    /** `handleLogsClusterSelection`: resubscribe when logs are on. */
    method HandleLogsClusterSelection(follow: bool, startTime: string, endTime: string, selected: seq<string>)
      requires Valid()
      modifies this
      ensures Valid()
      ensures !old(logsChecked) ==> unchanged(this)
      ensures old(logsChecked) ==> log == ResetLines(old(log))
      ensures old(logsChecked) && !LogsAllowed(follow, startTime) ==>
        !logsChecked && logSession == old(logSession) && nextToken == old(nextToken)
        && logIndex == old(logIndex) && outbox == old(outbox)
      ensures old(logsChecked) && LogsAllowed(follow, startTime) ==>
        && logsChecked && logSession == Id(old(nextToken)) && nextToken == old(nextToken) + 1
        && logIndex == old(logIndex)
        && outbox == old(outbox) + [StartLogs(old(nextToken), follow, startTime, endTime, selected)]
      ensures unchanged(this`eventSession, this`events, this`eventIndex)
      ensures unchanged(this`eventLabels, this`logLabels, this`tiles)
    {
      if logsChecked {
        HandleLogsSelection(true, follow, startTime, endTime, selected);
      }
    }

    /**
     * `handleClusterSelection`: a fresh event session when any cluster is
     * selected and none otherwise; containers of unselected clusters go; the
     * request lists exactly the selection.
     */
    method HandleClusterSelection(selected: seq<string>)
      requires Valid()
      modifies this
      ensures Valid()
      ensures |selected| > 0 ==> eventSession == Id(old(nextToken)) && nextToken == old(nextToken) + 1
      ensures |selected| == 0 ==> eventSession == Null && nextToken == old(nextToken)
      ensures events == KeepPanels(old(events), selected)
      ensures outbox == old(outbox) + [ClustersEvents(selected, eventSession)]
      ensures unchanged(this`logSession, this`logsChecked, this`log, this`logIndex, this`eventIndex)
      ensures unchanged(this`eventLabels, this`logLabels, this`tiles)
    {
      if |selected| > 0 {
        eventSession := Id(nextToken);
        nextToken := nextToken + 1;
      } else {
        eventSession := Null;
      }
      events := KeepPanels(events, selected);
      outbox := outbox + [ClustersEvents(selected, eventSession)];
    }

    /** `updateLogs`: the line joins the batch and the search index. */
    method UpdateLogs(line: string)
      requires Valid()
      modifies this
      ensures Valid()
      ensures log == QueueLine(old(log), line) && logIndex == old(logIndex) + [line]
      ensures unchanged(this`logSession, this`eventSession, this`nextToken, this`logsChecked)
      ensures unchanged(this`events, this`eventIndex, this`eventLabels, this`logLabels, this`tiles, this`outbox)
    {
      logIndex := logIndex + [line];
      log := QueueLine(log, line);
    }

    /** `flushLogBatch`, when the log timer fires. */
    method FlushLogBatch()
      requires Valid()
      modifies this
      ensures Valid()
      ensures log == FlushLines(old(log))
      ensures unchanged(this`logSession, this`eventSession, this`nextToken, this`logsChecked, this`logIndex)
      ensures unchanged(this`events, this`eventIndex, this`eventLabels, this`logLabels, this`tiles, this`outbox)
    {
      log := FlushLines(log);
    }

    /** `updateEvents`: the event joins its cluster's batch and the search index. */
    method UpdateEvents(e: EventData)
      requires Valid()
      modifies this
      ensures Valid()
      ensures events == QueueEvent(old(events), e, panelHeight, lineHeight)
      ensures eventIndex == old(eventIndex) + [e]
      ensures unchanged(this`logSession, this`eventSession, this`nextToken, this`logsChecked, this`log)
      ensures unchanged(this`logIndex, this`eventLabels, this`logLabels, this`tiles, this`outbox)
    {
      eventIndex := eventIndex + [e];
      events := QueueEvent(events, e, panelHeight, lineHeight);
    }

    /** `flushEventBatches`, when the event timer fires. */
    method FlushEventBatches()
      requires Valid()
      modifies this
      ensures Valid()
      ensures events.pending.Keys == old(events).pending.Keys && events.panels.Keys == old(events).panels.Keys
      ensures forall c :: c in events.pending ==>
        events.pending[c] == (if c in old(events).panels then [] else old(events).pending[c])
      ensures forall c :: c in events.panels ==>
        events.panels[c] == (if c in old(events).pending then FlushPanel(old(events).panels[c], old(events).pending[c])
                             else old(events).panels[c])
      ensures !events.timerArmed
      ensures unchanged(this`logSession, this`eventSession, this`nextToken, this`logsChecked, this`log)
      ensures unchanged(this`logIndex, this`eventIndex, this`eventLabels, this`logLabels, this`tiles, this`outbox)
    {
      events := FlushBatches(events);
    }

    /** The logs container's scroll listener, after the reader scrolls to `v`. */
    method OnLogsScroll(v: int)
      requires Valid()
      modifies this
      ensures Valid()
      ensures log == ScrollLines(old(log), v)
      ensures unchanged(this`logSession, this`eventSession, this`nextToken, this`logsChecked, this`logIndex)
      ensures unchanged(this`events, this`eventIndex, this`eventLabels, this`logLabels, this`tiles, this`outbox)
    {
      log := ScrollLines(log, v);
    }

    /** The auto-scroll checkbox of the logs container. */
    method OnAutoScrollChange(checked: bool)
      requires Valid()
      modifies this
      ensures Valid()
      ensures log == SetAutoScroll(old(log), checked)
      ensures unchanged(this`logSession, this`eventSession, this`nextToken, this`logsChecked, this`logIndex)
      ensures unchanged(this`events, this`eventIndex, this`eventLabels, this`logLabels, this`tiles, this`outbox)
    {
      log := SetAutoScroll(log, checked);
    }

    /** A cluster container's scroll listener, after the reader scrolls to `v`. */
    method OnPanelScroll(name: string, v: int)
      requires Valid() && name in events.panels
      modifies this
      ensures Valid()
      ensures events == ScrollPanel(old(events), name, v)
      ensures unchanged(this`logSession, this`eventSession, this`nextToken, this`logsChecked, this`log)
      ensures unchanged(this`logIndex, this`eventIndex, this`eventLabels, this`logLabels, this`tiles, this`outbox)
    {
      events := ScrollPanel(events, name, v);
    }

    /** A cluster container's auto-scroll checkbox. */
    method OnPanelAutoScrollChange(name: string, checked: bool)
      requires Valid() && name in events.panels
      modifies this
      ensures Valid()
      ensures events == SetPanelAutoScroll(old(events), name, checked)
      ensures unchanged(this`logSession, this`eventSession, this`nextToken, this`logsChecked, this`log)
      ensures unchanged(this`logIndex, this`eventIndex, this`eventLabels, this`logLabels, this`tiles, this`outbox)
    {
      events := SetPanelAutoScroll(events, name, checked);
    }

    /** `updateClusters`: both checkbox lists follow the new cluster list. */
    method UpdateClusters(clusters: seq<string>)
      requires Valid()
      modifies this
      ensures Valid()
      ensures eventLabels == Reconciled(old(eventLabels), clusters)
      ensures logLabels == Reconciled(old(logLabels), clusters)
      ensures forall x :: (x in eventLabels <==> x in clusters) && (x in logLabels <==> x in clusters)
      ensures unchanged(this`logSession, this`eventSession, this`nextToken, this`logsChecked, this`log)
      ensures unchanged(this`events, this`logIndex, this`eventIndex, this`tiles, this`outbox)
    {
      eventLabels := ReconcileLabels(eventLabels, clusters);
      logLabels := ReconcileLabels(logLabels, clusters);
    }

    /**
     * `handleWebSocketMessage`: routes by `DashboardRoute`; a log or event
     * from another session, and any other message type, changes nothing.
     */
    method HandleMessage(m: Inbound)
      requires Valid()
      modifies this
      ensures Valid()
      ensures DashboardRoute(m, old(logSession), old(eventSession)) == Ignore ==> unchanged(this)
      ensures m.LogMsg? && m.logSession == old(logSession) ==>
        log == QueueLine(old(log), m.line) && logIndex == old(logIndex) + [m.line]
      ensures m.LogMsg? ==> unchanged(this`events, this`eventIndex, this`eventLabels, this`logLabels, this`tiles)
      ensures m.EventMsg? && m.eventSession == old(eventSession) ==>
        events == QueueEvent(old(events), m.event, panelHeight, lineHeight) && eventIndex == old(eventIndex) + [m.event]
      ensures m.EventMsg? ==> unchanged(this`log, this`logIndex, this`eventLabels, this`logLabels, this`tiles)
      ensures m.ClustersMsg? ==>
        eventLabels == Reconciled(old(eventLabels), m.clusters) && logLabels == Reconciled(old(logLabels), m.clusters)
      ensures m.ClustersMsg? ==> unchanged(this`log, this`logIndex, this`events, this`eventIndex, this`tiles)
      ensures m.ConditionsMsg? ==>
        var v := RenderClusterTiles(m.conditions, false);
        tiles == (if v.Tiles? then v.tiles else old(tiles))
      ensures m.ConditionsMsg? ==> unchanged(this`log, this`logIndex, this`events, this`eventIndex)
      ensures m.ConditionsMsg? ==> unchanged(this`eventLabels, this`logLabels)
      ensures unchanged(this`logSession, this`eventSession, this`nextToken, this`logsChecked, this`outbox)
    {
      match DashboardRoute(m, logSession, eventSession)
      case ToClusters => UpdateClusters(m.clusters);
      case ToEvents => UpdateEvents(m.event);
      case ToLogs => UpdateLogs(m.line);
      case ToConditions =>
        var v := RenderClusterTiles(m.conditions, false);
        if v.Tiles? {
          tiles := v.tiles;
        }
      case Ignore =>
    }
  }
}
