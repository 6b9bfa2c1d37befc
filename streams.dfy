// What the two streaming pages (static/js/main.js and
// static/js/cluster-details.js) share: the scrollable containers, the
// session ids that gate inbound messages, the messages themselves and the
// requests the pages send.
module Streams {
  import opened Wrappers
  import opened Colorizer

  // ---------------------------------------------------------------- scrolling

  /**
   * A scrollable DOM container: its entries, the height of its viewport, the
   * height of one entry and its scroll offset.
   */
  datatype Box<T> = Box(entries: seq<T>, clientHeight: nat, lineHeight: nat, scrollTop: nat)

  /** `scrollHeight`: the content height, never less than the viewport. */
  function ScrollHeight<T>(b: Box<T>): (h: nat)
    ensures h >= b.clientHeight && h >= |b.entries| * b.lineHeight
  {
    if |b.entries| * b.lineHeight < b.clientHeight then b.clientHeight else |b.entries| * b.lineHeight
  }

  /** The largest offset the browser lets `scrollTop` take. */
  function MaxScroll<T>(b: Box<T>): nat
  {
    ScrollHeight(b) - b.clientHeight
  }

  /** The offset is one the browser could have produced. */
  predicate Settled<T>(b: Box<T>)
  {
    b.scrollTop <= MaxScroll(b)
  }

  /** Assigning `scrollTop`: the browser clamps the value to `[0, MaxScroll]`. */
  function ScrollTo<T>(b: Box<T>, v: int): (r: Box<T>)
    ensures r.entries == b.entries && r.clientHeight == b.clientHeight && r.lineHeight == b.lineHeight
    ensures Settled(r)
    ensures 0 <= v <= MaxScroll(b) ==> r.scrollTop == v
    ensures v >= MaxScroll(b) ==> r.scrollTop == MaxScroll(b)
    ensures v <= 0 ==> r.scrollTop == 0
  {
    var top := if v < 0 then 0 else if v > MaxScroll(b) then MaxScroll(b) else v;
    b.(scrollTop := top)
  }

  /** `appendChild` of a batch: more content, the offset untouched. */
  function Append<T>(b: Box<T>, xs: seq<T>): (r: Box<T>)
    ensures r.entries == b.entries + xs && r.scrollTop == b.scrollTop
    ensures MaxScroll(r) >= MaxScroll(b)
    ensures Settled(b) ==> Settled(r)
  {
    b.(entries := b.entries + xs)
  }

  /** `innerHTML = ''`: no entries, so the offset falls back to zero. */
  function Clear<T>(b: Box<T>): (r: Box<T>)
    ensures r.entries == [] && r.scrollTop == 0 && Settled(r)
    ensures r.clientHeight == b.clientHeight && r.lineHeight == b.lineHeight
  {
    b.(entries := [], scrollTop := 0)
  }

  /** How far from the bottom the auto-scroll listeners tolerate. */
  const BottomSlack: nat := 50

  /** `scrollHeight - clientHeight <= scrollTop + 50`. */
  predicate NearBottom<T>(b: Box<T>)
  {
    ScrollHeight(b) - b.clientHeight <= b.scrollTop + BottomSlack
  }

  /**
   * A batch flush: a non-empty batch is appended, then the box scrolls to the
   * bottom when auto-scroll is on and back to its earlier offset otherwise.
   */
  function FlushBox<T>(b: Box<T>, xs: seq<T>, autoScroll: bool): (r: Box<T>)
    ensures r.entries == b.entries + xs
    ensures r.clientHeight == b.clientHeight && r.lineHeight == b.lineHeight
    ensures Settled(b) ==> Settled(r)
    ensures xs != [] && autoScroll ==> r.scrollTop == MaxScroll(r) && NearBottom(r)
    ensures Settled(b) && !autoScroll ==> r.scrollTop == b.scrollTop
    ensures xs == [] ==> r == b
  {
    if xs == [] then b
    else
      var saved := b.scrollTop;
      var a := Append(b, xs);
      if autoScroll then ScrollTo(a, ScrollHeight(a)) else ScrollTo(a, saved)
  }

  /** All items of a list of batches, in order. */
  function Concat<T>(batches: seq<seq<T>>): seq<T>
  {
    if batches == [] then [] else batches[0] + Concat(batches[1..])
  }

  /** Flushing a series of batches, one after the other. */
  function FlushAll<T>(b: Box<T>, batches: seq<seq<T>>, autoScroll: bool): Box<T>
    decreases |batches|
  {
    if batches == [] then b else FlushAll(FlushBox(b, batches[0], autoScroll), batches[1..], autoScroll)
  }

  /**
   * Any series of flushes shows every entry once, in arrival order; with
   * auto-scroll off the reader's offset never moves, and with it on a
   * non-empty last batch leaves the box near enough to the bottom that the
   * scroll listener keeps auto-scroll on.
   */
  lemma {:induction false} FlushAllInOrder<T>(b: Box<T>, batches: seq<seq<T>>, autoScroll: bool)
    requires Settled(b)
    ensures FlushAll(b, batches, autoScroll).entries == b.entries + Concat(batches)
    ensures Settled(FlushAll(b, batches, autoScroll))
    ensures !autoScroll ==> FlushAll(b, batches, autoScroll).scrollTop == b.scrollTop
    ensures autoScroll && batches != [] && batches[|batches| - 1] != [] ==>
      NearBottom(FlushAll(b, batches, autoScroll))
    decreases |batches|
  {
    if batches != [] {
      var b' := FlushBox(b, batches[0], autoScroll);
      FlushAllInOrder(b', batches[1..], autoScroll);
      assert b.entries + Concat(batches) == b'.entries + Concat(batches[1..]);
      if |batches| == 1 {
        assert batches[1..] == [];
      } else {
        assert batches[1..][|batches[1..]| - 1] == batches[|batches| - 1];
      }
    }
  }

  // --------------------------------------------------------------- log feed

  /**
   * The log side of a page: `logFragment`, whether `batchTimeoutId` is set,
   * `logsContainerData` and the auto-scroll checkbox.
   */
  datatype LogFeed = LogFeed(pending: seq<string>, timerArmed: bool, box: Box<string>, autoScroll: bool)

  /** Every line received since the feed was last reset, shown or pending. */
  function Received(f: LogFeed): seq<string>
  {
    f.box.entries + f.pending
  }

  /** `updateLogs`: the line joins the batch; the timer is armed if it was not. */
  function QueueLine(f: LogFeed, line: string): (r: LogFeed)
    ensures Received(r) == Received(f) + [line]
    ensures r.pending == f.pending + [line] && r.timerArmed
    ensures r.box == f.box && r.autoScroll == f.autoScroll
  {
    f.(pending := f.pending + [line], timerArmed := true)
  }

  /**
   * `flushLogBatch`: the batch moves into the container in arrival order and
   * the scroll rule is applied; the timer is disarmed even when the batch
   * was empty.
   */
  function FlushLines(f: LogFeed): (r: LogFeed)
    ensures Received(r) == Received(f)
    ensures r.pending == [] && !r.timerArmed && r.autoScroll == f.autoScroll
    ensures r.box.entries == f.box.entries + f.pending
    ensures Settled(f.box) ==> Settled(r.box)
    ensures f.pending != [] && f.autoScroll ==> r.box.scrollTop == MaxScroll(r.box)
    ensures Settled(f.box) && !f.autoScroll ==> r.box.scrollTop == f.box.scrollTop
  {
    if |f.pending| > 0 then LogFeed([], false, FlushBox(f.box, f.pending, f.autoScroll), f.autoScroll)
    else f.(timerArmed := false)
  }

  /** A logs toggle: the batch and the shown lines are dropped; the timer stays. */
  function ResetLines(f: LogFeed): (r: LogFeed)
    ensures Received(r) == [] && Settled(r.box)
    ensures r.timerArmed == f.timerArmed && r.autoScroll == f.autoScroll
  {
    f.(pending := [], box := Clear(f.box))
  }

  /**
   * The container's scroll listener, after the reader scrolls to `v`:
   * auto-scroll goes off once the view is more than 50 pixels above the bottom.
   */
  function ScrollLines(f: LogFeed, v: int): (r: LogFeed)
    ensures r.box == ScrollTo(f.box, v) && Received(r) == Received(f)
    ensures r.autoScroll <==> f.autoScroll && NearBottom(r.box)
    ensures r.pending == f.pending && r.timerArmed == f.timerArmed
  {
    var box := ScrollTo(f.box, v);
    if f.autoScroll && !NearBottom(box) then f.(box := box, autoScroll := false)
    else f.(box := box)
  }

  /** The auto-scroll checkbox: checking it jumps to the bottom. */
  function SetAutoScroll(f: LogFeed, checked: bool): (r: LogFeed)
    ensures r.autoScroll == checked && Received(r) == Received(f)
    ensures checked ==> r.box.scrollTop == MaxScroll(r.box) && NearBottom(r.box)
    ensures !checked ==> r.box == f.box
    ensures r.pending == f.pending && r.timerArmed == f.timerArmed
  {
    if checked then f.(autoScroll := true, box := ScrollTo(f.box, ScrollHeight(f.box)))
    else f.(autoScroll := false)
  }

  // ----------------------------------------------------------------- messages

  /** A `sessionId` as a message carries it: absent, `null`, or a token. */
  datatype SessionTag = Missing | Null | Id(token: nat)

  /** The fields of an `event` message the pages use. */
  datatype EventData = EventData(clusterName: string, kind: string, objectName: string, message: string)

  /** The messages the server pushes over the WebSocket. */
  datatype Inbound =
    | ClustersMsg(clusters: seq<string>)
    | EventMsg(eventSession: SessionTag, event: EventData)
    | LogMsg(logSession: SessionTag, line: string)
    | ConditionsMsg(conditions: Option<seq<(string, seq<Condition>)>>)
      /** Any other `type`, `cachedevent` among them. */
    | OtherMsg(kind: string)

  /** What a page does with an inbound message. */
  datatype Route = ToClusters | ToEvents | ToLogs | ToConditions | Ignore

  /**
   * `handleWebSocketMessage` in main.js: cluster lists and condition maps
   * always, events and logs only under the current session (`===`, so a
   * `null` id matches a `null` session and a missing one matches nothing).
   */
  function DashboardRoute(m: Inbound, logSession: SessionTag, eventSession: SessionTag): (r: Route)
    ensures r == ToClusters <==> m.ClustersMsg?
    ensures r == ToConditions <==> m.ConditionsMsg?
    ensures r == ToEvents <==> m.EventMsg? && m.eventSession == eventSession
    ensures r == ToLogs <==> m.LogMsg? && m.logSession == logSession
  {
    match m
    case ClustersMsg(_) => ToClusters
    case EventMsg(s, _) => if s == eventSession then ToEvents else Ignore
    case LogMsg(s, _) => if s == logSession then ToLogs else Ignore
    case ConditionsMsg(_) => ToConditions
    case OtherMsg(_) => Ignore
  }

  /**
   * `handleWebSocketMessage` in cluster-details.js: the same gate, but the
   * cluster list is not handled there.
   */
  function ClusterRoute(m: Inbound, logSession: SessionTag, eventSession: SessionTag): (r: Route)
    ensures r != ToClusters
    ensures r == ToConditions <==> m.ConditionsMsg?
    ensures r == ToEvents <==> m.EventMsg? && m.eventSession == eventSession
    ensures r == ToLogs <==> m.LogMsg? && m.logSession == logSession
  {
    match m
    case ConditionsMsg(_) => ToConditions
    case EventMsg(s, _) => if s == eventSession then ToEvents else Ignore
    case LogMsg(s, _) => if s == logSession then ToLogs else Ignore
    case _ => Ignore
  }

  /** The two pages agree on everything but the cluster list. */
  lemma RoutesAgree(m: Inbound, logSession: SessionTag, eventSession: SessionTag)
    ensures !m.ClustersMsg? ==> ClusterRoute(m, logSession, eventSession) == DashboardRoute(m, logSession, eventSession)
    ensures m.ClustersMsg? ==> ClusterRoute(m, logSession, eventSession) == Ignore
  {
  }

  /** A decoded condition map: one entry per key, a later key winning. */
  function ConditionMap(entries: seq<(string, seq<Condition>)>): (m: map<string, seq<Condition>>)
    ensures m.Keys == set e | e in entries :: e.0
    ensures entries != [] ==> m[entries[|entries| - 1].0] == entries[|entries| - 1].1
  {
    if entries == [] then map[]
    else
      var last := entries[|entries| - 1];
      var rest := ConditionMap(entries[..|entries| - 1]);
      assert forall e :: e in entries <==> e in entries[..|entries| - 1] || e == last;
      rest[last.0 := last.1]
  }

  // ----------------------------------------------------------------- requests

  /** The requests the pages send over the WebSocket. */
  datatype Outbound =
      /** `{type: "logs", sessionId, follow, startTime, endTime, clusterMap}`. */
    | LogsRequest(session: nat, follow: bool, startTime: string, endTime: string, clusterMap: map<string, bool>)
      /** `{type: "logs", sessionId: null}`. */
    | LogsStop
      /** `{type: "clustersevents", clusters, sessionId}`. */
    | ClustersEvents(clusters: seq<string>, eventSession: SessionTag)

  /** Logs may be requested when following or when a start time is set. */
  predicate LogsAllowed(follow: bool, startTime: string)
  {
    follow || startTime != ""
  }

  /** `clusterMap`: every listed cluster mapped to `true`. */
  function ClusterMap(clusters: seq<string>): (m: map<string, bool>)
    ensures forall c :: c in m <==> c in clusters
    ensures forall c :: c in m ==> m[c]
  {
    map c | c in clusters :: true
  }

  /**
   * The enabling logs request: the start time as entered, the end time only
   * when not following, and the checked clusters.
   */
  function StartLogs(session: nat, follow: bool, startTime: string, endTime: string,
                     clusters: seq<string>): (r: Outbound)
    ensures r.LogsRequest? && r.session == session && r.follow == follow && r.startTime == startTime
    ensures follow ==> r.endTime == ""
    ensures !follow ==> r.endTime == endTime
    ensures forall c :: c in r.clusterMap <==> c in clusters
    ensures forall c :: c in r.clusterMap ==> r.clusterMap[c]
  {
    LogsRequest(session, follow, startTime, if !follow && endTime != "" then endTime else "", ClusterMap(clusters))
  }
}
