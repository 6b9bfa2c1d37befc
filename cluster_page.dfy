// The single-cluster page's streaming state (static/js/cluster-details.js):
// the watch-events and logs toggles, the session gate, the batched log feed
// and the unbatched events container.
module ClusterPage {
  import opened Wrappers
  import opened Colorizer
  import opened Streams

  /**
   * `updateEvents` on this page: no batching; the event is appended at once
   * and, when the logs auto-scroll checkbox is on, the container jumps to
   * the bottom.
   */
  function ShowEvent(b: Box<EventData>, e: EventData, autoScroll: bool): (r: Box<EventData>)
    ensures r.entries == b.entries + [e]
    ensures r.clientHeight == b.clientHeight && r.lineHeight == b.lineHeight
    ensures Settled(b) ==> Settled(r)
    ensures autoScroll ==> r.scrollTop == MaxScroll(r) && NearBottom(r)
    ensures !autoScroll ==> r.scrollTop == b.scrollTop
  {
    var a := Append(b, [e]);
    if autoScroll then ScrollTo(a, ScrollHeight(a)) else a
  }

  class ClusterDetails {
    /** The cluster this page shows (`data-name` of `clusterNameHolder`). */
    const clusterName: string

    /** `currentLogSessionId`, `currentEventSessionId`. */
    var logSession: SessionTag
    var eventSession: SessionTag
    /** Every id issued so far is below this (ids are fresh tokens). */
    var nextToken: nat

    /** The two checkboxes. */
    var logsChecked: bool
    var watchChecked: bool
    /** The log feed and the events container. */
    var log: LogFeed
    var events: Box<EventData>
    /** What the two search indexes hold. */
    var logIndex: seq<string>
    var eventIndex: seq<EventData>
    /** What the conditions container shows, once rendered. */
    var conditions: Option<ConditionsView>

    /** Every request sent over the socket, oldest first. */
    var outbox: seq<Outbound>

    predicate Valid()
      reads this
    {
      && (logSession.Id? ==> logSession.token < nextToken)
      && (eventSession.Id? ==> eventSession.token < nextToken)
      && Settled(log.box) && Settled(events)
    }

    constructor(clusterName: string, logsHeight: nat, eventsHeight: nat, lineHeight: nat)
      ensures Valid() && this.clusterName == clusterName
      ensures logSession == Null && eventSession == Null && !logsChecked && !watchChecked
      ensures log == LogFeed([], false, Box([], logsHeight, lineHeight, 0), true)
      ensures events == Box([], eventsHeight, lineHeight, 0)
      ensures conditions == None && outbox == []
    {
      this.clusterName := clusterName;
      logSession, eventSession, nextToken := Null, Null, 0;
      logsChecked, watchChecked := false, false;
      log := LogFeed([], false, Box([], logsHeight, lineHeight, 0), true);
      events := Box([], eventsHeight, lineHeight, 0);
      logIndex, eventIndex := [], [];
      conditions := None;
      outbox := [];
    }

    /**
     * The watch-events checkbox: the events container is emptied; checking
     * opens a fresh event session for this cluster alone, unchecking closes
     * it with an empty cluster list.
     */
    method OnWatchEventsChange(checked: bool)
      requires Valid()
      modifies this
      ensures Valid()
      ensures watchChecked == checked && events == Clear(old(events))
      ensures checked ==>
        && eventSession == Id(old(nextToken)) && nextToken == old(nextToken) + 1
        && outbox == old(outbox) + [ClustersEvents([clusterName], eventSession)]
      ensures !checked ==>
        && eventSession == Null && nextToken == old(nextToken)
        && outbox == old(outbox) + [ClustersEvents([], Null)]
      ensures unchanged(this`logSession, this`logsChecked, this`log, this`logIndex, this`eventIndex, this`conditions)
    {
      watchChecked := checked;
      events := Clear(events);
      if checked {
        eventSession := Id(nextToken);
        nextToken := nextToken + 1;
      } else {
        eventSession := Null;
      }
      outbox := outbox + [ClustersEvents(if checked then [clusterName] else [], eventSession)];
    }

    /**
     * The logs checkbox: the same validation and session handling as the
     * dashboard's, with this cluster as the only entry of `clusterMap`.
     */
    method OnLogsChange(checked: bool, follow: bool, startTime: string, endTime: string)
      requires Valid()
      modifies this
      ensures Valid()
      ensures log == ResetLines(old(log))
      ensures checked && !LogsAllowed(follow, startTime) ==>
        !logsChecked && logSession == old(logSession) && nextToken == old(nextToken)
        && logIndex == old(logIndex) && outbox == old(outbox)
      ensures checked && LogsAllowed(follow, startTime) ==>
        && logsChecked && logSession == Id(old(nextToken)) && nextToken == old(nextToken) + 1
        && logIndex == old(logIndex)
        && outbox == old(outbox) + [StartLogs(old(nextToken), follow, startTime, endTime, [clusterName])]
        && outbox[|outbox| - 1].clusterMap == map[clusterName := true]
      ensures !checked ==>
        !logsChecked && logSession == Null && nextToken == old(nextToken) && logIndex == []
        && outbox == old(outbox) + [LogsStop]
      ensures unchanged(this`eventSession, this`watchChecked, this`events, this`eventIndex, this`conditions)
    {
      log := ResetLines(log);
      if checked {
        if !follow && startTime == "" {
          logsChecked := false;
          return;
        }
        logsChecked := true;
        logSession := Id(nextToken);
        nextToken := nextToken + 1;
        var request := StartLogs(logSession.token, follow, startTime, endTime, [clusterName]);
        assert request.clusterMap == map[clusterName := true];
        outbox := outbox + [request];
      } else {
        logsChecked := false;
        logSession := Null;
        logIndex := [];
        outbox := outbox + [LogsStop];
      }
    }

    /** `updateLogs`: the line joins the batch and the search index. */
    method UpdateLogs(line: string)
      requires Valid()
      modifies this
      ensures Valid()
      ensures log == QueueLine(old(log), line) && logIndex == old(logIndex) + [line]
      ensures unchanged(this`logSession, this`eventSession, this`nextToken, this`logsChecked, this`watchChecked)
      ensures unchanged(this`events, this`eventIndex, this`conditions, this`outbox)
    {
      logIndex := logIndex + [line];
      log := QueueLine(log, line);
    }

    /** `flushLogBatch`, when the log timer fires. */
    method FlushLogBatch()
      requires Valid()
      modifies this
      ensures Valid()
      ensures log == FlushLines(old(log))
      ensures unchanged(this`logSession, this`eventSession, this`nextToken, this`logsChecked, this`watchChecked)
      ensures unchanged(this`logIndex, this`events, this`eventIndex, this`conditions, this`outbox)
    {
      log := FlushLines(log);
    }

    /** `updateEvents`: the event is shown at once and joins the search index. */
    method UpdateEvents(e: EventData)
      requires Valid()
      modifies this
      ensures Valid()
      ensures events == ShowEvent(old(events), e, log.autoScroll) && eventIndex == old(eventIndex) + [e]
      ensures unchanged(this`logSession, this`eventSession, this`nextToken, this`logsChecked, this`watchChecked)
      ensures unchanged(this`log, this`logIndex, this`conditions, this`outbox)
    {
      eventIndex := eventIndex + [e];
      events := ShowEvent(events, e, log.autoScroll);
    }

    /** The logs container's scroll listener, after the reader scrolls to `v`. */
    method OnLogsScroll(v: int)
      requires Valid()
      modifies this
      ensures Valid()
      ensures log == ScrollLines(old(log), v)
      ensures unchanged(this`logSession, this`eventSession, this`nextToken, this`logsChecked, this`watchChecked)
      ensures unchanged(this`logIndex, this`events, this`eventIndex, this`conditions, this`outbox)
    {
      log := ScrollLines(log, v);
    }

    /** The auto-scroll checkbox. */
    method OnAutoScrollChange(checked: bool)
      requires Valid()
      modifies this
      ensures Valid()
      ensures log == SetAutoScroll(old(log), checked)
      ensures unchanged(this`logSession, this`eventSession, this`nextToken, this`logsChecked, this`watchChecked)
      ensures unchanged(this`logIndex, this`events, this`eventIndex, this`conditions, this`outbox)
    {
      log := SetAutoScroll(log, checked);
    }

    /**
     * `handleWebSocketMessage`: routes by `ClusterRoute`. A `null` condition
     * map makes `renderConditions` throw, which leaves the page as it was.
     */
    method HandleMessage(m: Inbound)
      requires Valid()
      modifies this
      ensures Valid()
      ensures ClusterRoute(m, old(logSession), old(eventSession)) == Ignore ==> unchanged(this)
      ensures m.LogMsg? && m.logSession == old(logSession) ==>
        log == QueueLine(old(log), m.line) && logIndex == old(logIndex) + [m.line]
      ensures m.LogMsg? ==> unchanged(this`events, this`eventIndex, this`conditions)
      ensures m.EventMsg? && m.eventSession == old(eventSession) ==>
        events == ShowEvent(old(events), m.event, old(log).autoScroll) && eventIndex == old(eventIndex) + [m.event]
      ensures m.EventMsg? ==> unchanged(this`log, this`logIndex, this`conditions)
      ensures m.ConditionsMsg? && m.conditions.Some? ==>
        conditions == Some(RenderConditions(ConditionMap(m.conditions.value), clusterName))
      ensures m.ConditionsMsg? ==> unchanged(this`log, this`logIndex, this`events, this`eventIndex)
      ensures m.ConditionsMsg? && m.conditions.None? ==> unchanged(this)
      ensures unchanged(this`logSession, this`eventSession, this`nextToken, this`logsChecked, this`watchChecked, this`outbox)
    {
      match ClusterRoute(m, logSession, eventSession)
      case ToEvents => UpdateEvents(m.event);
      case ToLogs => UpdateLogs(m.line);
      case ToConditions =>
        if m.conditions.Some? {
          conditions := Some(RenderConditions(ConditionMap(m.conditions.value), clusterName));
        }
      case _ =>
    }
  }
}
