// The operator-log streamers: the read loop of `StartLogWatcher` in
// internal/logs/logs.go and its older form in logs/logs.go. Both read the
// first operator pod's log line by line and put `log` messages on the
// broadcast channel; they differ in what they do with a line that is not
// JSON and in the per-cluster filter.
module LogWatch {
  import opened Wrappers
  import opened Messages

  /** The fields `LogEntry` decodes from a JSON line: `ts` and `cluster`. */
  datatype LogEntry = LogEntry(ts: int, cluster: string)

  /**
   * One line read up to its newline: the raw text that gets forwarded and
   * its decoding (`None` when `json.Unmarshal` fails).
   */
  datatype LogLine = LogLine(raw: string, entry: Option<LogEntry>)

  /** What the loop does with one line. */
  datatype Step = Send | Skip | Stop

  /**
   * The per-line rule of the newer watcher: an undecodable line is sent as
   * it is; a decoded line past the end time (when not following) stops the
   * stream; with a cluster name, a decoded line of another cluster is
   * skipped.
   */
  function LineStep(l: LogLine, endTime: Option<int>, follow: bool, clusterName: string, namespace: string): (s: Step)
    ensures l.entry.None? ==> s == Send
    ensures s == Stop <==> l.entry.Some? && endTime.Some? && !follow && l.entry.value.ts > endTime.value
    ensures s == Skip <==>
      l.entry.Some? && !(endTime.Some? && !follow && l.entry.value.ts > endTime.value) &&
      clusterName != "" && l.entry.value.cluster != namespace + "/" + clusterName
  {
    match l.entry
    case None => Send
    case Some(entry) =>
      if endTime.Some? && !follow && entry.ts > endTime.value then Stop
      else if clusterName != "" && (entry.cluster == "" || entry.cluster != namespace + "/" + clusterName) then Skip
      else Send
  }

  /** The message a sent line becomes. */
  function LogMessage(l: LogLine, session: string): (m: Message)
    ensures m.mtype == "log" && m.sessionId == session && m.text == l.raw
  {
    Message("log", "", "", l.raw, "", "", session)
  }

  /** The messages the newer watcher sends for `lines`, read from the front. */
  function Streamed(lines: seq<LogLine>, endTime: Option<int>, follow: bool, clusterName: string,
                    namespace: string, session: string): (r: seq<Message>)
    ensures |r| <= |lines|
  {
    if lines == [] then []
    else
      match LineStep(lines[0], endTime, follow, clusterName, namespace)
      case Stop => []
      case Skip => Streamed(lines[1..], endTime, follow, clusterName, namespace, session)
      case Send => [LogMessage(lines[0], session)] + Streamed(lines[1..], endTime, follow, clusterName, namespace, session)
  }

  /**
   * The read loop of the newer `StartLogWatcher`: the lines are processed
   * in order until one stops the stream or the lines run out.
   */
  method ReadLines(ls: seq<LogLine>, endTime: Option<int>, follow: bool, clusterName: string,
                   namespace: string, session: string)
    returns (sent: seq<Message>)
    ensures sent == Streamed(ls, endTime, follow, clusterName, namespace, session)
  {
    sent := [];
    var i := 0;
    while i < |ls|
      invariant 0 <= i <= |ls|
      invariant sent + Streamed(ls[i..], endTime, follow, clusterName, namespace, session) ==
                Streamed(ls, endTime, follow, clusterName, namespace, session)
    {
      assert ls[i..][1..] == ls[i + 1..];
      var step := LineStep(ls[i], endTime, follow, clusterName, namespace);
      if step == Stop {
        return;
      }
      if step == Send {
        sent := sent + [LogMessage(ls[i], session)];
      }
      i := i + 1;
    }
  }

  /**
   * The newer `StartLogWatcher` after its setup: nothing without a namespace
   * (a fatal log), when listing pods fails, with no operator pod, or when the
   * stream cannot be opened; otherwise the lines of the first pod's log are
   * read. `lines` holds the newline-terminated lines the stream yields
   * before EOF.
   */
  method StartLogWatcher(namespace: string, pods: Option<seq<string>>, lines: Option<seq<LogLine>>,
                         endTime: Option<int>, follow: bool, clusterName: string, session: string)
    returns (sent: seq<Message>)
    ensures namespace == "" || pods.None? || pods == Some([]) || lines.None? ==> sent == []
    ensures namespace != "" && pods.Some? && pods.value != [] && lines.Some? ==>
      sent == Streamed(lines.value, endTime, follow, clusterName, namespace, session)
  {
    sent := [];
    if namespace == "" || pods.None? || pods.value == [] || lines.None? {
      return;
    }
    sent := ReadLines(lines.value, endTime, follow, clusterName, namespace, session);
  }

  /** A stopping line and everything read after it are never sent. */
  lemma {:induction false} StopCuts(a: seq<LogLine>, stop: LogLine, b: seq<LogLine>, endTime: Option<int>, follow: bool,
                                    clusterName: string, namespace: string, session: string)
    requires LineStep(stop, endTime, follow, clusterName, namespace) == Stop
    ensures Streamed(a + [stop] + b, endTime, follow, clusterName, namespace, session) ==
            Streamed(a, endTime, follow, clusterName, namespace, session)
  {
    if a == [] {
      assert a + [stop] + b == [stop] + b;
    } else {
      assert (a + [stop] + b)[1..] == a[1..] + [stop] + b;
      StopCuts(a[1..], stop, b, endTime, follow, clusterName, namespace, session);
    }
  }

  /** Before any stopping line, the stream is processed line by line. */
  lemma {:induction false} StreamedAppend(a: seq<LogLine>, b: seq<LogLine>, endTime: Option<int>, follow: bool,
                                          clusterName: string, namespace: string, session: string)
    requires forall i :: 0 <= i < |a| ==> LineStep(a[i], endTime, follow, clusterName, namespace) != Stop
    ensures Streamed(a + b, endTime, follow, clusterName, namespace, session) ==
            Streamed(a, endTime, follow, clusterName, namespace, session) + Streamed(b, endTime, follow, clusterName, namespace, session)
  {
    if a == [] {
      assert a + b == b;
    } else {
      assert (a + b)[1..] == a[1..] + b;
      assert (a + b)[0] == a[0];
      StreamedAppend(a[1..], b, endTime, follow, clusterName, namespace, session);
    }
  }

  /**
   * What is sent is a log message with the session id and the raw text of a
   * line that was read, for every message sent.
   */
  lemma {:induction false} StreamedFromLines(lines: seq<LogLine>, endTime: Option<int>, follow: bool,
                                             clusterName: string, namespace: string, session: string, m: Message)
    requires m in Streamed(lines, endTime, follow, clusterName, namespace, session)
    ensures m.mtype == "log" && m.sessionId == session
    ensures exists l :: l in lines && m == LogMessage(l, session) && LineStep(l, endTime, follow, clusterName, namespace) == Send
  {
    if m != LogMessage(lines[0], session) || LineStep(lines[0], endTime, follow, clusterName, namespace) != Send {
      StreamedFromLines(lines[1..], endTime, follow, clusterName, namespace, session, m);
      var l :| l in lines[1..] && m == LogMessage(l, session) && LineStep(l, endTime, follow, clusterName, namespace) == Send;
      assert l in lines;
    }
  }

  /** When following, the end time plays no part. */
  lemma {:induction false} FollowIgnoresEnd(lines: seq<LogLine>, endTime: Option<int>, clusterName: string,
                                            namespace: string, session: string)
    ensures Streamed(lines, endTime, true, clusterName, namespace, session) ==
            Streamed(lines, None, true, clusterName, namespace, session)
  {
    if lines != [] {
      FollowIgnoresEnd(lines[1..], endTime, clusterName, namespace, session);
    }
  }

  // ------------------------------------------------------- the older watcher

  /**
   * The per-line rule of logs/logs.go: an undecodable line is skipped, a
   * line past the end time (when not following) stops the stream, every
   * other line is sent.
   */
  function LegacyLineStep(l: LogLine, endTime: Option<int>, follow: bool): (s: Step)
    ensures l.entry.None? ==> s == Skip
    ensures s == Stop <==> l.entry.Some? && endTime.Some? && !follow && l.entry.value.ts > endTime.value
  {
    match l.entry
    case None => Skip
    case Some(entry) => if endTime.Some? && !follow && entry.ts > endTime.value then Stop else Send
  }

  function LegacyStreamed(lines: seq<LogLine>, endTime: Option<int>, follow: bool): (r: seq<Message>)
    ensures |r| <= |lines|
  {
    if lines == [] then []
    else
      match LegacyLineStep(lines[0], endTime, follow)
      case Stop => []
      case Skip => LegacyStreamed(lines[1..], endTime, follow)
      case Send => [LogMessage(lines[0], "")] + LegacyStreamed(lines[1..], endTime, follow)
  }

  /**
   * The older `StartLogWatcher`: nothing when listing pods fails, with no
   * operator pod or without a stream; otherwise the lines in order, with no
   * session id. (Its missing-namespace check ends the process.)
   */
  method StartLogWatcherLegacy(namespace: string, pods: Option<seq<string>>, lines: Option<seq<LogLine>>,
                               endTime: Option<int>, follow: bool)
    returns (sent: seq<Message>)
    ensures namespace == "" || pods.None? || pods == Some([]) || lines.None? ==> sent == []
    ensures namespace != "" && pods.Some? && pods.value != [] && lines.Some? ==>
      sent == LegacyStreamed(lines.value, endTime, follow)
  {
    sent := [];
    if namespace == "" || pods.None? || pods.value == [] || lines.None? {
      return;
    }
    sent := ReadLinesLegacy(lines.value, endTime, follow);
  }

  /** The read loop of the older `StartLogWatcher`. */
  method ReadLinesLegacy(ls: seq<LogLine>, endTime: Option<int>, follow: bool) returns (sent: seq<Message>)
    ensures sent == LegacyStreamed(ls, endTime, follow)
  {
    sent := [];
    var i := 0;
    while i < |ls|
      invariant 0 <= i <= |ls|
      invariant sent + LegacyStreamed(ls[i..], endTime, follow) == LegacyStreamed(ls, endTime, follow)
    {
      assert ls[i..][1..] == ls[i + 1..];
      var step := LegacyLineStep(ls[i], endTime, follow);
      if step == Stop {
        return;
      }
      if step == Send {
        sent := sent + [LogMessage(ls[i], "")];
      }
      i := i + 1;
    }
  }

  /**
   * On a stream of well-formed lines and with no cluster filter, the newer
   * watcher sends what the older one did, stamped with its session id.
   */
  lemma {:induction false} WatchersAgree(lines: seq<LogLine>, endTime: Option<int>, follow: bool,
                                         namespace: string, session: string)
    requires forall i :: 0 <= i < |lines| ==> lines[i].entry.Some?
    ensures Streamed(lines, endTime, follow, "", namespace, session) ==
            StampedAll(LegacyStreamed(lines, endTime, follow), session)
  {
    if lines != [] {
      WatchersAgree(lines[1..], endTime, follow, namespace, session);
      if LegacyLineStep(lines[0], endTime, follow) == Send {
        var rest := LegacyStreamed(lines[1..], endTime, follow);
        assert StampedAll([LogMessage(lines[0], "")] + rest, session) ==
               [LogMessage(lines[0], session)] + StampedAll(rest, session);
      }
    }
  }

  /** Undecodable lines reach the newer watcher's clients but not the older's. */
  lemma UndecodableLine(raw: string, endTime: Option<int>, follow: bool, clusterName: string,
                        namespace: string, session: string)
    ensures Streamed([LogLine(raw, None)], endTime, follow, clusterName, namespace, session) ==
            [LogMessage(LogLine(raw, None), session)]
    ensures LegacyStreamed([LogLine(raw, None)], endTime, follow) == []
  {
    assert [LogLine(raw, None)][1..] == [];
  }
}
