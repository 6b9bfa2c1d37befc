// The state of the WebSocket server in internal/server/server_functions.go
// and how each handler changes it, as functions on a value. Clients are
// numbered; locks, goroutines and context cancellation are left out, a
// cancelled watcher is one removed from its registry, and the broadcast
// channel is the sequence of messages put on it and not yet handled.
// A write to a client's connection either succeeds or fails; which one is an
// input to every operation that writes.
module ServerState {
  import opened Wrappers
  import opened Messages
  import opened Listing

  type ClientId = nat

  /** One cluster condition (`map[string]interface{}`), with string values. */
  type Condition = map<string, string>

  /** The log watcher a client has running: its parsed times, mode, clusters and session. */
  datatype LogWatchRequest = LogWatchRequest(
    start: Option<int>, end: Option<int>, follow: bool, clusterMap: map<string, bool>, session: string)

  /** What gets written to a client's connection. */
  datatype Payload =
    | ClustersPayload(clusters: set<string>)
    | ConditionsPayload(conditions: map<string, seq<Condition>>)
    | Routed(m: Message)

  /**
   * A `Client`: the clusters it watches, its log and event session ids, the
   * `sendingCached` flag, its queue of held-back events, its log watcher,
   * and everything written to its connection so far.
   */
  datatype ClientState = ClientState(
    watchlist: set<string>,
    logSession: string,
    eventSession: string,
    sendingCached: bool,
    queue: seq<Message>,
    logWatcher: Option<LogWatchRequest>,
    received: seq<Payload>)

  /** A freshly connected client. */
  const NewClient := ClientState({}, "", "", false, [], None, [])

  /** What the broadcast channel carries, by the message's `Type`. */
  datatype Broadcast =
    | ClustersListUpdate(clusters: set<string>)
    | ConditionsUpdate(conditions: map<string, seq<Condition>>)
    | Routable(m: Message)

  /** The `Server`'s maps and sets. */
  datatype State = State(
    clients: set<ClientId>,
    info: map<ClientId, ClientState>,
    pending: set<ClientId>,
    nextId: ClientId,
    watchers: set<string>,
    eventCache: map<string, seq<Message>>,
    clusters: set<string>,
    conditions: map<string, seq<Condition>>,
    broadcast: seq<Broadcast>)

  const Initial := State({}, map[], {}, 0, {}, map[], {}, map[], [])

  /**
   * Pending clients are connected, connected clients have a state, and the
   * next client number is unused.
   */
  ghost predicate Valid(s: State)
  {
    s.pending <= s.clients && s.clients <= s.info.Keys && (forall c :: c in s.info ==> c < s.nextId)
  }

  // ------------------------------------------------------------- routing

  datatype Action = Ignore | SendNow | Enqueue

  /**
   * `determineClientAction`: a `log` goes to the client whose log session
   * it carries; an `event` of a watched cluster is stamped with the client's
   * event session and held back while cached events are being replayed; a
   * `cachedevent` goes to a watcher of that cluster with the same event
   * session; anything else is ignored. Only an `event` is restamped.
   */
  function DetermineClientAction(c: ClientState, m: Message): (r: (Action, Message))
    ensures m.mtype == "log" ==> r.0 != Enqueue && (r.0 == SendNow <==> c.logSession == m.sessionId)
    ensures m.mtype == "event" ==>
      (r.0 != Ignore <==> m.clusterName in c.watchlist) &&
      (r.0 == Enqueue <==> m.clusterName in c.watchlist && c.sendingCached)
    ensures m.mtype == "event" && r.0 != Ignore ==> r.1 == Stamped(m, c.eventSession)
    ensures m.mtype == "cachedevent" ==>
      r.0 != Enqueue && (r.0 == SendNow <==> m.clusterName in c.watchlist && c.eventSession == m.sessionId)
    ensures m.mtype != "log" && m.mtype != "event" && m.mtype != "cachedevent" ==> r.0 == Ignore
    ensures m.mtype != "event" ==> r.1 == m
  {
    if m.mtype == "log" then
      if c.logSession == m.sessionId then (SendNow, m) else (Ignore, m)
    else if m.mtype == "event" then
      if m.clusterName in c.watchlist then
        var stamped := m.(sessionId := c.eventSession);
        if c.sendingCached then (Enqueue, stamped) else (SendNow, stamped)
      else (Ignore, m)
    else if m.mtype == "cachedevent" then
      if m.clusterName in c.watchlist && c.eventSession == m.sessionId then (SendNow, m) else (Ignore, m)
    else (Ignore, m)
  }

  /** Whatever a client is sent is addressed to it: a live log or event of its own session. */
  lemma SentMessagesAreTheClients(c: ClientState, m: Message)
    requires DetermineClientAction(c, m).0 != Ignore
    ensures var m' := DetermineClientAction(c, m).1;
      (m'.mtype == "log" && m'.sessionId == c.logSession) ||
      (m'.mtype in {"event", "cachedevent"} && m'.clusterName in c.watchlist && m'.sessionId == c.eventSession)
  {
  }

  // ------------------------------------------------------------ event cache

  /** The most events kept per cluster by the live path. */
  const CacheLimit: nat := 1000

  /** A cluster's cached events; a missing entry reads as nil. */
  function CacheOf(cache: map<string, seq<Message>>, cluster: string): seq<Message>
  {
    if cluster in cache then cache[cluster] else []
  }

  /**
   * The event-cache append of `handleMessages`: at the limit or beyond, the
   * oldest entry is dropped; the event is stored retyped `cachedevent`.
   */
  function CacheAppend(cache: seq<Message>, m: Message): (r: seq<Message>)
    ensures |cache| < CacheLimit ==> r == cache + [m.(mtype := "cachedevent")]
    ensures |cache| >= CacheLimit ==> r == cache[1..] + [m.(mtype := "cachedevent")]
    ensures |cache| <= CacheLimit ==> |r| <= CacheLimit
  {
    (if |cache| >= CacheLimit then cache[1..] else cache) + [m.(mtype := "cachedevent")]
  }

  /** `ms` retyped `cachedevent`, in order. */
  function AsCached(ms: seq<Message>): (r: seq<Message>)
    ensures |r| == |ms|
    ensures forall i :: 0 <= i < |ms| ==> r[i] == ms[i].(mtype := "cachedevent")
  {
    if ms == [] then [] else AsCached(ms[..|ms| - 1]) + [ms[|ms| - 1].(mtype := "cachedevent")]
  }

  /** The cache after the live events `ms` arrived one after the other. */
  function CacheAll(cache: seq<Message>, ms: seq<Message>): seq<Message>
  {
    if ms == [] then cache else CacheAppend(CacheAll(cache, ms[..|ms| - 1]), ms[|ms| - 1])
  }

  /** The last `n` elements of `s` (all of them when `s` is shorter). */
  function Latest<T>(s: seq<T>, n: nat): seq<T>
  {
    if |s| <= n then s else s[|s| - n..]
  }

  /**
   * Starting from at most 1000 entries, the cache always holds exactly the
   * 1000 most recent entries (or all, if fewer), oldest first.
   */
  lemma {:induction false} CacheHoldsLatest(cache: seq<Message>, ms: seq<Message>)
    requires |cache| <= CacheLimit
    ensures CacheAll(cache, ms) == Latest(cache + AsCached(ms), CacheLimit)
  {
    if ms == [] {
      assert cache + AsCached(ms) == cache;
    } else {
      var ms' := ms[..|ms| - 1];
      var x := ms[|ms| - 1].(mtype := "cachedevent");
      CacheHoldsLatest(cache, ms');
      var all' := cache + AsCached(ms');
      assert cache + AsCached(ms) == all' + [x];
      var prev := Latest(all', CacheLimit);
      if |all'| < CacheLimit {
      } else {
        assert |prev| == CacheLimit;
        assert prev[1..] + [x] == (all' + [x])[|all' + [x]| - CacheLimit..];
      }
    }
  }

  // ------------------------------------------------------ watcher registry

  /** `getActiveClusters`: every cluster some connected client watches. */
  function Active(s: State): set<string>
  {
    set c, k | c in s.clients && c in s.info && k in s.info[c].watchlist :: k
  }

  /**
   * `startWatcher`: a cluster already watched is left alone; otherwise its
   * cache is loaded with `initial` (the initial events, unbounded) and a
   * watcher registered.
   */
  function StartWatcher(s: State, cluster: string, initial: seq<Message>): (r: State)
    ensures r.watchers == s.watchers + {cluster}
    ensures cluster in s.watchers ==> r == s
    ensures cluster !in s.watchers ==> r.eventCache == s.eventCache[cluster := initial]
    ensures r == s.(watchers := r.watchers, eventCache := r.eventCache)
  {
    if cluster in s.watchers then s
    else s.(watchers := s.watchers + {cluster}, eventCache := s.eventCache[cluster := initial])
  }

  /**
   * `cleanupEventWatchers(active)`: a watcher of a cluster not in `active`
   * is stopped and its cache dropped.
   */
  function Cleanup(s: State, active: set<string>): (r: State)
    ensures r.watchers <= active && r.watchers <= s.watchers
    ensures forall k :: k in s.watchers && k in active ==> k in r.watchers
    ensures forall k :: k in r.eventCache <==> k in s.eventCache && (k !in s.watchers || k in active)
    ensures forall k :: k in r.eventCache ==> r.eventCache[k] == s.eventCache[k]
    ensures r == s.(watchers := r.watchers, eventCache := r.eventCache)
  {
    s.(watchers := s.watchers * active,
       eventCache := map k | k in s.eventCache && (k !in s.watchers || k in active) :: s.eventCache[k])
  }

  /** Starting a watcher twice is starting it once. */
  lemma StartWatcherIdempotent(s: State, cluster: string, a: seq<Message>, b: seq<Message>)
    ensures StartWatcher(StartWatcher(s, cluster, a), cluster, b) == StartWatcher(s, cluster, a)
  {
  }

  /** `startWatcher` for each cluster of `cs`, in order. */
  function StartAll(s: State, cs: seq<string>, initial: string -> seq<Message>): (r: State)
  {
    if cs == [] then s
    else var last := cs[|cs| - 1]; StartWatcher(StartAll(s, cs[..|cs| - 1], initial), last, initial(last))
  }

  /**
   * After starting watchers for `cs`, exactly the old watchers and `cs` are
   * watched; a newly watched cluster holds its initial events, and every
   * other cache entry is as it was.
   */
  lemma {:induction false} StartAllWatches(s: State, cs: seq<string>, initial: string -> seq<Message>)
    ensures var r := StartAll(s, cs, initial);
      r == s.(watchers := r.watchers, eventCache := r.eventCache) &&
      (forall k :: k in r.watchers <==> k in s.watchers || k in cs) &&
      (forall k :: k in cs && k !in s.watchers ==> k in r.eventCache && r.eventCache[k] == initial(k)) &&
      (forall k :: k !in cs || k in s.watchers ==> CacheOf(r.eventCache, k) == CacheOf(s.eventCache, k) &&
                                                   (k in r.eventCache <==> k in s.eventCache))
  {
    if cs != [] {
      var cs' := cs[..|cs| - 1];
      StartAllWatches(s, cs', initial);
      assert forall k :: k in cs <==> k in cs' || k == cs[|cs| - 1];
    }
  }

  /** Starting watchers reads nothing but the watchers and their caches. */
  lemma {:induction false} StartAllReadsWatchers(s: State, t: State, cs: seq<string>, initial: string -> seq<Message>)
    requires s.watchers == t.watchers && s.eventCache == t.eventCache
    ensures StartAll(s, cs, initial).watchers == StartAll(t, cs, initial).watchers
    ensures StartAll(s, cs, initial).eventCache == StartAll(t, cs, initial).eventCache
  {
    if cs != [] {
      StartAllReadsWatchers(s, t, cs[..|cs| - 1], initial);
    }
  }

  // ---------------------------------------------------------- connections

  /** A client connects: it gets the next number and a fresh state. */
  function Connect(s: State): (r: (State, ClientId))
    ensures Valid(s) ==> Valid(r.0) && r.1 !in s.info
    ensures r.0.clients == s.clients + {r.1} && r.0.info == s.info[r.1 := NewClient]
  {
    (s.(clients := s.clients + {s.nextId}, info := s.info[s.nextId := NewClient], nextId := s.nextId + 1), s.nextId)
  }

  /** The client with its state replaced. */
  function WithClient(s: State, c: ClientId, cs: ClientState): State
  {
    s.(info := s.info[c := cs])
  }

  /** A client whose connection failed leaves both `clients` and `pendingClients`. */
  function Drop(s: State, c: ClientId): (r: State)
    ensures Valid(s) ==> Valid(r)
    ensures c !in r.clients && c !in r.pending
  {
    s.(clients := s.clients - {c}, pending := s.pending - {c})
  }

  /**
   * `sendToClient`: a successful write is recorded on the connection; a
   * failed one drops the client.
   */
  function Send(s: State, c: ClientId, p: Payload, ok: bool): (r: State)
    requires c in s.info
    ensures Valid(s) ==> Valid(r)
    ensures ok ==> r == WithClient(s, c, s.info[c].(received := s.info[c].received + [p]))
    ensures !ok ==> r == Drop(s, c)
  {
    if ok then WithClient(s, c, s.info[c].(received := s.info[c].received + [p])) else Drop(s, c)
  }

  /**
   * The disconnect path of `handleConnections`: the log watcher is
   * cancelled, the client unregistered, and watchers nobody needs any more
   * are cleaned up.
   */
  function Disconnect(s: State, c: ClientId): (r: State)
    requires c in s.info
  {
    var s1 := Drop(WithClient(s, c, s.info[c].(logWatcher := None)), c);
    Cleanup(s1, Active(s1))
  }

  /** After a disconnect, every remaining watcher serves a connected client. */
  lemma DisconnectCleans(s: State, c: ClientId, k: string)
    requires Valid(s) && c in s.info
    requires k in Disconnect(s, c).watchers
    ensures exists d :: d in s.clients && d != c && d in s.info && k in s.info[d].watchlist
  {
    var s1 := Drop(WithClient(s, c, s.info[c].(logWatcher := None)), c);
    assert k in Active(s1);
    var d :| d in s1.clients && d in s1.info && k in s1.info[d].watchlist;
    assert s1.info[d] == s.info[d];
  }

  // ------------------------------------------------------ client requests

  /** The clusters of a request, as a set. */
  function Clusters(cs: seq<string>): set<string>
  {
    set k | k in cs
  }

  /**
   * A `clustersevents` request: new event session, empty queue, not
   * pending, the watchlist replaced by exactly the requested clusters, a
   * watcher started for each, then watchers nobody needs are cleaned up.
   * (The cached-event replays it starts run on their own; see
   * `ReplayStart`.)
   */
  function ClustersEvents(s: State, c: ClientId, session: string, requested: seq<string>,
                          initial: string -> seq<Message>): State
    requires c in s.info
  {
    var cs := s.info[c].(eventSession := session, queue := [], watchlist := Clusters(requested));
    var s1 := WithClient(s, c, cs).(pending := s.pending - {c});
    var s2 := StartAll(s1, requested, initial);
    Cleanup(s2, Active(s2))
  }

  /**
   * For a connected client, after a `clustersevents` request every requested
   * cluster has a watcher, a newly watched one has its initial events
   * cached, no watcher is left that no client needs, and the client is not
   * pending.
   */
  lemma ClustersEventsWatches(s: State, c: ClientId, session: string, requested: seq<string>,
                              initial: string -> seq<Message>)
    requires Valid(s) && c in s.clients
    ensures var r := ClustersEvents(s, c, session, requested, initial);
      Valid(r) && c in r.info &&
      r.info[c] == s.info[c].(eventSession := session, queue := [], watchlist := Clusters(requested)) &&
      c !in r.pending &&
      (forall k :: k in requested ==> k in r.watchers) &&
      (forall k :: k in requested && k !in s.watchers ==> k in r.eventCache && r.eventCache[k] == initial(k)) &&
      r.watchers <= Active(r)
  {
    var cs := s.info[c].(eventSession := session, queue := [], watchlist := Clusters(requested));
    var s1 := WithClient(s, c, cs).(pending := s.pending - {c});
    var s2 := StartAll(s1, requested, initial);
    StartAllWatches(s1, requested, initial);
    assert s2.clients == s.clients && s2.info == s1.info;
    forall k | k in requested
      ensures k in Active(s2)
    {
      assert k in s2.info[c].watchlist;
    }
  }

  /** Times in a `logs` request: the empty string and unparsable text are absent. */
  function ParsedTime(text: string, parse: string -> Option<int>): Option<int>
  {
    if text == "" then None else parse(text)
  }

  /**
   * A `logs` request: an empty session id stops the client's log stream;
   * any other replaces the session and starts a new watcher (the old one is
   * cancelled). The end time counts only when not following.
   */
  function LogsRequest(s: State, c: ClientId, session: string, startTime: string, endTime: string,
                       follow: bool, clusterMap: map<string, bool>, parse: string -> Option<int>): (r: State)
    requires c in s.info
    ensures Valid(s) ==> Valid(r)
    ensures c in r.info && r == WithClient(s, c, r.info[c])
    ensures session == "" ==> r.info[c] == s.info[c].(logSession := "", logWatcher := None)
    ensures session != "" ==> r.info[c].logSession == session && r.info[c].logWatcher.Some?
    ensures session != "" ==> r.info[c].logWatcher.value.end.Some? ==> !follow && endTime != ""
    ensures session != "" ==> r.info[c].logWatcher.value.start == ParsedTime(startTime, parse)
    ensures session != "" && !follow ==> r.info[c].logWatcher.value.end == ParsedTime(endTime, parse)
    ensures session != "" && follow ==> r.info[c].logWatcher.value.end == None
    ensures session != "" ==>
      && r.info[c].logWatcher.value.follow == follow
      && r.info[c].logWatcher.value.clusterMap == clusterMap
      && r.info[c].logWatcher.value.session == session
  {
    if session == "" then
      WithClient(s, c, s.info[c].(logSession := "", logWatcher := None))
    else
      var end := if !follow then ParsedTime(endTime, parse) else None;
      var w := LogWatchRequest(ParsedTime(startTime, parse), end, follow, clusterMap, session);
      WithClient(s, c, s.info[c].(logSession := session, logWatcher := Some(w)))
  }

  /** After a `logs` request, the client's log messages are exactly those of the new session. */
  lemma LogsRequestSelects(s: State, c: ClientId, session: string, startTime: string, endTime: string,
                           follow: bool, clusterMap: map<string, bool>, parse: string -> Option<int>, m: Message)
    requires c in s.info && m.mtype == "log"
    ensures var r := LogsRequest(s, c, session, startTime, endTime, follow, clusterMap, parse);
      DetermineClientAction(r.info[c], m).0 == SendNow <==> m.sessionId == session
  {
  }

  // -------------------------------------------------------- pending queues

  /** Payloads for routed messages, in order. */
  function RoutedAll(ms: seq<Message>): (r: seq<Payload>)
    ensures |r| == |ms|
    ensures forall i :: 0 <= i < |ms| ==> r[i] == Routed(ms[i])
  {
    if ms == [] then [] else RoutedAll(ms[..|ms| - 1]) + [Routed(ms[|ms| - 1])]
  }

  /**
   * `processPendingClient`, with `accepted` the number of writes the
   * connection takes before one fails: a client still replaying stays
   * pending; otherwise its queue is taken and, if it is still connected,
   * written in order up to the first failure, which drops it. The boolean
   * says whether to take the client off the pending set.
   */
  function ProcessPending(s: State, c: ClientId, accepted: nat): (r: (State, bool))
    requires c in s.info
    ensures Valid(s) ==> Valid(r.0)
    ensures r.0.info.Keys == s.info.Keys
    ensures r.1 <==> !s.info[c].sendingCached
  {
    var cs := s.info[c];
    if cs.sendingCached then (s, false)
    else if cs.queue == [] then (s, true)
    else
      var q := cs.queue;
      var s1 := WithClient(s, c, cs.(queue := []));
      if c !in s.clients then (s1, true)
      else if accepted >= |q| then (WithClient(s, c, cs.(queue := [], received := cs.received + RoutedAll(q))), true)
      else (Drop(WithClient(s, c, cs.(queue := [], received := cs.received + RoutedAll(q[..accepted]))), c), true)
  }

  /**
   * A connected client that is not replaying gets its held-back events in
   * the order they were queued, up to the first failed write; the queue ends
   * empty, and a failed write disconnects it.
   */
  lemma ProcessPendingDelivers(s: State, c: ClientId, accepted: nat)
    requires Valid(s) && c in s.clients && !s.info[c].sendingCached
    ensures var r := ProcessPending(s, c, accepted).0;
      var q := s.info[c].queue;
      var n := if accepted < |q| then accepted else |q|;
      r.info[c].queue == [] &&
      r.info[c].received == s.info[c].received + RoutedAll(q[..n]) &&
      (c in r.clients <==> accepted >= |q|)
  {
    var q := s.info[c].queue;
    if q == [] {
      assert q[..0] == [];
      assert RoutedAll([]) == [];
    } else if accepted >= |q| {
      assert q[..|q|] == q;
    }
  }

  /**
   * Processing one client touches that client alone: in a state that
   * agrees with `s` on it, it makes the same change.
   */
  lemma ProcessPendingLocal(s: State, t: State, c: ClientId, accepted: nat)
    requires Valid(s) && Valid(t) && c in s.info && c in t.info && t.info[c] == s.info[c]
    requires (c in t.clients <==> c in s.clients) && (c in t.pending <==> c in s.pending)
    ensures var (r, remove) := ProcessPending(s, c, accepted);
      ProcessPending(t, c, accepted) ==
        (t.(info := t.info[c := r.info[c]],
            clients := if c in r.clients then t.clients else t.clients - {c},
            pending := if c in r.pending then t.pending else t.pending - {c}), remove)
  {
    var cs := s.info[c];
    if c !in s.clients {
      assert c !in t.pending;
      assert t.clients - {c} == t.clients && t.pending - {c} == t.pending;
    }
    if c !in s.pending {
      assert t.pending - {c} == t.pending;
    }
    if cs.sendingCached || cs.queue == [] {
      assert t.info[c := cs] == t.info;
    } else if c !in s.clients {
      assert c !in t.pending;
      assert t.clients - {c} == t.clients && t.pending - {c} == t.pending;
    }
  }

  /**
   * The state once the pending clients in `done` have been processed, each
   * as `processPendingClient` does, without yet leaving the pending set.
   */
  function PartlyDrained(s: State, done: set<ClientId>, accepted: ClientId -> nat): (r: State)
    requires Valid(s) && done <= s.pending
    ensures Valid(r)
  {
    s.(info := (map c | c in s.info :: if c in done then ProcessPending(s, c, accepted(c)).0.info[c] else s.info[c]),
       clients := (set c | c in s.clients && (c !in done || c in ProcessPending(s, c, accepted(c)).0.clients)),
       pending := (set c | c in s.pending && (c !in done || c in ProcessPending(s, c, accepted(c)).0.pending)))
  }

  /** Before any client is processed nothing has changed. */
  lemma PartlyDrainedNone(s: State, accepted: ClientId -> nat)
    requires Valid(s)
    ensures PartlyDrained(s, {}, accepted) == s
  {
    var d := PartlyDrained(s, {}, accepted);
    assert d.info == s.info && d.clients == s.clients && d.pending == s.pending;
  }

  /** Processing one more pending client extends the processed set by it. */
  lemma DrainStep(s: State, done: set<ClientId>, c: ClientId, accepted: ClientId -> nat)
    requires Valid(s) && done <= s.pending && c in s.pending && c !in done
    ensures ProcessPending(PartlyDrained(s, done, accepted), c, accepted(c)) ==
            (PartlyDrained(s, done + {c}, accepted), ProcessPending(s, c, accepted(c)).1)
  {
    ProcessPendingLocal(s, PartlyDrained(s, done, accepted), c, accepted(c));
    DrainStepInfo(s, done, c, accepted);
    DrainStepClients(s, done, c, accepted);
    DrainStepPending(s, done, c, accepted);
  }

  lemma DrainStepInfo(s: State, done: set<ClientId>, c: ClientId, accepted: ClientId -> nat)
    requires Valid(s) && done <= s.pending && c in s.pending && c !in done
    ensures PartlyDrained(s, done + {c}, accepted).info ==
            PartlyDrained(s, done, accepted).info[c := ProcessPending(s, c, accepted(c)).0.info[c]]
  {
  }

  lemma DrainStepClients(s: State, done: set<ClientId>, c: ClientId, accepted: ClientId -> nat)
    requires Valid(s) && done <= s.pending && c in s.pending && c !in done
    ensures var t := PartlyDrained(s, done, accepted).clients;
      PartlyDrained(s, done + {c}, accepted).clients ==
        if c in ProcessPending(s, c, accepted(c)).0.clients then t else t - {c}
  {
  }

  lemma DrainStepPending(s: State, done: set<ClientId>, c: ClientId, accepted: ClientId -> nat)
    requires Valid(s) && done <= s.pending && c in s.pending && c !in done
    ensures var t := PartlyDrained(s, done, accepted).pending;
      PartlyDrained(s, done + {c}, accepted).pending ==
        if c in ProcessPending(s, c, accepted(c)).0.pending then t else t - {c}
  {
  }

  /** The processed clients that leave the pending set: those not replaying. */
  function Finished(s: State, done: set<ClientId>): set<ClientId>
    requires done <= s.info.Keys
  {
    set c | c in done && !s.info[c].sendingCached
  }

  /**
   * The pending clients processed one after the other in the order `order`
   * lists them, and those among them that are done, in that order.
   */
  function DrainSeq(s: State, order: seq<ClientId>, accepted: ClientId -> nat): (r: (State, seq<ClientId>))
    requires Valid(s) && Members(order) <= s.info.Keys
    ensures Valid(r.0) && r.0.info.Keys == s.info.Keys
  {
    if order == [] then (s, [])
    else
      var c := order[|order| - 1];
      var prev := DrainSeq(s, order[..|order| - 1], accepted);
      var next := ProcessPending(prev.0, c, accepted(c));
      (next.0, prev.1 + if next.1 then [c] else [])
  }

  /** One more client of the list processed. */
  lemma DrainSeqStep(s: State, order: seq<ClientId>, i: nat, accepted: ClientId -> nat)
    requires Valid(s) && Members(order) <= s.info.Keys && i < |order|
    ensures Members(order[..i]) <= s.info.Keys && Members(order[..i + 1]) <= s.info.Keys
    ensures var prev := DrainSeq(s, order[..i], accepted);
      var next := ProcessPending(prev.0, order[i], accepted(order[i]));
      DrainSeq(s, order[..i + 1], accepted) == (next.0, prev.1 + if next.1 then [order[i]] else [])
  {
    MembersPrefix(order, i);
    MembersPrefix(order, i + 1);
    assert order[..i + 1][..i] == order[..i];
  }

  /** The finished clients among one more processed client. */
  lemma FinishedAdd(s: State, done: set<ClientId>, c: ClientId)
    requires done <= s.info.Keys && c in s.info
    ensures Finished(s, done + {c}) == Finished(s, done) + if s.info[c].sendingCached then {} else {c}
  {
  }

  /**
   * The order in which the pending clients are processed makes no
   * difference: processing them in any order, each once, gives the state
   * `PartlyDrained` describes, and the finished clients are those not
   * replaying.
   */
  lemma {:induction false} DrainOrder(s: State, order: seq<ClientId>, accepted: ClientId -> nat)
    requires Valid(s) && Members(order) <= s.pending && NoRepeats(order)
    ensures DrainSeq(s, order, accepted).0 == PartlyDrained(s, Members(order), accepted)
    ensures Members(DrainSeq(s, order, accepted).1) == Finished(s, Members(order))
  {
    if order == [] {
      PartlyDrainedNone(s, accepted);
    } else {
      var prefix := order[..|order| - 1];
      var c := order[|order| - 1];
      DrainOrder(s, prefix, accepted);
      DrainStep(s, Members(prefix), c, accepted);
      FinishedAdd(s, Members(prefix), c);
      var rm := DrainSeq(s, prefix, accepted).1;
      if !s.info[c].sendingCached {
        assert (rm + [c])[..|rm|] == rm;
      } else {
        assert rm + [] == rm;
      }
    }
  }

  /**
   * The first step of `handleMessages`: every pending client is processed;
   * those that are not replaying leave the pending set.
   */
  function DrainPending(s: State, accepted: ClientId -> nat): (r: State)
    requires Valid(s)
    ensures Valid(r)
    ensures r.pending == set c | c in s.pending && s.info[c].sendingCached
  {
    PartlyDrained(s, s.pending, accepted).(pending := (set c | c in s.pending && s.info[c].sendingCached))
  }

  /**
   * Taking the clients that are done off the pending set after processing
   * them all is `DrainPending`.
   */
  lemma DrainFinish(s: State, accepted: ClientId -> nat)
    requires Valid(s)
    ensures var d := PartlyDrained(s, s.pending, accepted);
      d.(pending := d.pending - Finished(s, s.pending)) == DrainPending(s, accepted)
  {
    var d := PartlyDrained(s, s.pending, accepted);
    forall c | c in s.pending && s.info[c].sendingCached
      ensures c in d.pending
    {
      assert ProcessPending(s, c, accepted(c)).0 == s;
    }
  }

  // -------------------------------------------------- handling broadcasts

  /** The state change `Route` makes to one connected client. */
  function RouteOne(cs: ClientState, m: Message, ok: bool): ClientState
  {
    var (action, m') := DetermineClientAction(cs, m);
    match action
    case SendNow => if ok then cs.(received := cs.received + [Routed(m')]) else cs
    case Enqueue => cs.(queue := cs.queue + [m'])
    case Ignore => cs
  }

  /** The client's write of `m` fails. */
  predicate Dropped(cs: ClientState, m: Message, ok: bool)
  {
    DetermineClientAction(cs, m).0 == SendNow && !ok
  }

  /**
   * The `event`/`log`/`cachedevent` case of `handleMessages`: an `event` is
   * cached; then each connected client is sent the message, has it queued,
   * or ignores it, as `DetermineClientAction` says; a failed write drops the
   * client, a queued message makes it pending.
   */
  function Route(s: State, m: Message, writeOk: ClientId -> bool): (r: State)
    requires Valid(s)
    ensures Valid(r)
  {
    var cache := if m.mtype == "event"
      then s.eventCache[m.clusterName := CacheAppend(CacheOf(s.eventCache, m.clusterName), m)]
      else s.eventCache;
    s.(eventCache := cache,
       info := (map c | c in s.info :: if c in s.clients then RouteOne(s.info[c], m, writeOk(c)) else s.info[c]),
       clients := (set c | c in s.clients && !Dropped(s.info[c], m, writeOk(c))),
       pending := (set c | c in s.clients && !Dropped(s.info[c], m, writeOk(c)) &&
                          (c in s.pending || DetermineClientAction(s.info[c], m).0 == Enqueue)))
  }

  /**
   * A live event reaches every connected client watching its cluster whose
   * write succeeds, stamped with that client's session, unless the client is
   * replaying cached events, in which case it waits, stamped, in its queue.
   */
  lemma RouteDeliversEvents(s: State, m: Message, writeOk: ClientId -> bool, c: ClientId)
    requires Valid(s) && c in s.clients && m.mtype == "event" && m.clusterName in s.info[c].watchlist
    ensures var r := Route(s, m, writeOk); var cs := s.info[c];
      (cs.sendingCached ==> c in r.pending && r.info[c].queue == cs.queue + [Stamped(m, cs.eventSession)]) &&
      (!cs.sendingCached && writeOk(c) ==>
        c in r.clients && r.info[c].received == cs.received + [Routed(Stamped(m, cs.eventSession))]) &&
      (!cs.sendingCached && !writeOk(c) ==> c !in r.clients && c !in r.pending)
  {
  }

  /** Routing caches exactly the live events, bounded as `CacheAppend` says. */
  lemma RouteCaches(s: State, m: Message, writeOk: ClientId -> bool, k: string)
    requires Valid(s)
    ensures var r := Route(s, m, writeOk);
      (m.mtype == "event" && k == m.clusterName ==> CacheOf(r.eventCache, k) == CacheAppend(CacheOf(s.eventCache, k), m)) &&
      (m.mtype != "event" || k != m.clusterName ==> CacheOf(r.eventCache, k) == CacheOf(s.eventCache, k))
  {
  }

  /** The event cache once `m` is handled: a live event is appended to its cluster's. */
  function CacheRouted(cache: map<string, seq<Message>>, m: Message): map<string, seq<Message>>
  {
    if m.mtype == "event" then cache[m.clusterName := CacheAppend(CacheOf(cache, m.clusterName), m)] else cache
  }

  /**
   * The first loop of the routing case after the clients in `done` have been
   * looked at: those told to send were written to, and dropped if the write
   * failed.
   */
  function SentPart(s: State, m: Message, writeOk: ClientId -> bool, done: set<ClientId>): State
    requires Valid(s) && done <= s.clients
  {
    s.(info := (map c | c in s.info ::
                  if c in done && DetermineClientAction(s.info[c], m).0 == SendNow && writeOk(c)
                  then s.info[c].(received := s.info[c].received + [Routed(DetermineClientAction(s.info[c], m).1)])
                  else s.info[c]),
       clients := (set c | c in s.clients && !(c in done && Dropped(s.info[c], m, writeOk(c)))),
       pending := (set c | c in s.pending && !(c in done && Dropped(s.info[c], m, writeOk(c)))))
  }

  /** The clients among `done` told to queue the message, with the message each queues. */
  function QueuedPart(s: State, m: Message, done: set<ClientId>): map<ClientId, Message>
    requires done <= s.info.Keys
  {
    map c | c in done && DetermineClientAction(s.info[c], m).0 == Enqueue :: DetermineClientAction(s.info[c], m).1
  }

  /** Before any client is looked at nothing has changed. */
  lemma SentPartNone(s: State, m: Message, writeOk: ClientId -> bool)
    requires Valid(s)
    ensures SentPart(s, m, writeOk, {}) == s && QueuedPart(s, m, {}) == map[]
  {
    var t := SentPart(s, m, writeOk, {});
    assert t.info == s.info && t.clients == s.clients && t.pending == s.pending;
  }

  /**
   * Looking at one more client: it is still connected and as it was; a
   * send is `sendToClient` of the client's message, a queueing adds it to
   * the ones to queue, and anything else changes nothing.
   */
  lemma SentStep(s: State, m: Message, writeOk: ClientId -> bool, done: set<ClientId>, c: ClientId)
    requires Valid(s) && done <= s.clients && c in s.clients && c !in done
    ensures var t := SentPart(s, m, writeOk, done);
      c in t.clients && t.info[c] == s.info[c] && Valid(t)
    ensures var t := SentPart(s, m, writeOk, done); var d := DetermineClientAction(s.info[c], m);
      SentPart(s, m, writeOk, done + {c}) == (if d.0 == SendNow then Send(t, c, Routed(d.1), writeOk(c)) else t)
    ensures var d := DetermineClientAction(s.info[c], m);
      QueuedPart(s, m, done + {c}) == if d.0 == Enqueue then QueuedPart(s, m, done)[c := d.1] else QueuedPart(s, m, done)
  {
    SentStepInfo(s, m, writeOk, done, c);
    SentStepSets(s, m, writeOk, done, c);
  }

  lemma SentStepInfo(s: State, m: Message, writeOk: ClientId -> bool, done: set<ClientId>, c: ClientId)
    requires Valid(s) && done <= s.clients && c in s.clients && c !in done
    ensures var t := SentPart(s, m, writeOk, done); var d := DetermineClientAction(s.info[c], m);
      SentPart(s, m, writeOk, done + {c}).info ==
        if d.0 == SendNow && writeOk(c) then t.info[c := s.info[c].(received := s.info[c].received + [Routed(d.1)])] else t.info
  {
  }

  lemma SentStepSets(s: State, m: Message, writeOk: ClientId -> bool, done: set<ClientId>, c: ClientId)
    requires Valid(s) && done <= s.clients && c in s.clients && c !in done
    ensures var t := SentPart(s, m, writeOk, done); var u := SentPart(s, m, writeOk, done + {c});
      u.clients == (if Dropped(s.info[c], m, writeOk(c)) then t.clients - {c} else t.clients) &&
      u.pending == (if Dropped(s.info[c], m, writeOk(c)) then t.pending - {c} else t.pending)
  {
  }

  /**
   * The second loop of the routing case after the clients in `done` have
   * been handled: each still connected has its message queued and is
   * pending.
   */
  function QueuePart(s: State, toQueue: map<ClientId, Message>, done: set<ClientId>): State
    requires done <= toQueue.Keys
  {
    s.(info := (map c | c in s.info ::
                  if c in done && c in s.clients then s.info[c].(queue := s.info[c].queue + [toQueue[c]]) else s.info[c]),
       pending := s.pending + (set c | c in done && c in s.clients))
  }

  /** Before any client is queued nothing has changed. */
  lemma QueuePartNone(s: State, toQueue: map<ClientId, Message>)
    ensures QueuePart(s, toQueue, {}) == s
  {
    var t := QueuePart(s, toQueue, {});
    assert t.info == s.info && t.pending == s.pending;
  }

  /** Queueing for one more client. */
  lemma QueueStep(s: State, toQueue: map<ClientId, Message>, done: set<ClientId>, c: ClientId)
    requires Valid(s) && done <= toQueue.Keys && c in toQueue && c !in done
    ensures var t := QueuePart(s, toQueue, done);
      Valid(t) && (c in t.clients <==> c in s.clients) && (c in s.info ==> c in t.info && t.info[c] == s.info[c])
    ensures var t := QueuePart(s, toQueue, done);
      QueuePart(s, toQueue, done + {c}) ==
        if c in s.clients then t.(info := t.info[c := t.info[c].(queue := t.info[c].queue + [toQueue[c]])],
                                  pending := t.pending + {c})
        else t
  {
    var t := QueuePart(s, toQueue, done);
    var u := QueuePart(s, toQueue, done + {c});
    if c in s.clients {
      assert u.info == t.info[c := t.info[c].(queue := t.info[c].queue + [toQueue[c]])];
      assert u.pending == t.pending + {c};
    } else {
      assert u.info == t.info && u.pending == t.pending;
    }
  }

  /**
   * The first loop of the routing case run over the clients `order` lists,
   * one after the other: the new state and the messages noted for queueing.
   */
  function RouteSeq(s: State, m: Message, writeOk: ClientId -> bool, order: seq<ClientId>): (r: (State, map<ClientId, Message>))
    requires Valid(s) && Members(order) <= s.info.Keys
    ensures Valid(r.0) && r.0.info.Keys == s.info.Keys
    decreases |order|
  {
    if order == [] then (s, map[])
    else
      var prev := RouteSeq(s, m, writeOk, order[..|order| - 1]);
      var c := order[|order| - 1];
      var d := DetermineClientAction(prev.0.info[c], m);
      (if d.0 == SendNow then Send(prev.0, c, Routed(d.1), writeOk(c)) else prev.0,
       if d.0 == Enqueue then prev.1[c := d.1] else prev.1)
  }

  /** One more client of the list handled by the first routing loop. */
  lemma RouteSeqStep(s: State, m: Message, writeOk: ClientId -> bool, order: seq<ClientId>, i: nat)
    requires Valid(s) && Members(order) <= s.info.Keys && i < |order|
    ensures Members(order[..i]) <= s.info.Keys && Members(order[..i + 1]) <= s.info.Keys
    ensures var prev := RouteSeq(s, m, writeOk, order[..i]);
      var d := DetermineClientAction(prev.0.info[order[i]], m);
      RouteSeq(s, m, writeOk, order[..i + 1]) ==
        (if d.0 == SendNow then Send(prev.0, order[i], Routed(d.1), writeOk(order[i])) else prev.0,
         if d.0 == Enqueue then prev.1[order[i] := d.1] else prev.1)
  {
    MembersPrefix(order, i);
    MembersPrefix(order, i + 1);
    assert order[..i + 1][..i] == order[..i];
  }

  /**
   * The order in which the first routing loop visits the clients does not
   * matter: any list of distinct connected clients yields the change
   * `SentPart` and the noted messages `QueuedPart` describe for them.
   */
  lemma {:induction false} RouteSeqParts(s: State, m: Message, writeOk: ClientId -> bool, order: seq<ClientId>)
    requires Valid(s) && Members(order) <= s.clients && NoRepeats(order)
    ensures RouteSeq(s, m, writeOk, order) == (SentPart(s, m, writeOk, Members(order)), QueuedPart(s, m, Members(order)))
    decreases |order|
  {
    if order == [] {
      SentPartNone(s, m, writeOk);
    } else {
      var pre := order[..|order| - 1];
      RouteSeqParts(s, m, writeOk, pre);
      SentStep(s, m, writeOk, Members(pre), order[|order| - 1]);
    }
  }

  /** The second routing loop run over the clients `order` lists. */
  function QueueSeq(s: State, toQueue: map<ClientId, Message>, order: seq<ClientId>): (r: State)
    requires Valid(s) && Members(order) <= toQueue.Keys
    ensures Valid(r) && r.clients == s.clients && r.info.Keys == s.info.Keys
    decreases |order|
  {
    if order == [] then s
    else
      var t := QueueSeq(s, toQueue, order[..|order| - 1]);
      var c := order[|order| - 1];
      if c in t.clients then t.(info := t.info[c := t.info[c].(queue := t.info[c].queue + [toQueue[c]])],
                                pending := t.pending + {c})
      else t
  }

  /** One more client queued by the second routing loop. */
  lemma QueueSeqStep(s: State, toQueue: map<ClientId, Message>, order: seq<ClientId>, i: nat)
    requires Valid(s) && Members(order) <= toQueue.Keys && i < |order|
    ensures Members(order[..i]) <= toQueue.Keys && Members(order[..i + 1]) <= toQueue.Keys
    ensures var t := QueueSeq(s, toQueue, order[..i]); var c := order[i];
      QueueSeq(s, toQueue, order[..i + 1]) ==
        if c in t.clients then t.(info := t.info[c := t.info[c].(queue := t.info[c].queue + [toQueue[c]])],
                                  pending := t.pending + {c})
        else t
  {
    MembersPrefix(order, i);
    MembersPrefix(order, i + 1);
    assert order[..i + 1][..i] == order[..i];
  }

  /** The order in which the noted clients are queued does not matter. */
  lemma {:induction false} QueueSeqPart(s: State, toQueue: map<ClientId, Message>, order: seq<ClientId>)
    requires Valid(s) && Members(order) <= toQueue.Keys && NoRepeats(order)
    ensures QueueSeq(s, toQueue, order) == QueuePart(s, toQueue, Members(order))
    decreases |order|
  {
    if order == [] {
      QueuePartNone(s, toQueue);
    } else {
      var pre := order[..|order| - 1];
      QueueSeqPart(s, toQueue, pre);
      QueueStep(s, toQueue, Members(pre), order[|order| - 1]);
    }
  }

  /**
   * The two loops of the routing case, run over all connected clients,
   * make the change `Route` describes.
   */
  lemma RouteInTwoLoops(s: State, m: Message, writeOk: ClientId -> bool)
    requires Valid(s)
    ensures var s1 := s.(eventCache := CacheRouted(s.eventCache, m));
      var toQueue := QueuedPart(s1, m, s1.clients);
      QueuePart(SentPart(s1, m, writeOk, s1.clients), toQueue, toQueue.Keys) == Route(s, m, writeOk)
  {
    RouteInTwoLoopsInfo(s, m, writeOk);
    RouteInTwoLoopsPending(s, m, writeOk);
  }

  lemma RouteInTwoLoopsInfo(s: State, m: Message, writeOk: ClientId -> bool)
    requires Valid(s)
    ensures var s1 := s.(eventCache := CacheRouted(s.eventCache, m));
      var toQueue := QueuedPart(s1, m, s1.clients);
      QueuePart(SentPart(s1, m, writeOk, s1.clients), toQueue, toQueue.Keys).info == Route(s, m, writeOk).info
  {
  }

  lemma RouteInTwoLoopsPending(s: State, m: Message, writeOk: ClientId -> bool)
    requires Valid(s)
    ensures var s1 := s.(eventCache := CacheRouted(s.eventCache, m));
      var toQueue := QueuedPart(s1, m, s1.clients);
      QueuePart(SentPart(s1, m, writeOk, s1.clients), toQueue, toQueue.Keys).pending == Route(s, m, writeOk).pending
  {
  }

  /**
   * `broadcastToAllClients`: the payload is written to every connected
   * client; those whose write fails are dropped.
   */
  function BroadcastAll(s: State, p: Payload, writeOk: ClientId -> bool): (r: State)
    requires Valid(s)
    ensures Valid(r)
    ensures r.clients == set c | c in s.clients && writeOk(c)
  {
    s.(info := (map c | c in s.info :: if c in s.clients && writeOk(c) then s.info[c].(received := s.info[c].received + [p]) else s.info[c]),
       clients := (set c | c in s.clients && writeOk(c)),
       pending := (set c | c in s.pending && writeOk(c)))
  }

  /** `broadcastToAllClients` after writing to the clients of the snapshot in `done`. */
  function BroadcastPart(s: State, p: Payload, writeOk: ClientId -> bool, done: set<ClientId>): State
    requires Valid(s) && done <= s.clients
  {
    s.(info := (map c | c in s.info :: if c in done && writeOk(c) then s.info[c].(received := s.info[c].received + [p]) else s.info[c]),
       clients := (set c | c in s.clients && !(c in done && !writeOk(c))),
       pending := (set c | c in s.pending && !(c in done && !writeOk(c))))
  }

  /** Before any write nothing has changed; after writing to all, `BroadcastAll`. */
  lemma BroadcastPartEnds(s: State, p: Payload, writeOk: ClientId -> bool)
    requires Valid(s)
    ensures BroadcastPart(s, p, writeOk, {}) == s
    ensures BroadcastPart(s, p, writeOk, s.clients) == BroadcastAll(s, p, writeOk)
  {
    var t := BroadcastPart(s, p, writeOk, {});
    assert t.info == s.info && t.clients == s.clients && t.pending == s.pending;
    var u := BroadcastPart(s, p, writeOk, s.clients);
    var r := BroadcastAll(s, p, writeOk);
    assert u.info == r.info && u.clients == r.clients && u.pending == r.pending;
  }

  /** Writing to one more client of the snapshot is `sendToClient`'s write. */
  lemma BroadcastStep(s: State, p: Payload, writeOk: ClientId -> bool, done: set<ClientId>, c: ClientId)
    requires Valid(s) && done <= s.clients && c in s.clients && c !in done
    ensures var t := BroadcastPart(s, p, writeOk, done);
      Valid(t) && c in t.info && BroadcastPart(s, p, writeOk, done + {c}) == Send(t, c, p, writeOk(c))
  {
    var t := BroadcastPart(s, p, writeOk, done);
    var u := BroadcastPart(s, p, writeOk, done + {c});
    var r := Send(t, c, p, writeOk(c));
    assert u.info == r.info;
    assert u.clients == r.clients && u.pending == r.pending;
  }

  /** `broadcastToAllClients` writing to the clients `order` lists, one after the other. */
  function BroadcastSeq(s: State, p: Payload, writeOk: ClientId -> bool, order: seq<ClientId>): (r: State)
    requires Valid(s) && Members(order) <= s.info.Keys
    ensures Valid(r) && r.info.Keys == s.info.Keys
    decreases |order|
  {
    if order == [] then s
    else
      var c := order[|order| - 1];
      Send(BroadcastSeq(s, p, writeOk, order[..|order| - 1]), c, p, writeOk(c))
  }

  /** One more client written to by the broadcast. */
  lemma BroadcastSeqStep(s: State, p: Payload, writeOk: ClientId -> bool, order: seq<ClientId>, i: nat)
    requires Valid(s) && Members(order) <= s.info.Keys && i < |order|
    ensures Members(order[..i]) <= s.info.Keys && Members(order[..i + 1]) <= s.info.Keys
    ensures BroadcastSeq(s, p, writeOk, order[..i + 1]) ==
            Send(BroadcastSeq(s, p, writeOk, order[..i]), order[i], p, writeOk(order[i]))
  {
    MembersPrefix(order, i);
    MembersPrefix(order, i + 1);
    assert order[..i + 1][..i] == order[..i];
  }

  /** The order in which the broadcast writes to the clients does not matter. */
  lemma {:induction false} BroadcastSeqPart(s: State, p: Payload, writeOk: ClientId -> bool, order: seq<ClientId>)
    requires Valid(s) && Members(order) <= s.clients && NoRepeats(order)
    ensures BroadcastSeq(s, p, writeOk, order) == BroadcastPart(s, p, writeOk, Members(order))
    decreases |order|
  {
    if order == [] {
      BroadcastPartEnds(s, p, writeOk);
    } else {
      var pre := order[..|order| - 1];
      BroadcastSeqPart(s, p, writeOk, pre);
      BroadcastStep(s, p, writeOk, Members(pre), order[|order| - 1]);
    }
  }

  /**
   * One turn of `handleMessages`: pending clients are served, then the
   * oldest message on the channel is handled by its type.
   */
  function HandleNext(s: State, accepted: ClientId -> nat, writeOk: ClientId -> bool): (r: State)
    requires Valid(s) && s.broadcast != []
  {
    var s1 := DrainPending(s, accepted);
    var s2 := s1.(broadcast := s1.broadcast[1..]);
    match s.broadcast[0]
    case ClustersListUpdate(cl) => BroadcastAll(s2, ClustersPayload(cl), writeOk)
    case ConditionsUpdate(conds) => BroadcastAll(s2, ConditionsPayload(conds), writeOk)
    case Routable(m) =>
      if m.mtype in {"event", "log", "cachedevent"} then Route(s2, m, writeOk) else s2
  }

  // ------------------------------------------------- cached-event replay

  /** Broadcast entries for messages, in order. */
  function RoutableAll(ms: seq<Message>): (r: seq<Broadcast>)
    ensures |r| == |ms|
    ensures forall i :: 0 <= i < |ms| ==> r[i] == Routable(ms[i])
  {
    if ms == [] then [] else RoutableAll(ms[..|ms| - 1]) + [Routable(ms[|ms| - 1])]
  }

  /**
   * `sendCachedEvents` up to its deferred reset: with nothing cached it does
   * nothing; otherwise the client is marked as replaying and the cluster's
   * cached events, stamped with the client's event session, are put on the
   * channel in order. The boolean says whether the replay started.
   */
  function ReplayStart(s: State, c: ClientId, cluster: string): (r: (State, bool))
    requires c in s.info
    ensures Valid(s) ==> Valid(r.0)
    ensures r.1 <==> CacheOf(s.eventCache, cluster) != []
  {
    var events := CacheOf(s.eventCache, cluster);
    if events == [] then (s, false)
    else
      var cs := s.info[c];
      (WithClient(s, c, cs.(sendingCached := true)).(broadcast := s.broadcast + RoutableAll(StampedAll(events, cs.eventSession))), true)
  }

  /** The deferred reset at the end of `sendCachedEvents`. */
  function ReplayEnd(s: State, c: ClientId): (r: State)
    requires c in s.info
    ensures Valid(s) ==> Valid(r)
    ensures c in r.info && !r.info[c].sendingCached
  {
    WithClient(s, c, s.info[c].(sendingCached := false))
  }

  /** Every cached event of `cluster` is a `cachedevent` of that cluster. */
  ghost predicate CacheTagged(cache: map<string, seq<Message>>, cluster: string)
  {
    forall e :: e in CacheOf(cache, cluster) ==> e.mtype == "cachedevent" && e.clusterName == cluster
  }

  /**
   * A replay reaches the client it is for: each replayed message, once
   * handled, is one `DetermineClientAction` sends to that client as long as
   * it still watches the cluster under the same event session.
   */
  lemma ReplayAddressed(s: State, c: ClientId, cluster: string, i: nat, later: ClientState)
    requires c in s.info && CacheTagged(s.eventCache, cluster)
    requires cluster in later.watchlist && later.eventSession == s.info[c].eventSession
    requires |s.broadcast| <= i < |ReplayStart(s, c, cluster).0.broadcast|
    ensures var b := ReplayStart(s, c, cluster).0.broadcast[i];
      b.Routable? && DetermineClientAction(later, b.m) == (SendNow, b.m)
  {
    var events := CacheOf(s.eventCache, cluster);
    var stamped := StampedAll(events, s.info[c].eventSession);
    var r := ReplayStart(s, c, cluster).0;
    assert r.broadcast == s.broadcast + RoutableAll(stamped);
    var j := i - |s.broadcast|;
    assert r.broadcast[i] == Routable(stamped[j]);
    assert events[j] in events;
  }

  /** Live caching keeps entries typed `cachedevent` and under their own cluster. */
  lemma CacheAppendTagged(cache: map<string, seq<Message>>, m: Message, cluster: string)
    requires CacheTagged(cache, cluster) && m.mtype == "event"
    ensures CacheTagged(cache[m.clusterName := CacheAppend(CacheOf(cache, m.clusterName), m)], cluster)
  {
    var cache' := cache[m.clusterName := CacheAppend(CacheOf(cache, m.clusterName), m)];
    if cluster == m.clusterName {
      var old_ := CacheOf(cache, cluster);
      var kept := if |old_| >= CacheLimit then old_[1..] else old_;
      assert CacheOf(cache', cluster) == kept + [m.(mtype := "cachedevent")];
      forall e | e in CacheOf(cache', cluster)
        ensures e.mtype == "cachedevent" && e.clusterName == cluster
      {
        if e in kept {
          assert e in old_;
        }
      }
    } else {
      assert CacheOf(cache', cluster) == CacheOf(cache, cluster);
    }
  }

  // -------------------------------------------------- cluster bookkeeping

  /** A condition entry as decoded: a map, or something else. */
  datatype RawItem = MapItem(fields: Condition) | OtherItem

  /** `status.conditions`: not a list, missing, or a list. */
  datatype ConditionsField = ConditionsError | NoConditions | ConditionsList(items: seq<RawItem>)

  /** `status`: not a map, missing, or a map holding the conditions. */
  datatype StatusField = StatusError | NoStatus | StatusMap(conditions: ConditionsField)

  /**
   * What the cluster informer hands the handlers: nil, an object of another
   * type, an `Unstructured` cluster (its name, whether it carries a deletion
   * timestamp, its status), or a `DeletedFinalStateUnknown` tombstone.
   */
  datatype InformerObject =
    | NilObject
    | OtherObject
    | Unstructured(name: string, deleting: bool, status: StatusField)
    | Tombstone(inner: InformerObject)

  /**
   * `addCluster`: a live `Unstructured` cluster not yet known is added and
   * the new list put on the channel; nothing happens otherwise.
   */
  function AddCluster(s: State, obj: InformerObject): (r: State)
    ensures Valid(s) ==> Valid(r)
    ensures r.clusters == s.clusters + (if obj.Unstructured? && !obj.deleting then {obj.name} else {})
    ensures r.broadcast == s.broadcast || (r.clusters != s.clusters && r.broadcast == s.broadcast + [ClustersListUpdate(r.clusters)])
    ensures r.clusters == s.clusters ==> r == s
    ensures r == s.(clusters := r.clusters, broadcast := r.broadcast)
  {
    if obj.Unstructured? && !obj.deleting && obj.name !in s.clusters then
      var cl := s.clusters + {obj.name};
      s.(clusters := cl, broadcast := s.broadcast + [ClustersListUpdate(cl)])
    else s
  }

  /** The name `deleteCluster` finds: in a tombstone's `Unstructured`, or the object's own. */
  function DeletedName(obj: InformerObject): Option<string>
  {
    match obj
    case Tombstone(Unstructured(name, _, _)) => Some(name)
    case Unstructured(name, _, _) => Some(name)
    case _ => None
  }

  /**
   * `deleteCluster`: a known cluster named by the object (directly or
   * through a tombstone) is removed with its conditions, and both the list
   * and the conditions are put on the channel; nothing happens otherwise.
   */
  function DeleteCluster(s: State, obj: InformerObject): (r: State)
    ensures Valid(s) ==> Valid(r)
    ensures DeletedName(obj).Some? && DeletedName(obj).value != "" && DeletedName(obj).value in s.clusters ==>
      var name := DeletedName(obj).value;
      r.clusters == s.clusters - {name} && r.conditions == s.conditions - {name} &&
      r.broadcast == s.broadcast + [ClustersListUpdate(r.clusters), ConditionsUpdate(r.conditions)]
    ensures !(DeletedName(obj).Some? && DeletedName(obj).value != "" && DeletedName(obj).value in s.clusters) ==> r == s
    ensures r == s.(clusters := r.clusters, conditions := r.conditions, broadcast := r.broadcast)
  {
    match DeletedName(obj)
    case None => s
    case Some(name) =>
      if name == "" then s
      else if name !in s.clusters then s
      else
        var cl := s.clusters - {name};
        var conds := s.conditions - {name};
        s.(clusters := cl, conditions := conds,
           broadcast := s.broadcast + [ClustersListUpdate(cl), ConditionsUpdate(conds)])
  }

  /** A cluster added and then deleted leaves the books as they were, but for the broadcasts. */
  lemma AddThenDelete(s: State, name: string, status: StatusField)
    requires name != "" && name !in s.clusters && name !in s.conditions
    ensures var obj := Unstructured(name, false, status);
      var r := DeleteCluster(AddCluster(s, obj), obj);
      r.clusters == s.clusters && r.conditions == s.conditions &&
      r.broadcast == s.broadcast + [ClustersListUpdate(s.clusters + {name}), ClustersListUpdate(s.clusters), ConditionsUpdate(s.conditions)]
  {
    var obj := Unstructured(name, false, status);
    assert (s.clusters + {name}) - {name} == s.clusters;
    assert s.conditions - {name} == s.conditions;
  }

  /** The map items of a decoded condition list, in order; other items are dropped. */
  function MapItems(items: seq<RawItem>): (r: seq<Condition>)
    ensures |r| <= |items|
  {
    if items == [] then []
    else
      var last := items[|items| - 1];
      MapItems(items[..|items| - 1]) + (if last.MapItem? then [last.fields] else [])
  }

  /** Exactly the map items are kept. */
  lemma {:induction false} MapItemsMembers(items: seq<RawItem>, c: Condition)
    ensures c in MapItems(items) <==> MapItem(c) in items
  {
    if items != [] {
      var items' := items[..|items| - 1];
      assert items == items' + [items[|items| - 1]];
      MapItemsMembers(items', c);
    }
  }

  /**
   * The conditions `updateConditions` reads from an object: none when it
   * is not a cluster object or its status or condition list cannot be read;
   * an empty list when there are none; otherwise the map items.
   */
  function ConditionsOf(obj: InformerObject): Option<seq<Condition>>
  {
    if !obj.Unstructured? then None
    else match obj.status
      case StatusMap(ConditionsList(items)) => Some(MapItems(items))
      case StatusMap(NoConditions) => Some([])
      case _ => None
  }

  /**
   * `updateConditions`: for a known cluster whose conditions can be read,
   * its cached list is replaced wholesale and the conditions put on the
   * channel; anything else changes nothing.
   */
  function UpdateConditions(s: State, obj: InformerObject): (r: State)
    ensures Valid(s) ==> Valid(r)
    ensures obj.Unstructured? && obj.name in s.clusters && ConditionsOf(obj).Some? ==>
      r.conditions == s.conditions[obj.name := ConditionsOf(obj).value] &&
      r.broadcast == s.broadcast + [ConditionsUpdate(r.conditions)]
    ensures !(obj.Unstructured? && obj.name in s.clusters && ConditionsOf(obj).Some?) ==> r == s
    ensures r == s.(conditions := r.conditions, broadcast := r.broadcast)
  {
    if obj.Unstructured? && obj.name in s.clusters && ConditionsOf(obj).Some? then
      var conds := s.conditions[obj.name := ConditionsOf(obj).value];
      s.(conditions := conds, broadcast := s.broadcast + [ConditionsUpdate(conds)])
    else s
  }

  /** Conditions are only ever held for known clusters. */
  lemma ConditionsTracked(s: State, obj: InformerObject)
    requires s.conditions.Keys <= s.clusters
    ensures AddCluster(s, obj).conditions.Keys <= AddCluster(s, obj).clusters
    ensures DeleteCluster(s, obj).conditions.Keys <= DeleteCluster(s, obj).clusters
    ensures UpdateConditions(s, obj).conditions.Keys <= UpdateConditions(s, obj).clusters
  {
  }
}
