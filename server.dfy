// The `Server` of internal/server/server_functions.go as an object whose
// handlers update its maps in place. Each method is proved to leave the
// server in the state the corresponding function of ServerState describes.
module Server {
  import opened Wrappers
  import opened Messages
  import opened ServerState
  import opened Listing

  class Server {
    /** `clients`: the connected clients. */
    var clients: set<ClientId>
    /** Each `Client` object, connected or not, by number. */
    var info: map<ClientId, ClientState>
    /** `pendingClients`: clients with held-back events. */
    var pending: set<ClientId>
    /** The number the next client gets. */
    var nextId: ClientId
    /** `eventWatchers`: the clusters whose events are being watched. */
    var watchers: set<string>
    /** `eventCache`: per cluster, the events a new watcher is replayed. */
    var eventCache: map<string, seq<Message>>
    /** `clusters`: the known Couchbase clusters. */
    var clusters: set<string>
    /** `clusterConditions`: per cluster, its last known conditions. */
    var conditions: map<string, seq<Condition>>
    /** The broadcast channel's messages not yet handled, oldest first. */
    var broadcast: seq<Broadcast>

    function Current(): State
      reads this
    {
      State(clients, info, pending, nextId, watchers, eventCache, clusters, conditions, broadcast)
    }

    ghost predicate Valid()
      reads this
    {
      ServerState.Valid(Current())
    }

    /** `NewServer`: no clients, watchers, clusters or messages. */
    constructor()
      ensures Valid() && Current() == Initial
    {
      clients, info, pending, nextId := {}, map[], {}, 0;
      watchers, eventCache, clusters, conditions, broadcast := {}, map[], {}, map[], [];
    }

    /** The registration step of `handleConnections`. */
    method Connect() returns (c: ClientId)
      requires Valid()
      modifies this
      ensures Valid() && (Current(), c) == ServerState.Connect(old(Current()))
    {
      c := nextId;
      info := info[c := NewClient];
      clients := clients + {c};
      nextId := nextId + 1;
    }

    /** `getActiveClusters`: the union of the connected clients' watchlists. */
    method GetActiveClusters() returns (active: set<string>)
      requires Valid()
      ensures active == Active(Current())
    {
      active := {};
      var todo := clients;
      while todo != {}
        invariant todo <= clients
        invariant active == set c, k | c in clients - todo && c in info && k in info[c].watchlist :: k
        decreases |todo|
      {
        var c :| c in todo;
        var watched := info[c].watchlist;
        active := active + watched;
        todo := todo - {c};
      }
    }

    /** `startWatcher`, with the cluster's initial events as a parameter. */
    method StartWatcher(cluster: string, initial: seq<Message>)
      modifies this`watchers, this`eventCache
      ensures Current() == ServerState.StartWatcher(old(Current()), cluster, initial)
    {
      if cluster in watchers {
        return;
      }
      eventCache := eventCache[cluster := initial];
      watchers := watchers + {cluster};
    }

    /** `cleanupEventWatchers(active)`. */
    method CleanupEventWatchers(active: set<string>)
      modifies this`watchers, this`eventCache
      ensures Current() == Cleanup(old(Current()), active)
    {
      var todo := watchers;
      while todo != {}
        invariant todo <= old(watchers)
        invariant watchers == set k | k in old(watchers) && (k in todo || k in active)
        invariant eventCache == map k | k in old(eventCache) && (k !in old(watchers) || k in todo || k in active) :: old(eventCache)[k]
        decreases |todo|
      {
        var k :| k in todo;
        if k !in active {
          watchers := watchers - {k};
          if k in eventCache {
            eventCache := eventCache - {k};
          }
        }
        todo := todo - {k};
      }
    }

    /** `sendToClient`, with the write's outcome as a parameter. */
    method SendToClient(c: ClientId, p: Payload, ok: bool) returns (success: bool)
      requires Valid() && c in info
      modifies this
      ensures Valid() && success == ok && Current() == Send(old(Current()), c, p, ok)
    {
      if !ok {
        clients := clients - {c};
        pending := pending - {c};
        return false;
      }
      info := info[c := info[c].(received := info[c].received + [p])];
      return true;
    }

    /** The deferred disconnect cleanup of `handleConnections`. */
    method Disconnect(c: ClientId)
      requires Valid() && c in info
      modifies this
      ensures Valid() && Current() == ServerState.Disconnect(old(Current()), c)
    {
      info := info[c := info[c].(logWatcher := None)];
      clients := clients - {c};
      pending := pending - {c};
      var active := GetActiveClusters();
      CleanupEventWatchers(active);
    }

    /** The `logs` case of `handleConnections`, with time parsing as a parameter. */
    method HandleLogsRequest(c: ClientId, session: string, startTime: string, endTime: string,
                             follow: bool, clusterMap: map<string, bool>, parse: string -> Option<int>)
      requires Valid() && c in info
      modifies this
      ensures Valid()
      ensures Current() == LogsRequest(old(Current()), c, session, startTime, endTime, follow, clusterMap, parse)
    {
      if session == "" {
        info := info[c := info[c].(logSession := "", logWatcher := None)];
        return;
      }
      info := info[c := info[c].(logSession := session)];
      var start: Option<int> := None;
      if startTime != "" {
        start := parse(startTime);
      }
      var end: Option<int> := None;
      if !follow && endTime != "" {
        end := parse(endTime);
      }
      info := info[c := info[c].(logWatcher := Some(LogWatchRequest(start, end, follow, clusterMap, session)))];
    }

    /**
     * The loop of the `clustersevents` case: each requested cluster joins
     * the client's watchlist and gets a watcher.
     */
    method WatchRequested(c: ClientId, requested: seq<string>, initial: string -> seq<Message>)
      requires c in info
      modifies this`info, this`watchers, this`eventCache
      ensures info == old(info)[c := old(info)[c].(watchlist := old(info)[c].watchlist + Clusters(requested))]
      ensures watchers == StartAll(old(Current()), requested, initial).watchers
      ensures eventCache == StartAll(old(Current()), requested, initial).eventCache
    {
      ghost var s0 := Current();
      ghost var w := s0.info[c].watchlist;
      assert w + Clusters(requested[..0]) == w;
      assert info == s0.info[c := s0.info[c].(watchlist := w)];
      for i := 0 to |requested|
        invariant info == s0.info[c := s0.info[c].(watchlist := s0.info[c].watchlist + Clusters(requested[..i]))]
        invariant watchers == StartAll(s0, requested[..i], initial).watchers
        invariant eventCache == StartAll(s0, requested[..i], initial).eventCache
      {
        assert requested[..i + 1][..i] == requested[..i];
        assert w + Clusters(requested[..i + 1]) == (w + Clusters(requested[..i])) + {requested[i]};
        var cluster := requested[i];
        info := info[c := info[c].(watchlist := info[c].watchlist + {cluster})];
        StartWatcher(cluster, initial(cluster));
      }
      assert requested[..|requested|] == requested;
    }

    /** The `clustersevents` case of `handleConnections`, with initial events as a parameter. */
    method HandleClustersEvents(c: ClientId, session: string, requested: seq<string>,
                                initial: string -> seq<Message>)
      requires Valid() && c in info
      modifies this
      ensures Valid()
      ensures Current() == ClustersEvents(old(Current()), c, session, requested, initial)
    {
      ghost var s1 := WithClient(old(Current()), c,
        old(info)[c].(eventSession := session, queue := [], watchlist := Clusters(requested))).(pending := old(pending) - {c});
      info := info[c := info[c].(eventSession := session, queue := [], watchlist := {})];
      pending := pending - {c};
      StartAllReadsWatchers(Current(), s1, requested, initial);
      WatchRequested(c, requested, initial);
      assert {} + Clusters(requested) == Clusters(requested);
      assert info == s1.info;
      StartAllWatches(s1, requested, initial);
      assert Current() == StartAll(s1, requested, initial);
      var active := GetActiveClusters();
      CleanupEventWatchers(active);
    }

    /**
     * The send loop of `processPendingClient`: the taken queue is written in
     * order until a write fails, which drops the client.
     */
    method SendQueue(c: ClientId, q: seq<Message>, accepted: nat)
      requires Valid() && c in clients
      modifies this
      ensures Valid()
      ensures accepted >= |q| ==>
        Current() == WithClient(old(Current()), c, old(info)[c].(received := old(info)[c].received + RoutedAll(q)))
      ensures accepted < |q| ==>
        Current() == Drop(WithClient(old(Current()), c, old(info)[c].(received := old(info)[c].received + RoutedAll(q[..accepted]))), c)
    {
      ghost var s := Current();
      ghost var cs := info[c];
      assert q[..0] == [] && RoutedAll([]) == [];
      assert cs.(received := cs.received + RoutedAll(q[..0])) == cs;
      for i := 0 to |q|
        invariant Valid() && i <= accepted && c in clients
        invariant Current() == WithClient(s, c, cs.(received := cs.received + RoutedAll(q[..i])))
      {
        var ok := SendToClient(c, Routed(q[i]), i < accepted);
        assert q[..i + 1][..i] == q[..i];
        assert RoutedAll(q[..i + 1]) == RoutedAll(q[..i]) + [Routed(q[i])];
        assert cs.received + RoutedAll(q[..i + 1]) == (cs.received + RoutedAll(q[..i])) + [Routed(q[i])];
        if !ok {
          return;
        }
      }
      assert q[..|q|] == q;
    }

    /**
     * `processPendingClient`, with `accepted` the number of writes the
     * connection takes before one fails. The result says whether to take
     * the client off the pending set.
     */
    method ProcessPendingClient(c: ClientId, accepted: nat) returns (remove: bool)
      requires Valid() && c in info
      modifies this
      ensures Valid() && (Current(), remove) == ProcessPending(old(Current()), c, accepted)
    {
      if info[c].sendingCached {
        return false;
      }
      if info[c].queue == [] {
        return true;
      }
      var q := info[c].queue;
      info := info[c := info[c].(queue := [])];
      if c !in clients {
        return true;
      }
      ghost var s0 := old(Current());
      ghost var cs := s0.info[c].(queue := []);
      SendQueue(c, q, accepted);
      if accepted >= |q| {
        assert Current() == WithClient(s0, c, cs.(received := cs.received + RoutedAll(q)));
      } else {
        assert Current() == Drop(WithClient(s0, c, cs.(received := cs.received + RoutedAll(q[..accepted]))), c);
      }
      return true;
    }

    /**
     * The first loop of `handleMessages`: the clients of the snapshot are
     * processed in order; the result lists those that are done.
     */
    method ProcessSnapshot(order: seq<ClientId>, accepted: ClientId -> nat) returns (remove: seq<ClientId>)
      requires Valid() && Members(order) <= info.Keys
      modifies this
      ensures (Current(), remove) == DrainSeq(old(Current()), order, accepted)
    {
      ghost var s := Current();
      remove := [];
      assert order[..0] == [];
      for i := 0 to |order|
        invariant Members(order[..i]) <= s.info.Keys
        invariant (Current(), remove) == DrainSeq(s, order[..i], accepted)
      {
        DrainSeqStep(s, order, i, accepted);
        var c := order[i];
        ghost var prev := DrainSeq(s, order[..i], accepted);
        var done := ProcessPendingClient(c, accepted(c));
        assert (Current(), done) == ProcessPending(prev.0, c, accepted(c));
        if done {
          remove := remove + [c];
        }
        assert remove == prev.1 + if done then [c] else [];
      }
      assert order[..|order|] == order;
    }

    /**
     * The first step of `handleMessages`: the pending clients are
     * processed, then those that are done leave the set.
     */
    method DrainPending(accepted: ClientId -> nat)
      requires Valid()
      modifies this
      ensures Valid() && Current() == ServerState.DrainPending(old(Current()), accepted)
    {
      ghost var s := Current();
      var order := Listed(pending);
      var remove := ProcessSnapshot(order, accepted);
      DrainOrder(s, order, accepted);
      DrainFinish(s, accepted);
      RemovePending(remove);
    }

    /** The second loop of the draining step: the clients listed leave `pending`. */
    method RemovePending(remove: seq<ClientId>)
      modifies this`pending
      ensures pending == old(pending) - Members(remove)
    {
      assert remove[..0] == [];
      for i := 0 to |remove|
        invariant pending == old(pending) - Members(remove[..i])
      {
        MembersStep(remove, i);
        pending := pending - {remove[i]};
      }
      assert remove[..|remove|] == remove;
    }

    /**
     * The first routing loop's body for one client: the client is sent the
     * message now, or told to queue it (the message to queue is returned),
     * or skipped.
     */
    method RouteToClient(c: ClientId, m: Message, writeOk: ClientId -> bool) returns (queued: Option<Message>)
      requires Valid() && c in info
      modifies this
      ensures var d := DetermineClientAction(old(info)[c], m);
        Current() == (if d.0 == SendNow then Send(old(Current()), c, Routed(d.1), writeOk(c)) else old(Current())) &&
        queued == (if d.0 == Enqueue then Some(d.1) else None)
    {
      var decision := DetermineClientAction(info[c], m);
      queued := None;
      if decision.0 == Enqueue {
        queued := Some(decision.1);
      } else if decision.0 == SendNow {
        var _ := SendToClient(c, Routed(decision.1), writeOk(c));
      }
    }

    /**
     * The first loop of the routing case of `handleMessages`, over the
     * connected clients in the order `order` lists them: each is sent the
     * message, or noted as needing it queued, or skipped, as
     * `determineClientAction` says.
     */
    method SendOrCollect(m: Message, writeOk: ClientId -> bool, order: seq<ClientId>)
      returns (toQueue: map<ClientId, Message>)
      requires Valid() && Members(order) <= info.Keys
      modifies this
      ensures (Current(), toQueue) == RouteSeq(old(Current()), m, writeOk, order)
    {
      ghost var s := Current();
      toQueue := map[];
      assert order[..0] == [];
      for i := 0 to |order|
        invariant Members(order[..i]) <= s.info.Keys
        invariant (Current(), toQueue) == RouteSeq(s, m, writeOk, order[..i])
      {
        RouteSeqStep(s, m, writeOk, order, i);
        var queued := RouteToClient(order[i], m, writeOk);
        if queued.Some? {
          toQueue := toQueue[order[i] := queued.value];
        }
      }
      assert order[..|order|] == order;
    }

    /** The second routing loop's body for one client: queued and pending if still connected. */
    method QueueFor(c: ClientId, msg: Message)
      requires Valid()
      modifies this
      ensures Current() == if c in old(clients)
        then old(Current()).(info := old(info)[c := old(info)[c].(queue := old(info)[c].queue + [msg])],
                             pending := old(pending) + {c})
        else old(Current())
    {
      if c in clients {
        pending := pending + {c};
        info := info[c := info[c].(queue := info[c].queue + [msg])];
      }
    }

    /**
     * The second loop of the routing case, over the noted clients in the
     * order `order` lists them: each still connected becomes pending and
     * has its message queued.
     */
    method QueueCollected(toQueue: map<ClientId, Message>, order: seq<ClientId>)
      requires Valid() && Members(order) <= toQueue.Keys
      modifies this
      ensures Current() == QueueSeq(old(Current()), toQueue, order)
    {
      ghost var s := Current();
      assert order[..0] == [];
      for i := 0 to |order|
        invariant Members(order[..i]) <= toQueue.Keys
        invariant Current() == QueueSeq(s, toQueue, order[..i])
      {
        QueueSeqStep(s, toQueue, order, i);
        QueueFor(order[i], toQueue[order[i]]);
      }
      assert order[..|order|] == order;
    }

    /**
     * The `event`/`log`/`cachedevent` case of `handleMessages`: a live event
     * is cached (the oldest dropped at 1000), then routed to every client.
     * The two loops range over Go maps; whatever order they visit the
     * clients in, the outcome is `Route`.
     */
    method RouteMessage(m: Message, writeOk: ClientId -> bool)
      requires Valid()
      modifies this
      ensures Valid() && Current() == Route(old(Current()), m, writeOk)
    {
      if m.mtype == "event" {
        var events := if m.clusterName in eventCache then eventCache[m.clusterName] else [];
        if |events| >= CacheLimit {
          events := events[1..];
        }
        eventCache := eventCache[m.clusterName := events + [m.(mtype := "cachedevent")]];
      }
      ghost var s1 := Current();
      assert s1 == old(Current()).(eventCache := CacheRouted(old(eventCache), m));
      var order := Listed(clients);
      RouteSeqParts(s1, m, writeOk, order);
      var toQueue := SendOrCollect(m, writeOk, order);
      ghost var s2 := Current();
      var queueOrder := Listed(toQueue.Keys);
      QueueSeqPart(s2, toQueue, queueOrder);
      QueueCollected(toQueue, queueOrder);
      RouteInTwoLoops(old(Current()), m, writeOk);
    }

    /**
     * `broadcastToAllClients`: the clients are written to in turn, in the
     * order `order` lists them; a failed write drops the client.
     */
    method BroadcastInOrder(p: Payload, writeOk: ClientId -> bool, order: seq<ClientId>)
      requires Valid() && Members(order) <= info.Keys
      modifies this
      ensures Current() == BroadcastSeq(old(Current()), p, writeOk, order)
    {
      ghost var s := Current();
      assert order[..0] == [];
      for i := 0 to |order|
        invariant Members(order[..i]) <= s.info.Keys
        invariant Current() == BroadcastSeq(s, p, writeOk, order[..i])
      {
        BroadcastSeqStep(s, p, writeOk, order, i);
        var _ := SendToClient(order[i], p, writeOk(order[i]));
      }
      assert order[..|order|] == order;
    }

    /**
     * `broadcastToAllClients` over the Go map of clients: whatever order it
     * visits them in, the outcome is `BroadcastAll`.
     */
    method BroadcastToAllClients(p: Payload, writeOk: ClientId -> bool)
      requires Valid()
      modifies this
      ensures Valid() && Current() == BroadcastAll(old(Current()), p, writeOk)
    {
      var order := Listed(clients);
      BroadcastSeqPart(Current(), p, writeOk, order);
      BroadcastPartEnds(Current(), p, writeOk);
      BroadcastInOrder(p, writeOk, order);
    }

    /**
     * One turn of `handleMessages`: the pending clients are served, then
     * the oldest message on the channel is handled by its type.
     */
    method HandleNextMessage(accepted: ClientId -> nat, writeOk: ClientId -> bool)
      requires Valid() && broadcast != []
      modifies this
      ensures Valid() && Current() == HandleNext(old(Current()), accepted, writeOk)
    {
      DrainPending(accepted);
      var msg := broadcast[0];
      broadcast := broadcast[1..];
      match msg
      case ClustersListUpdate(cl) =>
        BroadcastToAllClients(ClustersPayload(cl), writeOk);
      case ConditionsUpdate(conds) =>
        BroadcastToAllClients(ConditionsPayload(conds), writeOk);
      case Routable(m) =>
        if m.mtype == "event" || m.mtype == "log" || m.mtype == "cachedevent" {
          RouteMessage(m, writeOk);
        }
    }

    // ------------------------------------------------ cluster bookkeeping

    /** `broadcastClusters`: the current cluster names go on the channel. */
    method BroadcastClusters()
      modifies this`broadcast
      ensures broadcast == old(broadcast) + [ClustersListUpdate(clusters)]
    {
      broadcast := broadcast + [ClustersListUpdate(clusters)];
    }

    /** `broadcastConditions`: a copy of the conditions cache goes on the channel. */
    method BroadcastConditions()
      modifies this`broadcast
      ensures broadcast == old(broadcast) + [ConditionsUpdate(conditions)]
    {
      broadcast := broadcast + [ConditionsUpdate(conditions)];
    }

    /** `addCluster`, the informer's add handler. */
    method AddCluster(obj: InformerObject)
      requires Valid()
      modifies this
      ensures Valid() && Current() == ServerState.AddCluster(old(Current()), obj)
    {
      if obj.NilObject? {
        return;
      }
      if !obj.Unstructured? {
        return;
      }
      if obj.deleting {
        return;
      }
      if obj.name !in clusters {
        clusters := clusters + {obj.name};
        BroadcastClusters();
      }
    }

    /** `deleteCluster`, the informer's delete handler, tombstones included. */
    method DeleteCluster(obj: InformerObject)
      requires Valid()
      modifies this
      ensures Valid() && Current() == ServerState.DeleteCluster(old(Current()), obj)
    {
      if obj.NilObject? {
        return;
      }
      var name: string;
      if obj.Tombstone? {
        if !obj.inner.Unstructured? {
          return;
        }
        name := obj.inner.name;
      } else if obj.Unstructured? {
        name := obj.name;
      } else {
        return;
      }
      if name == "" {
        return;
      }
      var deleted := false;
      if name in clusters {
        clusters := clusters - {name};
        deleted := true;
        if name in conditions {
          conditions := conditions - {name};
        }
      }
      if deleted {
        BroadcastClusters();
        BroadcastConditions();
      }
    }

    /**
     * The conversion loop of `updateConditions`: the items that are maps
     * are kept, in order; any other item is skipped.
     */
    method ConditionMaps(items: seq<RawItem>) returns (list: seq<Condition>)
      ensures list == MapItems(items)
    {
      list := [];
      for i := 0 to |items|
        invariant list == MapItems(items[..i])
      {
        assert items[..i + 1][..i] == items[..i];
        if items[i].MapItem? {
          list := list + [items[i].fields];
        }
      }
      assert items[..|items|] == items;
    }

    /** `updateConditions`, the informer's update handler. */
    method UpdateConditions(obj: InformerObject)
      requires Valid()
      modifies this
      ensures Valid() && Current() == ServerState.UpdateConditions(old(Current()), obj)
    {
      if obj.NilObject? || !obj.Unstructured? {
        return;
      }
      if obj.name !in clusters {
        return;
      }
      var list: seq<Condition>;
      match obj.status {
        case StatusError => return;
        case NoStatus => return;
        case StatusMap(field) =>
          match field {
            case ConditionsError => return;
            case NoConditions => list := [];
            case ConditionsList(items) => list := ConditionMaps(items);
          }
      }
      conditions := conditions[obj.name := list];
      BroadcastConditions();
    }

    // ------------------------------------------------ cached-event replay

    /**
     * `sendCachedEvents`: with nothing cached for the cluster nothing
     * happens; otherwise the client is marked as replaying, each cached
     * event goes on the channel stamped with the client's event session,
     * and the deferred reset clears the mark. The result says whether the
     * replay ran.
     */
    method SendCachedEvents(c: ClientId, cluster: string) returns (started: bool)
      requires Valid() && c in info
      modifies this
      ensures Valid()
      ensures var r := ReplayStart(old(Current()), c, cluster);
        started == r.1 && Current() == if r.1 then ReplayEnd(r.0, c) else r.0
    {
      var events := if cluster in eventCache then eventCache[cluster] else [];
      var session := info[c].eventSession;
      if events == [] {
        return false;
      }
      info := info[c := info[c].(sendingCached := true)];
      Replay(events, session);
      FinishCachedEvents(c);
      return true;
    }

    /** The send loop of `sendCachedEvents`: each event, stamped with `session`, goes on the channel. */
    method Replay(events: seq<Message>, session: string)
      modifies this`broadcast
      ensures broadcast == old(broadcast) + RoutableAll(StampedAll(events, session))
    {
      ghost var b0 := broadcast;
      for i := 0 to |events|
        invariant |broadcast| == |b0| + i && broadcast[..|b0|] == b0
        invariant forall k :: 0 <= k < i ==> broadcast[|b0| + k] == Routable(Stamped(events[k], session))
      {
        broadcast := broadcast + [Routable(events[i].(sessionId := session))];
      }
      ghost var replayed := RoutableAll(StampedAll(events, session));
      assert forall k :: 0 <= k < |replayed| ==> broadcast[|b0| + k] == replayed[k];
      assert broadcast == b0 + replayed;
    }

    /** The deferred reset of `sendCachedEvents`. */
    method FinishCachedEvents(c: ClientId)
      requires Valid() && c in info
      modifies this`info
      ensures Valid() && Current() == ReplayEnd(old(Current()), c)
    {
      info := info[c := info[c].(sendingCached := false)];
    }
  }
}
