// The `Server` object of server/server.go with its handlers as methods that
// update its maps in place, each proved to make the change the functions
// of `LegacyState` describe.
module LegacyServer {
  import opened Wrappers
  import opened LegacyState
  import opened Listing

  /**
   * The `Server` object, its maps as fields. `launched` records the event
   * watchers started, `received` what has been written to each connection.
   */
  class Server {
    /** `clients` */
    var clients: set<ClientId>
    /** each `Client`'s `watchlist` */
    var watchlist: map<ClientId, set<string>>
    /** the keys of `watchers` */
    var watchers: set<string>
    /** the `StartEventWatcher` goroutines started, in order */
    var launched: seq<string>
    /** what has been written to each client's connection */
    var received: map<ClientId, seq<Payload>>
    /** `clusters` */
    var clusters: seq<string>
    /** the number the next client gets */
    var nextId: ClientId

    function Current(): State
      reads this
    {
      State(clients, watchlist, watchers, launched, received, clusters, nextId)
    }

    ghost predicate Valid()
      reads this
    {
      LegacyState.Valid(Current())
    }

    /** `NewServer`. */
    constructor()
      ensures Valid() && Current() == Initial
    {
      clients := {};
      watchlist := map[];
      watchers := {};
      launched := [];
      received := map[];
      clusters := [];
      nextId := 0;
    }

    /** The registration at the start of `handleConnections`. */
    method Connect() returns (c: ClientId)
      requires Valid()
      modifies this
      ensures Valid() && (Current(), c) == LegacyState.Connect(old(Current()))
    {
      c := nextId;
      clients := clients + {c};
      watchlist := watchlist[c := {}];
      received := received[c := []];
      nextId := nextId + 1;
    }

    /** `startWatcher`. */
    method StartWatcher(cluster: string)
      modifies this`watchers, this`launched
      ensures Current() == LegacyState.StartWatcher(old(Current()), cluster)
    {
      if cluster in watchers {
        return;
      }
      watchers := watchers + {cluster};
      launched := launched + [cluster];
    }

    /** The first loop of `cleanupWatchers`: the clusters the connected clients watch. */
    method ActiveClusters() returns (active: set<string>)
      ensures active == Active(Current())
    {
      active := {};
      var todo := clients;
      while todo != {}
        invariant todo <= clients
        invariant active == set c, k | c in clients - todo && c in watchlist && k in watchlist[c] :: k
        decreases |todo|
      {
        var c :| c in todo;
        if c in watchlist {
          active := active + watchlist[c];
        }
        todo := todo - {c};
      }
    }

    /**
     * `cleanupWatchers`: every watcher of a cluster no connected client
     * watches is cancelled and deleted, the watchers visited in some order.
     */
    method CleanupWatchers()
      modifies this`watchers
      ensures Current() == Cleanup(old(Current()))
    {
      var active := ActiveClusters();
      var order := Listed(watchers);
      assert order[..0] == [];
      for i := 0 to |order|
        invariant watchers == Pruned(old(watchers), order[..i], active)
      {
        assert order[..i + 1][..i] == order[..i];
        if order[i] !in active {
          watchers := watchers - {order[i]};
        }
      }
      assert order[..|order|] == order;
      PrunedRemoves(old(watchers), order, active);
    }

    /** One request read by `handleConnections`: the watchlist replaced, watchers started, cleanup. */
    method HandleRequest(c: ClientId, requested: seq<string>)
      requires Valid() && c in watchlist
      modifies this
      ensures Valid() && Current() == Request(old(Current()), c, requested)
    {
      watchlist := watchlist[c := {}];
      ghost var s1 := Current();
      assert Clusters(requested[..0]) == {};
      for i := 0 to |requested|
        invariant watchlist == old(watchlist)[c := Clusters(requested[..i])]
        invariant Current() == StartAll(s1, requested[..i]).(watchlist := watchlist)
      {
        assert requested[..i + 1][..i] == requested[..i];
        assert Clusters(requested[..i + 1]) == Clusters(requested[..i]) + {requested[i]};
        watchlist := watchlist[c := watchlist[c] + {requested[i]}];
        StartWatcher(requested[i]);
      }
      assert requested[..|requested|] == requested;
      StartAllFrame(s1, requested, watchlist);
      StartAllWatches(s1, requested);
      CleanupWatchers();
    }

    /** The deferred cleanup of `handleConnections`. */
    method Disconnect(c: ClientId)
      modifies this
      ensures Current() == LegacyState.Disconnect(old(Current()), c)
    {
      clients := clients - {c};
      CleanupWatchers();
    }

    /**
     * The body of `handleMessages` for one message taken off the channel:
     * the connected clients, visited in some order, get the message when
     * they watch its cluster; a failed write drops the client.
     */
    method HandleMessage(m: EventMessage, writeOk: ClientId -> bool)
      requires Valid()
      modifies this`clients, this`received
      ensures Valid() && Current() == Deliver(old(Current()), m, writeOk)
    {
      ghost var s := Current();
      var order := Listed(clients);
      assert order[..0] == [];
      for i := 0 to |order|
        invariant Members(order[..i]) <= s.clients
        invariant Current() == DeliverSeq(s, m, writeOk, order[..i])
      {
        DeliverSeqStep(s, m, writeOk, order, i);
        var c := order[i];
        if m.clusterName in watchlist[c] {
          if writeOk(c) {
            received := received[c := received[c] + [EventPayload(m)]];
          } else {
            clients := clients - {c};
          }
        }
      }
      assert order[..|order|] == order;
      DeliverSeqPart(s, m, writeOk, order);
    }

    /**
     * `updateClusters`, with the listing (or its failure) as an input: the
     * new list is written to the connected clients in some order.
     */
    method UpdateClusters(listed: Option<seq<string>>, writeOk: ClientId -> bool)
      requires Valid()
      modifies this`clusters, this`clients, this`received
      ensures Valid() && Current() == LegacyState.UpdateClusters(old(Current()), listed, writeOk)
    {
      if listed.None? {
        return;
      }
      var newClusters := listed.value;
      clusters := newClusters;
      ghost var s := Current();
      var order := Listed(clients);
      assert order[..0] == [];
      for i := 0 to |order|
        invariant Members(order[..i]) <= s.clients
        invariant Current() == InformSeq(s, newClusters, writeOk, order[..i])
      {
        InformSeqStep(s, newClusters, writeOk, order, i);
        var c := order[i];
        if writeOk(c) {
          received := received[c := received[c] + [ClustersPayload(newClusters)]];
        } else {
          clients := clients - {c};
        }
      }
      assert order[..|order|] == order;
      InformSeqPart(old(Current()), newClusters, writeOk, order);
    }
  }
}
