// The older WebSocket server of server/server.go: clients send the list of
// clusters they want events for, one event watcher runs per watched
// cluster, each event goes to the clients watching its cluster, and the
// cluster list is pushed to every client when it changes. Clients are
// numbered; locks and goroutines are left out, a cancelled watcher is one
// removed from the registry, and whether a write to a client's connection
// succeeds is an input.
module LegacyState {
  import opened Wrappers
  import opened Listing

  type ClientId = nat

  /** `events.EventMessage`: routed by its cluster name; the rest is carried along. */
  datatype EventMessage = EventMessage(clusterName: string, body: string)

  /** What is written to a client's connection. */
  datatype Payload = EventPayload(msg: EventMessage) | ClustersPayload(clusters: seq<string>)

  /**
   * The server's books: the connected clients, each client's watchlist
   * (kept for a client the server has dropped, as the connection handler
   * still holds it), the clusters with a running event watcher, the
   * watchers ever started (in order), what each connection has been
   * written, and the last cluster list.
   */
  datatype State = State(
    clients: set<ClientId>,
    watchlist: map<ClientId, set<string>>,
    watchers: set<string>,
    launched: seq<string>,
    received: map<ClientId, seq<Payload>>,
    clusters: seq<string>,
    nextId: ClientId)

  /** Every client ever connected has a watchlist and a connection; connected ones among them. */
  ghost predicate Valid(s: State)
  {
    s.clients <= s.watchlist.Keys && s.watchlist.Keys == s.received.Keys &&
    (forall c :: c in s.watchlist ==> c < s.nextId)
  }

  /** The clusters some connected client watches. */
  function Active(s: State): set<string>
  {
    set c, k | c in s.clients && c in s.watchlist && k in s.watchlist[c] :: k
  }

  /** The clusters of a request, as the keys of the new watchlist. */
  function Clusters(cs: seq<string>): set<string>
  {
    set k | k in cs
  }

  /** A new connection: registered with an empty watchlist. */
  function Connect(s: State): (r: (State, ClientId))
    requires Valid(s)
    ensures Valid(r.0) && r.1 !in s.watchlist
    ensures r.0.clients == s.clients + {r.1} && r.0.watchlist[r.1] == {} && r.0.received[r.1] == []
  {
    var c := s.nextId;
    (s.(clients := s.clients + {c}, watchlist := s.watchlist[c := {}], received := s.received[c := []],
        nextId := c + 1), c)
  }

  /** `startWatcher`: a cluster already watched is left alone; otherwise a watcher is started. */
  function StartWatcher(s: State, cluster: string): (r: State)
    ensures r.watchers == s.watchers + {cluster}
    ensures cluster in s.watchers ==> r == s
    ensures cluster !in s.watchers ==> r.launched == s.launched + [cluster]
    ensures r == s.(watchers := r.watchers, launched := r.launched)
  {
    if cluster in s.watchers then s
    else s.(watchers := s.watchers + {cluster}, launched := s.launched + [cluster])
  }

  /** Starting a watcher twice is starting it once. */
  lemma StartWatcherIdempotent(s: State, cluster: string)
    ensures StartWatcher(StartWatcher(s, cluster), cluster) == StartWatcher(s, cluster)
  {
  }

  /** Watchers started for the clusters of `cs`, in order. */
  function StartAll(s: State, cs: seq<string>): State
  {
    if cs == [] then s
    else StartWatcher(StartAll(s, cs[..|cs| - 1]), cs[|cs| - 1])
  }

  /** Starting watchers neither reads nor changes the watchlists. */
  lemma {:induction false} StartAllFrame(s: State, cs: seq<string>, w: map<ClientId, set<string>>)
    ensures StartAll(s.(watchlist := w), cs) == StartAll(s, cs).(watchlist := w)
  {
    if cs != [] {
      StartAllFrame(s, cs[..|cs| - 1], w);
    }
  }

  /**
   * After starting watchers for `cs`, exactly the old watchers and `cs`
   * are watched, and a watcher was started for each cluster of `cs` not
   * watched before, and for nothing else.
   */
  lemma {:induction false} StartAllWatches(s: State, cs: seq<string>)
    ensures var r := StartAll(s, cs);
      r == s.(watchers := r.watchers, launched := r.launched) &&
      (forall k :: k in r.watchers <==> k in s.watchers || k in cs) &&
      |r.launched| >= |s.launched| && r.launched[..|s.launched|] == s.launched &&
      (forall k :: k in r.launched[|s.launched|..] <==> k in cs && k !in s.watchers)
  {
    if cs != [] {
      var pre := cs[..|cs| - 1];
      StartAllWatches(s, pre);
      var t := StartAll(s, pre);
      var last := cs[|cs| - 1];
      assert forall k :: k in cs <==> k in pre || k == last;
      if last !in t.watchers {
        assert t.launched[|s.launched|..] + [last] == (t.launched + [last])[|s.launched|..];
      }
    }
  }

  /**
   * `cleanupWatchers`: the watcher of every cluster no connected client
   * watches is cancelled; the others keep running.
   */
  function Cleanup(s: State): (r: State)
    ensures forall k :: k in r.watchers <==>
      k in s.watchers && exists c :: c in s.clients && c in s.watchlist && k in s.watchlist[c]
    ensures r == s.(watchers := r.watchers)
  {
    s.(watchers := s.watchers * Active(s))
  }

  /** Cleaning up twice is cleaning up once. */
  lemma CleanupIdempotent(s: State)
    ensures Cleanup(Cleanup(s)) == Cleanup(s)
  {
    assert Active(Cleanup(s)) == Active(s);
  }

  /**
   * A message from the connection handler: the client's watchlist becomes
   * exactly the requested clusters, a watcher is started for each, then
   * watchers nobody needs are cancelled.
   */
  function Request(s: State, c: ClientId, requested: seq<string>): (r: State)
    requires c in s.watchlist
  {
    Cleanup(StartAll(s.(watchlist := s.watchlist[c := Clusters(requested)]), requested))
  }

  /** A connected client's request leaves a watcher running for every cluster it asked for. */
  lemma RequestWatched(s: State, c: ClientId, requested: seq<string>, k: string)
    requires c in s.clients && c in s.watchlist && k in requested
    ensures k in Request(s, c, requested).watchers
  {
    var s1 := s.(watchlist := s.watchlist[c := Clusters(requested)]);
    StartAllWatches(s1, requested);
    assert k in StartAll(s1, requested).watchlist[c];
  }

  /** After a request only watched clusters have watchers, and every earlier watcher still needed runs. */
  lemma RequestWatchersNeeded(s: State, c: ClientId, requested: seq<string>)
    requires c in s.watchlist
    ensures var r := Request(s, c, requested);
      r.watchers <= Active(r) && (forall k :: k in s.watchers && k in Active(r) ==> k in r.watchers)
  {
    var s1 := s.(watchlist := s.watchlist[c := Clusters(requested)]);
    StartAllWatches(s1, requested);
  }

  /** The deferred disconnect of the connection handler: unregistered, then cleanup. */
  function Disconnect(s: State, c: ClientId): (r: State)
    ensures c !in r.clients && r.watchers <= s.watchers
    ensures forall k :: k in r.watchers ==> exists d :: d in r.clients && d in r.watchlist && k in r.watchlist[d]
  {
    Cleanup(s.(clients := s.clients - {c}))
  }

  /** A client gets the message: it is connected and watches the message's cluster. */
  predicate Addressed(s: State, m: EventMessage, c: ClientId)
  {
    c in s.clients && c in s.watchlist && m.clusterName in s.watchlist[c]
  }

  /**
   * `handleMessages` for one message after the clients in `done` have been
   * visited: those addressed were written to; a failed write dropped the
   * client.
   */
  function DeliverPart(s: State, m: EventMessage, writeOk: ClientId -> bool, done: set<ClientId>): State
  {
    s.(clients := (set c | c in s.clients && !(c in done && Addressed(s, m, c) && !writeOk(c))),
       received := (map c | c in s.received ::
                      if c in done && Addressed(s, m, c) && writeOk(c) then s.received[c] + [EventPayload(m)]
                      else s.received[c]))
  }

  /** `handleMessages` for one message. */
  function Deliver(s: State, m: EventMessage, writeOk: ClientId -> bool): State
  {
    DeliverPart(s, m, writeOk, s.clients)
  }

  /**
   * A message reaches exactly the connected clients watching its cluster
   * whose write succeeds, and only the clients whose write failed are
   * dropped.
   */
  lemma DeliverReachesWatchers(s: State, m: EventMessage, writeOk: ClientId -> bool, c: ClientId)
    requires Valid(s)
    ensures var r := Deliver(s, m, writeOk);
      c in s.received ==>
        r.received[c] == if Addressed(s, m, c) && writeOk(c) then s.received[c] + [EventPayload(m)] else s.received[c]
    ensures c in Deliver(s, m, writeOk).clients <==> c in s.clients && !(Addressed(s, m, c) && !writeOk(c))
    ensures Valid(Deliver(s, m, writeOk))
  {
  }

  /**
   * `updateClusters`: when listing fails (`None`) nothing changes;
   * otherwise the list is replaced and written to every connected client, a
   * failed write dropping the client.
   */
  function UpdateClustersPart(s: State, listed: seq<string>, writeOk: ClientId -> bool, done: set<ClientId>): State
  {
    s.(clusters := listed,
       clients := (set c | c in s.clients && !(c in done && !writeOk(c))),
       received := (map c | c in s.received ::
                      if c in done && c in s.clients && writeOk(c) then s.received[c] + [ClustersPayload(listed)]
                      else s.received[c]))
  }

  function UpdateClusters(s: State, listed: Option<seq<string>>, writeOk: ClientId -> bool): State
  {
    if listed.None? then s else UpdateClustersPart(s, listed.value, writeOk, s.clients)
  }

  /**
   * A failed listing keeps the old list; a successful one replaces it, and
   * afterwards every client still connected has been sent the new list as
   * its latest message.
   */
  lemma UpdateClustersInforms(s: State, listed: Option<seq<string>>, writeOk: ClientId -> bool)
    requires Valid(s)
    ensures var r := UpdateClusters(s, listed, writeOk);
      Valid(r) && (listed.None? ==> r == s) &&
      (listed.Some? ==>
        r.clusters == listed.value && r.clients <= s.clients &&
        (forall c :: c in r.clients ==> r.received[c] == s.received[c] + [ClustersPayload(listed.value)]))
  {
  }

  // -------------------------------------------- the loops, in visiting order

  /** The second loop of `cleanupWatchers` over the watchers `order` lists: those not in `active` deleted. */
  function Pruned(watchers: set<string>, order: seq<string>, active: set<string>): set<string>
  {
    if order == [] then watchers
    else
      var k := order[|order| - 1];
      var w := Pruned(watchers, order[..|order| - 1], active);
      if k in active then w else w - {k}
  }

  /** Whatever the order, pruning deletes exactly the visited watchers not in use. */
  lemma {:induction false} PrunedRemoves(watchers: set<string>, order: seq<string>, active: set<string>)
    ensures Pruned(watchers, order, active) == watchers - (Members(order) - active)
  {
    if order != [] {
      PrunedRemoves(watchers, order[..|order| - 1], active);
    }
  }

  /** The first loop of `handleMessages` visiting one client. */
  function DeliverTo(t: State, m: EventMessage, writeOk: ClientId -> bool, c: ClientId): State
    requires c in t.watchlist && c in t.received
  {
    if m.clusterName in t.watchlist[c] then
      if writeOk(c) then t.(received := t.received[c := t.received[c] + [EventPayload(m)]])
      else t.(clients := t.clients - {c})
    else t
  }

  /** `handleMessages` for one message, visiting the clients `order` lists. */
  function DeliverSeq(s: State, m: EventMessage, writeOk: ClientId -> bool, order: seq<ClientId>): (r: State)
    requires Valid(s) && Members(order) <= s.clients
    ensures Valid(r) && r.watchlist == s.watchlist
  {
    if order == [] then s
    else DeliverTo(DeliverSeq(s, m, writeOk, order[..|order| - 1]), m, writeOk, order[|order| - 1])
  }

  /** One more client visited by `handleMessages`. */
  lemma DeliverSeqStep(s: State, m: EventMessage, writeOk: ClientId -> bool, order: seq<ClientId>, i: nat)
    requires Valid(s) && Members(order) <= s.clients && i < |order|
    ensures Members(order[..i]) <= s.clients && Members(order[..i + 1]) <= s.clients
    ensures var t := DeliverSeq(s, m, writeOk, order[..i]);
      order[i] in t.watchlist && order[i] in t.received &&
      DeliverSeq(s, m, writeOk, order[..i + 1]) == DeliverTo(t, m, writeOk, order[i])
  {
    MembersPrefix(order, i);
    MembersPrefix(order, i + 1);
    assert order[..i + 1][..i] == order[..i];
  }

  /** Visiting one more client adds it to the visited ones of `DeliverPart`. */
  lemma DeliverStep(s: State, m: EventMessage, writeOk: ClientId -> bool, done: set<ClientId>, c: ClientId)
    requires Valid(s) && done <= s.clients && c in s.clients && c !in done
    ensures var t := DeliverPart(s, m, writeOk, done);
      c in t.watchlist && c in t.received && DeliverPart(s, m, writeOk, done + {c}) == DeliverTo(t, m, writeOk, c)
  {
    var t := DeliverPart(s, m, writeOk, done);
    var u := DeliverPart(s, m, writeOk, done + {c});
    var v := DeliverTo(t, m, writeOk, c);
    assert u.received == v.received;
    assert u.clients == v.clients;
  }

  /**
   * The order in which `handleMessages` visits the clients does not matter:
   * any list of distinct connected clients yields `DeliverPart` for them.
   */
  lemma {:induction false} DeliverSeqPart(s: State, m: EventMessage, writeOk: ClientId -> bool, order: seq<ClientId>)
    requires Valid(s) && Members(order) <= s.clients && NoRepeats(order)
    ensures DeliverSeq(s, m, writeOk, order) == DeliverPart(s, m, writeOk, Members(order))
  {
    if order == [] {
      var t := DeliverPart(s, m, writeOk, {});
      assert t.received == s.received && t.clients == s.clients;
    } else {
      var pre := order[..|order| - 1];
      DeliverSeqPart(s, m, writeOk, pre);
      DeliverStep(s, m, writeOk, Members(pre), order[|order| - 1]);
    }
  }

  /** The loop of `updateClusters` visiting one client. */
  function InformClient(t: State, listed: seq<string>, writeOk: ClientId -> bool, c: ClientId): State
    requires c in t.received
  {
    if writeOk(c) then t.(received := t.received[c := t.received[c] + [ClustersPayload(listed)]])
    else t.(clients := t.clients - {c})
  }

  /** The loop of `updateClusters`, visiting the clients `order` lists. */
  function InformSeq(s: State, listed: seq<string>, writeOk: ClientId -> bool, order: seq<ClientId>): (r: State)
    requires Valid(s) && Members(order) <= s.clients
    ensures Valid(r) && r.watchlist == s.watchlist && r.clusters == s.clusters
  {
    if order == [] then s
    else InformClient(InformSeq(s, listed, writeOk, order[..|order| - 1]), listed, writeOk, order[|order| - 1])
  }

  /** One more client visited by `updateClusters`. */
  lemma InformSeqStep(s: State, listed: seq<string>, writeOk: ClientId -> bool, order: seq<ClientId>, i: nat)
    requires Valid(s) && Members(order) <= s.clients && i < |order|
    ensures Members(order[..i]) <= s.clients && Members(order[..i + 1]) <= s.clients
    ensures var t := InformSeq(s, listed, writeOk, order[..i]);
      order[i] in t.received && InformSeq(s, listed, writeOk, order[..i + 1]) == InformClient(t, listed, writeOk, order[i])
  {
    MembersPrefix(order, i);
    MembersPrefix(order, i + 1);
    assert order[..i + 1][..i] == order[..i];
  }

  /** Visiting one more client adds it to the visited ones of `UpdateClustersPart`. */
  lemma InformStep(s: State, listed: seq<string>, writeOk: ClientId -> bool, done: set<ClientId>, c: ClientId)
    requires Valid(s) && done <= s.clients && c in s.clients && c !in done
    ensures var t := UpdateClustersPart(s, listed, writeOk, done);
      c in t.received && UpdateClustersPart(s, listed, writeOk, done + {c}) == InformClient(t, listed, writeOk, c)
  {
    var t := UpdateClustersPart(s, listed, writeOk, done);
    var u := UpdateClustersPart(s, listed, writeOk, done + {c});
    var v := InformClient(t, listed, writeOk, c);
    assert u.received == v.received;
    assert u.clients == v.clients;
  }

  /** The order in which `updateClusters` visits the clients does not matter. */
  lemma {:induction false} InformSeqPart(s: State, listed: seq<string>, writeOk: ClientId -> bool, order: seq<ClientId>)
    requires Valid(s) && Members(order) <= s.clients && NoRepeats(order)
    ensures InformSeq(s.(clusters := listed), listed, writeOk, order) == UpdateClustersPart(s, listed, writeOk, Members(order))
  {
    if order == [] {
      var t := UpdateClustersPart(s, listed, writeOk, {});
      assert t.received == s.received && t.clients == s.clients;
    } else {
      var pre := order[..|order| - 1];
      InformSeqPart(s, listed, writeOk, pre);
      InformStep(s, listed, writeOk, Members(pre), order[|order| - 1]);
    }
  }

  /** The server as `NewServer` creates it. */
  const Initial := State({}, map[], {}, [], map[], [], 0)
}
