// Which Kubernetes events the server shows for a cluster: `isRelevantEvent`
// and `GetInitialEvents` in internal/events/events.go, the message built by
// the informer's add handler there, and the older, hard-wired
// `isRelevantEvent` in events/events.go.
module Events {
  import opened Wrappers
  import opened Messages

  /** A label set; Go's lookup of a missing key yields the empty string. */
  type Labels = map<string, string>

  function Label(labels: Labels, key: string): string
  {
    if key in labels then labels[key] else ""
  }

  /** `v1.ObjectReference`: the object an event is about. */
  datatype ObjectRef = ObjectRef(kind: string, namespace: string, name: string)

  /** `v1.Event`: its name, message, involved object and its own labels. */
  datatype Event = Event(name: string, text: string, involved: ObjectRef, labels: Labels)

  /**
   * `isRelevantEvent` (internal version). `podLabels` is what
   * `utils.GetPodLabels` answers for the involved object: `None` for a nil
   * map (not a pod, a missing pod, a failed lookup, a pod without labels).
   */
  function IsRelevant(e: Event, cluster: string, podLabels: Option<Labels>): (r: bool)
    ensures e.involved.kind == "CouchbaseCluster" && e.involved.name == cluster ==> r
    ensures e.involved.kind != "Pod" && e.involved.kind != "CouchbaseCluster" ==> !r
    ensures e.involved.kind == "CouchbaseCluster" ==> (r <==> e.involved.name == cluster)
    ensures e.involved.kind == "Pod" ==>
      (r <==> podLabels.Some? &&
              (Label(podLabels.value, "couchbase_cluster") == cluster ||
               Label(podLabels.value, "app") == "couchbase-operator"))
  {
    if e.involved.kind == "CouchbaseCluster" && e.involved.name == cluster then true
    else if e.involved.kind != "Pod" then false
    else if podLabels.None? then false
    else Label(podLabels.value, "couchbase_cluster") == cluster || Label(podLabels.value, "app") == "couchbase-operator"
  }

  /** Only pod events ever consult the pod's labels. */
  lemma LabelsOnlyForPods(e: Event, cluster: string, a: Option<Labels>, b: Option<Labels>)
    requires e.involved.kind != "Pod"
    ensures IsRelevant(e, cluster, a) == IsRelevant(e, cluster, b)
  {
  }

  /**
   * With an empty cluster name, any labelled pod lacking a
   * `couchbase_cluster` label matches, as the missing key reads as "".
   */
  lemma EmptyClusterMatchesUnlabelled(e: Event, labels: Labels)
    requires e.involved.kind == "Pod" && "couchbase_cluster" !in labels
    ensures IsRelevant(e, "", Some(labels))
  {
  }

  /** The cluster the older watcher is fixed to. */
  const LegacyCluster := "cb_example"

  /**
   * `isRelevantEvent` in events/events.go: a pod event by the event's own
   * labels, a cluster event by name, nothing else.
   */
  function IsRelevantLegacy(e: Event): (r: bool)
    ensures r <==>
      (e.involved.kind == "Pod" &&
       (Label(e.labels, "couchbase_cluster") == LegacyCluster || Label(e.labels, "app") == "couchbase-operator")) ||
      (e.involved.kind == "CouchbaseCluster" && e.involved.name == LegacyCluster)
  {
    if e.involved.kind == "Pod" &&
       (Label(e.labels, "couchbase_cluster") == LegacyCluster || Label(e.labels, "app") == "couchbase-operator")
    then true
    else e.involved.kind == "CouchbaseCluster" && e.involved.name == LegacyCluster
  }

  /**
   * The newer filter generalises the older one: fixed to `cb_example` and
   * fed the event's own labels in place of the pod's, it decides alike.
   */
  lemma LegacyIsSpecialCase(e: Event)
    ensures IsRelevantLegacy(e) == IsRelevant(e, LegacyCluster, Some(e.labels))
  {
  }

  /** The message for an event of `cluster`, typed `mtype`. */
  function EventMessage(e: Event, cluster: string, mtype: string): (m: Message)
    ensures m.mtype == mtype && m.clusterName == cluster && m.sessionId == ""
    ensures m.name == e.name && m.text == e.text
    ensures m.kind == e.involved.kind && m.objectName == e.involved.name
  {
    Message(mtype, cluster, e.name, e.text, e.involved.kind, e.involved.name, "")
  }

  /**
   * The informer's add handler in `StartEventWatcher`: a relevant event is
   * put on the broadcast channel as an `event` message, others are dropped.
   */
  function Announce(e: Event, cluster: string, labelsOf: ObjectRef -> Option<Labels>): (r: Option<Message>)
    ensures r.Some? <==> IsRelevant(e, cluster, labelsOf(e.involved))
    ensures r.Some? ==> r.value == EventMessage(e, cluster, "event")
  {
    if IsRelevant(e, cluster, labelsOf(e.involved)) then Some(EventMessage(e, cluster, "event")) else None
  }

  /** The relevant events of `es`, as `cachedevent` messages, in list order. */
  function Relevant(es: seq<Event>, cluster: string, labelsOf: ObjectRef -> Option<Labels>): (r: seq<Message>)
    ensures |r| <= |es|
  {
    if es == [] then []
    else
      var e := es[|es| - 1];
      Relevant(es[..|es| - 1], cluster, labelsOf) +
        (if IsRelevant(e, cluster, labelsOf(e.involved)) then [EventMessage(e, cluster, "cachedevent")] else [])
  }

  /**
   * `GetInitialEvents`: nil without a namespace or when listing fails;
   * otherwise the relevant events of the listing, converted in order.
   */
  method GetInitialEvents(namespace: string, listing: Option<seq<Event>>, cluster: string,
                          labelsOf: ObjectRef -> Option<Labels>)
    returns (initial: seq<Message>)
    ensures namespace == "" || listing.None? ==> initial == []
    ensures namespace != "" && listing.Some? ==> initial == Relevant(listing.value, cluster, labelsOf)
  {
    if namespace == "" || listing.None? {
      return [];
    }
    var es := listing.value;
    initial := [];
    for i := 0 to |es|
      invariant initial == Relevant(es[..i], cluster, labelsOf)
    {
      assert es[..i + 1][..i] == es[..i];
      var e := es[i];
      if IsRelevant(e, cluster, labelsOf(e.involved)) {
        initial := initial + [EventMessage(e, cluster, "cachedevent")];
      }
    }
    assert es[..|es|] == es;
  }

  /** Listing more events only adds messages after the earlier ones. */
  lemma {:induction false} RelevantAppend(a: seq<Event>, b: seq<Event>, cluster: string,
                                          labelsOf: ObjectRef -> Option<Labels>)
    ensures Relevant(a + b, cluster, labelsOf) == Relevant(a, cluster, labelsOf) + Relevant(b, cluster, labelsOf)
    decreases |b|
  {
    if b == [] {
      assert a + b == a;
    } else {
      var b' := b[..|b| - 1];
      assert (a + b)[..|a + b| - 1] == a + b';
      RelevantAppend(a, b', cluster, labelsOf);
    }
  }

  /**
   * Exactly the relevant events become cached messages: every message comes
   * from a relevant listed event, and every relevant listed event gives one.
   */
  lemma {:induction false} RelevantMembers(es: seq<Event>, cluster: string,
                                           labelsOf: ObjectRef -> Option<Labels>, m: Message)
    ensures m in Relevant(es, cluster, labelsOf) <==>
      exists e :: e in es && IsRelevant(e, cluster, labelsOf(e.involved)) && m == EventMessage(e, cluster, "cachedevent")
  {
    if es != [] {
      var es' := es[..|es| - 1];
      var e := es[|es| - 1];
      assert es == es' + [e];
      RelevantMembers(es', cluster, labelsOf, m);
      if m in Relevant(es, cluster, labelsOf) && m !in Relevant(es', cluster, labelsOf) {
        assert e in es;
      }
      if exists x :: x in es && IsRelevant(x, cluster, labelsOf(x.involved)) && m == EventMessage(x, cluster, "cachedevent") {
        var x :| x in es && IsRelevant(x, cluster, labelsOf(x.involved)) && m == EventMessage(x, cluster, "cachedevent");
        if x != e {
          assert x in es';
        }
      }
    }
  }

  /** Every initial event is typed `cachedevent` and tagged with the cluster. */
  lemma {:induction false} RelevantTagged(es: seq<Event>, cluster: string, labelsOf: ObjectRef -> Option<Labels>)
    ensures forall m :: m in Relevant(es, cluster, labelsOf) ==>
      m.mtype == "cachedevent" && m.clusterName == cluster && m.sessionId == ""
  {
    forall m | m in Relevant(es, cluster, labelsOf)
      ensures m.mtype == "cachedevent" && m.clusterName == cluster && m.sessionId == ""
    {
      RelevantMembers(es, cluster, labelsOf, m);
    }
  }
}
