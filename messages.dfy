// The message the Go server moves around (`utils.Message` in
// internal/utils/utils.go): Kubernetes events, operator log lines and cached
// events all travel as one record whose `Type` field says what it is.
module Messages {

  /**
   * `utils.Message` without the `Clusters` and `Conditions` fields, which
   * only the cluster-list and condition broadcasts use (those are modelled
   * as their own variants in the server model).
   */
  datatype Message = Message(
    mtype: string,
    clusterName: string,
    name: string,
    text: string,
    kind: string,
    objectName: string,
    sessionId: string)

  /** A message stamped with another session id, everything else kept. */
  function Stamped(m: Message, session: string): (r: Message)
    ensures r.sessionId == session
    ensures r.(sessionId := m.sessionId) == m
  {
    m.(sessionId := session)
  }

  /** Every message of `ms` stamped with `session`, in order. */
  function StampedAll(ms: seq<Message>, session: string): (r: seq<Message>)
    ensures |r| == |ms|
    ensures forall i :: 0 <= i < |ms| ==> r[i] == Stamped(ms[i], session)
  {
    if ms == [] then [] else [Stamped(ms[0], session)] + StampedAll(ms[1..], session)
  }
}
