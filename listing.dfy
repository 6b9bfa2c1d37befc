// Visiting the elements of a Go map or set in a loop: `for k := range m`
// visits each key once, in an order the runtime chooses. The model lists the
// keys in some order first and then walks the list; what a loop computes is
// then proved not to depend on that order.
module Listing {
  /** The elements a list names. */
  function Members<T(==)>(order: seq<T>): set<T>
  {
    if order == [] then {} else Members(order[..|order| - 1]) + {order[|order| - 1]}
  }

  /** No element is listed twice. */
  predicate NoRepeats<T(==)>(order: seq<T>)
  {
    order == [] || (NoRepeats(order[..|order| - 1]) && order[|order| - 1] !in Members(order[..|order| - 1]))
  }

  /** Listing one more element names one more. */
  lemma MembersStep<T>(order: seq<T>, i: nat)
    requires i < |order|
    ensures Members(order[..i + 1]) == Members(order[..i]) + {order[i]}
  {
    assert order[..i + 1][..i] == order[..i];
  }

  /** A prefix of a list names some of its elements. */
  lemma {:induction false} MembersPrefix<T>(order: seq<T>, n: nat)
    requires n <= |order|
    ensures Members(order[..n]) <= Members(order)
    decreases |order|
  {
    if n < |order| {
      assert order[..|order| - 1][..n] == order[..n];
      MembersPrefix(order[..|order| - 1], n);
    } else {
      assert order[..n] == order;
    }
  }

  /** Listing an element not yet listed keeps the list free of repeats. */
  lemma SnapshotStep<T>(order: seq<T>, x: T, all: set<T>, todo: set<T>)
    requires Members(order) == all - todo && NoRepeats(order) && x in todo && todo <= all
    ensures Members(order + [x]) == all - (todo - {x}) && NoRepeats(order + [x])
  {
    assert (order + [x])[..|order|] == order;
  }

  /** The elements of a set listed in some order, as ranging over a Go map visits its keys. */
  method Listed<T(==)>(xs: set<T>) returns (order: seq<T>)
    ensures Members(order) == xs && NoRepeats(order)
  {
    order := [];
    var todo := xs;
    while todo != {}
      invariant todo <= xs
      invariant Members(order) == xs - todo && NoRepeats(order)
      decreases |todo|
    {
      var x :| x in todo;
      SnapshotStep(order, x, xs, todo);
      order := order + [x];
      todo := todo - {x};
    }
  }
}
