// The metrics page's card grid (`renderMetricCards` in static/js/metrics.js):
// every metric name keeps the position it was first shown at, cards are
// reused by name, cards of vanished metrics are removed, and the grid is
// rebuilt only when its children differ from the wanted order.
module MetricCards {
  import opened Wrappers
  import opened Sorting
  import opened Metrics
  import opened Text

  /** A child of the grid: a metric card, by identity, or the "No metrics found" message. */
  datatype Node = CardNode(id: nat) | NoResults

  /** A card element: its `data-metric-name` and the data it shows. */
  datatype Card = Card(name: string, metric: SimpleMetric)

  /**
   * The page's card state: `metricPositions`, the grid's children, every
   * card element created so far (by identity) and the next fresh identity.
   */
  datatype Grid = Grid(positions: map<string, nat>, children: seq<Node>, cards: map<nat, Card>, nextId: nat)

  /** Each remembered name has its own position, below the number remembered. */
  ghost predicate PositionsOk(p: map<string, nat>)
  {
    && (forall n :: n in p ==> p[n] < |p|)
    && (forall a, b :: a in p && b in p && a != b ==> p[a] != p[b])
  }

  /** The card at child `i`, if that child is a card. */
  function CardAt(g: Grid, i: int): Option<Card>
  {
    if 0 <= i < |g.children| && g.children[i].CardNode? && g.children[i].id in g.cards
    then Some(g.cards[g.children[i].id])
    else None
  }

  /** The remembered position of the card at child `i`, or -1. */
  function PositionAt(g: Grid, i: int): int
  {
    match CardAt(g, i)
    case Some(c) => if c.name in g.positions then g.positions[c.name] else -1
    case None => -1
  }

  /**
   * What every render leaves: consistent positions, fresh identities above
   * every card, every card child known and positioned, and the children in
   * strictly increasing position order.
   */
  ghost predicate GridOk(g: Grid)
  {
    && PositionsOk(g.positions)
    && (forall id :: id in g.cards ==> id < g.nextId)
    && (forall i :: 0 <= i < |g.children| && g.children[i].CardNode? ==> g.children[i].id in g.cards)
    && (forall i :: CardAt(g, i).Some? ==> CardAt(g, i).value.name in g.positions)
    && (forall i, j :: 0 <= i < j < |g.children| ==> PositionAt(g, i) < PositionAt(g, j))
  }

  /** The dictionary's keys are all present (the loop reads each). */
  predicate KeysIn(s: Dict<SimpleMetric>)
  {
    forall i :: 0 <= i < |s.keys| ==> s.keys[i] in s.values
  }

  /** Every key names its own metric, as both callers build the dictionary. */
  ghost predicate KeysNamed(s: Dict<SimpleMetric>)
  {
    forall k :: k in s.values ==> s.values[k].name == k
  }

  // ---------------------------------------------------------- positions

  /** An element of `currentMetrics`. */
  datatype Entry = Entry(name: string, position: nat, metric: SimpleMetric)

  function EntryPosition(e: Entry): int
  {
    e.position
  }

  datatype Indexed = Indexed(positions: map<string, nat>, entries: seq<Entry>)

  /**
   * The first loop: a remembered name keeps its position, a new one gets
   * the number of names remembered so far.
   */
  function Index(p: map<string, nat>, keys: seq<string>, values: map<string, SimpleMetric>): (r: Indexed)
    requires forall i :: 0 <= i < |keys| ==> keys[i] in values
    ensures |r.entries| == |keys|
  {
    if keys == [] then Indexed(p, [])
    else
      var r := Index(p, keys[..|keys| - 1], values);
      var k := keys[|keys| - 1];
      var pos := if k in r.positions then r.positions[k] else |r.positions|;
      Indexed(r.positions[k := pos], r.entries + [Entry(k, pos, values[k])])
  }

  /**
   * Positions are never forgotten or changed, every shown name gets one,
   * and new names go after every remembered one.
   */
  lemma {:induction false} IndexKeeps(p: map<string, nat>, keys: seq<string>, values: map<string, SimpleMetric>)
    requires forall i :: 0 <= i < |keys| ==> keys[i] in values
    ensures var q := Index(p, keys, values).positions;
      && (forall n :: n in q <==> n in p || n in keys)
      && (forall n :: n in p ==> q[n] == p[n])
      && (forall n :: n in q && n !in p ==> q[n] >= |p|)
      && |q| >= |p|
  {
    if keys != [] {
      var init := keys[..|keys| - 1];
      var k := keys[|keys| - 1];
      IndexKeeps(p, init, values);
      var q0 := Index(p, init, values).positions;
      assert forall n :: n in keys <==> n in init || n == k;
      if k !in q0 {
        assert |q0[k := |q0|]| == |q0| + 1;
      }
    }
  }

  /** Each entry carries its name, its name's final position and its metric. */
  lemma {:induction false} IndexEntries(p: map<string, nat>, keys: seq<string>, values: map<string, SimpleMetric>)
    requires forall i :: 0 <= i < |keys| ==> keys[i] in values
    ensures var r := Index(p, keys, values);
      forall i :: 0 <= i < |keys| ==> keys[i] in r.positions && r.entries[i] == Entry(keys[i], r.positions[keys[i]], values[keys[i]])
  {
    if keys != [] {
      var init := keys[..|keys| - 1];
      IndexEntries(p, init, values);
      IndexKeeps(p, init, values);
      var r0 := Index(p, init, values);
      var r := Index(p, keys, values);
      forall i | 0 <= i < |init|
        ensures r.positions[keys[i]] == r0.positions[keys[i]]
      {
        assert keys[i] == init[i];
      }
    }
  }

  /** Positions stay one per name and below the number of names remembered. */
  lemma {:induction false} IndexPositionsOk(p: map<string, nat>, keys: seq<string>, values: map<string, SimpleMetric>)
    requires forall i :: 0 <= i < |keys| ==> keys[i] in values
    requires PositionsOk(p)
    ensures PositionsOk(Index(p, keys, values).positions)
  {
    if keys != [] {
      var init := keys[..|keys| - 1];
      var k := keys[|keys| - 1];
      IndexPositionsOk(p, init, values);
      var q0 := Index(p, init, values).positions;
      if k !in q0 {
        assert |q0[k := |q0|]| == |q0| + 1;
      }
    }
  }

  /** How many of `ks` the position map `p` does not know yet. */
  function CountNew(p: map<string, nat>, ks: seq<string>): (n: nat)
    ensures n <= |ks|
  {
    if ks == [] then 0
    else CountNew(p, ks[..|ks| - 1]) + (if ks[|ks| - 1] in p then 0 else 1)
  }

  /** Counting new names over a longer prefix never counts fewer. */
  lemma {:induction false} CountNewGrows(p: map<string, nat>, ks: seq<string>, i: nat)
    requires i <= |ks|
    ensures CountNew(p, ks[..i]) <= CountNew(p, ks)
    decreases |ks|
  {
    if i < |ks| {
      CountNewGrows(p, ks[..|ks| - 1], i);
      assert ks[..|ks| - 1][..i] == ks[..i];
    } else {
      assert ks[..i] == ks;
    }
  }

  /** One more name grows the map exactly when the name is new to it. */
  lemma IndexSizeStep(p: map<string, nat>, keys: seq<string>, values: map<string, SimpleMetric>)
    requires forall i :: 0 <= i < |keys| ==> keys[i] in values
    requires keys != [] && keys[|keys| - 1] !in keys[..|keys| - 1]
    ensures var q0 := Index(p, keys[..|keys| - 1], values).positions;
      var k := keys[|keys| - 1];
      && Index(p, keys, values).positions == q0[k := if k in p then p[k] else |q0|]
      && |Index(p, keys, values).positions| == |q0| + (if k in p then 0 else 1)
  {
    var init := keys[..|keys| - 1];
    var k := keys[|keys| - 1];
    IndexKeeps(p, init, values);
    var q0 := Index(p, init, values).positions;
    assert k in q0 <==> k in p;
    if k !in p {
      assert |q0[k := |q0|]| == |q0| + 1;
    } else {
      assert q0[k := p[k]] == q0;
    }
  }

  /** With distinct names, the map grows by exactly the number of new names. */
  lemma {:induction false} IndexGrows(p: map<string, nat>, keys: seq<string>, values: map<string, SimpleMetric>)
    requires forall i :: 0 <= i < |keys| ==> keys[i] in values
    requires Distinct(keys)
    ensures |Index(p, keys, values).positions| == |p| + CountNew(p, keys)
  {
    if keys != [] {
      var init := keys[..|keys| - 1];
      assert Distinct(init) by {
        assert forall i :: 0 <= i < |init| ==> init[i] == keys[i];
      }
      IndexGrows(p, init, values);
      IndexSizeStep(p, keys, values);
    }
  }

  /**
   * The numbering step for one name: a name of the shorter list keeps its
   * number, and the last name, when new, is numbered by the map's size.
   */
  lemma NumberedStep(p: map<string, nat>, keys: seq<string>, init: seq<string>,
                     q0: map<string, nat>, q: map<string, nat>, i: nat)
    requires keys != [] && init == keys[..|keys| - 1] && i < |keys| && keys[i] !in p && Distinct(keys)
    requires var k := keys[|keys| - 1]; q == q0[k := if k in p then p[k] else |q0|]
    requires |q0| == |p| + CountNew(p, init)
    requires forall j :: 0 <= j < |init| && init[j] !in p ==>
      init[j] in q0 && q0[init[j]] == |p| + CountNew(p, init[..j])
    ensures keys[i] in q && q[keys[i]] == |p| + CountNew(p, keys[..i])
  {
    if i < |init| {
      assert keys[i] == init[i] && keys[i] != keys[|keys| - 1];
      assert init[..i] == keys[..i];
    } else {
      assert keys[..i] == init;
    }
  }

  /**
   * With the distinct names of a snapshot, each new name is numbered by how
   * many names the map held when it was reached: the remembered ones plus
   * the new ones listed before it.
   */
  lemma {:induction false} IndexNumbersNew(p: map<string, nat>, keys: seq<string>, values: map<string, SimpleMetric>)
    requires forall i :: 0 <= i < |keys| ==> keys[i] in values
    requires Distinct(keys)
    ensures var q := Index(p, keys, values).positions;
      forall i :: 0 <= i < |keys| && keys[i] !in p ==> keys[i] in q && q[keys[i]] == |p| + CountNew(p, keys[..i])
  {
    if keys != [] {
      var init := keys[..|keys| - 1];
      assert Distinct(init) by {
        assert forall i :: 0 <= i < |init| ==> init[i] == keys[i];
      }
      IndexNumbersNew(p, init, values);
      IndexGrows(p, init, values);
      IndexSizeStep(p, keys, values);
      var q0 := Index(p, init, values).positions;
      var q := Index(p, keys, values).positions;
      forall i | 0 <= i < |keys| && keys[i] !in p
        ensures keys[i] in q && q[keys[i]] == |p| + CountNew(p, keys[..i])
      {
        NumberedStep(p, keys, init, q0, q, i);
      }
    }
  }

  /** Between two listed positions, the later one has counted the earlier new name. */
  lemma CountNewBetween(p: map<string, nat>, keys: seq<string>, i: nat, j: nat)
    requires i < j <= |keys| && keys[i] !in p
    ensures CountNew(p, keys[..i]) < CountNew(p, keys[..j])
  {
    var pre := keys[..j];
    CountNewGrows(p, pre, i + 1);
    assert pre[..i + 1] == keys[..i + 1];
    assert keys[..i + 1][..i] == keys[..i];
    assert CountNew(p, keys[..i + 1]) == CountNew(p, keys[..i]) + 1;
  }

  /** New names are numbered in the order they are listed. */
  lemma NewInListingOrder(p: map<string, nat>, keys: seq<string>, values: map<string, SimpleMetric>)
    requires forall i :: 0 <= i < |keys| ==> keys[i] in values
    requires Distinct(keys)
    ensures var q := Index(p, keys, values).positions;
      forall i, j :: 0 <= i < j < |keys| && keys[i] !in p && keys[j] !in p ==>
        keys[i] in q && keys[j] in q && q[keys[i]] < q[keys[j]]
  {
    IndexNumbersNew(p, keys, values);
    forall i, j | 0 <= i < j < |keys| && keys[i] !in p && keys[j] !in p
      ensures CountNew(p, keys[..i]) < CountNew(p, keys[..j])
    {
      CountNewBetween(p, keys, i, j);
    }
  }

  /** The three facts about the first loop together. */
  lemma IndexFacts(p: map<string, nat>, keys: seq<string>, values: map<string, SimpleMetric>)
    requires forall i :: 0 <= i < |keys| ==> keys[i] in values
    ensures var r := Index(p, keys, values);
      && (forall n :: n in r.positions <==> n in p || n in keys)
      && (forall n :: n in p ==> r.positions[n] == p[n])
      && (forall i :: 0 <= i < |keys| ==> keys[i] in r.positions && r.entries[i] == Entry(keys[i], r.positions[keys[i]], values[keys[i]]))
      && (PositionsOk(p) ==> PositionsOk(r.positions))
  {
    IndexKeeps(p, keys, values);
    IndexEntries(p, keys, values);
    if PositionsOk(p) {
      IndexPositionsOk(p, keys, values);
    }
  }

  /** `currentMetrics` after the sort by position. */
  function Ordered(g: Grid, s: Dict<SimpleMetric>): seq<Entry>
    requires KeysIn(s)
  {
    SortBy(Index(g.positions, s.keys, s.values).entries, EntryPosition)
  }

  /** Each entry is a metric of `values` at its name's position in `q`. */
  ghost predicate EntriesOk(e: seq<Entry>, q: map<string, nat>, values: map<string, SimpleMetric>)
  {
    forall i :: 0 <= i < |e| ==>
      e[i].name in values && e[i].name in q && e[i] == Entry(e[i].name, q[e[i].name], values[e[i].name])
  }

  /** A reordering of well-formed entries is well formed. */
  lemma EntriesOkReordered(e: seq<Entry>, o: seq<Entry>, q: map<string, nat>, values: map<string, SimpleMetric>)
    requires multiset(e) == multiset(o) && EntriesOk(e, q, values)
    ensures EntriesOk(o, q, values)
  {
    forall i | 0 <= i < |o|
      ensures o[i] in e
    {
      assert o[i] in multiset(o);
    }
  }

  /** The sorted entries are the loop's entries, so each is a metric at its position. */
  lemma OrderedEntries(g: Grid, s: Dict<SimpleMetric>)
    requires DictValid(s)
    ensures KeysIn(s)
    ensures EntriesOk(Ordered(g, s), Index(g.positions, s.keys, s.values).positions, s.values)
    ensures |Ordered(g, s)| == |s.keys|
  {
    var ix := Index(g.positions, s.keys, s.values);
    IndexEntries(g.positions, s.keys, s.values);
    SortByPermutation(ix.entries, EntryPosition);
    EntriesOkReordered(ix.entries, Ordered(g, s), ix.positions, s.values);
  }

  /** Every key names an entry of any reordering of entries named by the keys. */
  lemma CoversKeys(keys: seq<string>, e: seq<Entry>, o: seq<Entry>)
    requires |e| == |keys| && forall j :: 0 <= j < |keys| ==> e[j].name == keys[j]
    requires multiset(e) == multiset(o)
    ensures forall n :: n in keys ==> exists i :: 0 <= i < |o| && o[i].name == n
  {
    forall n | n in keys
      ensures exists i :: 0 <= i < |o| && o[i].name == n
    {
      var j :| 0 <= j < |keys| && keys[j] == n;
      var i := Found(e, o, j);
    }
  }

  /** Every metric of the dictionary has a sorted entry. */
  lemma OrderedCovers(g: Grid, s: Dict<SimpleMetric>)
    requires DictValid(s)
    ensures KeysIn(s)
    ensures forall n :: n in s.values ==> exists i :: 0 <= i < |Ordered(g, s)| && Ordered(g, s)[i].name == n
  {
    var e := Index(g.positions, s.keys, s.values).entries;
    IndexEntries(g.positions, s.keys, s.values);
    SortByPermutation(e, EntryPosition);
    CoversKeys(s.keys, e, Ordered(g, s));
  }

  /** An element of a sequence sits somewhere in any reordering of it. */
  lemma Found<T>(a: seq<T>, b: seq<T>, j: int) returns (i: int)
    requires multiset(a) == multiset(b) && 0 <= j < |a|
    ensures 0 <= i < |b| && b[i] == a[j]
  {
    assert a[j] in multiset(b);
    i :| 0 <= i < |b| && b[i] == a[j];
  }

  /** The sorted entries are in strictly increasing position. */
  lemma OrderedStrictly(g: Grid, s: Dict<SimpleMetric>)
    requires PositionsOk(g.positions) && DictValid(s)
    ensures KeysIn(s)
    ensures var o := Ordered(g, s); forall i, j :: 0 <= i < j < |o| ==> o[i].position < o[j].position
  {
    var ix := Index(g.positions, s.keys, s.values);
    var e := ix.entries;
    IndexEntries(g.positions, s.keys, s.values);
    IndexPositionsOk(g.positions, s.keys, s.values);
    SortByCorrect(e, EntryPosition);
    forall i, j | 0 <= i < j < |e|
      ensures EntryPosition(e[i]) != EntryPosition(e[j])
    {
      assert s.keys[i] != s.keys[j];
    }
    PermutationDistinctBy(e, Ordered(g, s), EntryPosition);
  }

  /**
   * The sorted entries are the dictionary's metrics, each exactly once, in
   * strictly increasing position.
   */
  lemma OrderedFacts(g: Grid, s: Dict<SimpleMetric>)
    requires PositionsOk(g.positions) && DictValid(s)
    ensures KeysIn(s)
    ensures var o := Ordered(g, s);
      && |o| == |s.keys|
      && EntriesOk(o, Index(g.positions, s.keys, s.values).positions, s.values)
      && (forall i, j :: 0 <= i < j < |o| ==> o[i].position < o[j].position)
      && (forall i, j :: 0 <= i < j < |o| ==> o[i].name != o[j].name)
      && (forall n :: n in s.values ==> exists i :: 0 <= i < |o| && o[i].name == n)
  {
    OrderedEntries(g, s);
    OrderedCovers(g, s);
    OrderedStrictly(g, s);
  }

  // ------------------------------------------------------------- cards

  /** `existingCards`: the grid's cards by name, a later card winning. */
  function Existing(children: seq<Node>, cards: map<nat, Card>): map<string, nat>
  {
    if children == [] then map[]
    else
      var m := Existing(children[..|children| - 1], cards);
      var c := children[|children| - 1];
      if c.CardNode? && c.id in cards then m[cards[c.id].name := c.id] else m
  }

  /**
   * A child that `existingCards` found under its metric's name, for a
   * metric the new snapshot no longer has.
   */
  predicate Vanished(c: Node, cards: map<nat, Card>, existing: map<string, nat>, stillExists: set<string>)
  {
    c.CardNode? && c.id in cards && cards[c.id].name in existing
    && existing[cards[c.id].name] == c.id && cards[c.id].name !in stillExists
  }

  /** No two card children carry the same name. */
  ghost predicate NamesDistinct(children: seq<Node>, cards: map<nat, Card>)
  {
    forall i, j ::
      0 <= i < j < |children| && children[i].CardNode? && children[j].CardNode? && children[i].id in cards && children[j].id in cards
      ==> cards[children[i].id].name != cards[children[j].id].name
  }

  lemma GridNamesDistinct(g: Grid)
    requires GridOk(g)
    ensures NamesDistinct(g.children, g.cards)
  {
    forall i, j | 0 <= i < j < |g.children| && g.children[i].CardNode? && g.children[j].CardNode?
      && g.children[i].id in g.cards && g.children[j].id in g.cards
      ensures g.cards[g.children[i].id].name != g.cards[g.children[j].id].name
    {
      assert PositionAt(g, i) < PositionAt(g, j);
    }
  }

  /** Each name in `m` leads to a known card of that name. */
  ghost predicate LeadsToCards(m: map<string, nat>, cards: map<nat, Card>)
  {
    forall n :: n in m ==> m[n] in cards && cards[m[n]].name == n
  }

  /** Each name found leads to a known card of that name. */
  lemma {:induction false} ExistingNames(children: seq<Node>, cards: map<nat, Card>)
    ensures LeadsToCards(Existing(children, cards), cards)
  {
    if children != [] {
      ExistingNames(children[..|children| - 1], cards);
    }
  }

  /** With distinct names, every card child is found under its own name. */
  lemma {:induction false} ExistingFinds(children: seq<Node>, cards: map<nat, Card>)
    requires NamesDistinct(children, cards)
    ensures var m := Existing(children, cards);
      forall i :: 0 <= i < |children| && children[i].CardNode? && children[i].id in cards ==>
        cards[children[i].id].name in m && m[cards[children[i].id].name] == children[i].id
  {
    if children != [] {
      var n := |children| - 1;
      var init := children[..n];
      assert forall i :: 0 <= i < n ==> init[i] == children[i];
      ExistingFinds(init, cards);
    }
  }

  datatype Placed = Placed(ids: seq<nat>, cards: map<nat, Card>, nextId: nat)

  /**
   * The second loop: an existing card of the name is reused and given the
   * new data; otherwise a new card is created for the metric.
   */
  function Place(order: seq<Entry>, existing: map<string, nat>, cards: map<nat, Card>, nextId: nat): (r: Placed)
    ensures |r.ids| == |order|
  {
    if order == [] then Placed([], cards, nextId)
    else
      var r := Place(order[..|order| - 1], existing, cards, nextId);
      var e := order[|order| - 1];
      if e.name in existing then
        Placed(r.ids + [existing[e.name]], r.cards[existing[e.name] := Card(e.name, e.metric)], r.nextId)
      else
        Placed(r.ids + [r.nextId], r.cards[r.nextId := Card(e.metric.name, e.metric)], r.nextId + 1)
  }

  /** Names found in the grid lead to known cards of that name, below the fresh identity. */
  ghost predicate ExistingOk(existing: map<string, nat>, cards: map<nat, Card>, nextId: nat)
  {
    forall n :: n in existing ==> existing[n] in cards && cards[existing[n]].name == n && existing[n] < nextId
  }

  /** Every card's identity is below `nextId`. */
  ghost predicate Below(cards: map<nat, Card>, nextId: nat)
  {
    forall id :: id in cards ==> id < nextId
  }

  /**
   * An entry whose name the grid has gets that card; any other entry gets a
   * fresh identity; no card is lost and found names keep their cards.
   */
  lemma {:induction false} PlaceFrame(order: seq<Entry>, existing: map<string, nat>, cards: map<nat, Card>, nextId: nat)
    requires ExistingOk(existing, cards, nextId) && Below(cards, nextId)
    ensures var r := Place(order, existing, cards, nextId);
      && nextId <= r.nextId && Below(r.cards, r.nextId)
      && ExistingOk(existing, r.cards, r.nextId)
      && (forall id :: id in cards ==> id in r.cards)
      && (forall i :: 0 <= i < |order| ==> r.ids[i] < r.nextId && r.ids[i] in r.cards)
      && (forall i :: 0 <= i < |order| && order[i].name in existing ==> r.ids[i] == existing[order[i].name])
      && (forall i :: 0 <= i < |order| && order[i].name !in existing ==> nextId <= r.ids[i])
  {
    if order != [] {
      PlaceFrame(order[..|order| - 1], existing, cards, nextId);
    }
  }

  /** Each entry gets its own card, holding that entry's data. */
  lemma {:induction false} PlaceContents(order: seq<Entry>, existing: map<string, nat>, cards: map<nat, Card>, nextId: nat)
    requires ExistingOk(existing, cards, nextId) && Below(cards, nextId)
    requires forall i, j :: 0 <= i < j < |order| ==> order[i].name != order[j].name
    requires forall i :: 0 <= i < |order| ==> order[i].metric.name == order[i].name
    ensures var r := Place(order, existing, cards, nextId);
      && (forall i :: 0 <= i < |order| ==> r.ids[i] in r.cards && r.cards[r.ids[i]] == Card(order[i].name, order[i].metric))
      && (forall i, j :: 0 <= i < j < |order| ==> r.ids[i] != r.ids[j])
  {
    if order != [] {
      var n := |order| - 1;
      PlaceContents(order[..n], existing, cards, nextId);
      PlaceFrame(order[..n], existing, cards, nextId);
      PlaceFrame(order, existing, cards, nextId);
    }
  }

  /** Placing entries whose cards are already in place changes nothing. */
  lemma {:induction false} PlaceInPlace(order: seq<Entry>, ids: seq<nat>, existing: map<string, nat>, cards: map<nat, Card>, nextId: nat)
    requires |ids| == |order|
    requires forall i :: 0 <= i < |order| ==>
      order[i].name in existing && existing[order[i].name] == ids[i]
      && ids[i] in cards && cards[ids[i]] == Card(order[i].name, order[i].metric)
    ensures Place(order, existing, cards, nextId) == Placed(ids, cards, nextId)
  {
    if order != [] {
      var n := |order| - 1;
      PlaceInPlace(order[..n], ids[..n], existing, cards, nextId);
      assert ids == ids[..n] + [ids[n]];
    }
  }

  // ------------------------------------------------------------ render

  /** The grid's children once rendered: the cards, or the message when there are none. */
  function Layout(ids: seq<nat>): (r: seq<Node>)
    ensures ids == [] ==> r == [NoResults]
    ensures ids != [] ==> |r| == |ids| && forall i :: 0 <= i < |ids| ==> r[i] == CardNode(ids[i])
  {
    if ids == [] then [NoResults] else seq(|ids|, i requires 0 <= i < |ids| => CardNode(ids[i]))
  }

  function Placement(g: Grid, s: Dict<SimpleMetric>): Placed
    requires KeysIn(s)
  {
    Place(Ordered(g, s), Existing(g.children, g.cards), g.cards, g.nextId)
  }

  /** The page's card state after `renderMetricCards(s)`. */
  function Render(g: Grid, s: Dict<SimpleMetric>): (r: Grid)
    requires KeysIn(s)
    ensures forall n :: n in r.positions <==> n in g.positions || n in s.keys
    ensures forall n :: n in g.positions ==> r.positions[n] == g.positions[n]
  {
    IndexKeeps(g.positions, s.keys, s.values);
    var placed := Placement(g, s);
    Grid(Index(g.positions, s.keys, s.values).positions, Layout(placed.ids), placed.cards, placed.nextId)
  }

  /** The grid laid out from placed cards shows, at child `i`, the `i`-th entry's card. */
  lemma LaidOut(o: seq<Entry>, pl: Placed, q: map<string, nat>, r: Grid)
    requires r == Grid(q, Layout(pl.ids), pl.cards, pl.nextId) && |pl.ids| == |o|
    requires forall i :: 0 <= i < |o| ==> pl.ids[i] in pl.cards && pl.cards[pl.ids[i]] == Card(o[i].name, o[i].metric)
    requires forall i :: 0 <= i < |o| ==> o[i].name in q && o[i].position == q[o[i].name]
    ensures forall i :: 0 <= i < |o| ==>
      && r.children[i] == CardNode(pl.ids[i])
      && CardAt(r, i) == Some(Card(o[i].name, o[i].metric))
      && PositionAt(r, i) == o[i].position
  {
  }

  /** The cards placed for a render: one per sorted entry, found ones kept. */
  lemma PlacementFacts(g: Grid, s: Dict<SimpleMetric>)
    requires GridOk(g) && DictValid(s) && KeysNamed(s)
    ensures KeysIn(s)
    ensures var o := Ordered(g, s); var pl := Placement(g, s); var ex := Existing(g.children, g.cards);
      && |pl.ids| == |o| == |s.keys| && Below(pl.cards, pl.nextId)
      && (forall i :: 0 <= i < |o| ==> pl.ids[i] in pl.cards && pl.cards[pl.ids[i]] == Card(o[i].name, o[i].metric))
      && (forall i :: 0 <= i < |o| && o[i].name in ex ==> pl.ids[i] == ex[o[i].name])
  {
    OrderedFacts(g, s);
    ExistingNames(g.children, g.cards);
    var o := Ordered(g, s);
    var ex := Existing(g.children, g.cards);
    assert LeadsToCards(ex, g.cards);
    assert ExistingOk(ex, g.cards, g.nextId);
    assert forall i :: 0 <= i < |o| ==> o[i].metric.name == o[i].name;
    PlaceFrame(o, ex, g.cards, g.nextId);
    PlaceContents(o, ex, g.cards, g.nextId);
  }

  /** Child `i` of a render is the card placed for the `i`-th sorted entry. */
  lemma RenderAt(g: Grid, s: Dict<SimpleMetric>)
    requires GridOk(g) && DictValid(s) && KeysNamed(s)
    ensures KeysIn(s)
    ensures var r := Render(g, s); var o := Ordered(g, s); var pl := Placement(g, s);
      && |pl.ids| == |o| == |s.keys|
      && (forall i :: 0 <= i < |o| ==>
            && r.children[i] == CardNode(pl.ids[i])
            && CardAt(r, i) == Some(Card(o[i].name, o[i].metric))
            && PositionAt(r, i) == o[i].position)
      && (forall i :: 0 <= i < |o| && o[i].name in Existing(g.children, g.cards) ==>
            pl.ids[i] == Existing(g.children, g.cards)[o[i].name])
      && Below(r.cards, r.nextId)
  {
    PlacementFacts(g, s);
    OrderedFacts(g, s);
    LaidOut(Ordered(g, s), Placement(g, s), Index(g.positions, s.keys, s.values).positions, Render(g, s));
  }

  /** A grid laid out from entries in strictly increasing position is consistent. */
  lemma LaidOutOk(r: Grid, o: seq<Entry>, ids: seq<nat>)
    requires PositionsOk(r.positions) && Below(r.cards, r.nextId)
    requires |ids| == |o| && r.children == Layout(ids)
    requires forall i :: 0 <= i < |o| ==> CardAt(r, i) == Some(Card(o[i].name, o[i].metric)) && PositionAt(r, i) == o[i].position
    requires forall i :: 0 <= i < |o| ==> o[i].name in r.positions
    requires forall i, j :: 0 <= i < j < |o| ==> o[i].position < o[j].position
    ensures GridOk(r)
  {
    if o != [] {
      forall i | 0 <= i < |r.children| && r.children[i].CardNode?
        ensures r.children[i].id in r.cards
      {
        assert CardAt(r, i).Some?;
      }
    }
  }

  /** A render records a position for every metric and keeps every old one. */
  lemma RenderPositions(g: Grid, s: Dict<SimpleMetric>)
    requires GridOk(g) && DictValid(s)
    ensures KeysIn(s)
    ensures var r := Render(g, s);
      && PositionsOk(r.positions)
      && (forall n :: n in r.positions <==> n in g.positions || n in s.values)
      && (forall n :: n in g.positions ==> r.positions[n] == g.positions[n])
  {
    assert KeysIn(s);
    IndexFacts(g.positions, s.keys, s.values);
  }

  /** A render leaves a consistent grid whose positions extend the old ones. */
  lemma RenderValid(g: Grid, s: Dict<SimpleMetric>)
    requires GridOk(g) && DictValid(s) && KeysNamed(s)
    ensures KeysIn(s)
    ensures var r := Render(g, s);
      && GridOk(r)
      && (forall n :: n in r.positions <==> n in g.positions || n in s.values)
      && (forall n :: n in g.positions ==> r.positions[n] == g.positions[n])
  {
    RenderPositions(g, s);
    RenderAt(g, s);
    OrderedFacts(g, s);
    LaidOutOk(Render(g, s), Ordered(g, s), Placement(g, s).ids);
  }

  /**
   * What the grid shows: the message exactly when there are no metrics;
   * otherwise one card per metric, each holding that metric's data.
   */
  lemma RenderShows(g: Grid, s: Dict<SimpleMetric>)
    requires GridOk(g) && DictValid(s) && KeysNamed(s)
    ensures KeysIn(s)
    ensures var r := Render(g, s);
      && (s.keys == [] <==> r.children == [NoResults])
      && (s.keys != [] ==>
            && |r.children| == |s.keys|
            && (forall i :: 0 <= i < |r.children| ==>
                  CardAt(r, i).Some? && CardAt(r, i).value.name in s.values
                  && CardAt(r, i).value.metric == s.values[CardAt(r, i).value.name])
            && (forall n :: n in s.values ==> exists i :: 0 <= i < |r.children| && CardAt(r, i) == Some(Card(n, s.values[n]))))
  {
    RenderAt(g, s);
    OrderedFacts(g, s);
    var o := Ordered(g, s);
    var r := Render(g, s);
    forall n | n in s.values && s.keys != []
      ensures exists i :: 0 <= i < |r.children| && CardAt(r, i) == Some(Card(n, s.values[n]))
    {
      var i :| 0 <= i < |o| && o[i].name == n;
      assert CardAt(r, i) == Some(Card(n, s.values[n]));
    }
  }

  /** A card already in the grid whose metric is still there is reused, not recreated. */
  lemma RenderReuses(g: Grid, s: Dict<SimpleMetric>, i: int)
    requires GridOk(g) && DictValid(s) && KeysNamed(s)
    requires CardAt(g, i).Some? && CardAt(g, i).value.name in s.values
    ensures KeysIn(s)
    ensures g.children[i] in Render(g, s).children
  {
    RenderAt(g, s);
    OrderedFacts(g, s);
    GridNamesDistinct(g);
    ExistingFinds(g.children, g.cards);
    var o := Ordered(g, s);
    var j :| 0 <= j < |o| && o[j].name == CardAt(g, i).value.name;
    assert Render(g, s).children[j] == g.children[i];
  }

  /**
   * Two metrics shown before and after a render keep their relative order:
   * positions never change and both grids are in position order.
   */
  lemma RenderKeepsOrder(g: Grid, s: Dict<SimpleMetric>, i: int, j: int, i': int, j': int)
    requires GridOk(g) && DictValid(s) && KeysNamed(s)
    requires 0 <= i < j < |g.children| && CardAt(g, i).Some? && CardAt(g, j).Some?
    requires KeysIn(s)
    requires CardAt(Render(g, s), i').Some? && CardAt(Render(g, s), i').value.name == CardAt(g, i).value.name
    requires CardAt(Render(g, s), j').Some? && CardAt(Render(g, s), j').value.name == CardAt(g, j).value.name
    ensures i' < j'
  {
    RenderValid(g, s);
    var r := Render(g, s);
    assert PositionAt(g, i) < PositionAt(g, j);
    assert PositionAt(r, i') == PositionAt(g, i);
    assert PositionAt(r, j') == PositionAt(g, j);
    assert 0 <= j' < i' ==> PositionAt(r, j') < PositionAt(r, i');
  }

  /** Indexing the same names again against the positions just recorded changes nothing. */
  lemma IndexAgain(p: map<string, nat>, keys: seq<string>, values: map<string, SimpleMetric>)
    requires forall i :: 0 <= i < |keys| ==> keys[i] in values
    ensures Index(Index(p, keys, values).positions, keys, values) == Index(p, keys, values)
  {
    var r := Index(p, keys, values);
    var r2 := Index(r.positions, keys, values);
    IndexKeeps(p, keys, values);
    IndexKeeps(r.positions, keys, values);
    IndexEntries(p, keys, values);
    IndexEntries(r.positions, keys, values);
    assert r2.positions == r.positions;
    assert r2.entries == r.entries;
  }

  /** Rendering the same metrics twice leaves the page as the first render did. */
  lemma RenderIdempotent(g: Grid, s: Dict<SimpleMetric>)
    requires GridOk(g) && DictValid(s) && KeysNamed(s)
    ensures KeysIn(s)
    ensures Render(Render(g, s), s) == Render(g, s)
  {
    RenderValid(g, s);
    RenderAt(g, s);
    var r := Render(g, s);
    IndexAgain(g.positions, s.keys, s.values);
    assert Ordered(r, s) == Ordered(g, s);
    var o := Ordered(g, s);
    var pl := Placement(g, s);
    GridNamesDistinct(r);
    ExistingFinds(r.children, r.cards);
    var ex := Existing(r.children, r.cards);
    forall i | 0 <= i < |o|
      ensures o[i].name in ex && ex[o[i].name] == pl.ids[i]
    {
      assert CardAt(r, i).Some?;
    }
    PlaceInPlace(o, pl.ids, ex, r.cards, r.nextId);
    assert Placement(r, s) == Placed(pl.ids, r.cards, r.nextId);
  }

  /** The grid's state and `renderMetricCards`. */
  class MetricsGrid {
    /** `metricPositions`. */
    var positions: map<string, nat>
    /** The `.metrics-grid` element's children. */
    var children: seq<Node>
    /** Every card element, by identity. */
    var cards: map<nat, Card>
    /** The identity the next created card gets. */
    var nextId: nat

    function State(): Grid
      reads this
    {
      Grid(positions, children, cards, nextId)
    }

    ghost predicate Valid()
      reads this
    {
      GridOk(State())
    }

    constructor()
      ensures Valid() && State() == Grid(map[], [], map[], 0)
    {
      positions, children, cards, nextId := map[], [], map[], 0;
    }

    /** `renderMetricCards(simple)`. */
    method RenderMetricCards(simple: Dict<SimpleMetric>)
      requires Valid() && DictValid(simple) && KeysNamed(simple)
      modifies this
      ensures KeysIn(simple) && State() == Render(old(State()), simple)
      ensures Valid()
    {
      ghost var g := State();
      assert KeysIn(simple);
      var current := RecordPositions(simple);
      var ordered := SortBy(current, EntryPosition);
      var existing := FindCards(children, cards);
      var before := cards;
      var elements, stillExists := CreateOrReuse(ordered, existing);
      var kept := RemoveVanished(children, before, existing, stillExists);
      children := Arrange(kept, elements);
      assert Placement(g, simple) == Placed(elements, cards, nextId);
      RenderValid(g, simple);
    }

    /** The first loop: each name's position is recorded, in the dictionary's order. */
    method RecordPositions(simple: Dict<SimpleMetric>) returns (current: seq<Entry>)
      requires KeysIn(simple)
      modifies this`positions
      ensures Indexed(positions, current) == Index(old(positions), simple.keys, simple.values)
    {
      current := [];
      for i := 0 to |simple.keys|
        invariant Indexed(positions, current) == Index(old(positions), simple.keys[..i], simple.values)
      {
        var name := simple.keys[i];
        var position := if name in positions then positions[name] else |positions|;
        current := current + [Entry(name, position, simple.values[name])];
        positions := positions[name := position];
        assert simple.keys[..i + 1][..i] == simple.keys[..i];
      }
      assert simple.keys[..|simple.keys|] == simple.keys;
    }

    /** The cards in the grid, by their `data-metric-name`. */
    static method FindCards(children: seq<Node>, cards: map<nat, Card>) returns (existing: map<string, nat>)
      ensures existing == Existing(children, cards)
      ensures LeadsToCards(existing, cards)
    {
      existing := map[];
      for i := 0 to |children|
        invariant existing == Existing(children[..i], cards)
      {
        if children[i].CardNode? && children[i].id in cards {
          existing := existing[cards[children[i].id].name := children[i].id];
        }
        assert children[..i + 1][..i] == children[..i];
      }
      assert children[..|children|] == children;
      ExistingNames(children, cards);
    }

    /** The second loop: reuse the card of each name or create one, in position order. */
    method CreateOrReuse(ordered: seq<Entry>, existing: map<string, nat>) returns (elements: seq<nat>, stillExists: set<string>)
      modifies this`cards, this`nextId
      ensures Placed(elements, cards, nextId) == Place(ordered, existing, old(cards), old(nextId))
      ensures forall n :: n in stillExists <==> exists i :: 0 <= i < |ordered| && ordered[i].name == n
    {
      elements, stillExists := [], {};
      for i := 0 to |ordered|
        invariant Placed(elements, cards, nextId) == Place(ordered[..i], existing, old(cards), old(nextId))
        invariant forall n :: n in stillExists <==> exists k :: 0 <= k < i && ordered[k].name == n
      {
        var e := ordered[i];
        stillExists := stillExists + {e.name};
        if e.name in existing {
          var id := existing[e.name];
          cards := cards[id := Card(e.name, e.metric)];
          elements := elements + [id];
        } else {
          cards := cards[nextId := Card(e.metric.name, e.metric)];
          elements := elements + [nextId];
          nextId := nextId + 1;
        }
        assert ordered[..i + 1][..i] == ordered[..i];
      }
      assert ordered[..|ordered|] == ordered;
    }

    /** The cards found by name whose metric is gone leave the grid; every other child stays. */
    static method RemoveVanished(children: seq<Node>, cards: map<nat, Card>, existing: map<string, nat>,
                                 stillExists: set<string>) returns (kept: seq<Node>)
      ensures forall x :: x in kept ==> x in children
      ensures forall i :: 0 <= i < |children| && children[i] !in kept ==>
        children[i].CardNode? && children[i].id in cards && cards[children[i].id].name !in stillExists
      ensures forall i :: 0 <= i < |children| && !Vanished(children[i], cards, existing, stillExists) ==>
        children[i] in kept
    {
      kept := [];
      for i := 0 to |children|
        invariant forall x :: x in kept ==> x in children
        invariant forall k :: 0 <= k < i && children[k] !in kept ==>
          children[k].CardNode? && children[k].id in cards && cards[children[k].id].name !in stillExists
        invariant forall k :: 0 <= k < i && !Vanished(children[k], cards, existing, stillExists) ==>
          children[k] in kept
      {
        var c := children[i];
        var gone := Vanished(c, cards, existing, stillExists);
        if !gone {
          kept := kept + [c];
        }
      }
    }

    /**
     * The grid's new children: the message when there are no cards, else
     * the cards in order, whether the grid was empty, out of order or
     * already right.
     */
    static method Arrange(kept: seq<Node>, elements: seq<nat>) returns (shown: seq<Node>)
      ensures shown == Layout(elements)
    {
      if |elements| == 0 {
        return [NoResults];
      }
      if |kept| == 0 {
        return Layout(elements);
      }
      var needsUpdate := |kept| != |elements|;
      if !needsUpdate {
        var i := 0;
        while i < |elements|
          invariant 0 <= i <= |elements| && !needsUpdate
          invariant forall k :: 0 <= k < i ==> kept[k] == CardNode(elements[k])
        {
          if kept[i] != CardNode(elements[i]) {
            needsUpdate := true;
            break;
          }
          i := i + 1;
        }
      }
      if needsUpdate {
        shown := Layout(elements);
      } else {
        shown := kept;
      }
    }
  }
}
