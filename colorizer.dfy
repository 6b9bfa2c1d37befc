// Condition severity colouring of the dashboard (static/js/dashboard.js and
// its copy in static/js/main.js) and of the cluster page
// (static/js/cluster-details.js).
module Colorizer {
  import opened Wrappers
  import opened Sorting

  datatype Color = Red | Orange | Purple | Blue | Green | Grey

  /** One entry of a cluster's `status.conditions` (its `status` and `type`). */
  datatype Condition = Condition(status: string, ctype: string)

  /** Condition types that are healthy when true. */
  predicate IsHealthType(t: string)
  {
    t == "Available" || t == "Balanced" || t == "AutoscaleReady" || t == "Synchronized"
  }

  /** Condition types that describe work in progress. */
  predicate IsTransitionalType(t: string)
  {
    t == "Scaling" || t == "ScalingUp" || t == "ScalingDown" || t == "Upgrading"
    || t == "WaitingBetweenMigrations" || t == "Migrating" || t == "Rebalancing"
    || t == "ExpandingVolume" || t == "BucketMigrating"
  }

  predicate IsKnownStatus(status: string)
  {
    status == "True" || status == "False" || status == "Unknown"
  }

  /** The `status === 'True'` switch, common to every copy of the table. */
  function ActiveColor(t: string): Color
  {
    if IsHealthType(t) then Green
    else if t == "Error" then Red
    else if IsTransitionalType(t) then Orange
    else if t == "ManageConfig" then Blue
    else if t == "Hibernating" then Purple
    else Grey
  }

  /** The `status === 'False'` switch, common to every copy of the table. */
  function InactiveColor(t: string): Color
  {
    if IsHealthType(t) then Red
    else if t == "Error" then Grey
    else Grey
  }

  /**
   * `getTileColor`: a status other than True/False/Unknown falls off the
   * end of the function, which yields `undefined` (here `None`).
   */
  function TileColor(status: string, t: string): (r: Option<Color>)
    ensures r.Some? <==> IsKnownStatus(status)
  {
    if status == "Unknown" then Some(Grey)
    else if status == "True" then Some(ActiveColor(t))
    else if status == "False" then Some(InactiveColor(t))
    else None
  }

  /** `getConditionColor`: the same table, with grey for any other status. */
  function ConditionColor(status: string, t: string): (r: Color)
  {
    if status == "Unknown" then Grey
    else if status == "True" then ActiveColor(t)
    else if status == "False" then InactiveColor(t)
    else Grey
  }

  /** The colour table, written as one if-and-only-if per colour. */
  lemma TileColorTable(t: string)
    ensures TileColor("Unknown", t) == Some(Grey)
    ensures TileColor("True", t) == Some(Green) <==>
      t in {"Available", "Balanced", "AutoscaleReady", "Synchronized"}
    ensures TileColor("True", t) == Some(Red) <==> t == "Error"
    ensures TileColor("True", t) == Some(Orange) <==>
      t in {"Scaling", "ScalingUp", "ScalingDown", "Upgrading", "WaitingBetweenMigrations",
            "Migrating", "Rebalancing", "ExpandingVolume", "BucketMigrating"}
    ensures TileColor("True", t) == Some(Blue) <==> t == "ManageConfig"
    ensures TileColor("True", t) == Some(Purple) <==> t == "Hibernating"
    ensures TileColor("False", t) == Some(Red) <==>
      t in {"Available", "Balanced", "AutoscaleReady", "Synchronized"}
    ensures TileColor("False", t) == Some(Grey) <==>
      t !in {"Available", "Balanced", "AutoscaleReady", "Synchronized"}
  {
  }

  /** The copies agree on True/False/Unknown and differ only elsewhere. */
  lemma CopiesAgree(status: string, t: string)
    ensures IsKnownStatus(status) ==> TileColor(status, t) == Some(ConditionColor(status, t))
    ensures !IsKnownStatus(status) ==> TileColor(status, t) == None && ConditionColor(status, t) == Grey
  {
  }

  /** The priority table used by both sorts: red first, grey last. */
  function Priority(c: Color): (p: int)
    ensures 1 <= p <= 6
  {
    match c
    case Red => 1
    case Orange => 2
    case Purple => 3
    case Blue => 4
    case Green => 5
    case Grey => 6
  }

  lemma PriorityOrder(c: Color, d: Color)
    ensures Priority(c) == Priority(d) <==> c == d
    ensures Priority(Red) < Priority(Orange) < Priority(Purple) < Priority(Blue)
         < Priority(Green) < Priority(Grey)
  {
  }

  function ColorOf(c: Condition): Option<Color>
  {
    TileColor(c.status, c.ctype)
  }

  /** `conditions.find(c => getTileColor(c.status, c.type) === color)` succeeds. */
  predicate HasColor(cs: seq<Condition>, color: Color)
  {
    exists i | 0 <= i < |cs| :: ColorOf(cs[i]) == Some(color)
  }

  /**
   * `getOverallTileColor`: the most severe colour among the conditions, grey
   * when there is none (a null or empty list, or only uncoloured entries).
   */
  function OverallTileColor(conditions: Option<seq<Condition>>): (r: Color)
    ensures conditions.None? ==> r == Grey
    ensures conditions.Some? ==> r == Grey || HasColor(conditions.value, r)
    ensures conditions.Some? ==>
      forall i :: 0 <= i < |conditions.value| && ColorOf(conditions.value[i]).Some? ==>
        Priority(r) <= Priority(ColorOf(conditions.value[i]).value)
  {
    if conditions.None? || |conditions.value| == 0 then Grey
    else
      var cs := conditions.value;
      if HasColor(cs, Red) then Red
      else if HasColor(cs, Orange) then Orange
      else if HasColor(cs, Purple) then Purple
      else if HasColor(cs, Blue) then Blue
      else if HasColor(cs, Green) then Green
      else Grey
  }

  /** The set of colours the conditions map to. */
  function Colors(cs: seq<Condition>): set<Color>
  {
    set i | 0 <= i < |cs| && ColorOf(cs[i]).Some? :: ColorOf(cs[i]).value
  }

  /** The overall colour depends only on the set of colours present. */
  lemma OverallDependsOnColors(a: seq<Condition>, b: seq<Condition>)
    requires Colors(a) == Colors(b)
    ensures OverallTileColor(Some(a)) == OverallTileColor(Some(b))
  {
    forall c ensures HasColor(a, c) <==> HasColor(b, c) {
      if HasColor(a, c) {
        var i :| 0 <= i < |a| && ColorOf(a[i]) == Some(c);
        assert c in Colors(a);
      }
      if HasColor(b, c) {
        var i :| 0 <= i < |b| && ColorOf(b[i]) == Some(c);
        assert c in Colors(b);
      }
    }
  }

  /** Reordering the conditions does not change the overall colour. */
  lemma OverallOrderIndependent(a: seq<Condition>, b: seq<Condition>)
    requires multiset(a) == multiset(b)
    ensures OverallTileColor(Some(a)) == OverallTileColor(Some(b))
  {
    forall c | c in Colors(a) ensures c in Colors(b) {
      var i :| 0 <= i < |a| && ColorOf(a[i]).Some? && ColorOf(a[i]).value == c;
      assert a[i] in multiset(b);
      var j :| 0 <= j < |b| && b[j] == a[i];
    }
    forall c | c in Colors(b) ensures c in Colors(a) {
      var i :| 0 <= i < |b| && ColorOf(b[i]).Some? && ColorOf(b[i]).value == c;
      assert b[i] in multiset(a);
      var j :| 0 <= j < |a| && a[j] == b[i];
    }
    OverallDependsOnColors(a, b);
  }

  /**
   * Sort position of a tile condition. An uncoloured condition makes the
   * source's comparator return NaN; the model places it after grey.
   */
  function TileRank(c: Condition): int
  {
    match ColorOf(c)
    case Some(color) => Priority(color)
    case None => 7
  }

  /** Sort position of a condition on the cluster page. */
  function ConditionRank(c: Condition): int
  {
    Priority(ConditionColor(c.status, c.ctype))
  }

  /** Maximum number of conditions listed on a tile. */
  const TileLimit := 5

  /** The conditions listed on a dashboard tile: the five most severe. */
  function TileConditions(cs: seq<Condition>): (r: seq<Condition>)
    ensures |r| == if |cs| < TileLimit then |cs| else TileLimit
  {
    SmallestBy(cs, TileRank, TileLimit)
  }

  /**
   * The tile list is the stable worst-first sort of the conditions, cut to
   * five: its ranks never decrease, every condition left out is at least
   * as far down the order as every one shown, and among equal ranks the
   * original order is kept.
   */
  lemma {:induction false} TileConditionsCorrect(cs: seq<Condition>)
    ensures var r := TileConditions(cs);
      && SortedBy(r, TileRank)
      && multiset(r) <= multiset(cs)
      && (forall x, i | x in multiset(cs) - multiset(r) && 0 <= i < |r| :: TileRank(r[i]) <= TileRank(x))
      && (forall k :: WithKey(SortBy(cs, TileRank), TileRank, k) == WithKey(cs, TileRank, k))
      && r == SortBy(cs, TileRank)[..|r|]
  {
    SortByCorrect(cs, TileRank);
    SmallestByCorrect(cs, TileRank, TileLimit);
  }

  datatype Tile = Tile(name: string, color: Color, shown: seq<Condition>)

  /** What the tiles container shows after a render. */
  datatype TilesView = Unchanged | Placeholder | Tiles(tiles: seq<Tile>)

  function TilesOf(clusters: seq<(string, seq<Condition>)>): (r: seq<Tile>)
    ensures |r| == |clusters|
    ensures forall i :: 0 <= i < |r| ==>
      r[i].name == clusters[i].0 && r[i].color == OverallTileColor(Some(clusters[i].1))
      && r[i].shown == TileConditions(clusters[i].1)
  {
    if clusters == [] then []
    else
      var (name, cs) := clusters[0];
      [Tile(name, OverallTileColor(Some(cs)), TileConditions(cs))] + TilesOf(clusters[1..])
  }

  /**
   * `renderClusterTiles`: a null map leaves the container alone; an empty
   * map shows the placeholder (dashboard.js only; main.js shows nothing);
   * otherwise one tile per cluster, in key order.
   */
  function RenderClusterTiles(clusterConditions: Option<seq<(string, seq<Condition>)>>,
                              withPlaceholder: bool): (v: TilesView)
    ensures clusterConditions.None? <==> v.Unchanged?
    ensures v.Placeholder? <==> clusterConditions.Some? && |clusterConditions.value| == 0 && withPlaceholder
    ensures v.Tiles? ==> |v.tiles| == |clusterConditions.value|
  {
    if clusterConditions.None? then Unchanged
    else if |clusterConditions.value| == 0 && withPlaceholder then Placeholder
    else Tiles(TilesOf(clusterConditions.value))
  }

  /** What the cluster page's conditions container shows. */
  datatype ConditionsView = NoConditions | Cards(cards: seq<Condition>)

  /**
   * `renderConditions`: only this page's cluster, a missing entry read as an
   * empty list, sorted worst-first, a placeholder when empty.
   */
  function RenderConditions(allConditions: map<string, seq<Condition>>, clusterName: string): (v: ConditionsView)
    ensures v.NoConditions? <==> clusterName !in allConditions || |allConditions[clusterName]| == 0
    ensures v.Cards? ==>
      var cs := allConditions[clusterName];
      && multiset(v.cards) == multiset(cs)
      && SortedBy(v.cards, ConditionRank)
      && forall k :: WithKey(v.cards, ConditionRank, k) == WithKey(cs, ConditionRank, k)
  {
    var cs := if clusterName in allConditions then allConditions[clusterName] else [];
    var sorted := SortBy(cs, ConditionRank);
    SortByCorrect(cs, ConditionRank);
    if |sorted| == 0 then NoConditions else Cards(sorted)
  }
}
