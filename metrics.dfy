// The metrics page's data handling (static/js/metrics.js): histogram bucket
// conversion, the classification of a prom2json snapshot, the search
// partition, the type filter and the two metric-name helpers. Values that
// the page parses as floats are integers here.
module Metrics {
  import opened Wrappers
  import opened Sorting
  import opened Text

  // ------------------------------------------------------------------ buckets

  /** A bucket's upper bound `le`: a number, or `+Inf`. */
  datatype Bound = Finite(at: int) | PosInf

  /** One histogram bucket: its upper bound and its (cumulative) count. */
  datatype Bucket = Bucket(le: Bound, value: int)

  /** The order of upper bounds, `+Inf` last. */
  predicate BoundLe(a: Bound, b: Bound)
  {
    b.PosInf? || (a.Finite? && a.at <= b.at)
  }

  /** The largest finite bound of `bs`, or 0. */
  function MaxFinite(bs: seq<Bucket>): (m: int)
    ensures forall b :: b in bs && b.le.Finite? ==> b.le.at <= m
  {
    if bs == [] then 0
    else
      var rest := MaxFinite(bs[1..]);
      assert forall b :: b in bs ==> b == bs[0] || b in bs[1..];
      if bs[0].le.Finite? && bs[0].le.at > rest then bs[0].le.at else rest
  }

  /**
   * The comparator `a.le - b.le` as a key: a finite bound is its value and
   * `+Inf` sits above every finite bound of the list (two `+Inf` compare
   * as `NaN`, which sorting reads as equal).
   */
  function BucketRank(top: int, b: Bucket): int
  {
    if b.le.PosInf? then top + 1 else b.le.at
  }

  /** `.sort((a, b) => a.le - b.le)`. */
  function SortBuckets(bs: seq<Bucket>): (r: seq<Bucket>)
    ensures multiset(r) == multiset(bs)
  {
    var top := MaxFinite(bs);
    SortByPermutation(bs, b => BucketRank(top, b));
    SortBy(bs, b => BucketRank(top, b))
  }

  /** The buckets are sorted by ascending upper bound, `+Inf` last. */
  predicate Ascending(bs: seq<Bucket>)
  {
    forall i, j :: 0 <= i < j < |bs| ==> BoundLe(bs[i].le, bs[j].le)
  }

  lemma SortBucketsCorrect(bs: seq<Bucket>)
    ensures multiset(SortBuckets(bs)) == multiset(bs)
    ensures Ascending(SortBuckets(bs))
  {
    var top := MaxFinite(bs);
    var key := b => BucketRank(top, b);
    var r := SortBy(bs, key);
    SortByCorrect(bs, key);
    forall i, j | 0 <= i < j < |r|
      ensures BoundLe(r[i].le, r[j].le)
    {
      assert r[i] in multiset(bs) && r[j] in multiset(bs);
      assert key(r[i]) <= key(r[j]);
    }
  }

  /** `max(0, d)`: the guard that keeps a per-bucket count non-negative. */
  function NonNegative(d: int): nat
  {
    if d >= 0 then d else 0
  }

  /** The per-bucket counts of cumulative buckets, defined on prefixes. */
  function Increments(bs: seq<Bucket>): (r: seq<int>)
    ensures |r| == |bs|
  {
    if bs == [] then []
    else if |bs| == 1 then [bs[0].value]
    else Increments(bs[..|bs| - 1]) + [NonNegative(bs[|bs| - 1].value - bs[|bs| - 2].value)]
  }

  lemma {:induction false} IncrementsAt(bs: seq<Bucket>)
    ensures bs != [] ==> Increments(bs)[0] == bs[0].value
    ensures forall i :: 0 < i < |bs| ==> Increments(bs)[i] == NonNegative(bs[i].value - bs[i - 1].value)
  {
    if |bs| > 1 {
      var init := bs[..|bs| - 1];
      IncrementsAt(init);
      forall i | 0 < i < |bs| - 1
        ensures Increments(bs)[i] == NonNegative(bs[i].value - bs[i - 1].value)
      {
        assert Increments(bs)[i] == Increments(init)[i];
      }
    }
  }

  /** The text of an integer, as `toString` writes it. */
  function DecimalText(n: int): (s: string)
    ensures s != [] && (s[0] == '-' || IsDigit(s[0]))
    decreases if n < 0 then 1 - n else n
  {
    if n < 0 then "-" + DecimalText(-n)
    else if n < 10 then [(n + '0' as int) as char]
    else DecimalText(n / 10) + [(n % 10 + '0' as int) as char]
  }

  /** A bucket's chart label: `+Inf` or the bound's text. */
  function BucketLabel(b: Bucket): (s: string)
    ensures s == "+Inf" <==> b.le.PosInf?
  {
    if b.le.PosInf? then "+Inf" else DecimalText(b.le.at)
  }

  /** The chart labels of a list of buckets, defined on prefixes. */
  function Labels(bs: seq<Bucket>): (r: seq<string>)
    ensures |r| == |bs|
    ensures forall i :: 0 <= i < |bs| ==> r[i] == BucketLabel(bs[i])
  {
    if bs == [] then [] else Labels(bs[..|bs| - 1]) + [BucketLabel(bs[|bs| - 1])]
  }

  /**
   * `convertBucketsToNonCumulative`: one label and one count per bucket; the
   * first count as is, each later one the rise over its predecessor, never
   * below zero.
   */
  method ConvertBuckets(buckets: seq<Bucket>) returns (labels: seq<string>, values: seq<int>)
    ensures |labels| == |buckets| && |values| == |buckets|
    ensures forall i :: 0 <= i < |buckets| ==> labels[i] == BucketLabel(buckets[i])
    ensures values == Increments(buckets)
    ensures buckets != [] ==> values[0] == buckets[0].value
    ensures forall i :: 0 < i < |buckets| ==> values[i] == NonNegative(buckets[i].value - buckets[i - 1].value)
  {
    labels, values := [], [];
    for i := 0 to |buckets|
      invariant labels == Labels(buckets[..i])
      invariant values == Increments(buckets[..i])
    {
      assert buckets[..i + 1][..i] == buckets[..i];
      labels := labels + [BucketLabel(buckets[i])];
      if i == 0 {
        values := values + [buckets[i].value];
      } else {
        var increment := buckets[i].value - buckets[i - 1].value;
        values := values + [if increment >= 0 then increment else 0];
      }
    }
    assert buckets[..|buckets|] == buckets;
    IncrementsAt(buckets);
  }

  /** Cumulative counts never fall from one bucket to the next. */
  predicate Cumulative(bs: seq<Bucket>)
  {
    forall i :: 0 < i < |bs| ==> bs[i - 1].value <= bs[i].value
  }

  /** Sum of a list of counts. */
  function Sum(s: seq<int>): int
  {
    if s == [] then 0 else Sum(s[..|s| - 1]) + s[|s| - 1]
  }

  /**
   * The per-bucket counts of cumulative buckets add up to the last
   * cumulative count: `[5, 8, 8]` becomes `[5, 3, 0]`.
   */
  lemma {:induction false} IncrementsSum(bs: seq<Bucket>)
    requires bs != [] && Cumulative(bs)
    ensures Sum(Increments(bs)) == bs[|bs| - 1].value
  {
    if |bs| > 1 {
      var init := bs[..|bs| - 1];
      IncrementsSum(init);
      assert Increments(bs)[..|bs| - 1] == Increments(init);
    }
  }

  // ---------------------------------------------------------------- snapshot

  /** One quantile of a summary. */
  datatype Quantile = Quantile(q: int, value: int)

  /** One entry of a family's `metrics` array. */
  datatype Sample = Sample(labels: map<string, string>, value: int, buckets: Option<seq<Bucket>>,
                           quantiles: Option<seq<Quantile>>, count: int, sum: int)

  /** One metric family of the prom2json snapshot (`help` "" when absent). */
  datatype Family = Family(name: string, help: string, ftype: string, metrics: Option<seq<Sample>>)

  /** A histogram chart's data. */
  datatype Histogram = Histogram(name: string, help: string, buckets: seq<Bucket>, count: int, sum: int,
                                 labels: map<string, string>)

  /** A summary chart's data. */
  datatype Summary = Summary(name: string, help: string, quantiles: seq<Quantile>, count: int, sum: int,
                             labels: map<string, string>)

  /** A counter, gauge or untyped card's data: one value per sample. */
  datatype SimpleMetric = SimpleMetric(name: string, help: string, mtype: string,
                                       values: seq<(map<string, string>, int)>)

  /** A JavaScript object used as a dictionary: its keys in insertion order. */
  datatype Dict<V> = Dict(keys: seq<string>, values: map<string, V>)

  ghost predicate DictValid<V>(d: Dict<V>)
  {
    Distinct(d.keys) && forall k :: k in d.values <==> k in d.keys
  }

  /** `d[k] = v`: a new key goes last, an existing key keeps its place. */
  function Put<V>(d: Dict<V>, k: string, v: V): (r: Dict<V>)
    ensures r.values == d.values[k := v]
    ensures k in d.values ==> r.keys == d.keys
    ensures k !in d.values ==> r.keys == d.keys + [k]
    ensures DictValid(d) ==> DictValid(r)
  {
    if k in d.values then Dict(d.keys, d.values[k := v]) else Dict(d.keys + [k], d.values[k := v])
  }

  /** `organizeMetrics`'s result. */
  datatype Organized = Organized(histograms: seq<Histogram>, summaries: seq<Summary>, simple: Dict<SimpleMetric>)

  /** The family's samples, none when `metrics` is absent. */
  function SamplesOf(f: Family): seq<Sample>
  {
    if f.metrics.Some? then f.metrics.value else []
  }

  /** The first sample that has buckets (an empty bucket object counts). */
  function FirstWithBuckets(ms: seq<Sample>): (r: Option<Sample>)
    ensures r.Some? ==> r.value in ms && r.value.buckets.Some?
    ensures r.None? <==> forall m :: m in ms ==> m.buckets.None?
  {
    if ms == [] then None
    else if ms[0].buckets.Some? then Some(ms[0])
    else
      assert forall m :: m in ms ==> m == ms[0] || m in ms[1..];
      FirstWithBuckets(ms[1..])
  }

  /** The first sample that has quantiles. */
  function FirstWithQuantiles(ms: seq<Sample>): (r: Option<Sample>)
    ensures r.Some? ==> r.value in ms && r.value.quantiles.Some?
    ensures r.None? <==> forall m :: m in ms ==> m.quantiles.None?
  {
    if ms == [] then None
    else if ms[0].quantiles.Some? then Some(ms[0])
    else
      assert forall m :: m in ms ==> m == ms[0] || m in ms[1..];
      FirstWithQuantiles(ms[1..])
  }

  /**
   * `processHistogram`: the first sample with buckets, its buckets sorted by
   * upper bound; nothing when no sample has buckets or that one has none.
   */
  function HistogramOf(f: Family): (r: Option<Histogram>)
    ensures r.Some? ==>
      && FirstWithBuckets(SamplesOf(f)).Some?
      && var hm := FirstWithBuckets(SamplesOf(f)).value;
      && r.value.name == f.name && r.value.help == f.help
      && r.value.count == hm.count && r.value.sum == hm.sum && r.value.labels == hm.labels
      && multiset(r.value.buckets) == multiset(hm.buckets.value)
      && Ascending(r.value.buckets) && |r.value.buckets| > 0
    ensures r.None? <==>
      FirstWithBuckets(SamplesOf(f)).None? || |FirstWithBuckets(SamplesOf(f)).value.buckets.value| == 0
  {
    match FirstWithBuckets(SamplesOf(f))
    case None => None
    case Some(hm) =>
      var bs := SortBuckets(hm.buckets.value);
      SortBucketsCorrect(hm.buckets.value);
      if |bs| > 0 then Some(Histogram(f.name, f.help, bs, hm.count, hm.sum, hm.labels)) else None
  }

  /** `processSummary`: the same, with quantiles sorted by quantile. */
  function SummaryOf(f: Family): (r: Option<Summary>)
    ensures r.Some? ==>
      && FirstWithQuantiles(SamplesOf(f)).Some?
      && var sm := FirstWithQuantiles(SamplesOf(f)).value;
      && r.value.name == f.name && r.value.help == f.help
      && r.value.count == sm.count && r.value.sum == sm.sum && r.value.labels == sm.labels
      && multiset(r.value.quantiles) == multiset(sm.quantiles.value)
      && SortedBy(r.value.quantiles, (x: Quantile) => x.q) && |r.value.quantiles| > 0
    ensures r.None? <==>
      FirstWithQuantiles(SamplesOf(f)).None? || |FirstWithQuantiles(SamplesOf(f)).value.quantiles.value| == 0
  {
    match FirstWithQuantiles(SamplesOf(f))
    case None => None
    case Some(sm) =>
      var qs := SortBy(sm.quantiles.value, (x: Quantile) => x.q);
      SortByCorrect(sm.quantiles.value, (x: Quantile) => x.q);
      if |qs| > 0 then Some(Summary(f.name, f.help, qs, sm.count, sm.sum, sm.labels)) else None
  }

  /** One card value per sample: its labels and its value. */
  function ValuesOf(ms: seq<Sample>): (r: seq<(map<string, string>, int)>)
    ensures |r| == |ms|
    ensures forall i :: 0 <= i < |ms| ==> r[i] == (ms[i].labels, ms[i].value)
  {
    if ms == [] then [] else [(ms[0].labels, ms[0].value)] + ValuesOf(ms[1..])
  }

  /** `processSimpleMetric`: every sample as a value; nothing without samples. */
  function SimpleOf(f: Family): (r: Option<SimpleMetric>)
    ensures r.Some? <==> |SamplesOf(f)| > 0
    ensures r.Some? ==>
      r.value.name == f.name && r.value.mtype == f.ftype && r.value.values == ValuesOf(SamplesOf(f))
  {
    var ms := SamplesOf(f);
    if |ms| == 0 then None else Some(SimpleMetric(f.name, f.help, f.ftype, ValuesOf(ms)))
  }

  predicate IsSimpleType(t: string)
  {
    t == "COUNTER" || t == "GAUGE" || t == "UNTYPED"
  }

  /** One pass of the `organizeMetrics` loop: the `switch` on the family type. */
  function Step(acc: Organized, f: Family): Organized
  {
    if f.ftype == "HISTOGRAM" then
      match HistogramOf(f)
      case Some(h) => acc.(histograms := acc.histograms + [h])
      case None => acc
    else if f.ftype == "SUMMARY" then
      match SummaryOf(f)
      case Some(s) => acc.(summaries := acc.summaries + [s])
      case None => acc
    else if IsSimpleType(f.ftype) then
      match SimpleOf(f)
      case Some(m) => acc.(simple := Put(acc.simple, f.name, m))
      case None => acc
    else acc
  }

  const NoMetrics: Organized := Organized([], [], Dict([], map[]))

  /** The loop of `organizeMetrics`, before the two sorts. */
  function Collect(fs: seq<Family>): (r: Organized)
    ensures |r.histograms| + |r.summaries| + |r.simple.keys| <= |fs|
  {
    if fs == [] then NoMetrics else Step(Collect(fs[..|fs| - 1]), fs[|fs| - 1])
  }

  /** `organizeMetrics`, with `localeCompare` as a collation key. */
  function Organize(fs: seq<Family>, collate: string -> int): (r: Organized)
    ensures multiset(r.histograms) == multiset(Collect(fs).histograms)
    ensures multiset(r.summaries) == multiset(Collect(fs).summaries)
    ensures r.simple == Collect(fs).simple
  {
    var c := Collect(fs);
    SortByPermutation(c.histograms, (h: Histogram) => collate(h.name));
    SortByPermutation(c.summaries, (s: Summary) => collate(s.name));
    c.(histograms := SortBy(c.histograms, (h: Histogram) => collate(h.name)),
       summaries := SortBy(c.summaries, (s: Summary) => collate(s.name)))
  }

  /** `organizeMetrics`: one pass over the families, then the two sorts. */
  method OrganizeMetrics(fs: seq<Family>, collate: string -> int) returns (r: Organized)
    ensures r == Organize(fs, collate)
  {
    r := NoMetrics;
    for i := 0 to |fs|
      invariant r == Collect(fs[..i])
    {
      assert fs[..i + 1][..i] == fs[..i];
      var f := fs[i];
      if f.ftype == "HISTOGRAM" {
        var h := HistogramOf(f);
        if h.Some? {
          r := r.(histograms := r.histograms + [h.value]);
        }
      } else if f.ftype == "SUMMARY" {
        var s := SummaryOf(f);
        if s.Some? {
          r := r.(summaries := r.summaries + [s.value]);
        }
      } else if f.ftype == "COUNTER" || f.ftype == "GAUGE" || f.ftype == "UNTYPED" {
        var m := SimpleOf(f);
        if m.Some? {
          r := r.(simple := Put(r.simple, f.name, m.value));
        }
      }
    }
    assert fs[..|fs|] == fs;
    r := r.(histograms := SortBy(r.histograms, (h: Histogram) => collate(h.name)),
            summaries := SortBy(r.summaries, (s: Summary) => collate(s.name)));
  }

  /** A histogram appears exactly when some histogram family yields it. */
  lemma {:induction false} HistogramRouting(fs: seq<Family>)
    ensures forall h :: h in Collect(fs).histograms <==>
      exists f :: f in fs && f.ftype == "HISTOGRAM" && HistogramOf(f) == Some(h)
  {
    if fs != [] {
      var init := fs[..|fs| - 1];
      var f := fs[|fs| - 1];
      HistogramRouting(init);
      assert forall g :: g in fs <==> g in init || g == f;
      assert Collect(fs).histograms == Collect(init).histograms
        + (if f.ftype == "HISTOGRAM" && HistogramOf(f).Some? then [HistogramOf(f).value] else []);
    }
  }

  /** A summary appears exactly when some summary family yields it. */
  lemma {:induction false} SummaryRouting(fs: seq<Family>)
    ensures forall s :: s in Collect(fs).summaries <==>
      exists f :: f in fs && f.ftype == "SUMMARY" && SummaryOf(f) == Some(s)
  {
    if fs != [] {
      var init := fs[..|fs| - 1];
      var f := fs[|fs| - 1];
      SummaryRouting(init);
      assert forall g :: g in fs <==> g in init || g == f;
      assert Collect(fs).summaries == Collect(init).summaries
        + (if f.ftype == "SUMMARY" && SummaryOf(f).Some? then [SummaryOf(f).value] else []);
    }
  }

  /** The card names are listed once each, in first-seen order. */
  lemma {:induction false} SimpleKeysValid(fs: seq<Family>)
    ensures DictValid(Collect(fs).simple)
  {
    if fs != [] {
      SimpleKeysValid(fs[..|fs| - 1]);
    }
  }

  /**
   * A name has a card exactly when some counter, gauge or untyped family of
   * that name has samples.
   */
  lemma {:induction false} SimpleRouting(fs: seq<Family>)
    ensures forall k :: k in Collect(fs).simple.values <==>
      exists f :: f in fs && IsSimpleType(f.ftype) && f.name == k && |SamplesOf(f)| > 0
  {
    if fs != [] {
      var init := fs[..|fs| - 1];
      var f := fs[|fs| - 1];
      SimpleRouting(init);
      assert forall g :: g in fs <==> g in init || g == f;
      assert Collect(fs).simple == (if IsSimpleType(f.ftype) && SimpleOf(f).Some?
        then Put(Collect(init).simple, f.name, SimpleOf(f).value) else Collect(init).simple);
    }
  }

  /** A later family of the same name replaces the earlier card's data. */
  lemma LaterFamilyWins(fs: seq<Family>, f: Family)
    requires IsSimpleType(f.ftype) && |SamplesOf(f)| > 0
    ensures Collect(fs + [f]).simple.values[f.name] == SimpleOf(f).value
  {
    assert (fs + [f])[..|fs|] == fs;
  }

  /** Families of other types change nothing. */
  lemma OtherTypesDropped(fs: seq<Family>, f: Family)
    requires f.ftype != "HISTOGRAM" && f.ftype != "SUMMARY" && !IsSimpleType(f.ftype)
    ensures Collect(fs + [f]) == Collect(fs)
  {
    assert (fs + [f])[..|fs|] == fs;
  }

  /** The organized snapshot: the charts sorted by name, nothing lost. */
  lemma OrganizeCorrect(fs: seq<Family>, collate: string -> int)
    ensures SortedBy(Organize(fs, collate).histograms, (h: Histogram) => collate(h.name))
    ensures SortedBy(Organize(fs, collate).summaries, (s: Summary) => collate(s.name))
    ensures multiset(Organize(fs, collate).histograms) == multiset(Collect(fs).histograms)
    ensures multiset(Organize(fs, collate).summaries) == multiset(Collect(fs).summaries)
    ensures Organize(fs, collate).simple == Collect(fs).simple
  {
    var c := Collect(fs);
    SortByCorrect(c.histograms, (h: Histogram) => collate(h.name));
    SortByCorrect(c.summaries, (s: Summary) => collate(s.name));
  }

  // ------------------------------------------------------------------ search

  /** One search result: the indexed item's category and its data. */
  datatype Hit = SimpleHit(name: string, metric: SimpleMetric) | HistogramHit(h: Histogram) | SummaryHit(s: Summary)

  /** The three lists `searchMetrics` separates the results into. */
  datatype Partition = Partition(simple: Dict<SimpleMetric>, histograms: seq<Histogram>, summaries: seq<Summary>)

  /** The `forEach` over the results, defined on prefixes. */
  function Separate(hits: seq<Hit>): (r: Partition)
    ensures |r.histograms| + |r.summaries| + |r.simple.keys| <= |hits|
  {
    if hits == [] then Partition(Dict([], map[]), [], [])
    else
      var p := Separate(hits[..|hits| - 1]);
      match hits[|hits| - 1]
      case SimpleHit(name, m) => p.(simple := Put(p.simple, name, m))
      case HistogramHit(h) => p.(histograms := p.histograms + [h])
      case SummaryHit(sm) => p.(summaries := p.summaries + [sm])
  }

  /** What the page shows for a search. */
  datatype SearchView = NotSearched | NoMatches | Matches(found: Partition)

  /**
   * `searchMetrics`: no query does nothing; the results are separated by
   * category; nothing found shows the "no matching metrics" message.
   */
  method SearchMetrics(query: string, hits: seq<Hit>) returns (v: SearchView)
    ensures query == "" ==> v == NotSearched
    ensures query != "" && hits == [] ==> v == NoMatches
    ensures query != "" && hits != [] ==> v == Matches(Separate(hits))
  {
    if query == "" {
      return NotSearched;
    }
    var p := Partition(Dict([], map[]), [], []);
    for i := 0 to |hits|
      invariant p == Separate(hits[..i])
    {
      assert hits[..i + 1][..i] == hits[..i];
      match hits[i]
      case SimpleHit(name, m) =>
        p := p.(simple := Put(p.simple, name, m));
      case HistogramHit(h) =>
        p := p.(histograms := p.histograms + [h]);
      case SummaryHit(sm) =>
        p := p.(summaries := p.summaries + [sm]);
    }
    assert hits[..|hits|] == hits;
    if |p.simple.keys| > 0 || |p.histograms| > 0 || |p.summaries| > 0 {
      v := Matches(p);
    } else {
      SeparateCorrect(hits);
      v := NoMatches;
    }
  }

  /**
   * The partition loses nothing and invents nothing: every result lands in
   * its category's list (a card name once), and nothing else does.
   */
  lemma {:induction false} SeparateCorrect(hits: seq<Hit>)
    ensures forall h :: h in Separate(hits).histograms <==> HistogramHit(h) in hits
    ensures forall s :: s in Separate(hits).summaries <==> SummaryHit(s) in hits
    ensures forall k :: k in Separate(hits).simple.values <==> exists m :: SimpleHit(k, m) in hits
    ensures DictValid(Separate(hits).simple)
    ensures |Separate(hits).simple.keys| + |Separate(hits).histograms| + |Separate(hits).summaries| > 0
      <==> hits != []
  {
    if hits != [] {
      var init := hits[..|hits| - 1];
      SeparateCorrect(init);
      assert forall x :: x in hits <==> x in init || x == hits[|hits| - 1];
    }
  }

  // ------------------------------------------------------------------ filter

  /** A card's `data-metric-type`: its type lower-cased, `unknown` when empty. */
  function CardType(mtype: string): (t: string)
    ensures t != ""
    ensures mtype != "" ==> t == Lower(mtype)
  {
    if Lower(mtype) == "" then "unknown" else Lower(mtype)
  }

  /** Which sections a filter value keeps visible besides `all`. */
  predicate SectionShown(title: string, filter: string)
  {
    (title == "Histograms" && filter == "histogram") || (title == "Summaries" && filter == "summary")
  }

  /** What `filterMetrics` does to the page for the selected filter value. */
  datatype FilterView = FilterView(cards: seq<bool>, sections: seq<bool>, wrappers: seq<bool>)

  /**
   * `filterMetrics`: `all` shows every card, chart wrapper and section;
   * otherwise a card shows exactly when its type is the filter, the
   * Histograms section only for `histogram`, the Summaries section only for
   * `summary`, and chart wrappers keep their display.
   */
  function FilterMetrics(selected: string, cardTypes: seq<string>, sectionTitles: seq<string>,
                         wrappersShown: seq<bool>): (v: FilterView)
    ensures |v.cards| == |cardTypes| && |v.sections| == |sectionTitles| && |v.wrappers| == |wrappersShown|
    ensures Lower(selected) == "all" ==>
      && (forall i :: 0 <= i < |cardTypes| ==> v.cards[i])
      && (forall i :: 0 <= i < |sectionTitles| ==> v.sections[i])
      && (forall i :: 0 <= i < |wrappersShown| ==> v.wrappers[i])
    ensures Lower(selected) != "all" ==>
      && (forall i :: 0 <= i < |cardTypes| ==> (v.cards[i] <==> cardTypes[i] == Lower(selected)))
      && (forall i :: 0 <= i < |sectionTitles| ==> (v.sections[i] <==> SectionShown(sectionTitles[i], Lower(selected))))
      && v.wrappers == wrappersShown
  {
    var f := Lower(selected);
    if f == "all" then
      FilterView(seq(|cardTypes|, _ => true), seq(|sectionTitles|, _ => true), seq(|wrappersShown|, _ => true))
    else
      FilterView(seq(|cardTypes|, i requires 0 <= i < |cardTypes| => cardTypes[i] == f),
                 seq(|sectionTitles|, i requires 0 <= i < |sectionTitles| => SectionShown(sectionTitles[i], f)),
                 wrappersShown)
  }

  /**
   * Two different type filters never both show a card, and under any filter
   * but `all` no two differently titled sections are both shown.
   */
  lemma FilterExclusive(a: string, b: string, cardTypes: seq<string>, sectionTitles: seq<string>, w: seq<bool>)
    requires Lower(a) != Lower(b) && Lower(a) != "all" && Lower(b) != "all"
    ensures forall i :: 0 <= i < |cardTypes| ==>
      !(FilterMetrics(a, cardTypes, sectionTitles, w).cards[i] && FilterMetrics(b, cardTypes, sectionTitles, w).cards[i])
    ensures forall i, j :: 0 <= i < |sectionTitles| && 0 <= j < |sectionTitles| && sectionTitles[i] != sectionTitles[j] ==>
      !(FilterMetrics(a, cardTypes, sectionTitles, w).sections[i] && FilterMetrics(a, cardTypes, sectionTitles, w).sections[j])
  {
  }

  // ------------------------------------------------------------------- names

  /** `isLikelyBytes`: the name mentions bytes, a size, a capacity or memory. */
  function IsLikelyBytes(name: string): (b: bool)
    ensures b ==> |name| >= 5 && '_' in name
  {
    ContainsMarker(name, "_bytes");
    ContainsMarker(name, "_size");
    ContainsMarker(name, "_capacity");
    ContainsMarker(name, "_memory");
    Contains(name, "_bytes") || Contains(name, "_size") || Contains(name, "_capacity") || Contains(name, "_memory")
  }

  /** A text containing a fragment is at least as long and holds its first character. */
  lemma {:induction false} ContainsMarker(s: string, t: string)
    ensures Contains(s, t) ==> |s| >= |t| && (t != [] ==> t[0] in s)
    decreases |s|
  {
    if Contains(s, t) && !HasPrefix(s, t) {
      ContainsMarker(s[1..], t);
      if t != [] {
        assert t[0] in s[1..];
      }
    } else if Contains(s, t) && t != [] {
      assert s[0] == s[..|t|][0];
    }
  }

  /** A name that looks like bytes still does with text around it. */
  lemma LikelyBytesExtends(p: string, name: string, q: string)
    requires IsLikelyBytes(name)
    ensures IsLikelyBytes(p + name + q)
  {
    forall t | Contains(name, t)
      ensures Contains(p + name + q, t)
    {
      ContainsWithin(p, name, q, t);
    }
  }

  /** Any name with one of the four fragments anywhere in it is judged a byte count. */
  lemma MarkerMakesBytes(p: string, m: string, q: string)
    requires m == "_bytes" || m == "_size" || m == "_capacity" || m == "_memory"
    ensures IsLikelyBytes(p + m + q)
  {
    assert m[..|m|] == m;
    assert Contains(m, m);
    ContainsWithin(p, m, q, m);
  }

  /** `replace(/_/g, ' ')`. */
  function SpaceUnderscores(s: string): (r: string)
    ensures |r| == |s|
    ensures forall i :: 0 <= i < |s| ==> r[i] == (if s[i] == '_' then ' ' else s[i])
  {
    if s == [] then [] else [if s[0] == '_' then ' ' else s[0]] + SpaceUnderscores(s[1..])
  }

  /** `replace(/([a-z])([A-Z])/g, '$1 $2')`: a space inside each lower-upper pair. */
  function SplitCamel(s: string): (r: string)
    ensures |r| >= |s|
    ensures (forall i :: 0 <= i < |s| ==> s[i] != '_') ==> forall i :: 0 <= i < |r| ==> r[i] != '_'
  {
    if |s| < 2 then s
    else if IsLowerLetter(s[0]) && IsUpper(s[1]) then [s[0], ' '] + SplitCamel(s[1..])
    else [s[0]] + SplitCamel(s[1..])
  }

  /** Upper-casing keeps a character's class and leaves no lower-case letter. */
  lemma UpperCharKeepsClass(c: char)
    ensures IsWordChar(UpperChar(c)) == IsWordChar(c)
    ensures UpperChar(c) == '_' <==> c == '_'
    ensures !IsLowerLetter(UpperChar(c))
  {
  }

  /** `replace(/\b\w/g, c => c.toUpperCase())`, `afterWord` telling what precedes `s`. */
  function Capitalize(s: string, afterWord: bool): (r: string)
    ensures |r| == |s|
    ensures forall i :: 0 <= i < |s| ==> IsWordChar(r[i]) == IsWordChar(s[i])
    ensures forall i :: 0 <= i < |s| ==> (s[i] == '_' <==> r[i] == '_')
    ensures |s| > 0 && IsWordChar(s[0]) && !afterWord ==> !IsLowerLetter(r[0])
    ensures forall i :: 0 < i < |s| && IsWordChar(s[i]) && !IsWordChar(s[i - 1]) ==> !IsLowerLetter(r[i])
  {
    if s == [] then []
    else
      var c := if IsWordChar(s[0]) && !afterWord then UpperChar(s[0]) else s[0];
      UpperCharKeepsClass(s[0]);
      var rest := Capitalize(s[1..], IsWordChar(s[0]));
      assert forall i :: 0 < i < |s| ==> s[i] == s[1..][i - 1];
      [c] + rest
  }

  /** `formatMetricTitle`. */
  function FormatMetricTitle(name: string): (t: string)
    ensures forall i :: 0 <= i < |t| ==> t[i] != '_'
    ensures |t| >= |name|
  {
    Capitalize(SplitCamel(SpaceUnderscores(name)), false)
  }

  /** A word starts at `i`: a `\w` character not preceded by one. */
  predicate WordStart(s: string, i: int)
  {
    0 <= i < |s| && IsWordChar(s[i]) && (i == 0 || !IsWordChar(s[i - 1]))
  }

  /**
   * A title has no underscore, is at least as long as the name, and every
   * word in it starts with a character that is not a lower-case letter.
   */
  lemma FormatMetricTitleCorrect(name: string)
    ensures forall i :: 0 <= i < |FormatMetricTitle(name)| ==> FormatMetricTitle(name)[i] != '_'
    ensures |FormatMetricTitle(name)| >= |name|
    ensures forall i :: WordStart(FormatMetricTitle(name), i) ==> !IsLowerLetter(FormatMetricTitle(name)[i])
  {
    var t := SplitCamel(SpaceUnderscores(name));
    var r := Capitalize(t, false);
    forall i | WordStart(r, i)
      ensures !IsLowerLetter(r[i])
    {
      if i > 0 {
        assert IsWordChar(t[i]) && !IsWordChar(t[i - 1]);
      }
    }
  }
}
