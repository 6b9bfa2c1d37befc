// Search-match highlighting: `highlightMatches` in static/js/core.js (copied
// verbatim into static/js/main.js and static/js/cluster-details.js).
module Highlight {
  import opened Wrappers
  import opened Sorting
  import opened Text

  /** One match reported by the search index: inclusive `[start, end]`. */
  datatype Span = Span(start: int, end: int)

  /** An opening and a closing tag. */
  datatype Tags = Tags(open: string, close: string)

  /** The tags `highlightMatches` wraps each match in. */
  const Marker: Tags := Tags("<span class=\"match-highlight\">", "</span>")

  /** A JavaScript `substring` argument clamped to `[0, len]`. */
  function Clamp(i: int, len: nat): (r: nat)
    ensures r <= len
    ensures 0 <= i <= len ==> r == i
  {
    if i < 0 then 0 else if i > len then len else i
  }

  /** `s.substring(a, b)`: both ends clamped, swapped when `a > b`. */
  function Substring(s: string, a: int, b: int): (r: string)
    ensures 0 <= a <= b <= |s| ==> r == s[a..b]
    ensures 0 <= b <= a <= |s| ==> r == s[b..a]
    ensures |r| <= |s|
  {
    var x, y := Clamp(a, |s|), Clamp(b, |s|);
    if x <= y then s[x..y] else s[y..x]
  }

  /** One pass of the loop: wraps the span `m` of `s` in the tags. */
  function Wrap(s: string, m: Span, tags: Tags): string
  {
    Substring(s, 0, m.start) + tags.open + Substring(s, m.start, m.end + 1) + tags.close
      + Substring(s, m.end + 1, |s|)
  }

  /** The loop as a fold: wraps the spans in list order. */
  function ApplyAll(s: string, spans: seq<Span>, tags: Tags): string
    decreases |spans|
  {
    if spans == [] then s else ApplyAll(Wrap(s, spans[0], tags), spans[1..], tags)
  }

  /** The comparator `(a, b) => b[0] - a[0]`: descending start. */
  function StartDesc(m: Span): int
  {
    -m.start
  }

  /** The result `highlightMatches` returns (null and "" as `None`/`Some("")`). */
  function Highlighted(text: Option<string>, matches: Option<seq<Span>>): Option<string>
  {
    if matches.None? || text.None? || text.value == "" then text
    else Some(ApplyAll(text.value, SortBy(matches.value, StartDesc), Marker))
  }

  /** `highlightMatches`, with its `for` loop over the sorted spans. */
  method HighlightMatches(text: Option<string>, matches: Option<seq<Span>>) returns (r: Option<string>)
    ensures r == Highlighted(text, matches)
    ensures matches.None? || text.None? || text == Some("") || matches == Some([]) ==> r == text
  {
    if matches.None? || text.None? || text.value == "" {
      return text;
    }
    var sorted := SortBy(matches.value, StartDesc);
    var result := text.value;
    for i := 0 to |sorted|
      invariant ApplyAll(result, sorted[i..], Marker) == ApplyAll(text.value, sorted, Marker)
    {
      ApplyAllStep(result, sorted, i, Marker);
      result := Wrap(result, sorted[i], Marker);
    }
    assert sorted[|sorted|..] == [];
    r := Some(result);
  }

  /** One iteration of the loop advances the fold by one span. */
  lemma ApplyAllStep(s: string, spans: seq<Span>, i: nat, tags: Tags)
    requires i < |spans|
    ensures ApplyAll(s, spans[i..], tags) == ApplyAll(Wrap(s, spans[i], tags), spans[i + 1..], tags)
  {
    assert spans[i..][1..] == spans[i + 1..];
  }

  /** `m` lies inside a string of length `n`. */
  predicate InBounds(m: Span, n: int)
  {
    0 <= m.start <= m.end < n
  }

  /** Two spans share no position. */
  predicate Apart(m: Span, p: Span)
  {
    m.end < p.start || p.end < m.start
  }

  /** Each later span ends before every earlier one starts. */
  predicate Descending(spans: seq<Span>)
  {
    forall i, j :: 0 <= i < j < |spans| ==> spans[j].end < spans[i].start
  }

  predicate NoMarkup(s: string)
  {
    forall i :: 0 <= i < |s| ==> s[i] != '<'
  }

  /** Both tags start with `<` and differ in their second character. */
  predicate TagsDistinct(tags: Tags)
  {
    |tags.open| >= 2 && |tags.close| >= 2 && tags.open[0] == '<' && tags.close[0] == '<'
    && tags.open[1] != tags.close[1]
  }

  /** Removes every occurrence of the tags, keeping all other characters. */
  function Unmark(s: string, tags: Tags): string
  {
    if s == [] then []
    else if HasPrefix(s, tags.open) && tags.open != [] then Unmark(s[|tags.open|..], tags)
    else if HasPrefix(s, tags.close) && tags.close != [] then Unmark(s[|tags.close|..], tags)
    else [s[0]] + Unmark(s[1..], tags)
  }

  /** Cutting `p + t` inside `p` cuts `p` the same way. */
  lemma SlicesOfConcat(p: string, t: string, a: nat, b: nat)
    requires a <= b <= |p|
    ensures (p + t)[..a] == p[..a]
    ensures (p + t)[a..b] == p[a..b]
    ensures (p + t)[b..] == p[b..] + t
  {
  }

  lemma TaggedSuffix(m: string, u: string, t: string, tags: Tags)
    ensures Tagged(m, u + t, tags) == Tagged(m, u, tags) + t
  {
  }

  /** Wrapping a span inside `p` leaves whatever follows `p` alone. */
  lemma WrapSuffix(p: string, t: string, m: Span, tags: Tags)
    requires InBounds(m, |p|)
    ensures Wrap(p + t, m, tags) == Wrap(p, m, tags) + t
  {
    var a, b := m.start, m.end + 1;
    WrapInBounds(p + t, m, tags);
    WrapInBounds(p, m, tags);
    SlicesOfConcat(p, t, a, b);
    TaggedSuffix(p[a..b], p[b..], t, tags);
    Assoc(p[..a], Tagged(p[a..b], p[b..], tags), t);
  }

  /** Wrapping adds one pair of tags. */
  lemma WrapLength(p: string, m: Span, tags: Tags)
    requires InBounds(m, |p|)
    ensures |Wrap(p, m, tags)| == |p| + |tags.open| + |tags.close|
  {
    WrapInBounds(p, m, tags);
  }

  /** Wrapping spans that lie inside `p` never touches what follows `p`. */
  lemma {:induction false} ApplyAllSuffix(p: string, t: string, spans: seq<Span>, tags: Tags)
    requires forall i :: 0 <= i < |spans| ==> InBounds(spans[i], |p|)
    ensures ApplyAll(p + t, spans, tags) == ApplyAll(p, spans, tags) + t
    decreases |spans|
  {
    if spans != [] {
      WrapSuffix(p, t, spans[0], tags);
      var w := Wrap(p, spans[0], tags);
      ApplyAllSuffix(w, t, spans[1..], tags);
    }
  }

  /** Each in-bounds span adds one pair of tags. */
  lemma {:induction false} ApplyAllLength(p: string, spans: seq<Span>, tags: Tags, w: nat)
    requires forall i :: 0 <= i < |spans| ==> InBounds(spans[i], |p|)
    requires w == |tags.open| + |tags.close|
    ensures |ApplyAll(p, spans, tags)| == |p| + |spans| * w
    decreases |spans|
  {
    if spans != [] {
      WrapLength(p, spans[0], tags);
      ApplyAllLength(Wrap(p, spans[0], tags), spans[1..], tags, w);
      assert (|spans| - 1) * w + w == |spans| * w;
    }
  }

  lemma {:induction false} UnmarkPlain(p: string, y: string, tags: Tags)
    requires NoMarkup(p) && TagsDistinct(tags)
    ensures Unmark(p + y, tags) == p + Unmark(y, tags)
  {
    if p != [] {
      assert (p + y)[0] == p[0];
      assert (p + y)[1..] == p[1..] + y;
      UnmarkPlain(p[1..], y, tags);
      assert [p[0]] + p[1..] == p;
    } else {
      assert p + y == y;
    }
  }

  lemma UnmarkOpen(y: string, tags: Tags)
    requires TagsDistinct(tags)
    ensures Unmark(tags.open + y, tags) == Unmark(y, tags)
  {
    assert (tags.open + y)[..|tags.open|] == tags.open;
    assert (tags.open + y)[|tags.open|..] == y;
  }

  lemma UnmarkClose(y: string, tags: Tags)
    requires TagsDistinct(tags)
    ensures Unmark(tags.close + y, tags) == Unmark(y, tags)
  {
    var s := tags.close + y;
    assert s[..|tags.close|] == tags.close;
    assert s[|tags.close|..] == y;
  }

  lemma WrapInBounds(p: string, m: Span, tags: Tags)
    requires InBounds(m, |p|)
    ensures Wrap(p, m, tags) == p[..m.start] + Tagged(p[m.start..m.end + 1], p[m.end + 1..], tags)
  {
  }

  /** A wrapped match followed by the text after it. */
  function Tagged(m: string, t: string, tags: Tags): string
  {
    tags.open + m + tags.close + t
  }

  /** The first (right-most) span's wrapping does not disturb the rest. */
  lemma ApplyAllHead(p: string, spans: seq<Span>, tags: Tags)
    requires spans != [] && InBounds(spans[0], |p|)
    requires forall i :: 0 <= i < |spans[1..]| ==> InBounds(spans[1..][i], spans[0].start)
    ensures ApplyAll(p, spans, tags)
         == ApplyAll(p[..spans[0].start], spans[1..], tags)
            + Tagged(p[spans[0].start..spans[0].end + 1], p[spans[0].end + 1..], tags)
  {
    WrapInBounds(p, spans[0], tags);
    ApplyAllSuffix(p[..spans[0].start],
                   Tagged(p[spans[0].start..spans[0].end + 1], p[spans[0].end + 1..], tags),
                   spans[1..], tags);
  }

  lemma DescendingTail(spans: seq<Span>, n: int)
    requires spans != []
    requires forall i :: 0 <= i < |spans| ==> InBounds(spans[i], n)
    requires Descending(spans)
    ensures InBounds(spans[0], n)
    ensures forall i :: 0 <= i < |spans[1..]| ==> InBounds(spans[1..][i], spans[0].start)
    ensures Descending(spans[1..])
  {
    forall i | 0 <= i < |spans[1..]| ensures InBounds(spans[1..][i], spans[0].start) {
      assert spans[1..][i] == spans[i + 1];
    }
    forall i, j | 0 <= i < j < |spans[1..]| ensures spans[1..][j].end < spans[1..][i].start {
      assert spans[1..][i] == spans[i + 1] && spans[1..][j] == spans[j + 1];
    }
  }

  lemma Assoc(a: string, b: string, c: string)
    ensures (a + b) + c == a + (b + c)
  {
  }

  lemma Split3(p: string, i: nat, j: nat)
    requires i <= j <= |p|
    ensures p[..i] + (p[i..j] + p[j..]) == p
  {
  }

  /** A stretch of highlighted output: plain text, or a match with its tags. */
  datatype Piece = Plain(text: string) | Marked(text: string)

  function Render(ps: seq<Piece>, tags: Tags): string
  {
    if ps == [] then [] else RenderPiece(ps[0], tags) + Render(ps[1..], tags)
  }

  /** The characters of the pieces with every tag left out. */
  function Contents(ps: seq<Piece>): string
  {
    if ps == [] then [] else ps[0].text + Contents(ps[1..])
  }

  lemma {:induction false} RenderAppend(xs: seq<Piece>, ys: seq<Piece>, tags: Tags)
    ensures Render(xs + ys, tags) == Render(xs, tags) + Render(ys, tags)
    ensures Contents(xs + ys) == Contents(xs) + Contents(ys)
  {
    if xs == [] {
      assert xs + ys == ys;
    } else {
      assert (xs + ys)[1..] == xs[1..] + ys;
      RenderAppend(xs[1..], ys, tags);
    }
  }

  /**
   * The text cut at descending, disjoint, in-bounds spans: the text before
   * each span, the span itself (marked) and the text after the last one.
   */
  function Pieces(p: string, spans: seq<Span>): seq<Piece>
    requires forall i :: 0 <= i < |spans| ==> InBounds(spans[i], |p|)
    requires Descending(spans)
    decreases |spans|
  {
    if spans == [] then [Plain(p)]
    else
      DescendingTail(spans, |p|);
      var a, b := spans[0].start, spans[0].end;
      Pieces(p[..a], spans[1..]) + [Marked(p[a..b + 1]), Plain(p[b + 1..])]
  }

  lemma RenderTwo(m: string, t: string, tags: Tags)
    ensures Render([Marked(m), Plain(t)], tags) == Tagged(m, t, tags)
    ensures Contents([Marked(m), Plain(t)]) == m + t
  {
    var ys := [Marked(m), Plain(t)];
    assert ys[1..] == [Plain(t)] && [Plain(t)][1..] == [];
    assert Render([Plain(t)], tags) == t + Render([], tags) == t;
    assert Render(ys, tags) == (tags.open + m + tags.close) + Render([Plain(t)], tags);
    assert Contents([Plain(t)]) == t + Contents([]) == t;
    assert Contents(ys) == m + Contents([Plain(t)]);
  }

  /** The pieces of `p` are those of the text before the first span, then two more. */
  lemma PiecesHead(p: string, spans: seq<Span>, tags: Tags)
    requires spans != []
    requires forall i :: 0 <= i < |spans| ==> InBounds(spans[i], |p|)
    requires Descending(spans)
    ensures InBounds(spans[0], |p|)
    ensures forall i :: 0 <= i < |spans[1..]| ==> InBounds(spans[1..][i], spans[0].start)
    ensures Descending(spans[1..])
    ensures var a, b := spans[0].start, spans[0].end + 1;
            var xs := Pieces(p[..a], spans[1..]);
            && Render(Pieces(p, spans), tags) == Render(xs, tags) + Tagged(p[a..b], p[b..], tags)
            && Contents(Pieces(p, spans)) == Contents(xs) + (p[a..b] + p[b..])
  {
    DescendingTail(spans, |p|);
    var a, b := spans[0].start, spans[0].end + 1;
    var xs := Pieces(p[..a], spans[1..]);
    var ys := [Marked(p[a..b]), Plain(p[b..])];
    assert Pieces(p, spans) == xs + ys;
    RenderAppend(xs, ys, tags);
    RenderTwo(p[a..b], p[b..], tags);
  }

  /** The pieces hold exactly the characters of the text. */
  lemma {:induction false} PiecesContents(p: string, spans: seq<Span>)
    requires forall i :: 0 <= i < |spans| ==> InBounds(spans[i], |p|)
    requires Descending(spans)
    ensures Contents(Pieces(p, spans)) == p
    decreases |spans|
  {
    if spans == [] {
      assert Contents([Plain(p)]) == p + [];
    } else {
      var a, b := spans[0].start, spans[0].end + 1;
      PiecesHead(p, spans, Marker);
      PiecesContents(p[..a], spans[1..]);
      Split3(p, a, b);
    }
  }

  /** Every piece is a stretch of the text, so none holds markup when the text has none. */
  lemma {:induction false} PiecesNoMarkup(p: string, spans: seq<Span>)
    requires forall i :: 0 <= i < |spans| ==> InBounds(spans[i], |p|)
    requires Descending(spans)
    requires NoMarkup(p)
    ensures forall i :: 0 <= i < |Pieces(p, spans)| ==> NoMarkup(Pieces(p, spans)[i].text)
    decreases |spans|
  {
    if spans != [] {
      var a, b := spans[0].start, spans[0].end;
      DescendingTail(spans, |p|);
      PiecesNoMarkup(p[..a], spans[1..]);
      var xs := Pieces(p[..a], spans[1..]);
      var ys: seq<Piece> := [Marked(p[a..b + 1]), Plain(p[b + 1..])];
      assert Pieces(p, spans) == xs + ys;
      forall i | 0 <= i < |xs + ys| ensures NoMarkup((xs + ys)[i].text) {
        if i >= |xs| {
          assert (xs + ys)[i] == ys[i - |xs|];
        } else {
          assert (xs + ys)[i] == xs[i];
        }
      }
    }
  }

  /** The loop's output is the rendering of the pieces. */
  lemma {:induction false} ApplyAllPieces(p: string, spans: seq<Span>, tags: Tags)
    requires forall i :: 0 <= i < |spans| ==> InBounds(spans[i], |p|)
    requires Descending(spans)
    ensures ApplyAll(p, spans, tags) == Render(Pieces(p, spans), tags)
    decreases |spans|
  {
    if spans == [] {
      assert Render([Plain(p)], tags) == p + [];
    } else {
      PiecesHead(p, spans, tags);
      ApplyAllHead(p, spans, tags);
      ApplyAllPieces(p[..spans[0].start], spans[1..], tags);
    }
  }

  lemma UnmarkMarked(s: string, r: string, tags: Tags)
    requires TagsDistinct(tags) && NoMarkup(s)
    ensures Unmark(tags.open + s + tags.close + r, tags) == s + Unmark(r, tags)
  {
    assert tags.open + s + tags.close + r == tags.open + (s + (tags.close + r));
    UnmarkOpen(s + (tags.close + r), tags);
    UnmarkPlain(s, tags.close + r, tags);
    UnmarkClose(r, tags);
  }

  /** The rendering of one piece. */
  function RenderPiece(x: Piece, tags: Tags): string
  {
    match x
    case Plain(s) => s
    case Marked(s) => tags.open + s + tags.close
  }

  lemma UnmarkPiece(x: Piece, r: string, tags: Tags)
    requires TagsDistinct(tags) && NoMarkup(x.text)
    ensures Unmark(RenderPiece(x, tags) + r, tags) == x.text + Unmark(r, tags)
  {
    match x
    case Plain(s) => UnmarkPlain(s, r, tags);
    case Marked(s) => UnmarkMarked(s, r, tags);
  }

  /** Removing the tags from a rendering gives back its contents. */
  lemma {:induction false} UnmarkRender(ps: seq<Piece>, y: string, tags: Tags)
    requires TagsDistinct(tags)
    requires forall i :: 0 <= i < |ps| ==> NoMarkup(ps[i].text)
    ensures Unmark(Render(ps, tags) + y, tags) == Contents(ps) + Unmark(y, tags)
  {
    if ps == [] {
      assert Render(ps, tags) + y == y;
    } else {
      var h := RenderPiece(ps[0], tags);
      assert Render(ps, tags) == h + Render(ps[1..], tags);
      Assoc(h, Render(ps[1..], tags), y);
      UnmarkPiece(ps[0], Render(ps[1..], tags) + y, tags);
      UnmarkRender(ps[1..], y, tags);
      Assoc(ps[0].text, Contents(ps[1..]), Unmark(y, tags));
    }
  }

  /** Characters added by one pair of highlight tags. */
  const WrapperLength: nat := 37

  lemma MarkerFacts()
    ensures TagsDistinct(Marker)
    ensures |Marker.open| + |Marker.close| == WrapperLength
  {
  }

  /** Only a non-empty text has spans in bounds. */
  lemma SpansNeedText(matches: seq<Span>, n: int)
    requires forall i :: 0 <= i < |matches| ==> InBounds(matches[i], n)
    ensures |matches| > 0 ==> n > 0
  {
    if |matches| > 0 {
      assert InBounds(matches[0], n);
    }
  }

  /** Sorted by descending start, disjoint in-bounds spans are `Descending`. */
  lemma SortedDescending(n: int, matches: seq<Span>)
    requires forall i :: 0 <= i < |matches| ==> InBounds(matches[i], n)
    requires Pairwise(matches, Apart)
    ensures var sorted := SortBy(matches, StartDesc);
            && |sorted| == |matches|
            && (forall i :: 0 <= i < |sorted| ==> InBounds(sorted[i], n))
            && Descending(sorted)
  {
    var sorted := SortBy(matches, StartDesc);
    SortByCorrect(matches, StartDesc);
    SortByPairwise(matches, StartDesc, Apart);
    forall i | 0 <= i < |sorted| ensures InBounds(sorted[i], n) {
      SortByMember(matches, StartDesc, sorted[i]);
    }
    forall i, j | 0 <= i < j < |sorted| ensures sorted[j].end < sorted[i].start {
      assert Apart(sorted[i], sorted[j]);
      assert StartDesc(sorted[i]) <= StartDesc(sorted[j]);
    }
  }

  /** Wrapping descending spans of text without markup can be undone, and adds a tag pair per span. */
  lemma ApplyAllRoundTrip(text: string, spans: seq<Span>)
    requires NoMarkup(text)
    requires forall i :: 0 <= i < |spans| ==> InBounds(spans[i], |text|)
    requires Descending(spans)
    ensures Unmark(ApplyAll(text, spans, Marker), Marker) == text
    ensures |ApplyAll(text, spans, Marker)| == |text| + |spans| * WrapperLength
  {
    MarkerFacts();
    ApplyAllPieces(text, spans, Marker);
    PiecesContents(text, spans);
    PiecesNoMarkup(text, spans);
    UnmarkRender(Pieces(text, spans), [], Marker);
    ApplyAllLength(text, spans, Marker, WrapperLength);
    assert Render(Pieces(text, spans), Marker) + [] == Render(Pieces(text, spans), Marker);
  }

  /**
   * For disjoint in-bounds matches over text without markup, the result is
   * the text with each match wrapped: it is `k` tag pairs longer, and
   * removing the tags gives back the text.
   */
  lemma HighlightRoundTrip(text: string, matches: seq<Span>)
    requires NoMarkup(text)
    requires forall i :: 0 <= i < |matches| ==> InBounds(matches[i], |text|)
    requires Pairwise(matches, Apart)
    ensures Highlighted(Some(text), Some(matches)).Some?
    ensures Unmark(Highlighted(Some(text), Some(matches)).value, Marker) == text
    ensures |Highlighted(Some(text), Some(matches)).value| == |text| + |matches| * WrapperLength
  {
    SortedDescending(|text|, matches);
    SpansNeedText(matches, |text|);
    if text != [] {
      ApplyAllRoundTrip(text, SortBy(matches, StartDesc));
    }
  }
}
