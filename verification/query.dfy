/**
 * URL query strings as ordered lists of (name, value) pairs, the way
 * `URLSearchParams` holds them, with the `k=v&k=v` text form.
 * Percent-decoding is not part of this model: values are kept as written.
 */
module QueryString {
  import opened Js
  import opened Strings

  type Query = seq<(string, string)>

  /** `searchParams.get(key)`: the value of the first pair named `key`, or absent. */
  function Get(q: Query, key: string): (r: Option<string>)
    ensures r.None? <==> forall i :: 0 <= i < |q| ==> q[i].0 != key
    ensures r.Some? ==>
      exists i :: 0 <= i < |q| && q[i] == (key, r.value) &&
        forall j :: 0 <= j < i ==> q[j].0 != key
  {
    if q == [] then None
    else if q[0].0 == key then Some(q[0].1)
    else
      var r := Get(q[1..], key);
      assert forall i :: 1 <= i < |q| ==> q[i] == q[1..][i - 1];
      r
  }

  /** A pair named other than `key`, wherever it stands and whatever its value, does not affect `Get(_, key)`. */
  lemma {:induction false} GetIgnoresOtherName(before: Query, name: string, v1: string, v2: string, after: Query, key: string)
    requires name != key
    ensures Get(before + [(name, v1)] + after, key) == Get(before + [(name, v2)] + after, key)
  {
    if before == [] {
      assert ([(name, v1)] + after)[1..] == after;
      assert ([(name, v2)] + after)[1..] == after;
    } else {
      assert (before + [(name, v1)] + after)[1..] == before[1..] + [(name, v1)] + after;
      assert (before + [(name, v2)] + after)[1..] == before[1..] + [(name, v2)] + after;
      GetIgnoresOtherName(before[1..], name, v1, v2, after, key);
    }
  }

  /** Inserting a pair named other than `key` anywhere does not affect `Get(_, key)`. */
  lemma {:induction false} GetIgnoresInserted(before: Query, p: (string, string), after: Query, key: string)
    requires p.0 != key
    ensures Get(before + [p] + after, key) == Get(before + after, key)
  {
    if before == [] {
      assert ([p] + after)[1..] == after;
      assert [] + [p] + after == [p] + after && [] + after == after;
    } else {
      assert (before + [p] + after)[1..] == before[1..] + [p] + after;
      assert (before + after)[1..] == before[1..] + after;
      assert (before + [p] + after)[0] == (before + after)[0] == before[0];
      GetIgnoresInserted(before[1..], p, after, key);
    }
  }

  function Segment(p: (string, string)): string {
    p.0 + "=" + p.1
  }

  function Segments(q: Query): (segs: seq<string>)
    ensures |segs| == |q|
    ensures forall i :: 0 <= i < |q| ==> segs[i] == Segment(q[i])
  {
    if q == [] then [] else [Segment(q[0])] + Segments(q[1..])
  }

  /** The `k=v&k=v` text of a query. */
  function Render(q: Query): string {
    Join(Segments(q), '&')
  }

  lemma RenderOne(p: (string, string))
    ensures Render([p]) == p.0 + "=" + p.1
  {
    assert Segments([p]) == [Segment(p)];
  }

  lemma RenderCons(p: (string, string), rest: Query)
    requires rest != []
    ensures Render([p] + rest) == p.0 + "=" + p.1 + "&" + Render(rest)
  {
    assert ([p] + rest)[1..] == rest;
    assert Segments([p] + rest) == [Segment(p)] + Segments(rest);
    assert (Segments([p] + rest))[1..] == Segments(rest);
  }

  /** One `k=v` segment read back: split at the first `=`; a segment without one has an empty value. */
  function SplitPair(seg: string): (string, string) {
    if '=' in seg then
      var i := IndexOf(seg, '=');
      (seg[..i], seg[i + 1..])
    else (seg, "")
  }

  function SplitPairs(segs: seq<string>): (q: Query)
    ensures |q| == |segs|
  {
    if segs == [] then [] else [SplitPair(segs[0])] + SplitPairs(segs[1..])
  }

  /** Reads the text of a query back into its pairs; the empty text has none. */
  function Parse(s: string): Query {
    if s == "" then [] else SplitPairs(Split(s, '&'))
  }

  /** The query part of a URL: what follows its first `?`. */
  function QueryOf(url: string): Query {
    if '?' in url then Parse(url[IndexOf(url, '?') + 1..]) else []
  }

  /** No name holds `&` or `=` and no value holds `&`: the text form is then unambiguous. */
  predicate Unambiguous(q: Query) {
    forall i :: 0 <= i < |q| ==> '&' !in q[i].0 && '=' !in q[i].0 && '&' !in q[i].1
  }

  lemma SplitPairOfSegment(p: (string, string))
    requires '=' !in p.0
    ensures SplitPair(Segment(p)) == p
  {
    IndexOfAfter(p.0, '=', p.1);
    assert Segment(p) == p.0 + ['='] + p.1;
    assert Segment(p)[..|p.0|] == p.0;
    assert Segment(p)[|p.0| + 1..] == p.1;
  }

  lemma {:induction false} SplitPairsOfSegments(q: Query)
    requires Unambiguous(q)
    ensures SplitPairs(Segments(q)) == q
  {
    if q != [] {
      SplitPairOfSegment(q[0]);
      assert Segments(q)[1..] == Segments(q[1..]);
      SplitPairsOfSegments(q[1..]);
    }
  }

  /** Rendering a query and reading the text back gives the same pairs in the same order. */
  lemma ParseRender(q: Query)
    requires Unambiguous(q)
    ensures Parse(Render(q)) == q
  {
    if q != [] {
      var segs := Segments(q);
      forall k | 0 <= k < |segs| ensures '&' !in segs[k] {
        assert segs[k] == q[k].0 + ['='] + q[k].1;
      }
      SplitJoin(segs, '&');
      assert '=' in segs[0];
      assert Render(q) != "" by {
        if |segs| == 1 { assert Render(q) == segs[0]; }
        else { assert Render(q) == segs[0] + ['&'] + Join(segs[1..], '&'); }
      }
      SplitPairsOfSegments(q);
    }
  }

  /** The query of `base + "?" + Render(q)` is `q` when `base` holds no `?`. */
  lemma QueryOfUrl(base: string, q: Query)
    requires '?' !in base
    requires Unambiguous(q)
    ensures QueryOf(base + "?" + Render(q)) == q
  {
    IndexOfAfter(base, '?', Render(q));
    assert (base + "?" + Render(q))[|base| + 1..] == Render(q);
    ParseRender(q);
  }
}
