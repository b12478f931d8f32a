/** `urllib.parse.urlencode(params, doseq=True)`: each key and each value
    rendered `quote(str(key)) + "=" + quote(str(value))`, a list value
    expanded into one pair per element, the pairs joined by '&' in the
    dict's insertion order. `quote` (quote_plus) is left uninterpreted. */
module UrlEncode {
  import opened Strings
  import opened Params

  /** `str(x)`. */
  function ScalarText(x: Scalar): string
  {
    match x
    case StrValue(s) => s
    case IntValue(n) => IntToDecimal(n)
  }

  /** The (key, text) pairs one list value expands to, in list order. */
  function Expand(k: string, xs: seq<Scalar>): seq<(string, string)>
  {
    if xs == [] then [] else [(k, ScalarText(xs[0]))] + Expand(k, xs[1..])
  }

  function EntryPairs(e: Entry): seq<(string, string)>
  {
    match e.1
    case Single(x) => [(e.0, ScalarText(x))]
    case Multi(xs) => Expand(e.0, xs)
  }

  /** The unencoded (key, text) pairs of a dict, in the order they are sent. */
  function Flatten(es: seq<Entry>): seq<(string, string)>
  {
    if es == [] then [] else EntryPairs(es[0]) + Flatten(es[1..])
  }

  function Render(p: (string, string), quote: string -> string): string
  {
    quote(p.0) + "=" + quote(p.1)
  }

  function RenderAll(ps: seq<(string, string)>, quote: string -> string): seq<string>
  {
    if ps == [] then [] else [Render(ps[0], quote)] + RenderAll(ps[1..], quote)
  }

  /** The query string. */
  function Encode(es: seq<Entry>, quote: string -> string): string
  {
    Join(RenderAll(Flatten(es), quote), '&')
  }

  /** quote_plus escapes '&' and '=', so neither appears in what it returns. */
  ghost predicate NoSeparators(quote: string -> string)
  {
    forall s :: '&' !in quote(s) && '=' !in quote(s)
  }

  /** quote_plus is one-to-one. */
  ghost predicate Injective(quote: string -> string)
  {
    forall a, b :: quote(a) == quote(b) ==> a == b
  }

  /** A list of n elements expands to n pairs, the i-th carrying element i. */
  lemma {:induction false} ExpandAt(k: string, xs: seq<Scalar>)
    ensures |Expand(k, xs)| == |xs|
    ensures forall i :: 0 <= i < |xs| ==> Expand(k, xs)[i] == (k, ScalarText(xs[i]))
  {
    if xs != [] {
      ExpandAt(k, xs[1..]);
      forall i | 1 <= i < |xs| ensures Expand(k, xs)[i] == (k, ScalarText(xs[i])) {
        assert xs[1..][i - 1] == xs[i];
      }
    }
  }

  /** Flattening works entry by entry, so the dict's order is the pairs' order. */
  lemma {:induction false} FlattenConcat(a: seq<Entry>, b: seq<Entry>)
    ensures Flatten(a + b) == Flatten(a) + Flatten(b)
  {
    if a != [] {
      assert (a + b)[0] == a[0];
      assert (a + b)[1..] == a[1..] + b;
      FlattenConcat(a[1..], b);
      assert Flatten(a + b) == EntryPairs(a[0]) + (Flatten(a[1..]) + Flatten(b));
    } else {
      assert a + b == b;
    }
  }

  /** With only single values, the pairs are the entries in order, one each. */
  lemma {:induction false} FlattenSingles(es: seq<Entry>)
    requires forall i :: 0 <= i < |es| ==> es[i].1.Single?
    ensures |Flatten(es)| == |es|
    ensures forall i :: 0 <= i < |es| ==> Flatten(es)[i] == (es[i].0, ScalarText(es[i].1.x))
  {
    if es != [] {
      FlattenSingles(es[1..]);
      forall i | 1 <= i < |es| ensures Flatten(es)[i] == (es[i].0, ScalarText(es[i].1.x)) {
        assert es[1..][i - 1] == es[i];
      }
    }
  }

  lemma {:induction false} RenderAllAt(ps: seq<(string, string)>, quote: string -> string)
    ensures |RenderAll(ps, quote)| == |ps|
    ensures forall i :: 0 <= i < |ps| ==> RenderAll(ps, quote)[i] == Render(ps[i], quote)
  {
    if ps != [] {
      RenderAllAt(ps[1..], quote);
      forall i | 1 <= i < |ps| ensures RenderAll(ps, quote)[i] == Render(ps[i], quote) {
        assert ps[1..][i - 1] == ps[i];
      }
    }
  }

  lemma RenderedSeparatorFree(ps: seq<(string, string)>, quote: string -> string)
    requires NoSeparators(quote)
    ensures SeparatorFree(RenderAll(ps, quote), '&')
  {
    RenderAllAt(ps, quote);
    forall i | 0 <= i < |ps| ensures '&' !in RenderAll(ps, quote)[i] {
      var q := ps[i];
      assert '&' !in quote(q.0) && '&' !in quote(q.1);
    }
  }

  /** Splitting the query on '&' gives back one `key=value` piece per pair. */
  lemma QuerySplits(es: seq<Entry>, quote: string -> string)
    requires NoSeparators(quote)
    requires Flatten(es) != []
    ensures Split(Encode(es, quote), '&') == RenderAll(Flatten(es), quote)
  {
    RenderAllAt(Flatten(es), quote);
    RenderedSeparatorFree(Flatten(es), quote);
    SplitJoin(RenderAll(Flatten(es), quote), '&');
  }

  lemma RenderInjective(p: (string, string), q: (string, string), quote: string -> string)
    requires NoSeparators(quote) && Injective(quote)
    requires Render(p, quote) == Render(q, quote)
    ensures p == q
  {
    assert '=' !in quote(p.0) && '=' !in quote(q.0);
    SplitAtFirstSeparator(quote(p.0), quote(p.1), quote(q.0), quote(q.1), '=');
  }

  /** Two dicts whose queries are equal send the same pairs in the same
      order: changing a value or the order of the pairs changes the query. */
  lemma QueryDeterminesPairs(a: seq<Entry>, b: seq<Entry>, quote: string -> string)
    requires NoSeparators(quote) && Injective(quote)
    requires Encode(a, quote) == Encode(b, quote)
    ensures Flatten(a) == Flatten(b)
  {
    var pa, pb := Flatten(a), Flatten(b);
    RenderAllAt(pa, quote);
    RenderAllAt(pb, quote);
    if pa == [] && pb != [] {
      NonEmptyQuery(pb, quote);
    } else if pa != [] && pb == [] {
      NonEmptyQuery(pa, quote);
    } else if pa != [] {
      QuerySplits(a, quote);
      QuerySplits(b, quote);
      forall i | 0 <= i < |pa| ensures pa[i] == pb[i] {
        RenderInjective(pa[i], pb[i], quote);
      }
    }
  }

  lemma NonEmptyQuery(ps: seq<(string, string)>, quote: string -> string)
    requires ps != []
    ensures Join(RenderAll(ps, quote), '&') != ""
  {
    var parts := RenderAll(ps, quote);
    RenderAllAt(ps, quote);
    if |parts| == 1 {
      assert parts[0] == quote(ps[0].0) + "=" + quote(ps[0].1);
    }
  }
}
