/** A Python dict of query parameters: insertion-ordered, keys unique.
    Assigning an existing key keeps its position; a new key goes last. */
module Params {
  import opened Wrappers

  /** A parameter value that urlencode renders with `str`. */
  datatype Scalar = StrValue(s: string) | IntValue(n: int)

  /** A single value, or a list that urlencode(doseq=True) expands. */
  datatype Value = Single(x: Scalar) | Multi(xs: seq<Scalar>)

  type Entry = (string, Value)

  function Keys(es: seq<Entry>): (ks: seq<string>)
    ensures |ks| == |es|
    ensures forall i :: 0 <= i < |es| ==> ks[i] == es[i].0
  {
    if es == [] then [] else [es[0].0] + Keys(es[1..])
  }

  predicate UniqueKeys(es: seq<Entry>)
  {
    forall i, j :: 0 <= i < j < |es| ==> es[i].0 != es[j].0
  }

  /** The position of key `k`, if present. */
  function IndexOf(es: seq<Entry>, k: string): (r: Option<nat>)
    ensures r.Some? ==> r.value < |es| && es[r.value].0 == k
    ensures r.Some? ==> forall j :: 0 <= j < r.value ==> es[j].0 != k
    ensures r.None? ==> forall j :: 0 <= j < |es| ==> es[j].0 != k
  {
    if es == [] then None
    else if es[0].0 == k then Some(0)
    else
      match IndexOf(es[1..], k)
      case None => None
      case Some(i) => Some(i + 1)
  }

  /** `k in d`. */
  predicate HasKey(es: seq<Entry>, k: string)
  {
    IndexOf(es, k).Some?
  }

  /** `d.get(k)`. */
  function Lookup(es: seq<Entry>, k: string): Option<Value>
  {
    match IndexOf(es, k)
    case None => None
    case Some(i) => Some(es[i].1)
  }

  /** `d[k] = v` on the value of the dict. */
  function Assign(es: seq<Entry>, k: string, v: Value): seq<Entry>
  {
    if es == [] then [(k, v)]
    else if es[0].0 == k then [(k, v)] + es[1..]
    else [es[0]] + Assign(es[1..], k, v)
  }

  /** `d.setdefault(k, v)` on the value of the dict. */
  function AssignDefault(es: seq<Entry>, k: string, v: Value): seq<Entry>
  {
    if HasKey(es, k) then es else es + [(k, v)]
  }

  /** Assign overwrites in place when the key is present and appends otherwise. */
  lemma {:induction false} AssignInPlace(es: seq<Entry>, k: string, v: Value)
    ensures IndexOf(es, k).Some? ==> Assign(es, k, v) == es[IndexOf(es, k).value := (k, v)]
    ensures IndexOf(es, k).None? ==> Assign(es, k, v) == es + [(k, v)]
  {
    if es != [] && es[0].0 != k {
      AssignInPlace(es[1..], k, v);
      assert [es[0]] + es[1..] == es;
    }
  }

  lemma {:induction false} AssignIndexOf(es: seq<Entry>, k: string, v: Value, k': string)
    ensures IndexOf(Assign(es, k, v), k') ==
            if k' == k && !HasKey(es, k) then Some(|es|) else IndexOf(es, k')
  {
    if es != [] && es[0].0 != k {
      AssignIndexOf(es[1..], k, v, k');
      assert Assign(es, k, v)[1..] == Assign(es[1..], k, v);
    } else if es != [] {
      assert Assign(es, k, v)[1..] == es[1..];
    }
  }

  lemma AssignLookup(es: seq<Entry>, k: string, v: Value, k': string)
    ensures Lookup(Assign(es, k, v), k') == if k' == k then Some(v) else Lookup(es, k')
  {
    AssignIndexOf(es, k, v, k');
    AssignInPlace(es, k, v);
  }

  lemma AssignKeys(es: seq<Entry>, k: string, v: Value)
    ensures Keys(Assign(es, k, v)) == if HasKey(es, k) then Keys(es) else Keys(es) + [k]
  {
    AssignInPlace(es, k, v);
  }

  lemma AssignUnique(es: seq<Entry>, k: string, v: Value)
    requires UniqueKeys(es)
    ensures UniqueKeys(Assign(es, k, v))
  {
    AssignInPlace(es, k, v);
  }

  /** Appending a key that is absent puts it last and moves nothing else. */
  lemma AppendIndexOf(es: seq<Entry>, k: string, v: Value, k': string)
    requires !HasKey(es, k)
    ensures IndexOf(es + [(k, v)], k') == if k' == k then Some(|es|) else IndexOf(es, k')
  {
    var r := IndexOf(es + [(k, v)], k');
    if k' == k {
      assert (es + [(k, v)])[|es|].0 == k;
    } else if IndexOf(es, k').Some? {
      var i := IndexOf(es, k').value;
      assert (es + [(k, v)])[i].0 == k';
    }
  }

  lemma AssignDefaultIndexOf(es: seq<Entry>, k: string, v: Value, k': string)
    ensures IndexOf(AssignDefault(es, k, v), k') ==
            if k' == k && !HasKey(es, k) then Some(|es|) else IndexOf(es, k')
  {
    if !HasKey(es, k) {
      AppendIndexOf(es, k, v, k');
    }
  }

  lemma AssignDefaultLookup(es: seq<Entry>, k: string, v: Value, k': string)
    ensures Lookup(AssignDefault(es, k, v), k') ==
            if k' == k && !HasKey(es, k) then Some(v) else Lookup(es, k')
  {
    AssignDefaultIndexOf(es, k, v, k');
  }

  lemma AssignDefaultKeys(es: seq<Entry>, k: string, v: Value)
    ensures Keys(AssignDefault(es, k, v)) == if HasKey(es, k) then Keys(es) else Keys(es) + [k]
  {
  }

  lemma AssignDefaultUnique(es: seq<Entry>, k: string, v: Value)
    requires UniqueKeys(es)
    ensures UniqueKeys(AssignDefault(es, k, v))
  {
  }

  /** A mutable dict of parameters. */
  class ParamDict {
    var entries: seq<Entry>

    ghost predicate Valid()
      reads this
    {
      UniqueKeys(entries)
    }

    /** `{}`. */
    constructor Empty()
      ensures Valid() && entries == []
    {
      entries := [];
    }

    /** `dict(src or {})`: an independent copy, empty for None. */
    constructor Copy(src: ParamDict?)
      requires src != null ==> src.Valid()
      ensures Valid()
      ensures entries == if src == null then [] else src.entries
    {
      entries := if src == null then [] else src.entries;
    }

    /** `d[k] = v`. */
    method Set(k: string, v: Value)
      requires Valid()
      modifies this
      ensures Valid()
      ensures entries == Assign(old(entries), k, v)
    {
      AssignUnique(entries, k, v);
      entries := Assign(entries, k, v);
    }

    /** `d.setdefault(k, v)`: returns the value now stored under `k`. */
    method SetDefault(k: string, v: Value) returns (r: Value)
      requires Valid()
      modifies this
      ensures Valid()
      ensures entries == AssignDefault(old(entries), k, v)
      ensures Lookup(entries, k) == Some(r)
    {
      AssignDefaultUnique(entries, k, v);
      AssignDefaultLookup(entries, k, v, k);
      entries := AssignDefault(entries, k, v);
      r := Lookup(entries, k).value;
    }
  }
}
