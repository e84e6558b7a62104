/** Query combinators over tables kept as sequences in retrieval order:
    `filter`, `.first()` and `offset(..).limit(..)`. */
module Seqs {
  import opened Outcomes

  /** The rows of `s` that satisfy `keep`, in their original order. */
  function Filter<T>(s: seq<T>, keep: T -> bool): (r: seq<T>)
    ensures |r| <= |s|
    ensures forall i :: 0 <= i < |r| ==> r[i] in s && keep(r[i])
    ensures forall i :: 0 <= i < |s| && keep(s[i]) ==> s[i] in r
  {
    if s == [] then []
    else if keep(s[0]) then [s[0]] + Filter(s[1..], keep)
    else Filter(s[1..], keep)
  }

  lemma {:induction false} FilterConcat<T>(a: seq<T>, b: seq<T>, keep: T -> bool)
    ensures Filter(a + b, keep) == Filter(a, keep) + Filter(b, keep)
  {
    if a == [] {
      assert a + b == b;
    } else {
      assert (a + b)[1..] == a[1..] + b;
      FilterConcat(a[1..], b, keep);
    }
  }

  /** Filtering keeps nothing when no row passes. */
  lemma {:induction false} FilterNone<T>(s: seq<T>, keep: T -> bool)
    requires forall i :: 0 <= i < |s| ==> !keep(s[i])
    ensures Filter(s, keep) == []
  {
    if s != [] {
      FilterNone(s[1..], keep);
    }
  }

  /** Replacing a row by one that `keep` judges the same way and that `keep`
      rejects leaves the filtered view unchanged. */
  lemma {:induction false} FilterUpdateRejected<T>(s: seq<T>, k: nat, x: T, keep: T -> bool)
    requires k < |s| && !keep(s[k]) && !keep(x)
    ensures Filter(s[k := x], keep) == Filter(s, keep)
  {
    assert s == s[..k] + [s[k]] + s[k+1..];
    assert s[k := x] == s[..k] + [x] + s[k+1..];
    FilterConcat(s[..k] + [s[k]], s[k+1..], keep);
    FilterConcat(s[..k] + [x], s[k+1..], keep);
    FilterConcat(s[..k], [s[k]], keep);
    FilterConcat(s[..k], [x], keep);
    assert Filter([s[k]], keep) == [] == Filter([x], keep) by {
      assert [s[k]][1..] == [] && [x][1..] == [];
    }
  }

  /** Removing a row that `keep` rejects leaves the filtered view unchanged. */
  lemma {:induction false} FilterRemoveRejected<T>(s: seq<T>, k: nat, keep: T -> bool)
    requires k < |s| && !keep(s[k])
    ensures Filter(s[..k] + s[k+1..], keep) == Filter(s, keep)
  {
    var a, b := s[..k], s[k+1..];
    assert s == (a + [s[k]]) + b;
    assert Filter([s[k]], keep) == [] by {
      assert [s[k]][1..] == [];
    }
    calc {
      Filter(s, keep);
      { FilterConcat(a + [s[k]], b, keep); }
      Filter(a + [s[k]], keep) + Filter(b, keep);
      { FilterConcat(a, [s[k]], keep); }
      Filter(a, keep) + Filter(b, keep);
      { FilterConcat(a, b, keep); }
      Filter(a + b, keep);
    }
  }

  /** `.first()`: the position of the first row satisfying `p`, if any. */
  function FirstIndex<T>(s: seq<T>, p: T -> bool): (r: Option<nat>)
    ensures r.Some? ==> r.value < |s| && p(s[r.value])
    ensures r.Some? ==> forall j :: 0 <= j < r.value ==> !p(s[j])
    ensures r.None? <==> forall j :: 0 <= j < |s| ==> !p(s[j])
  {
    if s == [] then None
    else if p(s[0]) then Some(0)
    else match FirstIndex(s[1..], p)
      case None => None
      case Some(k) => Some(k + 1)
  }

  /** An element appended after a run with no match is the first match. */
  lemma {:induction false} FirstIndexAppend<T>(s: seq<T>, x: T, p: T -> bool)
    requires FirstIndex(s, p).None? && p(x)
    ensures FirstIndex(s + [x], p) == Some(|s|)
  {
    if s != [] {
      assert (s + [x])[0] == s[0] && (s + [x])[1..] == s[1..] + [x];
      FirstIndexAppend(s[1..], x, p);
    }
  }

  /** The first match depends only on which positions satisfy the predicate. */
  lemma {:induction false} FirstIndexStable<T>(s: seq<T>, t: seq<T>, p: T -> bool)
    requires |s| == |t| && forall i :: 0 <= i < |s| ==> p(s[i]) == p(t[i])
    ensures FirstIndex(s, p) == FirstIndex(t, p)
  {
    if s != [] && !p(s[0]) {
      FirstIndexStable(s[1..], t[1..], p);
    }
  }

  /** `offset(skip).limit(limit)`: at most `limit` rows, starting after the
      first `skip` ones. */
  function Window<T>(s: seq<T>, skip: nat, limit: nat): (r: seq<T>)
    ensures skip >= |s| ==> r == []
    ensures skip < |s| ==> |r| == if |s| - skip < limit then |s| - skip else limit
    ensures forall i :: 0 <= i < |r| ==> skip + i < |s| && r[i] == s[skip + i]
  {
    if skip >= |s| then []
    else if |s| - skip < limit then s[skip..]
    else s[skip..skip + limit]
  }
}
