/** Sequence combinators shared by the models: filtering (LINQ `Where`), counting
    (`CountAsync`), order-preserving subsequences, and mapping a raising function over a
    list, stopping at the first exception as a Python loop does. */
module Seqs {
  import opened Base

  function Filter<T>(s: seq<T>, p: T -> bool): (r: seq<T>)
    ensures |r| <= |s|
    ensures forall i | 0 <= i < |r| :: r[i] in s && p(r[i])
    ensures forall i | 0 <= i < |s| :: p(s[i]) ==> s[i] in r
  {
    if s == [] then [] else (if p(s[0]) then [s[0]] else []) + Filter(s[1..], p)
  }

  function Count<T>(s: seq<T>, p: T -> bool): nat {
    if s == [] then 0 else (if p(s[0]) then 1 else 0) + Count(s[1..], p)
  }

  /** `a` is obtained from `b` by deleting elements, keeping the order of the rest. */
  predicate IsSubsequence<T(==)>(a: seq<T>, b: seq<T>) {
    if b == [] then a == []
    else (a != [] && a[0] == b[0] && IsSubsequence(a[1..], b[1..])) || IsSubsequence(a, b[1..])
  }

  lemma {:induction false} FilterIsSubsequence<T>(s: seq<T>, p: T -> bool)
    ensures IsSubsequence(Filter(s, p), s)
  {
    if s != [] {
      FilterIsSubsequence(s[1..], p);
      if p(s[0]) {
        var f := Filter(s, p);
        assert f[0] == s[0] && f[1..] == Filter(s[1..], p);
      } else {
        assert Filter(s, p) == Filter(s[1..], p);
      }
    }
  }

  lemma {:induction false} FilterCount<T>(s: seq<T>, p: T -> bool)
    ensures |Filter(s, p)| == Count(s, p)
  {
    if s != [] {
      FilterCount(s[1..], p);
    }
  }

  lemma {:induction false} FilterSnoc<T>(s: seq<T>, x: T, p: T -> bool)
    ensures Filter(s + [x], p) == Filter(s, p) + (if p(x) then [x] else [])
  {
    if s != [] {
      assert (s + [x])[1..] == s[1..] + [x];
      FilterSnoc(s[1..], x, p);
    }
  }

  /** Filtering by `p` and then by `q` is filtering once by any `r` equal to both. */
  lemma {:induction false} FilterFilter<T>(s: seq<T>, p: T -> bool, q: T -> bool, r: T -> bool)
    requires forall x :: r(x) == (p(x) && q(x))
    ensures Filter(Filter(s, p), q) == Filter(s, r)
  {
    if s != [] {
      FilterFilter(s[1..], p, q, r);
      var fp := Filter(s, p);
      if p(s[0]) {
        assert fp[0] == s[0] && fp[1..] == Filter(s[1..], p);
        assert Filter(fp, q) == (if q(s[0]) then [s[0]] else []) + Filter(Filter(s[1..], p), q);
      } else {
        assert fp == Filter(s[1..], p);
      }
    }
  }

  /** Filters that agree on every element give the same result. */
  lemma {:induction false} FilterSame<T>(s: seq<T>, p: T -> bool, q: T -> bool)
    requires forall x :: p(x) == q(x)
    ensures Filter(s, p) == Filter(s, q)
  {
    if s != [] {
      FilterSame(s[1..], p, q);
    }
  }

  /** A condition every element meets keeps the whole sequence. */
  lemma {:induction false} FilterAll<T>(s: seq<T>, p: T -> bool)
    requires forall i | 0 <= i < |s| :: p(s[i])
    ensures Filter(s, p) == s
  {
    if s != [] {
      assert forall i | 0 <= i < |s| - 1 :: s[1..][i] == s[i + 1];
      FilterAll(s[1..], p);
      assert s == [s[0]] + s[1..];
    }
  }

  /** A weaker condition counts at least as many elements. */
  lemma {:induction false} CountMonotonic<T>(s: seq<T>, p: T -> bool, q: T -> bool)
    requires forall x :: p(x) ==> q(x)
    ensures Count(s, p) <= Count(s, q)
  {
    if s != [] {
      CountMonotonic(s[1..], p, q);
    }
  }

  /** Two conditions that never hold together, and each imply `r`, count no more than `r`. */
  lemma {:induction false} CountDisjoint<T>(s: seq<T>, p: T -> bool, q: T -> bool, r: T -> bool)
    requires forall x :: !(p(x) && q(x))
    requires forall x :: p(x) || q(x) ==> r(x)
    ensures Count(s, p) + Count(s, q) <= Count(s, r)
  {
    if s != [] {
      CountDisjoint(s[1..], p, q, r);
    }
  }

  /** `[f(x) for x in s]` where `f` may raise: the first exception, in list order,
      aborts the whole list. Defined from the end, as a loop builds it. */
  function MapAll<A, B>(s: seq<A>, f: A -> Result<B>): (r: Result<seq<B>>)
    ensures r.Ok? <==> forall i | 0 <= i < |s| :: f(s[i]).Ok?
    ensures r.Ok? ==> |r.value| == |s| && forall i | 0 <= i < |s| :: r.value[i] == f(s[i]).value
    ensures r.Err? ==> exists i | 0 <= i < |s| :: f(s[i]).Err? && r.error == f(s[i]).error &&
                                                 forall k | 0 <= k < i :: f(s[k]).Ok?
  {
    if s == [] then Ok([])
    else
      var front := s[..|s| - 1];
      assert forall i | 0 <= i < |front| :: front[i] == s[i];
      match MapAll(front, f)
      case Err(e) => Err(e)
      case Ok(xs) =>
        match f(s[|s| - 1])
        case Err(e) => Err(e)
        case Ok(y) => Ok(xs + [y])
  }

  /** One more loop iteration. */
  lemma MapAllStep<A, B>(s: seq<A>, f: A -> Result<B>, i: nat)
    requires i < |s|
    ensures MapAll(s[..i + 1], f) ==
      match MapAll(s[..i], f)
      case Err(e) => Err(e)
      case Ok(xs) => (match f(s[i]) case Err(e) => Err(e) case Ok(y) => Ok(xs + [y]))
  {
    assert s[..i + 1][..i] == s[..i];
  }

  /** Once a prefix has raised, the whole list raises the same exception. */
  lemma {:induction false} MapAllErrSticky<A, B>(s: seq<A>, f: A -> Result<B>, i: nat)
    requires i <= |s| && MapAll(s[..i], f).Err?
    ensures MapAll(s, f) == MapAll(s[..i], f)
    decreases |s| - i
  {
    if i < |s| {
      MapAllStep(s, f, i);
      MapAllErrSticky(s, f, i + 1);
    } else {
      assert s[..i] == s;
    }
  }

  /** A loop that, per element, either raises or yields one result and a list of extra
      values: the results in order and all the extra values in order, or the first
      exception. */
  function MapCollect<A, B, C>(s: seq<A>, f: A -> Result<(B, seq<C>)>): (r: Result<(seq<B>, seq<C>)>)
    ensures r.Ok? <==> forall i | 0 <= i < |s| :: f(s[i]).Ok?
    ensures r.Ok? ==> |r.value.0| == |s| && forall i | 0 <= i < |s| :: r.value.0[i] == f(s[i]).value.0
    ensures r.Err? ==> exists i | 0 <= i < |s| :: f(s[i]).Err? && r.error == f(s[i]).error &&
                                                 forall k | 0 <= k < i :: f(s[k]).Ok?
  {
    if s == [] then Ok(([], []))
    else
      var n := |s| - 1;
      var front := s[..n];
      assert forall i | 0 <= i < |front| :: front[i] == s[i];
      match MapCollect(front, f)
      case Err(e) => Err(e)
      case Ok(acc) =>
        match f(s[n])
        case Err(e) => Err(e)
        case Ok(one) => Ok((acc.0 + [one.0], acc.1 + one.1))
  }

  /** Every extra value of every element is collected. */
  lemma {:induction false} MapCollectKeeps<A, B, C>(s: seq<A>, f: A -> Result<(B, seq<C>)>)
    requires MapCollect(s, f).Ok?
    ensures forall i, k | 0 <= i < |s| && 0 <= k < |f(s[i]).value.1| :: f(s[i]).value.1[k] in MapCollect(s, f).value.1
  {
    if s != [] {
      var n := |s| - 1;
      var front := s[..n];
      assert forall i | 0 <= i < |front| :: front[i] == s[i];
      MapCollectKeeps(front, f);
      var acc := MapCollect(front, f).value;
      var one := f(s[n]).value;
      var cs := acc.1 + one.1;
      assert MapCollect(s, f).value.1 == cs;
      forall i, k | 0 <= i < |s| && 0 <= k < |f(s[i]).value.1|
        ensures f(s[i]).value.1[k] in cs
      {
        if i < n {
          assert f(front[i]).value.1[k] in acc.1;
        } else {
          assert cs[|acc.1| + k] == one.1[k];
        }
      }
    }
  }

  /** `c` is one of the extra values some element of `s` yields. */
  ghost predicate ProducedAt<A, B, C>(c: C, s: seq<A>, f: A -> Result<(B, seq<C>)>) {
    exists i, k | 0 <= i < |s| && f(s[i]).Ok? && 0 <= k < |f(s[i]).value.1| :: c == f(s[i]).value.1[k]
  }

  /** Every value of `cs` is one of the extra values some element of `s` yields. */
  ghost predicate ProducedBy<A, B, C>(cs: seq<C>, s: seq<A>, f: A -> Result<(B, seq<C>)>) {
    forall j | 0 <= j < |cs| :: ProducedAt(cs[j], s, f)
  }

  /** Nothing is collected that no element produced. */
  lemma {:induction false} MapCollectOnly<A, B, C>(s: seq<A>, f: A -> Result<(B, seq<C>)>)
    requires MapCollect(s, f).Ok?
    ensures ProducedBy(MapCollect(s, f).value.1, s, f)
  {
    if s != [] {
      var n := |s| - 1;
      var front := s[..n];
      assert forall i | 0 <= i < |front| :: front[i] == s[i];
      MapCollectOnly(front, f);
      var acc := MapCollect(front, f).value;
      var one := f(s[n]).value;
      var cs := acc.1 + one.1;
      assert MapCollect(s, f).value.1 == cs;
      forall j | 0 <= j < |cs|
        ensures ProducedAt(cs[j], s, f)
      {
        if j < |acc.1| {
          assert ProducedAt(acc.1[j], front, f);
          var i, k :| 0 <= i < |front| && f(front[i]).Ok? && 0 <= k < |f(front[i]).value.1| && acc.1[j] == f(front[i]).value.1[k];
          assert cs[j] == f(s[i]).value.1[k];
        } else {
          assert cs[j] == f(s[n]).value.1[j - |acc.1|];
        }
      }
    }
  }

  lemma MapCollectStep<A, B, C>(s: seq<A>, f: A -> Result<(B, seq<C>)>, i: nat)
    requires i < |s|
    ensures MapCollect(s[..i + 1], f) ==
      match MapCollect(s[..i], f)
      case Err(e) => Err(e)
      case Ok(acc) => (match f(s[i]) case Err(e) => Err(e) case Ok(one) => Ok((acc.0 + [one.0], acc.1 + one.1)))
  {
    assert s[..i + 1][..i] == s[..i];
  }

  lemma {:induction false} MapCollectErrSticky<A, B, C>(s: seq<A>, f: A -> Result<(B, seq<C>)>, i: nat)
    requires i <= |s| && MapCollect(s[..i], f).Err?
    ensures MapCollect(s, f) == MapCollect(s[..i], f)
    decreases |s| - i
  {
    if i < |s| {
      MapCollectStep(s, f, i);
      MapCollectErrSticky(s, f, i + 1);
    } else {
      assert s[..i] == s;
    }
  }
}
