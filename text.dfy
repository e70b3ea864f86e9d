/** String operations the service relies on: `str.strip`, `str.lower`, `str.join`,
    decimal rendering of integers, slicing, and the code-point order `sorted` uses. */
module Text {
  import opened Base

  /** Python's `str.isspace` for one character (the set `str.strip()` removes). */
  predicate IsPySpace(c: char) {
    c == ' ' || ('\t' <= c <= '\r') || ('\U{1c}' <= c <= '\U{1f}') || c == '\U{85}' ||
    c == '\U{a0}' || c == '\U{1680}' || ('\U{2000}' <= c <= '\U{200a}') ||
    c == '\U{2028}' || c == '\U{2029}' || c == '\U{202f}' || c == '\U{205f}' || c == '\U{3000}'
  }

  predicate AllPySpace(s: string) {
    forall i | 0 <= i < |s| :: IsPySpace(s[i])
  }

  /** The number of whitespace characters `s` starts with. */
  function Leading(s: string): (n: nat)
    ensures n <= |s|
    ensures forall i | 0 <= i < n :: IsPySpace(s[i])
    ensures n == |s| || !IsPySpace(s[n])
  {
    if s == [] || !IsPySpace(s[0]) then 0
    else
      var n := Leading(s[1..]);
      assert forall i | 1 <= i < 1 + n :: s[i] == s[1..][i - 1];
      1 + n
  }

  /** The number of whitespace characters `s` ends with. */
  function Trailing(s: string): (n: nat)
    ensures n <= |s|
    ensures forall i | |s| - n <= i < |s| :: IsPySpace(s[i])
    ensures n == |s| || !IsPySpace(s[|s| - n - 1])
  {
    if s == [] || !IsPySpace(s[|s| - 1]) then 0
    else
      var front := s[..|s| - 1];
      var n := Trailing(front);
      assert forall i | 0 <= i < |front| :: s[i] == front[i];
      1 + n
  }

  /** `s.strip()`: `s` with leading and trailing whitespace removed: a piece of `s` with
      only whitespace around it, neither starting nor ending with whitespace, and empty
      exactly when `s` is all whitespace. */
  function Strip(s: string): (r: string)
    ensures exists i, j | 0 <= i <= j <= |s| :: r == s[i..j] && AllPySpace(s[..i]) && AllPySpace(s[j..])
    ensures r == [] || (!IsPySpace(r[0]) && !IsPySpace(r[|r| - 1]))
    ensures r == [] <==> AllPySpace(s)
  {
    var i := Leading(s);
    if i == |s| then
      assert s[..i] == s && s[i..] == [];
      []
    else
      var j := |s| - Trailing(s);
      assert i < j;
      var r := s[i..j];
      assert r[0] == s[i] && r[|r| - 1] == s[j - 1];
      assert AllPySpace(s[..i]) by {
        forall k | 0 <= k < i ensures IsPySpace(s[..i][k]) {
          assert s[..i][k] == s[k];
        }
      }
      assert AllPySpace(s[j..]) by {
        forall k | 0 <= k < |s| - j ensures IsPySpace(s[j..][k]) {
          assert s[j..][k] == s[j + k];
        }
      }
      r
  }

  /** Stripping a stripped string changes nothing. */
  lemma StripIdempotent(s: string)
    ensures Strip(Strip(s)) == Strip(s)
  {
    StripClean(Strip(s));
  }

  /** A string that neither starts nor ends with whitespace is its own strip. */
  lemma StripClean(s: string)
    requires s == [] || (!IsPySpace(s[0]) && !IsPySpace(s[|s| - 1]))
    ensures Strip(s) == s
  {
    if s != [] {
      assert Leading(s) == 0 && Trailing(s) == 0;
      assert s[0..|s|] == s;
    }
  }

  /** `s.lower()` on the ASCII letters. */
  function Lower(s: string): (r: string)
    ensures |r| == |s|
    ensures forall i | 0 <= i < |s| :: r[i] == (if 'A' <= s[i] <= 'Z' then (s[i] as int + 32) as char else s[i])
  {
    if s == [] then [] else
      [if 'A' <= s[0] <= 'Z' then (s[0] as int + 32) as char else s[0]] + Lower(s[1..])
  }

  /** `s[:n]`: the first `n` elements, or all of them when there are fewer. */
  function Take<T>(s: seq<T>, n: nat): (r: seq<T>)
    ensures |r| == if |s| < n then |s| else n
    ensures r == s[..|r|]
  {
    if |s| <= n then s else s[..n]
  }

  /** `sep.join(xs)`. */
  function Join(sep: string, xs: seq<string>): string {
    if xs == [] then "" else if |xs| == 1 then xs[0] else xs[0] + sep + Join(sep, xs[1..])
  }

  /** `x in s` for strings: `x` occurs somewhere in `s`. */
  predicate Infix(x: string, s: string) {
    exists i | 0 <= i <= |s| :: OccursAt(x, s, i)
  }

  predicate OccursAt(x: string, s: string, i: int) {
    0 <= i <= |s| - |x| && s[i..i + |x|] == x
  }

  /** Text added on either side keeps an occurrence. */
  lemma InfixWithin(x: string, a: string, s: string, b: string)
    requires Infix(x, s)
    ensures Infix(x, a + s + b)
  {
    var i :| 0 <= i <= |s| && OccursAt(x, s, i);
    assert 0 <= i <= |s| - |x| && s[i..i + |x|] == x;
    var t := a + s + b;
    assert t[|a| + i..|a| + i + |x|] == s[i..i + |x|];
    assert OccursAt(x, t, |a| + i);
  }

  lemma InfixSelf(x: string)
    ensures Infix(x, x)
  {
    assert x[0..|x|] == x;
    assert OccursAt(x, x, 0);
  }

  /** Every joined element occurs in the joined text. */
  lemma {:induction false} JoinHasEach(sep: string, xs: seq<string>, k: nat)
    requires k < |xs|
    ensures Infix(xs[k], Join(sep, xs))
  {
    if |xs| == 1 {
      InfixSelf(xs[0]);
    } else if k == 0 {
      InfixSelf(xs[0]);
      InfixWithin(xs[0], "", xs[0], sep + Join(sep, xs[1..]));
      assert "" + xs[0] + (sep + Join(sep, xs[1..])) == Join(sep, xs);
    } else {
      JoinHasEach(sep, xs[1..], k - 1);
      InfixWithin(xs[k], xs[0] + sep, Join(sep, xs[1..]), "");
      assert xs[0] + sep + Join(sep, xs[1..]) + "" == Join(sep, xs);
    }
  }

  /** Taking `n` of the first `m >= n` is taking `n`. */
  lemma TakeTake<T>(s: seq<T>, m: nat, n: nat)
    requires n <= m
    ensures Take(Take(s, m), n) == Take(s, n)
  {
  }

  lemma JoinNonEmptyStartsWith(sep: string, xs: seq<string>)
    requires xs != [] && xs[0] != []
    ensures Join(sep, xs) != [] && Join(sep, xs)[0] == xs[0][0]
  {
  }

  predicate IsDigit(c: char) {
    '0' <= c <= '9'
  }

  function DigitChar(d: nat): (c: char)
    requires d < 10
    ensures IsDigit(c)
  {
    ('0' as int + d) as char
  }

  /** `f"{n}"` for a natural number: its decimal digits, without leading zeros. */
  function Dec(n: nat): (r: string)
    ensures r != []
    ensures forall i | 0 <= i < |r| :: IsDigit(r[i])
  {
    if n < 10 then [DigitChar(n)] else Dec(n / 10) + [DigitChar(n % 10)]
  }

  /** `str(i)` / `f"{i}"` for any integer. */
  function IntToString(i: int): string {
    if i < 0 then "-" + Dec(-i) else Dec(i)
  }

  /** Reads a non-empty string of decimal digits back as a number. */
  function ParseDec(s: string): Option<nat> {
    if s == [] then None
    else if !IsDigit(s[|s| - 1]) then None
    else
      var d := s[|s| - 1] as int - '0' as int;
      if |s| == 1 then Some(d)
      else match ParseDec(s[..|s| - 1])
        case None => None
        case Some(m) => Some(10 * m + d)
  }

  /** Decimal rendering and reading are inverse. */
  lemma {:induction false} ParseDecOfDec(n: nat)
    ensures ParseDec(Dec(n)) == Some(n)
  {
    if n >= 10 {
      var s := Dec(n);
      assert s[..|s| - 1] == Dec(n / 10);
      ParseDecOfDec(n / 10);
    }
  }

  /** Python's `<` on `str`: lexicographic order of code points. */
  predicate StrLess(a: string, b: string) {
    if a == [] then b != []
    else b != [] && (a[0] < b[0] || (a[0] == b[0] && StrLess(a[1..], b[1..])))
  }

  lemma {:induction false} StrLessIrreflexive(a: string)
    ensures !StrLess(a, a)
  {
    if a != [] {
      StrLessIrreflexive(a[1..]);
    }
  }

  lemma {:induction false} StrLessTransitive(a: string, b: string, c: string)
    requires StrLess(a, b) && StrLess(b, c)
    ensures StrLess(a, c)
  {
    if a != [] && a[0] == b[0] && b[0] == c[0] {
      StrLessTransitive(a[1..], b[1..], c[1..]);
    }
  }

  lemma {:induction false} StrLessTotal(a: string, b: string)
    ensures a == b || StrLess(a, b) || StrLess(b, a)
  {
    if a != [] && b != [] && a[0] == b[0] {
      StrLessTotal(a[1..], b[1..]);
      if a[1..] == b[1..] {
        assert a == [a[0]] + a[1..] && b == [b[0]] + b[1..];
      }
    }
  }

  /** A strictly increasing list of strings: sorted and free of duplicates. */
  predicate StrictlySorted(xs: seq<string>) {
    forall i, j | 0 <= i < j < |xs| :: StrLess(xs[i], xs[j])
  }
}
