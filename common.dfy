/** Values and helpers shared by the backend and client models: optional
    values, HTTP-style results, decimal rendering of numbers, and the
    list operations (filter, first match) the services perform on tables. */
module Common {

  datatype Option<T> = None | Some(value: T)

  /** An HTTP reply that is either a value or an error status with its detail text. */
  datatype Result<T> = Ok(value: T) | Err(status: int, detail: string)

  // ---------------------------------------------------------------------------
  // Decimal numerals, as Python's f-strings and int() and JavaScript's
  // template literals write and read them.

  predicate IsDigit(c: char) {
    '0' <= c <= '9'
  }

  predicate AllDigits(s: string) {
    forall i :: 0 <= i < |s| ==> IsDigit(s[i])
  }

  function DigitChar(d: nat): (c: char)
    requires d < 10
    ensures IsDigit(c)
  {
    "0123456789"[d]
  }

  function DigitValue(c: char): (d: nat)
    requires IsDigit(c)
    ensures d < 10
  {
    c as int - '0' as int
  }

  lemma DigitRoundTrip(d: nat)
    requires d < 10
    ensures DigitValue(DigitChar(d)) == d
  {
  }

  /** The decimal numeral of n, most significant digit first, no leading zeros. */
  function NatToString(n: nat): (s: string)
    ensures |s| >= 1
    ensures AllDigits(s)
    decreases n
  {
    if n < 10 then [DigitChar(n)] else NatToString(n / 10) + [DigitChar(n % 10)]
  }

  /** The numeral of an integer, with a leading '-' when it is negative. */
  function IntToString(n: int): (s: string)
    ensures |s| >= 1
    ensures s[0] == '-' <==> n < 0
  {
    if n < 0 then "-" + NatToString(-n) else NatToString(n)
  }

  /** The value of a non-empty run of decimal digits (leading zeros allowed). */
  function DigitsValue(s: string): nat
    requires AllDigits(s)
    decreases |s|
  {
    if s == [] then 0 else DigitsValue(s[..|s| - 1]) * 10 + DigitValue(s[|s| - 1])
  }

  /** Reads a whole string as a natural number; None unless it is one or more
      decimal digits. */
  function ParseNat(s: string): (r: Option<nat>)
    ensures r.Some? <==> |s| > 0 && AllDigits(s)
  {
    if |s| > 0 && AllDigits(s) then Some(DigitsValue(s)) else None
  }

  /** Reading back a rendered natural number gives the number. */
  lemma {:induction false} ParseNatToString(n: nat)
    ensures ParseNat(NatToString(n)) == Some(n)
    decreases n
  {
    if n < 10 {
      var s := NatToString(n);
      assert s == [DigitChar(n)] && s[..0] == [];
      assert DigitsValue(s) == DigitsValue(s[..0]) * 10 + DigitValue(s[0]);
      DigitRoundTrip(n);
    } else {
      var s := NatToString(n);
      assert s[..|s| - 1] == NatToString(n / 10);
      ParseNatToString(n / 10);
      DigitRoundTrip(n % 10);
    }
  }

  /** Different numbers have different numerals. */
  lemma NatToStringInjective(m: nat, n: nat)
    requires NatToString(m) == NatToString(n)
    ensures m == n
  {
    ParseNatToString(m);
    ParseNatToString(n);
  }

  // ---------------------------------------------------------------------------
  // Lists

  /** The elements of s that satisfy keep, in their original order. */
  function Filter<T(!new)>(s: seq<T>, keep: T -> bool): (r: seq<T>)
    ensures |r| <= |s|
    ensures forall x :: x in r <==> x in s && keep(x)
    decreases |s|
  {
    if s == [] then []
    else (if keep(s[0]) then [s[0]] else []) + Filter(s[1..], keep)
  }

  lemma {:induction false} FilterAppend<T(!new)>(s: seq<T>, x: T, keep: T -> bool)
    ensures Filter(s + [x], keep) == Filter(s, keep) + (if keep(x) then [x] else [])
    decreases |s|
  {
    if s == [] {
      assert s + [x] == [x];
      assert [x][1..] == [];
    } else {
      var head := if keep(s[0]) then [s[0]] else [];
      var tail := if keep(x) then [x] else [];
      var rest := s[1..] + [x];
      assert s + [x] == [s[0]] + rest;
      assert (s + [x])[1..] == rest;
      FilterAppend(s[1..], x, keep);
      assert Filter(s + [x], keep) == head + Filter(rest, keep);
      assert head + (Filter(s[1..], keep) + tail) == (head + Filter(s[1..], keep)) + tail;
    }
  }

  lemma {:induction false} FilterAll<T(!new)>(s: seq<T>, keep: T -> bool)
    requires forall x :: x in s ==> keep(x)
    ensures Filter(s, keep) == s
    decreases |s|
  {
    if s != [] {
      FilterAll(s[1..], keep);
    }
  }

  lemma {:induction false} FilterNone<T(!new)>(s: seq<T>, keep: T -> bool)
    requires forall x :: x in s ==> !keep(x)
    ensures Filter(s, keep) == []
    decreases |s|
  {
    if s != [] {
      FilterNone(s[1..], keep);
    }
  }

  /** A projection f takes pairwise different values on the elements of s. */
  ghost predicate DistinctOn<T>(s: seq<T>, f: T -> int) {
    forall i, j :: 0 <= i < j < |s| ==> f(s[i]) != f(s[j])
  }

  /** Filtering keeps a projection pairwise different. */
  lemma {:induction false} FilterDistinctOn<T(!new)>(s: seq<T>, keep: T -> bool, f: T -> int)
    requires DistinctOn(s, f)
    ensures DistinctOn(Filter(s, keep), f)
    decreases |s|
  {
    if s != [] {
      var tail := s[1..];
      assert DistinctOn(tail, f) by {
        forall i, j | 0 <= i < j < |tail| ensures f(tail[i]) != f(tail[j]) {
          assert tail[i] == s[i + 1] && tail[j] == s[j + 1];
        }
      }
      FilterDistinctOn(tail, keep, f);
      var rest := Filter(tail, keep);
      assert forall y :: y in rest ==> f(y) != f(s[0]) by {
        forall y | y in rest ensures f(y) != f(s[0]) {
          var k :| 0 <= k < |tail| && tail[k] == y;
          assert s[k + 1] == y;
        }
      }
      var r := Filter(s, keep);
      if keep(s[0]) {
        assert r == [s[0]] + rest;
        forall i, j | 0 <= i < j < |r| ensures f(r[i]) != f(r[j]) {
          if i == 0 {
            assert r[j] == rest[j - 1];
            assert rest[j - 1] in rest;
          } else {
            assert r[i] == rest[i - 1] && r[j] == rest[j - 1];
          }
        }
      } else {
        assert r == rest;
      }
    }
  }

  /** The first element of s that satisfies p, as SQL's `.first()` returns it
      from a table scanned in insertion order. */
  function FirstWhere<T>(s: seq<T>, p: T -> bool): (r: Option<T>)
    ensures r.Some? <==> exists i :: 0 <= i < |s| && p(s[i])
    ensures r.Some? ==> r.value in s && p(r.value)
    decreases |s|
  {
    if s == [] then None
    else if p(s[0]) then Some(s[0])
    else FirstWhere(s[1..], p)
  }

  /** When at most one element can satisfy p, the first match is that element. */
  lemma {:induction false} FirstWhereUnique<T>(s: seq<T>, p: T -> bool, i: nat)
    requires i < |s| && p(s[i])
    requires forall j :: 0 <= j < |s| && j != i ==> !p(s[j])
    ensures FirstWhere(s, p) == Some(s[i])
    decreases |s|
  {
    if i > 0 {
      var tail := s[1..];
      forall j | 0 <= j < |tail| && j != i - 1 ensures !p(tail[j]) {
        assert tail[j] == s[j + 1];
      }
      FirstWhereUnique(tail, p, i - 1);
    }
  }
}
