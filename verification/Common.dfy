/**
 Shared helpers: optional values, the search for the only matching element of a
 sequence, and decimal numerals.
 */
module Common {

  datatype Option<+T> = None | Some(value: T)

  predicate IsDigit(c: char) {
    '0' <= c <= '9'
  }

  predicate IsHexDigit(c: char) {
    IsDigit(c) || 'a' <= c <= 'f'
  }

  /** White space as `strip` of Python sees it. */
  predicate IsSpace(c: char) {
    || c in {' ', '\t', '\n', '\r', '\U{000B}', '\U{000C}', '\U{0085}', '\U{00A0}'}
    || c in {'\U{1680}', '\U{2028}', '\U{2029}', '\U{202F}', '\U{205F}', '\U{3000}'}
    || '\U{001C}' <= c <= '\U{001F}' || '\U{2000}' <= c <= '\U{200A}'
  }

  /** The text without white space at its two ends. */
  function Strip(s: string): (r: string)
    ensures r != "" ==> !IsSpace(r[0]) && !IsSpace(r[|r| - 1])
  {
    if s != "" && IsSpace(s[0]) then Strip(s[1..])
    else if s != "" && IsSpace(s[|s| - 1]) then Strip(s[..|s| - 1])
    else s
  }

  /** Index of the first element at or after `from` that satisfies `p`; |s| when there is none. */
  function First<T>(s: seq<T>, p: T -> bool, from: nat): (i: nat)
    requires from <= |s|
    ensures from <= i <= |s|
    ensures i < |s| ==> p(s[i])
    ensures forall j :: from <= j < i ==> !p(s[j])
    decreases |s| - from
  {
    if from == |s| || p(s[from]) then from else First(s, p, from + 1)
  }

  /** The index of the one element that satisfies `p`; None when no element or several do. */
  function Sole<T>(s: seq<T>, p: T -> bool): (r: Option<nat>)
    ensures r.Some? ==> r.value < |s| && p(s[r.value])
    ensures r.Some? ==> forall j :: 0 <= j < |s| && p(s[j]) ==> j == r.value
    ensures r.None? ==> forall i :: 0 <= i < |s| && p(s[i]) ==> exists j :: 0 <= j < |s| && j != i && p(s[j])
  {
    var i := First(s, p, 0);
    if i == |s| then None
    else if First(s, p, i + 1) == |s| then Some(i)
    else None
  }

  /** The only match is where it was in a sequence with the same matches. */
  lemma SoleSame<T>(s: seq<T>, t: seq<T>, p: T -> bool)
    requires |s| == |t| && forall i :: 0 <= i < |s| ==> p(s[i]) == p(t[i])
    ensures Sole(s, p) == Sole(t, p)
  {
    hide Sole;
    if Sole(s, p).Some? {
      SoleIs(t, p, Sole(s, p).value);
    }
  }

  lemma SoleIs<T>(s: seq<T>, p: T -> bool, i: nat)
    requires i < |s| && p(s[i])
    requires forall j :: 0 <= j < |s| && p(s[j]) ==> j == i
    ensures Sole(s, p) == Some(i)
  {
  }

  /** `s` with every element equal to `x` removed, order kept. */
  function Without<T(==,!new)>(s: seq<T>, x: T): (r: seq<T>)
    ensures forall y :: y in r <==> y in s && y != x
    ensures |r| <= |s|
    ensures x in s ==> |r| < |s|
    ensures x !in s ==> r == s
  {
    if s == [] then []
    else if s[0] == x then Without(s[1..], x)
    else [s[0]] + Without(s[1..], x)
  }

  lemma WithoutFrom<T(!new)>(s: seq<T>, x: T, i: nat)
    requires i < |s|
    ensures Without(s[i..], x) == (if s[i] == x then [] else [s[i]]) + Without(s[i + 1..], x)
  {
    assert s[i..][1..] == s[i + 1..];
  }

  /** `Without` keeps the order: two of its positions come from two positions of `s` in the same order. */
  lemma {:induction false} WithoutIsSublist<T(!new)>(s: seq<T>, x: T, i: nat, j: nat) returns (i': nat, j': nat)
    requires i < j < |Without(s, x)|
    ensures i' < j' < |s| && s[i'] == Without(s, x)[i] && s[j'] == Without(s, x)[j]
    decreases |s|
  {
    if s[0] == x {
      i', j' := WithoutIsSublist(s[1..], x, i, j);
      i', j' := i' + 1, j' + 1;
    } else if i > 0 {
      i', j' := WithoutIsSublist(s[1..], x, i - 1, j - 1);
      i', j' := i' + 1, j' + 1;
    } else {
      i' := 0;
      var rest := Without(s[1..], x);
      assert rest[j - 1] in s[1..];
      var k :| 0 <= k < |s[1..]| && s[1..][k] == rest[j - 1];
      j' := k + 1;
    }
  }

  const DIGITS := "0123456789"

  /** The canonical decimal numeral of `n`. */
  function Decimal(n: nat): (s: string)
    ensures |s| >= 1
    ensures forall i :: 0 <= i < |s| ==> '0' <= s[i] <= '9'
    ensures n > 0 ==> s[0] != '0'
  {
    if n < 10 then [DIGITS[n]] else Decimal(n / 10) + [DIGITS[n % 10]]
  }

  /** The number a string of decimal digits denotes. */
  function DecimalValue(s: string): nat
    requires forall i :: 0 <= i < |s| ==> '0' <= s[i] <= '9'
  {
    if s == "" then 0 else 10 * DecimalValue(s[..|s| - 1]) + (s[|s| - 1] - '0') as nat
  }

  lemma {:induction false} DecimalRoundTrip(n: nat)
    ensures DecimalValue(Decimal(n)) == n
  {
    var s := Decimal(n);
    if n < 10 {
      assert s[..0] == "";
    } else {
      DecimalRoundTrip(n / 10);
      assert s[..|s| - 1] == Decimal(n / 10);
    }
  }

  function SignedDecimal(n: int): string {
    if n < 0 then "-" + Decimal(-n) else Decimal(n)
  }

  function Power(base: nat, exponent: nat): nat {
    if exponent == 0 then 1 else base * Power(base, exponent - 1)
  }

  /** A numeral has k + 1 digits exactly when its number lies between 10^k and 10^(k+1). */
  lemma {:induction false} DecimalLength(n: nat, k: nat)
    requires n > 0
    ensures |Decimal(n)| == k + 1 <==> Power(10, k) <= n < Power(10, k + 1)
  {
    if n >= 10 && k > 0 {
      DecimalLength(n / 10, k - 1);
    } else if k > 0 {
      PowerGrows(10, k);
    }
  }

  lemma {:induction false} PowerGrows(base: nat, k: nat)
    requires base > 0
    ensures k > 0 ==> Power(base, k) >= base
    ensures Power(base, k) >= 1
  {
    if k > 0 {
      PowerGrows(base, k - 1);
    }
  }
}
