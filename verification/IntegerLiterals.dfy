/**
 Integers in discovery policies: a recogniser that works on the text of a JSON number, so
 that only integers written as such pass, and the bounded value read from it.
 */
module IntegerLiterals {
  import opened Common

  /** `int` of section 6 of RFC 8259: zero, or a non-zero digit and any digits. */
  predicate IsInt(s: string) {
    s == "0" || (s != "" && '1' <= s[0] <= '9' && forall i :: 0 <= i < |s| ==> IsDigit(s[i]))
  }

  /** An `int` with an optional minus. */
  predicate IsIntegral(s: string) {
    IsInt(s) || (s != "" && s[0] == '-' && IsInt(s[1..]))
  }

  method IsLexicallyIntegral(value: string) returns (ok: bool)
    ensures ok <==> IsIntegral(value)
  {
    if value == "" { return false; }
    var start := 0;
    if value[0] == '-' {
      start := 1;
    }
    if start == |value| { return false; }
    ghost var s := value[start..];
    assert IsIntegral(value) <==> IsInt(s) by { assert start == 0 ==> s == value; }
    if value[start] == '0' {
      return start + 1 == |value|;
    }
    if value[start] < '1' || value[start] > '9' { return false; }
    for i := start + 1 to |value|
      invariant forall k :: start <= k < i ==> IsDigit(value[k])
    {
      if value[i] < '0' || value[i] > '9' {
        assert !IsDigit(s[i - start]);
        return false;
      }
    }
    return true;
  }

  function Value(s: string): int
    requires IsIntegral(s)
  {
    if s[0] == '-' then -(DecimalValue(s[1..]) as int) else DecimalValue(s)
  }

  /** Reading and printing an `int` gives it back, and only "0" reads as zero. */
  lemma {:induction false} IntRoundTrip(s: string)
    requires IsInt(s)
    ensures Decimal(DecimalValue(s)) == s
    ensures DecimalValue(s) == 0 <==> s == "0"
    decreases |s|
  {
    var front, last := s[..|s| - 1], s[|s| - 1];
    if |s| == 1 {
      assert front == "" && DecimalValue(front) == 0;
      DigitText(last);
      assert s == [last];
    } else {
      IntRoundTrip(front);
      var n := DecimalValue(front);
      DigitText(last);
      assert DecimalValue(s) / 10 == n && DecimalValue(s) % 10 == (last - '0') as nat;
      assert s == front + [last];
    }
  }

  lemma DigitText(c: char)
    requires IsDigit(c)
    ensures (c - '0') as nat < 10 && DIGITS[(c - '0') as nat] == c
  {
  }

  /** For every accepted text but "-0", printing the value gives back the text. */
  lemma PrintsBack(s: string)
    requires IsIntegral(s)
    ensures SignedDecimal(Value(s)) == s <==> s != "-0"
  {
    if s[0] == '-' {
      IntRoundTrip(s[1..]);
      assert s == "-" + s[1..];
    } else {
      IntRoundTrip(s);
    }
  }

  lemma PrintedIsIntegral(n: int)
    ensures IsIntegral(SignedDecimal(n))
  {
    assert Decimal(0) == "0";
    hide Decimal;
    if n < 0 {
      NonzeroHead(-n);
      hide IsInt;
      assert ("-" + Decimal(-n))[1..] == Decimal(-n);
    } else if n > 0 {
      NonzeroHead(n);
    }
  }

  lemma NonzeroHead(n: nat)
    requires n > 0
    ensures IsInt(Decimal(n))
  {
  }

  /** The recogniser accepts exactly the printed integers, and "-0". */
  lemma AcceptsExactlyPrinted(s: string)
    ensures IsIntegral(s) <==> s == "-0" || exists n :: s == SignedDecimal(n)
  {
    if IsIntegral(s) {
      PrintsBack(s);
    }
    forall n | s == SignedDecimal(n)
      ensures IsIntegral(s)
    {
      PrintedIsIntegral(n);
    }
    assert "-0"[1..] == "0";
  }

  // ----- bounded fields -----

  datatype Field = Missing | NotANumber | Number(text: string)

  const INT64_MIN: int := -0x8000_0000_0000_0000
  const INT64_MAX: int := 0x7FFF_FFFF_FFFF_FFFF

  /** A missing field takes the fallback, unchecked; any other must be an integer text within the bounds. */
  method DiscoveryInt(field: Field, fallback: int, minimum: int, maximum: int) returns (r: Option<int>)
    requires INT64_MIN <= minimum && maximum <= INT64_MAX
    ensures field.Missing? ==> r == Some(fallback)
    ensures !field.Missing? ==>
              forall n :: r == Some(n) <==>
                minimum <= n <= maximum && (field == Number(SignedDecimal(n)) || (n == 0 && field == Number("-0")))
  {
    hide SignedDecimal;
    hide Value;
    hide IsIntegral;
    if field.Missing? { return Some(fallback); }
    if field.NotANumber? { return None; }
    var integral := IsLexicallyIntegral(field.text);
    AcceptsExactlyPrinted(field.text);
    if !integral {
      return None;
    }
    PrintsBack(field.text);
    MinusZero();
    var parsed := Value(field.text);
    forall n | field.text == SignedDecimal(n)
      ensures parsed == n
    {
      ReadsBack(n);
    }
    if parsed < INT64_MIN || parsed > INT64_MAX || parsed < minimum || parsed > maximum {
      return None;
    }
    return Some(parsed);
  }

  /** A printed integer reads as itself. */
  lemma ReadsBack(n: int)
    ensures IsIntegral(SignedDecimal(n)) && Value(SignedDecimal(n)) == n
  {
    PrintedIsIntegral(n);
    hide Decimal;
    hide IsInt;
    var s := SignedDecimal(n);
    if n < 0 {
      assert s[1..] == Decimal(-n);
      DecimalRoundTrip(-n);
    } else {
      assert s[0] != '-';
      DecimalRoundTrip(n);
    }
  }

  lemma MinusZero()
    ensures IsIntegral("-0") && Value("-0") == 0
  {
    assert "-0"[1..] == "0" && "0"[..0] == "";
    assert DecimalValue("") == 0;
  }
}
