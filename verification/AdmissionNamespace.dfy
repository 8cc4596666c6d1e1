/**
 The namespace and marker a transaction allocates for its rollback are fixed by its
 id, always have the shape the validator asks for, and tell transactions apart by
 the digits they are made of.
 */
module AdmissionNamespace {
  import opened Common
  import opened AdmissionValidator
  import opened AdmissionCommands

  predicate HexDigits(s: string) {
    forall i :: 0 <= i < |s| ==> IsHexDigit(s[i])
  }

  lemma HexValueRange(c: char)
    requires IsHexDigit(c)
    ensures HexValue(c) < 16
  {
  }

  lemma {:induction false} ParseHexRange(s: string)
    requires HexDigits(s)
    ensures ParseHex(s) < Power(16, |s|)
  {
    if s != "" {
      ParseHexRange(s[..|s| - 1]);
      HexValueRange(s[|s| - 1]);
    }
  }

  lemma {:induction false} ParseHexInjective(a: string, b: string)
    requires HexDigits(a) && HexDigits(b) && |a| == |b| && ParseHex(a) == ParseHex(b)
    ensures a == b
  {
    if a != "" {
      var x, y := a[|a| - 1], b[|b| - 1];
      HexValueRange(x);
      HexValueRange(y);
      ParseHexInjective(a[..|a| - 1], b[..|b| - 1]);
      assert x == y;
      assert a == a[..|a| - 1] + [x] && b == b[..|b| - 1] + [y];
    }
  }

  lemma NamespaceRange(transactionId: string)
    requires TransactionIdOk(transactionId)
    ensures NAMESPACE_BASE <= NamespaceNumber(transactionId) < 1_252_921_504_606_846_976
  {
    ParseHexRange(Slice(transactionId, 3, 18));
    assert Power(16, 15) == 1_152_921_504_606_846_976 by { SixteenToFifteen(); }
  }

  lemma SixteenToFifteen()
    ensures Power(16, 15) == 1_152_921_504_606_846_976
  {
    assert Power(16, 5) == 1_048_576;
    assert Power(16, 10) == 1_099_511_627_776;
  }

  lemma TenToEighteen()
    ensures Power(10, 17) == NAMESPACE_BASE
    ensures Power(10, 18) == 10 * NAMESPACE_BASE
    ensures Power(10, 19) == 100 * NAMESPACE_BASE
  {
    assert Power(10, 6) == 1_000_000;
    assert Power(10, 12) == 1_000_000_000_000;
  }

  /** The allocated names always fit the validator's patterns. */
  lemma AllocationFits(transactionId: string)
    requires TransactionIdOk(transactionId)
    ensures RollbackNamespaceOk(AllocatedNamespace(transactionId))
    ensures RollbackMarkerOk(AllocatedMarker(transactionId))
  {
    var n := NamespaceNumber(transactionId);
    NamespaceRange(transactionId);
    TenToEighteen();
    DecimalLength(n, 17);
    DecimalLength(n, 18);
    assert AllocatedNamespace(transactionId)[9..] == Decimal(n);
    var marker := AllocatedMarker(transactionId);
    assert marker[18..] == Decimal(1);
    assert forall i :: 5 <= i < 17 ==> marker[i] == transactionId[i - 2];
  }

  /** Two transactions share a namespace exactly when their ids agree on fifteen digits. */
  lemma AllocationIdentifies(a: string, b: string)
    requires TransactionIdOk(a) && TransactionIdOk(b)
    ensures AllocatedNamespace(a) == AllocatedNamespace(b) <==> a[3..18] == b[3..18]
  {
    var x, y := NamespaceNumber(a), NamespaceNumber(b);
    hide Decimal;
    hide DecimalValue;
    hide ParseHex;
    if AllocatedNamespace(a) == AllocatedNamespace(b) {
      assert Decimal(x) == ("rollback-" + Decimal(x))[9..] == ("rollback-" + Decimal(y))[9..] == Decimal(y);
      DecimalRoundTrip(x);
      DecimalRoundTrip(y);
      ParseHexInjective(a[3..18], b[3..18]);
    }
  }
}
