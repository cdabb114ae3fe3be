/** Base units of a token against human amounts, both conversions in the 28-digit context. */
module Quotes {
  import opened Numbers
  import opened Wrappers
  import Accounting
  import opened PaperExecution

  datatype ConversionError = NEGATIVE_AMOUNT | FINER_THAN_SMALLEST_UNIT

  function ToHuman(baseUnits: int, decimals: int): Result<real, ConversionError> {
    if baseUnits < 0 || decimals < 0 then Failure(NEGATIVE_AMOUNT)
    else Success(Sig(LEAD28, baseUnits as real / TenTo(decimals) as real))
  }

  function ToBaseUnits(amount: real, decimals: int): Result<int, ConversionError> {
    if amount < 0.0 || decimals < 0 then Failure(NEGATIVE_AMOUNT)
    else
      var scaled := Sig(LEAD28, Times(amount, TenTo(decimals) as real));
      if scaled != scaled.Floor as real then Failure(FINER_THAN_SMALLEST_UNIT) else Success(scaled.Floor)
  }

  /** At most 28 significant digits: trailing zeros are free. */
  ghost predicate FewDigits(n: nat) {
    exists m: nat, k: nat :: m <= EXACT28 && Scaled(n, m, k)
  }

  predicate Scaled(n: nat, m: nat, k: nat) {
    n == m * TenTo(k)
  }

  lemma {:induction false} KeptExactly(n: nat)
    ensures Whole28(n) == n <==> FewDigits(n)
  {
    if FewDigits(n) {
      var m: nat, k: nat :| m <= EXACT28 && Scaled(n, m, k);
      ScaledKept(n, m, k);
    }
    if Whole28(n) == n {
      KeptIsScaled(n);
    }
  }

  lemma ScaledKept(n: nat, m: nat, k: nat)
    requires m <= EXACT28 && Scaled(n, m, k)
    ensures Whole28(n) == n
  {
    hide Sig, TenTo, Shifted;
    ShiftedTimes(m as real, k);
    WholeProduct(m, TenTo(k));
    assert Shifted(m as real, k) == n as real;
    SigShiftBy(LEAD28, m as real, k);
    SigWhole(LEAD28, m);
  }

  lemma {:induction false} KeptIsScaled(n: nat)
    requires Whole28(n) == n
    ensures FewDigits(n)
    decreases n
  {
    if n <= EXACT28 {
      assert Scaled(n, n, 0);
    } else {
      var tenth := n as real / 10.0;
      SigStaysWhole(LEAD28, n);
      LargeIsTenfold(LEAD28, tenth);
      var part: nat := Sig(LEAD28, tenth).Floor;
      assert Sig(LEAD28, n as real) == 10.0 * Sig(LEAD28, tenth);
      assert n == 10 * part && tenth == part as real;
      KeptIsScaled(part);
      var m: nat, k: nat :| m <= EXACT28 && Scaled(part, m, k);
      TenTimesMore(n, part, m, k);
    }
  }

  lemma TenTimesMore(n: nat, part: nat, m: nat, k: nat)
    requires n == 10 * part && Scaled(part, m, k)
    ensures Scaled(n, m, k + 1)
  {
    assert m * TenTo(k + 1) == m * (10 * TenTo(k)) == 10 * (m * TenTo(k));
  }

  lemma QuotientShifts(x: real, decimals: nat)
    ensures Shifted(x / TenTo(decimals) as real, decimals) == x
  {
    ShiftedTimes(x / TenTo(decimals) as real, decimals);
  }

  lemma TimesShifts(x: real, decimals: nat)
    ensures Times(x, TenTo(decimals) as real) == Shifted(x, decimals)
  {
    ShiftedTimes(x, decimals);
  }

  /** The digits that survive the trip out survive the trip back. */
  lemma ThereAndBack(n: nat, decimals: nat)
    ensures ToBaseUnits(ToHuman(n, decimals).value, decimals) == Success(Whole28(n))
  {
    hide Sig, TenTo, Shifted, Times;
    var exact := n as real / TenTo(decimals) as real;
    var human := Sig(LEAD28, exact);
    QuotientShifts(n as real, decimals);
    SigShiftBy(LEAD28, exact, decimals);
    TimesShifts(human, decimals);
    SigTwice(n as real);
    SigStaysWhole(LEAD28, n);
    HumanNonNegative(n, decimals);
  }

  lemma HumanNonNegative(n: nat, decimals: nat)
    ensures Sig(LEAD28, n as real / TenTo(decimals) as real) >= 0.0
  {
    hide Sig;
    var t := TenTo(decimals) as real;
    assert n as real / t >= 0.0;
    SigWithin(n as real / t);
  }

  /**
   Base units come back from their human amount exactly when they have at most 28 significant digits; every
   quantity up to 10^28 does.
   */
  lemma BaseUnitsRoundTrip(n: nat, decimals: nat)
    ensures ToBaseUnits(ToHuman(n, decimals).value, decimals) == Success(n) <==> FewDigits(n)
    ensures n <= EXACT28 ==> ToBaseUnits(ToHuman(n, decimals).value, decimals) == Success(n)
  {
    hide Whole28, FewDigits, Sig;
    ThereAndBack(n, decimals);
    KeptExactly(n);
    if n <= EXACT28 { Whole28Exact(n); }
  }

  /** The first quantity that does not come back: one base unit is lost. */
  lemma OneUnitLost(decimals: nat)
    ensures ToBaseUnits(ToHuman(EXACT28 + 1, decimals).value, decimals) == Success(EXACT28)
  {
    hide Sig, Whole28;
    ThereAndBack(EXACT28 + 1, decimals);
    Accounting.OneBeyond();
  }

  /** A human amount that converts comes back as itself, to 28 digits. */
  lemma HumanRoundTrip(amount: real, decimals: nat)
    requires ToBaseUnits(amount, decimals).Success?
    ensures ToHuman(ToBaseUnits(amount, decimals).value, decimals) == Success(Sig(LEAD28, amount))
  {
    hide Sig, TenTo, Shifted, Times;
    var units, human := ToBaseUnits(amount, decimals).value, Sig(LEAD28, amount);
    TimesShifts(amount, decimals);
    SigShiftBy(LEAD28, amount, decimals);
    assert units as real == Shifted(human, decimals);
    QuotientShifts(units as real, decimals);
    ShiftedInjective(units as real / TenTo(decimals) as real, human, decimals);
    SigWithin(amount);
    SigTwice(amount);
    ShiftedSign(human, decimals);
  }

  lemma {:induction false} ShiftedSign(x: real, k: nat)
    requires x >= 0.0
    ensures Shifted(x, k) >= 0.0
  {
    if k > 0 {
      ShiftedSign(x, k - 1);
    }
  }
}
