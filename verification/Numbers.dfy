/**
 Decimal arithmetic of the paper ledger.

 Every amount is counted in quanta of 10^-18 (one unit in the last place of `Numeric(38, 18)`), so a
 stored figure is an `int` and only an intermediate product or quotient is a `real`.  Two kinds of
 rounding occur, and both are written out: `quantize` and its directed variants, which bring a value to
 the ledger's scale, and the working precision of a decimal context, which keeps a fixed number of
 significant digits after every single operation.
 */
module Numbers {

  /** Quanta in one whole dollar, token or basis point. */
  const UNIT: int := 1000000000000000000
  /** Quanta in the 10000 basis points of one. */
  const BPS: int := 10000000000000000000000
  /** `Numeric(38, 18)` leaves twenty integer digits. */
  const LEDGER_BOUND: int := 100000000000000000000000000000000000000

  /** Least coefficient with the digits of the 28-, 78- and 160-digit contexts. */
  const LEAD28: int := 1000000000000000000000000000
  const LEAD78: int := 100000000000000000000000000000000000000000000000000000000000000000000000000000
  const LEAD160: int := 1000000000000000000000000000000000000000000000000000000000000000000000000000000000000000000000000000000000000000000000000000000000000000000000000000000000000000
  /** Integers up to this size need no more than 28 digits. */
  const EXACT28: int := 10000000000000000000000000000

  // ------------------------------------------------------------------ rounding to the ledger's scale

  /** `Decimal.quantize` with the default rounding, roundTiesToEven. */
  function Quantize(x: real): int {
    var f := x.Floor;
    var rest := x - f as real;
    if rest < 0.5 || (rest == 0.5 && f % 2 == 0) then f else f + 1
  }

  /** ROUND_CEILING. */
  function QuantizeUp(x: real): int {
    -((-x).Floor)
  }

  /** ROUND_DOWN, toward zero. */
  function QuantizeDown(x: real): int {
    if x >= 0.0 then x.Floor else -((-x).Floor)
  }

  /** Whether a figure has at most twenty integer digits. */
  predicate FitsLedger(x: real) {
    -(LEDGER_BOUND as real) < x < LEDGER_BOUND as real
  }

  /** `Quantize` is the one integer within half a quantum that is even on a tie. */
  lemma QuantizeNearest(x: real, n: int)
    ensures n == Quantize(x) <==>
            && x - 0.5 <= n as real <= x + 0.5
            && ((n as real == x - 0.5 || n as real == x + 0.5) ==> n % 2 == 0)
  {
    var f := x.Floor;
    if x - 0.5 <= n as real <= x + 0.5 {
      assert n == f || n == f + 1;
    }
  }

  lemma QuantizeMonotone(x: real, y: real)
    requires x <= y
    ensures Quantize(x) <= Quantize(y)
  {
    QuantizeNearest(x, Quantize(x));
    QuantizeNearest(y, Quantize(y));
  }

  lemma QuantizeError(x: real)
    ensures x - 0.5 <= Quantize(x) as real <= x + 0.5
  {
  }

  lemma QuantizeWhole(n: int)
    ensures Quantize(n as real) == n
  {
  }

  /** A bound that is itself on the grid survives rounding, from either side. */
  lemma QuantizeBound(x: real, n: int)
    ensures x <= n as real ==> Quantize(x) <= n
    ensures x >= n as real ==> Quantize(x) >= n
    ensures x < n as real + 0.5 ==> Quantize(x) <= n
  {
  }

  /** The ceiling is the least ledger figure that is not below the value. */
  lemma QuantizeUpLeast(x: real, n: int)
    ensures x <= QuantizeUp(x) as real < x + 1.0
    ensures x <= n as real <==> QuantizeUp(x) <= n
  {
  }

  /** Truncation goes toward zero: the greatest figure not above a non-negative value, the least not below a negative one. */
  lemma QuantizeDownGreatest(x: real, n: int)
    ensures x >= 0.0 ==> x - 1.0 < QuantizeDown(x) as real <= x && (n as real <= x <==> n <= QuantizeDown(x))
    ensures x <= 0.0 ==> x <= QuantizeDown(x) as real < x + 1.0 && (x <= n as real <==> QuantizeDown(x) <= n)
  {
  }

  // -------------------------------------------------------------- working precision of a context

  /** How far a positive magnitude is from having exactly the digits of `lead`. */
  ghost function Distance(lead: int, x: real): nat
    requires lead >= 1 && x > 0.0
  {
    if x >= 10.0 * lead as real then x.Floor
    else if x < lead as real then (10.0 * lead as real / x).Floor
    else 0
  }

  lemma DistanceDrops(lead: int, x: real)
    requires lead >= 1 && x > 0.0
    ensures x >= 10.0 * lead as real ==> Distance(lead, x / 10.0) < Distance(lead, x)
    ensures x < lead as real ==> Distance(lead, x * 10.0) < Distance(lead, x)
  {
    if x < lead as real {
      QuotientTenfold(lead as real, x);
    }
  }

  lemma QuotientTenfold(l: real, x: real)
    requires 0.0 < x < l
    ensures l / x > 1.0
    ensures 10.0 * l / x == 10.0 * (l / x)
    ensures 10.0 * l / (x * 10.0) == l / x
  {
    var q := l / x;
    assert q * x == l;
    assert 10.0 * l == (10.0 * q) * x;
    assert 10.0 * l == q * (x * 10.0);
  }

  /**
   The value a context with `10 * lead` as the bound of its coefficients keeps: the magnitude is
   shifted by powers of ten until its integer part has exactly the context's digits, rounded half to
   even there, and shifted back.
   */
  function Sig(lead: int, x: real): real
    requires lead >= 1
    decreases x < 0.0, if x > 0.0 then Distance(lead, x) else 0
  {
    if x == 0.0 then 0.0
    else if x < 0.0 then -Sig(lead, -x)
    else if x >= 10.0 * lead as real then
      DistanceDrops(lead, x);
      10.0 * Sig(lead, x / 10.0)
    else if x < lead as real then
      DistanceDrops(lead, x);
      Sig(lead, x * 10.0) / 10.0
    else Quantize(x) as real
  }

  /** Moving the decimal point commutes with rounding to significant digits. */
  lemma SigShift(lead: int, x: real)
    requires lead >= 1
    ensures Sig(lead, x * 10.0) == Sig(lead, x) * 10.0
    decreases x < 0.0
  {
    if x < 0.0 {
      SigShift(lead, -x);
      assert -(x * 10.0) == (-x) * 10.0;
    } else if x >= lead as real {
      assert (x * 10.0) / 10.0 == x;
    }
  }

  lemma SigOdd(lead: int, x: real)
    requires lead >= 1
    ensures Sig(lead, -x) == -Sig(lead, x)
  {
  }

  /** Rounding stays in the decade it started in, its upper end included. */
  lemma {:induction false} SigDecade(lead: int, x: real)
    requires lead >= 1 && x > 0.0
    ensures Sig(lead, x) > 0.0
    ensures x >= lead as real ==> Sig(lead, x) >= lead as real
    ensures x >= 10.0 * lead as real ==> Sig(lead, x) >= 10.0 * lead as real
    ensures x <= 10.0 * lead as real ==> Sig(lead, x) <= 10.0 * lead as real
    ensures x <= lead as real ==> Sig(lead, x) <= lead as real
    decreases Distance(lead, x)
  {
    DistanceDrops(lead, x);
    if x >= 10.0 * lead as real {
      SigDecade(lead, x / 10.0);
    } else if x < lead as real {
      SigDecade(lead, x * 10.0);
    } else {
      QuantizeBound(x, lead);
      QuantizeBound(x, 10 * lead);
    }
  }

  lemma {:induction false} SigMonotonePositive(lead: int, x: real, y: real)
    requires lead >= 1 && 0.0 < x <= y
    ensures Sig(lead, x) <= Sig(lead, y)
    decreases Distance(lead, x)
  {
    DistanceDrops(lead, x);
    if x < lead as real {
      SigMonotonePositive(lead, x * 10.0, y * 10.0);
      SigShift(lead, x);
      SigShift(lead, y);
    } else if x >= 10.0 * lead as real {
      SigMonotonePositive(lead, x / 10.0, y / 10.0);
    } else if y < 10.0 * lead as real {
      QuantizeMonotone(x, y);
    } else {
      SigDecade(lead, x);
      SigDecade(lead, y);
    }
  }

  lemma SigZero(lead: int)
    requires lead >= 1
    ensures Sig(lead, 0.0) == 0.0
  {
  }

  lemma SigSign(lead: int, x: real)
    requires lead >= 1
    ensures x >= 0.0 ==> Sig(lead, x) >= 0.0
    ensures x <= 0.0 ==> Sig(lead, x) <= 0.0
  {
    hide Sig;
    if x > 0.0 {
      SigDecade(lead, x);
    } else if x < 0.0 {
      SigDecade(lead, -x);
      SigOdd(lead, x);
    } else {
      SigZero(lead);
    }
  }

  /** Rounding to significant digits never reorders two values. */
  lemma SigMonotone(lead: int, x: real, y: real)
    requires lead >= 1 && x <= y
    ensures Sig(lead, x) <= Sig(lead, y)
  {
    hide Sig;
    if 0.0 < x {
      SigMonotonePositive(lead, x, y);
    } else if y < 0.0 {
      SigMonotonePositive(lead, -y, -x);
      SigOdd(lead, y);
      SigOdd(lead, x);
    } else {
      SigSign(lead, x);
      SigSign(lead, y);
    }
  }

  lemma ShareOfTenth(x: real, l: real)
    requires l > 0.0
    ensures x / 10.0 / l == x / l / 10.0
    ensures x * 10.0 / l == x / l * 10.0
  {
  }

  lemma ShareAtLeastHalf(lead: int, x: real)
    requires lead >= 1 && x >= lead as real
    ensures x / (2.0 * lead as real) >= 0.5
  {
  }

  /** Half a unit in the last place: the error is at most one part in `2 * lead` of the value. */
  lemma {:induction false} SigError(lead: int, x: real)
    requires lead >= 1 && x >= 0.0
    ensures x - x / (2.0 * lead as real) <= Sig(lead, x) <= x + x / (2.0 * lead as real)
    decreases if x > 0.0 then Distance(lead, x) else 0
  {
    var l := 2.0 * lead as real;
    ShareOfTenth(x, l);
    if x > 0.0 {
      DistanceDrops(lead, x);
      if x >= 10.0 * lead as real {
        SigError(lead, x / 10.0);
      } else if x < lead as real {
        SigError(lead, x * 10.0);
      } else {
        ShareAtLeastHalf(lead, x);
      }
    }
  }

  /** An integer that needs no more digits than the context has is kept exactly. */
  lemma {:induction false} SigWhole(lead: int, n: int)
    requires lead >= 1
    requires -10 * lead <= n <= 10 * lead
    ensures Sig(lead, n as real) == n as real
    decreases n < 0, if n > 0 then 10 * lead - n else 0
  {
    if n < 0 {
      SigWhole(lead, -n);
      assert (-n) as real == -(n as real);
    } else if n == 10 * lead {
      assert n as real / 10.0 == lead as real;
      assert Sig(lead, lead as real) == lead as real;
    } else if 0 < n < lead {
      SigWhole(lead, 10 * n);
      assert (10 * n) as real == n as real * 10.0;
    }
  }

  /** Ten to a natural power. */
  function TenTo(k: nat): (r: int)
    ensures r >= 1
  {
    if k == 0 then 1 else 10 * TenTo(k - 1)
  }

  /** The decimal point moved `k` places to the right. */
  function Shifted(x: real, k: nat): real {
    if k == 0 then x else Shifted(x, k - 1) * 10.0
  }

  lemma {:induction false} ShiftedTimes(x: real, k: nat)
    ensures Shifted(x, k) == x * TenTo(k) as real
  {
    if k > 0 {
      ShiftedTimes(x, k - 1);
      var t := TenTo(k - 1) as real;
      assert TenTo(k) as real == t * 10.0;
      assert x * (t * 10.0) == x * t * 10.0;
    }
  }

  /** Rounding to significant digits commutes with any shift of the decimal point. */
  lemma {:induction false} SigShiftBy(lead: int, x: real, k: nat)
    requires lead >= 1
    ensures Sig(lead, Shifted(x, k)) == Shifted(Sig(lead, x), k)
  {
    if k > 0 {
      SigShiftBy(lead, x, k - 1);
      SigShift(lead, Shifted(x, k - 1));
    }
  }

  lemma {:induction false} ShiftedInjective(x: real, y: real, k: nat)
    requires Shifted(x, k) == Shifted(y, k)
    ensures x == y
  {
    if k > 0 {
      ShiftedInjective(x, y, k - 1);
    }
  }

  /** A decimal fraction whose coefficient fits the context is kept exactly. */
  lemma SigFraction(lead: int, x: real, n: int, k: nat)
    requires lead >= 1
    requires -10 * lead <= n <= 10 * lead
    requires Shifted(x, k) == n as real
    ensures Sig(lead, x) == x
  {
    SigWhole(lead, n);
    SigShiftBy(lead, x, k);
    ShiftedInjective(Sig(lead, x), x, k);
  }

  /** Reads one rounding off a shift that brings the value into the context's decade. */
  lemma SigAt(lead: int, x: real, k: nat, shifted: real)
    requires lead >= 1
    requires Shifted(x, k) == shifted
    requires lead as real <= shifted < 10.0 * lead as real
    ensures Shifted(Sig(lead, x), k) == Quantize(shifted) as real
  {
    SigShiftBy(lead, x, k);
  }

  /** Multiplication as a function symbol, for products that are themselves arguments. */
  function Times(x: real, y: real): real {
    x * y
  }

  /** Multiplying both sides by something non-negative keeps an inequality. */
  lemma TimesMonotone(x: real, y: real, z: real)
    requires x <= y && z >= 0.0
    ensures x * z <= y * z
  {
    assert (y - x) * z >= 0.0;
    assert (y - x) * z == y * z - x * z;
  }

  lemma TimesOrders(x: real, y: real, y': real)
    requires x >= 0.0 && y <= y'
    ensures Times(x, y) <= Times(x, y')
  {
    TimesMonotone(y, y', x);
  }

  lemma WholeProduct(n: int, m: int)
    ensures Times(n as real, m as real) == (n * m) as real
  {
  }

  lemma TimesAtLeast(x: real, y: real)
    requires x >= 1.0 && y >= 0.0
    ensures x * y >= y
  {
    var z := x - 1.0;
    assert z * y >= 0.0;
    assert z * y == x * y - y;
  }

  lemma TimesAtMostTwice(x: real, y: real)
    requires x <= 2.0 && y >= 0.0
    ensures x * y <= 2.0 * y
  {
    var z := 2.0 - x;
    assert z * y >= 0.0;
    assert z * y == 2.0 * y - x * y;
  }

  /** A context never invents a fraction: an integer stays an integer. */
  lemma {:induction false} SigStaysWhole(lead: int, n: int)
    requires lead >= 1
    ensures Sig(lead, n as real) == Sig(lead, n as real).Floor as real
  {
    if n > 0 {
      PositiveStaysWhole(lead, n);
    } else if n < 0 {
      PositiveStaysWhole(lead, -n);
      assert (-n) as real == -(n as real);
      SigOdd(lead, (-n) as real);
      var m := Sig(lead, (-n) as real).Floor;
      assert Sig(lead, n as real) == (-m) as real;
    }
  }

  lemma PositiveStaysWhole(lead: int, n: int)
    requires lead >= 1 && n > 0
    ensures Sig(lead, n as real) == Sig(lead, n as real).Floor as real
  {
    if n <= lead {
      SigWhole(lead, n);
    } else {
      LargeIsTenfold(lead, n as real);
    }
  }

  lemma {:induction false} LargeIsTenfold(lead: int, x: real)
    requires lead >= 1 && x >= lead as real
    ensures Sig(lead, x) == Sig(lead, x).Floor as real
    decreases Distance(lead, x)
  {
    if x >= 10.0 * lead as real {
      DistanceDrops(lead, x);
      LargeIsTenfold(lead, x / 10.0);
      var m := Sig(lead, x / 10.0).Floor;
      assert Sig(lead, x) == (10 * m) as real;
    }
  }

  // ------------------------------------------------- sums and products of stored figures, 28 digits

  /** A sum or difference of stored figures as the default context rounds it. */
  function Whole28(n: int): int {
    Sig(LEAD28, n as real).Floor
  }

  /** The exact product of a quantity and a price, in quanta of a dollar. */
  function Product(quantity: int, price: int): real {
    (quantity * price) as real / UNIT as real
  }

  lemma Whole28Exact(n: int)
    requires -EXACT28 <= n <= EXACT28
    ensures Whole28(n) == n
  {
    SigWhole(LEAD28, n);
  }

  lemma Whole28Monotone(n: int, m: int)
    requires n <= m
    ensures Whole28(n) <= Whole28(m)
  {
    SigMonotone(LEAD28, n as real, m as real);
  }

  /** Comparing a rounded sum with a figure below 10^28 quanta decides the exact comparison. */
  lemma Whole28Decides(n: int, c: int)
    requires -EXACT28 < c < EXACT28
    ensures Whole28(n) <= c <==> n <= c
    ensures Whole28(n) >= c <==> n >= c
  {
    Whole28Exact(c);
    Whole28Exact(c + 1);
    Whole28Exact(c - 1);
    if n <= c { Whole28Monotone(n, c); } else { Whole28Monotone(c + 1, n); }
    if n >= c { Whole28Monotone(c, n); } else { Whole28Monotone(n, c - 1); }
  }

  /** A limit is kept on rounded sums as on exact ones exactly when the next figure does not round down to it. */
  lemma LimitKeptExactly(limit: int)
    ensures (forall n: int :: Whole28(n) <= limit ==> n <= limit) <==> Whole28(limit + 1) > limit
  {
    hide Whole28;
    if Whole28(limit + 1) > limit {
      forall n: int | Whole28(n) <= limit ensures n <= limit {
        if n > limit { Whole28Monotone(limit + 1, n); }
      }
    } else {
      assert Whole28(limit + 1) <= limit && limit + 1 > limit;
    }
  }

  /** A limit that must not be reached is kept exactly when it does not itself round down. */
  lemma BarKeptExactly(limit: int)
    ensures (forall n: int :: Whole28(n) < limit ==> n < limit) <==> Whole28(limit) >= limit
  {
    hide Whole28;
    if Whole28(limit) >= limit {
      forall n: int | Whole28(n) < limit ensures n < limit {
        if n >= limit { Whole28Monotone(limit, n); }
      }
    }
  }

  /** Below 10^10 dollars every limit is kept. */
  lemma SmallLimitsKept(limit: int)
    requires -EXACT28 <= limit < EXACT28
    ensures Whole28(limit + 1) > limit && Whole28(limit) >= limit
  {
    Whole28Exact(limit);
    Whole28Exact(limit + 1);
  }

  /** Only a sum that is zero rounds to zero. */
  lemma Whole28Sign(n: int)
    ensures Whole28(n) == 0 <==> n == 0
    ensures Whole28(n) >= 0 <==> n >= 0
  {
    Whole28Decides(n, 0);
  }

  lemma ProductMonotone(quantity: int, quantity': int, price: int)
    requires quantity <= quantity' && price >= 0
    ensures Product(quantity, price) <= Product(quantity', price)
  {
    assert quantity * price <= quantity' * price;
  }
}
