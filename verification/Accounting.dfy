/**
 Long-only spot accounting on weighted average cost; purchase costs enter the basis.  Every sum is a
 28-digit context's, so money is conserved exactly as long as the figures stay below 10^10 dollars.
 */
module Accounting {
  import opened Numbers
  import opened Wrappers
  import opened Contracts
  import opened PaperExecution
  import opened RiskCapacity

  datatype Booking = Booking(position: Position, trade: Trade, cash: int)

  predicate IsAmount(n: int) {
    0 <= n < LEDGER_BOUND
  }

  predicate IsSigned(n: int) {
    -LEDGER_BOUND < n < LEDGER_BOUND
  }

  /** `cost_basis * fill_quantity / position_quantity`, rounded to the ledger. */
  function RemovedBasis(basis: nat, sold: nat, held: nat): int
    requires held > 0
  {
    Quantize(Sig(LEAD28, Sig(LEAD28, Product(basis, sold)) / (held as real / UNIT as real)))
  }

  /** The stored position, or the validation error its construction raises. */
  function Booked(position: Position, fill: ExecutionResult, quantity: int, basis: int, realized: int, costs: int,
                  cash: int): Result<Booking, Error>
  {
    var total := Whole28(position.realizedPnlUsd + realized);
    if !IsAmount(quantity) || !IsAmount(basis) || !IsSigned(total) || !IsAmount(costs) || !IsSigned(realized)
    then Failure(ValidationError)
    else
      Success(Booking(
        position.(quantity := quantity, costBasisUsd := basis, realizedPnlUsd := total),
        Trade(fill.intentId, fill.assetId, fill.side, fill.quantity, fill.executionPrice, costs, realized,
              fill.createdAt),
        cash))
  }

  function ApplyFill(position: Position, fill: ExecutionResult, cash: int): Result<Booking, Error> {
    if position.assetId != fill.assetId then Failure(PositionMismatch)
    else
      var gross := FillGross(fill.quantity, fill.executionPrice);
      var costs := Whole28(fill.feesUsd + fill.gasUsd);
      if fill.side == BUY then
        var spent := Whole28(gross + costs);
        if spent > cash then Failure(InsufficientCash)
        else
          Booked(position, fill, Whole28(position.quantity + fill.quantity),
                 Whole28(Whole28(position.costBasisUsd + gross) + costs), 0, costs, Whole28(cash - spent))
      else if fill.quantity > position.quantity then Failure(SellExceedsPosition)
      else
        var removed := RemovedBasis(position.costBasisUsd, fill.quantity, position.quantity);
        var proceeds := Whole28(gross - costs);
        Booked(position, fill, Whole28(position.quantity - fill.quantity),
               Whole28(position.costBasisUsd - removed), Whole28(proceeds - removed), costs,
               Whole28(cash + proceeds))
  }

  /** A fill as the executor produces it: no gas, and a fee that stays within the gross value. */
  predicate Honest(fill: ExecutionResult) {
    fill.gasUsd == 0 && fill.feesUsd <= FillGross(fill.quantity, fill.executionPrice)
  }

  /** A figure of less than 10^10 dollars: 28 digits hold it and its neighbours. */
  predicate Within(n: int) {
    -EXACT28 < n < EXACT28
  }

  predicate PositionWithin(position: Position) {
    Within(position.costBasisUsd) && Within(position.realizedPnlUsd)
  }

  lemma WithinExact(n: int)
    requires Within(Whole28(n)) || Within(n)
    ensures Whole28(n) == n
  {
    hide Whole28;
    Whole28Decides(n, EXACT28 - 1);
    Whole28Decides(n, 1 - EXACT28);
    Whole28Exact(if -EXACT28 <= n <= EXACT28 then n else 0);
  }

  lemma GrossNonNegative(quantity: nat, price: nat)
    ensures FillGross(quantity, price) >= 0
  {
    FeesWithinGross(quantity, price, 0);
  }

  lemma RemovedNonNegative(basis: nat, sold: nat, held: nat)
    requires held > 0
    ensures RemovedBasis(basis, sold, held) >= 0
  {
    hide Sig;
    assert Product(basis, sold) >= 0.0 by { assert basis * sold >= 0; }
    SigWhole(LEAD28, 0);
    SigMonotone(LEAD28, 0.0, Product(basis, sold));
    var kept := Sig(LEAD28, Product(basis, sold));
    var tokens := held as real / UNIT as real;
    QuotientNonNegative(kept, tokens);
    SigMonotone(LEAD28, 0.0, kept / tokens);
    QuantizeBound(Sig(LEAD28, kept / tokens), 0);
  }

  lemma QuotientNonNegative(x: real, y: real)
    requires x >= 0.0 && y > 0.0
    ensures x / y >= 0.0
  {
  }

  // --------------------------------------------------------------------------------- conservation

  /** What an account holds at cost, net of what it has realised. */
  function AtCost(position: Position, cash: int): int {
    cash + position.costBasisUsd - position.realizedPnlUsd
  }

  /**
   One fill conserves money: cash plus cost basis minus realised result is the same before and after, as
   long as the figures it starts from and the ones it stores stay below 10^10 dollars.
   */
  lemma FillConserves(position: Position, fill: ExecutionResult, cash: nat)
    requires ApplyFill(position, fill, cash).Success?
    requires Honest(fill)
    requires PositionWithin(position) && Within(cash)
    requires var booking := ApplyFill(position, fill, cash).value;
             PositionWithin(booking.position) && 0 <= booking.cash && Within(booking.cash)
    ensures AtCost(ApplyFill(position, fill, cash).value.position, ApplyFill(position, fill, cash).value.cash)
            == AtCost(position, cash)
  {
    hide Whole28, RemovedBasis, FillGross;
    var gross := FillGross(fill.quantity, fill.executionPrice);
    var costs := Whole28(fill.feesUsd);
    GrossNonNegative(fill.quantity, fill.executionPrice);
    Whole28Sign(fill.feesUsd);
    if fill.side == BUY {
      BuyConserves(position.costBasisUsd, gross, costs, cash);
      WithinExact(position.realizedPnlUsd);
    } else {
      var removed := RemovedBasis(position.costBasisUsd, fill.quantity, position.quantity);
      RemovedNonNegative(position.costBasisUsd, fill.quantity, position.quantity);
      ProceedsNonNegative(fill.quantity, fill.executionPrice, fill.feesUsd);
      SellConserves(position.costBasisUsd, position.realizedPnlUsd, gross, costs, removed, cash);
    }
  }

  /** A figure brought to the ledger from a 28-digit value has no more digits: rounding it again changes nothing. */
  lemma LedgerFigureKept(x: real)
    requires x >= 0.0
    ensures Whole28(Quantize(Sig(LEAD28, x))) == Quantize(Sig(LEAD28, x)) >= 0
  {
    hide Sig;
    var figure := Quantize(Sig(LEAD28, x));
    SigWithin(x);
    QuantizeBound(Sig(LEAD28, x), 0);
    if x >= LEAD28 as real {
      LargeIsTenfold(LEAD28, x);
      SigTwice(x);
    } else {
      SigWhole(LEAD28, LEAD28);
      SigMonotone(LEAD28, x, LEAD28 as real);
      QuantizeBound(Sig(LEAD28, x), LEAD28);
      Whole28Exact(figure);
    }
  }

  lemma GrossKept(quantity: nat, price: nat)
    ensures Whole28(FillGross(quantity, price)) == FillGross(quantity, price)
  {
    hide Sig;
    assert Product(quantity, price) >= 0.0 by { assert quantity * price >= 0; }
    LedgerFigureKept(Product(quantity, price));
  }

  /** Rounding a fee that fits the gross value up cannot make the proceeds negative. */
  lemma ProceedsNonNegative(quantity: nat, price: nat, fees: nat)
    requires fees <= FillGross(quantity, price)
    ensures Whole28(FillGross(quantity, price) - Whole28(fees)) >= 0
  {
    hide Whole28, FillGross;
    GrossKept(quantity, price);
    Whole28Monotone(fees, FillGross(quantity, price));
    Whole28Sign(FillGross(quantity, price) - Whole28(fees));
  }

  lemma BuyConserves(basis: nat, gross: nat, costs: nat, cash: nat)
    requires Within(cash) && Whole28(gross + costs) <= cash
    requires Within(Whole28(Whole28(basis + gross) + costs))
    ensures Whole28(cash - Whole28(gross + costs)) == cash - (gross + costs)
    ensures Whole28(Whole28(basis + gross) + costs) == basis + gross + costs
  {
    hide Whole28;
    Whole28Sign(gross + costs);
    WithinExact(gross + costs);
    WithinExact(cash - (gross + costs));
    Whole28Sign(basis + gross);
    WithinExact(Whole28(basis + gross) + costs);
    WithinExact(basis + gross);
  }

  lemma SellConserves(basis: nat, realized: int, gross: nat, costs: nat, removed: nat, cash: nat)
    requires Within(basis) && Within(realized) && Within(cash)
    requires Whole28(gross - costs) >= 0
    requires Whole28(basis - removed) >= 0
    requires 0 <= Whole28(cash + Whole28(gross - costs)) && Within(Whole28(cash + Whole28(gross - costs)))
    requires Within(Whole28(realized + Whole28(Whole28(gross - costs) - removed)))
    ensures Whole28(cash + Whole28(gross - costs)) == cash + gross - costs
    ensures Whole28(basis - removed) == basis - removed
    ensures Whole28(realized + Whole28(Whole28(gross - costs) - removed)) == realized + gross - costs - removed
  {
    hide Whole28;
    var proceeds := Whole28(gross - costs);
    WithinExact(cash + proceeds);
    WithinExact(gross - costs);
    Whole28Sign(basis - removed);
    WithinExact(basis - removed);
    WithinExact(proceeds - removed);
    WithinExact(realized + (proceeds - removed));
  }

  /** What a caller can read before booking: the figures and the fill's own value together stay below 10^10 dollars. */
  predicate RoomFor(position: Position, fill: ExecutionResult, cash: nat) {
    var gross := FillGross(fill.quantity, fill.executionPrice);
    && Within(cash + gross) && Within(position.costBasisUsd + gross + fill.feesUsd)
    && -EXACT28 < position.realizedPnlUsd - position.costBasisUsd && position.realizedPnlUsd + gross < EXACT28
  }

  lemma FillStaysWithin(position: Position, fill: ExecutionResult, cash: nat)
    requires ApplyFill(position, fill, cash).Success? && Honest(fill) && RoomFor(position, fill, cash)
    ensures PositionWithin(position) && Within(cash)
    ensures var booking := ApplyFill(position, fill, cash).value;
            PositionWithin(booking.position) && 0 <= booking.cash && Within(booking.cash)
  {
    hide Whole28, RemovedBasis, FillGross;
    var gross, fees := FillGross(fill.quantity, fill.executionPrice), fill.feesUsd;
    GrossNonNegative(fill.quantity, fill.executionPrice);
    Whole28Exact(fees);
    if fill.side == BUY {
      Whole28Decides(gross + fees, cash);
      Whole28Exact(if gross + fees <= cash then gross + fees else 0);
      Whole28Exact(if gross + fees <= cash then cash - (gross + fees) else 0);
      Whole28Exact(position.costBasisUsd + gross);
      Whole28Exact(position.costBasisUsd + gross + fees);
      Whole28Exact(position.realizedPnlUsd);
    } else {
      var removed := RemovedBasis(position.costBasisUsd, fill.quantity, position.quantity);
      RemovedNonNegative(position.costBasisUsd, fill.quantity, position.quantity);
      Whole28Exact(gross - fees);
      Whole28Exact(cash + (gross - fees));
      Whole28Sign(position.costBasisUsd - removed);
      SaleFiguresWithin(position.costBasisUsd, position.realizedPnlUsd, gross - fees, removed);
    }
  }

  lemma SaleFiguresWithin(basis: nat, realized: int, proceeds: nat, removed: nat)
    requires removed <= basis < EXACT28 && proceeds < EXACT28
    requires -EXACT28 < realized - basis && realized + proceeds < EXACT28
    ensures Whole28(basis - removed) == basis - removed
    ensures Within(Whole28(realized + Whole28(proceeds - removed)))
  {
    hide Whole28;
    Whole28Exact(basis - removed);
    Whole28Exact(proceeds - removed);
    Whole28Exact(realized + (proceeds - removed));
  }

  /** Conservation on figures known before the booking. */
  lemma FillConservesWithRoom(position: Position, fill: ExecutionResult, cash: nat)
    requires ApplyFill(position, fill, cash).Success? && Honest(fill) && RoomFor(position, fill, cash)
    ensures AtCost(ApplyFill(position, fill, cash).value.position, ApplyFill(position, fill, cash).value.cash)
            == AtCost(position, cash)
  {
    hide ApplyFill, RoomFor;
    FillStaysWithin(position, fill, cash);
    FillConserves(position, fill, cash);
  }

  // ------------------------------------------------------------------------- what a fill may reach

  /** Nine hundred million dollars less a quantum: up to here two 28-digit roundings cannot cross half a quantum. */
  const EXACT_BASIS: int := 899_999_999_999_999_999_999_999_999

  /** Half a unit in the 28th digit, relative to the value: the most one rounding moves it. */
  function HalfUp(x: real): real {
    x * 1.0000000000000000000000000005
  }

  function HalfDown(x: real): real {
    x * 0.9999999999999999999999999995
  }

  lemma SigWithinHalf(x: real)
    requires x >= 0.0
    ensures HalfDown(x) <= Sig(LEAD28, x) <= HalfUp(x)
  {
    hide Sig;
    SigError(LEAD28, x);
  }

  /** Below 10^9 dollars the 28th digit is at least a tenth of a quantum: the rounding moves half of that. */
  lemma SigWithinTwentieth(x: real)
    requires 0.0 <= x < LEAD28 as real
    ensures x - 0.05 <= Sig(LEAD28, x) <= x + 0.05
  {
    if x * 10.0 >= LEAD28 as real {
      SigShift(LEAD28, x);
      QuantizeError(x * 10.0);
    } else {
      hide Sig;
      SigError(LEAD28, x);
    }
  }

  /**
   A sale never releases more basis than is held, and a full close releases all of it, for a basis of less
   than nine hundred million dollars.
   */
  lemma RemovedWithinBasis(basis: nat, sold: nat, held: nat)
    requires 0 < sold <= held && basis <= EXACT_BASIS
    ensures 0 <= RemovedBasis(basis, sold, held) <= basis
    ensures sold == held ==> RemovedBasis(basis, sold, held) == basis
  {
    hide Sig;
    RemovedNonNegative(basis, sold, held);
    var x, tokens := Product(basis, sold), held as real / UNIT as real;
    assert x >= 0.0 by { assert basis * sold >= 0; }
    SigWithinHalf(x);
    var kept := Sig(LEAD28, x);
    ShareOfBasis(basis, sold, held, kept, x);
    var share := kept / tokens;
    SigWithinTwentieth(share);
    QuantizeBound(Sig(LEAD28, share), basis);
    if sold == held {
      QuantizeNearest(Sig(LEAD28, share), basis);
    }
  }

  lemma ShareOfBasis(basis: nat, sold: nat, held: nat, kept: real, x: real)
    requires 0 < sold <= held && x == Product(basis, sold)
    requires 0.0 <= kept && HalfDown(x) <= kept <= HalfUp(x)
    ensures var share := kept / (held as real / UNIT as real);
            && 0.0 <= share <= HalfUp(basis as real)
            && (sold == held ==> HalfDown(basis as real) <= share)
  {
    var tokens, parts := held as real / UNIT as real, sold as real / UNIT as real;
    ProductOfTokens(sold, basis);
    assert Product(basis, sold) == Product(sold, basis) by { assert basis * sold == sold * basis; }
    QuotientTimes(kept, tokens);
    ShareAtMostBasis(basis as real, parts, tokens, kept, x, kept / tokens);
    if sold == held {
      ShareAtLeastBasis(basis as real, tokens, kept, x, kept / tokens);
    }
  }

  lemma QuotientTimes(x: real, y: real)
    requires x >= 0.0 && y > 0.0
    ensures x / y >= 0.0 && x / y * y == x
  {
  }

  lemma ShareAtMostBasis(basis: real, parts: real, tokens: real, kept: real, x: real, share: real)
    requires basis >= 0.0 && 0.0 < parts <= tokens
    requires x == Times(parts, basis) && kept <= HalfUp(x)
    requires share * tokens == kept
    ensures share <= HalfUp(basis)
  {
    TimesMonotone(parts, tokens, basis);
    var whole := tokens * basis;
    assert HalfUp(basis) * tokens == HalfUp(whole);
    CancelRight(share, HalfUp(basis), tokens);
  }

  lemma ShareAtLeastBasis(basis: real, tokens: real, kept: real, x: real, share: real)
    requires basis >= 0.0 && 0.0 < tokens
    requires x == Times(tokens, basis) && HalfDown(x) <= kept
    requires share * tokens == kept
    ensures HalfDown(basis) <= share
  {
    assert HalfDown(basis) * tokens == HalfDown(x);
    CancelRight(HalfDown(basis), share, tokens);
  }

  lemma CancelRight(x: real, y: real, z: real)
    requires x * z <= y * z && z > 0.0
    ensures x <= y
  {
    assert (x - y) * z == x * z - y * z;
    SignOfFactor(x - y, z);
  }

  /** A position that holds nothing costs nothing. */
  predicate Sound(position: Position) {
    position.quantity == 0 ==> position.costBasisUsd == 0
  }

  /**
   Booking a fill keeps cash non-negative, a sale empties a position exactly when it sells all of it, and no
   basis is left on an empty position, as far as its basis is less than nine hundred million dollars.
   */
  lemma FillKeepsSound(position: Position, fill: ExecutionResult, cash: nat)
    requires ApplyFill(position, fill, cash).Success? && Honest(fill)
    ensures var booking := ApplyFill(position, fill, cash).value;
            && booking.cash >= 0
            && (fill.side == BUY ==> booking.position.quantity > 0)
            && (fill.side == SELL ==> (booking.position.quantity == 0 <==> fill.quantity == position.quantity))
            && (position.costBasisUsd <= EXACT_BASIS ==>
                  Sound(booking.position) && (fill.side == SELL ==> booking.position.costBasisUsd <= position.costBasisUsd))
  {
    hide Whole28, RemovedBasis, FillGross;
    var gross := FillGross(fill.quantity, fill.executionPrice);
    if fill.side == BUY {
      Whole28Sign(cash - Whole28(gross + Whole28(fill.feesUsd)));
      Whole28Sign(position.quantity + fill.quantity);
    } else {
      ProceedsNonNegative(fill.quantity, fill.executionPrice, fill.feesUsd);
      Whole28Sign(cash + Whole28(gross - Whole28(fill.feesUsd)));
      Whole28Sign(position.quantity - fill.quantity);
      if position.costBasisUsd <= EXACT_BASIS {
        RemovedWithinBasis(position.costBasisUsd, fill.quantity, position.quantity);
        Whole28Exact(position.costBasisUsd - RemovedBasis(position.costBasisUsd, fill.quantity, position.quantity));
      }
    }
  }

  /** The accounting never stands in the way of an exit: every covered sale of moderate size is booked. */
  lemma SaleIsBooked(position: Position, fill: ExecutionResult, cash: nat)
    requires position.assetId == fill.assetId && fill.side == SELL && fill.quantity <= position.quantity
    requires Honest(fill) && FillGross(fill.quantity, fill.executionPrice) < EXACT28
    requires position.costBasisUsd <= EXACT_BASIS && Within(position.realizedPnlUsd)
    requires position.quantity <= LEDGER_BOUND / 10
    ensures ApplyFill(position, fill, cash).Success?
  {
    hide Whole28, RemovedBasis, FillGross;
    var gross := FillGross(fill.quantity, fill.executionPrice);
    var removed := RemovedBasis(position.costBasisUsd, fill.quantity, position.quantity);
    RemovedWithinBasis(position.costBasisUsd, fill.quantity, position.quantity);
    GrossNonNegative(fill.quantity, fill.executionPrice);
    Whole28Exact(fill.feesUsd);
    Whole28Exact(gross - fill.feesUsd);
    Whole28Exact(position.costBasisUsd - removed);
    Whole28Exact(gross - fill.feesUsd - removed);
    var total := position.realizedPnlUsd + (gross - fill.feesUsd - removed);
    Whole28Decides(position.quantity - fill.quantity, 0);
    WholeFits(total);
    WholeFits(position.quantity - fill.quantity);
  }

  /** A tenth of the ledger's range stays inside it whatever the rounding. */
  lemma WholeFits(n: int)
    requires -LEDGER_BOUND / 10 <= n <= LEDGER_BOUND / 10
    ensures IsSigned(Whole28(n))
  {
    hide Sig;
    TenthKept();
    var tenth := (LEDGER_BOUND / 10) as real;
    SigOdd(LEAD28, tenth);
    SigMonotone(LEAD28, n as real, tenth);
    SigMonotone(LEAD28, -tenth, n as real);
  }

  lemma TenthKept()
    ensures Sig(LEAD28, (LEDGER_BOUND / 10) as real) == (LEDGER_BOUND / 10) as real
  {
    hide Sig;
    assert TenTo(9) == 1_000_000_000;
    ShiftedTimes(EXACT28 as real, 9);
    SigWhole(LEAD28, EXACT28);
    SigShiftBy(LEAD28, EXACT28 as real, 9);
  }

  // ------------------------------------------------------------------------ where 28 digits run out

  /** 900.01 million dollars of basis for 0.0000111 tokens, each of 28 digits or fewer. */
  const CLOSE_BASIS: int := 900_013_147_934_043_938_068_249_225
  const CLOSE_QUANTITY: int := 11_110_948_793_309

  /** The product of the two rounds up by just under half a unit in its last digit. */
  lemma CloseProduct()
    ensures Sig(LEAD28, Product(CLOSE_BASIS, CLOSE_QUANTITY)) == 10_000_000_000_000_000_000_000.00006
  {
    hide Sig;
    var x := Product(CLOSE_BASIS, CLOSE_QUANTITY);
    assert TenTo(5) == 100_000;
    ShiftedTimes(x, 5);
    SigAt(LEAD28, x, 5, x * 100_000.0);
    ShiftedTimes(Sig(LEAD28, x), 5);
    assert Quantize(x * 100_000.0) == 1_000_000_000_000_000_000_000_000_006;
  }

  /** The quotient then lies above the basis by enough for one decimal to make it the half. */
  lemma CloseQuotient()
    ensures Sig(LEAD28, 10_000_000_000_000_000_000_000.00006 / (CLOSE_QUANTITY as real / UNIT as real))
            == CLOSE_BASIS as real + 0.5
  {
    hide Sig;
    var share := 10_000_000_000_000_000_000_000.00006 / (CLOSE_QUANTITY as real / UNIT as real);
    assert Shifted(share, 1) == share * 10.0;
    assert Quantize(share * 10.0) == 10 * CLOSE_BASIS + 5;
    SigAt(LEAD28, share, 1, share * 10.0);
    assert Shifted(Sig(LEAD28, share), 1) == Sig(LEAD28, share) * 10.0;
  }

  /** Selling all of such a holding releases one quantum more basis than it has, and the booking raises. */
  lemma LargeCloseRefused(position: Position, fill: ExecutionResult, cash: nat)
    requires position.assetId == fill.assetId && fill.side == SELL
    requires position.quantity == CLOSE_QUANTITY == fill.quantity && position.costBasisUsd == CLOSE_BASIS
    ensures RemovedBasis(CLOSE_BASIS, CLOSE_QUANTITY, CLOSE_QUANTITY) == CLOSE_BASIS + 1
    ensures ApplyFill(position, fill, cash) == Failure(ValidationError)
  {
    hide Sig, FillGross, Whole28;
    CloseProduct();
    CloseQuotient();
    Whole28Sign(position.costBasisUsd - RemovedBasis(CLOSE_BASIS, CLOSE_QUANTITY, CLOSE_QUANTITY));
  }

  /** Adding one quantum to a basis of 10^10 dollars: the cash is spent and the basis does not move. */
  lemma QuantumLost(position: Position, fill: ExecutionResult)
    requires position.assetId == fill.assetId && fill.side == BUY
    requires position.costBasisUsd == EXACT28 && position.quantity == UNIT && position.realizedPnlUsd == 0
    requires fill.quantity == 1 && fill.executionPrice == UNIT && fill.feesUsd == 0 && fill.gasUsd == 0
    ensures ApplyFill(position, fill, 5).Success?
    ensures var booking := ApplyFill(position, fill, 5).value;
            AtCost(booking.position, booking.cash) == AtCost(position, 5) - 1
  {
    hide Sig, Whole28;
    assert Product(1, UNIT) == 1.0;
    SigWhole(LEAD28, 1);
    QuantizeWhole(1);
    Whole28Exact(0);
    Whole28Exact(1);
    Whole28Exact(4);
    Whole28Exact(UNIT + 1);
    Whole28Exact(EXACT28);
    OneBeyond();
  }

  lemma OneBeyond()
    ensures Whole28(EXACT28 + 1) == EXACT28
  {
    hide Sig;
    SigShift(LEAD28, LEAD28 as real + 0.1);
    SigJustAbove();
  }

  lemma SigJustAbove()
    ensures Sig(LEAD28, LEAD28 as real + 0.1) == LEAD28 as real
  {
  }
}
