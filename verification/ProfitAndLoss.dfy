/**
 The profit-and-loss snapshot a fill leaves behind.  Every sum is folded left to right in the 28-digit
 context; a held asset without a price is an error, never worth zero.
 */
module ProfitAndLoss {
  import opened Numbers
  import opened Wrappers
  import opened Contracts
  import opened Accounting
  import opened Portfolio

  function MarketValue(positions: seq<Position>, prices: map<string, MarketPrice>): Result<real, Error> {
    if positions == [] then Success(0.0)
    else
      var last := positions[|positions| - 1];
      var value :- MarketValue(positions[..|positions| - 1], prices);
      if last.quantity == 0 then Success(value)
      else if last.assetId !in prices then Failure(MissingMark)
      else Success(Sig(LEAD28, value + Sig(LEAD28, Worth(last, prices[last.assetId]))))
  }

  function Basis28(positions: seq<Position>): int {
    if positions == [] then 0
    else Whole28(Basis28(positions[..|positions| - 1]) + positions[|positions| - 1].costBasisUsd)
  }

  function Realized28(positions: seq<Position>): int {
    if positions == [] then 0
    else Whole28(Realized28(positions[..|positions| - 1]) + positions[|positions| - 1].realizedPnlUsd)
  }

  function CalculatePnl(positions: seq<Position>, prices: map<string, MarketPrice>, cash: int, feesPaid: int)
    : Result<PnLSnapshot, Error>
  {
    var marked :- MarketValue(positions, prices);
    var value, basis, realized := Quantize(marked), Basis28(positions), Realized28(positions);
    var unrealized, equity := Whole28(value - basis), Whole28(cash + value);
    var total := Whole28(realized + unrealized);
    if && IsAmount(cash) && IsAmount(value) && IsAmount(equity) && IsAmount(feesPaid)
       && IsSigned(realized) && IsSigned(unrealized) && IsSigned(total)
    then Success(PnLSnapshot(cash, value, equity, realized, unrealized, total, feesPaid))
    else Failure(ValidationError)
  }

  /** Every lookup succeeds exactly when every non-empty holding has a price. */
  lemma {:induction false} LookupsDefined(positions: seq<Position>, prices: map<string, MarketPrice>)
    ensures MarketValue(positions, prices).Success?
            <==> forall h :: h in positions && h.quantity != 0 ==> h.assetId in prices
    ensures MarketValue(positions, prices).Failure? ==> MarketValue(positions, prices).error == MissingMark
  {
    hide Sig, Worth;
    if positions != [] {
      LookupsDefined(positions[..|positions| - 1], prices);
      assert positions == positions[..|positions| - 1] + [positions[|positions| - 1]];
    }
  }

  // ------------------------------------------------------------------------------------ exact sums

  function BasisHeld(positions: seq<Position>): nat {
    if positions == [] then 0
    else BasisHeld(positions[..|positions| - 1]) + positions[|positions| - 1].costBasisUsd
  }

  function RealizedSum(positions: seq<Position>): int {
    if positions == [] then 0
    else RealizedSum(positions[..|positions| - 1]) + positions[|positions| - 1].realizedPnlUsd
  }

  function Magnitude(n: int): nat {
    if n < 0 then -n else n
  }

  /** All that was ever gained or lost, signs disregarded. */
  function Turnover(positions: seq<Position>): nat {
    if positions == [] then 0
    else Turnover(positions[..|positions| - 1]) + Magnitude(positions[|positions| - 1].realizedPnlUsd)
  }

  lemma {:induction false} SumsExact(positions: seq<Position>)
    requires Within(BasisHeld(positions)) && Within(Turnover(positions))
    ensures Basis28(positions) == BasisHeld(positions)
    ensures Realized28(positions) == RealizedSum(positions)
    ensures Magnitude(RealizedSum(positions)) <= Turnover(positions)
  {
    hide Whole28;
    if positions != [] {
      SumsExact(positions[..|positions| - 1]);
      WithinExact(BasisHeld(positions));
      WithinExact(RealizedSum(positions));
    }
  }

  predicate SnapshotWithin(snapshot: PnLSnapshot) {
    && Within(snapshot.marketValueUsd) && Within(snapshot.equityUsd)
    && Within(snapshot.unrealizedPnlUsd) && Within(snapshot.totalPnlUsd)
  }

  /** What the account holds at cost net of what it has realised; conservation keeps it constant. */
  function AccountAtCost(positions: seq<Position>, cash: int): int {
    cash + BasisHeld(positions) - RealizedSum(positions)
  }

  /**
   A snapshot balances: equity is what the account holds at cost plus the total result, however the
   holdings are marked.
   */
  lemma SnapshotBalances(positions: seq<Position>, prices: map<string, MarketPrice>, cash: int, feesPaid: int)
    requires CalculatePnl(positions, prices, cash, feesPaid).Success?
    requires Within(BasisHeld(positions)) && Within(Turnover(positions))
    requires SnapshotWithin(CalculatePnl(positions, prices, cash, feesPaid).value)
    ensures var snapshot := CalculatePnl(positions, prices, cash, feesPaid).value;
            snapshot.equityUsd == AccountAtCost(positions, cash) + snapshot.totalPnlUsd
  {
    hide Whole28, MarketValue, Quantize;
    SumsExact(positions);
    var value := Quantize(MarketValue(positions, prices).value);
    WithinExact(value - BasisHeld(positions));
    WithinExact(cash + value);
    WithinExact(RealizedSum(positions) + (value - BasisHeld(positions)));
  }
}
