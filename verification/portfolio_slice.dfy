/**
 * The portfolio slice of the store (`src/store/slices/portfolioSlice.ts`). Its reducers
 * mutate a draft of the slice state; the draft is copied on write, so the portfolio list
 * and `currentPortfolio` are separate values here (which is why `updatePortfolioValues`
 * assigns `currentPortfolio` again).
 */
module PortfolioSlice {
  import opened Common
  import opened Types
  import opened Positions
  import PortfolioService

  /** JavaScript divides by zero (an infinite percentage) when the value total equals the gain total. */
  predicate SlicePercentDividesByZero(ps: seq<Position>)
  {
    TotalValue(ps) > 0.0 && TotalValue(ps) == TotalGainLoss(ps)
  }

  /** The slice's percentage: gain over (value less gain), 0 unless the value total is positive. */
  function SlicePercent(ps: seq<Position>): (r: real)
    requires !SlicePercentDividesByZero(ps)
    ensures TotalValue(ps) > 0.0 ==> r * (TotalValue(ps) - TotalGainLoss(ps)) == TotalGainLoss(ps) * 100.0
    ensures TotalValue(ps) <= 0.0 ==> r == 0.0
  {
    var value := TotalValue(ps);
    var gain := TotalGainLoss(ps);
    if value > 0.0 then gain / (value - gain) * 100.0 else 0.0
  }

  /** The portfolio as `updatePortfolioValues` leaves it: new positions, their sums, the slice's percentage. */
  function Revalued(p: Portfolio, positions: seq<Position>, now: string): (r: Portfolio)
    requires !SlicePercentDividesByZero(positions)
    ensures r.positions == positions && r.updatedAt == now
    ensures r.totalValue == TotalValue(positions) && r.totalGainLoss == TotalGainLoss(positions)
    ensures r.totalGainLossPercent == SlicePercent(positions)
    ensures r.id == p.id && r.name == p.name && r.createdAt == p.createdAt
  {
    p.(positions := positions,
       totalValue := TotalValue(positions),
       totalGainLoss := TotalGainLoss(positions),
       totalGainLossPercent := SlicePercent(positions),
       updatedAt := now)
  }

  /**
   * Over consistent positions with a positive value and a positive cost, the slice's
   * formula and the service's recompute give the same portfolio.
   */
  lemma RevaluedAgreesWithService(p: Portfolio, positions: seq<Position>, now: string)
    requires AllConsistent(positions)
    requires TotalValue(positions) > 0.0 && TotalCost(positions) > 0.0
    ensures !SlicePercentDividesByZero(positions)
    ensures Revalued(p, positions, now) == PortfolioService.WithTotals(p.(positions := positions), now)
  {
    ConsistentTotals(positions);
  }

  /** A holding whose current price fell to zero: consistent, worth nothing, 10 below cost. */
  const WrittenDown: seq<Position> := [Position("1", "AAPL", 1.0, 10.0, 0.0, 0.0, -10.0, -100.0, "2024-01-15")]

  /** On `WrittenDown` the slice reports 0% and the service -100%. */
  lemma PercentsDisagree()
    ensures AllConsistent(WrittenDown)
    ensures !SlicePercentDividesByZero(WrittenDown) && SlicePercent(WrittenDown) == 0.0
    ensures PortfolioService.CostBasisPercent(WrittenDown) == -100.0
  {
    assert WrittenDown[1..] == [];
    assert PortfolioService.CostBasisPercent(WrittenDown) == -100.0 by {
      assert TotalGainLoss(WrittenDown) == -10.0;
      assert TotalCost(WrittenDown) == 10.0;
    }
    assert SlicePercent(WrittenDown) == 0.0 by {
      assert TotalValue(WrittenDown) == 0.0;
    }
  }

  /** A holding acquired at no cost: consistent, with value total equal to gain total. */
  const Gifted: seq<Position> := [Position("1", "AAPL", 1.0, 0.0, 5.0, 5.0, 5.0, 0.0, "2024-01-15")]

  /** On `Gifted` the slice's divisor is zero while the service reports 0%. */
  lemma ZeroCostDividesByZero()
    ensures AllConsistent(Gifted)
    ensures SlicePercentDividesByZero(Gifted)
    ensures PortfolioService.CostBasisPercent(Gifted) == 0.0
  {
    assert [] + [Gifted[0]] == Gifted;
    TotalsAppend([], Gifted[0]);
  }

  /** `addPosition.fulfilled` appends without recomputing: a current total goes stale. */
  lemma AppendLeavesTotalsStale(p: Portfolio, position: Position)
    requires PortfolioService.TotalsCurrent(p)
    requires position.totalValue != 0.0
    ensures !PortfolioService.TotalsCurrent(p.(positions := p.positions + [position]))
  {
    TotalsAppend(p.positions, position);
  }

  /** `PortfolioState`: the slice state, updated in place by its reducers. */
  class PortfolioState {
    var portfolios: seq<Portfolio>
    var currentPortfolio: Option<Portfolio>
    var loading: bool
    var error: Option<string>

    /** `initialState` */
    constructor ()
      ensures portfolios == [] && currentPortfolio == None && !loading && error == None
    {
      portfolios := [];
      currentPortfolio := None;
      loading := false;
      error := None;
    }

    /** `setCurrentPortfolio`: the first portfolio with the id, or none. */
    method SetCurrentPortfolio(id: string)
      modifies this
      ensures match PortfolioIndex(portfolios, id)
        case Some(i) => currentPortfolio == Some(portfolios[i])
        case None => currentPortfolio == None
      ensures portfolios == old(portfolios) && loading == old(loading) && error == old(error)
    {
      var found := PortfolioIndex(portfolios, id);
      if found.Some? {
        currentPortfolio := Some(portfolios[found.value]);
      } else {
        currentPortfolio := None;
      }
    }

    /** `clearError` */
    method ClearError()
      modifies this
      ensures error == None
      ensures portfolios == old(portfolios) && currentPortfolio == old(currentPortfolio) && loading == old(loading)
    {
      error := None;
    }

    /**
     * `updatePortfolioValues`: replace the positions of the first portfolio with the id and
     * recompute its totals with the slice's formula; refresh `currentPortfolio` when it
     * has that id.
     */
    method UpdatePortfolioValues(portfolioId: string, positions: seq<Position>, now: string)
      requires PortfolioIndex(portfolios, portfolioId).Some? ==> !SlicePercentDividesByZero(positions)
      modifies this
      ensures match PortfolioIndex(old(portfolios), portfolioId)
        case None =>
          portfolios == old(portfolios) && currentPortfolio == old(currentPortfolio)
        case Some(i) =>
          var updated := Revalued(old(portfolios)[i], positions, now);
          && portfolios == old(portfolios)[i := updated]
          && currentPortfolio ==
               if old(currentPortfolio).Some? && old(currentPortfolio).value.id == portfolioId
               then Some(updated) else old(currentPortfolio)
      ensures loading == old(loading) && error == old(error)
    {
      var found := PortfolioIndex(portfolios, portfolioId);
      if found.Some? {
        var i := found.value;
        var value := TotalValue(positions);
        var gain := TotalGainLoss(positions);
        var percent := if value > 0.0 then gain / (value - gain) * 100.0 else 0.0;
        var updated := portfolios[i].(positions := positions, totalValue := value, totalGainLoss := gain,
                                      totalGainLossPercent := percent, updatedAt := now);
        portfolios := portfolios[i := updated];
        if currentPortfolio.Some? && currentPortfolio.value.id == portfolioId {
          currentPortfolio := Some(updated);
        }
      }
    }

    /** `fetchPortfolios.pending` */
    method FetchPortfoliosPending()
      modifies this
      ensures loading && error == None
      ensures portfolios == old(portfolios) && currentPortfolio == old(currentPortfolio)
    {
      loading := true;
      error := None;
    }

    /**
     * `fetchPortfolios.fulfilled`: take the fetched list; select its first portfolio only
     * when none is selected. The error is left as it is.
     */
    method FetchPortfoliosFulfilled(payload: seq<Portfolio>)
      modifies this
      ensures !loading && portfolios == payload && error == old(error)
      ensures currentPortfolio ==
        if |payload| > 0 && old(currentPortfolio).None? then Some(payload[0]) else old(currentPortfolio)
    {
      loading := false;
      portfolios := payload;
      if |payload| > 0 && currentPortfolio.None? {
        currentPortfolio := Some(payload[0]);
      }
    }

    /** `fetchPortfolios.rejected`: the thunk's message, or the fixed fallback when it has none. */
    method FetchPortfoliosRejected(message: Option<string>)
      modifies this
      ensures !loading && error == Some(MessageOr(message, "Failed to fetch portfolios"))
      ensures error.Some? && error.value != ""
      ensures portfolios == old(portfolios) && currentPortfolio == old(currentPortfolio)
    {
      loading := false;
      error := Some(MessageOr(message, "Failed to fetch portfolios"));
    }

    /** `createPortfolio.fulfilled` */
    method CreatePortfolioFulfilled(payload: Portfolio)
      modifies this
      ensures portfolios == old(portfolios) + [payload]
      ensures currentPortfolio == old(currentPortfolio) && loading == old(loading) && error == old(error)
    {
      portfolios := portfolios + [payload];
    }

    /** `addPosition.fulfilled`: append to the first portfolio with the id; totals are not recomputed. */
    method AddPositionFulfilled(portfolioId: string, position: Position, now: string)
      modifies this
      ensures match PortfolioIndex(old(portfolios), portfolioId)
        case None => portfolios == old(portfolios)
        case Some(i) =>
          && portfolios == old(portfolios)[i := old(portfolios)[i].(positions := old(portfolios)[i].positions + [position], updatedAt := now)]
          && portfolios[i].totalValue == old(portfolios)[i].totalValue
          && portfolios[i].totalGainLoss == old(portfolios)[i].totalGainLoss
          && portfolios[i].totalGainLossPercent == old(portfolios)[i].totalGainLossPercent
      ensures currentPortfolio == old(currentPortfolio) && loading == old(loading) && error == old(error)
    {
      var found := PortfolioIndex(portfolios, portfolioId);
      if found.Some? {
        var i := found.value;
        var portfolio := portfolios[i];
        portfolios := portfolios[i := portfolio.(positions := portfolio.positions + [position], updatedAt := now)];
      }
    }

    /**
     * `updatePosition.fulfilled`: overwrite, at its index, the first position carrying the
     * payload's id; nothing happens when the portfolio or the position is unknown.
     */
    method UpdatePositionFulfilled(portfolioId: string, position: Position, now: string)
      modifies this
      ensures match PortfolioIndex(old(portfolios), portfolioId)
        case None => portfolios == old(portfolios)
        case Some(i) =>
          var positions := old(portfolios)[i].positions;
          match PositionIndex(positions, position.id)
          case None => portfolios == old(portfolios)
          case Some(j) =>
            && portfolios == old(portfolios)[i := old(portfolios)[i].(positions := positions[j := position], updatedAt := now)]
            && |portfolios[i].positions| == |positions|
            && forall k :: 0 <= k < |positions| && k != j ==> portfolios[i].positions[k] == positions[k]
      ensures currentPortfolio == old(currentPortfolio) && loading == old(loading) && error == old(error)
    {
      var found := PortfolioIndex(portfolios, portfolioId);
      if found.Some? {
        var i := found.value;
        var portfolio := portfolios[i];
        var at := PositionIndex(portfolio.positions, position.id);
        if at.Some? {
          portfolios := portfolios[i := portfolio.(positions := portfolio.positions[at.value := position], updatedAt := now)];
        }
      }
    }

    /** `removePosition.fulfilled`: drop every position with the id from the first portfolio with the id. */
    method RemovePositionFulfilled(portfolioId: string, positionId: string, now: string)
      modifies this
      ensures match PortfolioIndex(old(portfolios), portfolioId)
        case None => portfolios == old(portfolios)
        case Some(i) =>
          portfolios == old(portfolios)[i := old(portfolios)[i].(positions := WithoutPosition(old(portfolios)[i].positions, positionId), updatedAt := now)]
      ensures currentPortfolio == old(currentPortfolio) && loading == old(loading) && error == old(error)
    {
      var found := PortfolioIndex(portfolios, portfolioId);
      if found.Some? {
        var i := found.value;
        var portfolio := portfolios[i];
        portfolios := portfolios[i := portfolio.(positions := WithoutPosition(portfolio.positions, positionId), updatedAt := now)];
      }
    }
  }
}
