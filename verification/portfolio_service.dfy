/**
 * The mock portfolio service (`src/services/portfolioService.ts`): an in-memory table of
 * portfolios that the service mutates in place. Ids, dates and timestamps that the
 * source takes from the clock are parameters here.
 */
module PortfolioService {
  import opened Common
  import opened Types
  import opened Positions

  /** What `addPosition` and `updatePosition` resolve to: `{ portfolioId, position }`. */
  datatype PositionChange = PositionChange(portfolioId: string, position: Position)

  /** The service's cost-basis percentage: total gain over total cost, 0 without a positive cost. */
  function CostBasisPercent(ps: seq<Position>): (r: real)
    ensures TotalCost(ps) > 0.0 ==> r * TotalCost(ps) == TotalGainLoss(ps) * 100.0
    ensures TotalCost(ps) <= 0.0 ==> r == 0.0
  {
    var cost := TotalCost(ps);
    if cost > 0.0 then TotalGainLoss(ps) / cost * 100.0 else 0.0
  }

  /** Stored totals that agree with the positions, as `updatePortfolioTotals` leaves them. */
  predicate TotalsCurrent(p: Portfolio)
  {
    && p.totalValue == TotalValue(p.positions)
    && p.totalGainLoss == TotalGainLoss(p.positions)
    && p.totalGainLossPercent == CostBasisPercent(p.positions)
  }

  /** `updatePortfolioTotals`: recompute the three totals and stamp `updatedAt`. */
  function WithTotals(p: Portfolio, now: string): (r: Portfolio)
    ensures TotalsCurrent(r)
    ensures r.positions == p.positions && r.updatedAt == now
    ensures r.id == p.id && r.name == p.name && r.createdAt == p.createdAt
  {
    p.(totalValue := TotalValue(p.positions),
       totalGainLoss := TotalGainLoss(p.positions),
       totalGainLossPercent := CostBasisPercent(p.positions),
       updatedAt := now)
  }

  /** The record `addPosition` builds: bought at `price`, so no gain yet. */
  function NewPosition(id: string, symbol: string, quantity: real, price: real, today: string): (r: Position)
    ensures Consistent(r)
    ensures r.id == id && r.symbol == symbol && r.quantity == quantity && r.purchaseDate == today
    ensures r.averagePrice == price && r.currentPrice == price
    ensures r.totalValue == quantity * price && r.gainLoss == 0.0 && r.gainLossPercent == 0.0
  {
    Position(id, symbol, quantity, price, price, quantity * price, 0.0, 0.0, today)
  }

  /** JavaScript computes `0 / 0` here (a NaN percentage), which exact reals cannot represent. */
  predicate RepriceDividesByZero(quantity: real, price: real)
  {
    price > 0.0 && quantity == 0.0
  }

  /**
   * The field assignments of `updatePosition`: new quantity and cost basis, value at the
   * unchanged current price, gain against the new cost basis.
   */
  function Repriced(pos: Position, quantity: real, price: real): (r: Position)
    requires !RepriceDividesByZero(quantity, price)
    ensures Consistent(r)
    ensures r.quantity == quantity && r.averagePrice == price && r.currentPrice == pos.currentPrice
    ensures r.id == pos.id && r.symbol == pos.symbol && r.purchaseDate == pos.purchaseDate
    ensures price > 0.0 ==> r.gainLossPercent * (quantity * price) == r.gainLoss * 100.0
    ensures price <= 0.0 ==> r.gainLossPercent == 0.0
  {
    var value := quantity * pos.currentPrice;
    var gain := value - quantity * price;
    pos.(quantity := quantity,
         averagePrice := price,
         totalValue := value,
         gainLoss := gain,
         gainLossPercent := if price > 0.0 then gain / (quantity * price) * 100.0 else 0.0)
  }

  /** Whether `updatePosition` reaches its division with a zero divisor. */
  predicate UpdateDividesByZero(ps: seq<Portfolio>, portfolioId: string, positionId: string, quantity: real, price: real)
  {
    && PortfolioIndex(ps, portfolioId).Some?
    && PositionIndex(ps[PortfolioIndex(ps, portfolioId).value].positions, positionId).Some?
    && RepriceDividesByZero(quantity, price)
  }

  /** The record the service starts with (its `updatedAt` is the construction time). */
  function SeedPortfolio(now: string): Portfolio
  {
    Portfolio("1", "My Portfolio", 25000.0, 2500.0, 11.11,
      [ Position("1", "AAPL", 50.0, 150.00, 175.43, 8771.50, 1271.50, 16.95, "2024-01-15"),
        Position("2", "GOOGL", 5.0, 2800.00, 2847.63, 14238.15, 238.15, 1.70, "2024-02-01") ],
      "2024-01-01T00:00:00Z", now)
  }

  /** Every position of the seed record is consistent in itself ... */
  lemma SeedPositionsConsistent(now: string)
    ensures AllConsistent(SeedPortfolio(now).positions)
  {
  }

  /** ... but its stored totals are not the sums of its positions. */
  lemma SeedTotalsStale(now: string)
    ensures TotalValue(SeedPortfolio(now).positions) == 23009.65
    ensures TotalGainLoss(SeedPortfolio(now).positions) == 1509.65
    ensures !TotalsCurrent(SeedPortfolio(now))
  {
    var ps := SeedPortfolio(now).positions;
    assert ps[1..][1..] == [];
  }

  /**
   * After adding a position the recomputed value total is the old positions' sum plus
   * quantity times price, and the recomputed gain total is the old gain sum. The stored
   * totals move by exactly that only when they were current before.
   */
  lemma AddPositionTotals(p: Portfolio, id: string, symbol: string, quantity: real, price: real, today: string, now: string)
    ensures var q := WithTotals(p.(positions := p.positions + [NewPosition(id, symbol, quantity, price, today)]), now);
      && q.totalValue == TotalValue(p.positions) + quantity * price
      && q.totalGainLoss == TotalGainLoss(p.positions)
    ensures TotalsCurrent(p) ==>
      var q := WithTotals(p.(positions := p.positions + [NewPosition(id, symbol, quantity, price, today)]), now);
      q.totalValue == p.totalValue + quantity * price && q.totalGainLoss == p.totalGainLoss
  {
    TotalsAppend(p.positions, NewPosition(id, symbol, quantity, price, today));
  }

  /**
   * After removing, the recomputed totals are the old positions' sums less the removed
   * positions' figures. The stored totals drop by exactly that only when they were current.
   */
  lemma RemovePositionTotals(p: Portfolio, positionId: string, now: string)
    ensures var q := WithTotals(p.(positions := WithoutPosition(p.positions, positionId)), now);
      && q.totalValue == TotalValue(p.positions) - TotalValue(Filter(p.positions, HasPositionId(positionId)))
      && q.totalGainLoss == TotalGainLoss(p.positions) - TotalGainLoss(Filter(p.positions, HasPositionId(positionId)))
    ensures TotalsCurrent(p) ==>
      var q := WithTotals(p.(positions := WithoutPosition(p.positions, positionId)), now);
      && q.totalValue == p.totalValue - TotalValue(Filter(p.positions, HasPositionId(positionId)))
      && q.totalGainLoss == p.totalGainLoss - TotalGainLoss(Filter(p.positions, HasPositionId(positionId)))
  {
    TotalsWithout(p.positions, positionId);
  }

  /**
   * Removing an id no position carries keeps the positions, and keeps the totals exactly
   * when they were already current: the recompute still runs.
   */
  lemma RemoveAbsentPosition(p: Portfolio, positionId: string, now: string)
    requires PositionIndex(p.positions, positionId).None?
    ensures var q := WithTotals(p.(positions := WithoutPosition(p.positions, positionId)), now);
      && q.positions == p.positions
      && ((q.totalValue, q.totalGainLoss, q.totalGainLossPercent) == (p.totalValue, p.totalGainLoss, p.totalGainLossPercent)
          <==> TotalsCurrent(p))
  {
    WithoutAbsentPosition(p.positions, positionId);
  }

  /** On the seed record, removing an unknown position still rewrites the stored value total. */
  lemma SeedRemoveAbsentChangesTotals(now: string)
    ensures var seed := SeedPortfolio(now);
      var q := WithTotals(seed.(positions := WithoutPosition(seed.positions, "3")), now);
      q.positions == seed.positions && q.totalValue == 23009.65 && q.totalValue != seed.totalValue
  {
    var seed := SeedPortfolio(now);
    WithoutAbsentPosition(seed.positions, "3");
    SeedTotalsStale(now);
  }

  /** After a recompute over consistent positions the gain total is value less cost. */
  lemma ConsistentRecompute(p: Portfolio, now: string)
    requires AllConsistent(p.positions)
    ensures WithTotals(p, now).totalGainLoss == WithTotals(p, now).totalValue - TotalCost(p.positions)
  {
    ConsistentTotals(p.positions);
  }

  /** `class PortfolioService`: the table of portfolios the service owns. */
  class Service {
    var portfolios: seq<Portfolio>

    /** Every stored position is consistent in itself; the seed and every operation keep this. */
    ghost predicate Valid()
      reads this
    {
      forall i :: 0 <= i < |portfolios| ==> AllConsistent(portfolios[i].positions)
    }

    constructor (now: string)
      ensures Valid()
      ensures portfolios == [SeedPortfolio(now)]
    {
      portfolios := [SeedPortfolio(now)];
      SeedPositionsConsistent(now);
    }

    /** `getPortfolios`: the table as it stands. */
    method GetPortfolios() returns (r: seq<Portfolio>)
      ensures r == portfolios
    {
      r := portfolios;
    }

    /**
     * `createPortfolio`: append an empty portfolio whose totals are zero. The source reads
     * the clock once for each stamp, so the two need not be equal.
     */
    method CreatePortfolio(name: string, id: string, createdAt: string, updatedAt: string) returns (created: Portfolio)
      requires Valid()
      modifies this
      ensures Valid()
      ensures created == Portfolio(id, name, 0.0, 0.0, 0.0, [], createdAt, updatedAt)
      ensures TotalsCurrent(created)
      ensures portfolios == old(portfolios) + [created]
    {
      created := Portfolio(id, name, 0.0, 0.0, 0.0, [], createdAt, updatedAt);
      portfolios := portfolios + [created];
    }

    /** `addPosition`: append a freshly bought position to the first portfolio with the id, then recompute. */
    method AddPosition(portfolioId: string, symbol: string, quantity: real, price: real,
                       id: string, today: string, now: string)
      returns (r: Result<PositionChange>)
      requires Valid()
      modifies this
      ensures Valid()
      ensures PortfolioIndex(old(portfolios), portfolioId).None? ==>
        r == Err("Portfolio not found") && portfolios == old(portfolios)
      ensures PortfolioIndex(old(portfolios), portfolioId).Some? ==>
        var i := PortfolioIndex(old(portfolios), portfolioId).value;
        var added := NewPosition(id, symbol, quantity, price, today);
        && r == Ok(PositionChange(portfolioId, added))
        && portfolios == old(portfolios)[i := WithTotals(old(portfolios)[i].(positions := old(portfolios)[i].positions + [added]), now)]
    {
      var found := PortfolioIndex(portfolios, portfolioId);
      if found.None? {
        return Err("Portfolio not found");
      }
      var i := found.value;
      var position := NewPosition(id, symbol, quantity, price, today);
      var portfolio := portfolios[i];
      portfolio := portfolio.(positions := portfolio.positions + [position]);
      portfolio := WithTotals(portfolio, now);
      portfolios := portfolios[i := portfolio];
      r := Ok(PositionChange(portfolioId, position));
    }

    /**
     * `updatePosition`: reprice the first position with the id inside the first portfolio
     * with the id, then recompute that portfolio's totals.
     */
    method UpdatePosition(portfolioId: string, positionId: string, quantity: real, price: real, now: string)
      returns (r: Result<PositionChange>)
      requires Valid()
      requires !UpdateDividesByZero(portfolios, portfolioId, positionId, quantity, price)
      modifies this
      ensures Valid()
      ensures PortfolioIndex(old(portfolios), portfolioId).None? ==>
        r == Err("Portfolio not found") && portfolios == old(portfolios)
      ensures PortfolioIndex(old(portfolios), portfolioId).Some? ==>
        var i := PortfolioIndex(old(portfolios), portfolioId).value;
        var positions := old(portfolios)[i].positions;
        match PositionIndex(positions, positionId)
        case None => r == Err("Position not found") && portfolios == old(portfolios)
        case Some(j) =>
          var updated := Repriced(positions[j], quantity, price);
          && r == Ok(PositionChange(portfolioId, updated))
          && portfolios == old(portfolios)[i := WithTotals(old(portfolios)[i].(positions := positions[j := updated]), now)]
    {
      var found := PortfolioIndex(portfolios, portfolioId);
      if found.None? {
        return Err("Portfolio not found");
      }
      var i := found.value;
      var portfolio := portfolios[i];
      var at := PositionIndex(portfolio.positions, positionId);
      if at.None? {
        return Err("Position not found");
      }
      var j := at.value;
      var position := Repriced(portfolio.positions[j], quantity, price);
      portfolio := portfolio.(positions := portfolio.positions[j := position]);
      portfolio := WithTotals(portfolio, now);
      portfolios := portfolios[i := portfolio];
      r := Ok(PositionChange(portfolioId, position));
    }

    /** `removePosition`: drop every position with the id from the first portfolio with the id, then recompute. */
    method RemovePosition(portfolioId: string, positionId: string, now: string) returns (r: Result<()>)
      requires Valid()
      modifies this
      ensures Valid()
      ensures PortfolioIndex(old(portfolios), portfolioId).None? ==>
        r == Err("Portfolio not found") && portfolios == old(portfolios)
      ensures PortfolioIndex(old(portfolios), portfolioId).Some? ==>
        var i := PortfolioIndex(old(portfolios), portfolioId).value;
        && r == Ok(())
        && portfolios == old(portfolios)[i := WithTotals(old(portfolios)[i].(positions := WithoutPosition(old(portfolios)[i].positions, positionId)), now)]
    {
      var found := PortfolioIndex(portfolios, portfolioId);
      if found.None? {
        return Err("Portfolio not found");
      }
      var i := found.value;
      var portfolio := portfolios[i];
      var kept := WithoutPosition(portfolio.positions, positionId);
      forall j | 0 <= j < |kept| ensures Consistent(kept[j]) {
        assert kept[j] in portfolio.positions;
      }
      portfolio := WithTotals(portfolio.(positions := kept), now);
      portfolios := portfolios[i := portfolio];
      r := Ok(());
    }
  }
}
