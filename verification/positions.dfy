/**
 * Queries over portfolios and positions that both the portfolio service and the
 * portfolio slice perform: lookup by id, removal by id, and the `reduce` sums.
 */
module Positions {
  import opened Common
  import opened Types

  function HasPortfolioId(id: string): Portfolio -> bool
  {
    (p: Portfolio) => p.id == id
  }

  function HasPositionId(id: string): Position -> bool
  {
    (p: Position) => p.id == id
  }

  /** `portfolios.find(p => p.id === id)`, as an index. */
  function PortfolioIndex(ps: seq<Portfolio>, id: string): (r: Option<nat>)
    ensures r.Some? ==> r.value < |ps| && ps[r.value].id == id
    ensures r.Some? ==> forall j :: 0 <= j < r.value ==> ps[j].id != id
    ensures r.None? <==> forall j :: 0 <= j < |ps| ==> ps[j].id != id
  {
    FirstWhere(ps, HasPortfolioId(id))
  }

  /** `positions.find(p => p.id === id)` / `findIndex`, as an index. */
  function PositionIndex(ps: seq<Position>, id: string): (r: Option<nat>)
    ensures r.Some? ==> r.value < |ps| && ps[r.value].id == id
    ensures r.Some? ==> forall j :: 0 <= j < r.value ==> ps[j].id != id
    ensures r.None? <==> forall j :: 0 <= j < |ps| ==> ps[j].id != id
  {
    FirstWhere(ps, HasPositionId(id))
  }

  /** `positions.filter(p => p.id !== id)` */
  function WithoutPosition(ps: seq<Position>, id: string): (r: seq<Position>)
    ensures forall p :: p in r <==> p in ps && p.id != id
    ensures |r| <= |ps|
  {
    Filter(ps, Not(HasPositionId(id)))
  }

  /** Removing an id that no position carries leaves the list as it was. */
  lemma WithoutAbsentPosition(ps: seq<Position>, id: string)
    requires PositionIndex(ps, id).None?
    ensures WithoutPosition(ps, id) == ps
  {
    FilterKeepsAll(ps, Not(HasPositionId(id)));
  }

  /** Removal keeps the order of the remaining positions. */
  lemma WithoutPositionAppend(a: seq<Position>, b: seq<Position>, id: string)
    ensures WithoutPosition(a + b, id) == WithoutPosition(a, id) + WithoutPosition(b, id)
  {
    FilterAppend(a, b, Not(HasPositionId(id)));
  }

  function ValueOf(p: Position): real { p.totalValue }

  function GainLossOf(p: Position): real { p.gainLoss }

  function CostOf(p: Position): real { p.quantity * p.averagePrice }

  /** `positions.reduce((sum, pos) => sum + pos.totalValue, 0)` */
  function TotalValue(ps: seq<Position>): real { Sum(ps, ValueOf) }

  /** `positions.reduce((sum, pos) => sum + pos.gainLoss, 0)` */
  function TotalGainLoss(ps: seq<Position>): real { Sum(ps, GainLossOf) }

  /** `positions.reduce((sum, pos) => sum + pos.quantity * pos.averagePrice, 0)` */
  function TotalCost(ps: seq<Position>): real { Sum(ps, CostOf) }

  /** Appending a position adds its own figures to each sum. */
  lemma TotalsAppend(ps: seq<Position>, p: Position)
    ensures TotalValue(ps + [p]) == TotalValue(ps) + p.totalValue
    ensures TotalGainLoss(ps + [p]) == TotalGainLoss(ps) + p.gainLoss
    ensures TotalCost(ps + [p]) == TotalCost(ps) + p.quantity * p.averagePrice
  {
    SumAppend(ps, [p], ValueOf);
    SumAppend(ps, [p], GainLossOf);
    SumAppend(ps, [p], CostOf);
  }

  /** Removing by id takes out exactly the figures of the removed positions. */
  lemma TotalsWithout(ps: seq<Position>, id: string)
    ensures TotalValue(ps) == TotalValue(WithoutPosition(ps, id)) + TotalValue(Filter(ps, HasPositionId(id)))
    ensures TotalGainLoss(ps) == TotalGainLoss(WithoutPosition(ps, id)) + TotalGainLoss(Filter(ps, HasPositionId(id)))
    ensures TotalCost(ps) == TotalCost(WithoutPosition(ps, id)) + TotalCost(Filter(ps, HasPositionId(id)))
  {
    SumSplit(ps, HasPositionId(id), ValueOf);
    SumSplit(ps, HasPositionId(id), GainLossOf);
    SumSplit(ps, HasPositionId(id), CostOf);
  }

  /**
   * The relations the data model states for one position: its value is quantity times
   * current price, its gain is that value less its cost basis.
   */
  predicate Consistent(p: Position)
  {
    && p.totalValue == p.quantity * p.currentPrice
    && p.gainLoss == p.totalValue - p.quantity * p.averagePrice
  }

  predicate AllConsistent(ps: seq<Position>)
  {
    forall j :: 0 <= j < |ps| ==> Consistent(ps[j])
  }

  /** Over consistent positions the total gain is the total value less the total cost. */
  lemma ConsistentTotals(ps: seq<Position>)
    requires AllConsistent(ps)
    ensures TotalGainLoss(ps) == TotalValue(ps) - TotalCost(ps)
  {
    SumDifference(ps, GainLossOf, ValueOf, CostOf);
  }
}
