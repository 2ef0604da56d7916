/** Records shared by the round-closing engine: inventory batches, shipments,
    decisions, market definitions and the unit sums every component uses. */
module Domain {

  datatype Option<T> = None | Some(value: T)

  /** A company document's key (a MongoDB ObjectId, as text). */
  type CompanyId = string

  type MarketName = string

  function Min(a: int, b: int): int { if a <= b then a else b }
  function Max(a: int, b: int): int { if a >= b then a else b }
  function MinReal(a: real, b: real): real { if a <= b then a else b }
  function MaxReal(a: real, b: real): real { if a >= b then a else b }

  /** Sellable stock located at one market. */
  datatype Batch = Batch(market: MarketName, units: int, unitCost: real, age: nat, isObsolete: bool)

  /** Units travelling from the factory to a market; `mode` is the source's
      shipping method ("Aereo" or "Terrestre"). */
  datatype Shipment = Shipment(units: int, destination: MarketName, mode: string,
                               roundsRemaining: int, unitCost: real)

  /** One line of a decision's logistics plan. */
  datatype LogisticsLine = LogisticsLine(destination: MarketName, units: int, mode: string)

  /** A company's submitted decision for one round. */
  datatype Decision = Decision(price: real, marketing: real, productionUnits: int,
                               procurementUnits: int, logistics: seq<LogisticsLine>)

  /** A configured market: its name and the total demand the market engine shares out. */
  datatype Market = Market(name: MarketName, totalDemand: real)

  /** Total units over a list of batches. */
  function Units(s: seq<Batch>): int
  {
    if s == [] then 0 else s[0].units + Units(s[1..])
  }

  /** Total units over a list of shipments. */
  function ShipUnits(s: seq<Shipment>): int
  {
    if s == [] then 0 else s[0].units + ShipUnits(s[1..])
  }

  /** Batches located at market m, in their original order. */
  function InMarket(s: seq<Batch>, m: MarketName): (r: seq<Batch>)
    ensures |r| <= |s|
    ensures forall k :: 0 <= k < |r| ==> r[k].market == m
  {
    if s == [] then []
    else if s[0].market == m then [s[0]] + InMarket(s[1..], m)
    else InMarket(s[1..], m)
  }

  /** Batches located anywhere but market m, in their original order. */
  function OutsideMarket(s: seq<Batch>, m: MarketName): (r: seq<Batch>)
    ensures |r| <= |s|
    ensures forall k :: 0 <= k < |r| ==> r[k].market != m
  {
    if s == [] then []
    else if s[0].market != m then [s[0]] + OutsideMarket(s[1..], m)
    else OutsideMarket(s[1..], m)
  }

  /** Every batch holds at least one unit (the engine prunes the others). */
  predicate AllPositive(s: seq<Batch>)
  {
    forall k :: 0 <= k < |s| ==> s[k].units > 0
  }

  lemma {:induction false} UnitsAppend(a: seq<Batch>, b: seq<Batch>)
    ensures Units(a + b) == Units(a) + Units(b)
  {
    if a == [] {
      assert a + b == b;
    } else {
      assert (a + b)[1..] == a[1..] + b;
      UnitsAppend(a[1..], b);
    }
  }

  lemma {:induction false} ShipUnitsAppend(a: seq<Shipment>, b: seq<Shipment>)
    ensures ShipUnits(a + b) == ShipUnits(a) + ShipUnits(b)
  {
    if a == [] {
      assert a + b == b;
    } else {
      assert (a + b)[1..] == a[1..] + b;
      ShipUnitsAppend(a[1..], b);
    }
  }

  /** Positive batches add up to a non-negative total. */
  lemma {:induction false} UnitsNonNegative(s: seq<Batch>)
    requires AllPositive(s)
    ensures Units(s) >= 0
    ensures s != [] ==> Units(s) > 0
  {
    if s != [] {
      UnitsNonNegative(s[1..]);
    }
  }

  /** Splitting a list by market splits its units. */
  lemma {:induction false} UnitsSplitByMarket(s: seq<Batch>, m: MarketName)
    ensures Units(s) == Units(InMarket(s, m)) + Units(OutsideMarket(s, m))
  {
    if s != [] {
      UnitsSplitByMarket(s[1..], m);
    }
  }
}
