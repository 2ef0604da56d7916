/** The rules of one round close, as functions of a company's record: what
    each phase of the round processor makes of the record, and what those
    phases keep, conserve and bound. The class that applies them in place is
    in module Round. */
module RoundRules {
  import opened Domain
  import opened Inventory
  import opened MarketEngine

  const RawMaterialCost: real := 15.0
  const ManufacturingCost: real := 35.0
  /** Unit cost of a finished unit: raw material plus manufacturing. */
  const ProductionUnitCost: real := RawMaterialCost + ManufacturingCost
  const AirShippingCost: real := 5.0
  const GroundShippingCost: real := 1.0
  /** The shipping method that flies: one round in transit, dearer per unit. */
  const AirMode: string := "Aereo"
  /** Where a shipment to an unknown market goes instead. */
  const FallbackMarket: MarketName := "Centro"
  /** The price a company without a decision is entered at. */
  const NoDecisionPrice: real := 9999.0
  const ProfitScale: real := 10000.0
  const ProfitWeight: real := 0.4
  const SatisfactionWeight: real := 0.3
  const EthicsWeight: real := 0.3

  datatype Kpi = Kpi(ethics: real, satisfaction: real, wsc: real)

  datatype HistoryEntry = HistoryEntry(round: int, cash: real, wsc: real, unitsSold: int, revenue: real)

  /** A company document as the round processor reads and writes it. */
  datatype CompanyRecord = CompanyRecord(
    id: CompanyId, name: string, cash: real,
    rawUnits: int, factoryUnits: int, factoryUnitCost: real,
    inventory: seq<Batch>, inTransit: seq<Shipment>,
    kpi: Kpi, history: seq<HistoryEntry>, currentRound: int)

  /** One market's verdict for one company. */
  datatype MarketResult = MarketResult(market: MarketName, row: MarketRow)

  /** A company's entry in the round's financial summary. */
  datatype Summary = Summary(mpCost: real, prodCost: real, logisticCost: real, marketing: real,
                             totalRevenue: real, totalUnitsSold: int, marketResults: seq<MarketResult>)

  /** What the round reports for one company. */
  datatype RoundResult = RoundResult(companyId: CompanyId, name: string, unitsSold: int, revenue: real)

  // ---------------------------------------------------------------------------
  // Missing decisions
  // ---------------------------------------------------------------------------

  function ProcurementUnits(d: Option<Decision>): int
  {
    if d.Some? then d.value.procurementUnits else 0
  }

  function ProductionUnits(d: Option<Decision>): int
  {
    if d.Some? then d.value.productionUnits else 0
  }

  function LogisticsLines(d: Option<Decision>): seq<LogisticsLine>
  {
    if d.Some? then d.value.logistics else []
  }

  function MarketingSpend(d: Option<Decision>): real
  {
    if d.Some? then d.value.marketing else 0.0
  }

  function OfferedPrice(d: Option<Decision>): real
  {
    if d.Some? then d.value.price else NoDecisionPrice
  }

  // ---------------------------------------------------------------------------
  // Phase 1: arrivals
  // ---------------------------------------------------------------------------

  /** The batch a shipment becomes on arrival. */
  function ArrivedBatch(s: Shipment): Batch
  {
    Batch(s.destination, s.units, s.unitCost, 0, false)
  }

  /** The batches that arrive this round, in transit order. */
  function Arrivals(t: seq<Shipment>): seq<Batch>
  {
    if t == [] then []
    else if t[0].roundsRemaining <= 1 then [ArrivedBatch(t[0])] + Arrivals(t[1..])
    else Arrivals(t[1..])
  }

  /** The shipments still travelling, one round nearer. */
  function StillInTransit(t: seq<Shipment>): seq<Shipment>
  {
    if t == [] then []
    else if t[0].roundsRemaining <= 1 then StillInTransit(t[1..])
    else [t[0].(roundsRemaining := t[0].roundsRemaining - 1)] + StillInTransit(t[1..])
  }

  /** Arrivals move units from transit to inventory without creating or
      losing any, and split the transit list without dropping an entry. */
  lemma {:induction false} ArrivalsConserve(t: seq<Shipment>)
    ensures Units(Arrivals(t)) + ShipUnits(StillInTransit(t)) == ShipUnits(t)
    ensures |Arrivals(t)| + |StillInTransit(t)| == |t|
  {
    if t != [] {
      ArrivalsConserve(t[1..]);
    }
  }

  /** Every shipment due this round arrives as a batch at its destination with
      its units and unit cost; every other one stays in transit one round
      nearer. */
  lemma {:induction false} ArrivalsComplete(t: seq<Shipment>)
    ensures forall s :: s in t && s.roundsRemaining <= 1 ==> ArrivedBatch(s) in Arrivals(t)
    ensures forall s :: s in t && s.roundsRemaining > 1 ==>
              s.(roundsRemaining := s.roundsRemaining - 1) in StillInTransit(t)
  {
    if t != [] {
      ArrivalsComplete(t[1..]);
      assert forall s :: s in t ==> s == t[0] || s in t[1..];
    }
  }

  /** Every arrival is a fresh (age 0, not obsolete) batch made from a
      shipment that was due, and every shipment left in transit was in transit
      before with one more round to go. */
  lemma {:induction false} ArrivalsSound(t: seq<Shipment>)
    ensures forall b :: b in Arrivals(t) ==>
              b.age == 0 && !b.isObsolete && exists s :: s in t && s.roundsRemaining <= 1 && b == ArrivedBatch(s)
    ensures forall s :: s in StillInTransit(t) ==>
              s.roundsRemaining >= 1 && s.(roundsRemaining := s.roundsRemaining + 1) in t
  {
    ArrivalsFromDue(t);
    TransitFromEarlier(t);
  }

  lemma {:induction false} ArrivalsFromDue(t: seq<Shipment>)
    ensures forall b :: b in Arrivals(t) ==>
              b.age == 0 && !b.isObsolete && exists s :: s in t && s.roundsRemaining <= 1 && b == ArrivedBatch(s)
  {
    if t != [] {
      var h := t[0];
      var rest := t[1..];
      ArrivalsFromDue(rest);
      forall b | b in Arrivals(t)
        ensures b.age == 0 && !b.isObsolete && exists s :: s in t && s.roundsRemaining <= 1 && b == ArrivedBatch(s)
      {
        if h.roundsRemaining <= 1 && b == ArrivedBatch(h) {
          assert h in t;
        } else {
          assert b in Arrivals(rest);
          var s :| s in rest && s.roundsRemaining <= 1 && b == ArrivedBatch(s);
          assert s in t;
        }
      }
    }
  }

  lemma {:induction false} TransitFromEarlier(t: seq<Shipment>)
    ensures forall s :: s in StillInTransit(t) ==>
              s.roundsRemaining >= 1 && s.(roundsRemaining := s.roundsRemaining + 1) in t
  {
    if t != [] {
      var h := t[0];
      var rest := t[1..];
      TransitFromEarlier(rest);
      forall s | s in StillInTransit(t)
        ensures s.roundsRemaining >= 1 && s.(roundsRemaining := s.roundsRemaining + 1) in t
      {
        if h.roundsRemaining > 1 && s == h.(roundsRemaining := h.roundsRemaining - 1) {
          assert s.(roundsRemaining := s.roundsRemaining + 1) == h;
        } else {
          assert s in StillInTransit(rest);
          assert s.(roundsRemaining := s.roundsRemaining + 1) in rest;
        }
      }
    }
  }

  // ---------------------------------------------------------------------------
  // Phase 1: procurement and production
  // ---------------------------------------------------------------------------

  /** Production is capped by the raw material on hand. */
  function Produced(rawUnits: int, desired: int): int
  {
    if rawUnits >= desired then desired else rawUnits
  }

  /** Weighted-average unit cost of the factory after adding produced units at
      ProductionUnitCost; 0 when the factory ends up empty. */
  function AverageCost(units: int, unitCost: real, produced: int): real
  {
    var total := units + produced;
    if total > 0 then (units as real * unitCost + produced as real * ProductionUnitCost) / total as real
    else 0.0
  }

  /** The factory's running total value over its running unit count is the
      weighted-average cost. */
  lemma AverageCostIs(units: int, unitCost: real, produced: int, totalValue: real, newTotalUnits: int)
    requires totalValue == units as real * unitCost + produced as real * ProductionUnitCost
    requires newTotalUnits == units + produced
    ensures (if newTotalUnits > 0 then totalValue / newTotalUnits as real else 0.0) == AverageCost(units, unitCost, produced)
  {
  }

  /** Production takes min(desired, raw material) units and never leaves the
      raw material negative. */
  lemma ProductionCapped(rawUnits: int, desired: int)
    ensures Produced(rawUnits, desired) == Min(desired, rawUnits)
    ensures rawUnits - Produced(rawUnits, desired) >= 0
    ensures desired >= 0 && rawUnits >= 0 ==> 0 <= Produced(rawUnits, desired) <= rawUnits
  {
  }

  /** The merged cost lies between the old cost and the production cost;
      producing nothing keeps a non-empty factory's cost. */
  lemma AverageCostBetween(units: int, unitCost: real, produced: int)
    requires units >= 0 && produced >= 0
    ensures units + produced > 0 ==>
              MinReal(unitCost, ProductionUnitCost) <= AverageCost(units, unitCost, produced)
                                                     <= MaxReal(unitCost, ProductionUnitCost)
    ensures produced == 0 && units > 0 ==> AverageCost(units, unitCost, produced) == unitCost
    ensures units + produced == 0 ==> AverageCost(units, unitCost, produced) == 0.0
  {
    if units + produced > 0 {
      var u := units as real;
      var p := produced as real;
      var lo := MinReal(unitCost, ProductionUnitCost);
      var hi := MaxReal(unitCost, ProductionUnitCost);
      WeightedMeanBetween(u, unitCost, p, ProductionUnitCost, lo, hi);
      if produced == 0 {
        assert (u * unitCost + p * ProductionUnitCost) / (u + p) == (u * unitCost) / u;
      }
    }
  }

  lemma WeightedMeanBetween(u: real, a: real, p: real, b: real, lo: real, hi: real)
    requires u >= 0.0 && p >= 0.0 && u + p > 0.0
    requires lo <= a <= hi && lo <= b <= hi
    ensures lo <= (u * a + p * b) / (u + p) <= hi
  {
    WeightedSumAbove(u, a, p, b, lo);
    WeightedSumBelow(u, a, p, b, hi);
    DivideBetween(u * a + p * b, u + p, lo, hi);
  }

  lemma WeightedSumAbove(u: real, a: real, p: real, b: real, lo: real)
    requires u >= 0.0 && p >= 0.0 && lo <= a && lo <= b
    ensures (u + p) * lo <= u * a + p * b
  {
    assert u * lo <= u * a;
    assert p * lo <= p * b;
    assert (u + p) * lo == u * lo + p * lo;
  }

  lemma WeightedSumBelow(u: real, a: real, p: real, b: real, hi: real)
    requires u >= 0.0 && p >= 0.0 && a <= hi && b <= hi
    ensures u * a + p * b <= (u + p) * hi
  {
    assert u * a <= u * hi;
    assert p * b <= p * hi;
    assert (u + p) * hi == u * hi + p * hi;
  }

  lemma DivideBetween(w: real, t: real, lo: real, hi: real)
    requires t > 0.0 && t * lo <= w <= t * hi
    ensures lo <= w / t <= hi
  {
    assert w == t * (w / t);
  }

  // ---------------------------------------------------------------------------
  // Phase 1: dispatch
  // ---------------------------------------------------------------------------

  function ShippingRate(mode: string): real
  {
    if mode == AirMode then AirShippingCost else GroundShippingCost
  }

  function TransitRounds(mode: string): int
  {
    if mode == AirMode then 1 else 2
  }

  /** The requested destination if it is a configured market, else the fallback. */
  function Destination(requested: MarketName, names: seq<MarketName>): MarketName
  {
    if requested in names then requested else FallbackMarket
  }

  function NewShipment(line: LogisticsLine, units: int, unitCost: real, names: seq<MarketName>): Shipment
  {
    Shipment(units, Destination(line.destination, names), line.mode, TransitRounds(line.mode), unitCost)
  }

  /** The transit entries the logistics lines create, each line shipping as
      much of its request as the factory still holds. */
  function Dispatched(lines: seq<LogisticsLine>, available: int, unitCost: real, names: seq<MarketName>): seq<Shipment>
  {
    if lines == [] then []
    else
      var units := Min(lines[0].units, available);
      if units > 0 then [NewShipment(lines[0], units, unitCost, names)] + Dispatched(lines[1..], available - units, unitCost, names)
      else Dispatched(lines[1..], available, unitCost, names)
  }

  /** What the shipments cost to send. */
  function ShippingCost(s: seq<Shipment>): real
  {
    if s == [] then 0.0 else s[0].units as real * ShippingRate(s[0].mode) + ShippingCost(s[1..])
  }

  /** Dispatch ships between nothing and what the factory holds, in at most
      one entry per line, at a non-negative cost. */
  lemma {:induction false} DispatchBounds(lines: seq<LogisticsLine>, available: int, unitCost: real, names: seq<MarketName>)
    ensures var d := Dispatched(lines, available, unitCost, names);
            && 0 <= ShipUnits(d) <= Max(available, 0)
            && |d| <= |lines|
            && ShippingCost(d) >= 0.0
  {
    if lines != [] {
      var units := Min(lines[0].units, available);
      if units > 0 {
        DispatchBounds(lines[1..], available - units, unitCost, names);
        var d := Dispatched(lines, available, unitCost, names);
        var rest := Dispatched(lines[1..], available - units, unitCost, names);
        assert d == [NewShipment(lines[0], units, unitCost, names)] + rest;
        assert d[1..] == rest;
      } else {
        DispatchBounds(lines[1..], available, unitCost, names);
      }
    }
  }

  /** The fields every dispatched entry carries. */
  predicate WellFormedEntry(entry: Shipment, unitCost: real, names: seq<MarketName>)
  {
    && entry.units > 0
    && entry.unitCost == unitCost
    && entry.roundsRemaining == (if entry.mode == AirMode then 1 else 2)
    && (entry.destination in names || entry.destination == FallbackMarket)
  }

  /** Every dispatched entry is positive, carries the factory's unit cost and
      the mode's transit time, and is bound for a configured market or the
      fallback. */
  lemma {:induction false} DispatchEntryShape(lines: seq<LogisticsLine>, available: int, unitCost: real, names: seq<MarketName>)
    ensures forall k :: 0 <= k < |Dispatched(lines, available, unitCost, names)| ==>
              WellFormedEntry(Dispatched(lines, available, unitCost, names)[k], unitCost, names)
  {
    if lines != [] {
      var units := Min(lines[0].units, available);
      var d := Dispatched(lines, available, unitCost, names);
      if units > 0 {
        var rest := Dispatched(lines[1..], available - units, unitCost, names);
        DispatchEntryShape(lines[1..], available - units, unitCost, names);
        assert d == [NewShipment(lines[0], units, unitCost, names)] + rest;
        assert WellFormedEntry(d[0], unitCost, names);
        forall k | 1 <= k < |d|
          ensures WellFormedEntry(d[k], unitCost, names)
        {
          assert d[k] == rest[k - 1];
        }
      } else {
        DispatchEntryShape(lines[1..], available, unitCost, names);
      }
    } else {
      assert Dispatched(lines, available, unitCost, names) == [];
    }
  }

  /** The line a dispatched entry answers. */
  predicate Answers(line: LogisticsLine, entry: Shipment, names: seq<MarketName>)
  {
    line.mode == entry.mode && entry.units <= line.units && entry.destination == Destination(line.destination, names)
  }

  /** Every dispatched entry answers one of the lines: same mode, no more than
      it asked for, bound for its market or the fallback. */
  lemma {:induction false} DispatchProvenance(lines: seq<LogisticsLine>, available: int, unitCost: real, names: seq<MarketName>)
    ensures forall k :: 0 <= k < |Dispatched(lines, available, unitCost, names)| ==>
              exists j :: 0 <= j < |lines| && Answers(lines[j], Dispatched(lines, available, unitCost, names)[k], names)
  {
    if lines != [] {
      var units := Min(lines[0].units, available);
      var d := Dispatched(lines, available, unitCost, names);
      var tail := lines[1..];
      if units > 0 {
        var rest := Dispatched(tail, available - units, unitCost, names);
        DispatchProvenance(tail, available - units, unitCost, names);
        assert d == [NewShipment(lines[0], units, unitCost, names)] + rest;
        forall k | 0 <= k < |d|
          ensures exists j :: 0 <= j < |lines| && Answers(lines[j], d[k], names)
        {
          if k == 0 {
            assert Answers(lines[0], d[0], names);
          } else {
            assert d[k] == rest[k - 1];
            var j :| 0 <= j < |tail| && Answers(tail[j], rest[k - 1], names);
            assert lines[j + 1] == tail[j];
            assert Answers(lines[j + 1], d[k], names);
          }
        }
      } else {
        var rest := Dispatched(tail, available, unitCost, names);
        DispatchProvenance(tail, available, unitCost, names);
        assert d == rest;
        forall k | 0 <= k < |d|
          ensures exists j :: 0 <= j < |lines| && Answers(lines[j], d[k], names)
        {
          var j :| 0 <= j < |tail| && Answers(tail[j], rest[k], names);
          assert lines[j + 1] == tail[j];
          assert Answers(lines[j + 1], d[k], names);
        }
      }
    } else {
      assert Dispatched(lines, available, unitCost, names) == [];
    }
  }

  // ---------------------------------------------------------------------------
  // Phase 1 as a whole
  // ---------------------------------------------------------------------------

  /** The record once the shipments due have arrived. */
  function AfterArrivals(rec: CompanyRecord): CompanyRecord
  {
    rec.(inventory := rec.inventory + Arrivals(rec.inTransit), inTransit := StillInTransit(rec.inTransit))
  }

  /** The record once `units` of raw material have been bought. */
  function AfterProcurement(rec: CompanyRecord, units: int): CompanyRecord
  {
    rec.(cash := rec.cash - units as real * RawMaterialCost, rawUnits := rec.rawUnits + units)
  }

  /** The record once production of `desired` units has run, capped by the
      raw material on hand. */
  function AfterProduction(rec: CompanyRecord, desired: int): CompanyRecord
  {
    var produced := Produced(rec.rawUnits, desired);
    rec.(cash := rec.cash - produced as real * ManufacturingCost,
         rawUnits := rec.rawUnits - produced,
         factoryUnits := rec.factoryUnits + produced,
         factoryUnitCost := AverageCost(rec.factoryUnits, rec.factoryUnitCost, produced))
  }

  /** The shipments the logistics lines send from this record's factory. */
  function ShipmentsFrom(rec: CompanyRecord, lines: seq<LogisticsLine>, names: seq<MarketName>): seq<Shipment>
  {
    Dispatched(lines, rec.factoryUnits, rec.factoryUnitCost, names)
  }

  /** The record once the logistics lines have been dispatched. */
  function AfterDispatch(rec: CompanyRecord, lines: seq<LogisticsLine>, names: seq<MarketName>): CompanyRecord
  {
    var shipped := ShipmentsFrom(rec, lines, names);
    rec.(cash := rec.cash - ShippingCost(shipped),
         factoryUnits := rec.factoryUnits - ShipUnits(shipped),
         inTransit := rec.inTransit + shipped)
  }

  /** The record once one logistics line has shipped what the factory can
      spare of its request; a line that would ship nothing changes nothing. */
  function ShipLine(rec: CompanyRecord, line: LogisticsLine, names: seq<MarketName>): CompanyRecord
  {
    var units := Min(line.units, rec.factoryUnits);
    if units > 0 then
      rec.(cash := rec.cash - units as real * ShippingRate(line.mode),
           factoryUnits := rec.factoryUnits - units,
           inTransit := rec.inTransit + [NewShipment(line, units, rec.factoryUnitCost, names)])
    else rec
  }

  /** Dispatching a plan is shipping its first line, then dispatching the
      rest from what is left; the first line's bill is what it takes from
      the cash. */
  lemma DispatchStep(rec: CompanyRecord, lines: seq<LogisticsLine>, names: seq<MarketName>)
    requires lines != []
    ensures var next := ShipLine(rec, lines[0], names);
            && AfterDispatch(rec, lines, names) == AfterDispatch(next, lines[1..], names)
            && ShippingCost(ShipmentsFrom(rec, lines, names)) ==
                 (rec.cash - next.cash) + ShippingCost(ShipmentsFrom(next, lines[1..], names))
  {
    var units := Min(lines[0].units, rec.factoryUnits);
    if units > 0 {
      var entry := NewShipment(lines[0], units, rec.factoryUnitCost, names);
      var rest := ShipmentsFrom(ShipLine(rec, lines[0], names), lines[1..], names);
      assert ShipmentsFrom(rec, lines, names) == [entry] + rest;
      assert ([entry] + rest)[1..] == rest;
      assert rec.inTransit + ([entry] + rest) == (rec.inTransit + [entry]) + rest;
    }
  }

  /** The record before dispatch: arrivals, procurement and production done. */
  function BeforeDispatch(rec: CompanyRecord, d: Option<Decision>): CompanyRecord
  {
    AfterProduction(AfterProcurement(AfterArrivals(rec), ProcurementUnits(d)), ProductionUnits(d))
  }

  /** The record after arrivals, procurement, production and dispatch. */
  function Phase1(rec: CompanyRecord, d: Option<Decision>, names: seq<MarketName>): CompanyRecord
  {
    AfterDispatch(BeforeDispatch(rec, d), LogisticsLines(d), names)
  }

  /** The company's entry in the financial summary after phase 1. */
  function Phase1Summary(rec: CompanyRecord, d: Option<Decision>, names: seq<MarketName>): Summary
  {
    var bought := ProcurementUnits(d);
    var produced := Produced(rec.rawUnits + bought, ProductionUnits(d));
    Summary(bought as real * RawMaterialCost, produced as real * ManufacturingCost,
            ShippingCost(ShipmentsFrom(BeforeDispatch(rec, d), LogisticsLines(d), names)),
            MarketingSpend(d), 0.0, 0, [])
  }

  /** Phase 1's costs, gathered step by step, are the company's summary entry. */
  lemma Phase1SummaryIs(rec: CompanyRecord, d: Option<Decision>, names: seq<MarketName>,
                        produced: int, costOfProduction: real, logisticExpenses: real)
    requires produced == Produced(AfterProcurement(AfterArrivals(rec), ProcurementUnits(d)).rawUnits, ProductionUnits(d))
    requires costOfProduction == produced as real * ManufacturingCost
    requires logisticExpenses == ShippingCost(ShipmentsFrom(BeforeDispatch(rec, d), LogisticsLines(d), names))
    ensures Summary(ProcurementUnits(d) as real * RawMaterialCost, costOfProduction, logisticExpenses,
                    MarketingSpend(d), 0.0, 0, []) == Phase1Summary(rec, d, names)
  {
  }

  /** All units a company holds, wherever they are. */
  function TotalStock(rec: CompanyRecord): int
  {
    rec.rawUnits + rec.factoryUnits + Units(rec.inventory) + ShipUnits(rec.inTransit)
  }

  /** Phase 1 creates units only by buying raw material: production turns raw
      material into factory stock one for one, dispatch moves factory stock into
      transit and arrivals move transit into inventory. */
  lemma Phase1Stock(rec: CompanyRecord, d: Option<Decision>, names: seq<MarketName>)
    ensures TotalStock(Phase1(rec, d, names)) == TotalStock(rec) + ProcurementUnits(d)
  {
    var a := AfterArrivals(rec);
    var p := AfterProcurement(a, ProcurementUnits(d));
    var b := BeforeDispatch(rec, d);
    assert b == AfterProduction(p, ProductionUnits(d));
    ArrivalsKeepStock(rec);
    ProcurementAddsStock(a, ProcurementUnits(d));
    ProductionKeepsStock(p, ProductionUnits(d));
    DispatchKeepsStock(b, LogisticsLines(d), names);
  }

  /** Phase 1 takes exactly the material, production and shipping bills from
      the cash. */
  lemma Phase1Cash(rec: CompanyRecord, d: Option<Decision>, names: seq<MarketName>)
    ensures var s := Phase1Summary(rec, d, names);
            Phase1(rec, d, names).cash == rec.cash - s.mpCost - s.prodCost - s.logisticCost
  {
    var b := BeforeDispatch(rec, d);
    var s := Phase1Summary(rec, d, names);
    assert b.cash == rec.cash - s.mpCost - s.prodCost;
    assert Phase1(rec, d, names).cash == b.cash - s.logisticCost;
  }

  /** Raw material never goes negative, and a factory that is not negative
      after production stays so through dispatch. */
  lemma Phase1Signs(rec: CompanyRecord, d: Option<Decision>, names: seq<MarketName>)
    ensures Phase1(rec, d, names).rawUnits >= 0
    ensures rec.factoryUnits + Produced(rec.rawUnits + ProcurementUnits(d), ProductionUnits(d)) >= 0 ==>
              Phase1(rec, d, names).factoryUnits >= 0
  {
    var p := AfterProcurement(AfterArrivals(rec), ProcurementUnits(d));
    var b := BeforeDispatch(rec, d);
    assert b == AfterProduction(p, ProductionUnits(d));
    ProductionKeepsStock(p, ProductionUnits(d));
    DispatchKeepsStock(b, LogisticsLines(d), names);
  }

  lemma ArrivalsKeepStock(rec: CompanyRecord)
    ensures TotalStock(AfterArrivals(rec)) == TotalStock(rec)
  {
    ArrivalsConserve(rec.inTransit);
    UnitsAppend(rec.inventory, Arrivals(rec.inTransit));
  }

  lemma ProcurementAddsStock(rec: CompanyRecord, units: int)
    ensures TotalStock(AfterProcurement(rec, units)) == TotalStock(rec) + units
  {
  }

  lemma ProductionKeepsStock(rec: CompanyRecord, desired: int)
    ensures TotalStock(AfterProduction(rec, desired)) == TotalStock(rec)
    ensures AfterProduction(rec, desired).rawUnits >= 0
  {
  }

  /** Dispatch moves units from the factory into transit, as many as leave
      the factory, never taking a non-negative factory below zero. */
  lemma DispatchKeepsStock(rec: CompanyRecord, lines: seq<LogisticsLine>, names: seq<MarketName>)
    ensures TotalStock(AfterDispatch(rec, lines, names)) == TotalStock(rec)
    ensures rec.factoryUnits - AfterDispatch(rec, lines, names).factoryUnits ==
              ShipUnits(AfterDispatch(rec, lines, names).inTransit) - ShipUnits(rec.inTransit)
    ensures AfterDispatch(rec, lines, names).factoryUnits >= Min(rec.factoryUnits, 0)
    ensures AfterDispatch(rec, lines, names).rawUnits == rec.rawUnits
    ensures AfterDispatch(rec, lines, names).inventory == rec.inventory
  {
    var shipped := ShipmentsFrom(rec, lines, names);
    DispatchBounds(lines, rec.factoryUnits, rec.factoryUnitCost, names);
    ShipUnitsAppend(rec.inTransit, shipped);
  }

  /** A company without a decision buys, produces and ships nothing, spends
      nothing on marketing and is offered at NoDecisionPrice; only its
      arrivals move. */
  lemma NoDecisionDefaults(rec: CompanyRecord, names: seq<MarketName>)
    requires rec.rawUnits >= 0
    ensures var r := Phase1(rec, None, names);
            && r.cash == rec.cash && r.rawUnits == rec.rawUnits && r.factoryUnits == rec.factoryUnits
            && r.inventory == rec.inventory + Arrivals(rec.inTransit)
            && r.inTransit == StillInTransit(rec.inTransit)
            && (rec.factoryUnits > 0 ==> r.factoryUnitCost == rec.factoryUnitCost)
    ensures Phase1Summary(rec, None, names) == Summary(0.0, 0.0, 0.0, 0.0, 0.0, 0, [])
    ensures forall m :: CompetitorOf(rec, None, m).price == NoDecisionPrice && CompetitorOf(rec, None, m).marketing == 0.0
  {
    if rec.factoryUnits > 0 {
      AverageCostBetween(rec.factoryUnits, rec.factoryUnitCost, 0);
    }
  }

  /** Phase 1 leaves the company's identity, scorecard, history and round alone. */
  lemma Phase1Keeps(rec: CompanyRecord, d: Option<Decision>, names: seq<MarketName>)
    ensures var r := Phase1(rec, d, names);
            r.id == rec.id && r.name == rec.name && r.kpi == rec.kpi && r.history == rec.history
            && r.currentRound == rec.currentRound
  {
  }

  // ---------------------------------------------------------------------------
  // Phase 2: competitors and the summary
  // ---------------------------------------------------------------------------

  function DecisionOf(decisions: map<CompanyId, Decision>, id: CompanyId): Option<Decision>
  {
    if id in decisions then Some(decisions[id]) else None
  }

  function MarketNames(markets: seq<Market>): (names: seq<MarketName>)
    ensures |names| == |markets|
    ensures forall i :: 0 <= i < |markets| ==> names[i] == markets[i].name
  {
    seq(|markets|, i requires 0 <= i < |markets| => markets[i].name)
  }

  /** The units a company holds in market m. */
  function StockIn(inventory: seq<Batch>, m: MarketName): int
  {
    Units(InMarket(inventory, m))
  }

  function CompetitorOf(rec: CompanyRecord, d: Option<Decision>, m: MarketName): Competitor
  {
    Competitor(rec.id, OfferedPrice(d), MarketingSpend(d), StockIn(rec.inventory, m))
  }

  /** Every company's offer in market m, in company order. */
  function Competitors(recs: seq<CompanyRecord>, decisions: map<CompanyId, Decision>, m: MarketName): (cs: seq<Competitor>)
    ensures |cs| == |recs|
    ensures forall j :: 0 <= j < |recs| ==> cs[j] == CompetitorOf(recs[j], DecisionOf(decisions, recs[j].id), m)
  {
    seq(|recs|, j requires 0 <= j < |recs| => CompetitorOf(recs[j], DecisionOf(decisions, recs[j].id), m))
  }

  /** Market m's verdict on every company, in company order. */
  function Rows(recs: seq<CompanyRecord>, decisions: map<CompanyId, Decision>, m: Market, ln: real -> real): (rows: seq<MarketRow>)
    requires LogPositive(ln)
    ensures |rows| == |recs|
  {
    CalculateMarketSales(Competitors(recs, decisions, m.name), m.totalDemand, ln)
  }

  /** Adds one market's verdict to a company's summary. */
  function AddResult(s: Summary, m: MarketName, row: MarketRow): Summary
  {
    s.(totalRevenue := s.totalRevenue + row.revenue,
       totalUnitsSold := s.totalUnitsSold + row.unitsSold,
       marketResults := s.marketResults + [MarketResult(m, row)])
  }

  /** f applied to every market, in market order. */
  function PerMarket<T>(markets: seq<Market>, f: Market -> T): (r: seq<T>)
    ensures |r| == |markets|
  {
    if markets == [] then [] else PerMarket(markets[..|markets| - 1], f) + [f(markets[|markets| - 1])]
  }

  lemma {:induction false} PerMarketAt<T>(markets: seq<Market>, f: Market -> T, i: nat)
    requires i < |markets|
    ensures PerMarket(markets, f)[i] == f(markets[i])
  {
    var k := |markets| - 1;
    if i < k {
      PerMarketAt(markets[..k], f, i);
    }
  }

  lemma PerMarketExtend<T>(markets: seq<Market>, f: Market -> T, k: nat)
    requires k < |markets|
    ensures PerMarket(markets[..k + 1], f) == PerMarket(markets[..k], f) + [f(markets[k])]
  {
    assert markets[..k + 1][..k] == markets[..k];
  }

  /** Market m's verdict on every company, as a function of the market. */
  function Verdict(recs: seq<CompanyRecord>, decisions: map<CompanyId, Decision>, ln: real -> real): Market -> seq<MarketRow>
    requires LogPositive(ln)
  {
    m => Rows(recs, decisions, m, ln)
  }

  /** Every market's verdict, market by market, each listing every company. */
  function MarketRows(recs: seq<CompanyRecord>, decisions: map<CompanyId, Decision>, markets: seq<Market>,
                      ln: real -> real): (rows: seq<seq<MarketRow>>)
    requires LogPositive(ln)
    ensures |rows| == |markets| && RowTable(rows, |recs|)
  {
    VerdictTable(recs, decisions, markets, ln);
    PerMarket(markets, Verdict(recs, decisions, ln))
  }

  lemma VerdictTable(recs: seq<CompanyRecord>, decisions: map<CompanyId, Decision>, markets: seq<Market>,
                     ln: real -> real)
    requires LogPositive(ln)
    ensures RowTable(PerMarket(markets, Verdict(recs, decisions, ln)), |recs|)
  {
    forall i | 0 <= i < |markets| ensures |PerMarket(markets, Verdict(recs, decisions, ln))[i]| == |recs| {
      PerMarketAt(markets, Verdict(recs, decisions, ln), i);
    }
  }

  /** Entry i of the verdict table is market i's verdict. */
  lemma MarketRowsAt(recs: seq<CompanyRecord>, decisions: map<CompanyId, Decision>, markets: seq<Market>,
                     ln: real -> real)
    requires LogPositive(ln)
    ensures forall i :: 0 <= i < |markets| ==> MarketRows(recs, decisions, markets, ln)[i] == Rows(recs, decisions, markets[i], ln)
  {
    forall i | 0 <= i < |markets|
      ensures MarketRows(recs, decisions, markets, ln)[i] == Rows(recs, decisions, markets[i], ln)
    {
      PerMarketAt(markets, Verdict(recs, decisions, ln), i);
    }
  }

  /** A table of verdicts: one row list per market, each covering n companies. */
  predicate RowTable(rows: seq<seq<MarketRow>>, n: nat)
  {
    forall i :: 0 <= i < |rows| ==> |rows[i]| == n
  }

  /** Adds one market's verdict to every company's summary. */
  function AddVerdict(prev: seq<Summary>, name: MarketName, row: seq<MarketRow>): (next: seq<Summary>)
    requires |row| == |prev|
    ensures |next| == |prev|
    ensures forall j :: 0 <= j < |prev| ==> next[j] == AddResult(prev[j], name, row[j])
  {
    seq(|prev|, j requires 0 <= j < |prev| => AddResult(prev[j], name, row[j]))
  }

  /** The summaries once the given markets' verdicts have been added, market
      by market in order. */
  function Allocated(s0: seq<Summary>, names: seq<MarketName>, rows: seq<seq<MarketRow>>): (s: seq<Summary>)
    requires |rows| == |names| && RowTable(rows, |s0|)
    ensures |s| == |s0|
  {
    if names == [] then s0
    else
      var k := |names| - 1;
      AddVerdict(Allocated(s0, names[..k], rows[..k]), names[k], rows[k])
  }

  lemma MarketNamesExtend(markets: seq<Market>, k: nat)
    requires k < |markets|
    ensures MarketNames(markets[..k + 1]) == MarketNames(markets[..k]) + [markets[k].name]
  {
  }

  /** Adding one more market's verdict extends every summary by that verdict. */
  lemma AllocatedExtend(s0: seq<Summary>, names: seq<MarketName>, rows: seq<seq<MarketRow>>,
                        name: MarketName, row: seq<MarketRow>)
    requires |rows| == |names| && RowTable(rows, |s0|) && |row| == |s0|
    ensures RowTable(rows + [row], |s0|)
    ensures Allocated(s0, names + [name], rows + [row]) == AddVerdict(Allocated(s0, names, rows), name, row)
  {
    assert (names + [name])[..|names|] == names;
    assert (rows + [row])[..|rows|] == rows;
  }

  /** The verdict table of one more market is the old table plus its verdict. */
  lemma MarketRowsExtend(recs: seq<CompanyRecord>, decisions: map<CompanyId, Decision>, markets: seq<Market>,
                         k: nat, ln: real -> real)
    requires LogPositive(ln) && k < |markets|
    ensures MarketRows(recs, decisions, markets[..k + 1], ln) ==
              MarketRows(recs, decisions, markets[..k], ln) + [Rows(recs, decisions, markets[k], ln)]
  {
    PerMarketExtend(markets, Verdict(recs, decisions, ln), k);
  }

  /** Adding market k's verdict to the summaries allocated over the markets
      before it gives the summaries allocated over the markets up to k. */
  lemma AllocatedStep(s0: seq<Summary>, recs: seq<CompanyRecord>, decisions: map<CompanyId, Decision>,
                      markets: seq<Market>, k: nat, ln: real -> real)
    requires LogPositive(ln) && |s0| == |recs| && k < |markets|
    ensures Allocated(s0, MarketNames(markets[..k + 1]), MarketRows(recs, decisions, markets[..k + 1], ln)) ==
              AddVerdict(Allocated(s0, MarketNames(markets[..k]), MarketRows(recs, decisions, markets[..k], ln)),
                         markets[k].name, Rows(recs, decisions, markets[k], ln))
  {
    MarketRowsExtend(recs, decisions, markets, k, ln);
    MarketNamesExtend(markets, k);
    AllocatedExtend(s0, MarketNames(markets[..k]), MarketRows(recs, decisions, markets[..k], ln),
                    markets[k].name, Rows(recs, decisions, markets[k], ln));
  }

  function SoldIn(results: seq<MarketResult>): int
  {
    if results == [] then 0 else SoldIn(results[..|results| - 1]) + results[|results| - 1].row.unitsSold
  }

  function EarnedIn(results: seq<MarketResult>): real
  {
    if results == [] then 0.0 else EarnedIn(results[..|results| - 1]) + results[|results| - 1].row.revenue
  }

  /** Company j's verdict from each market, in market order. */
  function ResultsFor(names: seq<MarketName>, rows: seq<seq<MarketRow>>, j: nat): (r: seq<MarketResult>)
    requires |rows| == |names| && forall i :: 0 <= i < |rows| ==> j < |rows[i]|
    ensures |r| == |names|
    ensures forall i :: 0 <= i < |names| ==> r[i] == MarketResult(names[i], rows[i][j])
  {
    if names == [] then []
    else
      var k := |names| - 1;
      ResultsFor(names[..k], rows[..k], j) + [MarketResult(names[k], rows[k][j])]
  }

  /** After phase 2 each company's summary holds, after whatever it held, its
      verdict from every market in market order. */
  lemma {:induction false} AllocatedResults(s0: seq<Summary>, names: seq<MarketName>, rows: seq<seq<MarketRow>>, j: nat)
    requires |rows| == |names| && RowTable(rows, |s0|) && j < |s0|
    ensures Allocated(s0, names, rows)[j].marketResults == s0[j].marketResults + ResultsFor(names, rows, j)
  {
    if names == [] {
      assert s0[j].marketResults + [] == s0[j].marketResults;
    } else {
      var k := |names| - 1;
      AllocatedResults(s0, names[..k], rows[..k], j);
    }
  }

  /** Phase 2 adds to a company's units and revenue exactly the sums over its
      market verdicts, and leaves its cost lines as they were. */
  lemma {:induction false} AllocatedTotals(s0: seq<Summary>, names: seq<MarketName>, rows: seq<seq<MarketRow>>, j: nat)
    requires |rows| == |names| && RowTable(rows, |s0|) && j < |s0|
    ensures var s := Allocated(s0, names, rows)[j];
            var r := ResultsFor(names, rows, j);
            && s.totalUnitsSold == s0[j].totalUnitsSold + SoldIn(r)
            && s.totalRevenue == s0[j].totalRevenue + EarnedIn(r)
            && s.mpCost == s0[j].mpCost && s.prodCost == s0[j].prodCost
            && s.logisticCost == s0[j].logisticCost && s.marketing == s0[j].marketing
  {
    if names != [] {
      var k := |names| - 1;
      AllocatedTotals(s0, names[..k], rows[..k], j);
      var r := ResultsFor(names, rows, j);
      assert r[..k] == ResultsFor(names[..k], rows[..k], j);
    }
  }

  // ---------------------------------------------------------------------------
  // Phase 3: per-market depletion
  // ---------------------------------------------------------------------------

  /** Walks the (sorted) inventory taking up to n units from the batches of
      market m in order; a batch it empties keeps zero units. */
  function Depleted(s: seq<Batch>, m: MarketName, n: int): (r: seq<Batch>)
    ensures |r| == |s|
  {
    if s == [] then []
    else if s[0].market == m && n > 0 then
      if s[0].units <= n then [s[0].(units := 0)] + Depleted(s[1..], m, n - s[0].units)
      else [s[0].(units := s[0].units - n)] + Depleted(s[1..], m, 0)
    else [s[0]] + Depleted(s[1..], m, n)
  }

  /** One market's sale at close: sort oldest first, deplete, prune the empty. */
  function SellInMarket(inventory: seq<Batch>, m: MarketName, n: int): seq<Batch>
  {
    Positive(Depleted(SortByAge(inventory), m, n))
  }

  /** Every market's sale, in the order of the results. */
  function SellAll(inventory: seq<Batch>, results: seq<MarketResult>): seq<Batch>
  {
    if results == [] then inventory
    else
      var last := results[|results| - 1];
      SellInMarket(SellAll(inventory, results[..|results| - 1]), last.market, last.row.unitsSold)
  }

  /** On a positive list, the depletion of market m is processFIFO's
      oldest-first sale applied to m's batches alone. */
  lemma {:induction false} DepletedIsFifo(s: seq<Batch>, m: MarketName, n: int)
    requires AllPositive(s)
    ensures InMarket(Positive(Depleted(s, m, n)), m) == Fifo(InMarket(s, m), n)
  {
    if s != [] {
      if s[0].market == m && n > 0 {
        if s[0].units <= n {
          DepletedIsFifo(s[1..], m, n - s[0].units);
        } else {
          NothingDepleted(s[1..], m);
          PositiveIdentity(s[1..]);
          var rest := s[1..];
          if InMarket(rest, m) != [] {
            assert Fifo(InMarket(rest, m), 0) == InMarket(rest, m);
          }
        }
      } else if s[0].market == m {
        DepletedIsFifo(s[1..], m, n);
        NothingDepleted(s, m);
        PositiveIdentity(s);
        if InMarket(s, m) != [] {
          assert Fifo(InMarket(s, m), n) == InMarket(s, m);
        }
      } else {
        DepletedIsFifo(s[1..], m, n);
      }
    }
  }

  /** The depletion of market m passes the batches of every other market
      through untouched and in order. */
  lemma {:induction false} DepletedOutside(s: seq<Batch>, m: MarketName, n: int)
    requires AllPositive(s)
    ensures OutsideMarket(Positive(Depleted(s, m, n)), m) == OutsideMarket(s, m)
  {
    if s != [] {
      if s[0].market == m && n > 0 {
        if s[0].units <= n {
          DepletedOutside(s[1..], m, n - s[0].units);
        } else {
          DepletedOutside(s[1..], m, 0);
        }
      } else {
        DepletedOutside(s[1..], m, n);
      }
    }
  }

  /** Depleting nothing changes nothing. */
  lemma {:induction false} NothingDepleted(s: seq<Batch>, m: MarketName)
    ensures Depleted(s, m, 0) == s
  {
    if s != [] {
      NothingDepleted(s[1..], m);
    }
  }

  /** Stable sorting commutes with picking out one market's batches. */
  lemma {:induction false} SortByAgeInMarket(s: seq<Batch>, m: MarketName)
    ensures InMarket(SortByAge(s), m) == SortByAge(InMarket(s, m))
  {
    if s != [] {
      SortByAgeInMarket(s[1..], m);
      SortByAgeFacts(s[1..]);
      InsertInMarket(s[0], SortByAge(s[1..]), m);
    }
  }

  lemma {:induction false} InsertInMarket(b: Batch, s: seq<Batch>, m: MarketName)
    requires SortedByAge(s)
    ensures InMarket(InsertByAge(b, s), m) ==
              if b.market == m then InsertByAge(b, InMarket(s, m)) else InMarket(s, m)
  {
    if s == [] || b.age >= s[0].age {
      assert InsertByAge(b, s) == [b] + s;
      assert ([b] + s)[1..] == s;
      if b.market == m && InMarket(s, m) != [] {
        InMarketOlder(s, m);
      }
    } else {
      assert SortedByAge(s[1..]);
      InsertInMarket(b, s[1..], m);
      assert InsertByAge(b, s) == [s[0]] + InsertByAge(b, s[1..]);
      assert ([s[0]] + InsertByAge(b, s[1..]))[1..] == InsertByAge(b, s[1..]);
    }
  }

  /** In an age-ordered list the first batch of any market is no older than
      the list's head. */
  lemma {:induction false} InMarketOlder(s: seq<Batch>, m: MarketName)
    requires SortedByAge(s) && InMarket(s, m) != []
    ensures InMarket(s, m)[0].age <= s[0].age
  {
    if s[0].market != m {
      assert SortedByAge(s[1..]);
      InMarketOlder(s[1..], m);
    }
  }

  /** Picking out one market, or all the others, keeps positivity. */
  lemma {:induction false} InMarketPositive(s: seq<Batch>, m: MarketName)
    requires AllPositive(s)
    ensures AllPositive(InMarket(s, m)) && AllPositive(OutsideMarket(s, m))
  {
    if s != [] {
      InMarketPositive(s[1..], m);
    }
  }

  lemma {:induction false} SortByAgeUnits(s: seq<Batch>)
    ensures Units(SortByAge(s)) == Units(s)
  {
    if s != [] {
      SortByAgeUnits(s[1..]);
      InsertUnits(s[0], SortByAge(s[1..]));
    }
  }

  lemma {:induction false} InsertUnits(b: Batch, s: seq<Batch>)
    ensures Units(InsertByAge(b, s)) == b.units + Units(s)
  {
    if s != [] && b.age < s[0].age {
      InsertUnits(b, s[1..]);
    }
  }

  lemma SortByAgePositive(s: seq<Batch>)
    requires AllPositive(s)
    ensures AllPositive(SortByAge(s))
  {
    SortByAgeFacts(s);
    forall k | 0 <= k < |SortByAge(s)| ensures SortByAge(s)[k].units > 0 {
      assert SortByAge(s)[k] in multiset(SortByAge(s));
    }
  }

  /** Selling n units in market m at close, from positive batches, takes the
      oldest of m's batches first exactly as processFIFO does on m's batches,
      removes exactly min(n, stock in m) units, and leaves the batches of
      every other market as they were. */
  lemma SellInMarketFacts(inventory: seq<Batch>, m: MarketName, n: int)
    requires AllPositive(inventory)
    ensures InMarket(SellInMarket(inventory, m, n), m) == Fifo(SortByAge(InMarket(inventory, m)), n)
    ensures InMarket(SellInMarket(inventory, m, n), m) == Fifo(Positive(SortByAge(InMarket(inventory, m))), n)
    ensures OutsideMarket(SellInMarket(inventory, m, n), m) == OutsideMarket(SortByAge(inventory), m)
    ensures StockIn(SellInMarket(inventory, m, n), m) == StockIn(inventory, m) - Min(Max(n, 0), StockIn(inventory, m))
    ensures Units(SellInMarket(inventory, m, n)) == Units(inventory) - Min(Max(n, 0), StockIn(inventory, m))
    ensures AllPositive(SellInMarket(inventory, m, n))
  {
    var sorted := SortByAge(inventory);
    SortByAgePositive(inventory);
    DepletedIsFifo(sorted, m, n);
    DepletedOutside(sorted, m, n);
    SortByAgeInMarket(inventory, m);
    var mine := InMarket(inventory, m);
    InMarketPositive(inventory, m);
    SortByAgePositive(mine);
    PositiveIdentity(SortByAge(mine));
    FifoUnits(SortByAge(mine), n);
    SortByAgeUnits(mine);
    var r := SellInMarket(inventory, m, n);
    UnitsSplitByMarket(r, m);
    UnitsSplitByMarket(sorted, m);
    SortByAgeUnits(inventory);
    UnitsSplitByMarket(inventory, m);
  }

  /** No two results name the same market. */
  predicate DistinctMarkets(results: seq<MarketResult>)
  {
    forall a, b :: 0 <= a < b < |results| ==> results[a].market != results[b].market
  }

  /** Every result sells a non-negative number of units, no more than the
      company holds in that market. */
  predicate SalesWithinStock(inventory: seq<Batch>, results: seq<MarketResult>)
  {
    forall i :: 0 <= i < |results| ==> 0 <= results[i].row.unitsSold <= StockIn(inventory, results[i].market)
  }

  lemma {:induction false} InMarketOutside(s: seq<Batch>, m: MarketName, other: MarketName)
    requires m != other
    ensures InMarket(OutsideMarket(s, other), m) == InMarket(s, m)
  {
    if s != [] {
      InMarketOutside(s[1..], m, other);
    }
  }

  /** A sale in one market leaves the stock of every other market as it was. */
  lemma StockInOtherMarket(inventory: seq<Batch>, sold: MarketName, n: int, m: MarketName)
    requires AllPositive(inventory) && m != sold
    ensures StockIn(SellInMarket(inventory, sold, n), m) == StockIn(inventory, m)
  {
    var r := SellInMarket(inventory, sold, n);
    SellInMarketFacts(inventory, sold, n);
    InMarketOutside(r, m, sold);
    InMarketOutside(SortByAge(inventory), m, sold);
    SortByAgeInMarket(inventory, m);
    SortByAgeUnits(InMarket(inventory, m));
  }

  /** Sales in other markets keep the batches positive and leave market m's
      stock as it was. */
  lemma {:induction false} StockUntouched(inventory: seq<Batch>, results: seq<MarketResult>, m: MarketName)
    requires AllPositive(inventory)
    requires forall i :: 0 <= i < |results| ==> results[i].market != m
    ensures AllPositive(SellAll(inventory, results))
    ensures StockIn(SellAll(inventory, results), m) == StockIn(inventory, m)
  {
    if results != [] {
      var k := |results| - 1;
      StockUntouched(inventory, results[..k], m);
      var prev := SellAll(inventory, results[..k]);
      StockInOtherMarket(prev, results[k].market, results[k].row.unitsSold, m);
      SellInMarketFacts(prev, results[k].market, results[k].row.unitsSold);
    }
  }

  /** Units leave the inventory at close only through sales: when each market
      appears once and sells no more than the company holds there, the
      batches left hold exactly the units held less the units sold, and all
      of them are positive. */
  lemma {:induction false} SellAllConserves(inventory: seq<Batch>, results: seq<MarketResult>)
    requires AllPositive(inventory) && DistinctMarkets(results) && SalesWithinStock(inventory, results)
    ensures AllPositive(SellAll(inventory, results))
    ensures Units(SellAll(inventory, results)) == Units(inventory) - SoldIn(results)
  {
    if results != [] {
      var k := |results| - 1;
      var last := results[k];
      assert DistinctMarkets(results[..k]) && SalesWithinStock(inventory, results[..k]);
      SellAllConserves(inventory, results[..k]);
      StockUntouched(inventory, results[..k], last.market);
      SellInMarketFacts(SellAll(inventory, results[..k]), last.market, last.row.unitsSold);
    }
  }

  // ---------------------------------------------------------------------------
  // Phase 3: aging, cash and scorecard
  // ---------------------------------------------------------------------------

  function ProfitScore(cash: real): real
  {
    MinReal(cash / ProfitScale, 100.0)
  }

  /** The satisfaction the score uses: two points up, kept within [0, 100]. */
  function ScoredSatisfaction(satisfaction: real): real
  {
    MinReal(MaxReal(satisfaction + 2.0, 0.0), 100.0)
  }

  function Wsc(cash: real, satisfaction: real, ethics: real): real
  {
    ProfitScore(cash) * ProfitWeight + ScoredSatisfaction(satisfaction) * SatisfactionWeight + ethics * EthicsWeight
  }

  /** The scorecard stays within [0, 100] for non-negative cash and an ethics
      score within [0, 100], whatever the stored satisfaction; it grows with
      cash up to the profit cap. */
  lemma WscBounds(cash: real, satisfaction: real, ethics: real)
    requires cash >= 0.0 && 0.0 <= ethics <= 100.0
    ensures 0.0 <= Wsc(cash, satisfaction, ethics) <= 100.0
    ensures 0.0 <= ScoredSatisfaction(satisfaction) <= 100.0
    ensures forall more: real :: cash <= more ==> Wsc(cash, satisfaction, ethics) <= Wsc(more, satisfaction, ethics)
  {
    forall more: real | cash <= more ensures ProfitScore(cash) <= ProfitScore(more) {
      assert cash / ProfitScale <= more / ProfitScale;
    }
  }

  /** The record after phase 3: batches sold market by market, aged and
      charged storage; cash settled; the scorecard, one history entry and the
      company's round written. */
  function Close(rec: CompanyRecord, s: Summary, rate: real, round: int): CompanyRecord
  {
    var sold := SellAll(rec.inventory, s.marketResults);
    Settle(rec, s, sold, StorageCost(sold, Some(rate)), round)
  }

  /** The close once the sales have left the inventory `sold`, whose storage
      costs `storage`. */
  function Settle(rec: CompanyRecord, s: Summary, sold: seq<Batch>, storage: real, round: int): CompanyRecord
  {
    var cash := rec.cash + s.totalRevenue - storage - s.marketing;
    var wsc := Wsc(cash, rec.kpi.satisfaction, rec.kpi.ethics);
    rec.(inventory := AgeAll(sold),
         cash := cash,
         kpi := rec.kpi.(wsc := wsc),
         history := rec.history + [HistoryEntry(round, cash, wsc, s.totalUnitsSold, s.totalRevenue)],
         currentRound := round + 1)
  }

  /** Closing is settling once the sales are made and storage is charged on
      the batches they leave. */
  lemma CloseIsSettle(rec: CompanyRecord, s: Summary, rate: real, round: int, sold: seq<Batch>, storage: real)
    requires sold == SellAll(rec.inventory, s.marketResults)
    requires storage == StorageCost(sold, Some(rate))
    ensures Close(rec, s, rate, round) == Settle(rec, s, sold, storage, round)
  {
  }

  /** When each market's sale is within the company's stock there, closing
      leaves positive, aged batches holding exactly the units held less the
      units sold, and storage is charged on exactly those units. */
  lemma CloseConserves(rec: CompanyRecord, s: Summary, rate: real, round: int)
    requires AllPositive(rec.inventory) && DistinctMarkets(s.marketResults)
    requires SalesWithinStock(rec.inventory, s.marketResults)
    ensures var out := Close(rec, s, rate, round);
            && AllPositive(out.inventory)
            && Units(out.inventory) == Units(rec.inventory) - SoldIn(s.marketResults)
            && out.cash == rec.cash + s.totalRevenue - (Units(rec.inventory) - SoldIn(s.marketResults)) as real * rate
                           - s.marketing
  {
    var sold := SellAll(rec.inventory, s.marketResults);
    assert AllPositive(sold) && Units(sold) == Units(rec.inventory) - SoldIn(s.marketResults) by {
      SellAllConserves(rec.inventory, s.marketResults);
    }
    assert StorageRate(Some(rate)) == rate;
    SettleConserves(rec, s, sold, Units(sold) as real * rate, round);
    assert Units(sold) as real * rate == (Units(rec.inventory) - SoldIn(s.marketResults)) as real * rate;
  }

  /** Settling ages the batches left without changing their units and takes
      the storage charge and the marketing spend from the cash. */
  lemma SettleConserves(rec: CompanyRecord, s: Summary, sold: seq<Batch>, storage: real, round: int)
    requires AllPositive(sold)
    ensures var out := Settle(rec, s, sold, storage, round);
            && AllPositive(out.inventory) && Units(out.inventory) == Units(sold)
            && out.cash == rec.cash + s.totalRevenue - storage - s.marketing
  {
    AgeAllFacts(sold);
  }

  function ResultOf(rec: CompanyRecord, s: Summary): RoundResult
  {
    RoundResult(rec.id, rec.name, s.totalUnitsSold, s.totalRevenue)
  }

  // ---------------------------------------------------------------------------
  // The whole round
  // ---------------------------------------------------------------------------

  /** Every company's record after phase 1, each with its own decision. */
  function AfterOperations(recs: seq<CompanyRecord>, decisions: map<CompanyId, Decision>, names: seq<MarketName>): (r: seq<CompanyRecord>)
    ensures |r| == |recs|
  {
    if recs == [] then []
    else [Phase1(recs[0], DecisionOf(decisions, recs[0].id), names)] + AfterOperations(recs[1..], decisions, names)
  }

  /** Every company's summary entry after phase 1. */
  function OperationSummaries(recs: seq<CompanyRecord>, decisions: map<CompanyId, Decision>, names: seq<MarketName>): (r: seq<Summary>)
    ensures |r| == |recs|
  {
    if recs == [] then []
    else [Phase1Summary(recs[0], DecisionOf(decisions, recs[0].id), names)] + OperationSummaries(recs[1..], decisions, names)
  }

  /** Company j's entries after phase 1 are its own phase 1 under its own
      decision. */
  lemma OperationsAt(recs: seq<CompanyRecord>, decisions: map<CompanyId, Decision>, names: seq<MarketName>, j: nat)
    requires j < |recs|
    ensures AfterOperations(recs, decisions, names)[j] == Phase1(recs[j], DecisionOf(decisions, recs[j].id), names)
    ensures OperationSummaries(recs, decisions, names)[j] == Phase1Summary(recs[j], DecisionOf(decisions, recs[j].id), names)
  {
    AfterOperationsAt(recs, decisions, names, j);
    OperationSummariesAt(recs, decisions, names, j);
  }

  lemma {:induction false} AfterOperationsAt(recs: seq<CompanyRecord>, decisions: map<CompanyId, Decision>, names: seq<MarketName>, j: nat)
    requires j < |recs|
    ensures AfterOperations(recs, decisions, names)[j] == Phase1(recs[j], DecisionOf(decisions, recs[j].id), names)
  {
    if j > 0 {
      AfterOperationsAt(recs[1..], decisions, names, j - 1);
      assert recs[1..][j - 1] == recs[j];
    }
  }

  lemma {:induction false} OperationSummariesAt(recs: seq<CompanyRecord>, decisions: map<CompanyId, Decision>, names: seq<MarketName>, j: nat)
    requires j < |recs|
    ensures OperationSummaries(recs, decisions, names)[j] == Phase1Summary(recs[j], DecisionOf(decisions, recs[j].id), names)
  {
    if j > 0 {
      OperationSummariesAt(recs[1..], decisions, names, j - 1);
      assert recs[1..][j - 1] == recs[j];
    }
  }

  /** Every company's summary after phase 1 and the markets' verdicts (rows[i]
      is market names[i]'s verdict on every company, in company order). */
  function RoundSummaries(recs: seq<CompanyRecord>, decisions: map<CompanyId, Decision>, names: seq<MarketName>,
                          rows: seq<seq<MarketRow>>): (r: seq<Summary>)
    requires |rows| == |names| && RowTable(rows, |recs|)
    ensures |r| == |recs|
  {
    Allocated(OperationSummaries(recs, decisions, names), names, rows)
  }

  /** Phase 3 applied to every company, each with its own summary. */
  function ClosedRecords(recs: seq<CompanyRecord>, sums: seq<Summary>, rate: real, round: int): (r: seq<CompanyRecord>)
    requires |sums| == |recs|
    ensures |r| == |recs|
  {
    seq(|recs|, j requires 0 <= j < |recs| => Close(recs[j], sums[j], rate, round))
  }

  /** What phase 3 reports for every company, each with its own summary. */
  function ClosedResults(recs: seq<CompanyRecord>, sums: seq<Summary>): (r: seq<RoundResult>)
    requires |sums| == |recs|
    ensures |r| == |recs|
  {
    seq(|recs|, j requires 0 <= j < |recs| => ResultOf(recs[j], sums[j]))
  }

  /** Every company's record once the round is closed. */
  function RoundRecords(recs: seq<CompanyRecord>, decisions: map<CompanyId, Decision>, names: seq<MarketName>,
                        rows: seq<seq<MarketRow>>, rate: real, round: int): (r: seq<CompanyRecord>)
    requires |rows| == |names| && RowTable(rows, |recs|)
    ensures |r| == |recs|
  {
    ClosedRecords(AfterOperations(recs, decisions, names), RoundSummaries(recs, decisions, names, rows), rate, round)
  }

  /** What the round reports, one entry per company in company order. */
  function RoundResults(recs: seq<CompanyRecord>, decisions: map<CompanyId, Decision>, names: seq<MarketName>,
                        rows: seq<seq<MarketRow>>): (r: seq<RoundResult>)
    requires |rows| == |names| && RowTable(rows, |recs|)
    ensures |r| == |recs|
  {
    ClosedResults(AfterOperations(recs, decisions, names), RoundSummaries(recs, decisions, names, rows))
  }

  /** A closed round reports, for every company and in company order, its
      units sold and revenue summed over the markets in market order, each
      market contributing its verdict on that company. */
  lemma RoundSales(recs: seq<CompanyRecord>, decisions: map<CompanyId, Decision>, names: seq<MarketName>,
                   rows: seq<seq<MarketRow>>, j: nat)
    requires |rows| == |names| && RowTable(rows, |recs|) && j < |recs|
    ensures var results := RoundSummaries(recs, decisions, names, rows)[j].marketResults;
            && |results| == |names|
            && (forall i :: 0 <= i < |names| ==> results[i] == MarketResult(names[i], rows[i][j]))
            && RoundResults(recs, decisions, names, rows)[j] ==
                 RoundResult(recs[j].id, recs[j].name, SoldIn(results), EarnedIn(results))
  {
    var s0 := OperationSummaries(recs, decisions, names);
    var after := AfterOperations(recs, decisions, names);
    var sums := RoundSummaries(recs, decisions, names, rows);
    AllocatedResults(s0, names, rows, j);
    AllocatedTotals(s0, names, rows, j);
    OperationsAt(recs, decisions, names, j);
    assert s0[j].marketResults == [] && s0[j].totalUnitsSold == 0 && s0[j].totalRevenue == 0.0;
    var r := ResultsFor(names, rows, j);
    assert sums[j].marketResults == [] + r == r;
    assert after[j] == Phase1(recs[j], DecisionOf(decisions, recs[j].id), names);
    Phase1Keeps(recs[j], DecisionOf(decisions, recs[j].id), names);
    assert RoundResults(recs, decisions, names, rows)[j] == ResultOf(after[j], sums[j]);
  }

  /** A company's cost lines in the round summary are phase 1's bills and
      its marketing spend, untouched by the market phase. */
  lemma RoundCosts(recs: seq<CompanyRecord>, decisions: map<CompanyId, Decision>, names: seq<MarketName>,
                   rows: seq<seq<MarketRow>>, j: nat)
    requires |rows| == |names| && RowTable(rows, |recs|) && j < |recs|
    ensures var s := RoundSummaries(recs, decisions, names, rows)[j];
            var p := Phase1Summary(recs[j], DecisionOf(decisions, recs[j].id), names);
            && s.mpCost == p.mpCost && s.prodCost == p.prodCost && s.logisticCost == p.logisticCost
            && s.marketing == MarketingSpend(DecisionOf(decisions, recs[j].id))
  {
    var s0 := OperationSummaries(recs, decisions, names);
    AllocatedTotals(s0, names, rows, j);
    OperationsAt(recs, decisions, names, j);
  }

  /** Company j's closed record and reported result come from its record
      after phase 1 and its summary after phase 2. */
  lemma RoundAt(recs: seq<CompanyRecord>, decisions: map<CompanyId, Decision>, names: seq<MarketName>,
                rows: seq<seq<MarketRow>>, rate: real, round: int, j: nat)
    requires |rows| == |names| && RowTable(rows, |recs|) && j < |recs|
    ensures var after := AfterOperations(recs, decisions, names)[j];
            var sums := RoundSummaries(recs, decisions, names, rows)[j];
            && after == Phase1(recs[j], DecisionOf(decisions, recs[j].id), names)
            && RoundRecords(recs, decisions, names, rows, rate, round)[j] == Close(after, sums, rate, round)
            && RoundResults(recs, decisions, names, rows)[j] == ResultOf(after, sums)
  {
    OperationsAt(recs, decisions, names, j);
  }

  /** Closing a company's round appends exactly one history entry (earlier
      entries untouched) recording the round, the settled cash, the new score
      and the reported sales; the score is recomputed from the stored
      satisfaction and ethics, which stay as they were; and the company's
      round moves past the one closed. */
  lemma RoundBookkeeping(recs: seq<CompanyRecord>, decisions: map<CompanyId, Decision>, names: seq<MarketName>,
                         rows: seq<seq<MarketRow>>, rate: real, round: int, j: nat)
    requires |rows| == |names| && RowTable(rows, |recs|) && j < |recs|
    ensures var out := RoundRecords(recs, decisions, names, rows, rate, round)[j];
            var res := RoundResults(recs, decisions, names, rows)[j];
            && out.history == recs[j].history + [HistoryEntry(round, out.cash, out.kpi.wsc, res.unitsSold, res.revenue)]
            && out.currentRound == round + 1
            && out.id == recs[j].id && out.name == recs[j].name
            && out.kpi.satisfaction == recs[j].kpi.satisfaction && out.kpi.ethics == recs[j].kpi.ethics
            && out.kpi.wsc == Wsc(out.cash, recs[j].kpi.satisfaction, recs[j].kpi.ethics)
  {
    var after := AfterOperations(recs, decisions, names)[j];
    var sums := RoundSummaries(recs, decisions, names, rows)[j];
    RoundAt(recs, decisions, names, rows, rate, round, j);
    Phase1Keeps(recs[j], DecisionOf(decisions, recs[j].id), names);
    CloseFacts(after, sums, rate, round);
  }

  /** Markets with distinct names. */
  predicate DistinctNames(markets: seq<Market>)
  {
    forall a, b :: 0 <= a < b < |markets| ==> markets[a].name != markets[b].name
  }

  /** Every shipment in transit carries at least one unit. */
  predicate PositiveShipments(t: seq<Shipment>)
  {
    forall k :: 0 <= k < |t| ==> t[k].units > 0
  }

  /** Over a whole round, with distinct markets of non-negative demand and a
      company holding and shipping positive quantities, the batches the
      company ends with are positive and hold exactly the units it held after
      phase 1 less the units the round reports it sold: the verdicts of phase
      2 never sell stock that phase 3 cannot find. */
  lemma RoundConservesStock(recs: seq<CompanyRecord>, decisions: map<CompanyId, Decision>, markets: seq<Market>,
                            ln: real -> real, rate: real, round: int, j: nat)
    requires LogPositive(ln) && j < |recs|
    requires DistinctNames(markets) && forall i :: 0 <= i < |markets| ==> markets[i].totalDemand >= 0.0
    requires AllPositive(recs[j].inventory) && PositiveShipments(recs[j].inTransit)
    ensures var names := MarketNames(markets);
            var after := AfterOperations(recs, decisions, names);
            var rows := MarketRows(after, decisions, markets, ln);
            var out := RoundRecords(recs, decisions, names, rows, rate, round)[j];
            && AllPositive(out.inventory)
            && Units(out.inventory) == Units(after[j].inventory) - RoundResults(recs, decisions, names, rows)[j].unitsSold
  {
    var names := MarketNames(markets);
    var after := AfterOperations(recs, decisions, names);
    var rows := MarketRows(after, decisions, markets, ln);
    var sums := RoundSummaries(recs, decisions, names, rows);
    RoundAt(recs, decisions, names, rows, rate, round, j);
    RoundSales(recs, decisions, names, rows, j);
    Phase1Positive(recs[j], DecisionOf(decisions, recs[j].id), names);
    RoundSalesWithinStock(recs, decisions, markets, ln, j);
    CloseConserves(after[j], sums[j], rate, round);
  }

  /** Over a whole round a company's units, wherever they are, change only by
      the raw material it buys and the units it sells: phase 1 only buys,
      phase 2 only books sales and phase 3 removes exactly the units booked
      from the batches and touches nothing else. */
  lemma RoundTotalStock(recs: seq<CompanyRecord>, decisions: map<CompanyId, Decision>, markets: seq<Market>,
                        ln: real -> real, rate: real, round: int, j: nat)
    requires LogPositive(ln) && j < |recs|
    requires DistinctNames(markets) && forall i :: 0 <= i < |markets| ==> markets[i].totalDemand >= 0.0
    requires AllPositive(recs[j].inventory) && PositiveShipments(recs[j].inTransit)
    ensures var names := MarketNames(markets);
            var rows := MarketRows(AfterOperations(recs, decisions, names), decisions, markets, ln);
            TotalStock(RoundRecords(recs, decisions, names, rows, rate, round)[j]) ==
              TotalStock(recs[j]) + ProcurementUnits(DecisionOf(decisions, recs[j].id))
              - RoundResults(recs, decisions, names, rows)[j].unitsSold
  {
    var names := MarketNames(markets);
    var after := AfterOperations(recs, decisions, names);
    var rows := MarketRows(after, decisions, markets, ln);
    var sums := RoundSummaries(recs, decisions, names, rows);
    RoundConservesStock(recs, decisions, markets, ln, rate, round, j);
    RoundAt(recs, decisions, names, rows, rate, round, j);
    CloseFacts(after[j], sums[j], rate, round);
    Phase1Stock(recs[j], DecisionOf(decisions, recs[j].id), names);
  }

  /** Phase 1 keeps the batches positive when the batches and the shipments
      in transit are. */
  lemma Phase1Positive(rec: CompanyRecord, d: Option<Decision>, names: seq<MarketName>)
    requires AllPositive(rec.inventory) && PositiveShipments(rec.inTransit)
    ensures AllPositive(Phase1(rec, d, names).inventory)
  {
    var b := BeforeDispatch(rec, d);
    DispatchKeepsStock(b, LogisticsLines(d), names);
    ArrivalsSound(rec.inTransit);
    var arrived := Arrivals(rec.inTransit);
    forall k | 0 <= k < |arrived| ensures arrived[k].units > 0 {
      assert arrived[k] in arrived;
    }
    assert b.inventory == rec.inventory + arrived;
  }

  /** The sales phase 2 books for company j name each market once and never
      exceed the stock the company holds there after phase 1. */
  lemma RoundSalesWithinStock(recs: seq<CompanyRecord>, decisions: map<CompanyId, Decision>, markets: seq<Market>,
                              ln: real -> real, j: nat)
    requires LogPositive(ln) && j < |recs|
    requires DistinctNames(markets) && forall i :: 0 <= i < |markets| ==> markets[i].totalDemand >= 0.0
    requires AllPositive(AfterOperations(recs, decisions, MarketNames(markets))[j].inventory)
    ensures var names := MarketNames(markets);
            var after := AfterOperations(recs, decisions, names);
            var results := RoundSummaries(recs, decisions, names, MarketRows(after, decisions, markets, ln))[j].marketResults;
            DistinctMarkets(results) && SalesWithinStock(after[j].inventory, results)
  {
    var names := MarketNames(markets);
    var after := AfterOperations(recs, decisions, names);
    var rows := MarketRows(after, decisions, markets, ln);
    var results := RoundSummaries(recs, decisions, names, rows)[j].marketResults;
    RoundSales(recs, decisions, names, rows, j);
    MarketRowsAt(after, decisions, markets, ln);
    ResultsWithinStock(results, markets, rows, after, decisions, ln, j);
  }

  /** Results that hold, market by market, each market's verdict on company
      j name each market once and sell within the company's stock there. */
  lemma ResultsWithinStock(results: seq<MarketResult>, markets: seq<Market>, verdicts: seq<seq<MarketRow>>,
                           recs: seq<CompanyRecord>, decisions: map<CompanyId, Decision>, ln: real -> real, j: nat)
    requires LogPositive(ln) && j < |recs| && AllPositive(recs[j].inventory)
    requires DistinctNames(markets) && forall i :: 0 <= i < |markets| ==> markets[i].totalDemand >= 0.0
    requires |results| == |markets| == |verdicts|
    requires forall i :: 0 <= i < |markets| ==> verdicts[i] == Rows(recs, decisions, markets[i], ln)
    requires forall i :: 0 <= i < |markets| ==> j < |verdicts[i]| && results[i] == MarketResult(markets[i].name, verdicts[i][j])
    ensures DistinctMarkets(results) && SalesWithinStock(recs[j].inventory, results)
  {
    forall i | 0 <= i < |results|
      ensures 0 <= results[i].row.unitsSold <= StockIn(recs[j].inventory, results[i].market)
    {
      VerdictWithinStock(recs, decisions, markets[i], ln, j);
    }
  }

  /** One market's verdict on company j sells between nothing and the stock
      the company holds in that market. */
  lemma VerdictWithinStock(recs: seq<CompanyRecord>, decisions: map<CompanyId, Decision>, m: Market,
                           ln: real -> real, j: nat)
    requires LogPositive(ln) && j < |recs| && m.totalDemand >= 0.0 && AllPositive(recs[j].inventory)
    ensures 0 <= Rows(recs, decisions, m, ln)[j].unitsSold <= StockIn(recs[j].inventory, m.name)
  {
    var cs := Competitors(recs, decisions, m.name);
    MarketDemandBound(cs, m.totalDemand, ln);
    InMarketPositive(recs[j].inventory, m.name);
    UnitsNonNegative(InMarket(recs[j].inventory, m.name));
  }

  /** Closing settles the cash with the summary's revenue, less the storage
      charged on the batches left after the sales and less the marketing
      spend; it appends one history entry and advances the round, and keeps
      the company's identity, satisfaction and ethics, and its raw material,
      factory stock and shipments in transit. */
  lemma CloseFacts(rec: CompanyRecord, s: Summary, rate: real, round: int)
    ensures var out := Close(rec, s, rate, round);
            && out.cash == rec.cash + s.totalRevenue - Units(SellAll(rec.inventory, s.marketResults)) as real * rate - s.marketing
            && out.history == rec.history + [HistoryEntry(round, out.cash, out.kpi.wsc, s.totalUnitsSold, s.totalRevenue)]
            && out.currentRound == round + 1
            && out.id == rec.id && out.name == rec.name
            && out.kpi.satisfaction == rec.kpi.satisfaction && out.kpi.ethics == rec.kpi.ethics
            && out.kpi.wsc == Wsc(out.cash, rec.kpi.satisfaction, rec.kpi.ethics)
    ensures var out := Close(rec, s, rate, round);
            && out.rawUnits == rec.rawUnits && out.factoryUnits == rec.factoryUnits
            && out.factoryUnitCost == rec.factoryUnitCost && out.inTransit == rec.inTransit
  {
    assert StorageRate(Some(rate)) == rate;
  }
}
