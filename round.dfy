/** The round processor: a company object updated in place phase by phase,
    and the round that runs every company through operations, every market
    and the close. Each step is proved to leave the state the rules in
    module RoundRules describe. */
module Round {
  import opened Domain
  import opened Inventory
  import opened MarketEngine
  import opened RoundRules

  /** A company document as the round processor holds it in memory. */
  class Company {
    const id: CompanyId
    const name: string
    var cash: real
    var rawUnits: int
    var factoryUnits: int
    var factoryUnitCost: real
    var inventory: seq<Batch>
    var inTransit: seq<Shipment>
    var kpi: Kpi
    var history: seq<HistoryEntry>
    var currentRound: int

    /** The document's current contents. */
    function Record(): CompanyRecord
      reads this
    {
      CompanyRecord(id, name, cash, rawUnits, factoryUnits, factoryUnitCost, inventory, inTransit, kpi, history, currentRound)
    }

    constructor (rec: CompanyRecord)
      ensures Record() == rec
    {
      id := rec.id;
      name := rec.name;
      cash := rec.cash;
      rawUnits := rec.rawUnits;
      factoryUnits := rec.factoryUnits;
      factoryUnitCost := rec.factoryUnitCost;
      inventory := rec.inventory;
      inTransit := rec.inTransit;
      kpi := rec.kpi;
      history := rec.history;
      currentRound := rec.currentRound;
    }

    /** Shipments due this round become batches at their destination, after
        the existing inventory; the others stay in transit one round nearer. */
    method ReceiveArrivals()
      modifies this
      ensures Record() == AfterArrivals(old(Record()))
    {
      var arriving: seq<Batch> := [];
      var remaining: seq<Shipment> := [];
      var i := 0;
      while i < |inTransit|
        invariant 0 <= i <= |inTransit|
        invariant arriving + Arrivals(inTransit[i..]) == Arrivals(inTransit)
        invariant remaining + StillInTransit(inTransit[i..]) == StillInTransit(inTransit)
      {
        var shipment := inTransit[i];
        assert inTransit[i..][1..] == inTransit[i + 1..];
        if shipment.roundsRemaining <= 1 {
          arriving := arriving + [ArrivedBatch(shipment)];
        } else {
          remaining := remaining + [shipment.(roundsRemaining := shipment.roundsRemaining - 1)];
        }
        i := i + 1;
      }
      inventory := inventory + arriving;
      inTransit := remaining;
    }

    /** Buys raw material at RawMaterialCost per unit. */
    method Procure(units: int) returns (cost: real)
      modifies this
      ensures cost == units as real * RawMaterialCost
      ensures Record() == AfterProcurement(old(Record()), units)
    {
      cost := units as real * RawMaterialCost;
      cash := cash - cost;
      rawUnits := rawUnits + units;
    }

    /** Produces as much of the desired quantity as the raw material allows,
        at ManufacturingCost per unit, and merges the output into the factory
        stock at the weighted-average unit cost. */
    method Produce(desired: int) returns (produced: int, cost: real)
      modifies this
      ensures produced == Produced(old(rawUnits), desired)
      ensures cost == produced as real * ManufacturingCost
      ensures Record() == AfterProduction(old(Record()), desired)
    {
      ghost var rec := Record();
      if rawUnits >= desired {
        produced := desired;
        rawUnits := rawUnits - desired;
      } else {
        produced := rawUnits;
        rawUnits := 0;
      }
      cost := produced as real * ManufacturingCost;
      cash := cash - cost;
      var currentFactoryUnits := factoryUnits;
      var currentFactoryCost := factoryUnitCost;
      var totalValue := currentFactoryUnits as real * currentFactoryCost + produced as real * ProductionUnitCost;
      var newTotalUnits := currentFactoryUnits + produced;
      factoryUnitCost := if newTotalUnits > 0 then totalValue / newTotalUnits as real else 0.0;
      factoryUnits := newTotalUnits;
      AverageCostIs(currentFactoryUnits, currentFactoryCost, produced, totalValue, newTotalUnits);
    }

    /** Sends each logistics line's request, capped by what the factory still
        holds, into transit; a line that would ship nothing is skipped. */
    method Dispatch(lines: seq<LogisticsLine>, names: seq<MarketName>) returns (logisticCost: real)
      modifies this
      ensures logisticCost == ShippingCost(ShipmentsFrom(old(Record()), lines, names))
      ensures Record() == AfterDispatch(old(Record()), lines, names)
    {
      ghost var rec := Record();
      logisticCost := 0.0;
      var i := 0;
      while i < |lines|
        invariant 0 <= i <= |lines|
        invariant AfterDispatch(Record(), lines[i..], names) == AfterDispatch(rec, lines, names)
        invariant logisticCost + ShippingCost(ShipmentsFrom(Record(), lines[i..], names))
                  == ShippingCost(ShipmentsFrom(rec, lines, names))
      {
        var line := lines[i];
        ghost var before := Record();
        DispatchStep(before, lines[i..], names);
        assert lines[i..][1..] == lines[i + 1..];
        var unitsToShip := Min(line.units, factoryUnits);
        if unitsToShip > 0 {
          factoryUnits := factoryUnits - unitsToShip;
          var shipmentCost := unitsToShip as real * ShippingRate(line.mode);
          cash := cash - shipmentCost;
          logisticCost := logisticCost + shipmentCost;
          var destination := if line.destination in names then line.destination else FallbackMarket;
          inTransit := inTransit + [Shipment(unitsToShip, destination, line.mode, TransitRounds(line.mode), factoryUnitCost)];
        }
        assert Record() == ShipLine(before, line, names);
        i := i + 1;
      }
    }

    /** Phase 1 for this company: arrivals, procurement, production and
        dispatch as its decision (or the defaults for none) asks, returning
        its entry in the financial summary. */
    method RunOperations(d: Option<Decision>, names: seq<MarketName>) returns (summary: Summary)
      modifies this
      ensures Record() == Phase1(old(Record()), d, names)
      ensures summary == Phase1Summary(old(Record()), d, names)
    {
      ghost var rec := Record();
      ReceiveArrivals();
      var costOfMp := Procure(ProcurementUnits(d));
      var produced, costOfProduction := Produce(ProductionUnits(d));
      ghost var made := Record();
      var logisticExpenses := Dispatch(LogisticsLines(d), names);
      summary := Summary(costOfMp, costOfProduction, logisticExpenses, MarketingSpend(d), 0.0, 0, []);
      assert made == BeforeDispatch(rec, d);
      Phase1SummaryIs(rec, d, names, produced, costOfProduction, logisticExpenses);
    }

    /** Phase 3 for this company: each market's sales taken from that
        market's batches oldest first, the inventory aged and charged storage,
        the cash settled, the scorecard, history and round written; returns
        what the round reports for the company. */
    method CloseRound(summary: Summary, storageRate: real, round: int) returns (result: RoundResult)
      modifies this
      ensures Record() == Close(old(Record()), summary, storageRate, round)
      ensures result == ResultOf(old(Record()), summary)
    {
      ghost var rec := Record();
      var currentInventory := SellMarkets(inventory, summary.marketResults);
      var updatedInventory, totalStorageCost := AgeInventory(currentInventory, Some(storageRate));
      assert totalStorageCost == StorageCost(currentInventory, Some(storageRate));
      CloseIsSettle(rec, summary, storageRate, round, currentInventory, totalStorageCost);
      inventory := updatedInventory;
      var newCash := cash + summary.totalRevenue - totalStorageCost - summary.marketing;
      cash := newCash;
      var wsc := Wsc(newCash, kpi.satisfaction, kpi.ethics);
      kpi := kpi.(wsc := wsc);
      history := history + [HistoryEntry(round, newCash, wsc, summary.totalUnitsSold, summary.totalRevenue)];
      currentRound := round + 1;
      result := RoundResult(id, name, summary.totalUnitsSold, summary.totalRevenue);
      assert Record() == Settle(rec, summary, currentInventory, totalStorageCost, round);
    }
  }

  /** Every market's sale at close, in the order of the company's results. */
  method SellMarkets(inventory: seq<Batch>, results: seq<MarketResult>) returns (currentInventory: seq<Batch>)
    ensures currentInventory == SellAll(inventory, results)
  {
    currentInventory := inventory;
    var k := 0;
    while k < |results|
      invariant 0 <= k <= |results|
      invariant currentInventory == SellAll(inventory, results[..k])
    {
      assert results[..k + 1][..k] == results[..k];
      currentInventory := DepleteMarket(currentInventory, results[k].market, results[k].row.unitsSold);
      k := k + 1;
    }
    assert results[..k] == results;
  }

  /** One market's sale at close: the inventory sorted oldest first, the sold
      units taken from that market's batches in order, empty batches pruned. */
  method DepleteMarket(currentInventory: seq<Batch>, market: MarketName, unitsSold: int) returns (r: seq<Batch>)
    ensures r == SellInMarket(currentInventory, market, unitsSold)
  {
    var sorted := SortByAge(currentInventory);
    var remainingToSell := unitsSold;
    var mapped: seq<Batch> := [];
    var i := 0;
    while i < |sorted|
      invariant 0 <= i <= |sorted|
      invariant mapped + Depleted(sorted[i..], market, remainingToSell) == Depleted(sorted, market, unitsSold)
    {
      var batch := sorted[i];
      assert sorted[i..][1..] == sorted[i + 1..];
      if batch.market == market && remainingToSell > 0 {
        if batch.units <= remainingToSell {
          remainingToSell := remainingToSell - batch.units;
          batch := batch.(units := 0);
        } else {
          batch := batch.(units := batch.units - remainingToSell);
          remainingToSell := 0;
        }
      }
      mapped := mapped + [batch];
      i := i + 1;
    }
    assert mapped == Depleted(sorted, market, unitsSold);
    r := Positive(mapped);
  }

  /** The documents of a list of companies, in list order. */
  function Records(companies: seq<Company>): (r: seq<CompanyRecord>)
    reads set c | c in companies
    ensures |r| == |companies|
    ensures forall j :: 0 <= j < |companies| ==> r[j] == companies[j].Record()
  {
    seq(|companies|, j reads companies requires 0 <= j < |companies| => companies[j].Record())
  }

  /** The companies' offers in one market and the market engine's verdict on
      them, in company order. */
  method EvaluateMarket(companies: seq<Company>, decisions: map<CompanyId, Decision>, market: Market,
                        ln: real -> real) returns (plazaResults: seq<MarketRow>)
    requires LogPositive(ln)
    ensures plazaResults == Rows(Records(companies), decisions, market, ln)
  {
    var marketCompetitors: seq<Competitor> := [];
    var j := 0;
    while j < |companies|
      invariant 0 <= j <= |companies|
      invariant |marketCompetitors| == j
      invariant forall k :: 0 <= k < j ==>
                  marketCompetitors[k] == CompetitorOf(companies[k].Record(), DecisionOf(decisions, companies[k].id), market.name)
    {
      var c := companies[j];
      var decision := DecisionOf(decisions, c.id);
      var stockInMarket := StockIn(c.inventory, market.name);
      marketCompetitors := marketCompetitors + [Competitor(c.id, OfferedPrice(decision), MarketingSpend(decision), stockInMarket)];
      j := j + 1;
    }
    assert marketCompetitors == Competitors(Records(companies), decisions, market.name);
    plazaResults := CalculateMarketSales(marketCompetitors, market.totalDemand, ln);
  }

  /** Adds one market's verdict to every company's summary. */
  method Accumulate(summaries: seq<Summary>, marketName: MarketName, plazaResults: seq<MarketRow>)
    returns (next: seq<Summary>)
    requires |plazaResults| == |summaries|
    ensures next == AddVerdict(summaries, marketName, plazaResults)
  {
    next := summaries;
    var j := 0;
    while j < |plazaResults|
      invariant 0 <= j <= |plazaResults| && |next| == |summaries|
      invariant forall k :: 0 <= k < j ==> next[k] == AddResult(summaries[k], marketName, plazaResults[k])
      invariant forall k :: j <= k < |summaries| ==> next[k] == summaries[k]
    {
      next := next[j := AddResult(next[j], marketName, plazaResults[j])];
      j := j + 1;
    }
  }

  /** Phase 1 for the j-th company of the round, under its own decision. */
  method OperateAt(companies: seq<Company>, j: nat, decisions: map<CompanyId, Decision>, names: seq<MarketName>,
                   ghost before: seq<CompanyRecord>) returns (summary: Summary)
    requires j < |companies| == |before| && companies[j].Record() == before[j]
    modifies companies[j]
    ensures companies[j].Record() == AfterOperations(before, decisions, names)[j]
    ensures summary == OperationSummaries(before, decisions, names)[j]
  {
    OperationsAt(before, decisions, names, j);
    summary := companies[j].RunOperations(DecisionOf(decisions, companies[j].id), names);
  }

  /** Phase 1 over every company, in company order, each with its own
      decision; returns every company's entry in the financial summary. */
  method OperateAll(companies: seq<Company>, decisions: map<CompanyId, Decision>, names: seq<MarketName>)
    returns (summaries: seq<Summary>)
    requires forall a, b :: 0 <= a < b < |companies| ==> companies[a] != companies[b]
    modifies set c | c in companies
    ensures Records(companies) == AfterOperations(old(Records(companies)), decisions, names)
    ensures summaries == OperationSummaries(old(Records(companies)), decisions, names)
  {
    ghost var before := Records(companies);
    ghost var after := AfterOperations(before, decisions, names);
    ghost var sums := OperationSummaries(before, decisions, names);
    summaries := [];
    var j := 0;
    while j < |companies|
      invariant 0 <= j <= |companies| && |summaries| == j
      invariant forall k :: 0 <= k < j ==> companies[k].Record() == after[k] && summaries[k] == sums[k]
      invariant forall k :: j <= k < |companies| ==> companies[k].Record() == before[k]
    {
      var s := OperateAt(companies, j, decisions, names, before);
      summaries := summaries + [s];
      j := j + 1;
    }
    assert Records(companies) == after;
  }

  /** Phase 2: each market in turn judges every company on the stock it holds
      there, and the verdicts are added to the summaries. */
  method AllocateMarkets(companies: seq<Company>, decisions: map<CompanyId, Decision>, markets: seq<Market>,
                         s0: seq<Summary>, ln: real -> real) returns (summaries: seq<Summary>)
    requires LogPositive(ln) && |s0| == |companies|
    ensures summaries == Allocated(s0, MarketNames(markets), MarketRows(Records(companies), decisions, markets, ln))
  {
    ghost var recs := Records(companies);
    summaries := s0;
    var m := 0;
    while m < |markets|
      invariant 0 <= m <= |markets|
      invariant Records(companies) == recs
      invariant summaries == Allocated(s0, MarketNames(markets[..m]), MarketRows(recs, decisions, markets[..m], ln))
    {
      var plazaResults := EvaluateMarket(companies, decisions, markets[m], ln);
      AllocatedStep(s0, recs, decisions, markets, m, ln);
      summaries := Accumulate(summaries, markets[m].name, plazaResults);
      m := m + 1;
    }
    assert markets[..m] == markets;
  }

  /** Phase 3 over every company, in company order; returns what the round
      reports for each. */
  method CloseAll(companies: seq<Company>, summaries: seq<Summary>, storageRate: real, round: int)
    returns (finalResults: seq<RoundResult>)
    requires forall a, b :: 0 <= a < b < |companies| ==> companies[a] != companies[b]
    requires |summaries| == |companies|
    modifies set c | c in companies
    ensures Records(companies) == ClosedRecords(old(Records(companies)), summaries, storageRate, round)
    ensures finalResults == ClosedResults(old(Records(companies)), summaries)
  {
    ghost var before := Records(companies);
    finalResults := [];
    var j := 0;
    while j < |companies|
      invariant 0 <= j <= |companies| && |finalResults| == j
      invariant forall k :: 0 <= k < j ==>
                  companies[k].Record() == Close(before[k], summaries[k], storageRate, round)
                  && finalResults[k] == ResultOf(before[k], summaries[k])
      invariant forall k :: j <= k < |companies| ==> companies[k].Record() == before[k]
    {
      var result := companies[j].CloseRound(summaries[j], storageRate, round);
      finalResults := finalResults + [result];
      j := j + 1;
    }
    assert Records(companies) == ClosedRecords(before, summaries, storageRate, round);
  }

  /** Closes one round over every company: phase 1 for each company, then
      each market's verdict added to the summaries, then phase 3 for each
      company. The companies end as RoundRecords says and the round reports
      RoundResults, with the market verdicts taken on the companies as phase 1
      left them. */
  method ProcessRound(companies: seq<Company>, decisions: map<CompanyId, Decision>, markets: seq<Market>,
                      storageRate: real, round: int, ln: real -> real) returns (finalResults: seq<RoundResult>)
    requires LogPositive(ln)
    requires forall a, b :: 0 <= a < b < |companies| ==> companies[a] != companies[b]
    modifies set c | c in companies
    ensures var names := MarketNames(markets);
            var rows := MarketRows(AfterOperations(old(Records(companies)), decisions, names), decisions, markets, ln);
            && Records(companies) == RoundRecords(old(Records(companies)), decisions, names, rows, storageRate, round)
            && finalResults == RoundResults(old(Records(companies)), decisions, names, rows)
  {
    ghost var before := Records(companies);
    var names := MarketNames(markets);
    var s0 := OperateAll(companies, decisions, names);
    ghost var after := Records(companies);
    var summaries := AllocateMarkets(companies, decisions, markets, s0, ln);
    ghost var rows := MarketRows(after, decisions, markets, ln);
    assert summaries == RoundSummaries(before, decisions, names, rows);
    finalResults := CloseAll(companies, summaries, storageRate, round);
  }

  /** The game's global configuration document. */
  datatype GlobalConfig = GlobalConfig(currentRound: int, gameActive: bool, storageCostPerUnit: real, markets: seq<Market>)

  /** What a request to close the round comes to. */
  datatype TriggerOutcome =
    | ConfigMissing
    | GamePaused
    | RoundClosed(config: GlobalConfig, results: seq<RoundResult>)

  /** The administrator's request to close the round: refused without a
      configuration or while the game is paused; otherwise the round is
      processed at the configured round number, storage rate and markets,
      and the configuration moves on to the next round. */
  method TriggerRound(config: Option<GlobalConfig>, companies: seq<Company>, decisions: map<CompanyId, Decision>,
                      ln: real -> real) returns (outcome: TriggerOutcome)
    requires LogPositive(ln)
    requires forall a, b :: 0 <= a < b < |companies| ==> companies[a] != companies[b]
    modifies set c | c in companies
    ensures config.None? ==> outcome == ConfigMissing && Records(companies) == old(Records(companies))
    ensures config.Some? && !config.value.gameActive ==>
              outcome == GamePaused && Records(companies) == old(Records(companies))
    ensures config.Some? && config.value.gameActive ==>
              var cfg := config.value;
              var names := MarketNames(cfg.markets);
              var rows := MarketRows(AfterOperations(old(Records(companies)), decisions, names), decisions, cfg.markets, ln);
              && Records(companies) ==
                   RoundRecords(old(Records(companies)), decisions, names, rows, cfg.storageCostPerUnit, cfg.currentRound)
              && outcome == RoundClosed(cfg.(currentRound := cfg.currentRound + 1),
                                        RoundResults(old(Records(companies)), decisions, names, rows))
  {
    if config.None? {
      return ConfigMissing;
    }
    var cfg := config.value;
    if !cfg.gameActive {
      return GamePaused;
    }
    var results := ProcessRound(companies, decisions, cfg.markets, cfg.storageCostPerUnit, cfg.currentRound, ln);
    outcome := RoundClosed(cfg.(currentRound := cfg.currentRound + 1), results);
  }
}
