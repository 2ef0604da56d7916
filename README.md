# Round close of the electronova business simulation, in Dafny

The simulation's server closes a round for every company at once. Each company's record holds:

- cash;
- raw material;
- a factory stock with a weighted-average unit cost;
- batches located in named markets, each with an age and an obsolete flag;
- shipments in transit;
- a scorecard (ethics, satisfaction, WSC);
- a history.

Given every company's record, the companies' decisions for the round and the game configuration, the round processor runs three phases.

1. **Operations.** For each company in turn:
   - shipments due this round arrive as fresh batches at their destination;
   - raw material is bought;
   - production runs, capped by the raw material on hand, and is merged into the factory stock at the weighted-average cost;
   - each logistics line ships what the factory can spare. "Aereo" takes 1 round at 5 per unit; any other mode takes 2 rounds at 1 per unit. A destination that is not a configured market is replaced by "Centro".
2. **Markets.** For each configured market in turn:
   - every company is entered with its price, its marketing spend and the stock it holds in that market;
   - the market engine shares the market's demand by a price score and a marketing score;
   - each market's verdict is added to the companies' financial summaries.
3. **Close.** For each company:
   - each market's sales are taken from that market's batches, oldest first;
   - every batch left ages one round and pays storage;
   - cash is settled;
   - the scorecard is recomputed and a history entry appended;
   - the company moves to the next round.

The administrator's request to close the round checks the configuration and the game's state first. Afterwards it advances the configured round.

The project has five files:

- `domain.dfy` (module `Domain`): the shared datatypes and unit sums.
- `inventory.dfy` (module `Inventory`): `processFIFO` and `ageInventory`. Each is a method with a loop, proved equal to a specification function (`Fifo`, `AgeAll`). The lemmas about those functions state what the service promises.
- `market.dfy` (module `MarketEngine`): `calculateMarketSales` as pure functions and a sum, with lemmas on shares, demand and scores.
- `round_rules.dfy` (module `RoundRules`): what each phase makes of a company record, as functions. The lemmas state what each phase conserves, bounds and keeps.
- `round.dfy` (module `Round`): a `Company` class whose fields the methods update in place. The round and the administrator's trigger are methods over a sequence of companies. Each method's `ensures` ties the new state to the functions of `RoundRules`.

Some choices follow the code, not the design description of the system:

- **Market engine.** Demand is shared in proportion to `0.6·(minPrice/price)² + 0.3·ln(marketing+1)/ln(maxMarketing+1)`. There is no elasticity against a reference price, no price ceiling and no random noise.
- **Satisfaction.** It is raised by 2 and clamped to [0, 100] only inside the scorecard formula; the stored satisfaction is not written back. There is no tiered missed-sales penalty.
- **Storage.** It is charged on the units left after the round's sales.
- **Sort order.** Batches are ordered by a stable sort on descending age. `SortByAge` is stable insertion, so equal ages keep their order.
- **Empty market list.** It is not an error: phase 1 and phase 3 still run, and nothing is sold.
- **Market demand.** Each market's demand is a number, `Market.totalDemand`. At server/src/services/roundProcessor.js:162 the code passes the whole market configuration object where the engine expects that number.

## Model

| member | source | states |
|---|---|---|
| Domain.UnitsSplitByMarket | server/src/services/roundProcessor.js:148-150 | a company's units split exactly into the units located in market m and the units elsewhere |
| Inventory.SortByAgeFacts | server/src/services/inventoryService.js:18 | sorting yields the batches ordered oldest first, as a permutation of the input of the same length |
| Inventory.SortByAgeStable | server/src/services/inventoryService.js:18 | the sort is stable: for every age, the batches of that age come out in the order they went in |
| Inventory.SortByAgePositiveUnits | server/src/services/inventoryService.js:18-21 | sorting and then dropping the empty batches keeps exactly the units of the non-empty batches |
| Inventory.FifoUnits | server/src/services/inventoryService.js:25-42 | an oldest-first sale from positive batches removes exactly min(max(n, 0), total units) and leaves only positive batches |
| Inventory.FifoOldestFirst | server/src/services/inventoryService.js:25-42 | a sale removes a prefix of whole batches holding at most n units, reduces at most the next batch (keeping it positive) and leaves every later batch untouched |
| Inventory.FifoSorted | server/src/services/inventoryService.js:25-42 | a sale keeps an age-ordered list age-ordered |
| Inventory.PreparedFacts | server/src/services/inventoryService.js:11-45 | processFIFO's result is age-ordered and positive, holds the positive units less min(max(n, 0), those units), and for n <= 0 is the sorted, filtered input unchanged |
| Inventory.ProcessFifo | server/src/services/inventoryService.js:11-45 | the method's result is the oldest-first sale of the sorted, filtered copy, so it is ordered, positive and has lost exactly the units sold; the caller's list is a value and is left unchanged |
| Inventory.SellOldestFirst | server/src/services/inventoryService.js:23-44 | the loop (keep the batch once nothing is left to sell, drop a batch sold out, cut the batch sold in part) computes the oldest-first sale |
| Inventory.AgedTimesFacts | server/src/services/inventoryService.js:62-69 | after k >= 1 agings a batch is k rounds older with the same market, units and cost, and obsolete iff it was already obsolete or is now older than 3 rounds, so flagging again changes nothing |
| Inventory.AgeAllFacts | server/src/services/inventoryService.js:57-72 | aging keeps the count, the order and every batch's market, units and cost, adds exactly 1 to each age, keeps the total units and keeps positive batches positive |
| Inventory.AgeInventory | server/src/services/inventoryService.js:53-75 | the method returns every batch aged once and a storage charge of total units times the given rate, or times 0.20 when no rate is given |
| MarketEngine.MinPrice | server/src/services/marketEngine.js:20 | the reference price is at most every competitor's price and is one of them |
| MarketEngine.MaxMarketing | server/src/services/marketEngine.js:23 | the reference spend is at least every competitor's spend and is one of them |
| MarketEngine.Scores | server/src/services/marketEngine.js:28-43 | one raw score per competitor, in input order |
| MarketEngine.CalculateMarketSales | server/src/services/marketEngine.js:16-70 | no competitors give no rows; otherwise one row per competitor in order, carrying its fields, with units sold = min(potential demand, stock), hence at most the stock and at most the potential demand, non-negative missed sales and revenue = units sold times price |
| MarketEngine.DegenerateGuards | server/src/services/marketEngine.js:20-35 | the reference price and spend are positive; zero marketing scores on price alone; a non-positive price gets the price score 10000 (0.01 against a reference of 1) |
| MarketEngine.RawScorePositive | server/src/services/marketEngine.js:28-38 | with positive references the price score is positive, the marketing score non-negative and the raw score positive |
| MarketEngine.PriceScoreBounds | server/src/services/marketEngine.js:29-30 | for prices at or above a positive minimum the price score lies in (0, 1] and is 1 exactly at the minimum |
| MarketEngine.MarketingScoreBounds | server/src/services/marketEngine.js:32-35 | for a spend at most the maximum and a non-decreasing logarithm, the marketing score lies in [0, 1] |
| MarketEngine.ScoreBounds | server/src/services/marketEngine.js:8-38 | with positive prices, the price score is in (0, 1] and is 1 iff the competitor is the cheapest; the marketing score is in [0, 1]; the raw score is in (0, 0.9], since the quality weight never contributes |
| MarketEngine.MarketShares | server/src/services/marketEngine.js:26-49 | in a non-empty market every share lies in (0, 1] and the shares sum to 1 |
| MarketEngine.ScoredShares | server/src/services/marketEngine.js:26-49 | in a non-empty market the raw scores have a positive total and every competitor's share is its raw score over that total |
| MarketEngine.ShareFollowsScore | server/src/services/marketEngine.js:26-49 | one competitor's share is below another's exactly when its raw score is |
| MarketEngine.CheaperWins | server/src/services/marketEngine.js:20-49 | with equal marketing, the competitor asking the lower positive price wins the strictly larger share |
| MarketEngine.MarketingNoWorse | server/src/services/marketEngine.js:22-49 | with equal prices and a non-decreasing logarithm, the competitor spending at least as much on marketing wins at least as large a share |
| MarketEngine.MarketDemandBound | server/src/services/marketEngine.js:45-51 | for non-negative demand no potential demand is negative and together they never exceed the market's demand |
| MarketEngine.AllocationDemandBound | server/src/services/marketEngine.js:45-51 | shares taken from positive scores ask for non-negative demands that sum to at most the total demand |
| RoundRules.ArrivalsConserve | server/src/services/roundProcessor.js:38-58 | arrivals plus what stays in transit hold exactly the units in transit, and no entry is lost |
| RoundRules.ArrivalsComplete | server/src/services/roundProcessor.js:38-58 | every due shipment arrives as a batch with its destination, units and cost; every other one stays in transit one round nearer |
| RoundRules.ArrivalsSound | server/src/services/roundProcessor.js:38-58 | every arrival is a fresh, non-obsolete batch made from a due shipment; every shipment left in transit was in transit with one more round to go |
| RoundRules.ProductionCapped | server/src/services/roundProcessor.js:66-79 | production is min(desired, raw material) and never leaves the raw material negative |
| RoundRules.AverageCostBetween | server/src/services/roundProcessor.js:82-89 | the merged unit cost lies between the old cost and 50; producing nothing keeps a non-empty factory's cost; an empty factory costs 0 |
| RoundRules.DispatchBounds | server/src/services/roundProcessor.js:91-120 | dispatch ships between 0 and the factory's units, in at most one entry per line, at a non-negative cost |
| RoundRules.DispatchEntryShape | server/src/services/roundProcessor.js:97-118 | every entry created is positive and carries the factory's unit cost, 1 round for "Aereo" and 2 otherwise, and a configured market or "Centro" |
| RoundRules.DispatchProvenance | server/src/services/roundProcessor.js:94-118 | every entry answers one of the lines: same mode, no more than that line asked for, bound for the line's market or "Centro" |
| RoundRules.DispatchStep | server/src/services/roundProcessor.js:94-120 | dispatching a plan is shipping its first line (nothing if it would ship nothing) and then dispatching the rest; the first line's bill is what it takes from the cash |
| RoundRules.DispatchKeepsStock | server/src/services/roundProcessor.js:94-120 | units leaving the factory equal units added to transit, a non-negative factory stays non-negative, and raw material and batches are untouched |
| RoundRules.Phase1Stock | server/src/services/roundProcessor.js:25-122 | phase 1 changes a company's total units (raw, factory, batches, transit) only by the raw material bought |
| RoundRules.Phase1Cash | server/src/services/roundProcessor.js:60-122 | phase 1 takes exactly the material, production and shipping bills from the cash |
| RoundRules.Phase1Signs | server/src/services/roundProcessor.js:66-98 | raw material never goes negative; the factory stays non-negative when it is non-negative after production |
| RoundRules.Phase1Keeps | server/src/services/roundProcessor.js:25-135 | phase 1 leaves identity, scorecard, history and round unchanged |
| RoundRules.Phase1Positive | server/src/services/roundProcessor.js:38-57 | positive batches and positive shipments give positive batches after phase 1 |
| RoundRules.NoDecisionDefaults | server/src/services/roundProcessor.js:61-156 | without a decision nothing is bought, produced or shipped, the summary's costs and marketing are 0, the price offered is 9999 with no marketing in every market, and only arrivals move, except that an empty factory's unit cost resets to 0 |
| RoundRules.MarketRowsAt | server/src/services/roundProcessor.js:139-162 | entry i of the verdict table is market i's engine verdict on the companies |
| RoundRules.AllocatedStep | server/src/services/roundProcessor.js:139-171 | the summaries after market k are those after the earlier markets plus market k's verdict |
| RoundRules.AllocatedResults | server/src/services/roundProcessor.js:165-170 | after phase 2 a company's results are what it held followed by its verdict from each market, in market order |
| RoundRules.AllocatedTotals | server/src/services/roundProcessor.js:165-170 | phase 2 adds the sums of the verdicts' units and revenue and leaves the cost lines alone |
| RoundRules.ResultsFor | server/src/services/roundProcessor.js:169 | company j's verdict from each market, in market order |
| RoundRules.DepletedIsFifo | server/src/services/roundProcessor.js:184-206 | on positive batches, depleting market m is the oldest-first sale applied to m's batches alone |
| RoundRules.DepletedOutside | server/src/services/roundProcessor.js:184-206 | depleting market m passes every other market's batches through unchanged and in order |
| RoundRules.SortByAgeInMarket | server/src/services/roundProcessor.js:192 | the stable sort commutes with picking out one market's batches |
| RoundRules.SellInMarketFacts | server/src/services/roundProcessor.js:184-206 | a sale in market m takes m's batches oldest first, removes exactly min(n, stock in m), keeps the other markets' batches and leaves only positive batches |
| RoundRules.StockInOtherMarket | server/src/services/roundProcessor.js:184-206 | a sale in one market leaves every other market's stock unchanged |
| RoundRules.SellAllConserves | server/src/services/roundProcessor.js:184-206 | with each market named once and sales within stock, the batches left are positive and hold exactly the units less the units sold |
| RoundRules.WscBounds | server/src/services/roundProcessor.js:217-223 | for non-negative cash and ethics in [0, 100] the score lies in [0, 100], satisfaction is used clamped to [0, 100], and the score never falls as cash grows |
| RoundRules.SettleConserves | server/src/services/roundProcessor.js:208-215 | settling ages the batches without changing their units and takes storage and marketing from the cash |
| RoundRules.CloseConserves | server/src/services/roundProcessor.js:181-215 | closing leaves positive batches holding the units less the units sold, and cash = cash + revenue - rate·(units left) - marketing |
| RoundRules.CloseFacts | server/src/services/roundProcessor.js:181-234 | cash settles with revenue less storage on what is left less marketing; exactly one history entry is appended; the round advances; the scorecard comes from the stored satisfaction and ethics, which are kept; raw material, factory stock, its unit cost and the shipments in transit are left as they were |
| RoundRules.OperationsAt | server/src/services/roundProcessor.js:25-135 | company j's record and summary after phase 1 are its own phase 1 under its own decision |
| RoundRules.RoundSales | server/src/services/roundProcessor.js:165-170 | a company's results hold one verdict per market in market order, and its reported units and revenue are the sums over them |
| RoundRules.RoundCosts | server/src/services/roundProcessor.js:124-134 | the summary's cost lines are phase 1's bills and the decision's marketing, untouched by phase 2 |
| RoundRules.RoundAt | server/src/services/roundProcessor.js:176-242 | company j's closed record and result come from its phase-1 record and its phase-2 summary |
| RoundRules.RoundBookkeeping | server/src/services/roundProcessor.js:217-242 | the closed record gains exactly one history entry with the round, cash, score and the reported sales; it moves to round + 1, keeps identity, satisfaction and ethics, and its score is recomputed |
| RoundRules.VerdictWithinStock | server/src/services/roundProcessor.js:148-162 | for non-negative demand a market sells a company between 0 and its stock there |
| RoundRules.ResultsWithinStock | server/src/services/roundProcessor.js:165-206 | verdicts from distinct markets name each market once and sell within the stock there |
| RoundRules.RoundSalesWithinStock | server/src/services/roundProcessor.js:139-206 | the sales phase 2 books never exceed the stock phase 3 finds in that market |
| RoundRules.RoundConservesStock | server/src/services/roundProcessor.js:139-215 | over a whole round a company ends with positive batches holding exactly its units after phase 1 less the units the round reports it sold |
| RoundRules.RoundTotalStock | server/src/services/roundProcessor.js:25-234 | over a whole round a company's units in raw material, factory, batches and transit change by exactly the raw material it buys less the units the round reports it sold |
| Round.Company.constructor | server/src/services/roundProcessor.js:19 | the object holds the given record |
| Round.Company.ReceiveArrivals | server/src/services/roundProcessor.js:34-58 | the new state is the arrivals step of the old record |
| Round.Company.Procure | server/src/services/roundProcessor.js:60-64 | cost is 15 per unit; cash falls by it and raw material grows by the units |
| Round.Company.Produce | server/src/services/roundProcessor.js:66-89 | output is min(desired, raw material) at 35 per unit; the factory merges it at the weighted-average cost |
| Round.Company.Dispatch | server/src/services/roundProcessor.js:91-120 | the loop over the lines leaves the dispatch step's record and returns the shipping bill |
| Round.Company.RunOperations | server/src/services/roundProcessor.js:25-135 | the company's state becomes phase 1 of the old record and the summary entry is phase 1's |
| Round.Company.CloseRound | server/src/services/roundProcessor.js:176-242 | the company's state becomes the close of the old record and the result reports its summary's totals |
| Round.SellMarkets | server/src/services/roundProcessor.js:184-206 | the loop over the results applies each market's sale in turn |
| Round.DepleteMarket | server/src/services/roundProcessor.js:189-205 | sort, the depleting map with its remaining count, and pruning give one market's sale |
| Round.EvaluateMarket | server/src/services/roundProcessor.js:139-162 | the competitor list built by the loop, judged by the engine, is the market's verdict on the companies |
| Round.Accumulate | server/src/services/roundProcessor.js:165-170 | the loop adds the verdict to every summary |
| Round.OperateAt | server/src/services/roundProcessor.js:25-135 | phase 1 of company j leaves its entry of the phase-1 record list and returns its summary |
| Round.OperateAll | server/src/services/roundProcessor.js:25-135 | after the loop every company holds its own phase 1 and the summaries are phase 1's, in company order |
| Round.AllocateMarkets | server/src/services/roundProcessor.js:137-171 | after the loop over markets the summaries hold every market's verdict, in market order |
| Round.CloseAll | server/src/services/roundProcessor.js:173-243 | after the loop every company is closed with its own summary and the results are reported in company order |
| Round.ProcessRound | server/src/services/roundProcessor.js:12-247 | the companies end as the round's records and the round reports its results, with the markets judging the companies as phase 1 left them |
| Round.TriggerRound | server/src/controllers/adminController.js:11-43 | no configuration or a paused game changes nothing and is refused; otherwise the round is processed at the configured round, rate and markets, and the configured round moves on by one |

## Left out

- **Persistence, logging and notification.** `Company.find`, `Decision.findOne`, `company.save`, `config.save`, `console.log`, the socket notification and the HTTP responses are left out. Companies and the configuration are inputs. Decisions are a map from company id to decision, and a missing key means no decision.
- **The phase-2 re-fetch of decisions** (roundProcessor.js:145). The same map is used in both phases, because the model has no store to change between the two reads.
- **Fields that only label things.** `batchId`, the `companyRef`/`originalCompany` references and the formatting of `marketShare` as a percentage string are not modelled. The share is kept as a real number.
- **Number representation.** JS numbers, Decimal128 money, `parseFloat(...toString())` round-trips and the `|| 0` fallbacks are left out. Money is `real` and units are `int`, with no overflow or rounding except the `Math.floor` of potential demand.
- **Math.log.** It is a parameter `ln`. The proofs need only that it is positive above 1 and, for the score bounds, non-decreasing there (MarketingNoWorse needs the same). `Math.pow` with exponent 2 is exact multiplication.
- **Market demand (roundProcessor.js:162).** The call passes the market configuration object as `totalDemand`, which JS would turn into NaN. The model uses a number per market and does not model NaN.
- **Undeclared schema fields.** `markets` in the configuration, `market` on an inventory batch, and `factoryStock` and `inTransit` on a company are not declared in the schemas; the model treats them as fields. `procurement` on a decision is likewise not in the decision schema and the decision controller never stores it, so in the program as written the bought units are always 0; the model reads it as a field of the decision, so its procurement path covers a case the running program never reaches. The `if (company.inTransit)` null check is a missing list, modelled as an empty list.
- **In-place mutation and aliasing.** The sort in place, the batch objects mutated inside `map` and the shared `inventory` array are modelled on values (`seq`). The model does not capture aliasing between the company's array and the working list.
- **The summary's keys.** The financial summary is keyed by company id; the model keys it by company position, which assumes distinct ids in a fixed company order.
- **processFIFO in the round.** The round does not call processFIFO; it runs its own per-market depletion. Both are modelled, and `DepletedIsFifo` relates them.
- **Error paths.** A failing company save, or any other thrown error, is not modelled. The administrator's 500 response is left out with it.
- Inventory.ProcessFifo: the deep copy (`JSON.parse(JSON.stringify(...))`) is value semantics here, so "the caller's list is untouched" holds by construction and is not a separate clause.
- RoundRules.CloseConserves: it assumes each market appears once in the results and each sale is within stock. RoundConservesStock derives this for a whole round from distinct market names, non-negative demand and positive batches and shipments; a configuration listing a market twice is not covered.
- MarketEngine.ScoreBounds: it is stated for positive prices. For non-positive prices, DegenerateGuards states the 0.01 substitution instead.
