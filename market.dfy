/** The market engine: shares one market's demand among its competitors by a
    weighted price/marketing score, then caps each share by the stock the
    competitor holds there. */
module MarketEngine {
  import opened Domain

  const PriceWeight: real := 0.60
  const MarketingWeight: real := 0.30
  /** Declared beside the other weights but never used in a score. */
  const QualityWeight: real := 0.10
  /** Exponent of the price score. */
  const Sensitivity: nat := 2

  /** One company's offer in one market. */
  datatype Competitor = Competitor(id: CompanyId, price: real, marketing: real, stock: int)

  /** The engine's verdict for one competitor. */
  datatype MarketRow = MarketRow(companyId: CompanyId, price: real, marketing: real, stock: int,
                                 marketShare: real, potentialDemand: int, unitsSold: int,
                                 missedSales: int, revenue: real)

  /** What the model needs of the natural logarithm the engine calls: it is
      positive above 1. */
  ghost predicate LogPositive(ln: real -> real)
  {
    forall x :: x > 1.0 ==> ln(x) > 0.0
  }

  /** ... and it does not decrease there. */
  ghost predicate LogMonotone(ln: real -> real)
  {
    forall x, y :: 1.0 < x <= y ==> ln(x) <= ln(y)
  }

  /** The lowest price offered (Math.min over the competitors). */
  function MinPrice(cs: seq<Competitor>): (m: real)
    requires cs != []
    ensures forall k :: 0 <= k < |cs| ==> m <= cs[k].price
    ensures exists k :: 0 <= k < |cs| && m == cs[k].price
  {
    if |cs| == 1 then cs[0].price
    else
      var rest := MinPrice(cs[1..]);
      assert forall k :: 1 <= k < |cs| ==> cs[k] == cs[1..][k - 1];
      if cs[0].price <= rest then cs[0].price else rest
  }

  /** The highest marketing spend (Math.max over the competitors). */
  function MaxMarketing(cs: seq<Competitor>): (m: real)
    requires cs != []
    ensures forall k :: 0 <= k < |cs| ==> cs[k].marketing <= m
    ensures exists k :: 0 <= k < |cs| && m == cs[k].marketing
  {
    if |cs| == 1 then cs[0].marketing
    else
      var rest := MaxMarketing(cs[1..]);
      assert forall k :: 1 <= k < |cs| ==> cs[k] == cs[1..][k - 1];
      if cs[0].marketing >= rest then cs[0].marketing else rest
  }

  /** A non-positive lowest price is replaced by 1. */
  function PriceReference(minPrice: real): real
  {
    if minPrice <= 0.0 then 1.0 else minPrice
  }

  /** A non-positive highest spend is replaced by 1. */
  function MarketingReference(maxMarketing: real): real
  {
    if maxMarketing <= 0.0 then 1.0 else maxMarketing
  }

  /** A non-positive price is scored as 0.01. */
  function EffectivePrice(price: real): real
  {
    if price <= 0.0 then 0.01 else price
  }

  /** x to the n-th power (Math.pow with a whole exponent). */
  function Pow(x: real, n: nat): (r: real)
    ensures x > 0.0 ==> r > 0.0
    ensures 0.0 < x <= 1.0 ==> r <= 1.0
  {
    if n == 0 then 1.0
    else
      var p := Pow(x, n - 1);
      assert 0.0 < x <= 1.0 ==> x * p <= p;
      x * p
  }

  function PriceScore(minPrice: real, price: real): real
  {
    Pow(minPrice / EffectivePrice(price), Sensitivity)
  }

  function MarketingScore(marketing: real, maxMarketing: real, ln: real -> real): real
    requires LogPositive(ln) && maxMarketing > 0.0
  {
    if marketing > 0.0 then ln(marketing + 1.0) / ln(maxMarketing + 1.0) else 0.0
  }

  function RawScore(c: Competitor, minPrice: real, maxMarketing: real, ln: real -> real): real
    requires LogPositive(ln) && maxMarketing > 0.0
  {
    PriceScore(minPrice, c.price) * PriceWeight + MarketingScore(c.marketing, maxMarketing, ln) * MarketingWeight
  }

  /** Every competitor's raw score, in input order. */
  function Scores(cs: seq<Competitor>, minPrice: real, maxMarketing: real, ln: real -> real): (r: seq<real>)
    requires LogPositive(ln) && maxMarketing > 0.0
    ensures |r| == |cs|
    ensures forall k :: 0 <= k < |cs| ==> r[k] == RawScore(cs[k], minPrice, maxMarketing, ln)
  {
    if cs == [] then []
    else [RawScore(cs[0], minPrice, maxMarketing, ln)] + Scores(cs[1..], minPrice, maxMarketing, ln)
  }

  function Sum(xs: seq<real>): real
  {
    if xs == [] then 0.0 else xs[0] + Sum(xs[1..])
  }

  /** A competitor's share of the market: 0 unless the total score is positive. */
  function Share(rawScore: real, totalScore: real): real
  {
    if totalScore > 0.0 then rawScore / totalScore else 0.0
  }

  /** The units a share of the total demand asks for, rounded down. */
  function PotentialDemand(totalDemand: real, share: real): int
  {
    (totalDemand * share).Floor
  }

  /** The money earned selling units at price. */
  function Revenue(unitsSold: int, price: real): real
  {
    unitsSold as real * price
  }

  /** The result row for one competitor holding the given share. */
  function Allocate(c: Competitor, share: real, totalDemand: real): (row: MarketRow)
    ensures row.companyId == c.id && row.price == c.price && row.marketing == c.marketing
    ensures row.stock == c.stock && row.marketShare == share
    ensures row.potentialDemand == PotentialDemand(totalDemand, share)
    ensures row.unitsSold == Min(row.potentialDemand, c.stock)
    ensures row.missedSales == row.potentialDemand - row.unitsSold
    ensures row.revenue == Revenue(row.unitsSold, c.price)
  {
    var potentialDemand := PotentialDemand(totalDemand, share);
    var unitsSold := Min(potentialDemand, c.stock);
    MarketRow(c.id, c.price, c.marketing, c.stock, share, potentialDemand, unitsSold,
              potentialDemand - unitsSold, Revenue(unitsSold, c.price))
  }

  function AllocateAll(cs: seq<Competitor>, scores: seq<real>, totalScore: real, totalDemand: real): (rows: seq<MarketRow>)
    requires |scores| == |cs|
    ensures |rows| == |cs|
    ensures forall k :: 0 <= k < |cs| ==> rows[k] == Allocate(cs[k], Share(scores[k], totalScore), totalDemand)
  {
    if cs == [] then []
    else [Allocate(cs[0], Share(scores[0], totalScore), totalDemand)]
         + AllocateAll(cs[1..], scores[1..], totalScore, totalDemand)
  }

  /** calculateMarketSales: one row per competitor, in input order; an empty
      field yields no rows. Each row keeps the competitor's id, price,
      marketing and stock; it sells what the share asks for as far as the
      stock allows, counts the rest as missed and earns the price per unit
      sold. */
  function CalculateMarketSales(competitors: seq<Competitor>, totalDemand: real, ln: real -> real): (rows: seq<MarketRow>)
    requires LogPositive(ln)
    ensures |rows| == |competitors|
    ensures competitors == [] ==> rows == []
    ensures forall k :: 0 <= k < |rows| ==>
              && rows[k].companyId == competitors[k].id
              && rows[k].price == competitors[k].price
              && rows[k].marketing == competitors[k].marketing
              && rows[k].stock == competitors[k].stock
    ensures forall k :: 0 <= k < |rows| ==>
              rows[k].potentialDemand == PotentialDemand(totalDemand, rows[k].marketShare)
    ensures forall k :: 0 <= k < |rows| ==>
              rows[k].unitsSold == Min(rows[k].potentialDemand, competitors[k].stock)
    ensures forall k :: 0 <= k < |rows| ==>
              rows[k].unitsSold <= competitors[k].stock && rows[k].unitsSold <= rows[k].potentialDemand
    ensures forall k :: 0 <= k < |rows| ==>
              rows[k].missedSales == rows[k].potentialDemand - rows[k].unitsSold >= 0
    ensures forall k :: 0 <= k < |rows| ==>
              rows[k].revenue == Revenue(rows[k].unitsSold, competitors[k].price)
  {
    if competitors == [] then []
    else
      var minPrice := PriceReference(MinPrice(competitors));
      var maxMarketing := MarketingReference(MaxMarketing(competitors));
      var scores := Scores(competitors, minPrice, maxMarketing, ln);
      AllocateAll(competitors, scores, Sum(scores), totalDemand)
  }

  // ---------------------------------------------------------------------------
  // Properties of the allocation
  // ---------------------------------------------------------------------------

  /** Both score components are non-negative, so every raw score is positive. */
  lemma RawScorePositive(c: Competitor, minPrice: real, maxMarketing: real, ln: real -> real)
    requires LogPositive(ln) && minPrice > 0.0 && maxMarketing > 0.0
    ensures PriceScore(minPrice, c.price) > 0.0
    ensures MarketingScore(c.marketing, maxMarketing, ln) >= 0.0
    ensures RawScore(c, minPrice, maxMarketing, ln) > 0.0
  {
    assert ln(maxMarketing + 1.0) > 0.0;
    if c.marketing > 0.0 {
      assert ln(c.marketing + 1.0) > 0.0;
    }
  }

  /** The guards against degenerate offers: the references the scores divide
      by are always positive; a competitor that spends nothing on marketing
      scores on price alone; and a competitor with a non-positive price is
      scored as if it asked 0.01 against a reference price of 1, a price
      score of 10000. */
  lemma DegenerateGuards(cs: seq<Competitor>, k: nat, ln: real -> real)
    requires LogPositive(ln) && k < |cs|
    ensures PriceReference(MinPrice(cs)) > 0.0 && MarketingReference(MaxMarketing(cs)) > 0.0
    ensures cs[k].marketing <= 0.0 ==>
              RawScore(cs[k], PriceReference(MinPrice(cs)), MarketingReference(MaxMarketing(cs)), ln) ==
                PriceScore(PriceReference(MinPrice(cs)), cs[k].price) * PriceWeight
    ensures cs[k].price <= 0.0 ==> PriceScore(PriceReference(MinPrice(cs)), cs[k].price) == 10000.0
  {
    if cs[k].price <= 0.0 {
      assert PriceReference(MinPrice(cs)) == 1.0;
      FloorPriceScore(cs[k].price);
    }
  }

  /** Against a reference price of 1, a non-positive price scores 100 squared. */
  lemma FloorPriceScore(price: real)
    requires price <= 0.0
    ensures PriceScore(1.0, price) == 10000.0
  {
    assert 1.0 / EffectivePrice(price) == 100.0;
    assert Pow(100.0, 1) == 100.0;
  }

  /** With positive prices, the price score is at most 1 and reaches 1
      exactly for the cheapest competitor; the marketing score lies in
      [0, 1]; so a raw score never exceeds the price and marketing weights
      together (the quality weight never contributes). */
  lemma ScoreBounds(cs: seq<Competitor>, k: nat, ln: real -> real)
    requires LogPositive(ln) && LogMonotone(ln)
    requires k < |cs|
    requires forall j :: 0 <= j < |cs| ==> cs[j].price > 0.0
    ensures var minPrice := PriceReference(MinPrice(cs));
            0.0 < PriceScore(minPrice, cs[k].price) <= 1.0 &&
            (PriceScore(minPrice, cs[k].price) == 1.0 <==> cs[k].price == MinPrice(cs))
    ensures var maxMarketing := MarketingReference(MaxMarketing(cs));
            0.0 <= MarketingScore(cs[k].marketing, maxMarketing, ln) <= 1.0
    ensures 0.0 < RawScore(cs[k], PriceReference(MinPrice(cs)), MarketingReference(MaxMarketing(cs)), ln)
              <= PriceWeight + MarketingWeight
  {
    var m := MinPrice(cs);
    var p := cs[k].price;
    var j :| 0 <= j < |cs| && m == cs[j].price;
    assert m > 0.0;
    PriceScoreBounds(m, p);
    var mm := MarketingReference(MaxMarketing(cs));
    MarketingScoreBounds(cs[k].marketing, mm, ln);
    RawScorePositive(cs[k], m, mm, ln);
  }

  lemma PriceScoreBounds(m: real, p: real)
    requires 0.0 < m <= p
    ensures PriceReference(m) == m
    ensures 0.0 < PriceScore(m, p) <= 1.0
    ensures PriceScore(m, p) == 1.0 <==> p == m
  {
    assert EffectivePrice(p) == p;
    var ratio := m / p;
    assert Pow(ratio, 1) == ratio * Pow(ratio, 0) == ratio;
    assert Pow(ratio, Sensitivity) == ratio * ratio;
    RatioSquare(m, p);
  }

  lemma RatioSquare(m: real, p: real)
    requires 0.0 < m <= p
    ensures 0.0 < (m / p) * (m / p) <= 1.0
    ensures (m / p) * (m / p) == 1.0 <==> p == m
  {
    var r := m / p;
    assert r * p == m;
    assert 0.0 < r <= 1.0;
    assert r * r <= r;
    if r * r == 1.0 {
      assert r == 1.0;
    }
  }

  lemma MarketingScoreBounds(marketing: real, maxMarketing: real, ln: real -> real)
    requires LogPositive(ln) && LogMonotone(ln)
    requires maxMarketing > 0.0 && marketing <= maxMarketing
    ensures 0.0 <= MarketingScore(marketing, maxMarketing, ln) <= 1.0
  {
    var b := ln(maxMarketing + 1.0);
    assert b > 0.0;
    if marketing > 0.0 {
      var a := ln(marketing + 1.0);
      assert 0.0 < a <= b;
      assert a / b <= 1.0;
    }
  }

  lemma {:induction false} SumPositive(xs: seq<real>)
    requires forall k :: 0 <= k < |xs| ==> xs[k] > 0.0
    ensures xs != [] ==> Sum(xs) > 0.0
    ensures Sum(xs) >= 0.0
  {
    if xs != [] {
      SumPositive(xs[1..]);
    }
  }

  function SumShares(rows: seq<MarketRow>): real
  {
    if rows == [] then 0.0 else rows[0].marketShare + SumShares(rows[1..])
  }

  function SumPotentialDemand(rows: seq<MarketRow>): int
  {
    if rows == [] then 0 else rows[0].potentialDemand + SumPotentialDemand(rows[1..])
  }

  lemma {:induction false} AllocatedShares(cs: seq<Competitor>, scores: seq<real>, total: real, totalDemand: real)
    requires |scores| == |cs| && total > 0.0
    ensures SumShares(AllocateAll(cs, scores, total, totalDemand)) == Sum(scores) / total
  {
    if cs != [] {
      AllocatedShares(cs[1..], scores[1..], total, totalDemand);
      assert scores[0] / total + Sum(scores[1..]) / total == (scores[0] + Sum(scores[1..])) / total;
    }
  }

  lemma {:induction false} AllocatedDemand(cs: seq<Competitor>, scores: seq<real>, total: real, totalDemand: real)
    requires |scores| == |cs| && totalDemand >= 0.0
    requires forall k :: 0 <= k < |scores| ==> scores[k] >= 0.0
    ensures var rows := AllocateAll(cs, scores, total, totalDemand);
            SumPotentialDemand(rows) as real <= totalDemand * SumShares(rows)
    ensures forall k :: 0 <= k < |cs| ==> AllocateAll(cs, scores, total, totalDemand)[k].potentialDemand >= 0
  {
    var rows := AllocateAll(cs, scores, total, totalDemand);
    if cs != [] {
      AllocatedDemand(cs[1..], scores[1..], total, totalDemand);
      var s := rows[0].marketShare;
      assert s >= 0.0;
      assert totalDemand * s >= 0.0;
      assert rows[0].potentialDemand as real <= totalDemand * s;
      assert totalDemand * s + totalDemand * SumShares(rows[1..]) == totalDemand * (s + SumShares(rows[1..]));
    }
  }

  /** The raw scores of a non-empty market are all positive. */
  lemma ScoresPositive(competitors: seq<Competitor>, ln: real -> real)
    requires LogPositive(ln) && competitors != []
    ensures var scores := Scores(competitors, PriceReference(MinPrice(competitors)),
                                 MarketingReference(MaxMarketing(competitors)), ln);
            (forall k :: 0 <= k < |scores| ==> scores[k] > 0.0) && Sum(scores) > 0.0
  {
    var minPrice := PriceReference(MinPrice(competitors));
    var maxMarketing := MarketingReference(MaxMarketing(competitors));
    var scores := Scores(competitors, minPrice, maxMarketing, ln);
    forall k | 0 <= k < |scores| ensures scores[k] > 0.0 {
      RawScorePositive(competitors[k], minPrice, maxMarketing, ln);
    }
    SumPositive(scores);
  }

  /** The shares of a non-empty market are all positive, at most 1, and sum
      to 1. */
  lemma MarketShares(competitors: seq<Competitor>, totalDemand: real, ln: real -> real)
    requires LogPositive(ln) && competitors != []
    ensures var rows := CalculateMarketSales(competitors, totalDemand, ln);
            && SumShares(rows) == 1.0
            && (forall k :: 0 <= k < |rows| ==> 0.0 < rows[k].marketShare <= 1.0)
  {
    var scores := Scores(competitors, PriceReference(MinPrice(competitors)),
                         MarketingReference(MaxMarketing(competitors)), ln);
    ScoresPositive(competitors, ln);
    var total := Sum(scores);
    var rows := AllocateAll(competitors, scores, total, totalDemand);
    AllocatedShares(competitors, scores, total, totalDemand);
    DivBounds(total, total);
    forall k | 0 <= k < |rows| ensures 0.0 < rows[k].marketShare <= 1.0 {
      SumBound(scores, k);
      assert rows[k].marketShare == scores[k] / total;
      DivBounds(scores[k], total);
    }
  }

  /** In a non-empty market the raw scores have a positive total, and each
      competitor's share is its raw score over that total. */
  lemma ScoredShares(competitors: seq<Competitor>, totalDemand: real, ln: real -> real)
    requires LogPositive(ln) && competitors != []
    ensures Sum(Scores(competitors, PriceReference(MinPrice(competitors)),
                       MarketingReference(MaxMarketing(competitors)), ln)) > 0.0
    ensures forall k :: 0 <= k < |competitors| ==>
              CalculateMarketSales(competitors, totalDemand, ln)[k].marketShare ==
                Scores(competitors, PriceReference(MinPrice(competitors)),
                       MarketingReference(MaxMarketing(competitors)), ln)[k]
                / Sum(Scores(competitors, PriceReference(MinPrice(competitors)),
                             MarketingReference(MaxMarketing(competitors)), ln))
  {
    ScoresPositive(competitors, ln);
  }

  /** Shares rank the competitors as their raw scores do: one share is below
      another exactly when its raw score is. */
  lemma ShareFollowsScore(competitors: seq<Competitor>, totalDemand: real, ln: real -> real, i: nat, j: nat)
    requires LogPositive(ln) && i < |competitors| && j < |competitors|
    ensures var scores := Scores(competitors, PriceReference(MinPrice(competitors)),
                                 MarketingReference(MaxMarketing(competitors)), ln);
            var rows := CalculateMarketSales(competitors, totalDemand, ln);
            rows[i].marketShare < rows[j].marketShare <==> scores[i] < scores[j]
  {
    var scores := Scores(competitors, PriceReference(MinPrice(competitors)),
                         MarketingReference(MaxMarketing(competitors)), ln);
    ScoredShares(competitors, totalDemand, ln);
    DivOrder(scores[i], scores[j], Sum(scores));
  }

  lemma DivOrder(a: real, b: real, t: real)
    requires t > 0.0
    ensures a / t < b / t <==> a < b
  {
    assert a == (a / t) * t && b == (b / t) * t;
  }

  /** Of two competitors spending the same on marketing, the one asking a
      lower positive price wins the strictly larger share. */
  lemma CheaperWins(competitors: seq<Competitor>, totalDemand: real, ln: real -> real, i: nat, j: nat)
    requires LogPositive(ln) && i < |competitors| && j < |competitors|
    requires competitors[i].marketing == competitors[j].marketing
    requires 0.0 < competitors[i].price < competitors[j].price
    ensures CalculateMarketSales(competitors, totalDemand, ln)[i].marketShare
            > CalculateMarketSales(competitors, totalDemand, ln)[j].marketShare
  {
    var m := PriceReference(MinPrice(competitors));
    var mm := MarketingReference(MaxMarketing(competitors));
    PriceScoreDecreasing(m, competitors[i].price, competitors[j].price);
    assert RawScore(competitors[j], m, mm, ln) < RawScore(competitors[i], m, mm, ln);
    ShareFollowsScore(competitors, totalDemand, ln, j, i);
  }

  /** Against a positive reference, a higher positive price scores strictly
      lower. */
  lemma PriceScoreDecreasing(m: real, p: real, q: real)
    requires m > 0.0 && 0.0 < p < q
    ensures PriceScore(m, q) < PriceScore(m, p)
  {
    assert EffectivePrice(p) == p && EffectivePrice(q) == q;
    InverseOrder(m, p, q);
    SquareOrder(m / q, m / p);
    PowSquare(m / p);
    PowSquare(m / q);
  }

  lemma InverseOrder(m: real, p: real, q: real)
    requires m > 0.0 && 0.0 < p < q
    ensures 0.0 < m / q < m / p
  {
    var a, b := m / p, m / q;
    assert a * p == m && b * q == m;
    assert a > 0.0 && b > 0.0;
    assert a * p < a * q;
  }

  lemma SquareOrder(b: real, a: real)
    requires 0.0 < b < a
    ensures b * b < a * a
  {
    assert b * b < b * a;
    assert b * a < a * a;
  }

  lemma PowSquare(x: real)
    ensures Pow(x, Sensitivity) == x * x
  {
    assert Pow(x, 1) == x * Pow(x, 0) == x;
  }

  /** Of two competitors asking the same price, the one spending at least as
      much on marketing wins at least as large a share. */
  lemma MarketingNoWorse(competitors: seq<Competitor>, totalDemand: real, ln: real -> real, i: nat, j: nat)
    requires LogPositive(ln) && LogMonotone(ln) && i < |competitors| && j < |competitors|
    requires competitors[i].price == competitors[j].price
    requires competitors[i].marketing >= competitors[j].marketing
    ensures CalculateMarketSales(competitors, totalDemand, ln)[i].marketShare
            >= CalculateMarketSales(competitors, totalDemand, ln)[j].marketShare
  {
    var m := PriceReference(MinPrice(competitors));
    var mm := MarketingReference(MaxMarketing(competitors));
    MarketingScoreMonotone(competitors[j].marketing, competitors[i].marketing, mm, ln);
    assert RawScore(competitors[j], m, mm, ln) <= RawScore(competitors[i], m, mm, ln);
    ShareFollowsScore(competitors, totalDemand, ln, i, j);
  }

  /** The marketing score does not fall as the spend grows. */
  lemma MarketingScoreMonotone(x: real, y: real, maxMarketing: real, ln: real -> real)
    requires LogPositive(ln) && LogMonotone(ln) && maxMarketing > 0.0 && x <= y
    ensures MarketingScore(x, maxMarketing, ln) <= MarketingScore(y, maxMarketing, ln)
  {
    var b := ln(maxMarketing + 1.0);
    assert b > 0.0;
    if x > 0.0 {
      assert 0.0 < ln(x + 1.0) <= ln(y + 1.0);
      DivOrder(ln(y + 1.0), ln(x + 1.0), b);
    } else if y > 0.0 {
      assert ln(y + 1.0) > 0.0;
    }
  }

  /** For a non-negative total demand no competitor's potential demand is
      negative, and together they never exceed the total demand. */
  lemma MarketDemandBound(competitors: seq<Competitor>, totalDemand: real, ln: real -> real)
    requires LogPositive(ln) && totalDemand >= 0.0
    ensures var rows := CalculateMarketSales(competitors, totalDemand, ln);
            && SumPotentialDemand(rows) as real <= totalDemand
            && (forall k :: 0 <= k < |rows| ==> rows[k].potentialDemand >= 0)
  {
    if competitors != [] {
      var scores := Scores(competitors, PriceReference(MinPrice(competitors)),
                           MarketingReference(MaxMarketing(competitors)), ln);
      ScoresPositive(competitors, ln);
      AllocationDemandBound(competitors, scores, totalDemand);
    }
  }

  /** Allocating by positive scores asks for at most the total demand in all
      and never for a negative demand. */
  lemma AllocationDemandBound(cs: seq<Competitor>, scores: seq<real>, totalDemand: real)
    requires |scores| == |cs| && totalDemand >= 0.0
    requires (forall k :: 0 <= k < |scores| ==> scores[k] > 0.0) && Sum(scores) > 0.0
    ensures var rows := AllocateAll(cs, scores, Sum(scores), totalDemand);
            && SumPotentialDemand(rows) as real <= totalDemand
            && (forall k :: 0 <= k < |rows| ==> rows[k].potentialDemand >= 0)
  {
    var rows := AllocateAll(cs, scores, Sum(scores), totalDemand);
    AllocatedShares(cs, scores, Sum(scores), totalDemand);
    DivBounds(Sum(scores), Sum(scores));
    AllocatedDemand(cs, scores, Sum(scores), totalDemand);
    assert totalDemand * SumShares(rows) == totalDemand;
  }

  lemma DivBounds(a: real, t: real)
    requires 0.0 < a <= t
    ensures 0.0 < a / t <= 1.0
    ensures a == t ==> a / t == 1.0
  {
  }

  /** One positive term of a positive sum is at most the sum. */
  lemma {:induction false} SumBound(xs: seq<real>, k: nat)
    requires k < |xs|
    requires forall j :: 0 <= j < |xs| ==> xs[j] > 0.0
    ensures xs[k] <= Sum(xs)
  {
    SumPositive(xs[1..]);
    if k > 0 {
      SumBound(xs[1..], k - 1);
    }
  }
}
