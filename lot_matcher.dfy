/** The three ways of choosing which vested lots a sale draws from: the lowest per-share tax first
    (greedy), the optionality score first, or portfolio order (FIFO). Each returns a plan of
    `(position, shares sold)` lines. */
module LotMatcher {
  import opened Failures
  import opened PriceOracle
  import opened TaxCalculator
  import opened StableSort
  import opened Plans

  datatype Strategy = Greedy | Optionality | Fifo

  /** What a ranked matcher sorts the lots by: the per-share tax, or the optionality score taken
      against the sale day's price. `logDistance(s, b)` stands for |ln(s / b)|. */
  datatype Ranking = ByTax | ByScore(sellingPrice: real, logDistance: (real, real) -> real)

  /** The optionality score: the further the base price is from the selling price, the lower the
      score; a lot that earns a rebate (factor below 1) is pushed a further 100 down. */
  function OptionalityScore(sellingPrice: real, info: TaxInfo, logDistance: (real, real) -> real): (r: real)
    ensures -logDistance(sellingPrice, info.basePrice) - 100.0 <= r <= -logDistance(sellingPrice, info.basePrice)
    ensures r == -logDistance(sellingPrice, info.basePrice) || r == -logDistance(sellingPrice, info.basePrice) - 100.0
    ensures r < -logDistance(sellingPrice, info.basePrice) <==> info.rebate < 1.0
  {
    -logDistance(sellingPrice, info.basePrice) - (if info.rebate < 1.0 then 100.0 else 0.0)
  }

  /** A lot with a rebate scores below a lot without one unless its log distance is at least 100 smaller. */
  lemma ScorePenalty(sellingPrice: real, x: TaxInfo, y: TaxInfo, logDistance: (real, real) -> real)
    requires x.rebate < 1.0 <= y.rebate
    requires logDistance(sellingPrice, y.basePrice) < logDistance(sellingPrice, x.basePrice) + 100.0
    ensures OptionalityScore(sellingPrice, x, logDistance) < OptionalityScore(sellingPrice, y, logDistance)
  {
  }

  /** The sort key of one lot. A lot of another regime has no breakdown, and reading it fails. */
  function LotKey(ranking: Ranking, sell: SellEvent, lot: LotInfo, rates: TaxRates, tables: PriceTables)
    : (r: Result<real>)
    ensures r.Ok? <==>
              lot.lawId == 0 && StockPriceEuro(lot.day, tables).Ok? && StockPriceEuro(sell.day, tables).Ok?
    ensures ComputeTaxInfo(sell.day, lot.day, lot.lawId, rates, tables).Err? ==>
              r == Err(ComputeTaxInfo(sell.day, lot.day, lot.lawId, rates, tables).error)
    ensures ComputeTaxInfo(sell.day, lot.day, lot.lawId, rates, tables).Ok? && lot.lawId != 0 ==>
              r == Err(MissingTaxInfo(lot.lawId))
    ensures r.Ok? ==>
              var t := Breakdown(StockPriceEuro(lot.day, tables).value, StockPriceEuro(sell.day, tables).value,
                                 Rebate(sell.day, lot.day), rates);
              r.value == (if ranking.ByTax? then t.tax else OptionalityScore(ranking.sellingPrice, t, ranking.logDistance))
  {
    var info :- ComputeTaxInfo(sell.day, lot.day, lot.lawId, rates, tables);
    if info.None? then Err(MissingTaxInfo(lot.lawId))
    else match ranking
      case ByTax => Ok(info.value.tax)
      case ByScore(price, logDistance) => Ok(OptionalityScore(price, info.value, logDistance))
  }

  /** The key of every lot, in portfolio order. */
  function LotKeys(ranking: Ranking, sell: SellEvent, lots: seq<LotInfo>, rates: TaxRates, tables: PriceTables)
    : seq<Result<real>>
  {
    seq(|lots|, i requires 0 <= i < |lots| => LotKey(ranking, sell, lots[i], rates, tables))
  }

  /** The loop that builds the ranked records, one lot at a time in portfolio order; the first lot
      without a key ends it with that lot's failure. */
  method RankLots(ranking: Ranking, sell: SellEvent, lots: seq<LotInfo>, rates: TaxRates, tables: PriceTables)
    returns (r: Result<seq<real>>)
    ensures r == Collect(LotKeys(ranking, sell, lots, rates, tables))
  {
    ghost var all := LotKeys(ranking, sell, lots, rates, tables);
    var keys: seq<real> := [];
    PrependEmpty(Collect(all));
    for i := 0 to |lots|
      invariant Collect(all) == Prepend(keys, Collect(all[i..]))
    {
      var key := LotKey(ranking, sell, lots[i], rates, tables);
      assert all[i..][0] == key && all[i..][1..] == all[i + 1..];
      if key.Err? {
        return Err(key.error);
      }
      PrependTwice(keys, [key.value], Collect(all[i + 1..]));
      keys := keys + [key.value];
    }
    assert keys + [] == keys;
    return Ok(keys);
  }

  /** The order a ranked matcher consumes the lots in: the positions sorted by key, stably. */
  function RankedOrder(keys: seq<real>): seq<nat>
  {
    SortPositions(keys, Indices(|keys|))
  }

  /** After the loop of the optionality and FIFO matchers: an exception when shares are still to
      sell, otherwise (no lot and nothing requested) no plan at all. */
  function PlanOrRaise(order: seq<nat>, lots: seq<LotInfo>, amount: nat): (r: Result<Plan>)
    requires InRange(order, |lots|)
    ensures r.Ok? <==> order != [] && amount <= SumOver(order, lots)
    ensures r.Ok? ==> PlanTotal(r.value) == amount
    ensures r == Err(InsufficientShares) <==> SumOver(order, lots) < amount
    ensures r == Err(NoPlanReturned) <==> order == [] && amount == 0
  {
    ConsumeFails(order, lots, amount);
    match Consume(order, lots, amount)
    case Some(plan) => ConsumeFollowsOrder(order, lots, amount, plan); Ok(plan)
    case None => if SumOver(order, lots) < amount then Err(InsufficientShares) else Err(NoPlanReturned)
  }

  /** The greedy plan: rank by per-share tax, consume in that order, or report too few shares. */
  function GreedyPlan(sell: SellEvent, lots: seq<LotInfo>, rates: TaxRates, tables: PriceTables): (r: Result<Plan>)
    ensures Collect(LotKeys(ByTax, sell, lots, rates, tables)).Err? ==>
              r == Err(Collect(LotKeys(ByTax, sell, lots, rates, tables)).error)
    ensures Collect(LotKeys(ByTax, sell, lots, rates, tables)).Ok? && r.Err? ==> r.error == InsufficientShares
  {
    var keys :- Collect(LotKeys(ByTax, sell, lots, rates, tables));
    match Consume(RankedOrder(keys), lots, sell.amount)
    case Some(plan) => Ok(plan)
    case None => Err(InsufficientShares)
  }

  /** The optionality plan: look up the sale day's price, rank by score, consume in that order. */
  function OptionalityPlan(sell: SellEvent, lots: seq<LotInfo>, rates: TaxRates, tables: PriceTables,
                           logDistance: (real, real) -> real): (r: Result<Plan>)
    ensures StockPriceEuro(sell.day, tables).Err? ==> r == Err(StockPriceEuro(sell.day, tables).error)
    ensures StockPriceEuro(sell.day, tables).Ok? ==>
              var keys := Collect(LotKeys(ByScore(StockPriceEuro(sell.day, tables).value, logDistance),
                                          sell, lots, rates, tables));
              keys.Err? ==> r == Err(keys.error)
  {
    var sellingPrice :- StockPriceEuro(sell.day, tables);
    var keys :- Collect(LotKeys(ByScore(sellingPrice, logDistance), sell, lots, rates, tables));
    PlanOrRaise(RankedOrder(keys), lots, sell.amount)
  }

  /** The FIFO plan: consume in portfolio order. */
  function FifoPlan(sell: SellEvent, lots: seq<LotInfo>): (r: Result<Plan>)
    ensures r.Err? ==> r.error == InsufficientShares || r.error == NoPlanReturned
  {
    PlanOrRaise(Indices(|lots|), lots, sell.amount)
  }

  function MatchPlan(strategy: Strategy, sell: SellEvent, lots: seq<LotInfo>, rates: TaxRates,
                     tables: PriceTables, logDistance: (real, real) -> real): Result<Plan>
  {
    match strategy
    case Greedy => GreedyPlan(sell, lots, rates, tables)
    case Optionality => OptionalityPlan(sell, lots, rates, tables, logDistance)
    case Fifo => FifoPlan(sell, lots)
  }

  method MatchGreedy(sell: SellEvent, lots: seq<LotInfo>, rates: TaxRates, tables: PriceTables)
    returns (r: Result<Plan>)
    ensures r == GreedyPlan(sell, lots, rates, tables)
  {
    var ranked := RankLots(ByTax, sell, lots, rates, tables);
    if ranked.Err? {
      return Err(ranked.error);
    }
    var plan, remaining := ConsumeInOrder(RankedOrder(ranked.value), lots, sell.amount);
    if plan.Some? {
      return Ok(plan.value);
    }
    return Err(InsufficientShares);
  }

  method MatchOptionality(sell: SellEvent, lots: seq<LotInfo>, rates: TaxRates, tables: PriceTables,
                          logDistance: (real, real) -> real)
    returns (r: Result<Plan>)
    ensures r == OptionalityPlan(sell, lots, rates, tables, logDistance)
  {
    var sellingPrice := StockPriceEuro(sell.day, tables);
    if sellingPrice.Err? {
      return Err(sellingPrice.error);
    }
    var ranked := RankLots(ByScore(sellingPrice.value, logDistance), sell, lots, rates, tables);
    if ranked.Err? {
      return Err(ranked.error);
    }
    var plan, remaining := ConsumeInOrder(RankedOrder(ranked.value), lots, sell.amount);
    if plan.Some? {
      return Ok(plan.value);
    }
    if remaining > 0 {
      return Err(InsufficientShares);
    }
    return Err(NoPlanReturned);
  }

  method MatchFifo(sell: SellEvent, lots: seq<LotInfo>) returns (r: Result<Plan>)
    ensures r == FifoPlan(sell, lots)
  {
    var plan, remaining := ConsumeInOrder(Indices(|lots|), lots, sell.amount);
    if plan.Some? {
      return Ok(plan.value);
    }
    if remaining > 0 {
      return Err(InsufficientShares);
    }
    return Err(NoPlanReturned);
  }

  /** The ranked order lists every position exactly once, ascending by key with ties in
      portfolio order. */
  lemma RankedOrderIsStableSort(keys: seq<real>)
    ensures InRange(RankedOrder(keys), |keys|) && |RankedOrder(keys)| == |keys|
    ensures SortedByKey(keys, RankedOrder(keys)) && Distinct(RankedOrder(keys))
    ensures forall q :: 0 <= q < |keys| ==> q in RankedOrder(keys)
  {
    var order := RankedOrder(keys);
    var indices := Indices(|keys|);
    SortStable(keys, indices);
    assert |order| == |multiset(order)| == |multiset(indices)| == |keys|;
    forall i, j | 0 <= i < j < |order| ensures order[i] != order[j] {
      SortedFacts(keys, order, i, j);
    }
    forall q | 0 <= q < |keys| ensures q in order {
      assert indices[q] == q;
      assert q in multiset(indices);
    }
  }

  /** `q` is the position of some line of `plan`. */
  predicate Chosen(plan: Plan, q: nat)
  {
    exists l :: 0 <= l < |plan| && plan[l].position == q
  }

  /** The plan takes the lots in key order, and every lot it leaves alone sorts after every lot it uses. */
  predicate FollowsRanking(keys: seq<real>, plan: Plan)
    requires PositionsIn(plan, |keys|)
  {
    && (forall k, l :: 0 <= k < l < |plan| ==> Precedes(keys, plan[k].position, plan[l].position))
    && (forall k, q :: 0 <= k < |plan| && 0 <= q < |keys| && !Chosen(plan, q) ==>
          Precedes(keys, plan[k].position, q))
  }

  /** A plan consumed in ranked order is valid and follows the ranking. */
  lemma RankedPlanFacts(keys: seq<real>, lots: seq<LotInfo>, amount: nat, plan: Plan)
    requires |keys| == |lots|
    requires InRange(RankedOrder(keys), |lots|)
    requires Consume(RankedOrder(keys), lots, amount) == Some(plan)
    ensures ValidPlan(lots, plan, amount) && FollowsRanking(keys, plan)
  {
    var order := RankedOrder(keys);
    RankedOrderIsStableSort(keys);
    ConsumeFollowsOrder(order, lots, amount, plan);
    ConsumeValid(order, lots, amount, plan);
    forall k, q | 0 <= k < |plan| && 0 <= q < |keys| && !Chosen(plan, q)
      ensures Precedes(keys, plan[k].position, q)
    {
      assert q in RankedOrder(keys);
      var m :| 0 <= m < |order| && order[m] == q;
      assert k < m;
    }
  }

  /** A ranked matcher runs out of lots exactly when there are none or they hold too few shares. */
  lemma RankedShortfall(keys: seq<real>, lots: seq<LotInfo>, amount: nat)
    requires |keys| == |lots|
    requires InRange(RankedOrder(keys), |lots|)
    ensures SumOver(RankedOrder(keys), lots) == Total(lots)
    ensures Consume(RankedOrder(keys), lots, amount).None? <==> lots == [] || Total(lots) < amount
  {
    var order := RankedOrder(keys);
    RankedOrderIsStableSort(keys);
    SumOverIndices(lots, |lots|);
    assert lots[..|lots|] == lots;
    SumOverPermutation(order, Indices(|lots|), lots);
    ConsumeFails(order, lots, amount);
  }

  /** Greedy: a plan it returns is valid and takes the lots by increasing per-share tax, ties in
      portfolio order, never skipping a cheaper lot; when every lot has a tax it fails only for
      lack of shares, and exactly then. */
  lemma GreedyPlanCorrect(sell: SellEvent, lots: seq<LotInfo>, rates: TaxRates, tables: PriceTables)
    ensures var keys := Collect(LotKeys(ByTax, sell, lots, rates, tables));
            var r := GreedyPlan(sell, lots, rates, tables);
            && (r.Ok? ==> keys.Ok? && ValidPlan(lots, r.value, sell.amount) && FollowsRanking(keys.value, r.value))
            && (keys.Ok? ==> (r.Ok? <==> lots != [] && sell.amount <= Total(lots)))
            && (keys.Ok? && r.Err? ==> r.error == InsufficientShares)
  {
    var keys := Collect(LotKeys(ByTax, sell, lots, rates, tables));
    if keys.Ok? {
      RankedOrderIsStableSort(keys.value);
      RankedShortfall(keys.value, lots, sell.amount);
      match Consume(RankedOrder(keys.value), lots, sell.amount)
      case Some(plan) => RankedPlanFacts(keys.value, lots, sell.amount, plan);
      case None =>
    }
  }

  /** Greedy: a lot with a lower per-share tax than a lot the plan uses is used, and earlier. */
  lemma {:induction false} GreedyCheaperFirst(sell: SellEvent, lots: seq<LotInfo>, rates: TaxRates,
                                              tables: PriceTables, plan: Plan, a: nat, l: nat, taxA: real, taxB: real)
    requires GreedyPlan(sell, lots, rates, tables) == Ok(plan)
    requires a < |lots| && l < |plan| && plan[l].position < |lots|
    requires LotKey(ByTax, sell, lots[a], rates, tables) == Ok(taxA)
    requires LotKey(ByTax, sell, lots[plan[l].position], rates, tables) == Ok(taxB)
    requires taxA < taxB
    ensures exists k :: 0 <= k < l && plan[k].position == a
  {
    var keys := Collect(LotKeys(ByTax, sell, lots, rates, tables));
    GreedyPlanCorrect(sell, lots, rates, tables);
    CollectResults(LotKeys(ByTax, sell, lots, rates, tables));
    assert LotKeys(ByTax, sell, lots, rates, tables)[a] == Ok(taxA);
    assert LotKeys(ByTax, sell, lots, rates, tables)[plan[l].position] == Ok(taxB);
    RankedSoldBefore(keys.value, lots, sell.amount, plan, a, l);
  }

  /** In a plan consumed in ranked order, a lot with a smaller key than a used lot is used before it. */
  lemma RankedSoldBefore(keys: seq<real>, lots: seq<LotInfo>, amount: nat, plan: Plan, a: nat, l: nat)
    requires |keys| == |lots| && InRange(RankedOrder(keys), |lots|)
    requires Consume(RankedOrder(keys), lots, amount) == Some(plan)
    requires a < |lots| && l < |plan| && plan[l].position < |lots|
    requires keys[a] < keys[plan[l].position]
    ensures exists k :: 0 <= k < l && plan[k].position == a
  {
    var order := RankedOrder(keys);
    RankedOrderIsStableSort(keys);
    ConsumeFollowsOrder(order, lots, amount, plan);
    assert a in RankedOrder(keys);
    var m :| 0 <= m < |order| && order[m] == a;
    SortedFacts(keys, order, m, l);
    assert plan[m].position == a;
  }

  /** Optionality: a plan it returns is valid and follows the score ranking; once the sale day's
      price and every lot's score are known it fails only for lack of shares, and exactly then. */
  lemma OptionalityPlanCorrect(sell: SellEvent, lots: seq<LotInfo>, rates: TaxRates, tables: PriceTables,
                               logDistance: (real, real) -> real)
    ensures var r := OptionalityPlan(sell, lots, rates, tables, logDistance);
            && (r.Ok? ==> StockPriceEuro(sell.day, tables).Ok?)
            && (r.Ok? ==>
                  var keys := Collect(LotKeys(ByScore(StockPriceEuro(sell.day, tables).value, logDistance),
                                              sell, lots, rates, tables));
                  keys.Ok? && ValidPlan(lots, r.value, sell.amount) && FollowsRanking(keys.value, r.value))
            && (StockPriceEuro(sell.day, tables).Ok? &&
                Collect(LotKeys(ByScore(StockPriceEuro(sell.day, tables).value, logDistance),
                                sell, lots, rates, tables)).Ok? ==>
                  (r.Ok? <==> lots != [] && sell.amount <= Total(lots)) &&
                  (r.Err? ==> r.error == (if sell.amount <= Total(lots) then NoPlanReturned else InsufficientShares)))
  {
    var price := StockPriceEuro(sell.day, tables);
    if price.Ok? {
      var keys := Collect(LotKeys(ByScore(price.value, logDistance), sell, lots, rates, tables));
      if keys.Ok? {
        RankedOrderIsStableSort(keys.value);
        RankedShortfall(keys.value, lots, sell.amount);
        match Consume(RankedOrder(keys.value), lots, sell.amount)
        case Some(plan) => RankedPlanFacts(keys.value, lots, sell.amount, plan);
        case None =>
      }
    }
  }

  /** Optionality: a lot that earns a rebate is sold before a lot without one that the plan uses,
      unless its log distance is at least 100 smaller. */
  lemma {:induction false} RebatedLotSoldFirst(sell: SellEvent, lots: seq<LotInfo>, rates: TaxRates,
                                               tables: PriceTables, logDistance: (real, real) -> real,
                                               plan: Plan, a: nat, l: nat, infoA: TaxInfo, infoB: TaxInfo)
    requires OptionalityPlan(sell, lots, rates, tables, logDistance) == Ok(plan)
    requires a < |lots| && l < |plan| && plan[l].position < |lots|
    requires ComputeTaxInfo(sell.day, lots[a].day, lots[a].lawId, rates, tables) == Ok(Some(infoA))
    requires ComputeTaxInfo(sell.day, lots[plan[l].position].day, lots[plan[l].position].lawId, rates, tables)
             == Ok(Some(infoB))
    requires infoA.rebate < 1.0 <= infoB.rebate
    requires logDistance(infoA.sellingPrice, infoB.basePrice) < logDistance(infoA.sellingPrice, infoA.basePrice) + 100.0
    ensures exists k :: 0 <= k < l && plan[k].position == a
  {
    var price := StockPriceEuro(sell.day, tables).value;
    var all := LotKeys(ByScore(price, logDistance), sell, lots, rates, tables);
    var keys := Collect(all);
    CollectResults(all);
    assert all[a] == Ok(OptionalityScore(price, infoA, logDistance));
    assert all[plan[l].position] == Ok(OptionalityScore(price, infoB, logDistance));
    ScorePenalty(price, infoA, infoB, logDistance);
    RankedOrderIsStableSort(keys.value);
    RankedSoldBefore(keys.value, lots, sell.amount, plan, a, l);
  }

  /** FIFO: a plan it returns is valid and takes the lots in portfolio order; it fails for lack of
      shares exactly when the lots hold too few, and returns no plan only for an empty portfolio
      and a request of nothing. */
  lemma FifoPlanCorrect(sell: SellEvent, lots: seq<LotInfo>)
    ensures var r := FifoPlan(sell, lots);
            && (r.Ok? ==> ValidPlan(lots, r.value, sell.amount) &&
                          forall k :: 0 <= k < |r.value| ==> r.value[k].position == k)
            && (r.Ok? <==> lots != [] && sell.amount <= Total(lots))
            && (r == Err(InsufficientShares) <==> Total(lots) < sell.amount)
            && (r == Err(NoPlanReturned) <==> lots == [] && sell.amount == 0)
  {
    var order := Indices(|lots|);
    SumOverIndices(lots, |lots|);
    assert lots[..|lots|] == lots;
    ConsumeFails(order, lots, sell.amount);
    match Consume(order, lots, sell.amount)
    case Some(plan) =>
      ConsumeFollowsOrder(order, lots, sell.amount, plan);
      ConsumeValid(order, lots, sell.amount, plan);
    case None =>
  }
}
