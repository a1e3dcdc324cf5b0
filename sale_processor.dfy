/** Carrying out a sale: match the sale against the portfolio, write one record per plan line,
    lower the lots in place and return the lots that still hold shares. */
module SaleProcessor {
  import opened Failures
  import opened PriceOracle
  import opened TaxCalculator
  import opened Plans
  import opened LotMatcher

  /** A vested lot of the portfolio. Its vesting day and regime are fixed; a sale lowers its amount. */
  class Lot {
    const day: int
    var amount: nat
    const lawId: int

    constructor (day: int, amount: nat, lawId: int)
      ensures this.day == day && this.amount == amount && this.lawId == lawId
    {
      this.day := day;
      this.amount := amount;
      this.lawId := lawId;
    }

    function Info(): LotInfo
      reads this
    {
      LotInfo(day, amount, lawId)
    }
  }

  /** The lots as the matchers read them. */
  function Snapshot(portfolio: seq<Lot>): seq<LotInfo>
    reads portfolio
  {
    seq(|portfolio|, i reads portfolio requires 0 <= i < |portfolio| => portfolio[i].Info())
  }

  /** The lots that still hold shares, in portfolio order. */
  function PositiveLots(portfolio: seq<Lot>): (r: seq<Lot>)
    reads portfolio
    ensures forall l :: l in r ==> l in portfolio && l.amount > 0
    ensures forall i :: 0 <= i < |portfolio| && portfolio[i].amount > 0 ==> portfolio[i] in r
  {
    if portfolio == [] then []
    else
      var last := portfolio[|portfolio| - 1];
      PositiveLots(portfolio[..|portfolio| - 1]) + (if last.amount > 0 then [last] else [])
  }

  /** One line of the sale report: the per-share figures of the breakdown and their totals for the
      shares sold. */
  datatype SaleRecord = SaleRecord(
    day: int,               // the day of the sale
    unitPrice: real,        // selling price of one share
    shares: nat,            // shares sold
    proceeds: real,         // selling price times shares
    unitCost: real,         // vesting price of one share
    cost: real,             // vesting price times shares
    result: real,           // selling minus vesting price, times shares
    base: real,             // taxable base price times shares
    baseAfterRebate: real,  // the same, times the rebate factor
    gain: real,             // per-share gain times shares
    rebate: real,           // the rebate factor
    tax: real)              // per-share tax times shares

  /** The record of `shares` shares sold on `day` with per-share breakdown `info`: each global box
      is its per-share figure times the shares sold. */
  function MakeRecord(day: int, info: TaxInfo, shares: nat): (rec: SaleRecord)
    ensures rec.day == day && rec.shares == shares && rec.rebate == info.rebate
    ensures rec.unitPrice == info.sellingPrice && rec.unitCost == info.vestingPrice
    ensures rec.proceeds == rec.unitPrice * shares as real && rec.cost == rec.unitCost * shares as real
    ensures rec.result == rec.proceeds - rec.cost
    ensures rec.base == info.basePrice * shares as real && rec.gain == info.gain * shares as real
    ensures rec.baseAfterRebate == rec.base * info.rebate && rec.tax == info.tax * shares as real
    ensures shares == 0 ==> rec.proceeds == rec.cost == rec.base == rec.gain == rec.tax == 0.0
  {
    var n := shares as real;
    SaleRecord(day, info.sellingPrice, shares, info.sellingPrice * n, info.vestingPrice,
               info.vestingPrice * n, (info.sellingPrice - info.vestingPrice) * n, n * info.basePrice,
               n * info.basePrice * info.rebate, n * info.gain, info.rebate, n * info.tax)
  }

  /** A record's totals agree with each other: the proceeds split into base and gain, the result
      is proceeds less cost, and its tax is the tax formula applied to its totals. */
  lemma RecordTotals(day: int, vestingPrice: real, sellingPrice: real, rebate: real, rates: TaxRates, shares: nat)
    ensures var rec := MakeRecord(day, Breakdown(vestingPrice, sellingPrice, rebate, rates), shares);
            && rec.proceeds == rec.base + rec.gain
            && rec.result == rec.proceeds - rec.cost
            && rec.baseAfterRebate == rec.base * rebate
            && rec.tax == rec.base * (rebate * rates.incomeTax + rates.socialContributions) +
                          rec.gain * rates.flatTaxOnGain
  {
    var t := Breakdown(vestingPrice, sellingPrice, rebate, rates);
    var n := shares as real;
    var factor := rebate * rates.incomeTax + rates.socialContributions;
    assert t.sellingPrice * n == n * t.basePrice + n * t.gain by {
      assert t.sellingPrice == t.basePrice + t.gain;
    }
    assert (t.sellingPrice - t.vestingPrice) * n == t.sellingPrice * n - t.vestingPrice * n;
    assert n * t.tax == (n * t.basePrice) * factor + (n * t.gain) * rates.flatTaxOnGain by {
      assert t.tax == t.basePrice * factor + t.gain * rates.flatTaxOnGain;
    }
  }

  /** The record of one plan line, or the failure of its breakdown. */
  function LineRecord(sell: SellEvent, vestDay: int, lawId: int, line: Sale, rates: TaxRates, tables: PriceTables)
    : (r: Result<SaleRecord>)
    ensures r.Ok? <==>
              lawId == 0 && StockPriceEuro(vestDay, tables).Ok? && StockPriceEuro(sell.day, tables).Ok?
    ensures ComputeTaxInfo(sell.day, vestDay, lawId, rates, tables).Err? ==>
              r == Err(ComputeTaxInfo(sell.day, vestDay, lawId, rates, tables).error)
    ensures ComputeTaxInfo(sell.day, vestDay, lawId, rates, tables).Ok? && lawId != 0 ==>
              r == Err(MissingTaxInfo(lawId))
    ensures r.Ok? ==>
              r.value == MakeRecord(sell.day, Breakdown(StockPriceEuro(vestDay, tables).value,
                                                        StockPriceEuro(sell.day, tables).value,
                                                        Rebate(sell.day, vestDay), rates), line.sold)
  {
    var info :- ComputeTaxInfo(sell.day, vestDay, lawId, rates, tables);
    if info.None? then Err(MissingTaxInfo(lawId)) else Ok(MakeRecord(sell.day, info.value, line.sold))
  }

  /** The record of every plan line, in plan order. */
  function LineRecords(sell: SellEvent, lots: seq<LotInfo>, plan: Plan, rates: TaxRates, tables: PriceTables)
    : seq<Result<SaleRecord>>
    requires PositionsIn(plan, |lots|)
  {
    seq(|plan|, k requires 0 <= k < |plan| =>
          LineRecord(sell, lots[plan[k].position].day, lots[plan[k].position].lawId, plan[k], rates, tables))
  }

  /** The greedy and optionality matchers compute the breakdown of every lot before they return a
      plan, so every line of their plans has a record. */
  lemma RankedPlanRecords(strategy: Strategy, sell: SellEvent, lots: seq<LotInfo>, rates: TaxRates,
                          tables: PriceTables, logDistance: (real, real) -> real, plan: Plan)
    requires strategy != Fifo
    requires MatchPlan(strategy, sell, lots, rates, tables, logDistance) == Ok(plan)
    ensures PositionsIn(plan, |lots|)
    ensures Collect(LineRecords(sell, lots, plan, rates, tables)).Ok?
  {
    var ranking := if strategy == Greedy then ByTax
                   else ByScore(StockPriceEuro(sell.day, tables).value, logDistance);
    if strategy == Greedy {
      GreedyPlanCorrect(sell, lots, rates, tables);
    } else {
      OptionalityPlanCorrect(sell, lots, rates, tables, logDistance);
    }
    var keys := LotKeys(ranking, sell, lots, rates, tables);
    CollectResults(keys);
    var records := LineRecords(sell, lots, plan, rates, tables);
    forall k | 0 <= k < |plan| ensures records[k].Ok? {
      assert keys[plan[k].position].Ok?;
    }
    CollectResults(records);
  }

  /** The matcher's plan is valid, and a plan of the greedy or optionality matcher has a record
      for every line. */
  lemma MatchedPlanFacts(strategy: Strategy, sell: SellEvent, lots: seq<LotInfo>, rates: TaxRates,
                         tables: PriceTables, logDistance: (real, real) -> real)
    ensures var matched := MatchPlan(strategy, sell, lots, rates, tables, logDistance);
            matched.Ok? ==> ValidPlan(lots, matched.value, sell.amount)
    ensures var matched := MatchPlan(strategy, sell, lots, rates, tables, logDistance);
            strategy != Fifo && matched.Ok? ==>
              PositionsIn(matched.value, |lots|) &&
              Collect(LineRecords(sell, lots, matched.value, rates, tables)).Ok?
  {
    match strategy {
      case Greedy => GreedyPlanCorrect(sell, lots, rates, tables);
      case Optionality => OptionalityPlanCorrect(sell, lots, rates, tables, logDistance);
      case Fifo => FifoPlanCorrect(sell, lots);
    }
    var matched := MatchPlan(strategy, sell, lots, rates, tables, logDistance);
    if strategy != Fifo && matched.Ok? {
      RankedPlanRecords(strategy, sell, lots, rates, tables, logDistance, matched.value);
    }
  }

  /** Runs the matcher the strategy names. */
  method Match(strategy: Strategy, sell: SellEvent, lots: seq<LotInfo>, rates: TaxRates,
               tables: PriceTables, logDistance: (real, real) -> real)
    returns (r: Result<Plan>)
    ensures r == MatchPlan(strategy, sell, lots, rates, tables, logDistance)
  {
    match strategy {
      case Greedy => r := MatchGreedy(sell, lots, rates, tables);
      case Optionality => r := MatchOptionality(sell, lots, rates, tables, logDistance);
      case Fifo => r := MatchFifo(sell, lots);
    }
  }

  predicate DistinctLots(portfolio: seq<Lot>)
  {
    forall i, j :: 0 <= i < j < |portfolio| ==> portfolio[i] != portfolio[j]
  }

  lemma LineRecordsExtend(sell: SellEvent, lots: seq<LotInfo>, plan: Plan, k: nat, rates: TaxRates,
                          tables: PriceTables)
    requires PositionsIn(plan, |lots|) && k < |plan|
    ensures PositionsIn(plan[..k], |lots|) && PositionsIn(plan[..k + 1], |lots|)
    ensures LineRecords(sell, lots, plan[..k + 1], rates, tables) ==
            LineRecords(sell, lots, plan[..k], rates, tables) +
            [LineRecord(sell, lots[plan[k].position].day, lots[plan[k].position].lawId, plan[k], rates, tables)]
  {
  }

  /** Carries out a plan line by line: each line gets its record and then lowers its lot. The
      first line whose breakdown fails ends the run with that failure; the lines before it stay
      applied. */
  method ApplyPlan(sell: SellEvent, portfolio: seq<Lot>, plan: Plan, rates: TaxRates, tables: PriceTables)
    returns (r: Result<seq<SaleRecord>>, ghost applied: Plan)
    requires DistinctLots(portfolio)
    requires ValidPlan(Snapshot(portfolio), plan, sell.amount)
    modifies portfolio
    ensures applied <= plan
    ensures Collect(LineRecords(sell, old(Snapshot(portfolio)), plan, rates, tables)).Ok? ==> r.Ok?
    ensures forall i :: 0 <= i < |portfolio| ==> portfolio[i].amount == old(portfolio[i].amount) - SoldAt(applied, i)
    ensures r.Ok? ==> applied == plan && Collect(LineRecords(sell, old(Snapshot(portfolio)), plan, rates, tables)) == Ok(r.value)
    ensures r.Err? ==>
              && |applied| < |plan|
              && Collect(LineRecords(sell, old(Snapshot(portfolio)), applied, rates, tables)).Ok?
              && LineRecord(sell, old(Snapshot(portfolio))[plan[|applied|].position].day,
                         old(Snapshot(portfolio))[plan[|applied|].position].lawId, plan[|applied|], rates, tables)
                 == Err(r.error)
  {
    ghost var before := Snapshot(portfolio);
    assert PositionsIn(plan, |before|);
    applied := [];
    var records: seq<SaleRecord> := [];
    for k := 0 to |plan|
      invariant applied == plan[..k]
      invariant Collect(LineRecords(sell, before, applied, rates, tables)) == Ok(records)
      invariant forall i :: 0 <= i < |portfolio| ==> portfolio[i].amount == before[i].amount - SoldAt(applied, i)
    {
      var line := plan[k];
      var lot := portfolio[line.position];
      var result := LineRecord(sell, lot.day, lot.lawId, line, rates, tables);
      if result.Err? {
        assert LineRecords(sell, before, plan, rates, tables)[k] == result;
        CollectResults(LineRecords(sell, before, plan, rates, tables));
        return Err(result.error), applied;
      }
      var record := result.value;
      assert lot.day == before[line.position].day && lot.lawId == before[line.position].lawId;
      LineRecordsExtend(sell, before, plan, k, rates, tables);
      CollectAppend(LineRecords(sell, before, applied, rates, tables), record);
      records := records + [record];
      SoldAtUnused(applied, line.position);
      forall i | 0 <= i < |portfolio|
        ensures SoldAt(plan[..k + 1], i) == SoldAt(applied, i) + (if line.position == i then line.sold else 0)
      {
        SoldAtPrefix(plan, k, i);
      }
      lot.amount := lot.amount - line.sold;
      applied := plan[..k + 1];
      forall i | 0 <= i < |portfolio| ensures portfolio[i].amount == before[i].amount - SoldAt(applied, i) {
        if i != line.position {
          assert portfolio[i] != lot;
        }
      }
    }
    assert plan[..|plan|] == plan;
    r := Ok(records);
  }

  /** The lots that still hold shares, in portfolio order. */
  method KeepPositive(portfolio: seq<Lot>) returns (remaining: seq<Lot>)
    ensures remaining == PositiveLots(portfolio)
    ensures Total(Snapshot(remaining)) == Total(Snapshot(portfolio))
  {
    remaining := [];
    for i := 0 to |portfolio|
      invariant remaining == PositiveLots(portfolio[..i])
    {
      assert portfolio[..i + 1][..i] == portfolio[..i];
      if portfolio[i].amount > 0 {
        remaining := remaining + [portfolio[i]];
      }
    }
    assert portfolio[..|portfolio|] == portfolio;
    PositiveLotsTotal(portfolio);
  }

  lemma {:induction false} SoldAtPrefix(plan: Plan, k: nat, i: nat)
    requires k < |plan|
    ensures SoldAt(plan[..k + 1], i) == SoldAt(plan[..k], i) + (if plan[k].position == i then plan[k].sold else 0)
  {
    assert plan[..k + 1] == plan[..k] + [plan[k]];
    SoldAtAppend(plan[..k], plan[k], i);
  }

  /** Shares are conserved when each lot of the portfolio lost what the plan sold from it. */
  lemma LotsConserved(before: seq<LotInfo>, portfolio: seq<Lot>, plan: Plan)
    requires |before| == |portfolio| && PositionsIn(plan, |before|)
    requires forall i :: 0 <= i < |portfolio| ==> portfolio[i].amount == before[i].amount - SoldAt(plan, i)
    ensures Total(Snapshot(portfolio)) + PlanTotal(plan) == Total(before)
  {
    Conservation(before, Snapshot(portfolio), plan);
  }

  /** Dropping the empty lots does not change how many shares the portfolio holds. */
  lemma {:induction false} PositiveLotsTotal(portfolio: seq<Lot>)
    ensures Total(Snapshot(PositiveLots(portfolio))) == Total(Snapshot(portfolio))
  {
    if portfolio != [] {
      var n := |portfolio| - 1;
      var last := portfolio[n];
      PositiveLotsTotal(portfolio[..n]);
      SnapshotLast(portfolio);
      var kept := PositiveLots(portfolio[..n]);
      if last.amount > 0 {
        assert PositiveLots(portfolio) == kept + [last];
        SnapshotLast(kept + [last]);
        assert (kept + [last])[..|kept|] == kept;
      } else {
        assert PositiveLots(portfolio) == kept;
      }
    }
  }

  /** The snapshot of a non-empty portfolio is that of all but its last lot, then the last lot's. */
  lemma SnapshotLast(portfolio: seq<Lot>)
    requires portfolio != []
    ensures Total(Snapshot(portfolio)) ==
            Total(Snapshot(portfolio[..|portfolio| - 1])) + portfolio[|portfolio| - 1].amount
  {
    var s := Snapshot(portfolio);
    assert s[..|s| - 1] == Snapshot(portfolio[..|portfolio| - 1]);
  }

  datatype SaleResult = SaleResult(remaining: seq<Lot>, records: seq<SaleRecord>)

  /** Carries out a matched plan: applies it line by line, then keeps the lots still holding
      shares. */
  method SellPlan(sell: SellEvent, portfolio: seq<Lot>, plan: Plan, rates: TaxRates, tables: PriceTables)
    returns (r: Result<SaleResult>, ghost applied: Plan)
    requires DistinctLots(portfolio)
    requires ValidPlan(Snapshot(portfolio), plan, sell.amount)
    modifies portfolio
    ensures applied <= plan
    ensures Collect(LineRecords(sell, old(Snapshot(portfolio)), plan, rates, tables)).Ok? ==> r.Ok?
    ensures forall i :: 0 <= i < |portfolio| ==> portfolio[i].amount == old(portfolio[i].amount) - SoldAt(applied, i)
    ensures Total(Snapshot(portfolio)) + PlanTotal(applied) == Total(old(Snapshot(portfolio)))
    ensures r.Ok? ==>
              && applied == plan
              && Collect(LineRecords(sell, old(Snapshot(portfolio)), plan, rates, tables)) == Ok(r.value.records)
              && r.value.remaining == PositiveLots(portfolio)
              && Total(Snapshot(r.value.remaining)) + PlanTotal(plan) == Total(old(Snapshot(portfolio)))
    ensures r.Err? ==>
              && |applied| < |plan|
              && Collect(LineRecords(sell, old(Snapshot(portfolio)), applied, rates, tables)).Ok?
              && LineRecord(sell, old(Snapshot(portfolio))[plan[|applied|].position].day,
                         old(Snapshot(portfolio))[plan[|applied|].position].lawId, plan[|applied|], rates, tables)
                 == Err(r.error)
  {
    ghost var before := Snapshot(portfolio);
    var records;
    records, applied := ApplyPlan(sell, portfolio, plan, rates, tables);
    assert PositionsIn(applied, |before|) by {
      assert forall k :: 0 <= k < |applied| ==> applied[k] == plan[k];
    }
    LotsConserved(before, portfolio, applied);
    if records.Err? {
      return Err(records.error), applied;
    }
    var remaining := KeepPositive(portfolio);
    r := Ok(SaleResult(remaining, records.value));
  }

  /** Processes a sale with the chosen matcher. Each plan line in turn gets its record and lowers
      its lot; a line whose breakdown fails ends the sale with that failure, the earlier lines'
      lots staying lowered. On success the plan was carried out in full: every lot lost exactly
      what the plan sold from it, shares are conserved, and the lots still holding shares are
      returned, in portfolio order, with one record per plan line. */
  method ProcessSale(sell: SellEvent, portfolio: seq<Lot>, strategy: Strategy, rates: TaxRates,
                     tables: PriceTables, logDistance: (real, real) -> real)
    returns (r: Result<SaleResult>, ghost applied: Plan)
    requires DistinctLots(portfolio)
    modifies portfolio
    ensures var matched := MatchPlan(strategy, sell, old(Snapshot(portfolio)), rates, tables, logDistance);
            && (matched.Err? ==> r == Err(matched.error) && applied == [])
            && (matched.Ok? ==> ValidPlan(old(Snapshot(portfolio)), matched.value, sell.amount) &&
                                applied <= matched.value)
            && (strategy != Fifo && matched.Ok? ==> r.Ok?)
    ensures forall i :: 0 <= i < |portfolio| ==> portfolio[i].amount == old(portfolio[i].amount) - SoldAt(applied, i)
    ensures Total(Snapshot(portfolio)) + PlanTotal(applied) == Total(old(Snapshot(portfolio)))
    ensures r.Ok? ==>
              && MatchPlan(strategy, sell, old(Snapshot(portfolio)), rates, tables, logDistance) == Ok(applied)
              && PlanTotal(applied) == sell.amount
              && Collect(LineRecords(sell, old(Snapshot(portfolio)), applied, rates, tables)) == Ok(r.value.records)
              && r.value.remaining == PositiveLots(portfolio)
    ensures r.Ok? ==> Total(Snapshot(r.value.remaining)) + PlanTotal(applied) == Total(old(Snapshot(portfolio)))
    ensures r.Err? && MatchPlan(strategy, sell, old(Snapshot(portfolio)), rates, tables, logDistance).Ok? ==>
              var plan := MatchPlan(strategy, sell, old(Snapshot(portfolio)), rates, tables, logDistance).value;
              && |applied| < |plan|
              && Collect(LineRecords(sell, old(Snapshot(portfolio)), applied, rates, tables)).Ok?
              && LineRecord(sell, old(Snapshot(portfolio))[plan[|applied|].position].day,
                         old(Snapshot(portfolio))[plan[|applied|].position].lawId, plan[|applied|], rates, tables)
                 == Err(r.error)
  {
    ghost var before := Snapshot(portfolio);
    var matched := Match(strategy, sell, Snapshot(portfolio), rates, tables, logDistance);
    MatchedPlanFacts(strategy, sell, before, rates, tables, logDistance);
    if matched.Err? {
      applied := [];
      LotsConserved(before, portfolio, applied);
      return Err(matched.error), applied;
    }
    r, applied := SellPlan(sell, portfolio, matched.value, rates, tables);
  }
}
