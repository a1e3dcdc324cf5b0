/** The per-share tax of selling a vested lot: the holding-period rebate and the split of the
    selling price into an ordinary-income base and a capital gain. */
module TaxCalculator {
  import opened Failures
  import opened PriceOracle

  /** The marginal income tax rate, the social contributions rate and the flat tax rate on gains. */
  datatype TaxRates = TaxRates(incomeTax: real, socialContributions: real, flatTaxOnGain: real)

  /** The rates the tax breakdown uses unless a caller passes others. */
  const DefaultRates := TaxRates(0.3, 0.172, 0.3)

  predicate NonNegativeRates(rates: TaxRates)
  {
    rates.incomeTax >= 0.0 && rates.socialContributions >= 0.0 && rates.flatTaxOnGain >= 0.0
  }

  /** Two and eight years, in days of 365-day years. */
  const TwoYears: int := 365 * 2
  const EightYears: int := 365 * 8

  /** The factor applied to the income tax rate after holding shares from `vestDay` to `sellDay`. */
  function Rebate(sellDay: int, vestDay: int): (r: real)
    ensures r == 1.0 || r == 0.5 || r == 0.35
    ensures r == 1.0 <==> sellDay - vestDay < TwoYears
    ensures r == 0.5 <==> TwoYears <= sellDay - vestDay < EightYears
    ensures r == 0.35 <==> EightYears <= sellDay - vestDay
  {
    if sellDay - vestDay < TwoYears then 1.0
    else if sellDay - vestDay < EightYears then 0.5
    else 0.35
  }

  /** Holding longer never raises the rebate factor. */
  lemma RebateNonIncreasing(sellDay: int, olderVest: int, newerVest: int)
    requires olderVest <= newerVest
    ensures Rebate(sellDay, olderVest) <= Rebate(sellDay, newerVest)
  {
  }

  /** Per-share figures of one lot sold on one day. `basePrice` is the part of the selling price
      taxed as income, `gain` the part taxed as a capital gain. */
  datatype TaxInfo = TaxInfo(vestingPrice: real, basePrice: real, gain: real,
                             sellingPrice: real, rebate: real, tax: real)

  /** The breakdown of regime 0. The base is the lower of the two prices and the gain is what the
      selling price exceeds the vesting price by, so together they make up the selling price. */
  function Breakdown(vestingPrice: real, sellingPrice: real, rebate: real, rates: TaxRates): (t: TaxInfo)
    ensures t.basePrice + t.gain == sellingPrice
    ensures t.gain >= 0.0 && t.basePrice <= vestingPrice
    ensures t.gain > 0.0 ==> t.basePrice == vestingPrice
    ensures t.vestingPrice == vestingPrice && t.sellingPrice == sellingPrice && t.rebate == rebate
    ensures t.tax == t.basePrice * (rebate * rates.incomeTax + rates.socialContributions) +
                     t.gain * rates.flatTaxOnGain
  {
    var gain := if sellingPrice >= vestingPrice then sellingPrice - vestingPrice else 0.0;
    var base := if sellingPrice >= vestingPrice then vestingPrice else sellingPrice;
    TaxInfo(vestingPrice, base, gain, sellingPrice,
            rebate, base * (rebate * rates.incomeTax + rates.socialContributions) + gain * rates.flatTaxOnGain)
  }

  /** Equal prices leave no gain, and the whole vesting price is the base. */
  lemma EqualPricesNoGain(price: real, rebate: real, rates: TaxRates)
    ensures Breakdown(price, price, rebate, rates).gain == 0.0
    ensures Breakdown(price, price, rebate, rates).basePrice == price
  {
  }

  /** With non-negative prices, rebate and rates the tax is never negative. */
  lemma TaxNonNegative(vestingPrice: real, sellingPrice: real, rebate: real, rates: TaxRates)
    requires vestingPrice >= 0.0 && sellingPrice >= 0.0 && rebate >= 0.0 && NonNegativeRates(rates)
    ensures Breakdown(vestingPrice, sellingPrice, rebate, rates).tax >= 0.0
  {
    var t := Breakdown(vestingPrice, sellingPrice, rebate, rates);
    var factor := rebate * rates.incomeTax + rates.socialContributions;
    assert rebate * rates.incomeTax >= 0.0;
    assert t.basePrice >= 0.0;
    assert t.basePrice * factor >= 0.0;
    assert t.gain * rates.flatTaxOnGain >= 0.0;
  }

  /** With non-negative rates and rebate, a higher selling price never lowers the tax. */
  lemma TaxNonDecreasingInSellingPrice(vestingPrice: real, s1: real, s2: real, rebate: real, rates: TaxRates)
    requires s1 <= s2 && rebate >= 0.0 && NonNegativeRates(rates)
    ensures Breakdown(vestingPrice, s1, rebate, rates).tax <= Breakdown(vestingPrice, s2, rebate, rates).tax
  {
    var factor := rebate * rates.incomeTax + rates.socialContributions;
    assert rebate * rates.incomeTax >= 0.0;
    var t1 := Breakdown(vestingPrice, s1, rebate, rates);
    var t2 := Breakdown(vestingPrice, s2, rebate, rates);
    assert t1.basePrice <= t2.basePrice;
    assert t1.basePrice * factor <= t2.basePrice * factor;
    assert t1.gain <= t2.gain;
    assert t1.gain * rates.flatTaxOnGain <= t2.gain * rates.flatTaxOnGain;
  }

  /** For the same prices, an older lot (a smaller rebate factor) never costs more tax. */
  lemma TaxNonIncreasingWithHolding(vestingPrice: real, sellingPrice: real, sellDay: int,
                                    olderVest: int, newerVest: int, rates: TaxRates)
    requires olderVest <= newerVest
    requires vestingPrice >= 0.0 && sellingPrice >= 0.0 && NonNegativeRates(rates)
    ensures Breakdown(vestingPrice, sellingPrice, Rebate(sellDay, olderVest), rates).tax <=
            Breakdown(vestingPrice, sellingPrice, Rebate(sellDay, newerVest), rates).tax
  {
    var r1, r2 := Rebate(sellDay, olderVest), Rebate(sellDay, newerVest);
    RebateNonIncreasing(sellDay, olderVest, newerVest);
    var base := Breakdown(vestingPrice, sellingPrice, r1, rates).basePrice;
    assert base >= 0.0;
    assert r1 * rates.incomeTax <= r2 * rates.incomeTax;
    assert base * (r1 * rates.incomeTax + rates.socialContributions) <=
           base * (r2 * rates.incomeTax + rates.socialContributions);
  }

  /** Under the default rates, the tax on a share sold at a non-negative price is between 27.7% of
      the selling price (the longest holding, no gain) and 47.2% (no rebate, no gain). */
  lemma DefaultTaxShare(vestingPrice: real, sellingPrice: real, sellDay: int, vestDay: int)
    requires vestingPrice >= 0.0 && sellingPrice >= 0.0
    ensures var t := Breakdown(vestingPrice, sellingPrice, Rebate(sellDay, vestDay), DefaultRates);
            0.277 * sellingPrice <= t.tax <= 0.472 * sellingPrice
  {
    var rebate := Rebate(sellDay, vestDay);
    var t := Breakdown(vestingPrice, sellingPrice, rebate, DefaultRates);
    var factor := rebate * 0.3 + 0.172;
    assert 0.277 <= factor <= 0.472;
    assert t.basePrice >= 0.0 && t.gain >= 0.0;
    assert 0.277 * t.basePrice <= t.basePrice * factor <= 0.472 * t.basePrice;
    assert 0.277 * t.gain <= t.gain * 0.3 <= 0.472 * t.gain;
  }

  /** The per-share tax breakdown of selling, on `sellDay`, a lot vested on `vestDay`. Prices are
      looked up in the process-wide tables, the vesting price first; only regime 0 has a breakdown. */
  function ComputeTaxInfo(sellDay: int, vestDay: int, lawId: int, rates: TaxRates, tables: PriceTables)
    : (r: Result<Option<TaxInfo>>)
    ensures r.Ok? <==> StockPriceEuro(vestDay, tables).Ok? && StockPriceEuro(sellDay, tables).Ok?
    ensures StockPriceEuro(vestDay, tables).Err? ==> r == Err(StockPriceEuro(vestDay, tables).error)
    ensures StockPriceEuro(vestDay, tables).Ok? && StockPriceEuro(sellDay, tables).Err? ==>
              r == Err(StockPriceEuro(sellDay, tables).error)
    ensures r.Ok? ==> (r.value.Some? <==> lawId == 0)
    ensures r.Ok? && r.value.Some? ==>
              var t := r.value.value;
              t.vestingPrice == StockPriceEuro(vestDay, tables).value &&
              t.sellingPrice == StockPriceEuro(sellDay, tables).value &&
              t.rebate == Rebate(sellDay, vestDay) &&
              t == Breakdown(t.vestingPrice, t.sellingPrice, t.rebate, rates)
  {
    var vestingPrice :- StockPriceEuro(vestDay, tables);
    var sellingPrice :- StockPriceEuro(sellDay, tables);
    if lawId == 0 then Ok(Some(Breakdown(vestingPrice, sellingPrice, Rebate(sellDay, vestDay), rates)))
    else Ok(None)
  }
}
