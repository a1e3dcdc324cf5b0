# RSU sale tax helper — a Dafny model

This project models the core of a small helper for French residents who sell shares received as
restricted stock units (RSUs). Each vested lot has a vesting day, a number of shares and a regime
flag. When shares are sold, the helper:

- picks which lots the sale draws from, by one of three strategies:
  - greedy: the lowest per-share tax first;
  - optionality: by a score built on the log distance between prices, rebated lots first;
  - FIFO: portfolio order;
- computes for every lot it uses the per-share tax breakdown. The stock price in euros comes from a
  USD price table and a USD-per-euro rate table, each read with a forward-fill tolerance of 10 days.
  The holding-period rebate is 1, 0.5 or 0.35. The base is the lower of the two prices, and the gain
  is taxed at a flat rate;
- writes one report line per lot used, lowers the lots in place and returns the lots that still
  hold shares.

Modules, one file each:

- `Failures` (`failures.dfy`): the error kinds, the `Option`/`Result` wrappers, and `Collect`.
  `Collect` models a Python loop that stops at the first exception.
- `PriceOracle` (`price_oracle.dfy`): the 10-day forward-fill lookup (a method with its loop and the
  function that specifies it) and the euro price.
- `TaxCalculator` (`tax_calculator.dfy`): the rebate, the per-share breakdown and its monotonicity
  properties.
- `StableSort` (`stable_sort.dfy`): Python's stable `sorted`, as an insertion sort of lot positions
  by key.
- `Plans` (`plans.dfy`): plan lines, the consumption loop shared by the three matchers, plan
  validity and share conservation.
- `LotMatcher` (`lot_matcher.dfy`): the three matchers, each a method proved equal to a
  specification function, and the lemmas that say what each plan satisfies.
- `SaleProcessor` (`sale_processor.dfy`): the `Lot` class with its mutable amount, the report
  records, and `ProcessSale`, which carries out a sale in place.

Days are integers (day numbers). Prices and rates are `real`. Share amounts are `nat`. A Python
exception is an `Err` of `Failures.Error`:

- `NoDataWithinTolerance`: no price in the 10-day window;
- `ZeroExchangeRate`: the division by a zero rate;
- `MissingTaxInfo`: indexing the `None` that a non-zero regime gets;
- `InsufficientShares`: the matchers' shortfall error. This includes the greedy matcher's error
  string, which the sale loop cannot index;
- `NoPlanReturned`: iterating the `None` that the optionality and FIFO matchers fall through to.

## Model

| member | source | states |
|---|---|---|
| PriceOracle.GetValueOnDate | RSU_functions.py:17-24 | The lookup loop returns exactly what `ValueOnDate` specifies: the value of the first day from `day` to `day + 9` that has one, else the no-data failure |
| PriceOracle.ValueOnDate | RSU_functions.py:17-24 | Succeeds iff some day in `[day, day + 10)` is in the table; the value is the table's value at the first such day, and no earlier day of the window is present; the failure names `day` |
| PriceOracle.FirstKnownDay | RSU_functions.py:19-21 | The day found lies in the window, is in the table, and no earlier window day is; `None` means no window day is in the table |
| PriceOracle.LookupWindowOnly | RSU_functions.py:17-24 | Two tables that agree on the 10-day window give the same lookup result; days outside the window never matter |
| PriceOracle.StockPriceEuro | RSU_functions.py:27-30 | Succeeds iff both lookups succeed and the rate is non-zero; the euro price times the rate is the USD price; a failed stock or rate lookup fails with no data for `day`, unchanged; a zero rate fails with `ZeroExchangeRate(day)` |
| TaxCalculator.Rebate | RSU_functions.py:33-39 | The factor is 1.0, 0.5 or 0.35, each exactly on its holding range: under 730 days, 730 to 2919 days, 2920 days and over |
| TaxCalculator.RebateNonIncreasing | RSU_functions.py:33-39 | An older lot never has a larger rebate factor |
| TaxCalculator.Breakdown | RSU_functions.py:51-62 | Base plus gain is the selling price; the gain is non-negative; the base never exceeds the vesting price and equals it when there is a gain; tax = base × (rebate × income rate + contributions) + gain × flat rate |
| TaxCalculator.EqualPricesNoGain | RSU_functions.py:51-56 | Selling at the vesting price leaves no gain, and the vesting price is the base |
| TaxCalculator.TaxNonNegative | RSU_functions.py:59-62 | With non-negative prices, rebate and rates the tax is non-negative |
| TaxCalculator.TaxNonDecreasingInSellingPrice | RSU_functions.py:51-62 | With non-negative rebate and rates, a higher selling price never lowers the tax |
| TaxCalculator.TaxNonIncreasingWithHolding | RSU_functions.py:57-62 | For the same prices, an older lot never costs more tax |
| TaxCalculator.ComputeTaxInfo | RSU_functions.py:43-66 | Succeeds iff both euro prices are known; a failed vesting-day lookup is returned unchanged, and otherwise a failed selling-day lookup is; a breakdown exists iff the regime is 0; it uses the two euro prices and the rebate of the holding period |
| TaxCalculator.DefaultTaxShare | RSU_functions.py:6 | Under the default rates (income 0.3, contributions 0.172, flat 0.3), the per-share tax at non-negative prices lies between 27.7% and 47.2% of the selling price |
| Failures.Collect | RSU_functions.py:80-90 | A collected success has one value per input |
| Failures.CollectResults | RSU_functions.py:80-90 | The per-lot loop succeeds iff every lot succeeds, keeping each lot's value in order; otherwise it fails with the first failure, and every earlier lot succeeded |
| Failures.CollectAppend | RSU_functions.py:189-226 | Appending a success to a successful run appends its value |
| StableSort.Insert | RSU_functions.py:92 | Insertion adds exactly the new position and keeps positions in range |
| StableSort.SortPositions | RSU_functions.py:92 | The sort output is a permutation of its input |
| StableSort.SortStable | RSU_functions.py:92 | Sorting increasing positions orders them by key, ties in portfolio order (Python's stable `sorted`) |
| StableSort.SortedFacts | RSU_functions.py:92 | In a sorted order, positions are distinct and a smaller key comes earlier |
| StableSort.Indices | RSU_functions.py:80 | The positions of the lots, in portfolio order |
| Plans.Consume | RSU_functions.py:94-105 | The consumption loop as a function: a plan it makes has at least one line and no more lines than the order has lots |
| Plans.ConsumeInOrder | RSU_functions.py:94-105 | The consumption loop returns the plan `Consume` specifies; when it runs out of lots, the remainder plus the shares of the visited lots is the amount asked |
| Plans.ConsumeFollowsOrder | RSU_functions.py:94-103 | The plan's k-th line is the order's k-th lot and sells no more than it holds; every line but the last empties its lot; the plan sells exactly the amount; the loop stops at the line that completes the sale, so a request of 0 gives one line and otherwise the last line sells at least one share |
| Plans.ConsumeFails | RSU_functions.py:94-105 | The loop runs out of lots iff there are none or they hold fewer shares than asked |
| Plans.ConsumeValid | RSU_functions.py:94-103 | A plan consumed over distinct positions is valid: it sells exactly the amount, never more than a lot holds, each lot at most once |
| Plans.SumOverPermutation | RSU_functions.py:92-105 | Reordering the lots does not change their total, so a ranked order holds all the portfolio's shares |
| Plans.ValidPlan | RSU_functions.py:94-103 | What every matcher promises of a plan: at least one line, exactly the amount sold, every position in range and selling no more than its lot holds, no lot twice, every line but the last emptying its lot, and the plan ending at the line that completes the sale (its last line sells at least one share unless it is the only line) |
| Plans.ValidPlanWithinHoldings | RSU_functions.py:94-103 | A valid plan never sells more from a lot than it holds, and never sells more than the lots hold in all |
| Plans.Conservation | RSU_functions.py:227-230 | When each lot loses what the plan sells from it, the shares left plus the shares sold equal the shares before |
| LotMatcher.OptionalityScore | RSU_functions.py:133-134 | The score is minus the log distance or that less exactly 100, and it is the lower one exactly when the lot's rebate factor is below 1 |
| LotMatcher.LotKey | RSU_functions.py:81-90 | A lot has a key iff it is of regime 0 and both euro prices are known; a lookup failure is returned unchanged; another regime fails with `MissingTaxInfo`; the key is the breakdown's tax (greedy, line 90) or the optionality score of that breakdown (lines 125-134) |
| LotMatcher.RankLots | RSU_functions.py:80-90 | The ranking loop returns every lot's key in portfolio order, or the first lot's failure |
| LotMatcher.PlanOrRaise | RSU_functions.py:141-153 | After the consumption loop: a plan iff there are lots and they hold enough shares, and it sells exactly the amount; the shortfall exception iff the lots hold too few; no plan iff there are no lots and nothing is asked (also lines 161-173) |
| LotMatcher.GreedyPlan | RSU_functions.py:76-105 | A lot's lookup or regime failure while ranking is returned unchanged; once every lot has a tax, the only failure is the shortfall error string (line 105) |
| LotMatcher.OptionalityPlan | RSU_functions.py:108-153 | A failed lookup of the sale day's price is returned first; then a lot's failure while scoring is returned unchanged |
| LotMatcher.FifoPlan | RSU_functions.py:156-173 | FIFO fails only by the shortfall exception or by returning no plan; it never looks up a price |
| LotMatcher.MatchGreedy | RSU_functions.py:76-105 | The greedy matcher returns exactly `GreedyPlan` |
| LotMatcher.MatchOptionality | RSU_functions.py:108-153 | The optionality matcher returns exactly `OptionalityPlan` |
| LotMatcher.MatchFifo | RSU_functions.py:156-173 | The FIFO matcher returns exactly `FifoPlan` |
| LotMatcher.RankedOrderIsStableSort | RSU_functions.py:92 | The ranked order lists every lot exactly once, by key, ties in portfolio order |
| LotMatcher.RankedPlanFacts | RSU_functions.py:92-103 | A ranked plan is valid; it takes lots in key order; every lot it leaves alone ranks after every lot it uses |
| LotMatcher.RankedShortfall | RSU_functions.py:94-105 | A ranked matcher runs out of lots iff there are none or they hold too few shares |
| LotMatcher.RankedSoldBefore | RSU_functions.py:92-103 | A lot with a smaller key than a lot the plan uses is used, and earlier |
| LotMatcher.GreedyPlanCorrect | RSU_functions.py:76-105 | A greedy plan is valid (so it ends at the line completing the sale) and follows the tax ranking; once every lot has a tax, it fails iff there are no lots or too few shares, and then with the shortfall error |
| LotMatcher.GreedyCheaperFirst | RSU_functions.py:89-103 | A lot with a lower per-share tax than a lot the greedy plan uses is used, and earlier |
| LotMatcher.ScorePenalty | RSU_functions.py:133-134 | A rebated lot scores below an unrebated one unless its log distance is at least 100 smaller |
| LotMatcher.OptionalityPlanCorrect | RSU_functions.py:108-153 | An optionality plan is valid (so it ends at the line completing the sale) and follows the score ranking. Once the sale price and every score are known, it fails iff there are no lots or too few shares. The error is then the shortfall exception, or no plan when the portfolio is empty |
| LotMatcher.RebatedLotSoldFirst | RSU_functions.py:120-139 | A rebated lot is used before an unrebated lot the plan uses, unless its log distance is at least 100 smaller |
| LotMatcher.FifoPlanCorrect | RSU_functions.py:156-173 | A FIFO plan is valid (so it ends at the line completing the sale) and its k-th line is lot k; it returns a plan iff there are lots and they hold enough shares; it raises the shortfall error iff the lots hold too few shares, and returns no plan iff the portfolio is empty and nothing is asked |
| SaleProcessor.Lot.constructor | RSU_functions.py:190-191 | A lot holds its vesting day, amount and regime; the day and regime are constant, and only the amount is updated in place (lines 227-230) |
| SaleProcessor.MakeRecord | RSU_functions.py:201-226 | A report line carries the sale day, the shares sold, the rebate and the per-share selling and vesting prices (boxes 514 and 520); proceeds and cost are those prices times the shares (516/518, 521/523); the result is proceeds minus cost; the base and the gain are the per-share base and gain times the shares; the base after rebate is that base times the rebate; the line's tax is the per-share tax times the shares; selling nothing gives zero totals |
| SaleProcessor.LineRecord | RSU_functions.py:190-200 | A plan line has a report line iff its lot is of regime 0 and both euro prices are known; lookup failures are returned unchanged, another regime fails with `MissingTaxInfo`; the line is built from the breakdown at the two euro prices and the holding period's rebate |
| SaleProcessor.PositiveLots | RSU_functions.py:231-234 | The kept lots all come from the portfolio and hold shares; every lot holding shares is kept |
| SaleProcessor.KeepPositive | RSU_functions.py:231-234 | The filtering loop returns exactly the lots holding shares, in portfolio order, and they hold as many shares as the whole portfolio |
| SaleProcessor.PositiveLotsTotal | RSU_functions.py:231-234 | Dropping the empty lots leaves the number of shares held unchanged |
| SaleProcessor.RecordTotals | RSU_functions.py:201-225 | A report line's proceeds split into base and gain; its result is proceeds minus cost; its base after rebate is base × rebate; its tax is the tax formula applied to its totals |
| SaleProcessor.RankedPlanRecords | RSU_functions.py:81-90 | Every line of a greedy or optionality plan has a report line, because the matcher already computed each lot's breakdown |
| SaleProcessor.MatchedPlanFacts | RSU_functions.py:184-187 | Any matcher's plan is valid; a ranked matcher's plan has a report line for every line |
| SaleProcessor.Match | RSU_functions.py:184-187 | Runs the matcher the strategy names and returns its result |
| SaleProcessor.ApplyPlan | RSU_functions.py:189-230 | Applies a prefix of the plan: each lot loses exactly what that prefix sells from it. Success means the whole plan was applied, with one report line per plan line. A failure is the breakdown failure of the first unapplied line, and it cannot happen when every line has a report line |
| SaleProcessor.LotsConserved | RSU_functions.py:227-230 | Shares left in the lots plus shares sold equal the shares before |
| SaleProcessor.SellPlan | RSU_functions.py:189-235 | Carrying out a valid plan applies a prefix of it: each lot loses exactly what that prefix sells, and shares are conserved. On success the whole plan was applied, one report line per plan line, and the returned lots plus the shares sold equal the shares before. A failure is the breakdown failure of the first unapplied line, and it cannot happen when every line has a report line |
| SaleProcessor.ProcessSale | RSU_functions.py:179-235 | A matcher failure is returned with the portfolio untouched. Otherwise the matcher's plan is valid and a prefix of it is applied: each lot loses exactly what that prefix sells, and shares are conserved. A greedy or optionality sale always completes. On success every line was applied, one report line per plan line, and the lots still holding shares are returned in portfolio order; those lots plus the shares sold equal the shares before. A FIFO failure is the breakdown failure of the first unapplied line |

## Left out

- Loading the CSV price files and converting their date strings (RSU_functions.py:8-14) is not
  modelled. The price tables are a `PriceTables` value of day-indexed maps. Dates are day numbers,
  so calendar formatting is not modelled.
- The table arguments of the tax and matching functions are never forwarded to the price lookups
  (RSU_functions.py:48-49, 122), so one pair of tables is used everywhere, as the code does.
- `numpy`'s `|log(selling / base)|` is the parameter `logDistance`, because transcendental functions
  are not available. Floating point is modelled as exact reals. `logDistance` is total, so the
  model does not capture the division by a zero base price in the score (RSU_functions.py:133):
  the ranking there never fails for that reason.
- The defaults of the sale function are not kept: its default matcher is optionality
  (RSU_functions.py:180) and its default rates are the module-level rates (RSU_functions.py:6, 45,
  181). `ProcessSale` takes the strategy and the rates explicitly; `DefaultRates` holds the
  module-level rates.
- PriceOracle.StockPriceEuro: a zero exchange rate is an error (`ZeroExchangeRate`), as Python's
  float division raises.
- The "over 300k" rule is not handled by the code either. A regime other than 0 gets no
  breakdown (`None`), and any later use of that breakdown fails with `MissingTaxInfo`.
- The report lines use field names instead of the French form-box keys (513-523).
- Share amounts are `nat`, so negative amounts and negative sale requests are not modelled.
- SaleProcessor.ProcessSale requires the portfolio's lots to be distinct objects. A portfolio that
  lists the same lot twice is not modelled.
- The greedy matcher's error string, which the sale loop then fails on, is the `InsufficientShares`
  failure. Iterating the `None` of the other matchers is `NoPlanReturned`.
- A FIFO sale can fail after earlier lines have already lowered their lots (for instance, a lot of
  another regime). `ProcessSale` states this partial update, as the code behaves. So "a failed sale
  leaves the portfolio unchanged" holds for matcher failures only.
- A regime other than 0 fails only when its breakdown is used, as in the code. It is not rejected
  up front.
- The optionality score subtracts 100 for lots whose rebate factor is below 1. So, by ascending
  sort, rebated (older) lots are sold first, as the code's comment at RSU_functions.py:120 says.
  This model follows the code, not any reading that favours unrebated lots.
