/** Looking up the share price and the exchange rate for a day, with the forward fill of
    `get_value_on_date`. Days are day numbers; the date strings of the tables are not modelled. */
module PriceOracle {
  import opened Failures

  /** Number of consecutive days probed, the requested day included. */
  const Tolerance: nat := 10

  /** The process-wide reference tables: the share price in dollars, and the exchange rate
      (dollars per euro), each keyed by day number. */
  datatype PriceTables = PriceTables(stock: map<int, real>, exchange: map<int, real>)

  /** The first day among `day`, `day + 1`, ..., `day + tries - 1` that `table` has an entry for. */
  function FirstKnownDay(table: map<int, real>, day: int, tries: nat): (r: Option<int>)
    ensures r.Some? ==> day <= r.value < day + tries && r.value in table
    ensures r.Some? ==> forall d :: day <= d < r.value ==> d !in table
    ensures r.None? ==> forall d :: day <= d < day + tries ==> d !in table
    decreases tries
  {
    if tries == 0 then None
    else if day in table then Some(day)
    else FirstKnownDay(table, day + 1, tries - 1)
  }

  /** The value recorded for `day`, or else for the first of the nine following days that has one;
      a failure when none of these ten days has an entry, whatever the table holds after them. */
  function ValueOnDate(table: map<int, real>, day: int): (r: Result<real>)
    ensures r.Ok? <==> exists d :: day <= d < day + Tolerance && d in table
    ensures r.Ok? ==> exists d :: day <= d < day + Tolerance && d in table && r.value == table[d] &&
                                  forall e :: day <= e < d ==> e !in table
    ensures r.Err? ==> r.error == NoDataWithinTolerance(day)
  {
    match FirstKnownDay(table, day, Tolerance)
    case Some(d) => Ok(table[d])
    case None => Err(NoDataWithinTolerance(day))
  }

  /** The lookup loop: step one day forward while the current day is missing and fewer than ten
      steps were taken; the tenth step ends the search with a failure even if it found a day. */
  method GetValueOnDate(day: int, table: map<int, real>) returns (r: Result<real>)
    ensures r == ValueOnDate(table, day)
  {
    var dt := day;
    var i := 0;
    while dt !in table && i < Tolerance
      invariant 0 <= i <= Tolerance && dt == day + i
      invariant FirstKnownDay(table, day, Tolerance) == FirstKnownDay(table, dt, Tolerance - i)
    {
      dt := dt + 1;
      i := i + 1;
    }
    if i == Tolerance {
      return Err(NoDataWithinTolerance(day));
    }
    return Ok(table[dt]);
  }

  /** The share price in euros on `day`: the dollar price over the exchange rate, both looked up
      with the forward fill, the price first. */
  function StockPriceEuro(day: int, tables: PriceTables): (r: Result<real>)
    ensures r.Ok? <==> ValueOnDate(tables.stock, day).Ok? && ValueOnDate(tables.exchange, day).Ok? &&
                       ValueOnDate(tables.exchange, day).value != 0.0
    ensures r.Ok? ==> r.value * ValueOnDate(tables.exchange, day).value == ValueOnDate(tables.stock, day).value
    ensures ValueOnDate(tables.stock, day).Err? || ValueOnDate(tables.exchange, day).Err? ==>
              r == Err(NoDataWithinTolerance(day))
    ensures (ValueOnDate(tables.stock, day).Ok? && ValueOnDate(tables.exchange, day).Ok? &&
             ValueOnDate(tables.exchange, day).value == 0.0) ==> r == Err(ZeroExchangeRate(day))
  {
    var usd :- ValueOnDate(tables.stock, day);
    var rate :- ValueOnDate(tables.exchange, day);
    if rate == 0.0 then Err(ZeroExchangeRate(day)) else Ok(usd / rate)
  }

  /** Only the ten days from `day` matter: a table that agrees with another on them gives the same
      answer, whatever either holds on `day + Tolerance` or later. */
  lemma {:induction false} LookupWindowOnly(t1: map<int, real>, t2: map<int, real>, day: int, tries: nat)
    requires forall d :: day <= d < day + tries ==> (d in t1 <==> d in t2)
    requires forall d :: day <= d < day + tries && d in t1 ==> t1[d] == t2[d]
    ensures FirstKnownDay(t1, day, tries) == FirstKnownDay(t2, day, tries)
    ensures tries == Tolerance ==> ValueOnDate(t1, day) == ValueOnDate(t2, day)
    decreases tries
  {
    if tries > 0 && day !in t1 {
      LookupWindowOnly(t1, t2, day + 1, tries - 1);
    }
  }
}
