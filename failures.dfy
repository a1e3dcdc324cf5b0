/** Failure values shared by the price lookup, the tax calculator, the lot matchers and the
    sale processor, and the two wrappers that carry them. */
module Failures {

  /** Why an operation produced no value. */
  datatype Error =
    | NoDataWithinTolerance(day: int)  // no table entry on `day` or any of the nine days after it
    | ZeroExchangeRate(day: int)       // the exchange rate found for `day` is zero, so the division fails
    | MissingTaxInfo(lawId: int)       // the breakdown of a lot whose regime is not 0 is None, and is then read
    | InsufficientShares               // the lots together hold less than the requested amount, or
                                       // the greedy matcher found no lot to sell from
    | NoPlanReturned                   // a matcher ran off its end without a plan or an exception

  datatype Option<+T> = None | Some(value: T)

  datatype Result<+T> = Ok(value: T) | Err(error: Error) {
    predicate IsFailure() { Err? }

    function PropagateFailure<U>(): Result<U>
      requires Err?
    {
      Err(error)
    }

    function Extract(): T
      requires Ok?
    {
      value
    }
  }

  /** `xs` followed by the sequence `r` carries, or the failure of `r`. */
  function Prepend<T>(xs: seq<T>, r: Result<seq<T>>): Result<seq<T>>
  {
    match r
    case Ok(ys) => Ok(xs + ys)
    case Err(e) => Err(e)
  }

  lemma PrependEmpty<T>(r: Result<seq<T>>)
    ensures Prepend([], r) == r
  {
    if r.Ok? {
      assert [] + r.value == r.value;
    }
  }

  lemma PrependTwice<T>(xs: seq<T>, ys: seq<T>, r: Result<seq<T>>)
    ensures Prepend(xs, Prepend(ys, r)) == Prepend(xs + ys, r)
  {
    if r.Ok? {
      assert xs + (ys + r.value) == (xs + ys) + r.value;
    }
  }

  /** The values of `rs` in order when every one succeeds, else the failure of the first that does not. */
  function Collect<T>(rs: seq<Result<T>>): (r: Result<seq<T>>)
    ensures r.Ok? ==> |r.value| == |rs|
  {
    if rs == [] then Ok([])
    else
      var v :- rs[0];
      Prepend([v], Collect(rs[1..]))
  }

  lemma {:induction false} CollectResults<T>(rs: seq<Result<T>>)
    ensures Collect(rs).Ok? <==> forall i :: 0 <= i < |rs| ==> rs[i].Ok?
    ensures Collect(rs).Ok? ==> forall i :: 0 <= i < |rs| ==> rs[i] == Ok(Collect(rs).value[i])
    ensures Collect(rs).Err? ==> exists i :: 0 <= i < |rs| && rs[i] == Err(Collect(rs).error) &&
                                            forall j :: 0 <= j < i ==> rs[j].Ok?
  {
    if rs != [] {
      CollectResults(rs[1..]);
      if rs[0].Ok? && Collect(rs[1..]).Ok? {
        assert Collect(rs).value == [rs[0].value] + Collect(rs[1..]).value;
        forall i | 0 <= i < |rs| ensures rs[i] == Ok(Collect(rs).value[i]) {
          if i > 0 {
            assert rs[i] == rs[1..][i - 1];
          }
        }
      }
      if Collect(rs).Err? && rs[0].Ok? {
        var i :| 0 <= i < |rs[1..]| && rs[1..][i] == Err(Collect(rs[1..]).error) &&
                 forall j :: 0 <= j < i ==> rs[1..][j].Ok?;
        assert rs[i + 1] == Err(Collect(rs).error);
        forall j | 0 <= j < i + 1 ensures rs[j].Ok? {
          if j > 0 {
            assert rs[j] == rs[1..][j - 1];
          }
        }
      }
    }
  }

  lemma {:induction false} CollectAppend<T>(rs: seq<Result<T>>, x: T)
    requires Collect(rs).Ok?
    ensures Collect(rs + [Ok(x)]) == Ok(Collect(rs).value + [x])
  {
    if rs == [] {
      var one: seq<Result<T>> := [Ok(x)];
      assert rs + [Ok(x)] == one && one[1..] == [];
      assert Collect(one) == Prepend([x], Collect(one[1..])) == Ok([x] + []);
      assert Collect(one[1..]) == Ok([]);
      var v := Collect(rs).value;
      assert v == [];
      assert v + [x] == [x];
      assert [x] + [] == [x];
    } else {
      assert (rs + [Ok(x)])[0] == rs[0] && (rs + [Ok(x)])[1..] == rs[1..] + [Ok(x)];
      assert rs[0].Ok? && Collect(rs[1..]).Ok?;
      CollectAppend(rs[1..], x);
      assert Collect(rs).value == [rs[0].value] + Collect(rs[1..]).value;
      assert [rs[0].value] + (Collect(rs[1..]).value + [x]) == ([rs[0].value] + Collect(rs[1..]).value) + [x];
    }
  }
}
