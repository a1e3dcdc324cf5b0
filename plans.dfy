/** Lots, sell events and allocation plans, and the consumption loop the three matchers share:
    walk the lots in a given order and take from each the lesser of its amount and what is
    still to sell. */
module Plans {
  import opened Failures
  import opened StableSort

  /** What the matchers read of a vested lot: its vesting day, the shares left, its regime. */
  datatype LotInfo = LotInfo(day: int, amount: nat, lawId: int)

  /** A request to sell `amount` shares on `day`. */
  datatype SellEvent = SellEvent(day: int, amount: nat)

  /** One plan line: sell `sold` shares of the lot at `position` in the portfolio. */
  datatype Sale = Sale(position: nat, sold: nat)

  type Plan = seq<Sale>

  /** The shares held by all the lots. */
  function Total(lots: seq<LotInfo>): nat
  {
    if lots == [] then 0 else Total(lots[..|lots| - 1]) + lots[|lots| - 1].amount
  }

  /** The shares held by the lots at the positions of `order`. */
  function SumOver(order: seq<nat>, lots: seq<LotInfo>): nat
    requires InRange(order, |lots|)
  {
    if order == [] then 0 else lots[order[0]].amount + SumOver(order[1..], lots)
  }

  /** The shares a plan sells. */
  function PlanTotal(plan: Plan): nat
  {
    if plan == [] then 0 else plan[0].sold + PlanTotal(plan[1..])
  }

  /** The shares a plan sells from the lot at `position`. */
  function SoldAt(plan: Plan, position: nat): nat
  {
    if plan == [] then 0
    else (if plan[0].position == position then plan[0].sold else 0) + SoldAt(plan[1..], position)
  }

  function Min(a: nat, b: nat): nat
  {
    if a <= b then a else b
  }

  /** `plan` followed by the plan `r` carries, if it carries one. */
  function Extend(plan: Plan, r: Option<Plan>): Option<Plan>
  {
    match r
    case Some(rest) => Some(plan + rest)
    case None => None
  }

  /** The consumption loop as a function: the plan made once `remaining` reaches zero, or None
      when the order runs out first. */
  function Consume(order: seq<nat>, lots: seq<LotInfo>, remaining: nat): (r: Option<Plan>)
    requires InRange(order, |lots|)
    ensures r.Some? ==> 0 < |r.value| <= |order|
  {
    if order == [] then None
    else
      var sold := Min(lots[order[0]].amount, remaining);
      if remaining - sold == 0 then Some([Sale(order[0], sold)])
      else Extend([Sale(order[0], sold)], Consume(order[1..], lots, remaining - sold))
  }

  /** Every line of the plan names one of the first `n` lots. */
  predicate PositionsIn(plan: Plan, n: nat)
  {
    forall k :: 0 <= k < |plan| ==> plan[k].position < n
  }

  /** What every matcher promises of a plan it returns. The plan stops at the line that completes
      the sale, so its last line sells a share unless it is the plan's only line. */
  predicate ValidPlan(lots: seq<LotInfo>, plan: Plan, amount: nat)
  {
    && |plan| > 0
    && PlanTotal(plan) == amount
    && PositionsIn(plan, |lots|)
    && (forall k :: 0 <= k < |plan| ==> plan[k].sold <= lots[plan[k].position].amount)
    && (forall k, l :: 0 <= k < l < |plan| ==> plan[k].position != plan[l].position)
    && (forall k :: 0 <= k < |plan| - 1 ==> plan[k].sold == lots[plan[k].position].amount)
    && (|plan| == 1 || plan[|plan| - 1].sold > 0)
  }

  predicate Distinct(order: seq<nat>)
  {
    forall i, j :: 0 <= i < j < |order| ==> order[i] != order[j]
  }

  /** The loop of the matchers: take `min(amount, remaining)` from each lot in turn and stop as
      soon as nothing remains to sell. When it runs out of lots, `remaining` is what is left. */
  method ConsumeInOrder(order: seq<nat>, lots: seq<LotInfo>, amount: nat) returns (r: Option<Plan>, remaining: nat)
    requires InRange(order, |lots|)
    ensures r == Consume(order, lots, amount)
    ensures r.None? ==> remaining + SumOver(order, lots) == amount
  {
    remaining := amount;
    var plan: Plan := [];
    assert order[0..] == order;
    ExtendEmpty(Consume(order, lots, amount));
    for k := 0 to |order|
      invariant Consume(order, lots, amount) == Extend(plan, Consume(order[k..], lots, remaining))
      invariant remaining + SumOver(order[..k], lots) == amount
    {
      var position := order[k];
      var sold := Min(lots[position].amount, remaining);
      assert order[k..][1..] == order[k + 1..];
      SumOverConcat(order[..k], [position], lots);
      assert order[..k + 1] == order[..k] + [position];
      ExtendTwice(plan, [Sale(position, sold)], Consume(order[k + 1..], lots, remaining - sold));
      remaining := remaining - sold;
      plan := plan + [Sale(position, sold)];
      if remaining == 0 {
        return Some(plan), 0;
      }
    }
    assert order[..|order|] == order;
    r := None;
  }

  lemma ExtendEmpty(r: Option<Plan>)
    ensures Extend([], r) == r
  {
    if r.Some? {
      assert [] + r.value == r.value;
    }
  }

  lemma ExtendTwice(p: Plan, q: Plan, r: Option<Plan>)
    ensures Extend(p, Extend(q, r)) == Extend(p + q, r)
  {
    if r.Some? {
      assert p + (q + r.value) == (p + q) + r.value;
    }
  }

  lemma {:induction false} SumOverConcat(a: seq<nat>, b: seq<nat>, lots: seq<LotInfo>)
    requires InRange(a, |lots|) && InRange(b, |lots|)
    ensures InRange(a + b, |lots|)
    ensures SumOver(a + b, lots) == SumOver(a, lots) + SumOver(b, lots)
  {
    if a == [] {
      assert a + b == b;
    } else {
      assert (a + b)[1..] == a[1..] + b;
      SumOverConcat(a[1..], b, lots);
    }
  }

  /** Taking the entry at `j` out of `b` takes its lot's shares out of the sum. */
  lemma SumOverRemove(b: seq<nat>, j: nat, lots: seq<LotInfo>)
    requires InRange(b, |lots|) && j < |b|
    ensures InRange(b[..j] + b[j + 1..], |lots|)
    ensures multiset(b[..j] + b[j + 1..]) == multiset(b) - multiset{b[j]}
    ensures SumOver(b, lots) == lots[b[j]].amount + SumOver(b[..j] + b[j + 1..], lots)
  {
    assert b == b[..j] + [b[j]] + b[j + 1..];
    SumOverConcat(b[..j], b[j + 1..], lots);
    SumOverConcat(b[..j], [b[j]], lots);
    SumOverConcat(b[..j] + [b[j]], b[j + 1..], lots);
  }

  /** The shares over the positions do not depend on the order they are listed in. */
  lemma {:induction false} SumOverPermutation(a: seq<nat>, b: seq<nat>, lots: seq<LotInfo>)
    requires InRange(a, |lots|) && InRange(b, |lots|)
    requires multiset(a) == multiset(b)
    ensures SumOver(a, lots) == SumOver(b, lots)
    decreases |a|
  {
    if a == [] {
      assert |b| == |multiset(b)| == 0;
    } else {
      var x := a[0];
      assert x in multiset(b);
      var j :| 0 <= j < |b| && b[j] == x;
      SumOverRemove(b, j, lots);
      assert a == [x] + a[1..];
      assert multiset(a[1..]) == multiset(a) - multiset{x};
      SumOverPermutation(a[1..], b[..j] + b[j + 1..], lots);
    }
  }

  /** Listing every position once, in portfolio order, covers all the shares. */
  lemma {:induction false} SumOverIndices(lots: seq<LotInfo>, n: nat)
    requires n <= |lots|
    ensures InRange(Indices(n), |lots|)
    ensures SumOver(Indices(n), lots) == Total(lots[..n])
  {
    if n > 0 {
      SumOverIndices(lots, n - 1);
      assert Indices(n) == Indices(n - 1) + [n - 1];
      SumOverConcat(Indices(n - 1), [n - 1], lots);
      assert lots[..n][..n - 1] == lots[..n - 1];
    }
  }

  /** A plan from the consumption loop follows the order, sells exactly the amount requested,
      never more than a lot holds, and empties every lot it uses except perhaps the last. */
  lemma {:induction false} ConsumeFollowsOrder(order: seq<nat>, lots: seq<LotInfo>, amount: nat, plan: Plan)
    requires InRange(order, |lots|)
    requires Consume(order, lots, amount) == Some(plan)
    ensures 0 < |plan| <= |order|
    ensures forall k :: 0 <= k < |plan| ==> plan[k].position == order[k] && plan[k].sold <= lots[order[k]].amount
    ensures forall k :: 0 <= k < |plan| - 1 ==> plan[k].sold == lots[order[k]].amount
    ensures PlanTotal(plan) == amount
    ensures amount == 0 ==> |plan| == 1
    ensures amount > 0 ==> plan[|plan| - 1].sold > 0
  {
    var sold := Min(lots[order[0]].amount, amount);
    if amount - sold != 0 {
      var rest :| Consume(order[1..], lots, amount - sold) == Some(rest);
      ConsumeFollowsOrder(order[1..], lots, amount - sold, rest);
      assert plan == [Sale(order[0], sold)] + rest;
      assert plan[1..] == rest;
    }
  }

  /** The consumption loop runs out of lots exactly when there are none or they hold too few shares. */
  lemma {:induction false} ConsumeFails(order: seq<nat>, lots: seq<LotInfo>, amount: nat)
    requires InRange(order, |lots|)
    ensures Consume(order, lots, amount).None? <==> order == [] || SumOver(order, lots) < amount
  {
    if order != [] {
      var sold := Min(lots[order[0]].amount, amount);
      if amount - sold != 0 {
        ConsumeFails(order[1..], lots, amount - sold);
      }
    }
  }

  /** Consuming distinct positions gives a valid plan. */
  lemma ConsumeValid(order: seq<nat>, lots: seq<LotInfo>, amount: nat, plan: Plan)
    requires InRange(order, |lots|) && Distinct(order)
    requires Consume(order, lots, amount) == Some(plan)
    ensures ValidPlan(lots, plan, amount)
  {
    ConsumeFollowsOrder(order, lots, amount, plan);
  }

  lemma {:induction false} SoldAtAppend(plan: Plan, line: Sale, position: nat)
    ensures SoldAt(plan + [line], position) ==
            SoldAt(plan, position) + (if line.position == position then line.sold else 0)
  {
    if plan == [] {
      assert plan + [line] == [line];
    } else {
      assert (plan + [line])[1..] == plan[1..] + [line];
      SoldAtAppend(plan[1..], line, position);
    }
  }

  lemma {:induction false} SoldAtUnused(plan: Plan, position: nat)
    requires forall k :: 0 <= k < |plan| ==> plan[k].position != position
    ensures SoldAt(plan, position) == 0
  {
    if plan != [] {
      SoldAtUnused(plan[1..], position);
    }
  }

  /** The shares a plan sells from the lots at positions below `n`. */
  function SoldBelow(plan: Plan, n: nat): nat
  {
    if n == 0 then 0 else SoldBelow(plan, n - 1) + SoldAt(plan, n - 1)
  }

  lemma {:induction false} SoldBelowFirst(plan: Plan, n: nat)
    requires plan != []
    ensures SoldBelow(plan, n) == (if plan[0].position < n then plan[0].sold else 0) + SoldBelow(plan[1..], n)
  {
    if n > 0 {
      SoldBelowFirst(plan, n - 1);
    }
  }

  lemma {:induction false} SoldBelowAll(plan: Plan, n: nat)
    requires forall k :: 0 <= k < |plan| ==> plan[k].position < n
    ensures SoldBelow(plan, n) == PlanTotal(plan)
  {
    if plan == [] {
      SoldBelowEmpty(n);
    } else {
      SoldBelowFirst(plan, n);
      SoldBelowAll(plan[1..], n);
    }
  }

  lemma {:induction false} SoldBelowEmpty(n: nat)
    ensures SoldBelow([], n) == 0
  {
    if n > 0 {
      SoldBelowEmpty(n - 1);
    }
  }

  /** In a plan over distinct positions, the shares sold from a line's lot are that line's. */
  lemma {:induction false} SoldAtLine(plan: Plan, k: nat)
    requires forall i, j :: 0 <= i < j < |plan| ==> plan[i].position != plan[j].position
    requires k < |plan|
    ensures SoldAt(plan, plan[k].position) == plan[k].sold
  {
    if k == 0 {
      SoldAtUnused(plan[1..], plan[0].position);
    } else {
      SoldAtLine(plan[1..], k - 1);
    }
  }

  /** A valid plan never sells more from a lot than it holds, nor more than the lots hold in all. */
  lemma ValidPlanWithinHoldings(lots: seq<LotInfo>, plan: Plan, amount: nat)
    requires ValidPlan(lots, plan, amount)
    ensures forall i :: 0 <= i < |lots| ==> SoldAt(plan, i) <= lots[i].amount
    ensures amount <= Total(lots)
  {
    forall i | 0 <= i < |lots| ensures SoldAt(plan, i) <= lots[i].amount {
      if k :| 0 <= k < |plan| && plan[k].position == i {
        SoldAtLine(plan, k);
      } else {
        SoldAtUnused(plan, i);
      }
    }
    var after := seq(|lots|, i requires 0 <= i < |lots| =>
                               LotInfo(lots[i].day, lots[i].amount - SoldAt(plan, i), lots[i].lawId));
    Conservation(lots, after, plan);
  }

  /** Shares are conserved: when every lot loses what the plan sells from it, what the lots hold
      afterwards plus what the plan sells is what they held before. */
  lemma Conservation(before: seq<LotInfo>, after: seq<LotInfo>, plan: Plan)
    requires |before| == |after|
    requires PositionsIn(plan, |before|)
    requires forall i :: 0 <= i < |before| ==> after[i].amount == before[i].amount - SoldAt(plan, i)
    ensures Total(after) + PlanTotal(plan) == Total(before)
  {
    ConservationUpTo(before, after, plan, |before|);
    assert before[..|before|] == before && after[..|after|] == after;
    SoldBelowAll(plan, |before|);
  }

  lemma {:induction false} ConservationUpTo(before: seq<LotInfo>, after: seq<LotInfo>, plan: Plan, n: nat)
    requires |before| == |after| && n <= |before|
    requires forall i :: 0 <= i < |before| ==> after[i].amount == before[i].amount - SoldAt(plan, i)
    ensures Total(after[..n]) + SoldBelow(plan, n) == Total(before[..n])
  {
    if n > 0 {
      ConservationUpTo(before, after, plan, n - 1);
      assert after[..n][..n - 1] == after[..n - 1];
      assert before[..n][..n - 1] == before[..n - 1];
    }
  }
}
