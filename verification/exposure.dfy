/**
  The most an exchange can ever hold from one ladder, over any run: what all its requests ask for together, even if
  every one of them was accepted. It joins the protocol, which sends each row at most once, to the arithmetic that
  sized the rows.
*/
module Exposures {
  import opened Wrappers
  import opened Market
  import opened Records
  import opened Protocol
  import opened Safety
  import opened Runs
  import opened Guarantees
  import Ladder
  import LadderBounds
  import LadderExact

  /** What one request puts at risk: its quantity, or its cash in 10^-18. */
  datatype Measure = ByQuantity | ByAmount(venue: Venue) {
    ghost function Of(price: nat, quantity: nat): nat {
      match this
      case ByQuantity => quantity
      case ByAmount(v) => Amount(price, quantity, v)
    }
  }

  /** What all requests of a ladder together put at risk, had every one of them been accepted. */
  ghost function Exposure(calls: seq<Call>, l: nat, m: Measure): nat {
    if calls == [] then 0
    else
      var n := |calls| - 1;
      Exposure(calls[..n], l, m) + if calls[n].ladder == l then m.Of(calls[n].price, calls[n].quantity) else 0
  }

  ghost function RowsWorth(rows: seq<Order>, l: nat, keys: set<nat>, m: Measure): nat {
    if rows == [] then 0
    else
      var n := |rows| - 1;
      RowsWorth(rows[..n], l, keys, m) + if n in keys && rows[n].ladder == l then m.Of(rows[n].price, rows[n].quantity) else 0
  }

  ghost function LinesWorth(lines: seq<Line>, m: Measure): nat {
    if lines == [] then 0
    else
      var n := |lines| - 1;
      LinesWorth(lines[..n], m) + m.Of(lines[n].price, lines[n].quantity)
  }

  lemma {:induction false} OneMoreKey(rows: seq<Order>, l: nat, keys: set<nat>, k: nat, m: Measure)
    requires k !in keys
    ensures RowsWorth(rows, l, keys + {k}, m) == RowsWorth(rows, l, keys, m)
      + if k < |rows| && rows[k].ladder == l then m.Of(rows[k].price, rows[k].quantity) else 0
  {
    if rows != [] {
      OneMoreKey(rows[..|rows| - 1], l, keys, k, m);
    }
  }

  ghost function KeysOf(calls: seq<Call>): set<nat> {
    set c | c in calls :: c.order
  }

  lemma {:induction false} NoKeysNoWorth(rows: seq<Order>, l: nat, m: Measure)
    ensures RowsWorth(rows, l, {}, m) == 0
  {
    if rows != [] {
      NoKeysNoWorth(rows[..|rows| - 1], l, m);
    }
  }

  ghost predicate CallsFit(calls: seq<Call>, rows: seq<Order>) {
    && (forall i, j | 0 <= i < j < |calls| :: calls[i].order != calls[j].order)
    && forall i | 0 <= i < |calls| ::
         && calls[i].order < |rows| && calls[i].ladder == rows[calls[i].order].ladder
         && calls[i].price == rows[calls[i].order].price && calls[i].quantity == rows[calls[i].order].quantity
  }

  /** Because no row is sent twice, the requests are worth what the rows they were for are worth. */
  lemma LastKeyIsNew(calls: seq<Call>)
    requires calls != [] && forall i, j | 0 <= i < j < |calls| :: calls[i].order != calls[j].order
    ensures var n := |calls| - 1;
      calls[n].order !in KeysOf(calls[..n]) && KeysOf(calls) == KeysOf(calls[..n]) + {calls[n].order}
  {
    var n := |calls| - 1;
    assert calls == calls[..n] + [calls[n]];
    assert forall i | 0 <= i < n :: calls[..n][i].order != calls[n].order;
  }

  lemma {:induction false} CallsAreRows(calls: seq<Call>, rows: seq<Order>, l: nat, m: Measure)
    requires CallsFit(calls, rows)
    ensures Exposure(calls, l, m) == RowsWorth(rows, l, KeysOf(calls), m)
  {
    if calls == [] {
      NoKeysNoWorth(rows, l, m);
      assert KeysOf(calls) == {};
    } else {
      var n := |calls| - 1;
      LastKeyIsNew(calls);
      assert CallsFit(calls[..n], rows);
      assert calls[n].order < |rows| && calls[n].ladder == rows[calls[n].order].ladder
        && calls[n].price == rows[calls[n].order].price && calls[n].quantity == rows[calls[n].order].quantity;
      hide CallsFit, KeysOf, RowsWorth;
      CallsAreRows(calls[..n], rows, l, m);
      OneMoreKey(rows, l, KeysOf(calls[..n]), calls[n].order, m);
    }
  }

  lemma {:induction false} SomeRowsWithinLines(rows: seq<Order>, l: nat, keys: set<nat>, m: Measure)
    ensures RowsWorth(rows, l, keys, m) <= LinesWorth(Lines(rows, l), m)
  {
    if rows != [] {
      var n := |rows| - 1;
      SomeRowsWithinLines(rows[..n], l, keys, m);
      var earlier := Lines(rows[..n], l);
      if rows[n].ladder == l {
        assert Lines(rows, l)[..|earlier|] == earlier;
      }
    }
  }

  lemma {:induction false} RungsAreWorth(rungs: seq<Ladder.Rung>, lines: seq<Line>, v: Venue)
    requires |lines| == |rungs|
    requires forall i | 0 <= i < |rungs| :: lines[i].price == rungs[i].price && lines[i].quantity == rungs[i].quantity
    ensures LinesWorth(lines, ByQuantity) == Ladder.TotalQuantity(rungs)
    ensures LinesWorth(lines, ByAmount(v)) == Ladder.TotalAmount(rungs, v)
  {
    if rungs != [] {
      var n := |rungs| - 1;
      RungsAreWorth(rungs[..n], lines[..n], v);
    }
  }

  lemma PlanIsWorth(plan: Ladder.Plan, v: Venue)
    ensures LinesWorth(PlanLines(plan), ByQuantity) == Ladder.TotalQuantity(plan.rungs)
    ensures LinesWorth(PlanLines(plan), ByAmount(v)) == Ladder.TotalAmount(plan.rungs, v)
  {
    RungsAreWorth(plan.rungs, PlanLines(plan), v);
  }

  lemma {:induction false} ExposedLadderWasSent(calls: seq<Call>, l: nat, m: Measure)
    requires 0 < Exposure(calls, l, m)
    ensures exists i :: 0 <= i < |calls| && calls[i].ladder == l
  {
    var n := |calls| - 1;
    if calls[n].ladder != l {
      ExposedLadderWasSent(calls[..n], l, m);
    }
  }

  lemma SentLadder(w: World, i: nat)
    requires Inv(w) && i < |w.calls|
    ensures var l := w.calls[i].ladder;
      && l < |w.ladders| && w.ladders[l].state != StateDraft
      && Planned(w, l)
  {
    InvHasCalls(w);
    hide Inv, InOrder;
    assert CallMatches(w, w.calls[i]);
    assert LadderOk(w, w.calls[i].ladder);
  }

  lemma CallsFitRows(w: World)
    requires Inv(w)
    ensures CallsFit(w.calls, w.rows)
  {
    InvHasCalls(w);
    hide Inv, InOrder, LaddersOk, RowOk;
    assert forall j | 0 <= j < |w.calls| :: CallMatches(w, w.calls[j]);
  }

  lemma LinesOfPlan(w: World, l: nat)
    requires Inv(w) && l in w.plans
    ensures Lines(w.rows, l) == PlanLines(w.plans[l])
  {
    hide RowsOk, CallsOk, LaddersOk, Evidenced, OneDoubtPerVenue, BrokersUnique, CallsSorted, RungsSorted, InOrder, Lines;
  }

  /** All requests ever made for a ladder are worth at most the plan it was inserted from. */
  lemma ExposureWithinPlan(w: World, l: nat, m: Measure)
    requires Inv(w) && 0 < Exposure(w.calls, l, m)
    ensures l < |w.ladders| && w.ladders[l].state != StateDraft
    ensures Planned(w, l)
    ensures Exposure(w.calls, l, m) <= LinesWorth(PlanLines(w.plans[l]), m)
  {
    ExposedLadderWasSent(w.calls, l, m);
    var i :| 0 <= i < |w.calls| && w.calls[i].ladder == l;
    SentLadder(w, i);
    CallsFitRows(w);
    LinesOfPlan(w, l);
    hide Inv, CallsFit, Lines;
    CallsAreRows(w.calls, w.rows, l, m);
    SomeRowsWithinLines(w.rows, l, KeysOf(w.calls), m);
  }

  /** A sell never offers more than the holding its ladder was given, however often it was interrupted and resumed. */
  lemma SellExposure(w: World, l: nat)
    requires Reachable(w) && l < |w.ladders| && w.ladders[l].spec.side == Sell && 0 < Exposure(w.calls, l, ByQuantity)
    ensures l in w.plans && (l !in w.retyped ==> w.plans[l].spec.total == w.ladders[l].spec.total)
    ensures var spec := w.plans[l].spec;
      && Exposure(w.calls, l, ByQuantity) <= RoundQuantity(spec.total, spec.venue)
      && Exposure(w.calls, l, ByQuantity) * UnitSize(spec.venue) <= spec.total
  {
    hide Reachable, Inv, Exposure, Ladder.Build, LinesWorth, PlanLines;
    ReachableIsFine(w);
    ExposureWithinPlan(w, l, ByQuantity);
    var plan := w.plans[l];
    assert WellBuilt(plan, w.quotes[l]);
    hide Built;
    var powers :| Ladder.Build(plan.spec, powers) == Ok(plan);
    LadderBounds.SellCommitsAtMostTotal(plan.spec, powers);
    PlanIsWorth(plan, plan.spec.venue);
    SellWithinTotal(Exposure(w.calls, l, ByQuantity), plan.spec);
  }

  lemma SellWithinTotal(sold: nat, spec: Ladder.Spec)
    requires sold <= RoundQuantity(spec.total, spec.venue)
    ensures sold * UnitSize(spec.venue) <= spec.total
  {
    assert RoundQuantity(spec.total, spec.venue) * UnitSize(spec.venue) <= spec.total;
  }

  /** The commission rate the exchange quoted when the ladder was turned into orders; quoting none, it charges none. */
  ghost function Charged(terms: Terms): real {
    if terms.Ok? && terms.value.Some? then terms.value.value else 0.0
  }

  /**
    A buy never asks for more cash, with the commission the exchange quoted for it, than its ladder was given, up to half
    of 10^-18 for each of at most fifty rungs; and not even that much when the budget is a multiple of 10^-16.
  */
  lemma BuyExposure(w: World, l: nat)
    requires Reachable(w) && l < |w.ladders| && w.ladders[l].spec.side == Buy
    requires 0 < Exposure(w.calls, l, ByAmount(w.ladders[l].spec.venue))
    ensures l in w.plans && l in w.quotes && w.quotes[l].Ok? && 0.0 <= Charged(w.quotes[l]) == w.plans[l].spec.fee
    ensures l !in w.retyped ==> w.plans[l].spec.total == w.ladders[l].spec.total
    ensures |w.plans[l].rungs| <= Ladder.MAX_RUNGS
    ensures var asked, rate := Exposure(w.calls, l, ByAmount(w.ladders[l].spec.venue)), Charged(w.quotes[l]);
      && LadderExact.WithFee(asked, rate) <= LadderBounds.TotalAndDust(w.plans[l])
      && (Ladder.Budget(w.plans[l].spec) % 100 == 0 ==> LadderExact.WithFee(asked, rate) <= w.plans[l].spec.total as real)
  {
    var m := ByAmount(w.ladders[l].spec.venue);
    hide Reachable, Inv, Exposure, Ladder.Build, Ladder.Budget, LinesWorth, PlanLines, LadderExact.WithFee, LadderBounds.TotalAndDust;
    ReachableIsFine(w);
    ExposureWithinPlan(w, l, m);
    var plan := w.plans[l];
    assert WellBuilt(plan, w.quotes[l]);
    hide Built, IsBuilt;
    PlanIsWorth(plan, plan.spec.venue);
    BuiltBuyFits(plan, Exposure(w.calls, l, m));
  }

  lemma BuiltBuyFits(plan: Ladder.Plan, asked: nat)
    requires IsBuilt(plan) && plan.spec.side == Buy && asked <= Ladder.TotalAmount(plan.rungs, plan.spec.venue)
    ensures 0.0 <= plan.spec.fee && |plan.rungs| <= Ladder.MAX_RUNGS
    ensures LadderExact.WithFee(asked, plan.spec.fee) <= LadderBounds.TotalAndDust(plan)
    ensures Ladder.Budget(plan.spec) % 100 == 0 ==> LadderExact.WithFee(asked, plan.spec.fee) <= plan.spec.total as real
  {
    hide Ladder.Build, Ladder.Budget, Ladder.Prices, Ladder.Sized, Ladder.Commitment, LadderExact.WithFee, LadderBounds.TotalAndDust;
    var powers :| Ladder.Build(plan.spec, powers) == Ok(plan);
    LadderBounds.BuildShape(plan.spec, powers);
    LadderBounds.BuyCommitsAtMostTotal(plan.spec, powers);
    LadderExact.CommitmentIsWithFee(plan);
    LadderExact.FeeKeepsOrder(asked, Ladder.TotalAmount(plan.rungs, plan.spec.venue), plan.spec.fee);
  }

  // ---------- What each request asks for ----------

  lemma {:induction false} RowIsSomeLine(rows: seq<Order>, l: nat, k: nat) returns (i: nat)
    requires k < |rows| && rows[k].ladder == l
    ensures i < |Lines(rows, l)| && Lines(rows, l)[i] == Line(rows[k].rung, rows[k].price, rows[k].quantity)
  {
    var n := |rows| - 1;
    if k < n {
      i := RowIsSomeLine(rows[..n], l, k);
    } else {
      i := |Lines(rows[..n], l)|;
    }
  }

  lemma CallIsSomeRung(w: World, c: nat) returns (i: nat)
    requires Inv(w) && c < |w.calls|
    ensures var call := w.calls[c];
      && call.ladder in w.plans && i < |w.plans[call.ladder].rungs|
      && var rung := w.plans[call.ladder].rungs[i];
      && rung.index == call.rung && rung.price == call.price && rung.quantity == call.quantity
  {
    SentLadder(w, c);
    CallsFitRows(w);
    var call := w.calls[c];
    LinesOfPlan(w, call.ladder);
    CallHasRung(w, c);
    hide Inv, Lines, CallsFit;
    i := RowIsSomeLine(w.rows, call.ladder, call.order);
  }

  lemma CallHasRung(w: World, c: nat)
    requires Inv(w) && c < |w.calls|
    ensures var call := w.calls[c];
      && call.order < |w.rows| && w.rows[call.order].ladder == call.ladder && w.rows[call.order].rung == call.rung
      && w.rows[call.order].price == call.price && w.rows[call.order].quantity == call.quantity
      && call.ladder < |w.ladders|
      && call.venue == w.ladders[call.ladder].spec.venue && call.symbol == w.ladders[call.ladder].spec.symbol
      && call.side == w.ladders[call.ladder].spec.side
  {
    InvHasCalls(w);
    hide Inv, InOrder, LaddersOk, RowOk;
    assert CallMatches(w, w.calls[c]);
  }

  /** Every request that ever leaves passes the size, unit and price-grid gate of the adapter it goes through. */
  lemma EveryRequestIsSubmittable(w: World, c: nat)
    requires Reachable(w) && c < |w.calls|
    ensures Submittable(w.calls[c].venue, w.calls[c].symbol, w.calls[c].quantity, w.calls[c].price)
  {
    hide Reachable, Inv, Ladder.Build, Submittable;
    ReachableIsFine(w);
    var call := w.calls[c];
    SentLadder(w, c);
    CallHasRung(w, c);
    var i := CallIsSomeRung(w, c);
    var plan := w.plans[call.ladder];
    assert WellBuilt(plan, w.quotes[call.ladder]);
    hide Built;
    var powers :| Ladder.Build(plan.spec, powers) == Ok(plan);
    LadderBounds.BuiltRungsAreSubmittable(plan.spec, powers);
    assert plan.rungs[i] in plan.rungs;
  }
}
