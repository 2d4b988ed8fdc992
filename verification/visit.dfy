/**
  What reconciling an order, or resolving it by hand, leaves in its row and its ladder, for any answer whatever
  (internal/orders/reconcile.go and resolve.go).
*/
module Visits {
  import opened Wrappers
  import opened Market
  import opened Records
  import opened Protocol
  import opened Steps
  import opened Operations
  import opened Safety
  import opened ReconcileSafety
  import opened Listings
  import opened Cycles
  import opened Submissions
  import opened Withdrawals
  import CancelSafety
  import Ladder

  // ---------- The row ----------

  /** The order is recorded as one whose fate is unknown, unless it says just that already, or nothing can be written. */
  ghost predicate Parked(r: Order, r1: Order, known: Order, reason: string, writes: nat) {
    if writes == 0 || (known.status == Unknown && known.reason == reason) then r1 == r
    else r1 == known.(status := Unknown, reason := reason)
  }

  /** The status a row shows once a report has been taken over. */
  ghost function Reported(was: Status, quantity: nat, e: Evidence): Status {
    if e.filled == quantity then Filled
    else if was == PendingCancel && (e.status == Pending || e.status == PartialFilled) then PendingCancel
    else e.status
  }

  /**
    A report about the order as it is known: parked when it is about other terms or says more than was ordered, ignored
    when it is older than what is stored, and otherwise taken over; the last write is that the operator has been told.
  */
  ghost predicate Told(r: Order, r1: Order, known: Order, spec: Ladder.Spec, e: Evidence, writes: nat) {
    if e.symbol != spec.symbol || e.side != spec.side then
      Parked(r, r1, known, "the order found is for another symbol or side", writes)
    else if e.filled > known.quantity then Parked(r, r1, known, "more was filled than ordered", writes)
    else if writes == 0 || e.filled < known.filled then r1 == r
    else
      var status := Reported(known.status, known.quantity, e);
      var withdrawn := status == Canceled && (known.status == Pending || known.status == PartialFilled);
      r1 == Order(
        known.ladder, known.rung, known.price, known.quantity, status, known.broker,
        e.filled, e.amount, e.costs, e.costsFinal, if writes == 1 || e.filled <= known.notified then known.notified else e.filled,
        if withdrawn then "withdrawn by the exchange" else known.reason)
  }

  /** No other order is linked to this exchange order. */
  ghost predicate Free(w: World, key: nat, broker: nat) {
    forall k | 0 <= k < |w.rows| && k != key :: w.rows[k].broker != Some(broker)
  }

  /** An order that was sent but has no id is found by the identifier it was sent with, or it is parked. */
  ghost predicate Recovered(w: World, key: nat, r: Order, r1: Order, spec: Ladder.Spec, reply: Reply) {
    match reply.lookup
    case Unsupported => Parked(r, r1, r, "the exchange cannot look this order up; match it by hand", reply.writes)
    case Failed(reason) => Parked(r, r1, r, Trim(reason), reply.writes)
    case Found(e) =>
      if e.client != Some(key) then Parked(r, r1, r, "the order found carries another identifier", reply.writes)
      else if !Free(w, key, e.broker) then r1 == r
      else Told(r, r1, r.(broker := Some(e.broker)), spec, e, reply.writes)
  }

  /** What a visit leaves in the row: nothing new for one not yet sent, or one that the listing shows as it is stored. */
  ghost predicate Refreshed(w: World, r: Order, r1: Order, spec: Ladder.Spec, stop: Stop) {
    if r.status == Prepared then r1 == r
    else if r.broker.None? then Recovered(w, stop.key, r, r1, spec, stop.reply)
    else if ShownAsIs(r, stop.listing) || !stop.reply.lookup.Found? then r1 == r
    else Told(r, r1, r, spec, stop.reply.lookup.report, stop.reply.writes)
  }

  lemma ReportTells(fits: bool, r: Order, o: Order, spec: Ladder.Spec, e: Evidence, n: nat)
    requires o.status.Active()
    requires fits || (o.broker.Some? && r != o)
    ensures fits ==> Told(r, AfterReport(fits, r, o, spec, e, n), o, spec, e, n)
    ensures !fits ==> AfterReport(fits, r, o, spec, e, n) == r
  {
  }

  lemma StopLeaves(w: World, stop: Stop)
    requires BrokersUnique(w) && stop.key < |w.rows| && w.rows[stop.key].ladder < |w.ladders|
    requires w.rows[stop.key].status.Active()
    ensures var r := w.rows[stop.key];
      Refreshed(w, r, Outcome(RefreshAt(w, stop), r), Spec(w, stop.key), stop)
  {
    var key, r, spec, reply := stop.key, w.rows[stop.key], Spec(w, stop.key), stop.reply;
    NothingLeaves(r);
    hide BrokersUnique, LookupScript, RecoverScript, Outcome, Told, AfterReport;
    if r.status == Prepared {
    } else if r.broker.None? {
      if reply.lookup.Found? && reply.lookup.report.client == Some(key) {
        var e := reply.lookup.report;
        AdoptLeaves(w, key, r, spec, reply);
        ReportTells(UpdateOk(w, key, r.(broker := Some(e.broker))), r, r.(broker := Some(e.broker)), spec, e, reply.writes);
      } else {
        ParkedLeaves(w, key, r, spec, reply);
      }
    } else {
      CancelSafety.SameBrokerFits(w, key, r);
      LookupLeaves(w, key, r, spec, reply);
      if reply.lookup.Found? {
        ReportTells(true, r, r, spec, reply.lookup.report, reply.writes);
      }
    }
  }

  /**
    After a cycle the row of each order it visited is what its own answer makes of it, in the tables as the visit found
    them, whatever the answers were and however many of its writes went through.
  */
  lemma CycleLeavesRow(w: World, c: Cycle, stop: Stop) returns (m: World)
    requires Inv(w) && LaddersKnown(w) && CycleOk(w, c) && IsStop(w, c, c.venues, stop)
    ensures LinksKept(m, Play(w, ReconcileScript(w, c))) && |m.rows| == |w.rows| && m.rows[stop.key] == w.rows[stop.key]
    ensures Refreshed(m, w.rows[stop.key], Play(w, ReconcileScript(w, c)).rows[stop.key], Spec(w, stop.key), stop)
  {
    hide Play, ReconcileScript, RefreshAt, Outcome, Inv, LinksKept, BrokersUnique, Refreshed, CycleOk;
    m := StopVisited(w, c, stop);
    FineTables(m, stop.key);
    StopLeaves(m, stop);
  }

  lemma {:induction false} UpdatesTouchOnlyRows(w: World, script: seq<Action>)
    requires forall a | a in script :: a.Update?
    ensures Play(w, script) == w.(rows := Play(w, script).rows)
  {
    if script != [] {
      var n := |script| - 1;
      assert forall a | a in script[..n] :: a in script;
      UpdatesTouchOnlyRows(w, script[..n]);
      assert script[n] in script;
    }
  }

  /** The rows a cycle does not visit stay as they are. */
  lemma CycleLeavesTheRest(w: World, c: Cycle, k: nat)
    requires LaddersKnown(w) && CycleOk(w, c) && k < |w.rows|
    requires k in c.keys ==>
      var venue := Spec(w, k).venue; !(venue in c.venues && venue in w.connected && venue in c.listings)
    ensures var w1 := Play(w, ReconcileScript(w, c)); |w1.rows| == |w.rows| && w1.rows[k] == w.rows[k]
  {
    assert forall i | 0 <= i < |c.keys| :: c.keys[i] < |w.rows|;
    hide Play, ReconcileScript, SweepScript, CycleStops, ActiveKeys, CycleOk;
    CycleLeaves(w, c);
    var stops := CycleStops(w, c, c.venues);
    forall i | 0 <= i < |stops|
      ensures stops[i].key != k
    {
      CycleStopsAre(w, c, c.venues, stops[i]);
    }
    SweepTouchesOnlyStops(w, stops, k);
  }

  // ---------- Resolving by hand ----------

  /** The operator's order may be taken for ours: ours is in doubt, theirs is nobody's, and every term agrees. */
  ghost predicate Matches(w: World, key: nat, broker: nat, lookup: Lookup) {
    && key < |w.rows| && w.rows[key].ladder < |w.ladders|
    && var r, spec := w.rows[key], Spec(w, key);
    && (r.status == Sending || r.status == Unknown) && Free(w, key, broker) && spec.venue in w.connected
    && lookup.Found?
    && var e := lookup.report;
    && e.symbol == spec.symbol && e.side == spec.side && e.quantity == r.quantity && e.price == r.price
  }

  lemma MatchesIff(w: World, key: nat, broker: nat, lookup: Lookup)
    requires LaddersKnown(w)
    ensures Adoptable(w, key, broker, lookup) <==> Matches(w, key, broker, lookup)
  {
  }

  /** Taking a report over, written in full, after hearing it. */
  lemma AdoptedRow(w: World, key: nat, broker: nat, lookup: Lookup)
    requires Matches(w, key, broker, lookup)
    ensures var r, e := w.rows[key], lookup.report;
      var adopted := r.(broker := Some(broker), reason := "");
      var w1 := Play(w, [Learn(Finding(key, broker, e))] + ApplyScript(w, key, adopted, Spec(w, key), e));
      && |w1.rows| == |w.rows| && w1 == w.(rows := w1.rows, findings := w.findings + [Finding(key, broker, e)])
      && (forall k | 0 <= k < |w.rows| && k != key :: w1.rows[k] == w.rows[k])
      && Told(r, w1.rows[key], adopted, Spec(w, key), e, 2)
  {
    var r, e, spec := w.rows[key], lookup.report, Spec(w, key);
    var adopted := r.(broker := Some(broker), reason := "");
    var apply := ApplyScript(w, key, adopted, spec, e);
    assert UpdateOk(w, key, adopted) && adopted.status.Active();
    hide UpdateOk, Free, OnlyRow, ApplyScript, Told, AfterReport, Outcome, Play;
    AdoptionIsShort(w, key, adopted, spec, e);
    assert Take(apply, 2) == apply;
    ReportLeaves(w, key, r, adopted, spec, e, 2);
    ReportTells(true, r, adopted, spec, e, 2);
    HeardLeaves(w, key, Finding(key, broker, e), apply);
  }

  lemma HeardLeaves(w: World, key: nat, finding: Finding, script: seq<Action>)
    requires key < |w.rows| && OnlyRow(script, key) && forall a | a in script :: a.Update?
    ensures var w1 := Play(w, [Learn(finding)] + script);
      && |w1.rows| == |w.rows| && w1 == w.(rows := w1.rows, findings := w.findings + [finding])
      && (forall k | 0 <= k < |w.rows| && k != key :: w1.rows[k] == w.rows[k])
      && w1.rows[key] == Outcome(script, w.rows[key])
  {
    var w0 := Do(w, Learn(finding));
    hide OnlyRow, Outcome, Play;
    PlayFirst(w, Learn(finding), script);
    OnlyRowChanges(w0, script, key);
    OutcomeIsPlayed(w0, script, key);
    UpdatesTouchOnlyRows(w0, script);
  }

  lemma AdoptionIsShort(w: World, key: nat, order: Order, spec: Ladder.Spec, e: Evidence)
    ensures var apply := ApplyScript(w, key, order, spec, e);
      |apply| <= 2 && OnlyRow(apply, key) && forall a | a in apply :: a.Update?
  {
    hide UpdateOk, Applied;
  }

  /**
    Resolving an order as found adopts the operator's order if every term agrees, takes its report over and settles the
    ladder; if any term differs nothing happens.
  */
  lemma ResolveFoundLeaves(w: World, key: nat, broker: nat, lookup: Lookup) returns (w1: World)
    requires Inv(w)
    ensures var w2 := Play(w, ResolveFoundScript(w, key, broker, lookup));
      if !Matches(w, key, broker, lookup) then w2 == w
      else
        && w1 == w.(rows := w1.rows, findings := w.findings + [Finding(key, broker, lookup.report)]) && |w1.rows| == |w.rows|
        && (forall k | 0 <= k < |w.rows| && k != key :: w1.rows[k] == w.rows[k])
        && Told(w.rows[key], w1.rows[key], w.rows[key].(broker := Some(broker), reason := ""), Spec(w, key), lookup.report, 2)
        && SettledAs(w1, w2, w.rows[key].ladder)
  {
    w1 := w;
    KnownFor(w);
    MatchesIff(w, key, broker, lookup);
    hide Adoptable;
    if Matches(w, key, broker, lookup) {
      var adopted := w.rows[key].(broker := Some(broker), reason := "");
      var script := [Learn(Finding(key, broker, lookup.report))] + ApplyScript(w, key, adopted, Spec(w, key), lookup.report);
      AdoptedRow(w, key, broker, lookup);
      hide Inv, Play, ApplyScript, SettleScript, Told, SettledAs, Matches, LaddersKnown, SafeScript;
      w1 := Play(w, script);
      ResolveFoundIsSafe(w, key, broker, lookup);
      SafeStart(w, script, SettleScript(w1, w.rows[key].ladder));
      SettleLeaves(w1, w.rows[key].ladder);
      PlayConcat(w, script, SettleScript(w1, w.rows[key].ladder));
    }
  }

  lemma KnownFor(w: World)
    requires Inv(w)
    ensures LaddersKnown(w)
  {
    InvHasCalls(w);
    hide Inv, CallsOk, LaddersOk, InOrder;
  }

  lemma SafeStart(w: World, script: seq<Action>, rest: seq<Action>)
    requires Inv(w) && SafeScript(w, script + rest)
    ensures RowsOk(Play(w, script))
  {
    hide Inv, SafeScript, Play, RowsOk, Evolves;
    SafePrefix(w, script + rest, |script|);
    assert Take(script + rest, |script|) == script;
    SafeScriptIsSafe(w, script);
    InvHasCalls(Play(w, script));
  }

  /** Resolving an order as missing writes it off and settles the ladder, if it is in doubt with no id; otherwise nothing happens. */
  lemma ResolveMissingLeaves(w: World, key: nat) returns (w1: World)
    requires Inv(w)
    ensures var w2 := Play(w, ResolveMissingScript(w, key));
      if key < |w.rows| && (w.rows[key].status == Sending || w.rows[key].status == Unknown) && w.rows[key].broker.None? then
        && w1 == w.(writtenOff := w.writtenOff + {key},
             rows := w.rows[key := w.rows[key].(status := Canceled, reason := "operator: no such order at the exchange")])
        && SettledAs(w1, w2, w.rows[key].ladder)
      else w2 == w
  {
    w1 := w;
    if key < |w.rows| && w.rows[key].status.Unresolved() && w.rows[key].broker.None? {
      var script := [WriteOff(key, WRITTEN_OFF)];
      w1 := Play(w, script);
      PlayOne(w, script[0]);
      hide Inv, Play, SettleScript, SettledAs, SafeScript;
      CancelSafety.ResolveMissingIsSafe(w, key);
      SafeStart(w, script, SettleScript(w1, w.rows[key].ladder));
      SettleLeaves(w1, w.rows[key].ladder);
      PlayConcat(w, script, SettleScript(w1, w.rows[key].ladder));
    }
  }
}
