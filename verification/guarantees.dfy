/** What holds after every run from an empty database, whatever the exchanges answer and wherever the process dies. */
module Guarantees {
  import opened Wrappers
  import opened Records
  import opened Outcomes
  import opened Protocol
  import opened Operations
  import opened Safety
  import opened Runs
  import CancelSafety

  ghost predicate Reachable(w: World) {
    exists connected, turns :: w == Run(Empty(connected), turns)
  }

  lemma ReachableIsFine(w: World)
    requires Reachable(w)
    ensures Inv(w) && Built(w)
  {
    var connected, turns :| w == Run(Empty(connected), turns);
    EmptyIsFine(connected);
    hide Inv, Built, Evolves;
    RunIsSafe(Empty(connected), turns);
    RunKeepsBuilt(Empty(connected), turns);
  }

  // ---------- Placement ----------

  /** No order is placed twice, and a ladder's rungs go out one after another, nearest the base first. */
  lemma PlacedAtMostOnce(w: World)
    requires Reachable(w)
    ensures forall i, j | 0 <= i < j < |w.calls| ::
      && w.calls[i].order != w.calls[j].order
      && (w.calls[i].ladder == w.calls[j].ladder ==> w.calls[i].rung < w.calls[j].rung)
  {
    hide Reachable;
    ReachableIsFine(w);
    hide RowsOk, LaddersOk, PlansOk, Evidenced, OneDoubtPerVenue, BrokersUnique, RungsSorted, InOrder, CallMatches;
  }

  /** Once a rung may have been sent, nothing nearer the base is still waiting to be. */
  lemma NothingNearerStillWaits(w: World, i: nat, j: nat)
    requires Reachable(w) && i < |w.rows| && j < |w.rows|
    requires w.rows[i].ladder == w.rows[j].ladder && w.rows[i].rung < w.rows[j].rung && Attempted(w, j)
    ensures w.rows[i].status != Prepared
  {
    hide Reachable;
    ReachableIsFine(w);
    LowerRungComesFirst(w, i, j);
    hide RowsOk, CallsOk, LaddersOk, PlansOk, Evidenced, OneDoubtPerVenue, BrokersUnique, CallsSorted, RungsSorted;
  }

  lemma LowerRungComesFirst(w: World, i: nat, j: nat)
    requires Inv(w) && i < |w.rows| && j < |w.rows|
    requires w.rows[i].ladder == w.rows[j].ladder && w.rows[i].rung < w.rows[j].rung
    ensures i < j
  {
    hide RowsOk, CallsOk, LaddersOk, PlansOk, Evidenced, OneDoubtPerVenue, BrokersUnique, CallsSorted, InOrder;
  }

  /** Nothing is sent to a venue while another of its orders is in doubt, and at most one order is in doubt with no id. */
  lemma InFlightAlone(w: World)
    requires Reachable(w)
    ensures forall c | c in w.calls :: c.alone
    ensures forall i, j | 0 <= i < j < |w.rows| && Doubtful(w.rows[i]) && Doubtful(w.rows[j]) ::
      w.rows[i].ladder < |w.ladders| && w.rows[j].ladder < |w.ladders| && Spec(w, i).venue != Spec(w, j).venue
  {
    hide Reachable;
    ReachableIsFine(w);
    CallsWereAlone(w);
    hide RungsSorted, InOrder, LaddersOk, PlansOk, Evidenced, BrokersUnique, CallsSorted, CallsOk, RowOk;
  }

  lemma CallsWereAlone(w: World)
    requires Inv(w)
    ensures forall i | 0 <= i < |w.calls| :: w.calls[i].alone
  {
    InvHasCalls(w);
    hide Inv, RowsOk, InOrder, LaddersOk;
    assert forall i | 0 <= i < |w.calls| :: CallMatches(w, w.calls[i]);
  }

  /** Orders of a draft were never sent, so dropping an abandoned draft changes nothing at any exchange. */
  lemma DraftWasNeverSent(w: World, key: nat)
    requires Reachable(w) && key < |w.rows|
    requires w.rows[key].ladder < |w.ladders| ==> w.ladders[w.rows[key].ladder].state == StateDraft
    ensures !Called(w, key) && w.rows[key].status in {Prepared, Canceled}
  {
    hide Reachable;
    ReachableIsFine(w);
    InvHasCalls(w);
    hide Inv, InOrder;
    assert LadderOk(w, w.rows[key].ladder);
    forall i | 0 <= i < |w.calls|
      ensures w.calls[i].order != key
    {
      assert CallMatches(w, w.calls[i]);
    }
  }

  // ---------- Fills ----------

  /** What is stored about a fill is always consistent. */
  lemma FillsAreConsistent(w: World, key: nat)
    requires Reachable(w) && key < |w.rows|
    ensures 0 <= w.rows[key].notified <= w.rows[key].filled <= w.rows[key].quantity
    ensures w.rows[key].filled == w.rows[key].quantity ==> w.rows[key].status == Filled
    ensures w.rows[key].broker.None? ==> w.rows[key].filled == 0
  {
    hide Reachable;
    ReachableIsFine(w);
    hide RungsSorted, InOrder, LaddersOk, PlansOk, Evidenced, BrokersUnique, CallsOk, CallsSorted, OneDoubtPerVenue;
  }

  /** Fills only grow, what was ordered never changes, and a closed order never changes again except in what was notified. */
  lemma FillsOnlyGrow(w: World, turns: seq<Turn>, key: nat)
    requires Reachable(w) && key < |w.rows|
    ensures var w' := Run(w, turns);
      && key < |w'.rows|
      && var r, r' := w.rows[key], w'.rows[key];
      && r.filled <= r'.filled && r.notified <= r'.notified
      && r'.ladder == r.ladder && r'.rung == r.rung && r'.price == r.price && r'.quantity == r.quantity
      && (r.status.Terminal() ==> r' == r.(notified := r'.notified))
      && (r.status != Prepared ==> r'.status != Prepared)
  {
    hide Reachable, Run, Inv;
    ReachableIsFine(w);
    RunIsSafe(w, turns);
    assert RowEvolves(w.rows[key], Run(w, turns).rows[key]);
  }

  /** The exchange never took back a fill: each report it gave is at most what it has filled by now. */
  ghost predicate Truthful(w: World, fills: nat -> int) {
    && (forall b :: 0 <= fills(b))
    && forall f | f in w.findings :: f.report.filled <= fills(f.broker)
  }

  /** A linked row never claims more than the exchange order it names has filled. */
  lemma FillIsNeverOverstated(w: World, fills: nat -> int, key: nat)
    requires Reachable(w) && Truthful(w, fills) && key < |w.rows| && w.rows[key].broker.Some?
    ensures w.rows[key].filled <= fills(w.rows[key].broker.value)
  {
    hide Reachable;
    ReachableIsFine(w);
    CancelSafety.InvHasEvidence(w);
    hide Inv, RowsOk, CallsOk, LaddersOk, BrokersUnique;
    assert FillReported(w, key);
  }

  /** Reports about an order are for its own quantity, and call it filled only when all of it is (Upbit's evidence). */
  ghost predicate Exact(w: World, key: nat)
    requires key < |w.rows|
  {
    forall f | f in w.findings && f.order == key ::
      f.report.quantity == w.rows[key].quantity && (f.report.status == Filled ==> f.report.filled == f.report.quantity)
  }

  /** On exact evidence FILLED means filled in full. */
  lemma FilledIsFull(w: World, key: nat)
    requires Reachable(w) && key < |w.rows| && Exact(w, key)
    ensures w.rows[key].status == Filled <==> w.rows[key].filled == w.rows[key].quantity
  {
    hide Reachable;
    ReachableIsFine(w);
    CancelSafety.InvHasEvidence(w);
    assert RowOk(w.rows[key]) && StatusReported(w, key);
    hide Inv, RowsOk, CallsOk, LaddersOk, BrokersUnique, Evidenced;
    if w.rows[key].status == Filled {
      var f :| About(w, f, key) && Shows(w.rows[key], f) && Explains(f.report, w.rows[key]);
    }
  }

  // ---------- Settlement ----------

  lemma PlannedLadder(w: World, l: nat)
    requires Inv(w) && l < |w.ladders| && w.ladders[l].state != StateDraft
    ensures l in w.plans
  {
    assert LadderOk(w, l);
  }

  /** The requests that went out for one ladder. */
  ghost function CallsFor(calls: seq<Call>, l: nat): seq<Call> {
    if calls == [] then []
    else
      var n := |calls| - 1;
      if calls[n].ladder == l then CallsFor(calls[..n], l) + [calls[n]] else CallsFor(calls[..n], l)
  }

  lemma {:induction false} NoneFor(calls: seq<Call>, more: seq<Call>, l: nat)
    requires calls <= more
    requires forall i | |calls| <= i < |more| :: more[i].ladder != l
    ensures CallsFor(more, l) == CallsFor(calls, l)
    decreases |more|
  {
    if |calls| == |more| {
      assert calls == more;
    } else {
      NoneFor(calls, more[..|more| - 1], l);
    }
  }

  /** A ladder with nothing left waiting to be sent never sends anything again. */
  lemma NothingMoreIsSent(w: World, turns: seq<Turn>, l: nat)
    requires Inv(w) && l in w.plans
    requires forall k | 0 <= k < |w.rows| && w.rows[k].ladder == l :: w.rows[k].status != Prepared
    ensures CallsFor(Run(w, turns).calls, l) == CallsFor(w.calls, l)
  {
    var w' := Run(w, turns);
    RunIsSafe(w, turns);
    RunSendsWaiting(w, turns);
    InvHasCalls(w');
    hide Inv, LaddersOk, InOrder, RowOk;
    forall i | |w.calls| <= i < |w'.calls|
      ensures w'.calls[i].ladder != l
    {
      var key := w'.calls[i].order;
      assert CallMatches(w', w'.calls[i]);
      if key < |w.rows| {
        assert RowEvolves(w.rows[key], w'.rows[key]);
      }
    }
    NoneFor(w.calls, w'.calls, l);
  }

  /**
    A closed ladder stays closed as it is, its orders are all closed, and nothing of it is placed again. Its stored
    terms stay too, unless something is typed over them.
  */
  lemma ClosedStaysClosed(w: World, turns: seq<Turn>, l: nat)
    requires Reachable(w) && l < |w.ladders| && w.ladders[l].state.Closed()
    ensures var w' := Run(w, turns);
      && l < |w'.ladders| && w'.ladders[l] == w.ladders[l].(spec := w'.ladders[l].spec)
      && SameKind(w.ladders[l].spec, w'.ladders[l].spec)
      && (!TypesOver(turns, l) ==> w'.ladders[l] == w.ladders[l])
      && (forall k | 0 <= k < |w'.rows| && w'.rows[k].ladder == l :: w'.rows[k].status.Terminal())
      && CallsFor(w'.calls, l) == CallsFor(w.calls, l)
  {
    hide Reachable, Run, Evolves, Inv, SameKind, RetypedSince, TypesOver, CallsFor;
    ReachableIsFine(w);
    PlannedLadder(w, l);
    ClosedIsTerminal(w, l);
    NothingMoreIsSent(w, turns, l);
    RunIsSafe(w, turns);
    ClosedLadderStays(w, Run(w, turns), l);
    if !TypesOver(turns, l) {
      OnlyTypingRetypes(w, turns, l);
    }
    ClosedIsTerminal(Run(w, turns), l);
  }

  lemma ClosedLadderStays(w: World, w': World, l: nat)
    requires Evolves(w, w') && l < |w.ladders| && w.ladders[l].state.Closed()
    ensures l < |w'.ladders| && w'.ladders[l] == w.ladders[l].(spec := w'.ladders[l].spec)
    ensures SameKind(w.ladders[l].spec, w'.ladders[l].spec)
    ensures !RetypedSince(w, w', l) ==> w'.ladders[l] == w.ladders[l]
  {
    assert LadderEvolves(w.ladders[l], w'.ladders[l], RetypedSince(w, w', l));
  }

  lemma ClosedIsTerminal(w: World, l: nat)
    requires Inv(w) && l < |w.ladders| && w.ladders[l].state.Closed()
    ensures forall k | 0 <= k < |w.rows| && w.rows[k].ladder == l :: w.rows[k].status.Terminal()
  {
    InvHasCalls(w);
    hide Inv, RowsOk, CallsOk, InOrder;
    assert LadderOk(w, l);
  }

  /** A ladder that has closed is DONE exactly when something of it filled. */
  lemma ClosedAsDoneIffFilled(w: World, l: nat)
    requires Reachable(w) && l < |w.ladders| && w.ladders[l].state.Closed()
    ensures w.ladders[l].state == StateDone <==> 0 < Summarize(RowsOf(w.rows, l)).filled
  {
    hide Reachable;
    ReachableIsFine(w);
    InvHasCalls(w);
    hide Inv, CallsOk, InOrder, Summarize, RowsOf;
    TotalFillIsSomeFill(w, l);
    assert LadderOk(w, l);
    hide RowsOk;
  }

  // ---------- Canceling ----------

  ghost predicate Waits(w: World, l: nat) {
    exists k :: 0 <= k < |w.rows| && w.rows[k].ladder == l && w.rows[k].status == Prepared
  }

  /** Nothing new waits to be sent, and none of the orders named still does. */
  ghost predicate Settling(w: World, w': World, keys: seq<nat>) {
    && |w'.rows| == |w.rows| && w'.plans == w.plans && w'.ladders == w.ladders && w'.calls == w.calls
    && (forall k | 0 <= k < |w.rows| :: w'.rows[k].ladder == w.rows[k].ladder)
    && (forall k | 0 <= k < |w.rows| && w.rows[k].status != Prepared :: w'.rows[k].status != Prepared)
    && (forall k | k in keys && k < |w.rows| :: w'.rows[k].status != Prepared)
  }

  lemma SettlingComposes(w: World, w1: World, w2: World, keys: seq<nat>)
    requires keys != [] && Settling(w, w1, [keys[0]]) && Settling(w1, w2, keys[1..])
    ensures Settling(w, w2, keys)
  {
    assert forall k | k in keys :: k == keys[0] || k in keys[1..];
  }

  lemma CancelRungLeavesNothingWaiting(w: World, k: nat, answer: CancelAnswer)
    requires k < |w.rows|
    ensures Settling(w, Play(w, CancelRung(k, w.rows[k], answer)), [k])
  {
    var first := CancelRung(k, w.rows[k], answer);
    CancelRungWrites(k, w.rows[k], answer);
    hide CancelRung;
    if first != [] {
      hide Play;
      PlayOne(w, first[0]);
    }
  }

  lemma CancelRungWrites(k: nat, r: Order, answer: CancelAnswer)
    ensures var script := CancelRung(k, r, answer);
      if script == [] then r.status != Prepared
      else
        && script == [script[0]] && script[0].Update? && script[0].key == k
        && script[0].order.ladder == r.ladder && script[0].order.status != Prepared
  {
  }

  /** Working through the rungs leaves none of the ones visited waiting, and starts none. */
  lemma {:induction false} CancelRungsLeaveNoneWaiting(w: World, keys: seq<nat>, answers: map<nat, CancelAnswer>)
    requires forall i | 0 <= i < |keys| :: keys[i] < |w.rows|
    ensures Settling(w, Play(w, CancelRungs(w, keys, answers)), keys)
    decreases |keys|
  {
    if keys != [] {
      var k := keys[0];
      var first := CancelRung(k, w.rows[k], CancelReply(answers, k));
      var w1 := Play(w, first);
      CancelRungLeavesNothingWaiting(w, k, CancelReply(answers, k));
      hide CancelRung, Play, Settling;
      CancelRungsLeaveNoneWaiting(w1, keys[1..], answers);
      PlayConcat(w, first, CancelRungs(w1, keys[1..], answers));
      SettlingComposes(w, w1, Play(w, CancelRungs(w, keys, answers)), keys);
    }
  }

  lemma SettleTouchesNoOrder(w: World, l: nat)
    ensures var w' := Play(w, SettleScript(w, l));
      w'.rows == w.rows && w'.plans == w.plans && w'.calls == w.calls
  {
    var script := SettleScript(w, l);
    if script != [] {
      assert script == [script[0]];
      PlayOne(w, script[0]);
    }
  }

  lemma CanceledLadderWaitsForNothing(w: World, l: nat, answers: map<nat, CancelAnswer>)
    requires l < |w.ladders| && w.ladders[l].spec.venue in w.connected
    ensures var w' := Play(w, CancelLadderScript(w, l, answers));
      w'.plans == w.plans && w'.calls == w.calls && !Waits(w', l)
  {
    var keys := OrdersOf(w.rows, l);
    var cancels := CancelRungs(w, keys, answers);
    var w1 := Play(w, cancels);
    CancelRungsLeaveNoneWaiting(w, keys, answers);
    assert !Waits(w1, l);
    hide Play, CancelRungs, OrdersOf, SettleScript;
    PlayConcat(w, cancels, SettleScript(w1, l));
    SettleTouchesNoOrder(w1, l);
  }

  /**
    Canceling a whole ladder is final: once the call has run to its end, whatever the exchange said, no rung of
    the ladder is ever placed again. A ladder with no orders yet is only a draft, and canceling it does nothing.
  */
  lemma CancelIsFinal(w: World, l: nat, answers: map<nat, CancelAnswer>, turns: seq<Turn>)
    requires Reachable(w) && l < |w.ladders| && w.ladders[l].spec.venue in w.connected
    requires exists k :: 0 <= k < |w.rows| && w.rows[k].ladder == l
    ensures var canceled := Play(w, CancelLadderScript(w, l, answers));
      CallsFor(Run(canceled, turns).calls, l) == CallsFor(w.calls, l)
  {
    hide Reachable, Run, Inv, CancelLadderScript, Play;
    ReachableIsFine(w);
    RowHasPlan(w, l);
    CanceledLadderWaitsForNothing(w, l, answers);
    var canceled := Play(w, CancelLadderScript(w, l, answers));
    FinishedCancel(w, l, answers);
    NothingMoreIsSent(canceled, turns, l);
  }

  lemma RowHasPlan(w: World, l: nat)
    requires Inv(w) && exists k :: 0 <= k < |w.rows| && w.rows[k].ladder == l
    ensures l in w.plans
  {
    hide RowsOk, CallsOk, LaddersOk, Evidenced, OneDoubtPerVenue, BrokersUnique, CallsSorted, RungsSorted, InOrder;
  }

  lemma FinishedCancel(w: World, l: nat, answers: map<nat, CancelAnswer>)
    requires Inv(w)
    ensures Inv(Play(w, CancelLadderScript(w, l, answers)))
  {
    hide Inv, Evolves;
    CancelSafety.CancelLadderIsSafe(w, l, answers);
    SafeScriptIsSafe(w, CancelLadderScript(w, l, answers));
  }

  /** An order that was ever sent is closed as canceled only on the exchange's word about it, or on the operator's. */
  lemma CanceledOnlyOnEvidence(w: World, key: nat)
    requires Reachable(w) && key < |w.rows| && w.rows[key].status == Canceled && Called(w, key)
    ensures (key in w.writtenOff && w.rows[key].broker.None?)
      || exists f :: f in w.findings && f.order == key && w.rows[key].broker == Some(f.broker) && f.report.status == Canceled
  {
    hide Reachable;
    ReachableIsFine(w);
    CancelSafety.InvHasEvidence(w);
    hide Inv, RowsOk, CallsOk, LaddersOk, BrokersUnique;
    assert CancelEvidenced(w, key);
  }

  /** An accepted cancel waits for proof: from there an order only ever closes, unless the exchange answers about another. */
  lemma CancelWaitsForProof(w: World, turns: seq<Turn>, key: nat)
    requires Reachable(w) && key < |w.rows| && w.rows[key].status == PendingCancel
    ensures var w' := Run(w, turns);
      && RowsOk(w') && key < |w'.rows|
      && (w'.rows[key].status == PendingCancel || w'.rows[key].status.Terminal() || Dishonest(w', key))
  {
    hide Reachable, Run, Inv, Dishonest, RowEvolves, LadderEvolves;
    ReachableIsFine(w);
    RunIsSafe(w, turns);
  }
}
