/**
  The executor of the source, step by step (internal/orders/executor.go, reconcile.go, resolve.go and submitDraft of
  internal/app/actions.go). Each method works on copies read from the tables, commits each change as its own step, and
  is proved to follow the script that the theorems are about, for as many steps as the process lives.
*/
module Execution {
  import opened Wrappers
  import opened Market
  import opened Records
  import opened Outcomes
  import opened Protocol
  import opened Operations
  import opened Runs
  import opened Following
  import Ladder
  import ReconcileSafety
  import Safety

  /** What one Submit call managed to send. Stopped says why it ended early, and is empty when it did not. */
  datatype Submission = Submission(sent: nat, remaining: nat, stopped: string)

  /** What one cancel request managed to do. Blocked counts orders whose exchange id is not known. */
  datatype Cancellation = Cancellation(requested: nat, dropped: nat, blocked: nat)

  /** How the attempt on one rung ended. */
  datatype Ending = Confirmed | Stopped(reason: string) | Gone

  /** What a run reports, on top of what it has sent so far, when it is able to finish. */
  ghost function Reported(c: Submission, answers: seq<PlaceAnswer>): Submission
    decreases |answers|
  {
    if c.remaining == 0 || answers == [] then c
    else if answers[0].Refused? then c.(stopped := Trim(answers[0].reason))
    else Reported(c.(sent := c.sent + 1, remaining := c.remaining - 1), answers[1..])
  }

  /** After the request has left. */
  ghost function Placed(w: World, key: nat, r: Order): World {
    Do(Do(w, Update(key, Sent(r))), Place(key))
  }

  ghost function RungScript(key: nat, r: Order, answer: PlaceAnswer): seq<Action> {
    [Update(key, Sent(r)), Place(key)] + [Update(key, Answered(r, answer))]
  }

  lemma SendUnfolds(w: World, l: nat, pending: seq<nat>, answers: seq<PlaceAnswer>)
    requires pending != [] && pending[0] < |w.rows|
    ensures var key, r := pending[0], w.rows[pending[0]];
      var w1 := Placed(w, key, r);
      && SendScript(w, l, pending, answers) == [Update(key, Sent(r)), Place(key)] + AnswerScript(w1, l, pending, answers)
      && w1.rows == w.rows[key := Sent(r)]
      && forall answer :: Answered(w1.rows[key], answer) == Answered(r, answer)
  {
    var key, r := pending[0], w.rows[pending[0]];
    var commit, place, rest := Update(key, Sent(r)), Place(key), AnswerScript(Do(Do(w, Update(key, Sent(r))), Place(key)), l, pending, answers);
    assert [commit] + ([place] + rest) == [commit, place] + rest;
  }

  /** What a run still has to do once a rung is answered. */
  ghost function AfterRung(w: World, l: nat, pending: seq<nat>, answers: seq<PlaceAnswer>): seq<Action>
    requires pending != [] && pending[0] < |w.rows| && answers != []
  {
    var key, r := pending[0], w.rows[pending[0]];
    if answers[0].Refused? then [AfterRun(l, Trim(answers[0].reason))]
    else SendScript(Do(Placed(w, key, r), Update(key, Answered(r, answers[0]))), l, pending[1..], answers[1..])
  }

  lemma RungUnfolds(w: World, l: nat, pending: seq<nat>, answers: seq<PlaceAnswer>)
    requires pending != [] && pending[0] < |w.rows| && answers != []
    requires var key, r := pending[0], w.rows[pending[0]];
      answers[0].Accepted? ==> UpdateOk(Placed(w, key, r), key, Answered(r, answers[0]))
    ensures SendScript(w, l, pending, answers) == RungScript(pending[0], w.rows[pending[0]], answers[0]) + AfterRung(w, l, pending, answers)
  {
    var key, r := pending[0], w.rows[pending[0]];
    SendUnfolds(w, l, pending, answers);
    var attempt, u := [Update(key, Sent(r)), Place(key)], Update(key, Answered(r, answers[0]));
    hide Do, Placed, UpdateOk;
    if answers[0].Refused? {
      assert [u, AfterRun(l, Trim(answers[0].reason))] == [u] + [AfterRun(l, Trim(answers[0].reason))];
    }
    assert attempt + ([u] + AfterRung(w, l, pending, answers)) == attempt + [u] + AfterRung(w, l, pending, answers);
  }

  lemma RungLeads(w: World, l: nat, pending: seq<nat>, answers: seq<PlaceAnswer>)
    requires pending != [] && pending[0] < |w.rows| && answers != []
    ensures var key, r := pending[0], w.rows[pending[0]];
      AfterRung(w, l, pending, answers) ==
        if answers[0].Refused? then [AfterRun(l, Trim(answers[0].reason))]
        else SendScript(Do(Placed(w, key, r), Update(key, Answered(r, answers[0]))), l, pending[1..], answers[1..])
  {
  }

  /** One rung further along a run. */
  lemma RungDone(
    w: World, n: nat, all: seq<Action>, done: seq<Action>,
    w1: World, n1: nat, l: nat, left: seq<nat>, more: seq<PlaceAnswer>, w2: World, n2: nat)
    requires left != [] && left[0] < |w1.rows| && more != [] && 0 < n1
    requires var key, r := left[0], w1.rows[left[0]];
      more[0].Accepted? ==> UpdateOk(Placed(w1, key, r), key, Answered(r, more[0]))
    requires Midway(w, n, all, done, w1, n1, SendScript(w1, l, left, more))
    requires Followed(w1, n1, RungScript(left[0], w1.rows[left[0]], more[0]), w2, n2)
    ensures var key, r := left[0], w1.rows[left[0]];
      Midway(w, n, all, done + RungScript(key, r, more[0]), w2, n2,
        if more[0].Refused? then [AfterRun(l, Trim(more[0].reason))]
        else SendScript(Do(Placed(w1, key, r), Update(key, Answered(r, more[0]))), l, left[1..], more[1..]))
  {
    hide SendScript, RungScript, AfterRung, Followed, Midway, Do, Placed, Answered, UpdateOk, Take;
    RungUnfolds(w1, l, left, more);
    RungLeads(w1, l, left, more);
    MidwayStep(w, n, all, done, w1, n1, RungScript(left[0], w1.rows[left[0]], more[0]), AfterRung(w1, l, left, more), w2, n2);
  }

  lemma LastStep(w: World, l: nat, answers: seq<PlaceAnswer>)
    ensures SendScript(w, l, [], answers) == [AfterRun(l, "")]
  {
  }

  /** The orders in memory are what the tables hold, each order once. */
  ghost predicate AreCopies(w: World, keys: seq<nat>, orders: seq<Order>) {
    && |orders| == |keys|
    && (forall i | 0 <= i < |keys| :: keys[i] < |w.rows| && orders[i] == w.rows[keys[i]])
    && (forall i, j | 0 <= i < j < |keys| :: keys[i] < keys[j])
  }

  lemma StartKeepsCopies(w: World, l: nat, keys: seq<nat>, orders: seq<Order>)
    requires AreCopies(w, keys, orders)
    ensures AreCopies(Do(w, SaveState(l, StatePlacing, "")), keys, orders)
  {
  }

  lemma FirstIsCopy(w: World, keys: seq<nat>, orders: seq<Order>)
    requires AreCopies(w, keys, orders) && keys != []
    ensures orders != [] && keys[0] < |w.rows| && orders[0] == w.rows[keys[0]]
  {
  }

  /** Working on one order leaves the copies of the others fresh. */
  lemma OthersAreCopies(w: World, keys: seq<nat>, orders: seq<Order>, o: Order)
    requires AreCopies(w, keys, orders) && keys != []
    ensures AreCopies(Do(Placed(w, keys[0], orders[0]), Update(keys[0], o)), keys[1..], orders[1..])
  {
  }

  /** What is still to be said about a fill. */
  ghost function ReportScript(key: nat, order: Order): seq<Action> {
    if order.filled <= order.notified then [] else [Update(key, Notified(order))]
  }

  ghost function ReportedScript(w: World, key: nat, order: Order): seq<Action> {
    if UpdateOk(w, key, order) then [Update(key, order)] + ReportScript(key, order) else []
  }

  lemma ApplyingWrites(w: World, key: nat, order: Order, spec: Ladder.Spec, e: Report)
    requires e.symbol == spec.symbol && e.side == spec.side && order.filled <= e.filled <= order.quantity
    ensures ApplyScript(w, key, order, spec, e) == ReportedScript(w, key, Applied(order, e))
  {
  }

  ghost function HeardScript(w: World, key: nat, order: Order, spec: Ladder.Spec, e: Report, writes: nat): seq<Action>
    requires order.broker.Some?
  {
    [Learn(Finding(key, order.broker.value, e))] + Take(ApplyScript(w, key, order, spec, e), writes)
  }

  lemma RowsOfShowsActive(rows: seq<Order>, l: nat)
    ensures AnyActive(rows, l) <==> exists i :: 0 <= i < |RowsOf(rows, l)| && RowsOf(rows, l)[i].status.Active()
  {
    Safety.RowsOfHoldsEvery(rows, l);
    var all := RowsOf(rows, l);
    hide RowsOf;
    if AnyActive(rows, l) {
      var k :| 0 <= k < |rows| && rows[k].ladder == l && rows[k].status.Active();
      var i :| 0 <= i < |all| && all[i] == rows[k];
      assert all[i].status.Active();
    }
    if i :| 0 <= i < |all| && all[i].status.Active() {
      var k :| 0 <= k < |rows| && rows[k] == all[i];
      assert rows[k].status.Active();
    }
  }

  // ---------- Canceling a ladder ----------

  /** What canceling these orders comes to, on top of what was counted so far. */
  function Tally(c: Cancellation, keys: seq<nat>, orders: seq<Order>, answers: map<nat, CancelAnswer>): Cancellation
    requires |keys| == |orders|
    decreases |keys|
  {
    if keys == [] then c
    else Tally(Counted(c, orders[0], CancelReply(answers, keys[0])), keys[1..], orders[1..], answers)
  }

  function Counted(c: Cancellation, r: Order, answer: CancelAnswer): Cancellation {
    if !r.status.Active() || r.status == PendingCancel then c
    else if r.status == Prepared then c.(dropped := c.dropped + 1)
    else if r.status.Unresolved() || r.broker.None? then c.(blocked := c.blocked + 1)
    else if answer.CancelAccepted? then c.(requested := c.requested + 1)
    else c
  }

  /** A rung's cancel, played, touches that rung alone. */
  lemma OtherCopiesStay(w: World, keys: seq<nat>, orders: seq<Order>, answer: CancelAnswer)
    requires AreCopies(w, keys, orders) && keys != []
    ensures AreCopies(Play(w, CancelRung(keys[0], orders[0], answer)), keys[1..], orders[1..])
  {
    var script := CancelRung(keys[0], orders[0], answer);
    if script != [] {
      assert script == [script[0]];
      PlayOne(w, script[0]);
    }
  }

  lemma CancelRungsUnfold(w: World, keys: seq<nat>, answers: map<nat, CancelAnswer>)
    requires keys != [] && keys[0] < |w.rows|
    ensures var first := CancelRung(keys[0], w.rows[keys[0]], CancelReply(answers, keys[0]));
      CancelRungs(w, keys, answers) == first + CancelRungs(Play(w, first), keys[1..], answers)
  {
  }

  lemma NoRungsLeft(w: World, answers: map<nat, CancelAnswer>)
    ensures CancelRungs(w, [], answers) == []
  {
  }

  // ---------- Adopting an order ----------

  /** Reporting a fill takes at most one write more than the fill itself. */
  lemma AdoptionWrites(w: World, key: nat, order: Order, spec: Ladder.Spec, e: Report)
    ensures |ApplyScript(w, key, order, spec, e)| <= 2
    ensures order.broker.Some? ==>
      HeardScript(w, key, order, spec, e, 2) == HeardScript(w, key, order, spec, e, |ApplyScript(w, key, order, spec, e)|)
  {
  }

  lemma AdoptionScript(w: World, key: nat, broker: nat, lookup: Lookup)
    requires Adoptable(w, key, broker, lookup)
    ensures var adopted := w.rows[key].(broker := Some(broker), reason := "");
      var writes := |ApplyScript(w, key, adopted, Spec(w, key), lookup.report)|;
      var script := HeardScript(w, key, adopted, Spec(w, key), lookup.report, writes);
      ResolveFoundScript(w, key, broker, lookup) == script + SettleScript(Play(w, script), w.rows[key].ladder)
  {
  }

  lemma DraftUnfolds(
    w: World, l: nat, terms: Terms, powers: Ladder.Powers, answers: seq<PlaceAnswer>)
    ensures SubmitDraftScript(w, l, terms, powers, answers) ==
      if l >= |w.ladders| then []
      else if w.ladders[l].state == StateFailed then SubmitScript(w, l, answers)
      else if w.ladders[l].state != StateDraft || (terms.Err? && w.ladders[l].spec.side == Buy) then []
      else
        var built := Ladder.Build(DraftSpec(w.ladders[l], terms), powers);
        if built.Err? || !InsertOk(w, l, built.value) then []
        else [Insert(l, built.value, terms)] + SubmitScript(Do(w, Insert(l, built.value, terms)), l, answers)
  {
    hide Ladder.Build, SubmitScript, InsertOk, Do, DraftSpec;
  }

  lemma InsertKeepsKnown(w: World, l: nat, plan: Ladder.Plan, terms: Terms)
    requires LaddersKnown(w) && l < |w.ladders|
    ensures LaddersKnown(Do(w, Insert(l, plan, terms)))
  {
  }

  // ---------- Sweeping ----------

  /** A row as the query returned it, with the terms of its ladder. */
  datatype LiveOrder = LiveOrder(order: Order, spec: Ladder.Spec)

  /** The copies are what the tables hold, each order once. */
  ghost predicate AreLive(w: World, stops: seq<Stop>, orders: seq<LiveOrder>) {
    && |orders| == |stops| && ReconcileSafety.Once(stops)
    && forall i | 0 <= i < |stops| ::
         && stops[i].key < |w.rows| && w.rows[stops[i].key].ladder < |w.ladders|
         && orders[i] == LiveOrder(w.rows[stops[i].key], Spec(w, stops[i].key))
  }

  lemma FirstIsLive(w: World, stops: seq<Stop>, orders: seq<LiveOrder>)
    requires AreLive(w, stops, orders) && stops != []
    ensures orders != []
    ensures RefreshAt(w, stops[0]) ==
      RefreshScript(w, stops[0].key, orders[0].order, orders[0].spec, stops[0].listing, stops[0].reply)
  {
  }

  lemma SweepUnfolds(w: World, stops: seq<Stop>)
    requires stops != []
    ensures var first := RefreshAt(w, stops[0]); SweepScript(w, stops) == first + SweepScript(Play(w, first), stops[1..])
  {
  }

  lemma NothingLeftToSweep(w: World)
    ensures SweepScript(w, []) == []
  {
  }

  /** Refreshing one order leaves the copies of the others fresh. */
  lemma OthersAreLive(w: World, stops: seq<Stop>, orders: seq<LiveOrder>)
    requires AreLive(w, stops, orders) && stops != []
    ensures AreLive(Play(w, RefreshAt(w, stops[0])), stops[1..], orders[1..])
  {
    var first := RefreshAt(w, stops[0]);
    ReconcileSafety.RefreshAtOnlyRow(w, stops[0]);
    hide RefreshAt, Play;
    ReconcileSafety.OnlyRowChanges(w, first, stops[0].key);
  }

  lemma StopsAreThere(w: World, c: Cycle, venues: seq<Venue>)
    requires LaddersKnown(w) && CycleOk(w, c) && venues == c.venues
    ensures ReconcileSafety.Once(CycleStops(w, c, venues))
    ensures forall i | 0 <= i < |CycleStops(w, c, venues)| :: CycleStops(w, c, venues)[i].key < |w.rows|
  {
    ReconcileSafety.CycleVisitsOnce(w, c, venues);
    hide CycleStops;
  }

  lemma ReconcileUnfolds(w: World, c: Cycle)
    requires LaddersKnown(w) && CycleOk(w, c)
    ensures var sweep := SweepScript(w, CycleStops(w, c, c.venues));
      var swept := Play(w, sweep);
      ReconcileScript(w, c) == sweep + SettleAll(swept, LiveLadders(swept.ladders), c.unsaved)
  {
  }

  lemma SettleUnfolds(w: World, live: seq<nat>, unsaved: set<nat>)
    requires live != []
    ensures var first := if live[0] in unsaved then [] else SettleScript(w, live[0]);
      SettleAll(w, live, unsaved) == first + SettleAll(Play(w, first), live[1..], unsaved)
  {
  }

  lemma NothingLeftToSettle(w: World, unsaved: set<nat>)
    ensures SettleAll(w, [], unsaved) == []
  {
  }

  // ---------- Operations ----------

  lemma KnownWhenFine(w: World)
    requires Inv(w)
    ensures LaddersKnown(w)
  {
    Safety.InvHasCalls(w);
    hide Inv, LaddersOk;
  }

  lemma NoCycleNoSteps(w: World, c: Cycle)
    requires !CycleOk(w, c)
    ensures ReconcileScript(w, c) == []
  {
  }

  lemma ScriptOfOp(w: World, op: Op)
    ensures match op
      case NewDraft(spec) => Script(w, op) == [Create(spec)]
      case EditDraft(l, spec) => Script(w, op) == EditScript(w, l, spec)
      case Keypad(l, field, value) => Script(w, op) == KeypadScript(w, l, field, value)
      case SubmitDraft(l, terms, powers, placed) => Script(w, op) == SubmitDraftScript(w, l, terms, powers, placed)
      case CancelLadder(l, canceled) => Script(w, op) == CancelLadderScript(w, l, canceled)
      case CancelOrder(key, answer) => Script(w, op) == CancelOrderScript(w, key, answer)
      case Reconcile(c) => Script(w, op) == ReconcileScript(w, c)
      case ResolveFound(key, broker, lookup) => Script(w, op) == ResolveFoundScript(w, key, broker, lookup)
      case ResolveMissing(key) => Script(w, op) == ResolveMissingScript(w, key)
  {
    hide SubmitDraftScript, CancelLadderScript, CancelOrderScript, ReconcileScript, ResolveFoundScript, ResolveMissingScript;
    hide EditScript, KeypadScript;
  }

  lemma TurnFollowed(w: World, n: nat, op: Op, w': World, n': nat)
    requires Inv(w) && Followed(w, n, Script(w, op), w', n')
    ensures Inv(w') && w' == Next(w, Turn(op, n))
  {
    hide Inv, Script, Evolves;
    TurnIsSafe(w, Turn(op, n));
  }

  class Executor {
    var world: World
    /** How many more steps go through before the process dies. */
    var life: nat

    /** One committed write, or one request to an exchange. */
    method Act(a: Action)
      modifies this
      ensures Followed(old(world), old(life), [a], world, life)
      ensures old(life) > 0 ==> world == Do(old(world), a) && life == old(life) - 1
      ensures old(life) == 0 ==> world == old(world) && life == 0
    {
      PlayOne(world, a);
      if life > 0 {
        world := Do(world, a);
        life := life - 1;
      }
    }

    /** A write of a row, unless the unique index refuses its broker id. */
    method UpdateOrder(key: nat, order: Order, writes: nat)
      modifies this
      ensures Followed(old(world), old(life), Take(WriteScript(old(world), key, order), writes), world, life)
    {
      NothingFollowed(world, life);
      if writes == 0 || !UpdateOk(world, key, order) {
        return;
      }
      Act(Update(key, order));
    }

    // ---------- Settling ----------

    method Settle(l: nat)
      modifies this
      ensures Followed(old(world), old(life), SettleScript(old(world), l), world, life)
    {
      NothingFollowed(world, life);
      if l >= |world.ladders| {
        return;
      }
      var all := RowsOf(world.rows, l);
      RowsOfShowsActive(world.rows, l);
      for i := 0 to |all|
        invariant forall j | 0 <= j < i :: !all[j].status.Active()
      {
        if all[i].status.Active() {
          return;
        }
      }
      if !world.ladders[l].state.Live() {
        return;
      }
      var outcome := SummarizeRows(all);
      var state := StateCanceled;
      if outcome.filled > 0 {
        state := StateDone;
      }
      Act(SaveState(l, state, world.ladders[l].reason));
    }

    // ---------- Bringing one order in line ----------

    /** Records an order whose fate is unknown, without ever sending it again. */
    method Park(key: nat, order: Order, reason: string, writes: nat)
      modifies this
      ensures Followed(old(world), old(life), Take(ParkScript(old(world), key, order, reason), writes), world, life)
    {
      NothingFollowed(world, life);
      if order.status == Unknown && order.reason == reason {
        return;
      }
      UpdateOrder(key, order.(status := Unknown, reason := reason), writes);
    }

    /** Records what the operator has been told, once the notice is queued. */
    method ReportFill(key: nat, order: Order, writes: nat)
      modifies this
      ensures Followed(old(world), old(life), Take(ReportScript(key, order), writes), world, life)
    {
      NothingFollowed(world, life);
      if order.filled - order.notified <= 0 || writes == 0 {
        return;
      }
      Act(Update(key, order.(notified := order.filled)));
    }

    /** Writes an exchange's account of an order into our record. */
    method Apply(key: nat, order: Order, spec: Ladder.Spec, e: Report, writes: nat)
      modifies this
      ensures Followed(old(world), old(life), Take(ApplyScript(old(world), key, order, spec, e), writes), world, life)
    {
      NothingFollowed(world, life);
      if e.symbol != spec.symbol || e.side != spec.side {
        Park(key, order, WRONG_TERMS, writes);
        return;
      }
      if e.filled > order.quantity {
        Park(key, order, OVERFILLED, writes);
        return;
      }
      if e.filled < order.filled {
        return;
      }
      var previous := order.status;
      var updated := order.(filled := e.filled, amount := e.amount, costs := e.costs, costsFinal := e.costsFinal);
      var next := e.status;
      if e.filled == order.quantity {
        next := Filled;
      }
      if previous == PendingCancel && (next == Pending || next == PartialFilled) {
        next := PendingCancel;
      } else if previous.Terminal() && !next.Terminal() {
        next := previous;
      }
      if next == Canceled && (previous == Pending || previous == PartialFilled) {
        updated := updated.(reason := WITHDRAWN);
      }
      updated := updated.(status := next);
      assert updated == Applied(order, e);
      ApplyingWrites(world, key, order, spec, e);
      hide ApplyScript, Followed, Applied, ReportedScript;
      Write(key, updated, writes);
    }

    /** Commits an updated row and then reports what is new about its fill. */
    method Write(key: nat, order: Order, writes: nat)
      modifies this
      ensures Followed(old(world), old(life), Take(ReportedScript(old(world), key, order), writes), world, life)
    {
      ghost var w, n := world, life;
      NothingFollowed(w, n);
      if writes == 0 || !UpdateOk(world, key, order) {
        return;
      }
      TakeFirst(Update(key, order), ReportScript(key, order), writes);
      Act(Update(key, order));
      if life == 0 {
        Died(w, n, [Update(key, order)], world, Take(ReportScript(key, order), writes - 1));
        return;
      }
      ghost var w1, n1 := world, life;
      ReportFill(key, order, writes - 1);
      Then(w, n, [Update(key, order)], w1, n1, Take(ReportScript(key, order), writes - 1), world, life);
    }

    /** Hears a report, and acts on it. */
    method Hear(key: nat, order: Order, spec: Ladder.Spec, e: Report, writes: nat)
      requires order.broker.Some?
      modifies this
      ensures Followed(old(world), old(life), HeardScript(old(world), key, order, spec, e, writes), world, life)
    {
      ghost var w, n := world, life;
      ghost var learn, rest := Learn(Finding(key, order.broker.value, e)), Take(ApplyScript(w, key, order, spec, e), writes);
      Act(Learn(Finding(key, order.broker.value, e)));
      if life == 0 {
        Died(w, n, [learn], world, rest);
        return;
      }
      assert ApplyScript(world, key, order, spec, e) == ApplyScript(w, key, order, spec, e);
      ghost var w1, n1 := world, life;
      hide ApplyScript, Followed;
      Apply(key, order, spec, e, writes);
      Then(w, n, [learn], w1, n1, rest, world, life);
    }

    /** Chases a submission whose answer was never read. It only ever looks the order up. */
    method Recover(key: nat, order: Order, spec: Ladder.Spec, reply: Reply)
      modifies this
      ensures Followed(old(world), old(life), RecoverScript(old(world), key, order, spec, reply), world, life)
    {
      match reply.lookup
      case Unsupported =>
        Park(key, order, LOOKUP_UNSUPPORTED, reply.writes);
      case Failed(reason) =>
        Park(key, order, Trim(reason), reply.writes);
      case Found(e) =>
        if e.client != Some(key) {
          Park(key, order, WRONG_CLIENT, reply.writes);
          return;
        }
        Hear(key, order.(broker := Some(e.broker)), spec, e, reply.writes);
    }

    /** Updates one order from the exchange, fetching detail only when the listing says something changed. */
    method Refresh(key: nat, order: Order, spec: Ladder.Spec, listing: Listing, reply: Reply)
      modifies this
      ensures Followed(old(world), old(life), RefreshScript(old(world), key, order, spec, listing, reply), world, life)
    {
      NothingFollowed(world, life);
      if order.status == Prepared {
        return;
      }
      if order.broker.None? {
        Recover(key, order, spec, reply);
        return;
      }
      var resting := order.broker.value in listing;
      if resting && listing[order.broker.value] == order.filled && order.status != PendingCancel {
        return;
      }
      if reply.lookup.Found? {
        Hear(key, order, spec, reply.lookup.report, reply.writes);
      }
    }

    // ---------- Submitting ----------

    /** Refuses to add orders to a market that already holds one we cannot account for. */
    method VenueSettled(venue: Venue) returns (settled: bool)
      requires LaddersKnown(world)
      ensures settled == VenueIsSettled(world, venue)
    {
      for key := 0 to |world.rows|
        invariant forall k | 0 <= k < key :: Spec(world, k).venue == venue ==> !world.rows[k].status.Unresolved()
      {
        if Spec(world, key).venue == venue && world.rows[key].status.Unresolved() {
          return false;
        }
      }
      settled := true;
    }

    /** Commits the attempt before making it, so that an interrupted submission is always visible afterwards. */
    method Send(key: nat, order: Order)
      modifies this
      ensures Followed(old(world), old(life), [Update(key, Sent(order)), Place(key)], world, life)
      ensures 0 < life ==> world == Placed(old(world), key, order)
    {
      ghost var w, n := world, life;
      ghost var commit, place := Update(key, Sent(order)), Place(key);
      assert [commit, place] == [commit] + [place];
      hide Do, Followed;
      Act(Update(key, order.(status := Sending)));
      if life == 0 {
        Died(w, n, [commit], world, [place]);
        return;
      }
      ghost var w1, n1 := world, life;
      Act(Place(key));
      Then(w, n, [commit], w1, n1, [place], world, life);
    }

    /**
      Sends a ladder's unsent rungs, nearest the base first, and stops at the first failure. The orders are worked on
      as they were read at the start.
    */
    method Submit(l: nat, answers: seq<PlaceAnswer>) returns (result: Submission, failed: bool)
      requires LaddersKnown(world)
      modifies this
      ensures Followed(old(world), old(life), SubmitScript(old(world), l, answers), world, life)
      ensures !failed ==> MaySubmit(old(world), l) && result == Reported(Submission(0, |PreparedOf(old(world).rows, l)|, ""), answers)
    {
      result, failed := Submission(0, 0, ""), true;
      NothingFollowed(world, life);
      if l >= |world.ladders| || world.ladders[l].state.Closed() || world.ladders[l].spec.venue !in world.connected {
        return;
      }
      var settled := VenueSettled(world.ladders[l].spec.venue);
      var pending := PreparedOf(world.rows, l);
      if !settled || pending == [] {
        return;
      }
      ghost var w, n := world, life;
      var orders := seq(|pending|, i requires 0 <= i < |pending| && pending[i] < |world.rows| reads this => world.rows[pending[i]]);
      var start := SaveState(l, StatePlacing, "");
      StartKeepsCopies(w, l, pending, orders);
      hide Followed, SendScript, AreCopies, PreparedOf, VenueIsSettled, Do;
      Act(start);
      ghost var rest := SendScript(Do(w, start), l, pending, answers);
      if life == 0 {
        Died(w, n, [start], world, rest);
        return;
      }
      ghost var w1, n1 := world, life;
      result, failed := SendAll(l, pending, orders, answers);
      Then(w, n, [start], w1, n1, rest, world, life);
    }

    /**
      One rung: commit SENDING, place, commit the answer. Gone means that there is nobody left to go on: the process
      died, no answer came, or the table refused the answer.
    */
    method SendOne(l: nat, pending: seq<nat>, order: Order, answers: seq<PlaceAnswer>) returns (end: Ending)
      requires pending != [] && pending[0] < |world.rows| && order == world.rows[pending[0]]
      modifies this
      ensures end.Gone? ==> Followed(old(world), old(life), SendScript(old(world), l, pending, answers), world, life)
      ensures !end.Gone? ==> 0 < life && answers != [] && Followed(old(world), old(life), RungScript(pending[0], order, answers[0]), world, life)
      ensures end.Stopped? ==> answers[0].Refused? && end.reason == Trim(answers[0].reason)
      ensures end.Confirmed? ==> answers[0].Accepted? && UpdateOk(Placed(old(world), pending[0], order), pending[0], Answered(order, answers[0]))
      ensures !end.Gone? ==> world == Do(Placed(old(world), pending[0], order), Update(pending[0], Answered(order, answers[0])))
    {
      ghost var w, n := world, life;
      var key := pending[0];
      ghost var attempt := [Update(key, Sent(order)), Place(key)];
      ghost var placed := Placed(w, key, order);
      SendUnfolds(w, l, pending, answers);
      hide Followed, Do;
      end := Gone;
      Send(key, order);
      if life == 0 {
        Died(w, n, attempt, world, AnswerScript(placed, l, pending, answers));
        return;
      }
      if answers == [] {
        assert attempt + AnswerScript(placed, l, pending, answers) == attempt;
        return;
      }
      var answered := order.(status := Sending);
      match answers[0] {
        case Refused(ambiguous, reason) =>
          answered := answered.(status := if ambiguous then Unknown else Rejected, reason := Trim(reason));
        case Accepted(broker) =>
          answered := answered.(broker := Some(broker), status := Pending, reason := "");
          if !UpdateOk(world, key, answered) {
            assert attempt + AnswerScript(placed, l, pending, answers) == attempt;
            return;
          }
      }
      assert answered == Answered(order, answers[0]);
      RungUnfolds(w, l, pending, answers);
      ghost var w1, n1 := world, life;
      Act(Update(key, answered));
      Then(w, n, attempt, w1, n1, [Update(key, answered)], world, life);
      if life == 0 {
        Died(w, n, RungScript(key, order, answers[0]), world, AfterRung(w, l, pending, answers));
        return;
      }
      end := if answers[0].Refused? then Stopped(answered.reason) else Confirmed;
    }

    /** Rung after rung until one of them stops the run. */
    method SendAll(l: nat, pending: seq<nat>, orders: seq<Order>, answers: seq<PlaceAnswer>) returns (result: Submission, failed: bool)
      requires 0 < life && AreCopies(world, pending, orders)
      modifies this
      ensures Followed(old(world), old(life), SendScript(old(world), l, pending, answers), world, life)
      ensures !failed ==> result == Reported(Submission(0, |pending|, ""), answers)
    {
      ghost var w, n, done := world, life, [];
      result, failed := Submission(0, |pending|, ""), false;
      ghost var all := SendScript(w, l, pending, answers);
      MidwayStarts(w, n, all);
      var left, copies, more := pending, orders, answers;
      hide Followed, SendScript, Do, Placed, AreCopies, RungScript, AfterRung, Midway, Answered;
      while left != []
        invariant !failed && result.remaining == |left| && result.stopped == ""
        invariant Reported(result, more) == Reported(Submission(0, |pending|, ""), answers)
        invariant 0 < life && AreCopies(world, left, copies)
        invariant Midway(w, n, all, done, world, life, SendScript(world, l, left, more))
        decreases |left|
      {
        ghost var w1, n1 := world, life;
        FirstIsCopy(w1, left, copies);
        var end := SendOne(l, left, copies[0], more);
        if end.Gone? {
          MidwayEnds(w, n, all, done, w1, n1, SendScript(w1, l, left, more), world, life);
          failed := true;
          return;
        }
        RungDone(w, n, all, done, w1, n1, l, left, more, world, life);
        done := done + RungScript(left[0], copies[0], more[0]);
        if end.Stopped? {
          result := result.(stopped := end.reason);
          break;
        }
        OthersAreCopies(w1, left, copies, Answered(copies[0], more[0]));
        result := result.(sent := result.sent + 1, remaining := result.remaining - 1);
        left, copies, more := left[1..], copies[1..], more[1..];
      }
      LastStep(world, l, more);
      ghost var w1, n1 := world, life;
      Act(SaveState(l, if result.stopped != "" then StateFailed else StateOpen, result.stopped));
      MidwayEnds(w, n, all, done, w1, n1, [AfterRun(l, result.stopped)], world, life);
    }

    // ---------- Canceling ----------

    method CancelOne(key: nat, order: Order, answer: CancelAnswer, soFar: Cancellation) returns (result: Cancellation)
      modifies this
      ensures Followed(old(world), old(life), CancelRung(key, order, answer), world, life)
      ensures result == Counted(soFar, order, answer)
    {
      result := soFar;
      NothingFollowed(world, life);
      var updated := order;
      if !order.status.Active() || order.status == PendingCancel {
        return;
      } else if order.status == Prepared {
        updated := updated.(status := Canceled, reason := DROPPED);
        result := result.(dropped := result.dropped + 1);
      } else if order.status.Unresolved() || order.broker.None? {
        result := result.(blocked := result.blocked + 1);
        return;
      } else if answer.CancelRefused? {
        updated := updated.(reason := Trim(answer.reason));
      } else {
        updated := updated.(status := PendingCancel, reason := "");
        result := result.(requested := result.requested + 1);
      }
      Act(Update(key, updated));
    }

    /** Rung after rung; a refused cancel leaves its reason behind and the next rung is tried. */
    method CancelAll(keys: seq<nat>, orders: seq<Order>, answers: map<nat, CancelAnswer>) returns (result: Cancellation)
      requires 0 < life && AreCopies(world, keys, orders)
      modifies this
      ensures Followed(old(world), old(life), CancelRungs(old(world), keys, answers), world, life)
      ensures 0 < life ==> result == Tally(Cancellation(0, 0, 0), keys, orders, answers)
    {
      ghost var w, n, done := world, life, [];
      ghost var all := CancelRungs(w, keys, answers);
      result := Cancellation(0, 0, 0);
      MidwayStarts(w, n, all);
      var left, copies := keys, orders;
      hide Followed, CancelRungs, CancelRung, Play, AreCopies, Counted, Midway;
      while left != []
        invariant 0 < life && AreCopies(world, left, copies)
        invariant |left| == |copies| && Tally(result, left, copies, answers) == Tally(Cancellation(0, 0, 0), keys, orders, answers)
        invariant Midway(w, n, all, done, world, life, CancelRungs(world, left, answers))
        decreases |left|
      {
        ghost var w1, n1 := world, life;
        FirstIsCopy(w1, left, copies);
        CancelRungsUnfold(w1, left, answers);
        OtherCopiesStay(w1, left, copies, CancelReply(answers, left[0]));
        ghost var first := CancelRung(left[0], copies[0], CancelReply(answers, left[0]));
        result := CancelOne(left[0], copies[0], CancelReply(answers, left[0]), result);
        MidwayStep(w, n, all, done, w1, n1, first, CancelRungs(Play(w1, first), left[1..], answers), world, life);
        if life == 0 {
          return;
        }
        done := done + first;
        left, copies := left[1..], copies[1..];
      }
      NoRungsLeft(world, answers);
      NothingFollowed(world, life);
      assert left == [];
      MidwayEnds(w, n, all, done, world, life, [], world, life);
    }

    /** Withdraws every rung that can be withdrawn, then closes the ladder if nothing of it can change any more. */
    method CancelLadder(l: nat, answers: map<nat, CancelAnswer>) returns (result: Cancellation)
      modifies this
      ensures Followed(old(world), old(life), CancelLadderScript(old(world), l, answers), world, life)
      ensures 0 < life && l < |old(world).ladders| && old(world).ladders[l].spec.venue in old(world).connected ==>
        result == Tally(Cancellation(0, 0, 0), OrdersOf(old(world).rows, l), RowsOf(old(world).rows, l), answers)
    {
      result := Cancellation(0, 0, 0);
      NothingFollowed(world, life);
      if l >= |world.ladders| || world.ladders[l].spec.venue !in world.connected || life == 0 {
        DeadFollowsAnything(world, CancelLadderScript(world, l, answers));
        return;
      }
      ghost var w, n := world, life;
      var keys := OrdersOf(world.rows, l);
      var orders := RowsOf(world.rows, l);
      assert AreCopies(world, keys, orders);
      hide Followed, CancelRungs, SettleScript, AreCopies;
      result := CancelAll(keys, orders, answers);
      ghost var cancels := CancelRungs(w, keys, answers);
      if life == 0 {
        Died(w, n, cancels, world, SettleScript(Play(w, cancels), l));
        return;
      }
      ghost var w1, n1 := world, life;
      Settle(l);
      Then(w, n, cancels, w1, n1, SettleScript(w1, l), world, life);
    }

    /** Withdraws a single rung. */
    method CancelOrder(key: nat, answer: CancelAnswer)
      requires LaddersKnown(world)
      modifies this
      ensures Followed(old(world), old(life), CancelOrderScript(old(world), key, answer), world, life)
    {
      NothingFollowed(world, life);
      if key >= |world.rows| {
        return;
      }
      var order := world.rows[key];
      if !order.status.Active() || order.status == PendingCancel {
        return;
      }
      if order.status == Prepared {
        Act(Update(key, order.(status := Canceled, reason := DROPPED)));
        return;
      }
      if order.status.Unresolved() || order.broker.None? || Spec(world, key).venue !in world.connected || answer.CancelRefused? {
        return;
      }
      Act(Update(key, order.(status := PendingCancel, reason := "")));
    }

    // ---------- Resolving by hand ----------

    /** No other order carries this exchange id. */
    method BrokerIsFree(key: nat, broker: nat) returns (free: bool)
      ensures free <==> forall other | 0 <= other < |world.rows| && other != key :: world.rows[other].broker != Some(broker)
    {
      for k := 0 to |world.rows|
        invariant forall other | 0 <= other < k && other != key :: world.rows[other].broker != Some(broker)
      {
        if k != key && world.rows[k].broker == Some(broker) {
          return false;
        }
      }
      free := true;
    }

    /** Adopts an exchange order the operator matched by hand, after checking every field of it. */
    method ResolveFound(key: nat, broker: nat, lookup: Lookup)
      requires LaddersKnown(world)
      modifies this
      ensures Followed(old(world), old(life), ResolveFoundScript(old(world), key, broker, lookup), world, life)
    {
      NothingFollowed(world, life);
      if key >= |world.rows| || !world.rows[key].status.Unresolved() {
        return;
      }
      var free := BrokerIsFree(key, broker);
      var spec := Spec(world, key);
      if !free || spec.venue !in world.connected || !lookup.Found? {
        return;
      }
      var e := lookup.report;
      var order := world.rows[key];
      if e.symbol != spec.symbol || e.side != spec.side || e.quantity != order.quantity || e.price != order.price {
        return;
      }
      ghost var w, n := world, life;
      var adopted := order.(broker := Some(broker), reason := "");
      ghost var script := HeardScript(w, key, adopted, spec, e, |ApplyScript(w, key, adopted, spec, e)|);
      AdoptionScript(w, key, broker, lookup);
      hide Followed, ApplyScript, SettleScript, ResolveFoundScript, HeardScript;
      AdoptionWrites(w, key, adopted, spec, e);
      Hear(key, adopted, spec, e, 2);
      if life == 0 {
        Died(w, n, script, world, SettleScript(Play(w, script), order.ladder));
        return;
      }
      ghost var w1, n1 := world, life;
      Settle(order.ladder);
      Then(w, n, script, w1, n1, SettleScript(w1, order.ladder), world, life);
    }

    /** Records the operator's finding that no such order exists. */
    method ResolveMissing(key: nat)
      modifies this
      ensures Followed(old(world), old(life), ResolveMissingScript(old(world), key), world, life)
    {
      NothingFollowed(world, life);
      if key >= |world.rows| || !world.rows[key].status.Unresolved() || world.rows[key].broker.Some? {
        return;
      }
      ghost var w, n := world, life;
      ghost var script := [WriteOff(key, WRITTEN_OFF)];
      var l := world.rows[key].ladder;
      hide Followed, SettleScript;
      Act(WriteOff(key, WRITTEN_OFF));
      if life == 0 {
        Died(w, n, script, world, SettleScript(Play(w, script), l));
        return;
      }
      ghost var w1, n1 := world, life;
      Settle(l);
      Then(w, n, script, w1, n1, SettleScript(w1, l), world, life);
    }

    // ---------- Drafts ----------

    /** All rows of a batch or none: the unique index on the rung refuses a batch that collides. */
    method InsertOrders(l: nat, plan: Ladder.Plan, rows: seq<Order>, terms: Terms) returns (inserted: bool)
      requires rows == NewOrders(l, plan.rungs)
      modifies this
      ensures Followed(old(world), old(life), if InsertOk(old(world), l, plan) then [Insert(l, plan, terms)] else [], world, life)
      ensures inserted == InsertOk(old(world), l, plan)
      ensures inserted && 0 < life ==> world == Do(old(world), Insert(l, plan, terms))
    {
      NothingFollowed(world, life);
      PlayOne(world, Insert(l, plan, terms));
      inserted := InsertOk(world, l, plan);
      if inserted && life > 0 {
        world := world.(rows := world.rows + rows, plans := world.plans[l := plan], quotes := world.quotes[l := terms]);
        life := life - 1;
      }
    }

    method NewRows(l: nat, plan: Ladder.Plan) returns (rows: seq<Order>)
      ensures rows == NewOrders(l, plan.rungs)
    {
      rows := [];
      for i := 0 to |plan.rungs|
        invariant |rows| == i && forall j | 0 <= j < i :: rows[j] == NewOrder(l, plan.rungs[j])
      {
        rows := rows + [NewOrder(l, plan.rungs[i])];
      }
    }

    /** Turns a previewed draft into orders, or resumes a ladder that was stopped. */
    method SubmitDraft(l: nat, terms: Terms, powers: Ladder.Powers, answers: seq<PlaceAnswer>)
      returns (result: Submission, failed: bool)
      requires LaddersKnown(world)
      modifies this
      ensures Followed(old(world), old(life), SubmitDraftScript(old(world), l, terms, powers, answers), world, life)
    {
      result, failed := Submission(0, 0, ""), true;
      NothingFollowed(world, life);
      DraftUnfolds(world, l, terms, powers, answers);
      hide Followed, SubmitDraftScript, Ladder.Build, SubmitScript, InsertOk, Do, NewOrders, DraftSpec, LaddersKnown;
      if l >= |world.ladders| {
        return;
      }
      if world.ladders[l].state == StateFailed {
        result, failed := Submit(l, answers);
        return;
      }
      if world.ladders[l].state != StateDraft || (terms.Err? && world.ladders[l].spec.side == Buy) {
        return;
      }
      ghost var w, n := world, life;
      var built := Ladder.BuildPlan(DraftSpec(world.ladders[l], terms), powers);
      if built.Err? {
        return;
      }
      var plan := built.value;
      var rows := NewRows(l, plan);
      var inserted := InsertOrders(l, plan, rows, terms);
      if !inserted {
        return;
      }
      ghost var insert, rest := [Insert(l, plan, terms)], SubmitScript(Do(w, Insert(l, plan, terms)), l, answers);
      if life == 0 {
        Died(w, n, insert, world, rest);
        return;
      }
      ghost var w1, n1 := world, life;
      InsertKeepsKnown(w, l, plan, terms);
      result, failed := Submit(l, answers);
      Then(w, n, insert, w1, n1, rest, world, life);
    }

    method StartDraft(spec: Ladder.Spec)
      modifies this
      ensures Followed(old(world), old(life), [Create(spec)], world, life)
    {
      Act(Create(spec));
    }

    /** The questions of the draft flow are answered only for a draft. */
    method EditDraft(l: nat, spec: Ladder.Spec)
      modifies this
      ensures Followed(old(world), old(life), EditScript(old(world), l, spec), world, life)
    {
      NothingFollowed(world, life);
      if l >= |world.ladders| || world.ladders[l].state != StateDraft
        || spec.venue != world.ladders[l].spec.venue || spec.side != world.ladders[l].spec.side {
        return;
      }
      Act(Edit(l, spec));
    }

    /** A number typed on the keypad goes into the stored terms, of a sent ladder as of a draft. */
    method Keypad(l: nat, field: Field, value: int)
      modifies this
      ensures Followed(old(world), old(life), KeypadScript(old(world), l, field, value), world, life)
    {
      NothingFollowed(world, life);
      if l >= |world.ladders| {
        return;
      }
      var typed := Typed(world.ladders[l].spec, field, value);
      if typed.None? {
        return;
      }
      if world.ladders[l].state == StateDraft {
        Act(Edit(l, typed.value));
      } else {
        Act(Retype(l, typed.value));
      }
    }

    // ---------- Reconciling ----------

    /** The orders of one venue, in the order the query returned them. */
    method ByVenue(venue: Venue, listing: Listing, keys: seq<nat>, replies: map<nat, Reply>) returns (stops: seq<Stop>)
      requires LaddersKnown(world) && forall i | 0 <= i < |keys| :: keys[i] < |world.rows|
      ensures stops == VenueStops(world, venue, listing, keys, replies)
    {
      stops := [];
      for i := 0 to |keys|
        invariant stops == VenueStops(world, venue, listing, keys[..i], replies)
      {
        assert keys[..i + 1][..i] == keys[..i];
        if Spec(world, keys[i]).venue == venue {
          stops := stops + [Stop(keys[i], listing, LookupReply(replies, keys[i]))];
        }
      }
      assert keys[..|keys|] == keys;
    }

    /** Every order to visit, venue by venue; a venue that is not connected or cannot be listed waits for the next cycle. */
    method Gather(c: Cycle) returns (stops: seq<Stop>)
      requires LaddersKnown(world) && forall i | 0 <= i < |c.keys| :: c.keys[i] < |world.rows|
      ensures stops == CycleStops(world, c, c.venues)
    {
      stops := [];
      for i := 0 to |c.venues|
        invariant stops == CycleStops(world, c, c.venues[..i])
      {
        assert c.venues[..i + 1][..i] == c.venues[..i];
        var venue := c.venues[i];
        if venue !in world.connected {
          continue;
        }
        if venue !in c.listings {
          continue;
        }
        var list := ByVenue(venue, c.listings[venue], c.keys, c.replies);
        stops := stops + list;
      }
      assert c.venues[..|c.venues|] == c.venues;
    }

    /** Refreshes one order after another, each from the copy the query returned. */
    method RefreshAll(stops: seq<Stop>, orders: seq<LiveOrder>)
      requires 0 < life && AreLive(world, stops, orders)
      modifies this
      ensures Followed(old(world), old(life), SweepScript(old(world), stops), world, life)
    {
      ghost var w, n, done := world, life, [];
      ghost var all := SweepScript(w, stops);
      MidwayStarts(w, n, all);
      var left, copies := stops, orders;
      hide Followed, SweepScript, RefreshAt, RefreshScript, Play, AreLive, Midway;
      while left != []
        invariant 0 < life && AreLive(world, left, copies)
        invariant Midway(w, n, all, done, world, life, SweepScript(world, left))
        decreases |left|
      {
        ghost var w1, n1 := world, life;
        var stop := left[0];
        ghost var first := RefreshAt(w1, stop);
        FirstIsLive(w1, left, copies);
        SweepUnfolds(w1, left);
        OthersAreLive(w1, left, copies);
        Refresh(stop.key, copies[0].order, copies[0].spec, stop.listing, stop.reply);
        MidwayStep(w, n, all, done, w1, n1, first, SweepScript(Play(w1, first), left[1..]), world, life);
        if life == 0 {
          return;
        }
        done := done + first;
        left, copies := left[1..], copies[1..];
      }
      NothingFollowed(world, life);
      NothingLeftToSweep(world);
      assert left == [];
      MidwayEnds(w, n, all, done, world, life, [], world, life);
    }

    /** Every ladder that still needs attention is settled, whether or not this cycle touched it. */
    method SettleLive(live: seq<nat>, unsaved: set<nat>)
      requires 0 < life
      modifies this
      ensures Followed(old(world), old(life), SettleAll(old(world), live, unsaved), world, life)
    {
      ghost var w, n, done := world, life, [];
      ghost var all := SettleAll(w, live, unsaved);
      MidwayStarts(w, n, all);
      var left := live;
      hide Followed, SettleScript, SettleAll, Play, Midway;
      while left != []
        invariant 0 < life
        invariant Midway(w, n, all, done, world, life, SettleAll(world, left, unsaved))
        decreases |left|
      {
        ghost var w1, n1 := world, life;
        ghost var first := if left[0] in unsaved then [] else SettleScript(w1, left[0]);
        SettleUnfolds(w1, left, unsaved);
        NothingFollowed(w1, n1);
        if left[0] !in unsaved {
          Settle(left[0]);
        }
        MidwayStep(w, n, all, done, w1, n1, first, SettleAll(Play(w1, first), left[1..], unsaved), world, life);
        if life == 0 {
          return;
        }
        done := done + first;
        left := left[1..];
      }
      NothingFollowed(world, life);
      NothingLeftToSettle(world, unsaved);
      assert left == [];
      MidwayEnds(w, n, all, done, world, life, [], world, life);
    }

    /** Brings every working order in line with what its exchange reports, then closes what can be closed. */
    method Reconcile(c: Cycle)
      requires LaddersKnown(world) && CycleOk(world, c)
      modifies this
      ensures Followed(old(world), old(life), ReconcileScript(old(world), c), world, life)
    {
      ghost var w, n := world, life;
      StopsAreThere(world, c, c.venues);
      ReconcileUnfolds(w, c);
      ghost var sweep := SweepScript(w, CycleStops(w, c, c.venues));
      ghost var swept := Play(w, sweep);
      ghost var settle := SettleAll(swept, LiveLadders(swept.ladders), c.unsaved);
      assert forall i | 0 <= i < |c.keys| :: c.keys[i] < |world.rows|;
      hide Followed, SweepScript, SettleAll, ReconcileScript, CycleOk, CycleStops, LiveLadders, Play, AreLive, ReconcileSafety.Once;
      var stops := Gather(c);
      var orders := ReadLive(stops);
      if life == 0 {
        DeadFollowsAnything(world, sweep + settle);
        return;
      }
      RefreshAll(stops, orders);
      if life == 0 {
        Died(w, n, sweep, world, settle);
        return;
      }
      ghost var w1, n1 := world, life;
      NothingFollowed(world, life);
      Then(w, n, sweep, w1, n1, [], world, life);
      SettleLive(LiveLadders(world.ladders), c.unsaved);
      Then(w, n, sweep, w1, n1, settle, world, life);
    }

    /** The rows as the query returned them, each with the terms of its ladder. */
    method ReadLive(stops: seq<Stop>) returns (orders: seq<LiveOrder>)
      requires LaddersKnown(world) && ReconcileSafety.Once(stops) && forall i | 0 <= i < |stops| :: stops[i].key < |world.rows|
      ensures AreLive(world, stops, orders)
    {
      orders := [];
      for i := 0 to |stops|
        invariant |orders| == i
        invariant forall j | 0 <= j < i :: orders[j] == LiveOrder(world.rows[stops[j].key], Spec(world, stops[j].key))
      {
        orders := orders + [LiveOrder(world.rows[stops[i].key], Spec(world, stops[i].key))];
      }
    }

    // ---------- Any operation, and any run ----------

    /** Holds between operations. */
    ghost predicate Valid()
      reads this
    {
      Inv(world)
    }

    constructor (connected: set<Venue>)
      ensures Valid() && world == Empty(connected)
    {
      world, life := Empty(connected), 0;
      EmptyIsFine(connected);
    }

    /** Does what the operation asks for. A cycle whose query returned anything but the active orders cannot occur. */
    method Dispatch(op: Op)
      requires LaddersKnown(world)
      modifies this
      ensures Followed(old(world), old(life), Script(old(world), op), world, life)
    {
      ScriptOfOp(world, op);
      hide Script, Followed, SubmitDraftScript, CancelLadderScript, CancelOrderScript, ReconcileScript, ResolveFoundScript;
      hide ResolveMissingScript, EditScript, KeypadScript, LaddersKnown, CycleOk;
      match op {
        case NewDraft(spec) => StartDraft(spec);
        case EditDraft(l, spec) => EditDraft(l, spec);
        case Keypad(l, field, value) => Keypad(l, field, value);
        case SubmitDraft(l, terms, powers, placed) =>
          var _, _ := SubmitDraft(l, terms, powers, placed);
        case CancelLadder(l, canceled) =>
          var _ := CancelLadder(l, canceled);
        case CancelOrder(key, answer) => CancelOrder(key, answer);
        case Reconcile(cycle) =>
          if CycleOk(world, cycle) {
            Reconcile(cycle);
          } else {
            NoCycleNoSteps(world, cycle);
            NothingFollowed(world, life);
          }
        case ResolveFound(key, broker, lookup) => ResolveFound(key, broker, lookup);
        case ResolveMissing(key) => ResolveMissing(key);
      }
    }

    /** One operation of the process, cut short when its life runs out. */
    method Perform(op: Op)
      requires Valid()
      modifies this
      ensures Valid() && world == Next(old(world), Turn(op, old(life)))
    {
      ghost var w, n := world, life;
      KnownWhenFine(world);
      hide Inv, Followed, Script, LaddersKnown;
      Dispatch(op);
      TurnFollowed(w, n, op, world, life);
    }

    /** A whole run: each operation starts from the tables that the one before it left behind. */
    method PerformAll(turns: seq<Turn>)
      requires Valid()
      modifies this
      ensures Valid() && world == Run(old(world), turns)
    {
      var left := turns;
      while left != []
        invariant Valid() && Run(world, left) == Run(old(world), turns)
        decreases |left|
      {
        life := left[0].life;
        Perform(left[0].op);
        left := left[1..];
      }
    }
  }
}
