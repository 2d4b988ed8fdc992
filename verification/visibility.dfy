/**
  No order that exists at an exchange is ever lost from sight, and no order is linked to one that is not its own.

  What really happened is a pair of facts the tables never see: which of our orders the exchange created, and for
  which of ours each of its orders was created.
*/
module Visibility {
  import opened Wrappers
  import opened Market
  import opened Records
  import opened Protocol
  import opened Operations
  import opened Safety
  import opened Runs
  import opened Guarantees
  import CancelSafety
  import Ladder

  datatype Truth = Truth(created: nat -> bool, owner: nat -> nat)

  /** An accepted request created our order under the id returned; an unambiguous refusal means it was never created. */
  ghost predicate AnswersTrue(pending: seq<nat>, answers: seq<PlaceAnswer>, t: Truth) {
    forall i | 0 <= i < |pending| && i < |answers| ::
      match answers[i]
      case Accepted(b) => t.owner(b) == pending[i]
      case Refused(ambiguous, _) => ambiguous || !t.created(pending[i])
  }

  /** An order that carries our own identifier is ours. */
  ghost predicate LookupTrue(key: nat, lookup: Lookup, t: Truth) {
    lookup.Found? && lookup.report.client == Some(key) ==> t.owner(lookup.report.broker) == key
  }

  /** The exchange keeps to that, and the operator resolves an order only by what they found there. */
  ghost predicate Faithful(w: World, op: Op, t: Truth) {
    match op
    case SubmitDraft(l, terms, powers, placed) =>
      l < |w.ladders| ==>
        if w.ladders[l].state == StateFailed then AnswersTrue(PreparedOf(w.rows, l), placed, t)
        else
          var built := Ladder.Build(DraftSpec(w.ladders[l], terms), powers);
          built.Ok? ==> AnswersTrue(PreparedOf(Do(w, Insert(l, built.value, terms)).rows, l), placed, t)
    case Reconcile(c) => RepliesTrue(c.replies, t)
    case ResolveFound(key, broker, lookup) => Adoptable(w, key, broker, lookup) ==> t.owner(broker) == key
    case ResolveMissing(key) => ResolveMissingScript(w, key) != [] ==> !t.created(key)
    case _ => true
  }

  ghost predicate FaithfulRun(w: World, turns: seq<Turn>, t: Truth)
    decreases |turns|
  {
    turns == [] || (Faithful(w, turns[0].op, t) && FaithfulRun(Next(w, turns[0]), turns[1..], t))
  }

  // ---------- What the tables may say ----------

  ghost predicate RowTrue(key: nat, r: Order, t: Truth) {
    && (r.broker.Some? ==> t.owner(r.broker.value) == key)
    && (r.broker.None? && r.status == Rejected ==> !t.created(key))
  }

  ghost predicate TablesTrue(w: World, t: Truth) {
    && (forall k | 0 <= k < |w.rows| :: RowTrue(k, w.rows[k], t))
    && (forall k | k in w.writtenOff :: !t.created(k))
  }

  ghost predicate StepTrue(a: Action, t: Truth) {
    && (a.Update? ==> RowTrue(a.key, a.order, t))
    && (a.WriteOff? ==> !t.created(a.key))
  }

  ghost predicate ScriptTrue(script: seq<Action>, t: Truth) {
    forall a | a in script :: StepTrue(a, t)
  }

  lemma StepKeepsTruth(w: World, a: Action, t: Truth)
    requires TablesTrue(w, t) && StepTrue(a, t)
    ensures TablesTrue(Do(w, a), t)
  {
    var w1 := Do(w, a);
    forall k | 0 <= k < |w1.rows|
      ensures RowTrue(k, w1.rows[k], t)
    {
      if k < |w.rows| {
        assert RowTrue(k, w.rows[k], t);
      }
    }
  }

  lemma {:induction false} PlayKeepsTruth(w: World, script: seq<Action>, t: Truth)
    requires TablesTrue(w, t) && ScriptTrue(script, t)
    ensures TablesTrue(Play(w, script), t)
  {
    if script != [] {
      var n := |script| - 1;
      assert forall a | a in script[..n] :: a in script;
      assert script[n] in script;
      hide TablesTrue, StepTrue, Do;
      PlayKeepsTruth(w, script[..n], t);
      StepKeepsTruth(Play(w, script[..n]), script[n], t);
    }
  }

  lemma TrueConcat(a: seq<Action>, b: seq<Action>, t: Truth)
    requires ScriptTrue(a, t) && ScriptTrue(b, t)
    ensures ScriptTrue(a + b, t)
  {
    hide StepTrue;
  }

  lemma TruePrefix(script: seq<Action>, n: nat, t: Truth)
    requires ScriptTrue(script, t)
    ensures ScriptTrue(Take(script, n), t)
  {
    hide StepTrue;
    assert forall a | a in Take(script, n) :: a in script;
  }

  // ---------- Every operation writes only the truth ----------

  lemma SettleIsTrue(w: World, l: nat, t: Truth)
    ensures ScriptTrue(SettleScript(w, l), t)
  {
    hide AnyActive;
  }

  lemma {:induction false} SendIsTrue(w: World, l: nat, pending: seq<nat>, answers: seq<PlaceAnswer>, t: Truth)
    requires TablesTrue(w, t) && AnswersTrue(pending, answers, t)
    ensures ScriptTrue(SendScript(w, l, pending, answers), t)
    decreases |pending|, 1
  {
    if pending != [] && pending[0] < |w.rows| {
      var commit, place := Update(pending[0], Sent(w.rows[pending[0]])), Place(pending[0]);
      assert RowTrue(pending[0], w.rows[pending[0]], t);
      assert StepTrue(commit, t) && StepTrue(place, t);
      hide TablesTrue, AnswersTrue, RowTrue, Do, StepTrue;
      StepKeepsTruth(w, commit, t);
      StepKeepsTruth(Do(w, commit), place, t);
      AnswerIsTrue(Do(Do(w, commit), place), l, pending, answers, t);
    }
  }

  lemma {:induction false} AnswerIsTrue(w: World, l: nat, pending: seq<nat>, answers: seq<PlaceAnswer>, t: Truth)
    requires pending != [] && TablesTrue(w, t) && AnswersTrue(pending, answers, t)
    ensures ScriptTrue(AnswerScript(w, l, pending, answers), t)
    decreases |pending|, 0
  {
    if answers != [] && pending[0] < |w.rows| {
      var commit := Update(pending[0], Answered(w.rows[pending[0]], answers[0]));
      assert RowTrue(pending[0], w.rows[pending[0]], t);
      assert StepTrue(commit, t);
      assert AnswersTrue(pending[1..], answers[1..], t);
      hide TablesTrue, AnswersTrue, RowTrue, Do, UpdateOk;
      StepKeepsTruth(w, commit, t);
      SendIsTrue(Do(w, commit), l, pending[1..], answers[1..], t);
    }
  }

  lemma SubmitIsTrue(w: World, l: nat, answers: seq<PlaceAnswer>, t: Truth)
    requires TablesTrue(w, t) && AnswersTrue(PreparedOf(w.rows, l), answers, t)
    ensures ScriptTrue(SubmitScript(w, l, answers), t)
  {
    if MaySubmit(w, l) {
      var start := SaveState(l, StatePlacing, "");
      StepKeepsTruth(w, start, t);
      hide TablesTrue, AnswersTrue, Do, MaySubmit, PreparedOf;
      SendIsTrue(Do(w, start), l, PreparedOf(w.rows, l), answers, t);
      TrueConcat([start], SendScript(Do(w, start), l, PreparedOf(w.rows, l), answers), t);
    }
  }

  lemma SubmitDraftIsTrue(
    w: World, l: nat, terms: Terms, powers: Ladder.Powers, placed: seq<PlaceAnswer>, t: Truth)
    requires TablesTrue(w, t) && Faithful(w, Op.SubmitDraft(l, terms, powers, placed), t)
    ensures ScriptTrue(SubmitDraftScript(w, l, terms, powers, placed), t)
  {
    hide TablesTrue, AnswersTrue, Ladder.Build, DraftSpec, InsertOk, SubmitScript, PreparedOf, Do;
    if l < |w.ladders| && w.ladders[l].state == StateFailed {
      SubmitIsTrue(w, l, placed, t);
    } else if l < |w.ladders| && Ladder.Build(DraftSpec(w.ladders[l], terms), powers).Ok? {
      var insert := Insert(l, Ladder.Build(DraftSpec(w.ladders[l], terms), powers).value, terms);
      StepKeepsTruth(w, insert, t);
      SubmitIsTrue(Do(w, insert), l, placed, t);
      TrueConcat([insert], SubmitScript(Do(w, insert), l, placed), t);
    }
  }

  lemma {:induction false} CancelRungsAreTrue(w: World, keys: seq<nat>, answers: map<nat, CancelAnswer>, t: Truth)
    requires TablesTrue(w, t)
    ensures ScriptTrue(CancelRungs(w, keys, answers), t)
    decreases |keys|
  {
    if keys != [] && keys[0] < |w.rows| {
      var first := CancelRung(keys[0], w.rows[keys[0]], CancelReply(answers, keys[0]));
      assert RowTrue(keys[0], w.rows[keys[0]], t);
      assert ScriptTrue(first, t);
      hide TablesTrue, ScriptTrue, CancelRung, Play;
      PlayKeepsTruth(w, first, t);
      CancelRungsAreTrue(Play(w, first), keys[1..], answers, t);
      TrueConcat(first, CancelRungs(Play(w, first), keys[1..], answers), t);
    }
  }

  lemma ParkIsTrue(w: World, key: nat, order: Order, reason: string, t: Truth)
    requires RowTrue(key, order, t)
    ensures ScriptTrue(ParkScript(w, key, order, reason), t)
  {
    hide UpdateOk;
  }

  lemma ApplyIsTrue(w: World, key: nat, order: Order, spec: Ladder.Spec, e: Report, t: Truth)
    requires RowTrue(key, order, t) && order.broker.Some?
    ensures ScriptTrue(ApplyScript(w, key, order, spec, e), t)
  {
    ParkIsTrue(w, key, order, WRONG_TERMS, t);
    ParkIsTrue(w, key, order, OVERFILLED, t);
    assert Applied(order, e).broker == order.broker && Notified(Applied(order, e)).broker == order.broker;
    hide UpdateOk, Applied, Notified, ParkScript;
  }

  lemma HeardIsTrue(w: World, key: nat, order: Order, spec: Ladder.Spec, e: Report, n: nat, t: Truth)
    requires RowTrue(key, order, t) && order.broker.Some?
    ensures ScriptTrue([Learn(Finding(key, order.broker.value, e))] + Take(ApplyScript(w, key, order, spec, e), n), t)
  {
    ApplyIsTrue(w, key, order, spec, e, t);
    hide ApplyScript, RowTrue;
    TruePrefix(ApplyScript(w, key, order, spec, e), n, t);
    TrueConcat([Learn(Finding(key, order.broker.value, e))], Take(ApplyScript(w, key, order, spec, e), n), t);
  }

  lemma RefreshIsTrue(w: World, stop: Stop, t: Truth)
    requires TablesTrue(w, t) && LookupTrue(stop.key, stop.reply.lookup, t)
    ensures ScriptTrue(RefreshAt(w, stop), t)
  {
    if stop.key < |w.rows| && w.rows[stop.key].ladder < |w.ladders| {
      var key, r, reply := stop.key, w.rows[stop.key], stop.reply;
      assert RowTrue(key, r, t);
      hide TablesTrue, ScriptTrue, ApplyScript, ParkScript, Unchanged, Take;
      TrueNothing(t);
      if reply.lookup.Found? {
        var e := reply.lookup.report;
        if r.broker.Some? {
          HeardIsTrue(w, key, r, Spec(w, key), e, reply.writes, t);
        } else if e.client == Some(key) {
          HeardIsTrue(w, key, r.(broker := Some(e.broker)), Spec(w, key), e, reply.writes, t);
        }
      }
      ParkingIsTrue(w, key, r, reply, t);
    }
  }

  lemma TrueNothing(t: Truth)
    ensures ScriptTrue([], t)
  {
  }

  lemma ParkingIsTrue(w: World, key: nat, r: Order, reply: Reply, t: Truth)
    requires RowTrue(key, r, t)
    ensures forall reason :: ScriptTrue(Take(ParkScript(w, key, r, reason), reply.writes), t)
  {
    forall reason
      ensures ScriptTrue(Take(ParkScript(w, key, r, reason), reply.writes), t)
    {
      ParkIsTrue(w, key, r, reason, t);
      TruePrefix(ParkScript(w, key, r, reason), reply.writes, t);
    }
  }

  ghost predicate StopsTrue(stops: seq<Stop>, t: Truth) {
    forall s | s in stops :: LookupTrue(s.key, s.reply.lookup, t)
  }

  ghost predicate RepliesTrue(replies: map<nat, Reply>, t: Truth) {
    forall key | key in replies :: LookupTrue(key, replies[key].lookup, t)
  }

  lemma {:induction false} SweepIsTrue(w: World, stops: seq<Stop>, t: Truth)
    requires TablesTrue(w, t) && StopsTrue(stops, t)
    ensures ScriptTrue(SweepScript(w, stops), t)
    decreases |stops|
  {
    if stops == [] {
      TrueNothing(t);
    } else {
      assert LookupTrue(stops[0].key, stops[0].reply.lookup, t) && StopsTrue(stops[1..], t);
      hide TablesTrue, ScriptTrue, RefreshAt, Play, LookupTrue, StopsTrue;
      var first := RefreshAt(w, stops[0]);
      RefreshIsTrue(w, stops[0], t);
      PlayKeepsTruth(w, first, t);
      SweepIsTrue(Play(w, first), stops[1..], t);
      TrueConcat(first, SweepScript(Play(w, first), stops[1..]), t);
    }
  }

  lemma {:induction false} VenueStopsAreTrue(w: World, venue: Venue, listing: Listing, keys: seq<nat>, replies: map<nat, Reply>, t: Truth)
    requires LaddersKnown(w) && (forall i | 0 <= i < |keys| :: keys[i] < |w.rows|) && RepliesTrue(replies, t)
    ensures StopsTrue(VenueStops(w, venue, listing, keys, replies), t)
  {
    if keys != [] {
      var n := |keys| - 1;
      VenueStopsAreTrue(w, venue, listing, keys[..n], replies, t);
      var last := Stop(keys[n], listing, LookupReply(replies, keys[n]));
      assert LookupTrue(last.key, last.reply.lookup, t);
      hide LookupTrue;
    }
  }

  lemma {:induction false} StopsAreTrue(w: World, c: Cycle, venues: seq<Venue>, t: Truth)
    requires LaddersKnown(w) && (forall i | 0 <= i < |c.keys| :: c.keys[i] < |w.rows|) && RepliesTrue(c.replies, t)
    ensures StopsTrue(CycleStops(w, c, venues), t)
  {
    hide LookupTrue;
    if venues != [] {
      var n := |venues| - 1;
      StopsAreTrue(w, c, venues[..n], t);
      if venues[n] in c.listings {
        VenueStopsAreTrue(w, venues[n], c.listings[venues[n]], c.keys, c.replies, t);
      }
      hide VenueStops;
    }
  }

  lemma {:induction false} SettleAllIsTrue(w: World, live: seq<nat>, unsaved: set<nat>, t: Truth)
    ensures ScriptTrue(SettleAll(w, live, unsaved), t)
    decreases |live|
  {
    TrueNothing(t);
    if live != [] {
      var first := if live[0] in unsaved then [] else SettleScript(w, live[0]);
      SettleIsTrue(w, live[0], t);
      hide ScriptTrue, SettleScript, Play;
      SettleAllIsTrue(Play(w, first), live[1..], unsaved, t);
      TrueConcat(first, SettleAll(Play(w, first), live[1..], unsaved), t);
    }
  }

  lemma ReconcileIsTrue(w: World, c: Cycle, t: Truth)
    requires TablesTrue(w, t) && RepliesTrue(c.replies, t)
    ensures ScriptTrue(ReconcileScript(w, c), t)
  {
    TrueNothing(t);
    if LaddersKnown(w) && CycleOk(w, c) {
      assert forall i | 0 <= i < |c.keys| :: c.keys[i] < |w.rows|;
      hide ScriptTrue, TablesTrue, RepliesTrue, StopsTrue, SweepScript, CycleStops, SettleAll, LiveLadders, Play, CycleOk;
      var sweep := SweepScript(w, CycleStops(w, c, c.venues));
      var swept := Play(w, sweep);
      StopsAreTrue(w, c, c.venues, t);
      SweepIsTrue(w, CycleStops(w, c, c.venues), t);
      SettleAllIsTrue(swept, LiveLadders(swept.ladders), c.unsaved, t);
      TrueConcat(sweep, SettleAll(swept, LiveLadders(swept.ladders), c.unsaved), t);
    }
  }

  lemma ResolveFoundIsTrue(w: World, key: nat, broker: nat, lookup: Lookup, t: Truth)
    requires Adoptable(w, key, broker, lookup) ==> t.owner(broker) == key
    ensures ScriptTrue(ResolveFoundScript(w, key, broker, lookup), t)
  {
    TrueNothing(t);
    if Adoptable(w, key, broker, lookup) {
      var adopted := w.rows[key].(broker := Some(broker), reason := "");
      var apply := ApplyScript(w, key, adopted, Spec(w, key), lookup.report);
      assert RowTrue(key, adopted, t);
      hide Adoptable, ScriptTrue, ApplyScript, SettleScript, Play;
      HeardIsTrue(w, key, adopted, Spec(w, key), lookup.report, |apply|, t);
      assert Take(apply, |apply|) == apply;
      var script := [Learn(Finding(key, broker, lookup.report))] + apply;
      SettleIsTrue(Play(w, script), w.rows[key].ladder, t);
      TrueConcat(script, SettleScript(Play(w, script), w.rows[key].ladder), t);
    }
  }

  lemma OpIsTrue(w: World, op: Op, t: Truth)
    requires TablesTrue(w, t) && Faithful(w, op, t)
    ensures ScriptTrue(Script(w, op), t)
  {
    match op
    case NewDraft(_) =>
    case EditDraft(_, _) =>
    case Keypad(_, _, _) =>
    case SubmitDraft(l, terms, powers, placed) => SubmitDraftIsTrue(w, l, terms, powers, placed, t);
    case CancelLadder(l, canceled) => CancelLadderIsTrue(w, l, canceled, t);
    case CancelOrder(key, answer) =>
      if key < |w.rows| {
        assert RowTrue(key, w.rows[key], t);
      }
    case Reconcile(c) => ReconcileIsTrue(w, c, t);
    case ResolveFound(key, broker, lookup) => ResolveFoundIsTrue(w, key, broker, lookup, t);
    case ResolveMissing(key) => ResolveMissingIsTrue(w, key, t);
  }

  lemma CancelLadderIsTrue(w: World, l: nat, answers: map<nat, CancelAnswer>, t: Truth)
    requires TablesTrue(w, t)
    ensures ScriptTrue(CancelLadderScript(w, l, answers), t)
  {
    TrueNothing(t);
    if l < |w.ladders| && w.ladders[l].spec.venue in w.connected {
      hide ScriptTrue, CancelRungs, SettleScript, Play, OrdersOf;
      var cancels := CancelRungs(w, OrdersOf(w.rows, l), answers);
      CancelRungsAreTrue(w, OrdersOf(w.rows, l), answers, t);
      SettleIsTrue(Play(w, cancels), l, t);
      TrueConcat(cancels, SettleScript(Play(w, cancels), l), t);
    }
  }

  lemma ResolveMissingIsTrue(w: World, key: nat, t: Truth)
    requires ResolveMissingScript(w, key) != [] ==> !t.created(key)
    ensures ScriptTrue(ResolveMissingScript(w, key), t)
  {
    TrueNothing(t);
    if ResolveMissingScript(w, key) != [] {
      var script := [WriteOff(key, WRITTEN_OFF)];
      assert ScriptTrue(script, t);
      hide ScriptTrue, SettleScript, Play;
      SettleIsTrue(Play(w, script), w.rows[key].ladder, t);
      TrueConcat(script, SettleScript(Play(w, script), w.rows[key].ladder), t);
    }
  }

  lemma {:induction false} RunKeepsTruth(w: World, turns: seq<Turn>, t: Truth)
    requires TablesTrue(w, t) && FaithfulRun(w, turns, t)
    ensures TablesTrue(Run(w, turns), t)
    decreases |turns|
  {
    if turns != [] {
      hide TablesTrue, Script, Faithful, ScriptTrue;
      OpIsTrue(w, turns[0].op, t);
      TruePrefix(Script(w, turns[0].op), turns[0].life, t);
      PlayKeepsTruth(w, Take(Script(w, turns[0].op), turns[0].life), t);
      RunKeepsTruth(Next(w, turns[0]), turns[1..], t);
    }
  }

  // ---------- The theorem ----------

  /**
    Every linked order is linked to the exchange order created for it; and every order that was sent and exists at the
    exchange is either linked or still shown as in doubt, never as rejected, dropped or waiting.
  */
  lemma NothingIsForgotten(connected: set<Venue>, turns: seq<Turn>, t: Truth)
    requires FaithfulRun(Empty(connected), turns, t)
    ensures var w := Run(Empty(connected), turns);
      && (forall k | 0 <= k < |w.rows| && w.rows[k].broker.Some? :: t.owner(w.rows[k].broker.value) == k)
      && (forall k | 0 <= k < |w.rows| && Called(w, k) && t.created(k) ::
            w.rows[k].status.Unresolved() || w.rows[k].broker.Some?)
  {
    var w := Run(Empty(connected), turns);
    assert Reachable(w);
    RunKeepsTruth(Empty(connected), turns, t);
    hide Reachable, Run, FaithfulRun;
    ReachableIsFine(w);
    CalledWasSent(w);
    CancelSafety.InvHasEvidence(w);
    hide Inv, CallsOk, LaddersOk, BrokersUnique;
    forall k | 0 <= k < |w.rows|
      ensures w.rows[k].broker.Some? ==> t.owner(w.rows[k].broker.value) == k
      ensures Called(w, k) && t.created(k) ==> w.rows[k].status.Unresolved() || w.rows[k].broker.Some?
    {
      assert RowTrue(k, w.rows[k], t) && RowOk(w.rows[k]) && CancelEvidenced(w, k);
    }
  }
}
