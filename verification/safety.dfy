/** Every operation takes only safe steps, so it is safe to interrupt anywhere. */
module Safety {
  import opened Wrappers
  import opened Records
  import opened Outcomes
  import opened Protocol
  import opened Steps
  import opened Operations
  import Ladder
  import LadderBounds

  ghost predicate SafeScript(w: World, script: seq<Action>)
    decreases |script|
  {
    script == [] || (RowsOk(w) && Safe(w, script[0]) && SafeScript(Do(w, script[0]), script[1..]))
  }

  lemma PlayFirst(w: World, a: Action, rest: seq<Action>)
    ensures Play(w, [a] + rest) == Play(Do(w, a), rest)
  {
    PlayConcat(w, [a], rest);
    PlayOne(w, a);
  }

  lemma EvolvesStays(w: World)
    requires RowsOk(w)
    ensures Evolves(w, w)
  {
  }

  lemma {:induction false} SafeScriptIsSafe(w: World, script: seq<Action>)
    requires Inv(w) && SafeScript(w, script)
    ensures Inv(Play(w, script)) && Evolves(w, Play(w, script))
    decreases |script|
  {
    InvHasLadders(w);
    hide Inv, Evolves, Safe, RowsOk, LaddersOk, Do;
    if script == [] {
      EvolvesStays(w);
    } else {
      var next := Do(w, script[0]);
      SafeStep(w, script[0]);
      SafeScriptIsSafe(next, script[1..]);
      assert script == [script[0]] + script[1..];
      PlayFirst(w, script[0], script[1..]);
      InvHasLadders(next);
      EvolvesComposes(w, next, Play(w, script));
    }
  }

  lemma {:induction false} SafeConcat(w: World, a: seq<Action>, b: seq<Action>)
    requires SafeScript(w, a) && SafeScript(Play(w, a), b)
    ensures SafeScript(w, a + b)
    decreases |a|
  {
    hide Safe, RowsOk, Do;
    if a == [] {
      assert a + b == b;
    } else {
      assert a == [a[0]] + a[1..];
      PlayFirst(w, a[0], a[1..]);
      SafeConcat(Do(w, a[0]), a[1..], b);
      assert (a + b)[1..] == a[1..] + b;
    }
  }

  lemma {:induction false} SafePrefix(w: World, script: seq<Action>, n: nat)
    requires SafeScript(w, script)
    ensures SafeScript(w, Take(script, n))
    decreases |script|
  {
    hide Safe, RowsOk, Do;
    if script != [] && 0 < n {
      SafePrefix(Do(w, script[0]), script[1..], n - 1);
      assert Take(script, n)[1..] == Take(script[1..], n - 1);
    }
  }

  lemma SafeOne(w: World, a: Action)
    requires RowsOk(w) && Safe(w, a)
    ensures SafeScript(w, [a])
  {
    hide Safe, RowsOk;
  }

  /** A write that the index accepts, followed by whatever is safe after it. */
  lemma SafeThen(w: World, a: Action, rest: seq<Action>)
    requires RowsOk(w) && Safe(w, a) && SafeScript(Do(w, a), rest)
    ensures SafeScript(w, [a] + rest)
  {
    assert ([a] + rest)[1..] == rest;
    hide Safe, RowsOk, Do;
  }

  // ---------- Settling ----------

  lemma RowsOfHoldsEvery(rows: seq<Order>, l: nat)
    ensures forall i | 0 <= i < |RowsOf(rows, l)| :: RowsOf(rows, l)[i] in rows && RowsOf(rows, l)[i].ladder == l
    ensures forall k | 0 <= k < |rows| && rows[k].ladder == l :: rows[k] in RowsOf(rows, l)
  {
    var keys, orders := OrdersOf(rows, l), RowsOf(rows, l);
    forall k | 0 <= k < |rows| && rows[k].ladder == l
      ensures rows[k] in orders
    {
      var i :| 0 <= i < |keys| && keys[i] == k;
      assert orders[i] == rows[k];
    }
  }

  /** Settling looks at the total fill, which is positive exactly when some rung filled. */
  lemma TotalFillIsSomeFill(w: World, l: nat)
    requires RowsOk(w)
    ensures 0 < Summarize(RowsOf(w.rows, l)).filled <==>
      exists k :: 0 <= k < |w.rows| && w.rows[k].ladder == l && 0 < w.rows[k].filled
  {
    var orders := RowsOf(w.rows, l);
    RowsOfHoldsEvery(w.rows, l);
    hide RowsOf;
    assert forall i | 0 <= i < |orders| :: 0 <= orders[i].filled;
    FilledIffSomeFill(orders);
    hide Summarize, RowsOk;
    if 0 < Summarize(orders).filled {
      var i :| 0 <= i < |orders| && 0 < orders[i].filled;
      assert orders[i] in w.rows;
      var k :| 0 <= k < |w.rows| && w.rows[k] == orders[i];
      assert w.rows[k].ladder == l && 0 < w.rows[k].filled;
    }
    if k :| 0 <= k < |w.rows| && w.rows[k].ladder == l && 0 < w.rows[k].filled {
      var i :| 0 <= i < |orders| && orders[i] == w.rows[k];
      assert 0 < orders[i].filled;
    }
  }

  lemma SettleIsSafe(w: World, l: nat)
    requires RowsOk(w)
    ensures SafeScript(w, SettleScript(w, l))
  {
    TotalFillIsSomeFill(w, l);
    var script := SettleScript(w, l);
    if script != [] {
      hide Summarize, RowsOf;
      SafeOne(w, script[0]);
      assert script == [script[0]];
    }
  }

  // ---------- Submitting ----------

  /** Between two rungs of a run: the venue is settled, and exactly the pending rungs are unsent. */
  ghost predicate Running(w: World, l: nat, pending: seq<nat>) {
    && l < |w.ladders| && w.ladders[l].state.Live()
    && LaddersKnown(w) && VenueIsSettled(w, w.ladders[l].spec.venue)
    && ArePending(w, l, pending)
  }

  /** Some unsent rungs of the ladder in order, with every unsent rung among them. */
  ghost predicate ArePending(w: World, l: nat, pending: seq<nat>) {
    && (forall i | 0 <= i < |pending| ::
          pending[i] < |w.rows| && w.rows[pending[i]].ladder == l && w.rows[pending[i]].status == Prepared)
    && (forall i, j | 0 <= i < j < |pending| :: pending[i] < pending[j])
    && (forall k | 0 <= k < |w.rows| && w.rows[k].ladder == l && w.rows[k].status == Prepared :: k in pending)
  }

  /** A request of the run is in flight, and it is the only order of its venue in doubt. */
  ghost predicate InFlight(w: World, l: nat, pending: seq<nat>) {
    && l < |w.ladders| && w.ladders[l].state.Live() && LaddersKnown(w)
    && pending != [] && pending[0] < |w.rows|
    && w.rows[pending[0]].ladder == l && w.rows[pending[0]].status == Sending
    && Alone(w, pending[0])
    && ArePending(w, l, pending[1..])
    && forall k | pending[0] < k < |w.rows| && w.rows[k].ladder == l :: !Attempted(w, k)
  }

  lemma CalledWasSent(w: World)
    requires RowsOk(w) && CallsOk(w)
    ensures forall k | 0 <= k < |w.rows| && Called(w, k) :: w.rows[k].status != Prepared
  {
    forall k | 0 <= k < |w.rows| && Called(w, k)
      ensures w.rows[k].status != Prepared
    {
      var i :| 0 <= i < |w.calls| && w.calls[i].order == k;
      assert CallMatches(w, w.calls[i]);
    }
  }

  lemma SentIsSafe(w: World, l: nat, pending: seq<nat>)
    requires RowsOk(w) && CallsOk(w) && Running(w, l, pending) && pending != []
    ensures SafeUpdate(w, pending[0], Sent(w.rows[pending[0]])) && !Called(w, pending[0])
  {
    CalledWasSent(w);
    assert forall i | 0 <= i < |pending| :: pending[0] <= pending[i];
  }

  lemma PendingAfterFirst(w: World, l: nat, pending: seq<nat>, o: Order)
    requires ArePending(w, l, pending) && pending != [] && o.status != Prepared
    ensures ArePending(w.(rows := w.rows[pending[0] := o]), l, pending[1..])
  {
    var rows := w.rows[pending[0] := o];
    forall j | 0 <= j < |rows| && rows[j].ladder == l && rows[j].status == Prepared
      ensures j in pending[1..]
    {
      var i :| 0 <= i < |pending| && pending[i] == j;
      assert pending[1..][i - 1] == j;
    }
  }

  /** Committing SENDING puts exactly this rung in doubt. */
  lemma SentIsInFlight(w: World, l: nat, pending: seq<nat>)
    requires Running(w, l, pending) && pending != [] && InOrder(w)
    ensures InFlight(Do(w, Update(pending[0], Sent(w.rows[pending[0]]))), l, pending)
  {
    var k := pending[0];
    PendingAfterFirst(w, l, pending, Sent(w.rows[k]));
    var w1 := Do(w, Update(k, Sent(w.rows[k])));
    assert w.rows[k].ladder == l && w.rows[k].status == Prepared;
    hide ArePending;
    assert forall j | 0 <= j < |w.rows| :: Spec(w1, j) == Spec(w, j);
    assert forall j | k < j < |w.rows| && w.rows[j].ladder == l && Attempted(w1, j) :: Attempted(w, j);
  }

  /** Once the answer is in and nothing is left in doubt, the run can go on to the next rung. */
  lemma AnsweredGoesOn(w: World, l: nat, pending: seq<nat>, o: Order)
    requires InFlight(w, l, pending)
    requires o.ladder == l && o.status != Prepared && !o.status.Unresolved()
    ensures Running(Do(w, Update(pending[0], o)), l, pending[1..])
  {
    var k := pending[0];
    var w1 := Do(w, Update(k, o));
    assert forall j | 0 <= j < |w.rows| :: Spec(w1, j) == Spec(w, j);
    assert forall i | 0 < i < |pending| :: pending[1..][i - 1] == pending[i];
  }

  lemma AnsweredIsSafe(w: World, l: nat, pending: seq<nat>, answer: PlaceAnswer)
    requires RowsOk(w) && InFlight(w, l, pending)
    requires UpdateOk(w, pending[0], Answered(w.rows[pending[0]], answer))
    ensures SafeUpdate(w, pending[0], Answered(w.rows[pending[0]], answer))
  {
    hide Alone, ArePending;
  }

  lemma InvHasCalls(w: World)
    requires Inv(w)
    ensures RowsOk(w) && CallsOk(w) && LaddersOk(w) && InOrder(w)
  {
  }

  lemma AfterRunIsSafe(w: World, l: nat, stopped: string)
    requires RowsOk(w) && l < |w.ladders| && w.ladders[l].state.Live()
    ensures SafeScript(w, [AfterRun(l, stopped)])
  {
    SafeOne(w, AfterRun(l, stopped));
  }

  lemma SendingStep(w: World, l: nat, pending: seq<nat>)
    requires Inv(w) && Running(w, l, pending) && pending != []
    ensures var commit := Update(pending[0], Sent(w.rows[pending[0]]));
      && RowsOk(w) && Safe(w, commit)
      && Inv(Do(w, commit)) && InFlight(Do(w, commit), l, pending) && !Called(Do(w, commit), pending[0])
  {
    var commit := Update(pending[0], Sent(w.rows[pending[0]]));
    InvHasCalls(w);
    SentIsSafe(w, l, pending);
    SentIsInFlight(w, l, pending);
    assert Do(w, commit).calls == w.calls;
    hide SafeUpdate, CallsOk, RowsOk, LaddersOk, InOrder, Running, InFlight;
    SafeStep(w, commit);
  }

  lemma PlacingStep(w: World, l: nat, pending: seq<nat>)
    requires Inv(w) && InFlight(w, l, pending) && !Called(w, pending[0])
    ensures var place := Place(pending[0]);
      RowsOk(w) && Safe(w, place) && Inv(Do(w, place)) && InFlight(Do(w, place), l, pending)
  {
    InvHasCalls(w);
    hide CallsOk, LaddersOk, RowOk, Inv, InOrder;
    assert SafePlace(w, pending[0]);
    assert InFlight(Do(w, Place(pending[0])), l, pending);
    hide SafePlace, InFlight, RowsOk;
    SafeStep(w, Place(pending[0]));
  }

  lemma AnsweringStep(w: World, l: nat, pending: seq<nat>, answer: PlaceAnswer)
    requires Inv(w) && InFlight(w, l, pending)
    requires UpdateOk(w, pending[0], Answered(w.rows[pending[0]], answer))
    ensures var commit := Update(pending[0], Answered(w.rows[pending[0]], answer));
      && RowsOk(w) && Safe(w, commit) && Inv(Do(w, commit)) && RowsOk(Do(w, commit))
      && Do(w, commit).ladders == w.ladders
  {
    InvHasCalls(w);
    AnsweredIsSafe(w, l, pending, answer);
    hide SafeUpdate, InFlight, RowsOk, CallsOk, LaddersOk;
    SafeStep(w, Update(pending[0], Answered(w.rows[pending[0]], answer)));
    InvHasCalls(Do(w, Update(pending[0], Answered(w.rows[pending[0]], answer))));
  }

  /** However many answers come, and whatever they are, every step of a run is safe. */
  lemma {:induction false} SendIsSafe(w: World, l: nat, pending: seq<nat>, answers: seq<PlaceAnswer>)
    requires Inv(w) && Running(w, l, pending)
    ensures SafeScript(w, SendScript(w, l, pending, answers))
    decreases |pending|, 1
  {
    InvHasCalls(w);
    if pending == [] {
      AfterRunIsSafe(w, l, "");
    } else {
      var commit, place := Update(pending[0], Sent(w.rows[pending[0]])), Place(pending[0]);
      var w1 := Do(w, commit);
      SendingStep(w, l, pending);
      PlacingStep(w1, l, pending);
      hide Inv, Safe, RowsOk, CallsOk, LaddersOk, Running, InFlight, Called, Do;
      AnswerIsSafe(Do(w1, place), l, pending, answers);
      SafeThen(w1, place, AnswerScript(Do(w1, place), l, pending, answers));
      SafeThen(w, commit, [place] + AnswerScript(Do(w1, place), l, pending, answers));
    }
  }

  lemma {:induction false} AnswerIsSafe(w: World, l: nat, pending: seq<nat>, answers: seq<PlaceAnswer>)
    requires Inv(w) && InFlight(w, l, pending)
    ensures SafeScript(w, AnswerScript(w, l, pending, answers))
    decreases |pending|, 0
  {
    var k := pending[0];
    if answers != [] && UpdateOk(w, k, Answered(w.rows[k], answers[0])) {
      var commit := Update(k, Answered(w.rows[k], answers[0]));
      AnsweringStep(w, l, pending, answers[0]);
      if answers[0].Refused? {
        var stop := AfterRun(l, Trim(answers[0].reason));
        AfterRunIsSafe(Do(w, commit), l, Trim(answers[0].reason));
        hide Inv, Safe, RowsOk, InFlight, Do;
        SafeThen(w, commit, [stop]);
        assert [commit] + [stop] == [commit, stop];
      } else {
        AnsweredGoesOn(w, l, pending, Answered(w.rows[k], answers[0]));
        hide Inv, Safe, RowsOk, InFlight, Running, Do;
        SendIsSafe(Do(w, commit), l, pending[1..], answers[1..]);
        SafeThen(w, commit, SendScript(Do(w, commit), l, pending[1..], answers[1..]));
      }
    }
  }

  lemma StartIsSafe(w: World, l: nat)
    requires Inv(w) && MaySubmit(w, l)
    requires Planned(w, l)
    ensures RowsOk(w) && Safe(w, SaveState(l, StatePlacing, ""))
    ensures Running(Do(w, SaveState(l, StatePlacing, "")), l, PreparedOf(w.rows, l))
  {
    var w1 := Do(w, SaveState(l, StatePlacing, ""));
    assert forall k | 0 <= k < |w.rows| :: Spec(w1, k) == Spec(w, k);
  }

  lemma SubmitIsSafe(w: World, l: nat, answers: seq<PlaceAnswer>)
    requires Inv(w)
    requires l < |w.ladders| ==> Planned(w, l)
    ensures SafeScript(w, SubmitScript(w, l, answers))
  {
    if MaySubmit(w, l) {
      var start := SaveState(l, StatePlacing, "");
      var w1 := Do(w, start);
      StartIsSafe(w, l);
      SafeStep(w, start);
      SendIsSafe(w1, l, PreparedOf(w.rows, l), answers);
      hide Inv, Evolves, Safe, RowsOk, Running, MaySubmit, SendScript, PreparedOf, Do;
      SafeThen(w, start, SendScript(w1, l, PreparedOf(w.rows, l), answers));
    }
  }

  // ---------- Turning a draft into orders ----------

  lemma BuiltPlanIsNumbered(s: Ladder.Spec, powers: Ladder.Powers)
    requires Ladder.Build(s, powers).Ok?
    ensures Numbered(Ladder.Build(s, powers).value) && Ladder.Build(s, powers).value.spec == s
  {
    LadderBounds.BuildShape(s, powers);
    hide Ladder.Build, Ladder.Sized, Ladder.Prices;
  }

  lemma InsertedDraft(w: World, l: nat, plan: Ladder.Plan, terms: Terms)
    requires Inv(w) && l < |w.ladders| && w.ladders[l].state == StateDraft
    requires InsertOk(w, l, plan) && Numbered(plan) && SameRequest(plan.spec, w.ladders[l].spec)
    ensures RowsOk(w) && Safe(w, Insert(l, plan, terms))
    ensures Inv(Do(w, Insert(l, plan, terms)))
    ensures var w1 := Do(w, Insert(l, plan, terms));
      w1.ladders == w.ladders && l in w1.plans && w1.plans[l] == plan
  {
    InvHasCalls(w);
    hide Inv, LaddersOk, CallsOk, RowsOk;
    assert SafeInsert(w, l, plan);
    hide SafeInsert, InsertOk, Numbered;
    SafeStep(w, Insert(l, plan, terms));
  }

  lemma StoppedLadderHasPlan(w: World, l: nat)
    requires Inv(w) && l < |w.ladders| && w.ladders[l].state == StateFailed
    ensures Planned(w, l)
  {
    assert LadderOk(w, l);
  }

  lemma SubmitDraftIsSafe(
    w: World, l: nat, terms: Terms, powers: Ladder.Powers, answers: seq<PlaceAnswer>)
    requires Inv(w)
    ensures SafeScript(w, SubmitDraftScript(w, l, terms, powers, answers))
  {
    if l < |w.ladders| && w.ladders[l].state == StateFailed {
      StoppedLadderHasPlan(w, l);
      SubmitIsSafe(w, l, answers);
    } else if l < |w.ladders| && w.ladders[l].state == StateDraft {
      hide Inv, Safe, RowsOk, Ladder.Build, SubmitScript, Do, InsertOk, Numbered;
      var spec := DraftSpec(w.ladders[l], terms);
      if Ladder.Build(spec, powers).Ok? {
        var plan := Ladder.Build(spec, powers).value;
        BuiltPlanIsNumbered(spec, powers);
        if InsertOk(w, l, plan) {
          InsertedDraft(w, l, plan, terms);
          SubmitIsSafe(Do(w, Insert(l, plan, terms)), l, answers);
          SafeThen(w, Insert(l, plan, terms), SubmitScript(Do(w, Insert(l, plan, terms)), l, answers));
        }
      }
    }
  }
}
