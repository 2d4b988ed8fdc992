/**
  Whole runs: any sequence of operations, each with any answers, each cut short anywhere.

  The process is single-threaded (internal/app/app.go), so operations follow one another. A crash between two
  steps, or a database write that fails, ends an operation early; the next one starts from the tables alone.
*/
module Runs {
  import opened Wrappers
  import opened Market
  import opened Records
  import opened Protocol
  import opened Steps
  import opened Operations
  import opened Safety
  import opened CancelSafety
  import opened ReconcileSafety
  import Ladder

  /** What a number typed on the keypad can be entered as. */
  datatype Field = FieldBase | FieldStart | FieldEnd | FieldTotal

  /** One unit of a price, and one hundredth of a whole, in 10^-18. */
  const PRICE_UNIT := 10_000_000_000.0
  const PERCENT_UNIT := 100_000_000_000_000_000_000.0

  datatype Op =
    | NewDraft(spec: Ladder.Spec)
    | EditDraft(ladder: nat, spec: Ladder.Spec)
    | Keypad(ladder: nat, field: Field, value: int)
    | SubmitDraft(ladder: nat, terms: Terms, powers: Ladder.Powers, placed: seq<PlaceAnswer>)
    | CancelLadder(ladder: nat, canceled: map<nat, CancelAnswer>)
    | CancelOrder(key: nat, answer: CancelAnswer)
    | Reconcile(cycle: Cycle)
    | ResolveFound(key: nat, broker: nat, lookup: Lookup)
    | ResolveMissing(key: nat)

  /** An operation and how many steps of it the process lives through. */
  datatype Turn = Turn(op: Op, life: nat)

  /** The questions of the draft flow are answered only for a draft, and its venue and side are chosen when it is started. */
  function EditScript(w: World, l: nat, spec: Ladder.Spec): seq<Action> {
    if l < |w.ladders| && w.ladders[l].state == StateDraft
      && spec.venue == w.ladders[l].spec.venue && spec.side == w.ladders[l].spec.side
    then [Edit(l, spec)] else []
  }

  /** The number, in 10^-18, put in place of one of the terms; an impossible one is turned down. */
  function Typed(spec: Ladder.Spec, field: Field, value: int): Option<Ladder.Spec> {
    if value < 0 then None
    else
      match field
      case FieldBase => if value == 0 then None else Some(spec.(base := value as real / PRICE_UNIT))
      case FieldStart => Some(spec.(startPct := value as real / PERCENT_UNIT))
      case FieldEnd => Some(spec.(endPct := value as real / PERCENT_UNIT))
      case FieldTotal =>
        if value == 0 then None
        else if spec.side == Sell then Some(spec.(total := RoundQuantity(value, spec.venue) * UnitSize(spec.venue)))
        else Some(spec.(total := value))
  }

  /** The keypad saves what was typed without asking whether the ladder is still a draft. */
  function KeypadScript(w: World, l: nat, field: Field, value: int): seq<Action> {
    if l >= |w.ladders| then []
    else
      match Typed(w.ladders[l].spec, field, value)
      case None => []
      case Some(spec) => if w.ladders[l].state == StateDraft then [Edit(l, spec)] else [Retype(l, spec)]
  }

  function Script(w: World, op: Op): seq<Action> {
    match op
    case NewDraft(spec) => [Create(spec)]
    case EditDraft(l, spec) => EditScript(w, l, spec)
    case Keypad(l, field, value) => KeypadScript(w, l, field, value)
    case SubmitDraft(l, terms, powers, placed) => SubmitDraftScript(w, l, terms, powers, placed)
    case CancelLadder(l, canceled) => CancelLadderScript(w, l, canceled)
    case CancelOrder(key, answer) => CancelOrderScript(w, key, answer)
    case Reconcile(cycle) => ReconcileScript(w, cycle)
    case ResolveFound(key, broker, lookup) => ResolveFoundScript(w, key, broker, lookup)
    case ResolveMissing(key) => ResolveMissingScript(w, key)
  }

  function Next(w: World, turn: Turn): World {
    Play(w, Take(Script(w, turn.op), turn.life))
  }

  function Run(w: World, turns: seq<Turn>): World
    decreases |turns|
  {
    if turns == [] then w else Run(Next(w, turns[0]), turns[1..])
  }

  /** Nothing stored and nothing sent yet. */
  function Empty(connected: set<Venue>): World {
    World(connected, [], [], [], [], {}, map[], [], map[])
  }

  lemma EmptyIsFine(connected: set<Venue>)
    ensures Inv(Empty(connected)) && Built(Empty(connected))
  {
  }

  // ---------- Every operation is safe wherever it is cut ----------

  lemma ScriptIsSafe(w: World, op: Op)
    requires Inv(w)
    ensures SafeScript(w, Script(w, op))
  {
    InvHasLadders(w);
    match op
    case NewDraft(spec) => SafeOne(w, Create(spec));
    case EditDraft(l, spec) =>
      if EditScript(w, l, spec) != [] {
        SafeOne(w, Edit(l, spec));
      }
    case Keypad(l, field, value) =>
      if KeypadScript(w, l, field, value) != [] {
        SafeOne(w, KeypadScript(w, l, field, value)[0]);
      }
    case SubmitDraft(l, terms, powers, placed) => SubmitDraftIsSafe(w, l, terms, powers, placed);
    case CancelLadder(l, canceled) => CancelLadderIsSafe(w, l, canceled);
    case CancelOrder(key, answer) => CancelOrderIsSafe(w, key, answer);
    case Reconcile(cycle) => ReconcileIsSafe(w, cycle);
    case ResolveFound(key, broker, lookup) => ResolveFoundIsSafe(w, key, broker, lookup);
    case ResolveMissing(key) => ResolveMissingIsSafe(w, key);
  }

  lemma TurnIsSafe(w: World, turn: Turn)
    requires Inv(w)
    ensures Inv(Next(w, turn)) && Evolves(w, Next(w, turn))
  {
    hide Inv, Evolves, SafeScript, Script;
    ScriptIsSafe(w, turn.op);
    SafePrefix(w, Script(w, turn.op), turn.life);
    SafeScriptIsSafe(w, Take(Script(w, turn.op), turn.life));
  }

  /** The invariant holds after any run, and no run undoes what an earlier state settled. */
  lemma {:induction false} RunIsSafe(w: World, turns: seq<Turn>)
    requires Inv(w)
    ensures Inv(Run(w, turns)) && Evolves(w, Run(w, turns))
    decreases |turns|
  {
    InvHasLadders(w);
    if turns == [] {
      EvolvesStays(w);
    } else {
      hide Inv, Evolves, Next, RowsOk, LaddersOk;
      var w1 := Next(w, turns[0]);
      TurnIsSafe(w, turns[0]);
      InvHasLadders(w1);
      RunIsSafe(w1, turns[1..]);
      EvolvesComposes(w, w1, Run(w, turns));
    }
  }

  lemma {:induction false} RunConcat(w: World, a: seq<Turn>, b: seq<Turn>)
    ensures Run(w, a + b) == Run(Run(w, a), b)
    decreases |a|
  {
    hide Next;
    if a == [] {
      assert a + b == b;
    } else {
      RunConcat(Next(w, a[0]), a[1..], b);
      assert (a + b)[1..] == a[1..] + b;
    }
  }

  // ---------- Every inserted plan was built ----------

  ghost predicate IsBuilt(plan: Ladder.Plan) {
    exists powers :: Ladder.Build(plan.spec, powers) == Ok(plan)
  }

  /** The commission a plan sets aside is the exchange's own: the rate it quoted, on a buy, and otherwise nothing. */
  ghost predicate FeeIsQuoted(spec: Ladder.Spec, terms: Terms) {
    if spec.side == Sell then spec.fee == 0.0
    else terms.Ok? && spec.fee == if terms.value.Some? then terms.value.value else 0.0
  }

  ghost predicate WellBuilt(plan: Ladder.Plan, terms: Terms) {
    IsBuilt(plan) && FeeIsQuoted(plan.spec, terms)
  }

  ghost predicate Built(w: World) {
    forall l | l in w.plans :: l in w.quotes && WellBuilt(w.plans[l], w.quotes[l])
  }

  /** The only plans a script inserts are ones that were just built. */
  ghost predicate InsertsBuilt(script: seq<Action>) {
    forall a | a in script && a.Insert? :: WellBuilt(a.plan, a.terms)
  }

  lemma {:induction false} PlayKeepsBuilt(w: World, script: seq<Action>)
    requires Built(w) && InsertsBuilt(script)
    ensures Built(Play(w, script))
  {
    hide WellBuilt;
    if script != [] {
      var n := |script| - 1;
      assert forall a | a in script[..n] :: a in script;
      PlayKeepsBuilt(w, script[..n]);
      assert script[n] in script;
    }
  }

  // ---------- What an operation may send ----------

  /** No insertion, no request, and nothing typed over a sent ladder. */
  ghost predicate Quiet(script: seq<Action>) {
    forall a | a in script :: !a.Insert? && !a.Place? && !a.Retype?
  }

  lemma {:induction false} SendPlacesPending(w: World, l: nat, pending: seq<nat>, answers: seq<PlaceAnswer>)
    ensures var script := SendScript(w, l, pending, answers);
      forall a | a in script :: !a.Insert? && !a.Retype? && (a.Place? ==> a.key in pending)
    decreases |pending|, 1
  {
    if pending != [] && pending[0] < |w.rows| {
      var commit, place := Update(pending[0], Sent(w.rows[pending[0]])), Place(pending[0]);
      AnswerPlacesPending(Do(Do(w, commit), place), l, pending, answers);
      hide Do;
    }
  }

  lemma {:induction false} AnswerPlacesPending(w: World, l: nat, pending: seq<nat>, answers: seq<PlaceAnswer>)
    requires pending != []
    ensures var script := AnswerScript(w, l, pending, answers);
      forall a | a in script :: !a.Insert? && !a.Retype? && (a.Place? ==> a.key in pending)
    decreases |pending|, 0
  {
    if answers != [] && pending[0] < |w.rows| {
      var commit := Update(pending[0], Answered(w.rows[pending[0]], answers[0]));
      SendPlacesPending(Do(w, commit), l, pending[1..], answers[1..]);
      hide Do, UpdateOk;
    }
  }

  lemma {:induction false} CancelRungsAreQuiet(w: World, keys: seq<nat>, answers: map<nat, CancelAnswer>)
    ensures Quiet(CancelRungs(w, keys, answers))
    decreases |keys|
  {
    if keys != [] && keys[0] < |w.rows| {
      var first := CancelRung(keys[0], w.rows[keys[0]], CancelReply(answers, keys[0]));
      CancelRungsAreQuiet(Play(w, first), keys[1..], answers);
    }
  }

  lemma {:induction false} SweepIsQuiet(w: World, stops: seq<Stop>)
    ensures Quiet(SweepScript(w, stops))
    decreases |stops|
  {
    if stops != [] {
      RefreshAtOnlyRow(w, stops[0]);
      hide RefreshAt;
      SweepIsQuiet(Play(w, RefreshAt(w, stops[0])), stops[1..]);
    }
  }

  lemma {:induction false} SettleAllIsQuiet(w: World, live: seq<nat>, unsaved: set<nat>)
    ensures Quiet(SettleAll(w, live, unsaved))
    decreases |live|
  {
    if live != [] {
      hide Play;
      SettleAllIsQuiet(Play(w, if live[0] in unsaved then [] else SettleScript(w, live[0])), live[1..], unsaved);
    }
  }

  lemma ReconcileIsQuiet(w: World, c: Cycle)
    ensures Quiet(ReconcileScript(w, c))
  {
    if LaddersKnown(w) && CycleOk(w, c) {
      hide SweepScript, SettleAll, Play, CycleStops, LiveLadders, ActiveKeys;
      var sweep := SweepScript(w, CycleStops(w, c, c.venues));
      var swept := Play(w, sweep);
      SweepIsQuiet(w, CycleStops(w, c, c.venues));
      SettleAllIsQuiet(swept, LiveLadders(swept.ladders), c.unsaved);
    }
  }

  lemma ResolveFoundIsQuiet(w: World, key: nat, broker: nat, lookup: Lookup)
    ensures Quiet(ResolveFoundScript(w, key, broker, lookup))
  {
    hide Play, Adoptable, UpdateOk, Applied, Notified;
  }

  /** Apart from turning a draft into orders and the keypad, no operation sends, inserts or types over anything. */
  lemma OthersAreQuiet(w: World, op: Op)
    requires !op.SubmitDraft? && !op.Keypad?
    ensures Quiet(Script(w, op))
  {
    match op
    case NewDraft(_) =>
    case EditDraft(_, _) =>
    case CancelLadder(l, canceled) =>
      if l < |w.ladders| {
        CancelRungsAreQuiet(w, OrdersOf(w.rows, l), canceled);
        hide CancelRungs, Play, OrdersOf;
      }
    case CancelOrder(_, _) =>
    case Reconcile(c) =>
      ReconcileIsQuiet(w, c);
      hide ReconcileScript;
    case ResolveFound(key, broker, lookup) =>
      ResolveFoundIsQuiet(w, key, broker, lookup);
      hide ResolveFoundScript;
    case ResolveMissing(key) =>
      hide Play;
  }

  /** Everything a submission sends was waiting to be sent, and everything it inserts was just built. */
  ghost predicate SendsWaiting(w: World, script: seq<Action>) {
    forall a | a in script ::
      && (a.Insert? ==> WellBuilt(a.plan, a.terms))
      && (a.Place? && a.key < |w.rows| ==> w.rows[a.key].status == Prepared)
  }

  lemma SubmitSendsWaiting(w: World, l: nat, answers: seq<PlaceAnswer>)
    ensures forall a | a in SubmitScript(w, l, answers) ::
      !a.Insert? && !a.Retype? && (a.Place? ==> a.key in PreparedOf(w.rows, l))
  {
    if MaySubmit(w, l) {
      SendPlacesPending(Do(w, SaveState(l, StatePlacing, "")), l, PreparedOf(w.rows, l), answers);
      hide MaySubmit, SendScript, PreparedOf, Do;
    }
  }

  lemma InsertedSendsWaiting(w: World, l: nat, plan: Ladder.Plan, terms: Terms, answers: seq<PlaceAnswer>)
    requires WellBuilt(plan, terms)
    ensures SendsWaiting(w, [Insert(l, plan, terms)] + SubmitScript(Do(w, Insert(l, plan, terms)), l, answers))
    ensures forall a | a in [Insert(l, plan, terms)] + SubmitScript(Do(w, Insert(l, plan, terms)), l, answers) :: !a.Retype?
  {
    hide SubmitScript, WellBuilt, PreparedOf, NewOrders;
    var w1 := Do(w, Insert(l, plan, terms));
    SubmitSendsWaiting(w1, l, answers);
    assert forall k | 0 <= k < |w.rows| :: w.rows[k] == w1.rows[k];
    var waiting, rest := PreparedOf(w1.rows, l), SubmitScript(w1, l, answers);
    assert forall k | k in waiting && k < |w.rows| :: w.rows[k].status == Prepared;
    hide Do;
    forall a | a in [Insert(l, plan, terms)] + rest
      ensures !a.Retype? && (a.Insert? ==> WellBuilt(a.plan, a.terms)) && (a.Place? && a.key < |w.rows| ==> w.rows[a.key].status == Prepared)
    {
      assert a == Insert(l, plan, terms) || a in rest;
    }
  }

  lemma SubmitDraftSendsWaiting(
    w: World, l: nat, terms: Terms, powers: Ladder.Powers, answers: seq<PlaceAnswer>)
    ensures SendsWaiting(w, SubmitDraftScript(w, l, terms, powers, answers))
    ensures forall a | a in SubmitDraftScript(w, l, terms, powers, answers) :: !a.Retype?
  {
    hide Ladder.Build, SubmitScript, InsertOk, IsBuilt;
    if l < |w.ladders| && w.ladders[l].state == StateFailed {
      SubmitSendsWaiting(w, l, answers);
      hide PreparedOf;
    } else if l < |w.ladders| && (terms.Ok? || w.ladders[l].spec.side == Sell)
      && Ladder.Build(DraftSpec(w.ladders[l], terms), powers).Ok? {
      var spec := DraftSpec(w.ladders[l], terms);
      BuiltPlanIsNumbered(spec, powers);
      BuiltByBuild(spec, powers);
      assert FeeIsQuoted(spec, terms);
      hide DraftSpec, FeeIsQuoted;
      InsertedSendsWaiting(w, l, Ladder.Build(spec, powers).value, terms, answers);
      hide Numbered, Do;
    }
  }

  lemma BuiltByBuild(s: Ladder.Spec, powers: Ladder.Powers)
    requires Ladder.Build(s, powers).Ok? && Ladder.Build(s, powers).value.spec == s
    ensures IsBuilt(Ladder.Build(s, powers).value)
  {
    hide Ladder.Build;
  }

  lemma TurnSendsWaiting(w: World, turn: Turn)
    ensures SendsWaiting(w, Take(Script(w, turn.op), turn.life))
  {
    hide WellBuilt;
    var script := Script(w, turn.op);
    if turn.op.SubmitDraft? {
      SubmitDraftSendsWaiting(w, turn.op.ladder, turn.op.terms, turn.op.powers, turn.op.placed);
    } else if !turn.op.Keypad? {
      OthersAreQuiet(w, turn.op);
    }
    hide Script;
    assert forall a | a in Take(script, turn.life) :: a in script;
  }

  /** What was asked of the exchanges between two states was waiting to be sent in the first, or did not exist. */
  ghost predicate NewCallsWereWaiting(w: World, w': World) {
    && w.calls <= w'.calls
    && forall i | |w.calls| <= i < |w'.calls| ::
         var key := w'.calls[i].order; key < |w.rows| ==> w.rows[key].status == Prepared
  }

  lemma {:induction false} CallsComeFromPlaces(w: World, script: seq<Action>)
    requires SendsWaiting(w, script)
    ensures NewCallsWereWaiting(w, Play(w, script))
  {
    hide WellBuilt;
    if script != [] {
      var n := |script| - 1;
      assert forall a | a in script[..n] :: a in script;
      CallsComeFromPlaces(w, script[..n]);
      assert script[n] in script;
    }
  }

  lemma NewCallsCompose(w: World, w1: World, w2: World)
    requires Evolves(w, w1) && NewCallsWereWaiting(w, w1) && NewCallsWereWaiting(w1, w2)
    ensures NewCallsWereWaiting(w, w2)
  {
    assert forall k | 0 <= k < |w.rows| :: RowEvolves(w.rows[k], w1.rows[k]);
  }

  lemma {:induction false} RunSendsWaiting(w: World, turns: seq<Turn>)
    requires Inv(w)
    ensures NewCallsWereWaiting(w, Run(w, turns))
    decreases |turns|
  {
    if turns != [] {
      var w1 := Next(w, turns[0]);
      TurnSendsWaiting(w, turns[0]);
      CallsComeFromPlaces(w, Take(Script(w, turns[0].op), turns[0].life));
      TurnIsSafe(w, turns[0]);
      hide Inv, Next, SendsWaiting;
      RunSendsWaiting(w1, turns[1..]);
      NewCallsCompose(w, w1, Run(w1, turns[1..]));
    }
  }

  // ---------- What the keypad can do to a sent ladder ----------

  /** A number was typed for this ladder in one of the turns. */
  ghost predicate TypesOver(turns: seq<Turn>, l: nat) {
    exists i :: 0 <= i < |turns| && turns[i].op.Keypad? && turns[i].op.ladder == l
  }

  lemma OnlyKeypadRetypes(w: World, turn: Turn, l: nat)
    requires !(turn.op.Keypad? && turn.op.ladder == l)
    ensures forall a | a in Take(Script(w, turn.op), turn.life) :: a.Retype? ==> a.ladder != l
  {
    var script := Script(w, turn.op);
    if turn.op.SubmitDraft? {
      SubmitDraftSendsWaiting(w, turn.op.ladder, turn.op.terms, turn.op.powers, turn.op.placed);
    } else if !turn.op.Keypad? {
      OthersAreQuiet(w, turn.op);
    }
    hide Script;
    assert forall a | a in Take(script, turn.life) :: a in script;
  }

  lemma {:induction false} PlayRetypes(w: World, script: seq<Action>, l: nat)
    requires forall a | a in script :: a.Retype? ==> a.ladder != l
    ensures w.retyped <= Play(w, script).retyped && !RetypedSince(w, Play(w, script), l)
  {
    if script != [] {
      var n := |script| - 1;
      assert forall a | a in script[..n] :: a in script;
      PlayRetypes(w, script[..n], l);
      assert script[n] in script;
    }
  }

  lemma {:induction false} OnlyTypingRetypes(w: World, turns: seq<Turn>, l: nat)
    requires !TypesOver(turns, l)
    ensures w.retyped <= Run(w, turns).retyped && !RetypedSince(w, Run(w, turns), l)
    decreases |turns|
  {
    if turns != [] {
      hide Script, Play;
      OnlyKeypadRetypes(w, turns[0], l);
      PlayRetypes(w, Take(Script(w, turns[0].op), turns[0].life), l);
      forall i | 0 <= i < |turns[1..]|
        ensures !(turns[1..][i].op.Keypad? && turns[1..][i].op.ladder == l)
      {
        assert turns[1..][i] == turns[i + 1];
      }
      OnlyTypingRetypes(Next(w, turns[0]), turns[1..], l);
    }
  }

  /** The number, in 10^-18, is now the one of the request's terms it was typed for; a sell keeps only whole units of it. */
  ghost predicate TypedInto(spec: Ladder.Spec, spec': Ladder.Spec, field: Field, value: int) {
    match field
    case FieldBase => spec' == spec.(base := spec'.base) && spec'.base * 10_000_000_000.0 == value as real
    case FieldStart => spec' == spec.(startPct := spec'.startPct) && spec'.startPct * 100_000_000_000_000_000_000.0 == value as real
    case FieldEnd => spec' == spec.(endPct := spec'.endPct) && spec'.endPct * 100_000_000_000_000_000_000.0 == value as real
    case FieldTotal =>
      && spec' == spec.(total := spec'.total)
      && if spec.side == Buy then spec'.total == value
         else spec'.total % UnitSize(spec.venue) == 0 && spec'.total <= value < spec'.total + UnitSize(spec.venue)
  }

  /** A press saves a number that makes sense, which must be positive for a price or a total, and turns any other down. */
  lemma KeypadLeaves(w: World, l: nat, field: Field, value: int)
    ensures var w' := Next(w, Turn(Keypad(l, field, value), 1));
      if l < |w.ladders| && 0 <= value && (field == FieldBase || field == FieldTotal ==> 0 < value)
      then
        && |w'.ladders| == |w.ladders| && TypedInto(w.ladders[l].spec, w'.ladders[l].spec, field, value)
        && w'.ladders == w.ladders[l := w.ladders[l].(spec := w'.ladders[l].spec)]
        && w' == w.(ladders := w'.ladders, retyped := w.retyped + if w.ladders[l].state == StateDraft then [] else [l])
      else w' == w
  {
    var script := KeypadScript(w, l, field, value);
    if l < |w.ladders| {
      TypedNumber(w.ladders[l].spec, field, value);
    }
    if script != [] {
      hide Typed, TypedInto;
      assert Take(script, 1) == [script[0]];
      PlayOne(w, script[0]);
    }
  }

  lemma TypedNumber(spec: Ladder.Spec, field: Field, value: int)
    ensures Typed(spec, field, value).Some? <==> 0 <= value && (field == FieldBase || field == FieldTotal ==> 0 < value)
    ensures Typed(spec, field, value).Some? ==> TypedInto(spec, Typed(spec, field, value).value, field, value)
  {
    assert field == FieldTotal && spec.side == Sell ==> WholeUnits(value, spec.venue);
  }

  ghost predicate WholeUnits(value: int, v: Venue) {
    var total := RoundQuantity(value, v) * UnitSize(v);
    total % UnitSize(v) == 0 && total <= value < total + UnitSize(v)
  }

  /** A draft is started empty-handed, and takes a new request only while it is one, for the venue and side it was started for. */
  lemma DraftingLeaves(w: World, l: nat, spec: Ladder.Spec)
    ensures Next(w, Turn(NewDraft(spec), 1)) == w.(ladders := w.ladders + [LadderRow(spec, StateDraft, "")])
    ensures Next(w, Turn(EditDraft(l, spec), 1)) ==
      if l < |w.ladders| && w.ladders[l].state == StateDraft
        && spec.venue == w.ladders[l].spec.venue && spec.side == w.ladders[l].spec.side
      then w.(ladders := w.ladders[l := w.ladders[l].(spec := spec)])
      else w
  {
    PlayOne(w, Create(spec));
    PlayOne(w, Edit(l, spec));
    assert Take([Create(spec)], 1) == [Create(spec)] && Take([Edit(l, spec)], 1) == [Edit(l, spec)];
  }

  /** One press changes a sent ladder's stored terms exactly when a possible, different number gets saved; no order moves. */
  lemma KeypadRetypesIff(w: World, l: nat, field: Field, value: int, life: nat)
    requires l < |w.ladders| && w.ladders[l].state != StateDraft
    ensures var w', spec := Next(w, Turn(Keypad(l, field, value), life)), w.ladders[l].spec;
      && w'.rows == w.rows && w'.calls == w.calls && |w'.ladders| == |w.ladders|
      && (w'.ladders[l] != w.ladders[l] <==>
            0 < life && Typed(spec, field, value).Some? && Typed(spec, field, value).value != spec)
  {
    var script := KeypadScript(w, l, field, value);
    if script != [] && 0 < life {
      assert Take(script, life) == [script[0]];
      PlayOne(w, script[0]);
    }
    hide Typed;
  }

  lemma {:induction false} RunKeepsBuilt(w: World, turns: seq<Turn>)
    requires Built(w)
    ensures Built(Run(w, turns))
    decreases |turns|
  {
    if turns != [] {
      hide WellBuilt, Script, Built;
      TurnSendsWaiting(w, turns[0]);
      PlayKeepsBuilt(w, Take(Script(w, turns[0].op), turns[0].life));
      RunKeepsBuilt(Next(w, turns[0]), turns[1..]);
    }
  }
}
