/**
  What settling and canceling leave behind (CancelLadder and CancelOrder of internal/orders/executor.go, settle of
  internal/orders/reconcile.go), row by row.
*/
module Withdrawals {
  import opened Wrappers
  import opened Market
  import opened Records
  import opened Protocol
  import opened Steps
  import opened Operations
  import opened Safety
  import opened Submissions
  import CancelSafety
  import Execution
  import Outcomes

  // ---------- Settling ----------

  /** A live ladder none of whose orders can change is closed, as DONE when one of them filled, and nothing else changes. */
  ghost predicate SettledAs(w: World, w': World, l: nat) {
    && w' == w.(ladders := w'.ladders)
    && if l < |w.ladders| && w.ladders[l].state in {StatePlacing, StateOpen, StateFailed}
         && forall k | 0 <= k < |w.rows| && w.rows[k].ladder == l :: w.rows[k].status in {Filled, Canceled, Rejected}
       then
         var filled := exists k :: 0 <= k < |w.rows| && w.rows[k].ladder == l && 0 < w.rows[k].filled;
         w'.ladders == w.ladders[l := w.ladders[l].(state := if filled then StateDone else StateCanceled)]
       else w'.ladders == w.ladders
  }

  lemma SettleLeaves(w: World, l: nat)
    requires RowsOk(w)
    ensures SettledAs(w, Play(w, SettleScript(w, l)), l)
  {
    TotalFillIsSomeFill(w, l);
    StillActiveIff(w, l);
    hide RowsOk, Outcomes.Summarize, RowsOf, AnyActive;
    var script := SettleScript(w, l);
    if script != [] {
      PlayOne(w, script[0]);
      assert script == [script[0]];
      hide Play;
    }
  }

  lemma StillActiveIff(w: World, l: nat)
    ensures !AnyActive(w.rows, l) <==>
      forall k | 0 <= k < |w.rows| && w.rows[k].ladder == l :: w.rows[k].status in {Filled, Canceled, Rejected}
  {
    if !AnyActive(w.rows, l) {
      assert forall k | 0 <= k < |w.rows| && w.rows[k].ladder == l :: !w.rows[k].status.Active();
    }
  }

  // ---------- Canceling ----------

  /** What becomes of one rung when its ladder is canceled and the exchange gives this answer. */
  ghost predicate Withdrawn(r: Order, r': Order, answer: CancelAnswer) {
    match r.status
    case Prepared => r' == r.(status := Canceled, reason := "dropped before it was sent")
    case Sending => r' == r
    case Unknown => r' == r
    case PendingCancel => r' == r
    case Filled => r' == r
    case Canceled => r' == r
    case Rejected => r' == r
    case Pending => Asked(r, r', answer)
    case PartialFilled => Asked(r, r', answer)
  }

  /** A resting rung waits for its cancel exactly when the exchange accepted it; a refusal leaves only its reason. */
  ghost predicate Asked(r: Order, r': Order, answer: CancelAnswer) {
    if r.broker.None? then r' == r
    else if answer == CancelAccepted then r' == r.(status := PendingCancel, reason := "")
    else r' == r.(reason := Trim(answer.reason))
  }

  /** A rung that gets no answer was refused without a word. */
  ghost function AnswerTo(answers: map<nat, CancelAnswer>, k: nat): CancelAnswer {
    if k in answers then answers[k] else CancelRefused("")
  }

  lemma RungLeaves(w: World, k: nat, answer: CancelAnswer)
    requires k < |w.rows|
    ensures var w1 := Play(w, CancelRung(k, w.rows[k], answer));
      && |w1.rows| == |w.rows| && w1 == w.(rows := w.rows[k := w1.rows[k]]) && Withdrawn(w.rows[k], w1.rows[k], answer)
  {
    var script := CancelRung(k, w.rows[k], answer);
    if script != [] {
      var a := script[0];
      assert script == [a];
      PlayOne(w, a);
      hide Play;
    }
  }

  lemma {:induction false} RungsLeave(w: World, keys: seq<nat>, answers: map<nat, CancelAnswer>)
    requires forall i | 0 <= i < |keys| :: keys[i] < |w.rows|
    requires forall i, j | 0 <= i < j < |keys| :: keys[i] < keys[j]
    ensures var w1 := Play(w, CancelRungs(w, keys, answers));
      && w1 == w.(rows := w1.rows) && |w1.rows| == |w.rows|
      && forall k | 0 <= k < |w.rows| ::
           if k in keys then Withdrawn(w.rows[k], w1.rows[k], AnswerTo(answers, k)) else w1.rows[k] == w.rows[k]
    decreases |keys|
  {
    if keys != [] {
      var k := keys[0];
      var first := CancelRung(k, w.rows[k], CancelReply(answers, k));
      var w1 := Play(w, first);
      RungLeaves(w, k, CancelReply(answers, k));
      hide CancelRung, Play, Withdrawn;
      RungsLeave(w1, keys[1..], answers);
      PlayConcat(w, first, CancelRungs(w1, keys[1..], answers));
      assert forall j | j in keys :: j == k || j in keys[1..];
      assert k !in keys[1..];
    }
  }

  /**
    Canceling a ladder whose exchange is connected drops what was never sent, asks for every resting rung to be canceled
    and marks those whose cancel was accepted, leaves rungs in doubt and closed ones alone, and then settles. Without
    the exchange it does nothing.
  */
  lemma CancelLeaves(w: World, l: nat, answers: map<nat, CancelAnswer>) returns (w1: World)
    requires Inv(w)
    ensures var w2 := Play(w, CancelLadderScript(w, l, answers));
      if l < |w.ladders| && w.ladders[l].spec.venue in w.connected then
        && w1 == w.(rows := w1.rows) && |w1.rows| == |w.rows|
        && (forall k | 0 <= k < |w.rows| ::
              if w.rows[k].ladder == l then Withdrawn(w.rows[k], w1.rows[k], AnswerTo(answers, k)) else w1.rows[k] == w.rows[k])
        && SettledAs(w1, w2, l)
      else w2 == w
  {
    w1 := w;
    if l < |w.ladders| && w.ladders[l].spec.venue in w.connected {
      var keys := OrdersOf(w.rows, l);
      RungsLeave(w, keys, answers);
      assert forall k: nat | k < |w.rows| :: k in keys <==> w.rows[k].ladder == l;
      hide OrdersOf, CancelRungs, Play, SettleScript, Withdrawn, SettledAs;
      w1 := Play(w, CancelRungs(w, keys, answers));
      CanceledRowsOk(w, keys, answers);
      SettleLeaves(w1, l);
      PlayConcat(w, CancelRungs(w, keys, answers), SettleScript(w1, l));
    }
  }

  lemma CanceledRowsOk(w: World, keys: seq<nat>, answers: map<nat, CancelAnswer>)
    requires Inv(w)
    ensures RowsOk(Play(w, CancelRungs(w, keys, answers)))
  {
    hide Inv, CancelRungs, Play, Evolves, SafeScript;
    CancelSafety.CancelRungsIsSafe(w, keys, answers);
    SafeScriptIsSafe(w, CancelRungs(w, keys, answers));
    InvHasCalls(Play(w, CancelRungs(w, keys, answers)));
  }

  /** Canceling one rung does for it what canceling the ladder would, but for a refusal, which changes nothing. */
  lemma CancelOneLeaves(w: World, key: nat, answer: CancelAnswer)
    requires key < |w.rows| && LaddersKnown(w)
    ensures var w1, r := Play(w, CancelOrderScript(w, key, answer)), w.rows[key];
      && w1 == w.(rows := w1.rows) && |w1.rows| == |w.rows|
      && (forall k | 0 <= k < |w.rows| && k != key :: w1.rows[k] == w.rows[k])
      && if r.status == Prepared || (Spec(w, key).venue in w.connected && answer == CancelAccepted)
         then Withdrawn(r, w1.rows[key], answer) else w1.rows[key] == r
  {
    var script := CancelOrderScript(w, key, answer);
    if script != [] {
      var a := script[0];
      assert script == [a];
      PlayOne(w, a);
      hide Play;
    }
  }

  // ---------- What the operator is told ----------

  /** Its cancel was asked for and accepted. */
  ghost predicate WasAccepted(w: World, answers: map<nat, CancelAnswer>, k: nat) {
    && k < |w.rows| && (w.rows[k].status == Pending || w.rows[k].status == PartialFilled)
    && w.rows[k].broker.Some? && AnswerTo(answers, k) == CancelAccepted
  }

  /** It was never sent. */
  ghost predicate WasUnsent(w: World, k: nat) {
    k < |w.rows| && w.rows[k].status == Prepared
  }

  /** Nothing can be done about it, since the exchange may hold it under an id that is not known. */
  ghost predicate WasBlocked(w: World, k: nat) {
    && k < |w.rows|
    && (w.rows[k].status == Sending || w.rows[k].status == Unknown
        || ((w.rows[k].status == Pending || w.rows[k].status == PartialFilled) && w.rows[k].broker.None?))
  }

  /** How many orders there are of each kind. */
  ghost function Counts(w: World, keys: seq<nat>, answers: map<nat, CancelAnswer>): Execution.Cancellation {
    Execution.Cancellation(
      |set k | k in keys && WasAccepted(w, answers, k)|,
      |set k | k in keys && WasUnsent(w, k)|,
      |set k | k in keys && WasBlocked(w, k)|)
  }

  ghost function Plus(a: Execution.Cancellation, b: Execution.Cancellation): Execution.Cancellation {
    Execution.Cancellation(a.requested + b.requested, a.dropped + b.dropped, a.blocked + b.blocked)
  }

  lemma OneMore(keys: seq<nat>, some: set<nat>, fewer: set<nat>)
    requires keys != [] && keys[0] !in keys[1..]
    requires forall k | k in some :: k in keys
    requires fewer == set k | k in some && k in keys[1..]
    ensures |some| == |fewer| + if keys[0] in some then 1 else 0
  {
    assert forall k | k in keys :: k == keys[0] || k in keys[1..];
    assert some == fewer + if keys[0] in some then {keys[0]} else {};
  }

  lemma CountsGrow(w: World, keys: seq<nat>, answers: map<nat, CancelAnswer>)
    requires keys != [] && keys[0] !in keys[1..] && keys[0] < |w.rows|
    ensures Counts(w, keys, answers) == Execution.Counted(Counts(w, keys[1..], answers), w.rows[keys[0]], CancelReply(answers, keys[0]))
  {
    var k, rest := keys[0], keys[1..];
    assert k in keys && forall j | j in rest :: j in keys;
    OneMore(keys, set j | j in keys && WasAccepted(w, answers, j), set j | j in rest && WasAccepted(w, answers, j));
    OneMore(keys, set j | j in keys && WasUnsent(w, j), set j | j in rest && WasUnsent(w, j));
    OneMore(keys, set j | j in keys && WasBlocked(w, j), set j | j in rest && WasBlocked(w, j));
    var c := Counts(w, rest, answers);
    assert Counts(w, keys, answers) == Execution.Cancellation(
      c.requested + (if WasAccepted(w, answers, k) then 1 else 0),
      c.dropped + (if WasUnsent(w, k) then 1 else 0),
      c.blocked + (if WasBlocked(w, k) then 1 else 0));
  }

  lemma CountedApart(a: Execution.Cancellation, b: Execution.Cancellation, r: Order, answer: CancelAnswer)
    ensures Execution.Counted(Plus(a, b), r, answer) == Plus(Execution.Counted(a, r, answer), b)
    ensures Execution.Counted(Plus(a, b), r, answer) == Plus(a, Execution.Counted(b, r, answer))
  {
  }

  lemma NoneCounted(w: World, answers: map<nat, CancelAnswer>, c: Execution.Cancellation)
    ensures Plus(c, Counts(w, [], answers)) == c
  {
    assert (set k: nat | k in [] && WasAccepted(w, answers, k)) == {};
    assert (set k: nat | k in [] && WasUnsent(w, k)) == {};
    assert (set k: nat | k in [] && WasBlocked(w, k)) == {};
  }

  /** What CancelLadder reports to the operator is how many orders there are of each kind. */
  lemma {:induction false} TallyCounts(
    w: World, keys: seq<nat>, orders: seq<Order>, answers: map<nat, CancelAnswer>, c: Execution.Cancellation)
    requires |orders| == |keys| && forall i | 0 <= i < |keys| :: keys[i] < |w.rows| && orders[i] == w.rows[keys[i]]
    requires forall i, j | 0 <= i < j < |keys| :: keys[i] < keys[j]
    ensures Execution.Tally(c, keys, orders, answers) == Plus(c, Counts(w, keys, answers))
    decreases |keys|
  {
    hide Counts, Plus, Execution.Counted, CancelReply;
    if keys == [] {
      NoneCounted(w, answers, c);
    } else {
      var r, answer := w.rows[keys[0]], CancelReply(answers, keys[0]);
      CountsGrow(w, keys, answers);
      CountedApart(c, Counts(w, keys[1..], answers), r, answer);
      TallyCounts(w, keys[1..], orders[1..], answers, Execution.Counted(c, r, answer));
    }
  }
}
