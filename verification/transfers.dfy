/**
  Moving assets between the operator's own pocket and the bot's (internal/transfers/transfers.go).

  A record is written before its request leaves and is only marked done on the exchange's word. What the exchange
  itself does is part of the state: each movement it makes is appended to a log, and each request it has turned down
  for good is remembered. A crash may come between any two steps.
*/
module Transfers {
  import opened Wrappers

  datatype Direction = ToCotrader | ToMain

  datatype TransferStatus = Prepared | Sending | Unknown | Done | Failed {
    predicate Outstanding() {
      this == Sending || this == Unknown
    }
  }

  /** One record. Its identifier at the exchange is made from its id, which is its position. Amounts are in 10^-18. */
  datatype Transfer = Transfer(direction: Direction, currency: string, amount: int, status: TransferStatus, reason: string)

  /**
    The table, the requests that left for the exchange in order, the movements the exchange made in order, and the
    requests it will never act on.
  */
  datatype Ledger = Ledger(rows: seq<Transfer>, submits: seq<nat>, moves: seq<nat>, refused: set<nat>)

  datatype Step =
    | Insert(row: Transfer)
    | Save(key: nat, status: TransferStatus, reason: string)
    | Submit(key: nat)
    | Decide(key: nat, moved: bool)

  function Do(l: Ledger, s: Step): Ledger {
    match s
    case Insert(row) => l.(rows := l.rows + [row])
    case Save(key, status, reason) =>
      if key < |l.rows| then l.(rows := l.rows[key := l.rows[key].(status := status, reason := reason)]) else l
    case Submit(key) => l.(submits := l.submits + [key])
    case Decide(key, moved) =>
      if moved then l.(moves := l.moves + [key]) else l.(refused := l.refused + {key})
  }

  /** What is left when the steps are taken for as long as the process lives. */
  function Survive(l: Ledger, steps: seq<Step>, life: nat): Ledger
    decreases |steps|
  {
    if steps == [] || life == 0 then l else Survive(Do(l, steps[0]), steps[1..], life - 1)
  }

  // ---------- What the operations do ----------

  /** How the exchange answered a request: not readably, with a refusal, or by accepting it, perhaps as already done. */
  datatype Answer = Unreadable(reason: string) | Refusal(reason: string) | Accepted(done: bool)

  const PROCESSING := "processing"
  const REPORTED_FAILED := "the exchange recorded a failure"

  predicate NoneOutstanding(rows: seq<Transfer>) {
    forall i | 0 <= i < |rows| :: !rows[i].status.Outstanding()
  }

  function Upper(s: string): (r: string)
    ensures |r| == |s|
    ensures forall i | 0 <= i < |s| :: !('a' <= r[i] <= 'z')
    ensures forall i | 0 <= i < |s| && r[i] != s[i] :: 'a' <= s[i] && s[i] as int - r[i] as int == 32
  {
    seq(|s|, i requires 0 <= i < |s| => if 'a' <= s[i] <= 'z' then s[i] - 'a' + 'A' else s[i])
  }

  function Recorded(key: nat, answer: Answer): Step {
    match answer
    case Unreadable(reason) => Save(key, Unknown, reason)
    case Refusal(reason) => Save(key, Failed, reason)
    case Accepted(done) => if done then Save(key, Done, "") else Save(key, Unknown, PROCESSING)
  }

  /** What the exchange decided while the request was in flight, if it has decided yet. */
  function Verdict(key: nat, decided: Option<bool>): seq<Step> {
    match decided
    case None => []
    case Some(moved) => [Decide(key, moved)]
  }

  /** Record, commit SENDING, submit, commit the outcome; refused while an earlier transfer is unresolved. */
  function SendScript(
    l: Ledger, direction: Direction, currency: string, amount: int, decided: Option<bool>, answer: Answer): seq<Step>
  {
    if amount <= 0 || !NoneOutstanding(l.rows) then []
    else
      var key := |l.rows|;
      [Insert(Transfer(direction, Upper(currency), amount, Prepared, "")), Save(key, Sending, ""), Submit(key)]
      + Verdict(key, decided) + [Recorded(key, answer)]
  }

  datatype Movement = Moving | Finished(done: bool)

  /** The records still to be settled, oldest first. */
  function Unresolved(rows: seq<Transfer>): (keys: seq<nat>)
    ensures forall i | 0 <= i < |keys| :: keys[i] < |rows| && rows[keys[i]].status.Outstanding()
    ensures forall i, j | 0 <= i < j < |keys| :: keys[i] < keys[j]
    ensures forall k | 0 <= k < |rows| && rows[k].status.Outstanding() :: k in keys
  {
    if rows == [] then []
    else
      var n := |rows| - 1;
      if rows[n].status.Outstanding() then Unresolved(rows[..n]) + [n] else Unresolved(rows[..n])
  }

  function SettleOne(key: nat, found: map<nat, Movement>, unsaved: set<nat>): seq<Step> {
    if key !in found || found[key].Moving? || key in unsaved then []
    else if found[key].done then [Save(key, Done, "")]
    else [Save(key, Failed, REPORTED_FAILED)]
  }

  /** A record the history does not show, or shows still moving, stays unresolved; absence proves nothing. */
  function SettleKeys(keys: seq<nat>, found: map<nat, Movement>, unsaved: set<nat>): seq<Step>
    decreases |keys|
  {
    if keys == [] then [] else SettleOne(keys[0], found, unsaved) + SettleKeys(keys[1..], found, unsaved)
  }

  function SettleScript(l: Ledger, found: map<nat, Movement>, unsaved: set<nat>): seq<Step> {
    SettleKeys(Unresolved(l.rows), found, unsaved)
  }

  // ---------- What an uninterrupted operation leaves ----------

  /** What the exchange's answer to a request says of it: only a readable refusal or confirmation settles it. */
  ghost predicate Answered(row: Transfer, answer: Answer) {
    match answer
    case Unreadable(reason) => row.status == Unknown && row.reason == reason
    case Refusal(reason) => row.status == Failed && row.reason == reason
    case Accepted(done) => if done then row.status == Done && row.reason == "" else row.status == Unknown && row.reason == "processing"
  }

  /**
    Sending records one transfer of the amount asked for, asks the exchange for it once, and records the answer; while an
    earlier transfer is unresolved, or without an amount, it does nothing.
  */
  lemma SendLeaves(
    l: Ledger, direction: Direction, currency: string, amount: int, decided: Option<bool>, answer: Answer, life: nat)
    requires 5 <= life
    ensures var l' := Survive(l, SendScript(l, direction, currency, amount, decided, answer), life);
      if 0 < amount && forall k | 0 <= k < |l.rows| :: l.rows[k].status != Sending && l.rows[k].status != Unknown then
        var key := |l.rows|;
        && |l'.rows| == key + 1 && l'.rows[..key] == l.rows
        && l'.rows[key] == Transfer(direction, Upper(currency), amount, l'.rows[key].status, l'.rows[key].reason)
        && Answered(l'.rows[key], answer)
        && l'.submits == l.submits + [key]
        && l'.moves == l.moves + (if decided == Some(true) then [key] else [])
        && l'.refused == l.refused + (if decided == Some(false) then {key} else {})
      else l' == l
  {
    if 0 < amount && NoneOutstanding(l.rows) {
      var key, insert := |l.rows|, Insert(Transfer(direction, Upper(currency), amount, Prepared, ""));
      var sending, submit, tail := Save(key, Sending, ""), Submit(key), Verdict(key, decided) + [Recorded(key, answer)];
      var l3 := Do(Do(Do(l, insert), sending), submit);
      assert l3 == l.(rows := l.rows + [Transfer(direction, Upper(currency), amount, Sending, "")], submits := l.submits + [key]);
      OutcomeLeaves(l3, key, decided, answer, life - 3);
      assert SendScript(l, direction, currency, amount, decided, answer) == [insert] + ([sending] + ([submit] + tail));
      hide Do, Verdict, Recorded, SendScript, Survive;
      SurviveFirst(l, insert, [sending] + ([submit] + tail), life);
      SurviveFirst(Do(l, insert), sending, [submit] + tail, life - 1);
      SurviveFirst(Do(Do(l, insert), sending), submit, tail, life - 2);
    }
  }

  /** The exchange decides, or not yet, and its answer is committed. */
  lemma OutcomeLeaves(l: Ledger, key: nat, decided: Option<bool>, answer: Answer, life: nat)
    requires key < |l.rows| && 2 <= life && l.rows[key].reason == ""
    ensures var l' := Survive(l, Verdict(key, decided) + [Recorded(key, answer)], life);
      && |l'.rows| == |l.rows| && Answered(l'.rows[key], answer)
      && l'.rows == l.rows[key := l.rows[key].(status := l'.rows[key].status, reason := l'.rows[key].reason)]
      && l'.submits == l.submits
      && l'.moves == l.moves + (if decided == Some(true) then [key] else [])
      && l'.refused == l.refused + (if decided == Some(false) then {key} else {})
  {
    var record := Recorded(key, answer);
    assert [record] == [record] + [];
    match decided {
      case None =>
        assert Verdict(key, decided) + [record] == [record] + [];
        SurviveFirst(l, record, [], life);
      case Some(moved) =>
        SurviveFirst(l, Decide(key, moved), [record], life);
        SurviveFirst(Do(l, Decide(key, moved)), record, [], life - 1);
    }
  }

  lemma SurviveFirst(l: Ledger, s: Step, rest: seq<Step>, life: nat)
    requires 0 < life
    ensures Survive(l, [s] + rest, life) == Survive(Do(l, s), rest, life - 1)
  {
    assert ([s] + rest)[1..] == rest;
  }

  /** What settling leaves in one record. */
  ghost predicate SettledAs(row: Transfer, row': Transfer, movement: Option<Movement>, saved: bool) {
    if (row.status == Sending || row.status == Unknown) && saved && movement.Some? && movement.value.Finished?
    then row' == row.(status := if movement.value.done then Done else Failed,
                      reason := if movement.value.done then "" else "the exchange recorded a failure")
    else row' == row
  }

  ghost function In(found: map<nat, Movement>, k: nat): Option<Movement> {
    if k in found then Some(found[k]) else None
  }

  /** The records named are settled as the history shows, and nothing else changes. */
  ghost predicate AllSettled(l: Ledger, l': Ledger, keys: seq<nat>, found: map<nat, Movement>, unsaved: set<nat>) {
    && l' == l.(rows := l'.rows) && |l'.rows| == |l.rows|
    && forall k | 0 <= k < |l.rows| ::
         if k in keys then SettledAs(l.rows[k], l'.rows[k], In(found, k), k !in unsaved) else l'.rows[k] == l.rows[k]
  }

  lemma NoneSettled(l: Ledger, found: map<nat, Movement>, unsaved: set<nat>, life: nat)
    ensures AllSettled(l, Survive(l, [], life), [], found, unsaved)
  {
  }

  lemma OneMoreSettled(l: Ledger, l1: Ledger, l': Ledger, keys: seq<nat>, found: map<nat, Movement>, unsaved: set<nat>)
    requires keys != [] && keys[0] < |l.rows| && keys[0] !in keys[1..] && AllSettled(l1, l', keys[1..], found, unsaved)
    requires |l1.rows| == |l.rows| && l1 == l.(rows := l.rows[keys[0] := l1.rows[keys[0]]])
    requires SettledAs(l.rows[keys[0]], l1.rows[keys[0]], In(found, keys[0]), keys[0] !in unsaved)
    ensures AllSettled(l, l', keys, found, unsaved)
  {
    hide SettledAs, In;
    assert forall k | k in keys :: k == keys[0] || k in keys[1..];
  }

  lemma {:induction false} SettleKeysLeave(l: Ledger, keys: seq<nat>, found: map<nat, Movement>, unsaved: set<nat>, life: nat)
    requires forall i | 0 <= i < |keys| :: keys[i] < |l.rows| && l.rows[keys[i]].status.Outstanding()
    requires forall i, j | 0 <= i < j < |keys| :: keys[i] < keys[j]
    requires |keys| <= life
    ensures AllSettled(l, Survive(l, SettleKeys(keys, found, unsaved), life), keys, found, unsaved)
    decreases |keys|
  {
    hide SettleOne, SettledAs, Do, In, AllSettled, Survive;
    if keys == [] {
      NoneSettled(l, found, unsaved, life);
    } else {
      var key, rest := keys[0], keys[1..];
      var first := SettleOne(key, found, unsaved);
      SettleOneLeaves(l, key, found, unsaved);
      if first == [] {
        assert first + SettleKeys(rest, found, unsaved) == SettleKeys(rest, found, unsaved);
        SettleKeysLeave(l, rest, found, unsaved, life);
        OneMoreSettled(l, l, Survive(l, SettleKeys(rest, found, unsaved), life), keys, found, unsaved);
      } else {
        FirstIsPlayed(l, first, SettleKeys(rest, found, unsaved), life);
        var l1 := Do(l, first[0]);
        SettleKeysLeave(l1, rest, found, unsaved, life - 1);
        OneMoreSettled(l, l1, Survive(l1, SettleKeys(rest, found, unsaved), life - 1), keys, found, unsaved);
      }
    }
  }

  lemma FirstIsPlayed(l: Ledger, first: seq<Step>, rest: seq<Step>, life: nat)
    requires |first| == 1 && 0 < life
    ensures Survive(l, first + rest, life) == Survive(Do(l, first[0]), rest, life - 1)
  {
    assert first == [first[0]];
    SurviveFirst(l, first[0], rest, life);
  }

  lemma SettleOneLeaves(l: Ledger, key: nat, found: map<nat, Movement>, unsaved: set<nat>)
    requires key < |l.rows| && l.rows[key].status.Outstanding()
    ensures var steps := SettleOne(key, found, unsaved);
      if steps == [] then SettledAs(l.rows[key], l.rows[key], In(found, key), key !in unsaved)
      else
        && |steps| == 1
        && var l' := Do(l, steps[0]);
        && |l'.rows| == |l.rows| && l' == l.(rows := l.rows[key := l'.rows[key]])
        && SettledAs(l.rows[key], l'.rows[key], In(found, key), key !in unsaved)
  {
  }

  /** Settling closes each unresolved record whose end the history shows, as it ended, and touches no other. */
  lemma SettleLeaves(l: Ledger, found: map<nat, Movement>, unsaved: set<nat>, life: nat)
    requires |Unresolved(l.rows)| <= life
    ensures var l' := Survive(l, SettleScript(l, found, unsaved), life);
      && l' == l.(rows := l'.rows) && |l'.rows| == |l.rows|
      && forall k | 0 <= k < |l.rows| :: SettledAs(l.rows[k], l'.rows[k], In(found, k), k !in unsaved)
  {
    var keys := Unresolved(l.rows);
    hide Unresolved;
    SettleKeysLeave(l, keys, found, unsaved, life);
    hide SettleKeys, Survive;
    assert forall k: nat | k < |l.rows| && k !in keys :: !l.rows[k].status.Outstanding();
  }

  // ---------- What holds after every step ----------

  ghost predicate RowOk(l: Ledger, k: nat)
    requires k < |l.rows|
  {
    && 0 < l.rows[k].amount
    && match l.rows[k].status
       case Prepared => k !in l.submits
       case Sending => true
       case Unknown => k in l.submits
       case Done => k in l.moves
       case Failed => k in l.refused
  }

  ghost predicate OneOutstanding(rows: seq<Transfer>) {
    forall i, j | 0 <= i < j < |rows| :: !(rows[i].status.Outstanding() && rows[j].status.Outstanding())
  }

  ghost predicate Distinct(keys: seq<nat>) {
    forall i, j | 0 <= i < j < |keys| :: keys[i] != keys[j]
  }

  ghost predicate Inv(l: Ledger) {
    && (forall k | 0 <= k < |l.rows| :: RowOk(l, k))
    && OneOutstanding(l.rows)
    && Distinct(l.submits) && (forall k | k in l.submits :: k < |l.rows|)
    && Distinct(l.moves) && (forall k | k in l.moves :: k in l.submits && k !in l.refused)
    && (forall k | k in l.refused :: k in l.submits)
  }

  /** A record that is settled never changes, no record or request disappears, and no movement is undone. */
  ghost predicate Evolves(l: Ledger, l': Ledger) {
    && |l.rows| <= |l'.rows| && l.submits <= l'.submits && l.moves <= l'.moves && l.refused <= l'.refused
    && forall k | 0 <= k < |l.rows| ::
         && l'.rows[k] == l.rows[k].(status := l'.rows[k].status, reason := l'.rows[k].reason)
         && (l.rows[k].status == Done || l.rows[k].status == Failed ==> l'.rows[k] == l.rows[k])
  }

  ghost predicate Safe(l: Ledger, s: Step) {
    match s
    case Insert(row) => row.status == Prepared && 0 < row.amount
    case Save(key, status, _) =>
      && key < |l.rows|
      && (match status
          case Prepared => false
          case Sending => l.rows[key].status == Prepared && NoneOutstanding(l.rows)
          case Unknown => l.rows[key].status == Sending && key in l.submits
          case Done => l.rows[key].status.Outstanding() && key in l.moves
          case Failed => l.rows[key].status.Outstanding() && key in l.refused)
    case Submit(key) => key < |l.rows| && l.rows[key].status == Sending && key !in l.submits
    case Decide(key, _) => key in l.submits && key !in l.moves && key !in l.refused
  }

  lemma SafeStep(l: Ledger, s: Step)
    requires Inv(l) && Safe(l, s)
    ensures Inv(Do(l, s)) && Evolves(l, Do(l, s))
  {
    var l' := Do(l, s);
    forall k | 0 <= k < |l'.rows|
      ensures RowOk(l', k)
    {
      if k < |l.rows| {
        assert RowOk(l, k);
      }
    }
  }

  ghost predicate SafeScript(l: Ledger, steps: seq<Step>)
    decreases |steps|
  {
    steps == [] || (Safe(l, steps[0]) && SafeScript(Do(l, steps[0]), steps[1..]))
  }

  lemma {:induction false} SafeSurvival(l: Ledger, steps: seq<Step>, life: nat)
    requires Inv(l) && SafeScript(l, steps)
    ensures Inv(Survive(l, steps, life)) && Evolves(l, Survive(l, steps, life))
    decreases |steps|
  {
    if steps != [] && 0 < life {
      SafeStep(l, steps[0]);
      SafeSurvival(Do(l, steps[0]), steps[1..], life - 1);
    }
  }

  // ---------- Every operation, wherever it is cut, against an exchange that keeps its word ----------

  datatype Op =
    | Send(direction: Direction, currency: string, amount: int, decided: Option<bool>, answer: Answer)
    | Settle(found: map<nat, Movement>, unsaved: set<nat>)
    | Exchange(key: nat, moved: bool)

  datatype Turn = Turn(op: Op, life: nat)

  function Script(l: Ledger, op: Op): seq<Step> {
    match op
    case Send(direction, currency, amount, decided, answer) => SendScript(l, direction, currency, amount, decided, answer)
    case Settle(found, unsaved) => SettleScript(l, found, unsaved)
    case Exchange(key, moved) => [Decide(key, moved)]
  }

  /**
    The exchange's part: it confirms only what it has moved, refuses definitely only what it will never move, reports
    in its history what it did, and decides a request it has received once.
  */
  ghost predicate Honest(l: Ledger, op: Op) {
    match op
    case Send(_, _, _, decided, answer) =>
      && (answer == Accepted(true) ==> decided == Some(true))
      && (answer.Refusal? ==> decided == Some(false))
    case Settle(found, _) =>
      forall k | k in found && found[k].Finished? :: if found[k].done then k in l.moves else k in l.refused
    case Exchange(key, _) => key in l.submits && key !in l.moves && key !in l.refused
  }

  function Next(l: Ledger, turn: Turn): Ledger {
    Survive(l, Script(l, turn.op), turn.life)
  }

  function Run(l: Ledger, turns: seq<Turn>): Ledger
    decreases |turns|
  {
    if turns == [] then l else Run(Next(l, turns[0]), turns[1..])
  }

  ghost predicate HonestRun(l: Ledger, turns: seq<Turn>)
    decreases |turns|
  {
    turns == [] || (Honest(l, turns[0].op) && HonestRun(Next(l, turns[0]), turns[1..]))
  }

  const EMPTY := Ledger([], [], [], {})

  lemma SafeFirst(l: Ledger, s: Step, rest: seq<Step>)
    requires Safe(l, s) && SafeScript(Do(l, s), rest)
    ensures SafeScript(l, [s] + rest)
  {
    assert ([s] + rest)[1..] == rest;
    hide Do, Safe;
  }

  lemma OutcomeIsSafe(l: Ledger, key: nat, decided: Option<bool>, answer: Answer)
    requires Inv(l) && key < |l.rows| && l.rows[key].status == Sending
    requires key in l.submits && key !in l.moves && key !in l.refused
    requires answer == Accepted(true) ==> decided == Some(true)
    requires answer.Refusal? ==> decided == Some(false)
    ensures SafeScript(l, Verdict(key, decided) + [Recorded(key, answer)])
  {
    var record := Recorded(key, answer);
    match decided
    case None =>
      assert Verdict(key, decided) + [record] == [record];
    case Some(moved) =>
      var l1 := Do(l, Decide(key, moved));
      assert Safe(l1, record);
      SafeFirst(l, Decide(key, moved), [record]);
  }

  lemma SendIsSafe(l: Ledger, direction: Direction, currency: string, amount: int, decided: Option<bool>, answer: Answer)
    requires Inv(l)
    requires answer == Accepted(true) ==> decided == Some(true)
    requires answer.Refusal? ==> decided == Some(false)
    ensures SafeScript(l, SendScript(l, direction, currency, amount, decided, answer))
  {
    if 0 < amount && NoneOutstanding(l.rows) {
      var key := |l.rows|;
      var insert, sending, submit :=
        Insert(Transfer(direction, Upper(currency), amount, Prepared, "")), Save(key, Sending, ""), Submit(key);
      var tail := Verdict(key, decided) + [Recorded(key, answer)];
      var l1 := Do(l, insert);
      var l2 := Do(l1, sending);
      var l3 := Do(l2, submit);
      assert key !in l.submits && key !in l.moves && key !in l.refused;
      assert l3 == l.(rows := l.rows + [Transfer(direction, Upper(currency), amount, Sending, "")], submits := l.submits + [key]);
      assert Safe(l, insert) && Safe(l1, sending) && Safe(l2, submit);
      hide Inv, Safe, Do, SafeScript;
      SafeStep(l, insert);
      SafeStep(l1, sending);
      SafeStep(l2, submit);
      OutcomeIsSafe(l3, key, decided, answer);
      SafeFirst(l2, submit, tail);
      SafeFirst(l1, sending, [submit] + tail);
      SafeFirst(l, insert, [sending] + ([submit] + tail));
      assert [insert, sending, submit] + Verdict(key, decided) + [Recorded(key, answer)] == [insert] + ([sending] + ([submit] + tail));
    }
  }

  lemma {:induction false} SettleIsSafe(l: Ledger, keys: seq<nat>, found: map<nat, Movement>, unsaved: set<nat>)
    requires Inv(l)
    requires forall i | 0 <= i < |keys| :: keys[i] < |l.rows| && l.rows[keys[i]].status.Outstanding()
    requires forall i, j | 0 <= i < j < |keys| :: keys[i] < keys[j]
    requires forall k | k in found && found[k].Finished? :: if found[k].done then k in l.moves else k in l.refused
    ensures SafeScript(l, SettleKeys(keys, found, unsaved))
    decreases |keys|
  {
    if keys != [] {
      var first := SettleOne(keys[0], found, unsaved);
      var rest := SettleKeys(keys[1..], found, unsaved);
      if first == [] {
        assert first + rest == rest;
        SettleIsSafe(l, keys[1..], found, unsaved);
      } else {
        SafeStep(l, first[0]);
        SettleIsSafe(Do(l, first[0]), keys[1..], found, unsaved);
        SafeFirst(l, first[0], rest);
        assert first == [first[0]];
      }
    }
  }

  lemma TurnIsSafe(l: Ledger, turn: Turn)
    requires Inv(l) && Honest(l, turn.op)
    ensures Inv(Next(l, turn)) && Evolves(l, Next(l, turn))
  {
    match turn.op {
      case Send(direction, currency, amount, decided, answer) => SendIsSafe(l, direction, currency, amount, decided, answer);
      case Settle(found, unsaved) => SettleIsSafe(l, Unresolved(l.rows), found, unsaved);
      case Exchange(key, moved) =>
    }
    hide Inv, Safe, Do, Evolves;
    SafeSurvival(l, Script(l, turn.op), turn.life);
  }

  /** The invariant holds after every run, and nothing settled is ever reopened. */
  lemma {:induction false} RunIsSafe(l: Ledger, turns: seq<Turn>)
    requires Inv(l) && HonestRun(l, turns)
    ensures Inv(Run(l, turns)) && Evolves(l, Run(l, turns))
    decreases |turns|
  {
    if turns != [] {
      hide Inv, Next, Honest;
      TurnIsSafe(l, turns[0]);
      RunIsSafe(Next(l, turns[0]), turns[1..]);
    }
  }

  // ---------- Where the assets are ----------

  /** What a transfer adds to the bot's pocket, and so takes from the operator's. */
  ghost function Signed(t: Transfer, currency: string): int {
    if t.currency != currency then 0 else if t.direction == ToCotrader then t.amount else -t.amount
  }

  /** What the exchange has really moved into the bot's pocket. */
  ghost function Actual(rows: seq<Transfer>, moves: seq<nat>, currency: string): int
    requires forall k | k in moves :: k < |rows|
  {
    if moves == [] then 0
    else
      var n := |moves| - 1;
      assert forall k | k in moves[..n] :: k in moves;
      assert moves[n] in moves;
      Actual(rows, moves[..n], currency) + Signed(rows[moves[n]], currency)
  }

  /** What the records say has been moved. */
  ghost function OnRecord(rows: seq<Transfer>, currency: string): int {
    if rows == [] then 0
    else
      var n := |rows| - 1;
      OnRecord(rows[..n], currency) + if rows[n].status == Done then Signed(rows[n], currency) else 0
  }

  ghost function NetOf(rows: seq<Transfer>, keys: set<nat>, currency: string): int {
    if rows == [] then 0
    else
      var n := |rows| - 1;
      NetOf(rows[..n], keys, currency) + if n in keys then Signed(rows[n], currency) else 0
  }

  ghost function SetOf(keys: seq<nat>): set<nat> {
    set k | k in keys
  }

  lemma {:induction false} NetWithOneMore(rows: seq<Transfer>, keys: set<nat>, k: nat, currency: string)
    requires k !in keys
    ensures NetOf(rows, keys + {k}, currency) == NetOf(rows, keys, currency) + if k < |rows| then Signed(rows[k], currency) else 0
  {
    if rows != [] {
      NetWithOneMore(rows[..|rows| - 1], keys, k, currency);
    }
  }

  lemma {:induction false} NetOfNothing(rows: seq<Transfer>, currency: string)
    ensures NetOf(rows, {}, currency) == 0
  {
    if rows != [] {
      NetOfNothing(rows[..|rows| - 1], currency);
    }
  }

  /** As nothing moves twice, what moved is what the rows that moved are worth. */
  lemma {:induction false} MovesAreRows(rows: seq<Transfer>, moves: seq<nat>, currency: string)
    requires Distinct(moves) && forall k | k in moves :: k < |rows|
    ensures Actual(rows, moves, currency) == NetOf(rows, SetOf(moves), currency)
  {
    if moves == [] {
      NetOfNothing(rows, currency);
      assert SetOf(moves) == {};
    } else {
      var n := |moves| - 1;
      assert forall k | k in moves[..n] :: k in moves;
      assert moves == moves[..n] + [moves[n]];
      assert moves[n] !in SetOf(moves[..n]);
      MovesAreRows(rows, moves[..n], currency);
      NetWithOneMore(rows, SetOf(moves[..n]), moves[n], currency);
      assert SetOf(moves) == SetOf(moves[..n]) + {moves[n]};
    }
  }

  /** What has moved although no record says so yet. */
  ghost function Unrecorded(rows: seq<Transfer>, keys: set<nat>, currency: string): int {
    if rows == [] then 0
    else
      var n := |rows| - 1;
      Unrecorded(rows[..n], keys, currency)
      + if rows[n].status.Outstanding() && n in keys then Signed(rows[n], currency) else 0
  }

  lemma {:induction false} NetIsRecordedOrNot(rows: seq<Transfer>, keys: set<nat>, currency: string)
    requires forall k | 0 <= k < |rows| :: (rows[k].status == Done ==> k in keys) && (k in keys ==> rows[k].status == Done || rows[k].status.Outstanding())
    ensures NetOf(rows, keys, currency) == OnRecord(rows, currency) + Unrecorded(rows, keys, currency)
  {
    if rows != [] {
      NetIsRecordedOrNot(rows[..|rows| - 1], keys, currency);
    }
  }

  lemma {:induction false} NothingUnrecorded(rows: seq<Transfer>, keys: set<nat>, currency: string)
    requires NoneOutstanding(rows)
    ensures Unrecorded(rows, keys, currency) == 0
  {
    if rows != [] {
      NothingUnrecorded(rows[..|rows| - 1], keys, currency);
    }
  }

  lemma {:induction false} OnlyOneUnrecorded(rows: seq<Transfer>, keys: set<nat>, currency: string, k: nat)
    requires k < |rows| && rows[k].status.Outstanding() && OneOutstanding(rows)
    ensures Unrecorded(rows, keys, currency) == if k in keys then Signed(rows[k], currency) else 0
  {
    var n := |rows| - 1;
    if k == n {
      NothingUnrecorded(rows[..n], keys, currency);
    } else {
      OnlyOneUnrecorded(rows[..n], keys, currency, k);
    }
  }

  lemma MovedIsDoneOrOutstanding(l: Ledger)
    requires Inv(l)
    ensures forall k | 0 <= k < |l.rows| ::
      (l.rows[k].status == Done ==> k in l.moves) && (k in l.moves ==> l.rows[k].status == Done || l.rows[k].status.Outstanding())
  {
    forall k | 0 <= k < |l.rows|
      ensures (l.rows[k].status == Done ==> k in l.moves) && (k in l.moves ==> l.rows[k].status == Done || l.rows[k].status.Outstanding())
    {
      assert RowOk(l, k);
    }
  }

  /**
    What the records say and what the exchange moved agree, but for the one transfer that may still be outstanding,
    and only if that one has in fact moved.
  */
  lemma RecordsMatchTheExchange(turns: seq<Turn>, currency: string)
    requires HonestRun(EMPTY, turns)
    ensures var l := Run(EMPTY, turns);
      && (forall k | k in l.moves :: k < |l.rows|)
      && (NoneOutstanding(l.rows) ==> Actual(l.rows, l.moves, currency) == OnRecord(l.rows, currency))
      && forall k | 0 <= k < |l.rows| && l.rows[k].status.Outstanding() ::
           Actual(l.rows, l.moves, currency) == OnRecord(l.rows, currency) + if k in l.moves then Signed(l.rows[k], currency) else 0
  {
    RunIsSafe(EMPTY, turns);
    var l := Run(EMPTY, turns);
    hide Run, HonestRun;
    MovedIsDoneOrOutstanding(l);
    MovesAreRows(l.rows, l.moves, currency);
    NetIsRecordedOrNot(l.rows, SetOf(l.moves), currency);
    if NoneOutstanding(l.rows) {
      NothingUnrecorded(l.rows, SetOf(l.moves), currency);
    }
    forall k | 0 <= k < |l.rows| && l.rows[k].status.Outstanding()
      ensures Actual(l.rows, l.moves, currency) == OnRecord(l.rows, currency) + if k in l.moves then Signed(l.rows[k], currency) else 0
    {
      OnlyOneUnrecorded(l.rows, SetOf(l.moves), currency, k);
    }
  }

  /** At most one transfer is outstanding; each is submitted and moved at most once; a settled record tells the truth. */
  lemma TransfersAreTrue(turns: seq<Turn>)
    requires HonestRun(EMPTY, turns)
    ensures var l := Run(EMPTY, turns);
      && (forall i, j | 0 <= i < j < |l.rows| :: !(l.rows[i].status.Outstanding() && l.rows[j].status.Outstanding()))
      && (forall i, j | 0 <= i < j < |l.submits| :: l.submits[i] != l.submits[j])
      && (forall i, j | 0 <= i < j < |l.moves| :: l.moves[i] != l.moves[j])
      && (forall k | 0 <= k < |l.rows| && l.rows[k].status == Done :: k in l.moves)
      && (forall k | 0 <= k < |l.rows| && (l.rows[k].status == Prepared || l.rows[k].status == Failed) :: k !in l.moves)
  {
    RunIsSafe(EMPTY, turns);
    MovedIsDoneOrOutstanding(Run(EMPTY, turns));
    hide Run, HonestRun;
  }
}
