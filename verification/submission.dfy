/**
  What sending a ladder leaves behind (Submit of internal/orders/executor.go), said of the tables and the requests
  alone: which rungs went out, what their rows say, and what the ladder says.
*/
module Submissions {
  import opened Wrappers
  import opened Market
  import opened Records
  import opened Protocol
  import opened Operations
  import opened Runs
  import opened Guarantees
  import Execution
  import Ladder
  import Safety
  import Steps

  /** The id is one that the table holds already, or one of the first n answers gave. */
  ghost predicate Clashes(w: World, answers: seq<PlaceAnswer>, n: nat, broker: nat)
    requires n <= |answers|
  {
    || (exists k :: 0 <= k < |w.rows| && w.rows[k].broker == Some(broker))
    || (exists i :: 0 <= i < n && answers[i] == Accepted(broker))
  }

  /** The i-th rung's request was accepted, under an id of its own. */
  ghost predicate Goes(w: World, answers: seq<PlaceAnswer>, i: nat) {
    i < |answers| && answers[i].Accepted? && !Clashes(w, answers, i, answers[i].broker)
  }

  /** The first n rungs were sent and confirmed, and no more. */
  ghost predicate GoesUpTo(w: World, waiting: nat, answers: seq<PlaceAnswer>, n: nat) {
    && n <= waiting
    && (forall i | 0 <= i < n :: Goes(w, answers, i))
    && (n < waiting ==> !Goes(w, answers, n))
  }

  /** The request asks for just what the row says, where its ladder says. */
  ghost predicate AsksFor(w: World, call: Call, key: nat) {
    && key < |w.rows| && w.rows[key].ladder < |w.ladders|
    && var r, spec := w.rows[key], Spec(w, key);
    && call.order == key && call.ladder == r.ladder && call.rung == r.rung && call.price == r.price && call.quantity == r.quantity
    && call.venue == spec.venue && call.symbol == spec.symbol && call.side == spec.side
  }

  /** One request for each of the keys, in their order, and no other. */
  ghost predicate AskedInOrder(w: World, w': World, keys: seq<nat>) {
    && |w'.calls| == |w.calls| + |keys| && w.calls <= w'.calls
    && forall i | 0 <= i < |keys| :: AsksFor(w, w'.calls[|w.calls| + i], keys[i])
  }

  /** The row of a rung whose request was the first not to be confirmed: in flight, in doubt, or refused. */
  ghost predicate Halted(r: Order, r': Order, answers: seq<PlaceAnswer>, n: nat) {
    if n < |answers| && answers[n].Refused?
    then r' == r.(status := r'.status, reason := r'.reason)
      && r'.status == (if answers[n].ambiguous then Unknown else Rejected) && r'.reason == Trim(answers[n].reason)
    else r' == r.(status := Sending)
  }

  /** The first n rungs are confirmed, the next one is not, and everything else is as it was. */
  ghost predicate RowsSent(w: World, w': World, pending: seq<nat>, answers: seq<PlaceAnswer>, n: nat) {
    && |w'.rows| == |w.rows| && n <= |pending| && n <= |answers|
    && (forall i | 0 <= i < |pending| :: pending[i] < |w.rows|)
    && (forall i | 0 <= i < n ::
          && answers[i].Accepted?
          && w'.rows[pending[i]] == w.rows[pending[i]].(broker := Some(answers[i].broker), status := Pending, reason := ""))
    && (n < |pending| ==> Halted(w.rows[pending[n]], w'.rows[pending[n]], answers, n))
    && forall k | 0 <= k < |w.rows| && (forall i | 0 <= i <= n && i < |pending| :: pending[i] != k) :: w'.rows[k] == w.rows[k]
  }

  /**
    The ladder is OPEN when every rung went, FAILED with the reason when one was refused, and still PLACING when the run
    never got an answer, or one the table would not take. A refusal without a word counts as no reason to stop.
  */
  ghost predicate LadderSent(w: World, w': World, l: nat, waiting: nat, answers: seq<PlaceAnswer>, n: nat) {
    && l < |w.ladders| && |w'.ladders| == |w.ladders|
    && (forall m | 0 <= m < |w.ladders| && m != l :: w'.ladders[m] == w.ladders[m])
    && w'.ladders[l] == w.ladders[l].(state := w'.ladders[l].state, reason := w'.ladders[l].reason)
    && var state, reason := w'.ladders[l].state, w'.ladders[l].reason;
    if n == waiting then state == StateOpen && reason == ""
    else if n < |answers| && answers[n].Refused? then
      reason == Trim(answers[n].reason) && state == if answers[n].reason == "" then StateOpen else StateFailed
    else state == w.ladders[l].state && reason == w.ladders[l].reason
  }

  /** The rungs whose requests left: those confirmed and the one that was not. */
  ghost function Asked(pending: seq<nat>, n: nat): seq<nat> {
    if n < |pending| then pending[..n + 1] else pending
  }

  /** Everything a run of sending changes. */
  ghost predicate SentAs(w: World, w': World, l: nat, pending: seq<nat>, answers: seq<PlaceAnswer>, n: nat) {
    && RowsSent(w, w', pending, answers, n)
    && LadderSent(w, w', l, |pending|, answers, n)
    && AskedInOrder(w, w', Asked(pending, n))
    && w' == w.(rows := w'.rows, ladders := w'.ladders, calls := w'.calls)
  }

  // ---------- The script, played ----------

  /** The rungs are of this ladder, in order, and none of them has an exchange id. */
  ghost predicate Waiting(w: World, l: nat, pending: seq<nat>) {
    && l < |w.ladders|
    && (forall i | 0 <= i < |pending| ::
          pending[i] < |w.rows| && w.rows[pending[i]].ladder == l && w.rows[pending[i]].broker.None?)
    && forall i, j | 0 <= i < j < |pending| :: pending[i] < pending[j]
  }

  /** The tables once a rung is in flight. */
  ghost function InFlight(w: World, key: nat): World
    requires key < |w.rows|
  {
    Do(Do(w, Update(key, Sent(w.rows[key]))), Place(key))
  }

  lemma FlightLeaves(w: World, l: nat, pending: seq<nat>)
    requires Waiting(w, l, pending) && pending != []
    ensures var w2 := InFlight(w, pending[0]);
      && w2.rows == w.rows[pending[0] := w.rows[pending[0]].(status := Sending)]
      && AskedInOrder(w, w2, [pending[0]])
      && w2 == w.(rows := w2.rows, calls := w2.calls)
  {
  }

  lemma FirstStep(w: World, l: nat, pending: seq<nat>, answers: seq<PlaceAnswer>)
    requires pending != [] && pending[0] < |w.rows|
    ensures Play(w, SendScript(w, l, pending, answers))
      == Play(InFlight(w, pending[0]), AnswerScript(InFlight(w, pending[0]), l, pending, answers))
  {
    var commit, place := Update(pending[0], Sent(w.rows[pending[0]])), Place(pending[0]);
    var rest := AnswerScript(InFlight(w, pending[0]), l, pending, answers);
    hide AnswerScript, Do, Play;
    Safety.PlayFirst(w, commit, [place] + rest);
    Safety.PlayFirst(Do(w, commit), place, rest);
  }

  /** The index takes the answer exactly when the id is new. */
  lemma FreshIsTaken(w: World, l: nat, pending: seq<nat>, answers: seq<PlaceAnswer>)
    requires Waiting(w, l, pending) && pending != [] && answers != [] && answers[0].Accepted?
    ensures var key, w2 := pending[0], InFlight(w, pending[0]);
      Goes(w, answers, 0) <==> UpdateOk(w2, key, Answered(w2.rows[key], answers[0]))
  {
    var key, broker := pending[0], answers[0].broker;
    FlightLeaves(w, l, pending);
    WaitingIsUnlinked(w, l, pending);
    hide Waiting, AskedInOrder, InFlight;
    var w2 := InFlight(w, key);
    assert Answered(w2.rows[key], answers[0]).broker == Some(broker);
    assert forall k | 0 <= k < |w.rows| && k != key :: w2.rows[k] == w.rows[k];
    if k :| 0 <= k < |w.rows| && w.rows[k].broker == Some(broker) {
      assert w2.rows[k].broker == Some(broker);
    }
  }

  lemma WaitingIsUnlinked(w: World, l: nat, pending: seq<nat>)
    requires Waiting(w, l, pending) && pending != []
    ensures pending[0] < |w.rows| && w.rows[pending[0]].broker.None? && w.rows[pending[0]].ladder == l < |w.ladders|
  {
  }

  lemma PlayTwo(w: World, a: Action, b: Action)
    ensures Play(w, [a, b]) == Do(Do(w, a), b)
  {
    assert [a, b] == [a] + [b];
    Safety.PlayFirst(w, a, [b]);
    PlayOne(Do(w, a), b);
  }

  /** The run ends at a first rung that does not go. */
  lemma HaltLeaves(w: World, l: nat, pending: seq<nat>, answers: seq<PlaceAnswer>)
    requires Waiting(w, l, pending) && pending != [] && !Goes(w, answers, 0)
    ensures var w2, r := InFlight(w, pending[0]), w.rows[pending[0]];
      Play(w, SendScript(w, l, pending, answers)) ==
        if answers != [] && answers[0].Refused? then
          var reason := Trim(answers[0].reason);
          w2.(rows := w2.rows[pending[0] := r.(status := if answers[0].ambiguous then Unknown else Rejected, reason := reason)],
              ladders := w2.ladders[l := w2.ladders[l].(state := if reason == "" then StateOpen else StateFailed, reason := reason)])
        else w2
  {
    var key, w2 := pending[0], InFlight(w, pending[0]);
    WaitingIsUnlinked(w, l, pending);
    FirstStep(w, l, pending, answers);
    FlightLeaves(w, l, pending);
    hide SendScript, Waiting, AskedInOrder, InFlight;
    if answers != [] && answers[0].Refused? {
      PlayTwo(w2, Update(key, Answered(w2.rows[key], answers[0])), AfterRun(l, Trim(answers[0].reason)));
      assert AnswerScript(w2, l, pending, answers) == [Update(key, Answered(w2.rows[key], answers[0])), AfterRun(l, Trim(answers[0].reason))];
      hide Play, Goes;
    } else if answers != [] {
      FreshIsTaken(w, l, pending, answers);
      hide UpdateOk, Goes;
      assert AnswerScript(w2, l, pending, answers) == [];
    }
  }

  lemma FirstHalts(w: World, l: nat, pending: seq<nat>, answers: seq<PlaceAnswer>)
    requires Waiting(w, l, pending) && pending != [] && !Goes(w, answers, 0)
    ensures SentAs(w, Play(w, SendScript(w, l, pending, answers)), l, pending, answers, 0)
  {
    WaitingIsUnlinked(w, l, pending);
    FlightLeaves(w, l, pending);
    HaltLeaves(w, l, pending, answers);
    assert pending[..1] == [pending[0]];
    PendingIsThere(w, l, pending);
    var w' := Play(w, SendScript(w, l, pending, answers));
    hide SendScript, Play, Waiting, InFlight, Goes, AsksFor;
    assert RowsSent(w, w', pending, answers, 0) by {
      hide AskedInOrder;
    }
    hide RowsSent;
    assert LadderSent(w, w', l, |pending|, answers, 0) by {
      hide AskedInOrder;
    }
    hide LadderSent;
  }

  lemma PendingIsThere(w: World, l: nat, pending: seq<nat>)
    requires Waiting(w, l, pending)
    ensures forall i | 0 <= i < |pending| :: pending[i] < |w.rows|
  {
  }

  /** The tables once the first rung is confirmed. */
  ghost function Confirmed(w: World, key: nat, broker: nat): World
    requires key < |w.rows|
  {
    var w2 := InFlight(w, key);
    w2.(rows := w.rows[key := w.rows[key].(broker := Some(broker), status := Pending, reason := "")])
  }

  lemma FirstGoes(w: World, l: nat, pending: seq<nat>, answers: seq<PlaceAnswer>)
    requires Waiting(w, l, pending) && pending != [] && Goes(w, answers, 0)
    ensures pending[0] < |w.rows|
    ensures var w3 := Confirmed(w, pending[0], answers[0].broker);
      && Play(w, SendScript(w, l, pending, answers)) == Play(w3, SendScript(w3, l, pending[1..], answers[1..]))
      && Waiting(w3, l, pending[1..])
  {
    var key, w2 := pending[0], InFlight(w, pending[0]);
    WaitingIsUnlinked(w, l, pending);
    FirstStep(w, l, pending, answers);
    FlightLeaves(w, l, pending);
    FreshIsTaken(w, l, pending, answers);
    StillWaiting(w, l, pending, Confirmed(w, key, answers[0].broker));
    hide SendScript, Waiting, AskedInOrder, InFlight, UpdateOk, Goes;
    var commit := Update(key, Answered(w2.rows[key], answers[0]));
    assert Do(w2, commit) == Confirmed(w, key, answers[0].broker);
    assert AnswerScript(w2, l, pending, answers) == [commit] + SendScript(Do(w2, commit), l, pending[1..], answers[1..]);
    hide Do, AnswerScript, Play;
    Safety.PlayFirst(w2, commit, SendScript(Do(w2, commit), l, pending[1..], answers[1..]));
  }

  lemma StillWaiting(w: World, l: nat, pending: seq<nat>, w3: World)
    requires Waiting(w, l, pending) && pending != [] && |w3.rows| == |w.rows| && |w3.ladders| == |w.ladders|
    requires forall k | 0 <= k < |w.rows| && k != pending[0] :: w3.rows[k] == w.rows[k]
    ensures Waiting(w3, l, pending[1..])
  {
  }

  /** One confirmed rung, and then the rest of the run. */
  lemma RowsCompose(w: World, w3: World, w': World, pending: seq<nat>, answers: seq<PlaceAnswer>, n: nat)
    requires pending != [] && answers != [] && answers[0].Accepted? && pending[0] < |w.rows|
    requires forall i, j | 0 <= i < j < |pending| :: pending[i] < pending[j]
    requires w3.rows == w.rows[pending[0] := w.rows[pending[0]].(broker := Some(answers[0].broker), status := Pending, reason := "")]
    requires RowsSent(w3, w', pending[1..], answers[1..], n)
    ensures RowsSent(w, w', pending, answers, n + 1)
  {
    forall i | 0 <= i < |pending|
      ensures pending[i] < |w.rows|
      ensures i > 0 ==> pending[i] == pending[1..][i - 1] && w3.rows[pending[i]] == w.rows[pending[i]]
    {
    }
    forall i | 0 <= i < n + 1
      ensures answers[i].Accepted?
      ensures w'.rows[pending[i]] == w.rows[pending[i]].(broker := Some(answers[i].broker), status := Pending, reason := "")
    {
      if i > 0 {
        assert answers[1..][i - 1] == answers[i] && pending[1..][i - 1] == pending[i];
      }
    }
    forall k | 0 <= k < |w.rows| && forall i | 0 <= i <= n + 1 && i < |pending| :: pending[i] != k
      ensures w'.rows[k] == w.rows[k]
    {
      assert pending[0] != k;
      assert forall i | 0 <= i <= n && i < |pending[1..]| :: pending[1..][i] == pending[i + 1];
    }
  }

  lemma CallsCompose(w: World, w3: World, w': World, key: nat, keys: seq<nat>)
    requires key < |w.rows| && w.rows[key].ladder < |w.ladders| && w3.ladders == w.ladders
    requires AskedInOrder(w, w3, [key]) && AskedInOrder(w3, w', keys)
    requires |w3.rows| == |w.rows| && forall i | 0 <= i < |keys| :: keys[i] != key
    requires forall k | 0 <= k < |w.rows| && k != key :: w3.rows[k] == w.rows[k]
    ensures AskedInOrder(w, w', [key] + keys)
  {
    var all := [key] + keys;
    forall i | 0 <= i < |all|
      ensures AsksFor(w, w'.calls[|w.calls| + i], all[i])
    {
      if i == 0 {
        assert AsksFor(w, w3.calls[|w.calls|], [key][0]);
      } else {
        assert AsksFor(w3, w'.calls[|w3.calls| + (i - 1)], keys[i - 1]);
      }
    }
  }

  lemma LadderCompose(w: World, w3: World, w': World, l: nat, waiting: nat, answers: seq<PlaceAnswer>, n: nat)
    requires w3.ladders == w.ladders && answers != [] && 0 < waiting
    requires LadderSent(w3, w', l, waiting - 1, answers[1..], n)
    ensures LadderSent(w, w', l, waiting, answers, n + 1)
  {
  }

  /** What is in the table after the first rung is what was there, and its id. */
  lemma GoesOn(w: World, key: nat, answers: seq<PlaceAnswer>, i: nat)
    requires key < |w.rows| && w.rows[key].broker.None? && Goes(w, answers, 0)
    ensures Goes(Confirmed(w, key, answers[0].broker), answers[1..], i) <==> Goes(w, answers, i + 1)
  {
    var w3, rest := Confirmed(w, key, answers[0].broker), answers[1..];
    if i + 1 < |answers| && answers[i + 1].Accepted? {
      var b := answers[i + 1].broker;
      assert rest[i] == answers[i + 1];
      assert w3.rows[key].broker == Some(answers[0].broker);
      assert forall k | 0 <= k < |w.rows| && k != key :: w3.rows[k] == w.rows[k];
      if j :| 0 <= j < i + 1 && answers[j] == Accepted(b) {
        assert j > 0 ==> rest[j - 1] == answers[j];
        assert Clashes(w3, rest, i, b);
      }
      if k :| 0 <= k < |w.rows| && w.rows[k].broker == Some(b) {
        assert w3.rows[k].broker == Some(b);
      }
      if j :| 0 <= j < i && rest[j] == Accepted(b) {
        assert answers[j + 1] == rest[j];
      }
      if k :| 0 <= k < |w3.rows| && w3.rows[k].broker == Some(b) {
        assert k == key ==> answers[0] == Accepted(b);
      }
    }
  }

  lemma SentFurther(w: World, l: nat, pending: seq<nat>, answers: seq<PlaceAnswer>, w': World, n: nat)
    requires Waiting(w, l, pending) && pending != [] && Goes(w, answers, 0)
    requires SentAs(Confirmed(w, pending[0], answers[0].broker), w', l, pending[1..], answers[1..], n)
    ensures SentAs(w, w', l, pending, answers, n + 1)
  {
    var key, w3, rest := pending[0], Confirmed(w, pending[0], answers[0].broker), pending[1..];
    var asked := Asked(rest, n);
    WaitingIsUnlinked(w, l, pending);
    FlightLeaves(w, l, pending);
    AskedFurther(pending, n);
    hide Asked, InFlight, RowsSent, LadderSent, AskedInOrder, Goes;
    SentRows(w, w3, w', l, pending, answers, n);
    LadderCompose(w, w3, w', l, |pending|, answers, n);
    SentCalls(w, w3, key);
    CallsCompose(w, w3, w', key, asked);
  }

  lemma AskedFurther(pending: seq<nat>, n: nat)
    requires pending != []
    ensures [pending[0]] + Asked(pending[1..], n) == Asked(pending, n + 1)
    ensures (forall i, j | 0 <= i < j < |pending| :: pending[i] < pending[j]) ==>
      forall i | 0 <= i < |Asked(pending[1..], n)| :: Asked(pending[1..], n)[i] != pending[0]
  {
    assert forall i | 0 <= i < |Asked(pending[1..], n)| :: Asked(pending[1..], n)[i] == pending[i + 1];
  }

  lemma SentCalls(w: World, w3: World, key: nat)
    requires key < |w.rows| && AskedInOrder(w, InFlight(w, key), [key]) && w3.calls == InFlight(w, key).calls
    ensures AskedInOrder(w, w3, [key])
  {
    hide InFlight, AsksFor;
  }

  lemma SentRows(w: World, w3: World, w': World, l: nat, pending: seq<nat>, answers: seq<PlaceAnswer>, n: nat)
    requires Waiting(w, l, pending) && pending != [] && Goes(w, answers, 0)
    requires w3 == Confirmed(w, pending[0], answers[0].broker) && RowsSent(w3, w', pending[1..], answers[1..], n)
    ensures RowsSent(w, w', pending, answers, n + 1)
  {
    hide InFlight, RowsSent;
    RowsCompose(w, w3, w', pending, answers, n);
  }

  lemma NoneLeft(w: World, l: nat, answers: seq<PlaceAnswer>)
    requires Waiting(w, l, [])
    ensures GoesUpTo(w, 0, answers, 0) && SentAs(w, Play(w, SendScript(w, l, [], answers)), l, [], answers, 0)
  {
    PlayOne(w, AfterRun(l, ""));
    hide Play;
  }

  lemma NoneGo(w: World, waiting: nat, answers: seq<PlaceAnswer>)
    requires !Goes(w, answers, 0)
    ensures GoesUpTo(w, waiting, answers, 0)
  {
  }

  /** A run of sending confirms rung after rung until one does not go, and leaves the rest alone. */
  lemma {:induction false} SendLeaves(w: World, l: nat, pending: seq<nat>, answers: seq<PlaceAnswer>) returns (n: nat)
    requires Waiting(w, l, pending)
    ensures GoesUpTo(w, |pending|, answers, n)
    ensures SentAs(w, Play(w, SendScript(w, l, pending, answers)), l, pending, answers, n)
    decreases |pending|
  {
    hide SendScript, Play, SentAs, Confirmed, Waiting, Clashes, GoesUpTo;
    if pending == [] {
      n := 0;
      NoneLeft(w, l, answers);
    } else if !Goes(w, answers, 0) {
      n := 0;
      NoneGo(w, |pending|, answers);
      FirstHalts(w, l, pending, answers);
    } else {
      WaitingIsUnlinked(w, l, pending);
      var w3 := Confirmed(w, pending[0], answers[0].broker);
      hide Goes;
      FirstGoes(w, l, pending, answers);
      var m := SendLeaves(w3, l, pending[1..], answers[1..]);
      n := m + 1;
      SentFurther(w, l, pending, answers, Play(w, SendScript(w, l, pending, answers)), m);
      GoesFurther(w, pending[0], |pending|, answers, m);
    }
  }

  lemma GoesFurther(w: World, key: nat, waiting: nat, answers: seq<PlaceAnswer>, n: nat)
    requires key < |w.rows| && w.rows[key].broker.None? && Goes(w, answers, 0) && 0 < waiting
    requires GoesUpTo(Confirmed(w, key, answers[0].broker), waiting - 1, answers[1..], n)
    ensures GoesUpTo(w, waiting, answers, n + 1)
  {
    var w3, rest := Confirmed(w, key, answers[0].broker), answers[1..];
    forall i | 0 < i <= n + 1
      ensures Goes(w, answers, i) <==> Goes(w3, rest, i - 1)
    {
      hide Goes, Confirmed;
      GoesOn(w, key, answers, i - 1);
    }
  }

  // ---------- Submitting ----------

  /** A ladder may be sent: it is not over, its exchange is there and has no order in doubt, and a rung waits. */
  ghost predicate Ready(w: World, l: nat)
    requires LaddersKnown(w)
  {
    && l < |w.ladders| && w.ladders[l].state != StateDone && w.ladders[l].state != StateCanceled
    && var venue := w.ladders[l].spec.venue;
    && venue in w.connected
    && (forall k | 0 <= k < |w.rows| && Spec(w, k).venue == venue :: w.rows[k].status != Sending && w.rows[k].status != Unknown)
    && exists k :: 0 <= k < |w.rows| && w.rows[k].ladder == l && w.rows[k].status == Prepared
  }

  /** The rungs of a ladder that wait to be sent, nearest the base first. */
  ghost predicate IsWaitingList(w: World, l: nat, pending: seq<nat>) {
    && (forall k: nat :: k in pending <==> k < |w.rows| && w.rows[k].ladder == l && w.rows[k].status == Prepared)
    && forall i, j | 0 <= i < j < |pending| :: pending[i] < pending[j]
  }

  /** What the ladder says once a submission is over. */
  ghost predicate LadderSubmitted(w: World, w': World, l: nat, waiting: nat, answers: seq<PlaceAnswer>, n: nat) {
    && l < |w.ladders|
    && var state, reason :=
         if n == waiting then StateOpen else if n < |answers| && answers[n].Refused?
         then if answers[n].reason == "" then StateOpen else StateFailed
         else StatePlacing,
         if n != waiting && n < |answers| && answers[n].Refused? then Trim(answers[n].reason) else "";
    w'.ladders == w.ladders[l := w.ladders[l].(state := state, reason := reason)]
  }

  /** Everything a submission changes. */
  ghost predicate SubmittedAs(w: World, w': World, l: nat, pending: seq<nat>, answers: seq<PlaceAnswer>, n: nat) {
    && IsWaitingList(w, l, pending) && GoesUpTo(w, |pending|, answers, n)
    && RowsSent(w, w', pending, answers, n)
    && LadderSubmitted(w, w', l, |pending|, answers, n)
    && AskedInOrder(w, w', Asked(pending, n))
    && w' == w.(rows := w'.rows, ladders := w'.ladders, calls := w'.calls)
  }

  lemma SomeWaits(w: World, l: nat)
    ensures PreparedOf(w.rows, l) != [] <==> exists k :: 0 <= k < |w.rows| && w.rows[k].ladder == l && w.rows[k].status == Prepared
  {
    var pending := PreparedOf(w.rows, l);
    hide PreparedOf;
    if k :| 0 <= k < |w.rows| && w.rows[k].ladder == l && w.rows[k].status == Prepared {
      assert k in pending;
    }
    if pending != [] {
      assert w.rows[pending[0]].ladder == l && w.rows[pending[0]].status == Prepared;
    }
  }

  /** A submission takes any step at all exactly when the ladder may be sent. */
  lemma SubmitsIff(w: World, l: nat, answers: seq<PlaceAnswer>)
    requires LaddersKnown(w)
    ensures SubmitScript(w, l, answers) != [] <==> Ready(w, l)
  {
    SomeWaits(w, l);
    hide SendScript, PreparedOf;
  }

  lemma PreparedAreWaiting(w: World, l: nat)
    requires Inv(w) && l < |w.ladders|
    ensures IsWaitingList(w, l, PreparedOf(w.rows, l)) && Waiting(w, l, PreparedOf(w.rows, l))
  {
    Safety.InvHasCalls(w);
    hide Inv, CallsOk, LaddersOk, InOrder, PreparedOf;
  }

  /** The tables as a submission starts. */
  ghost function Started(w: World, l: nat): World
    requires l < |w.ladders|
  {
    w.(ladders := w.ladders[l := w.ladders[l].(state := StatePlacing, reason := "")])
  }

  lemma GoesAlike(w: World, l: nat, waiting: nat, answers: seq<PlaceAnswer>, n: nat)
    requires l < |w.ladders| && GoesUpTo(Started(w, l), waiting, answers, n)
    ensures GoesUpTo(w, waiting, answers, n)
  {
    var w1 := Started(w, l);
    forall i | 0 <= i <= n
      ensures Goes(w1, answers, i) <==> Goes(w, answers, i)
    {
    }
    hide Goes, Started;
  }

  lemma AskedAlike(w: World, l: nat, w': World, keys: seq<nat>)
    requires l < |w.ladders| && AskedInOrder(Started(w, l), w', keys)
    ensures AskedInOrder(w, w', keys)
  {
    forall i | 0 <= i < |keys|
      ensures AsksFor(w, w'.calls[|w.calls| + i], keys[i])
    {
      assert AsksFor(Started(w, l), w'.calls[|w.calls| + i], keys[i]);
    }
  }

  lemma StartedAlike(w: World, w': World, l: nat, pending: seq<nat>, answers: seq<PlaceAnswer>, n: nat)
    requires l < |w.ladders| && IsWaitingList(w, l, pending)
    requires GoesUpTo(Started(w, l), |pending|, answers, n) && SentAs(Started(w, l), w', l, pending, answers, n)
    ensures SubmittedAs(w, w', l, pending, answers, n)
  {
    GoesAlike(w, l, |pending|, answers, n);
    AskedAlike(w, l, w', Asked(pending, n));
    hide GoesUpTo, IsWaitingList, AskedInOrder, Asked;
    LaddersAlike(w, w', l, |pending|, answers, n);
    hide LadderSent, LadderSubmitted;
    RowsAlike(w, w', l, pending, answers, n);
    hide RowsSent;
  }

  lemma LaddersAlike(w: World, w': World, l: nat, waiting: nat, answers: seq<PlaceAnswer>, n: nat)
    requires l < |w.ladders| && LadderSent(Started(w, l), w', l, waiting, answers, n)
    ensures LadderSubmitted(w, w', l, waiting, answers, n)
  {
    assert w'.ladders == w.ladders[l := w'.ladders[l]];
  }

  lemma RowsAlike(w: World, w': World, l: nat, pending: seq<nat>, answers: seq<PlaceAnswer>, n: nat)
    requires l < |w.ladders| && RowsSent(Started(w, l), w', pending, answers, n)
    ensures RowsSent(w, w', pending, answers, n)
  {
  }

  lemma StartLeaves(w: World, l: nat, answers: seq<PlaceAnswer>)
    requires MaySubmit(w, l) && Waiting(w, l, PreparedOf(w.rows, l))
    ensures var w1, pending := Started(w, l), PreparedOf(w.rows, l);
      && Waiting(w1, l, pending)
      && Play(w, SubmitScript(w, l, answers)) == Play(w1, SendScript(w1, l, pending, answers))
  {
    var start := SaveState(l, StatePlacing, "");
    hide MaySubmit, PreparedOf, SendScript, Play;
    assert Do(w, start) == Started(w, l);
    Safety.PlayFirst(w, start, SendScript(Do(w, start), l, PreparedOf(w.rows, l), answers));
  }

  /**
    A submission sends the waiting rungs in order, each as its row says, and stops after the first that is not confirmed.
    The ladder says how it went.
  */
  lemma SubmitLeaves(w: World, l: nat, answers: seq<PlaceAnswer>) returns (pending: seq<nat>, n: nat)
    requires Inv(w) && LaddersKnown(w) && Ready(w, l)
    ensures SubmittedAs(w, Play(w, SubmitScript(w, l, answers)), l, pending, answers, n)
  {
    pending := PreparedOf(w.rows, l);
    SubmitsIff(w, l, answers);
    PreparedAreWaiting(w, l);
    hide Inv, Ready, PreparedOf, SendScript, Play, SubmittedAs, SentAs, IsWaitingList, GoesUpTo, Waiting;
    StartLeaves(w, l, answers);
    hide SubmitScript, MaySubmit;
    n := SendLeaves(Started(w, l), l, pending, answers);
    StartedAlike(w, Play(w, SubmitScript(w, l, answers)), l, pending, answers, n);
  }

  /**
    A submission that ran to its end leaves the ladder OPEN without a reason exactly when every waiting rung was accepted,
    and FAILED with the trimmed reason exactly when a request was refused. A refusal with an empty reason is the exception
    to both: it leaves the ladder OPEN.
  */
  lemma StopIsRecorded(w: World, w': World, l: nat, pending: seq<nat>, answers: seq<PlaceAnswer>, n: nat)
    requires SubmittedAs(w, w', l, pending, answers, n)
    requires n == |pending| || (n < |answers| && answers[n].Refused?)
    ensures var failed, wordless := n < |pending| && answers[n].reason != "", n < |pending| && answers[n].reason == "";
      && (w'.ladders[l].state == StateFailed <==> failed)
      && (w'.ladders[l].state == StateOpen <==> n == |pending| || wordless)
      && w'.ladders[l].reason == if failed then Trim(answers[n].reason) else ""
  {
  }

  lemma OpenLadderSendsNothing(w: World, l: nat, terms: Terms, powers: Ladder.Powers, answers: seq<PlaceAnswer>)
    requires l < |w.ladders| && w.ladders[l].state == StateOpen
    ensures SubmitDraftScript(w, l, terms, powers, answers) == []
  {
    hide Ladder.Build, SubmitScript;
  }

  /** After a refusal without a word the rungs that still wait cannot be sent: the ladder is OPEN, and only a FAILED one is resumed. */
  lemma WordlessRefusalStrands(
    w: World, w': World, l: nat, pending: seq<nat>, answers: seq<PlaceAnswer>, n: nat, terms: Terms, powers: Ladder.Powers,
    more: seq<PlaceAnswer>)
    requires SubmittedAs(w, w', l, pending, answers, n)
    requires n + 1 < |pending| && n < |answers| && answers[n].Refused? && answers[n].reason == ""
    ensures w'.rows[pending[n + 1]].status == Prepared && SubmitDraftScript(w', l, terms, powers, more) == []
  {
    hide GoesUpTo, AskedInOrder;
    OpenLadderSendsNothing(w', l, terms, powers, more);
    assert pending[n + 1] in pending;
    assert forall i | 0 <= i <= n :: pending[i] != pending[n + 1];
  }

  /** Of the rungs that waited, those that were asked for no longer do, and no other row has changed. */
  lemma SentNoLongerWait(w: World, w': World, pending: seq<nat>, answers: seq<PlaceAnswer>, n: nat, k: nat)
    requires RowsSent(w, w', pending, answers, n) && n < |pending| && k < |w.rows|
    ensures if exists i :: 0 <= i <= n && pending[i] == k
      then w'.rows[k].status != Prepared else w'.rows[k] == w.rows[k]
  {
    if i :| 0 <= i <= n && pending[i] == k {
      assert i < n ==> w'.rows[pending[i]].status == Pending;
    }
  }

  /** What waits after a run that was stopped: the rungs beyond the one that stopped it, in their order. */
  lemma StillToSend(w: World, w': World, l: nat, pending: seq<nat>, answers: seq<PlaceAnswer>, n: nat)
    requires SubmittedAs(w, w', l, pending, answers, n) && n < |pending|
    ensures IsWaitingList(w', l, pending[n + 1..])
  {
    hide GoesUpTo, AskedInOrder, LadderSubmitted;
    assert |w'.rows| == |w.rows|;
    var rest := pending[n + 1..];
    forall k: nat
      ensures k in rest <==> k < |w'.rows| && w'.rows[k].ladder == l && w'.rows[k].status == Prepared
    {
      if k < |w.rows| {
        SentNoLongerWait(w, w', pending, answers, n, k);
      }
      hide RowsSent;
      BeyondIff(pending, n, k);
      assert k in pending <==> k < |w.rows| && w.rows[k].ladder == l && w.rows[k].status == Prepared;
    }
    hide RowsSent;
    assert forall i, j | 0 <= i < j < |pending| :: pending[i] < pending[j];
  }

  lemma BeyondIff(pending: seq<nat>, n: nat, k: nat)
    requires n < |pending| && forall i, j | 0 <= i < j < |pending| :: pending[i] < pending[j]
    ensures k in pending[n + 1..] <==> k in pending && !exists i :: 0 <= i <= n && pending[i] == k
  {
    var rest := pending[n + 1..];
    if k in rest {
      var j :| 0 <= j < |rest| && rest[j] == k;
      assert pending[n + 1 + j] == k;
    }
    if k in pending {
      var j :| 0 <= j < |pending| && pending[j] == k;
      assert j > n ==> rest[j - n - 1] == k;
    }
  }

  lemma OneWaitingList(w: World, l: nat, a: seq<nat>, b: seq<nat>)
    requires IsWaitingList(w, l, a) && IsWaitingList(w, l, b)
    ensures a == b
  {
    assert forall k: nat :: k in a <==> k in b;
    SortedAlike(a, b);
  }

  lemma {:induction false} SortedAlike(a: seq<nat>, b: seq<nat>)
    requires forall k: nat :: k in a <==> k in b
    requires forall i, j | 0 <= i < j < |a| :: a[i] < a[j]
    requires forall i, j | 0 <= i < j < |b| :: b[i] < b[j]
    ensures a == b
  {
    if a != [] {
      assert a[0] in b;
    }
    if b != [] {
      assert b[0] in a;
    }
    if a != [] && b != [] {
      var rest, rest' := a[1..], b[1..];
      forall k: nat
        ensures k in rest <==> k in rest'
      {
        assert k in rest <==> k in a && k != a[0];
        assert k in rest' <==> k in b && k != b[0];
      }
      SortedAlike(rest, rest');
    }
  }

  /** A stopped ladder is resumed: submitting its draft again is submitting it, whatever the terms are by then. */
  lemma ResumeLeaves(w: World, l: nat, terms: Terms, powers: Ladder.Powers, answers: seq<PlaceAnswer>)
    returns (pending: seq<nat>, n: nat)
    requires Inv(w) && LaddersKnown(w) && Ready(w, l) && w.ladders[l].state == StateFailed
    ensures SubmittedAs(w, Play(w, SubmitDraftScript(w, l, terms, powers, answers)), l, pending, answers, n)
  {
    pending, n := SubmitLeaves(w, l, answers);
    hide Inv, Play, SubmitScript, SubmittedAs, Ladder.Build;
  }

  /** Once the venue is settled, resuming a ladder that a refusal stopped sends exactly the rungs that the first run left. */
  lemma ResumeSendsTheRest(
    w: World, w': World, l: nat, pending: seq<nat>, answers: seq<PlaceAnswer>, n: nat,
    terms: Terms, powers: Ladder.Powers, more: seq<PlaceAnswer>) returns (m: nat)
    requires SubmittedAs(w, w', l, pending, answers, n)
    requires n < |pending| && n < |answers| && answers[n].Refused? && answers[n].reason != ""
    requires Inv(w') && LaddersKnown(w') && Ready(w', l)
    ensures SubmittedAs(w', Play(w', SubmitDraftScript(w', l, terms, powers, more)), l, pending[n + 1..], more, m)
  {
    StopIsRecorded(w, w', l, pending, answers, n);
    StillToSend(w, w', l, pending, answers, n);
    var rest;
    rest, m := ResumeLeaves(w', l, terms, powers, more);
    assert IsWaitingList(w', l, rest);
    hide Inv, Ready, SubmittedAs, SubmitDraftScript, Play, IsWaitingList;
    OneWaitingList(w', l, rest, pending[n + 1..]);
  }

  // ---------- Turning a draft into orders ----------

  /** The rows of a plan, as they wait to be sent: what each rung asks for, and nothing heard of it yet. */
  ghost predicate RowsOfPlan(rows: seq<Order>, l: nat, plan: Ladder.Plan) {
    && |rows| == |plan.rungs|
    && forall i | 0 <= i < |rows| ::
         rows[i] == Order(l, i, plan.rungs[i].price, plan.rungs[i].quantity, Prepared, None, 0, 0, 0, false, 0, "")
  }

  /** The tables with a plan's rows in them. */
  ghost predicate Inserted(w: World, w1: World, l: nat, plan: Ladder.Plan, terms: Terms) {
    && |w.rows| <= |w1.rows| && w1.rows[..|w.rows|] == w.rows && RowsOfPlan(w1.rows[|w.rows|..], l, plan)
    && w1 == w.(rows := w1.rows, plans := w.plans[l := plan], quotes := w.quotes[l := terms])
  }

  /**
    A draft is priced with the commission the exchange quotes now. Unless that could not be read for a buy, the request
    cannot be built, or the ladder has rows already, its rows are inserted and submitted; otherwise nothing happens.
  */
  lemma DraftLeaves(w: World, l: nat, terms: Terms, spec: Ladder.Spec, powers: Ladder.Powers, answers: seq<PlaceAnswer>) returns (w1: World)
    requires Inv(w) && l < |w.ladders| && w.ladders[l].state == StateDraft
    requires SameRequest(w.ladders[l].spec, spec)
    requires FeeIsQuoted(spec, terms) || (terms.Err? && spec.side == Buy)
    ensures var script := SubmitDraftScript(w, l, terms, powers, answers);
      if (terms.Err? && spec.side == Buy) || Ladder.Build(spec, powers).Err? || exists k :: 0 <= k < |w.rows| && w.rows[k].ladder == l
      then script == []
      else
        && Inserted(w, w1, l, Ladder.Build(spec, powers).value, terms)
        && Play(w, script) == Play(w1, SubmitScript(w1, l, answers))
  {
    w1 := w;
    hide Ladder.Build, SubmitScript;
    if terms.Ok? || spec.side == Sell {
      assert spec == DraftSpec(w.ladders[l], terms);
      if Ladder.Build(spec, powers).Ok? {
        var plan := Ladder.Build(spec, powers).value;
        Safety.BuiltPlanIsNumbered(spec, powers);
        CollidesIff(w, l, plan);
        w1 := Do(w, Insert(l, plan, terms));
        hide Inv, InsertOk, Numbered, Play;
        InsertLeaves(w, l, plan, terms);
        Safety.PlayFirst(w, Insert(l, plan, terms), SubmitScript(w1, l, answers));
        hide Do, Inserted;
      }
    }
  }

  lemma CollidesIff(w: World, l: nat, plan: Ladder.Plan)
    requires Inv(w) && Numbered(plan)
    ensures InsertOk(w, l, plan) <==> !exists k :: 0 <= k < |w.rows| && w.rows[k].ladder == l
  {
    hide RowsOk, CallsOk, LaddersOk, Evidenced, OneDoubtPerVenue, BrokersUnique, CallsSorted, RungsSorted, InOrder;
    if InsertOk(w, l, plan) {
      Steps.OnlyFirstBatchFits(w, l, plan);
    }
  }

  lemma InsertLeaves(w: World, l: nat, plan: Ladder.Plan, terms: Terms)
    requires Numbered(plan)
    ensures Inserted(w, Do(w, Insert(l, plan, terms)), l, plan, terms)
  {
    Steps.AppendedRows(w.rows, l, plan.rungs);
    var rows := w.rows + NewOrders(l, plan.rungs);
    assert rows[|w.rows|..] == NewOrders(l, plan.rungs);
  }

  /** A ladder that was sent and neither stopped nor drafted does not react to its draft being submitted. */
  lemma OtherStatesDoNothing(w: World, l: nat, terms: Terms, powers: Ladder.Powers, answers: seq<PlaceAnswer>)
    requires l >= |w.ladders| || (w.ladders[l].state != StateDraft && w.ladders[l].state != StateFailed)
    ensures SubmitDraftScript(w, l, terms, powers, answers) == []
  {
    hide Ladder.Build, SubmitScript;
  }

  /** What Submit reports to the operator is what happened: how many rungs were confirmed, how many were not, and why. */
  lemma {:induction false} ReportIsTrue(sent: nat, waiting: nat, answers: seq<PlaceAnswer>, n: nat)
    requires n <= waiting && n <= |answers| && forall i | 0 <= i < n :: answers[i].Accepted?
    requires n < waiting && n < |answers| ==> answers[n].Refused?
    ensures Execution.Reported(Execution.Submission(sent, waiting, ""), answers) == Execution.Submission(
      sent + n, waiting - n, if n < waiting && n < |answers| then Trim(answers[n].reason) else "")
    decreases n
  {
    if 0 < n {
      assert forall i | 0 <= i < n - 1 :: answers[1..][i] == answers[i + 1];
      ReportIsTrue(sent + 1, waiting - 1, answers[1..], n - 1);
    }
  }
}
