/** The transfer service of the source, step by step, proved to take the steps its theorems are about. */
module TransferService {
  import opened Wrappers
  import opened Transfers

  /** Taking the first step of a script, or being dead already, leaves the rest of it to survive. */
  lemma OneStep(l: Ledger, life: nat, s: Step, rest: seq<Step>)
    ensures Survive(l, [s] + rest, life) == if life == 0 then l else Survive(Do(l, s), rest, life - 1)
  {
    assert ([s] + rest)[1..] == rest;
  }

  lemma TheDeadRest(l: Ledger, steps: seq<Step>)
    ensures Survive(l, steps, 0) == l
  {
  }

  class Service {
    var ledger: Ledger
    /** How many more steps go through before the process dies. */
    var life: nat

    ghost predicate Valid()
      reads this
    {
      Inv(ledger)
    }

    constructor ()
      ensures Valid() && ledger == EMPTY
    {
      ledger, life := EMPTY, 0;
    }

    /** One committed write, one request, or one decision of the exchange. `rest` is what is still to come. */
    method Act(s: Step, ghost rest: seq<Step>)
      modifies this
      ensures if old(life) == 0 then ledger == old(ledger) && life == 0 else ledger == Do(old(ledger), s) && life == old(life) - 1
      ensures Survive(old(ledger), [s] + rest, old(life)) == Survive(ledger, rest, life)
    {
      OneStep(ledger, life, s, rest);
      TheDeadRest(ledger, rest);
      if life > 0 {
        ledger := Do(ledger, s);
        life := life - 1;
      }
    }

    method NothingOutstanding() returns (none: bool)
      ensures none == NoneOutstanding(ledger.rows)
    {
      for i := 0 to |ledger.rows|
        invariant forall j | 0 <= j < i :: !ledger.rows[j].status.Outstanding()
      {
        if ledger.rows[i].status.Outstanding() {
          return false;
        }
      }
      none := true;
    }

    /** Moves one currency between the pockets. What the exchange decides in flight, and its answer, come from outside. */
    method Send(direction: Direction, currency: string, amount: int, decided: Option<bool>, answer: Answer)
      modifies this
      ensures ledger == Survive(old(ledger), SendScript(old(ledger), direction, currency, amount, decided, answer), old(life))
    {
      if amount <= 0 {
        return;
      }
      var none := NothingOutstanding();
      if !none {
        return;
      }
      ghost var l, n := ledger, life;
      var key := |ledger.rows|;
      var record := Transfer(direction, Upper(currency), amount, Prepared, "");
      ghost var outcome := Verdict(key, decided) + [Recorded(key, answer)];
      ghost var request := [Submit(key)] + outcome;
      ghost var commit := [Save(key, Sending, "")] + request;
      assert SendScript(l, direction, currency, amount, decided, answer) == [Insert(record)] + commit;
      hide Do, Survive, SendScript, Verdict, Recorded;
      Act(Insert(record), commit);
      record := record.(status := Sending);
      Act(Save(key, record.status, record.reason), request);
      Act(Submit(key), outcome);
      Conclude(key, record, decided, answer);
    }

    /** The exchange may decide while the request is in flight; then its answer is committed. */
    method Conclude(key: nat, sent: Transfer, decided: Option<bool>, answer: Answer)
      requires sent.reason == ""
      modifies this
      ensures ledger == Survive(old(ledger), Verdict(key, decided) + [Recorded(key, answer)], old(life))
    {
      var record := sent;
      match answer {
        case Unreadable(reason) => record := record.(status := Unknown, reason := reason);
        case Refusal(reason) => record := record.(status := Failed, reason := reason);
        case Accepted(done) =>
          if done {
            record := record.(status := Done);
          } else {
            record := record.(status := Unknown, reason := PROCESSING);
          }
      }
      assert Recorded(key, answer) == Save(key, record.status, record.reason);
      assert [Recorded(key, answer)] + [] == [Recorded(key, answer)];
      match decided {
        case None =>
          assert Verdict(key, decided) + [Recorded(key, answer)] == [Recorded(key, answer)];
        case Some(moved) =>
          Act(Decide(key, moved), [Recorded(key, answer)]);
      }
      hide Do, Survive, Recorded;
      Act(Save(key, record.status, record.reason), []);
      NothingToSurvive(ledger, life);
    }

    /** Resolves transfers whose outcome was never read, by looking their identifiers up. It never sends anything. */
    method Settle(found: map<nat, Movement>, unsaved: set<nat>)
      modifies this
      ensures ledger == Survive(old(ledger), SettleScript(old(ledger), found, unsaved), old(life))
    {
      var pending := Unresolved(ledger.rows);
      ghost var l, n := ledger, life;
      hide Do, Survive;
      while pending != []
        invariant Survive(l, SettleScript(l, found, unsaved), n) == Survive(ledger, SettleKeys(pending, found, unsaved), life)
        decreases |pending|
      {
        var key := pending[0];
        ghost var rest := SettleKeys(pending[1..], found, unsaved);
        pending := pending[1..];
        if key !in found {
          assert SettleOne(key, found, unsaved) + rest == rest;
          continue;
        }
        if found[key].Moving? || key in unsaved {
          assert SettleOne(key, found, unsaved) + rest == rest;
          continue;
        }
        var status, reason := Failed, REPORTED_FAILED;
        if found[key].done {
          status, reason := Done, "";
        }
        Act(Save(key, status, reason), rest);
      }
      NothingToSurvive(ledger, life);
    }

    /** One operation of a process, or one decision of the exchange. */
    method Perform(op: Op)
      requires Valid() && Honest(ledger, op)
      modifies this
      ensures Valid() && ledger == Next(old(ledger), Turn(op, old(life)))
    {
      ghost var l, n := ledger, life;
      hide Inv, Honest, SafeScript, Evolves, SendScript, SettleScript;
      match op {
        case Send(direction, currency, amount, decided, answer) => Send(direction, currency, amount, decided, answer);
        case Settle(found, unsaved) => Settle(found, unsaved);
        case Exchange(key, moved) =>
          Act(Decide(key, moved), []);
          NothingToSurvive(ledger, life);
          assert [Decide(key, moved)] + [] == [Decide(key, moved)];
      }
      TurnIsSafe(l, Turn(op, n));
    }
  }

  lemma NothingToSurvive(l: Ledger, life: nat)
    ensures Survive(l, [], life) == l
  {
  }
}
