/** Withdrawing orders, one or a whole ladder, and the operator's two exits from an order in doubt. */
module CancelSafety {
  import opened Records
  import opened Protocol
  import opened Steps
  import opened Operations
  import opened Safety

  lemma InvHasEvidence(w: World)
    requires Inv(w)
    ensures RowsOk(w) && CallsOk(w) && LaddersOk(w) && BrokersUnique(w) && Evidenced(w)
  {
  }

  /** A write that leaves the broker id alone cannot meet the unique index. */
  lemma SameBrokerFits(w: World, key: nat, o: Order)
    requires BrokersUnique(w) && key < |w.rows| && o.broker == w.rows[key].broker
    ensures UpdateOk(w, key, o)
  {
  }

  /** An unsent rung can be dropped: nothing of it was ever sent. */
  lemma DropIsSafe(w: World, key: nat, reason: string)
    requires RowsOk(w) && CallsOk(w) && LaddersOk(w) && key < |w.rows| && w.rows[key].status == Prepared
    ensures SafeUpdate(w, key, w.rows[key].(status := Canceled, reason := reason))
  {
    CalledWasSent(w);
    assert LadderOk(w, w.rows[key].ladder);
    var w1 := w.(rows := w.rows[key := w.rows[key].(status := Canceled, reason := reason)]);
    assert !Called(w1, key);
  }

  /** A row whose reported figures stay as they are stays evidenced, unless it is being closed. */
  lemma EvidenceStays(w: World, key: nat, o: Order)
    requires key < |w.rows| && FillReported(w, key) && StatusReported(w, key)
    requires o.broker == w.rows[key].broker && o.filled == w.rows[key].filled && o.amount == w.rows[key].amount
    requires o.costs == w.rows[key].costs && o.costsFinal == w.rows[key].costsFinal
    requires o.status == w.rows[key].status || (o.status != Pending && o.status != PartialFilled && o.status != Filled)
    requires o.quantity == w.rows[key].quantity
    requires o.status != Canceled
    ensures WriteIsEvidenced(w.(rows := w.rows[key := o]), key)
  {
    var r, w1 := w.rows[key], w.(rows := w.rows[key := o]);
    if !Untouched(r) {
      var f :| About(w, f, key) && Shows(r, f);
      assert About(w1, f, key) && Shows(o, f);
    }
    if o.status == Pending || o.status == PartialFilled || o.status == Filled {
      if !(r.status == Pending && Untouched(r)) {
        var f :| About(w, f, key) && Shows(r, f) && Explains(f.report, r);
        assert About(w1, f, key) && Shows(o, f);
      }
    }
  }

  /** A resting order can be marked as asked to cancel, or given a new reason. */
  lemma AskIsSafe(w: World, key: nat, o: Order)
    requires RowsOk(w) && LaddersOk(w) && BrokersUnique(w) && Evidenced(w) && key < |w.rows|
    requires w.rows[key].status == Pending || w.rows[key].status == PartialFilled
    requires o == w.rows[key].(status := o.status, reason := o.reason)
    requires o.status == w.rows[key].status || o.status == PendingCancel
    ensures SafeUpdate(w, key, o)
  {
    SameBrokerFits(w, key, o);
    assert LadderOk(w, w.rows[key].ladder);
    EvidenceStays(w, key, o);
    hide UpdateOk, WriteIsEvidenced, Evidenced, LaddersOk, BrokersUnique;
  }

  lemma CancelRungIsSafe(w: World, key: nat, answer: CancelAnswer)
    requires Inv(w) && key < |w.rows|
    ensures SafeScript(w, CancelRung(key, w.rows[key], answer))
  {
    var r := w.rows[key];
    var script := CancelRung(key, r, answer);
    if script != [] {
      InvHasEvidence(w);
      hide Inv, CallsOk, LaddersOk, BrokersUnique, Evidenced;
      var o := script[0].order;
      if r.status == Prepared {
        DropIsSafe(w, key, DROPPED);
      } else {
        AskIsSafe(w, key, o);
      }
      hide RowsOk, SafeUpdate;
      SafeOne(w, Update(key, o));
      assert script == [Update(key, o)];
    }
  }

  lemma {:induction false} CancelRungsIsSafe(w: World, keys: seq<nat>, answers: map<nat, CancelAnswer>)
    requires Inv(w)
    ensures SafeScript(w, CancelRungs(w, keys, answers))
    decreases |keys|
  {
    if keys != [] && keys[0] < |w.rows| {
      var first := CancelRung(keys[0], w.rows[keys[0]], CancelReply(answers, keys[0]));
      CancelRungIsSafe(w, keys[0], CancelReply(answers, keys[0]));
      hide Inv, SafeScript, CancelRung, Play, Evolves;
      SafeScriptIsSafe(w, first);
      CancelRungsIsSafe(Play(w, first), keys[1..], answers);
      SafeConcat(w, first, CancelRungs(Play(w, first), keys[1..], answers));
    }
  }

  lemma ThenSettle(w: World, script: seq<Action>, l: nat)
    requires Inv(w) && SafeScript(w, script)
    ensures SafeScript(w, script + SettleScript(Play(w, script), l))
  {
    SafeScriptIsSafe(w, script);
    InvHasLadders(Play(w, script));
    hide Inv, SafeScript, Play, Evolves, RowsOk, LaddersOk, SettleScript;
    SettleIsSafe(Play(w, script), l);
    SafeConcat(w, script, SettleScript(Play(w, script), l));
  }

  lemma CancelLadderIsSafe(w: World, l: nat, answers: map<nat, CancelAnswer>)
    requires Inv(w)
    ensures SafeScript(w, CancelLadderScript(w, l, answers))
  {
    if l < |w.ladders| && w.ladders[l].spec.venue in w.connected {
      var cancels := CancelRungs(w, OrdersOf(w.rows, l), answers);
      CancelRungsIsSafe(w, OrdersOf(w.rows, l), answers);
      hide Inv, SafeScript, CancelRungs, OrdersOf, SettleScript;
      ThenSettle(w, cancels, l);
    }
  }

  lemma CancelOrderIsSafe(w: World, key: nat, answer: CancelAnswer)
    requires Inv(w)
    ensures SafeScript(w, CancelOrderScript(w, key, answer))
  {
    var script := CancelOrderScript(w, key, answer);
    if script != [] {
      assert script == CancelRung(key, w.rows[key], answer);
      CancelRungIsSafe(w, key, answer);
    }
  }

  lemma ResolveMissingIsSafe(w: World, key: nat)
    requires Inv(w)
    ensures SafeScript(w, ResolveMissingScript(w, key))
  {
    if key < |w.rows| && w.rows[key].status.Unresolved() && w.rows[key].broker.None? {
      InvHasLadders(w);
      SafeOne(w, WriteOff(key, WRITTEN_OFF));
      hide Inv, SafeScript, SettleScript, RowsOk, LaddersOk;
      ThenSettle(w, [WriteOff(key, WRITTEN_OFF)], w.rows[key].ladder);
    }
  }
}
