/** Bringing rows in line with what the exchanges report is safe, whatever they report. */
module ReconcileSafety {
  import opened Wrappers
  import opened Market
  import opened Records
  import opened Protocol
  import opened Steps
  import opened Operations
  import opened Safety
  import opened CancelSafety
  import Ladder

  /** The process's copy of a row that an exchange may still have something to say about, linked or being linked. */
  ghost predicate CopyOf(w: World, key: nat, order: Order) {
    && key < |w.rows| && w.rows[key].status.Active() && w.rows[key].status != Prepared
    && order == w.rows[key].(broker := order.broker, reason := order.reason)
  }

  /** The copy is not about to swap one exchange id for another. */
  ghost predicate KeepsLink(w: World, key: nat, order: Order)
    requires key < |w.rows|
  {
    w.rows[key].broker.Some? ==> order.broker == w.rows[key].broker
  }

  // ---------- Parking ----------

  lemma ParkedIsEvidenced(w: World, key: nat, order: Order, reason: string)
    requires RowsOk(w) && CopyOf(w, key, order) && KeepsLink(w, key, order) && FillReported(w, key) && StatusReported(w, key)
    ensures WriteIsEvidenced(w.(rows := w.rows[key := order.(status := Unknown, reason := reason)]), key)
  {
    if w.rows[key].broker.Some? {
      EvidenceStays(w, key, order.(status := Unknown, reason := reason));
    }
  }

  lemma ParkIsSafe(w: World, key: nat, order: Order, reason: string)
    requires Inv(w) && CopyOf(w, key, order) && KeepsLink(w, key, order)
    requires RowsOk(w) && w.rows[key].status == PendingCancel ==> Dishonest(w, key)
    ensures SafeScript(w, ParkScript(w, key, order, reason))
  {
    InvHasEvidence(w);
    hide Inv;
    assert FillReported(w, key) && StatusReported(w, key);
    assert LadderOk(w, w.rows[key].ladder);
    ParkedIsEvidenced(w, key, order, reason);
    hide Dishonest, CallsOk, LaddersOk, LadderOk, BrokersUnique, Evidenced, WriteIsEvidenced, FillReported, StatusReported;
    var o := order.(status := Unknown, reason := reason);
    if UpdateOk(w, key, o) {
      hide UpdateOk;
      assert SafeUpdate(w, key, o);
      hide SafeUpdate, RowsOk;
      SafeOne(w, Update(key, o));
    }
  }

  // ---------- Taking a report over ----------

  lemma AppliedIsEvidenced(w: World, key: nat, order: Order, e: Report)
    requires RowsOk(w) && CopyOf(w, key, order) && order.broker.Some?
    requires About(w, Finding(key, order.broker.value, e), key)
    ensures WriteIsEvidenced(w.(rows := w.rows[key := Applied(order, e)]), key)
  {
    var f, o := Finding(key, order.broker.value, e), Applied(order, e);
    var w1 := w.(rows := w.rows[key := o]);
    assert About(w1, f, key) && Shows(w1.rows[key], f);
  }

  lemma AppliedIsSafe(w: World, key: nat, order: Order, e: Report)
    requires RowsOk(w) && LaddersOk(w) && CopyOf(w, key, order) && order.broker.Some?
    requires About(w, Finding(key, order.broker.value, e), key)
    requires order.filled <= e.filled <= order.quantity
    requires UpdateOk(w, key, Applied(order, e))
    ensures SafeUpdate(w, key, Applied(order, e))
  {
    AppliedIsEvidenced(w, key, order, e);
    assert LadderOk(w, w.rows[key].ladder);
    hide LaddersOk, LadderOk, WriteIsEvidenced, UpdateOk, About, Dishonest;
  }

  lemma NotifiedIsSafe(w: World, key: nat)
    requires RowsOk(w) && LaddersOk(w) && BrokersUnique(w) && Evidenced(w)
    requires key < |w.rows| && w.rows[key].broker.Some? && w.rows[key].status != Prepared
    ensures SafeUpdate(w, key, Notified(w.rows[key]))
  {
    var r, o := w.rows[key], Notified(w.rows[key]);
    SameBrokerFits(w, key, o);
    assert FillReported(w, key) && StatusReported(w, key) && CancelEvidenced(w, key);
    assert LadderOk(w, r.ladder);
    NotifiedIsEvidenced(w, key);
    hide LaddersOk, LadderOk, BrokersUnique, Evidenced, UpdateOk, WriteIsEvidenced;
  }

  lemma NotifiedIsEvidenced(w: World, key: nat)
    requires key < |w.rows| && FillReported(w, key) && StatusReported(w, key) && CancelEvidenced(w, key)
    ensures WriteIsEvidenced(w.(rows := w.rows[key := Notified(w.rows[key])]), key)
  {
    var w1 := w.(rows := w.rows[key := Notified(w.rows[key])]);
    assert Called(w1, key) ==> Called(w, key);
    forall f | About(w, f, key) && Shows(w.rows[key], f)
      ensures About(w1, f, key) && Shows(w1.rows[key], f)
    {
    }
  }

  lemma AppliedStep(w: World, key: nat, order: Order, e: Report)
    requires Inv(w) && CopyOf(w, key, order) && order.broker.Some?
    requires About(w, Finding(key, order.broker.value, e), key)
    requires order.filled <= e.filled <= order.quantity
    requires UpdateOk(w, key, Applied(order, e))
    ensures var next := Applied(order, e);
      && RowsOk(w) && Safe(w, Update(key, next)) && Inv(Do(w, Update(key, next)))
      && Do(w, Update(key, next)).rows == w.rows[key := next] && next.broker.Some? && next.status != Prepared
  {
    InvHasLadders(w);
    AppliedIsSafe(w, key, order, e);
    hide SafeUpdate, CopyOf, UpdateOk, LaddersOk, RowsOk;
    SafeStep(w, Update(key, Applied(order, e)));
  }

  lemma TakenOverIsSafe(w: World, key: nat, order: Order, e: Report)
    requires Inv(w) && CopyOf(w, key, order) && order.broker.Some?
    requires About(w, Finding(key, order.broker.value, e), key)
    requires order.filled <= e.filled <= order.quantity
    requires UpdateOk(w, key, Applied(order, e))
    ensures var next := Applied(order, e);
      SafeScript(w, [Update(key, next)]) && SafeScript(w, [Update(key, next), Update(key, Notified(next))])
  {
    var next := Applied(order, e);
    var first, second := Update(key, next), Update(key, Notified(next));
    AppliedStep(w, key, order, e);
    var w1 := Do(w, first);
    InvHasEvidence(w1);
    hide Inv, Do, Applied, CallsOk, BrokersUnique, Evidenced, RowsOk, LaddersOk, UpdateOk, About;
    NotifiedIsSafe(w1, key);
    hide SafeUpdate;
    SafeOne(w1, second);
    SafeThen(w, first, [second]);
    SafeOne(w, first);
    assert [first] + [second] == [first, second];
  }

  lemma FoundIsDishonest(w: World, key: nat, order: Order, e: Report)
    requires RowsOk(w) && CopyOf(w, key, order) && order.broker.Some?
    requires About(w, Finding(key, order.broker.value, e), key)
    requires !HonestReport(e, order.quantity, Spec(w, key))
    ensures Dishonest(w, key)
  {
  }

  /** A report for another order parks ours; a report that fits is taken over; an older one is ignored. */
  lemma ApplyIsSafe(w: World, key: nat, order: Order, e: Report)
    requires Inv(w) && RowsOk(w) && CopyOf(w, key, order) && order.broker.Some?
    requires KeepsLink(w, key, order) || HonestReport(e, order.quantity, Spec(w, key))
    requires About(w, Finding(key, order.broker.value, e), key)
    ensures SafeScript(w, ApplyScript(w, key, order, Spec(w, key), e))
  {
    hide Inv, SafeScript, Dishonest, About;
    var spec := Spec(w, key);
    if !HonestReport(e, order.quantity, spec) {
      FoundIsDishonest(w, key, order, e);
      ParkIsSafe(w, key, order, if e.symbol != spec.symbol || e.side != spec.side then WRONG_TERMS else OVERFILLED);
    } else if order.filled <= e.filled && UpdateOk(w, key, Applied(order, e)) {
      TakenOverIsSafe(w, key, order, e);
    } else {
      assert ApplyScript(w, key, order, spec, e) == [];
      NothingIsSafe(w);
    }
  }

  lemma NothingIsSafe(w: World)
    ensures SafeScript(w, [])
  {
  }

  // ---------- Refreshing one order ----------

  /** Hearing a report and acting on as much of it as the database lets through. */
  lemma HeardIsSafe(w: World, key: nat, order: Order, e: Report, writes: nat)
    requires Inv(w) && RowsOk(w) && CopyOf(w, key, order) && order.broker.Some?
    requires KeepsLink(w, key, order) || HonestReport(e, order.quantity, Spec(w, key))
    ensures var learn := Learn(Finding(key, order.broker.value, e));
      SafeScript(w, [learn] + Take(ApplyScript(w, key, order, Spec(w, key), e), writes))
  {
    var learn := Learn(Finding(key, order.broker.value, e));
    var w1 := Do(w, learn);
    assert w1.rows == w.rows && w1.ladders == w.ladders;
    assert About(w1, Finding(key, order.broker.value, e), key);
    assert CopyOf(w1, key, order) && (KeepsLink(w1, key, order) <==> KeepsLink(w, key, order)) && Spec(w1, key) == Spec(w, key);
    assert ApplyScript(w1, key, order, Spec(w1, key), e) == ApplyScript(w, key, order, Spec(w, key), e);
    assert Safe(w, learn);
    hide ApplyScript, CopyOf, KeepsLink, About, Do, Safe;
    SafeStep(w, learn);
    InvHasLadders(w1);
    hide Inv, RowsOk, LaddersOk, Evolves;
    ApplyIsSafe(w1, key, order, e);
    SafePrefix(w1, ApplyScript(w1, key, order, Spec(w1, key), e), writes);
    SafeThen(w, learn, Take(ApplyScript(w1, key, order, Spec(w1, key), e), writes));
  }

  lemma RefreshIsSafe(w: World, key: nat, listing: Listing, reply: Reply)
    requires Inv(w) && RowsOk(w) && key < |w.rows| && w.rows[key].status.Active()
    ensures SafeScript(w, RefreshScript(w, key, w.rows[key], Spec(w, key), listing, reply))
  {
    var r := w.rows[key];
    assert r.broker.None? ==> r.status != PendingCancel;
    hide Unchanged, Inv, SafeScript, ParkScript, ApplyScript, Take, RowsOk;
    NothingIsSafe(w);
    if r.status != Prepared && r.broker.None? {
      RecoverIsSafe(w, key, reply);
    } else if r.status != Prepared && reply.lookup.Found? {
      HeardIsSafe(w, key, r, reply.lookup.report, reply.writes);
    }
  }

  lemma RecoverIsSafe(w: World, key: nat, reply: Reply)
    requires Inv(w) && RowsOk(w) && key < |w.rows| && CopyOf(w, key, w.rows[key])
    requires w.rows[key].broker.None? && w.rows[key].status != PendingCancel
    ensures SafeScript(w, RecoverScript(w, key, w.rows[key], Spec(w, key), reply))
  {
    var r := w.rows[key];
    hide Inv, SafeScript, ParkScript, ApplyScript, Take, RowsOk;
    if reply.lookup.Found? && reply.lookup.report.client == Some(key) {
      var e := reply.lookup.report;
      HeardIsSafe(w, key, r.(broker := Some(e.broker)), e, reply.writes);
    } else {
      var reason :=
        if reply.lookup.Unsupported? then LOOKUP_UNSUPPORTED
        else if reply.lookup.Failed? then Trim(reply.lookup.reason) else WRONG_CLIENT;
      ParkIsSafe(w, key, r, reason);
      SafePrefix(w, ParkScript(w, key, r, reason), reply.writes);
    }
  }

  // ---------- A whole cycle ----------

  ghost predicate OnlyRow(script: seq<Action>, key: nat) {
    forall a | a in script :: (a.Learn? && a.finding.order == key) || (a.Update? && a.key == key)
  }

  lemma {:induction false} OnlyRowChanges(w: World, script: seq<Action>, key: nat)
    requires OnlyRow(script, key)
    ensures var w1 := Play(w, script);
      && w1.ladders == w.ladders && w1.connected == w.connected
      && |w1.rows| == |w.rows| && (forall k | 0 <= k < |w.rows| && k != key :: w1.rows[k] == w.rows[k])
      && forall f, k | k != key :: About(w1, f, k) <==> About(w, f, k)
  {
    if script != [] {
      var n := |script| - 1;
      assert forall a | a in script[..n] :: a in script;
      assert script[n] in script;
      OnlyRowChanges(w, script[..n], key);
    }
  }

  lemma RefreshOnlyRow(w: World, key: nat, r: Order, spec: Ladder.Spec, listing: Listing, reply: Reply)
    ensures OnlyRow(RefreshScript(w, key, r, spec, listing, reply), key)
  {
    hide UpdateOk, Applied, Notified, Unchanged;
    ApplyOnlyRow(w, key, r, spec, reply);
    if reply.lookup.Found? {
      ApplyOnlyRow(w, key, r.(broker := Some(reply.lookup.report.broker)), spec, reply);
    }
    hide ApplyScript, Take;
  }

  lemma ApplyOnlyRow(w: World, key: nat, order: Order, spec: Ladder.Spec, reply: Reply)
    ensures forall reason :: OnlyRow(Take(ParkScript(w, key, order, reason), reply.writes), key)
    ensures reply.lookup.Found? ==> OnlyRow(Take(ApplyScript(w, key, order, spec, reply.lookup.report), reply.writes), key)
  {
    hide UpdateOk, Applied, Notified;
  }

  /** The orders still to visit: each once, each still able to change. */
  ghost predicate ToVisit(w: World, stops: seq<Stop>) {
    && (forall i | 0 <= i < |stops| :: stops[i].key < |w.rows| && w.rows[stops[i].key].status.Active())
    && Once(stops)
  }

  ghost predicate Once(stops: seq<Stop>) {
    forall i, j | 0 <= i < j < |stops| :: stops[i].key != stops[j].key
  }

  lemma RefreshAtOnlyRow(w: World, stop: Stop)
    ensures OnlyRow(RefreshAt(w, stop), stop.key)
  {
    if stop.key < |w.rows| && w.rows[stop.key].ladder < |w.ladders| {
      RefreshOnlyRow(w, stop.key, w.rows[stop.key], Spec(w, stop.key), stop.listing, stop.reply);
      hide RefreshScript;
    }
  }

  lemma RefreshAtIsSafe(w: World, stop: Stop)
    requires Inv(w) && stop.key < |w.rows| && w.rows[stop.key].status.Active()
    ensures SafeScript(w, RefreshAt(w, stop))
  {
    InvHasLadders(w);
    hide Inv, SafeScript, LaddersOk;
    RefreshIsSafe(w, stop.key, stop.listing, stop.reply);
    hide RefreshScript;
  }

  lemma FirstStopIsActive(w: World, stops: seq<Stop>)
    requires ToVisit(w, stops) && stops != []
    ensures stops[0].key < |w.rows| && w.rows[stops[0].key].status.Active()
  {
  }

  lemma StillToVisit(w: World, w1: World, stops: seq<Stop>)
    requires stops != [] && ToVisit(w, stops) && |w1.rows| == |w.rows|
    requires forall k | 0 <= k < |w.rows| && k != stops[0].key :: w1.rows[k] == w.rows[k]
    ensures ToVisit(w1, stops[1..])
  {
  }

  lemma {:induction false} SweepIsSafe(w: World, stops: seq<Stop>)
    requires Inv(w) && ToVisit(w, stops)
    ensures SafeScript(w, SweepScript(w, stops))
    decreases |stops|
  {
    if stops != [] {
      hide Inv, SafeScript, RefreshAt, Play, Evolves, ToVisit;
      var first := RefreshAt(w, stops[0]);
      FirstStopIsActive(w, stops);
      RefreshAtIsSafe(w, stops[0]);
      RefreshAtOnlyRow(w, stops[0]);
      OnlyRowChanges(w, first, stops[0].key);
      StillToVisit(w, Play(w, first), stops);
      SafeScriptIsSafe(w, first);
      SweepIsSafe(Play(w, first), stops[1..]);
      SafeConcat(w, first, SweepScript(Play(w, first), stops[1..]));
    }
  }

  lemma {:induction false} VenueStopsVisitOnce(w: World, venue: Venue, listing: Listing, keys: seq<nat>, replies: map<nat, Reply>)
    requires LaddersKnown(w) && (forall i | 0 <= i < |keys| :: keys[i] < |w.rows|)
    requires forall i, j | 0 <= i < j < |keys| :: keys[i] != keys[j]
    ensures Once(VenueStops(w, venue, listing, keys, replies))
  {
    if keys != [] {
      var n := |keys| - 1;
      VenueStopsVisitOnce(w, venue, listing, keys[..n], replies);
      var earlier := VenueStops(w, venue, listing, keys[..n], replies);
      forall i | 0 <= i < |earlier|
        ensures earlier[i].key != keys[n]
      {
        var m :| 0 <= m < n && keys[m] == earlier[i].key;
      }
    }
  }

  lemma {:induction false} CycleVisitsOnce(w: World, c: Cycle, venues: seq<Venue>)
    requires LaddersKnown(w) && ActiveKeys(w, c.keys)
    requires forall i, j | 0 <= i < j < |venues| :: venues[i] != venues[j]
    ensures var stops := CycleStops(w, c, venues);
      && ToVisit(w, stops)
      && forall i | 0 <= i < |stops| :: Spec(w, stops[i].key).venue in venues
  {
    if venues != [] {
      var n := |venues| - 1;
      var venue := venues[n];
      CycleVisitsOnce(w, c, venues[..n]);
      if venue in w.connected && venue in c.listings {
        VenueStopsVisitOnce(w, venue, c.listings[venue], c.keys, c.replies);
        assert ToVisit(w, VenueStops(w, venue, c.listings[venue], c.keys, c.replies));
        hide ToVisit, VenueStops;
        StopsOfTwoVenues(w, CycleStops(w, c, venues[..n]), VenueStops(w, venue, c.listings[venue], c.keys, c.replies), venues[..n], venue);
      }
    }
  }

  lemma StopsOfTwoVenues(w: World, earlier: seq<Stop>, stops: seq<Stop>, venues: seq<Venue>, venue: Venue)
    requires LaddersKnown(w) && ToVisit(w, earlier) && ToVisit(w, stops) && venue !in venues
    requires forall i | 0 <= i < |earlier| :: Spec(w, earlier[i].key).venue in venues
    requires forall i | 0 <= i < |stops| :: Spec(w, stops[i].key).venue == venue
    ensures ToVisit(w, earlier + stops)
  {
    forall i, j | 0 <= i < |earlier| && 0 <= j < |stops|
      ensures earlier[i].key != stops[j].key
    {
      assert Spec(w, earlier[i].key).venue != Spec(w, stops[j].key).venue;
    }
  }

  lemma {:induction false} SettleAllIsSafe(w: World, live: seq<nat>, unsaved: set<nat>)
    requires Inv(w)
    ensures SafeScript(w, SettleAll(w, live, unsaved))
    decreases |live|
  {
    if live != [] {
      var first := if live[0] in unsaved then [] else SettleScript(w, live[0]);
      InvHasLadders(w);
      SettleIsSafe(w, live[0]);
      hide Inv, SafeScript, SettleScript, Play, LaddersOk, RowsOk, Evolves;
      SafeScriptIsSafe(w, first);
      SettleAllIsSafe(Play(w, first), live[1..], unsaved);
      SafeConcat(w, first, SettleAll(Play(w, first), live[1..], unsaved));
    }
  }

  lemma ReconcileIsSafe(w: World, c: Cycle)
    requires Inv(w)
    ensures SafeScript(w, ReconcileScript(w, c))
  {
    if LaddersKnown(w) && CycleOk(w, c) {
      var sweep := SweepScript(w, CycleStops(w, c, c.venues));
      CycleVisitsOnce(w, c, c.venues);
      SweepIsSafe(w, CycleStops(w, c, c.venues));
      hide Inv, SafeScript, SweepScript, CycleStops, SettleAll, Play, ToVisit, Evolves, ActiveKeys, LiveLadders;
      SafeScriptIsSafe(w, sweep);
      var swept := Play(w, sweep);
      SettleAllIsSafe(swept, LiveLadders(swept.ladders), c.unsaved);
      SafeConcat(w, sweep, SettleAll(swept, LiveLadders(swept.ladders), c.unsaved));
    }
  }

  // ---------- The order the operator named ----------

  lemma ResolveFoundIsSafe(w: World, key: nat, broker: nat, lookup: Lookup)
    requires Inv(w)
    ensures SafeScript(w, ResolveFoundScript(w, key, broker, lookup))
  {
    if Adoptable(w, key, broker, lookup) {
      InvHasLadders(w);
      AdoptedIsCopy(w, key, broker, lookup);
      var adopted := w.rows[key].(broker := Some(broker), reason := "");
      var learn, apply := Learn(Finding(key, broker, lookup.report)), ApplyScript(w, key, adopted, Spec(w, key), lookup.report);
      hide Inv, SafeScript, ApplyScript, Adoptable, CopyOf, LaddersOk, RowsOk, SettleScript;
      HeardIsSafe(w, key, adopted, lookup.report, |apply|);
      assert Take(apply, |apply|) == apply;
      ThenSettle(w, [learn] + apply, w.rows[key].ladder);
    }
  }

  lemma AdoptedIsCopy(w: World, key: nat, broker: nat, lookup: Lookup)
    requires RowsOk(w) && Adoptable(w, key, broker, lookup)
    ensures CopyOf(w, key, w.rows[key].(broker := Some(broker), reason := ""))
    ensures HonestReport(lookup.report, w.rows[key].quantity, Spec(w, key))
  {
  }
}
