/**
  What one uninterrupted cycle of Reconcile achieves: every linked order it reads shows the exchange's fill, no ladder
  stays open with nothing left to happen to it, and the same answers a second time change nothing.
*/
module Cycles {
  import opened Wrappers
  import opened Market
  import opened Records
  import opened Protocol
  import opened Steps
  import opened Operations
  import opened Safety
  import opened CancelSafety
  import opened ReconcileSafety
  import opened Listings
  import Outcomes
  import Ladder

  // ---------- What one report leaves of a row ----------

  /** The row after its fate is recorded as unknown, if the index admits the write and it goes through. */
  ghost function AfterPark(fits: bool, r: Order, o: Order, reason: string, n: nat): Order {
    if n == 0 || !fits || (o.status == Unknown && o.reason == reason) then r else o.(status := Unknown, reason := reason)
  }

  /** The row after a report about the process's copy o of it. */
  ghost function AfterReport(fits: bool, r: Order, o: Order, spec: Ladder.Spec, e: Evidence, n: nat): Order {
    if e.symbol != spec.symbol || e.side != spec.side then AfterPark(fits, r, o, WRONG_TERMS, n)
    else if e.filled > o.quantity then AfterPark(fits, r, o, OVERFILLED, n)
    else if n == 0 || !fits || e.filled < o.filled then r
    else if n == 1 || e.filled <= o.notified then Applied(o, e)
    else Notified(Applied(o, e))
  }

  lemma ParkLeaves(w: World, key: nat, r: Order, o: Order, reason: string, n: nat)
    ensures Outcome(Take(ParkScript(w, key, o, reason), n), r) == AfterPark(UpdateOk(w, key, o), r, o, reason, n)
  {
    var p := o.(status := Unknown, reason := reason);
    SameIndex(w, w, key, o, p);
    OutcomeOfOne(p, key, r, n);
    hide UpdateOk;
  }

  lemma ReportLeaves(w: World, key: nat, r: Order, o: Order, spec: Ladder.Spec, e: Evidence, n: nat)
    ensures Outcome(Take(ApplyScript(w, key, o, spec, e), n), r) == AfterReport(UpdateOk(w, key, o), r, o, spec, e, n)
  {
    var p := Applied(o, e);
    ParkLeaves(w, key, r, o, WRONG_TERMS, n);
    ParkLeaves(w, key, r, o, OVERFILLED, n);
    SameIndex(w, w, key, o, p);
    OutcomeOfOne(p, key, r, n);
    OutcomeOfTwo(p, Notified(p), key, r, n);
    assert p.filled == e.filled && p.notified == o.notified;
    hide UpdateOk, Applied, ParkScript, AfterPark, Outcome, Take;
  }

  lemma LookupLeaves(w: World, key: nat, r: Order, spec: Ladder.Spec, reply: Reply)
    requires r.broker.Some? && UpdateOk(w, key, r)
    ensures Outcome(LookupScript(w, key, r, spec, reply), r)
      == if reply.lookup.Found? then AfterReport(true, r, r, spec, reply.lookup.report, reply.writes) else r
  {
    if reply.lookup.Found? {
      var e := reply.lookup.report;
      ReportLeaves(w, key, r, r, spec, e, reply.writes);
      LearningWritesNothing(Finding(key, r.broker.value, e), Take(ApplyScript(w, key, r, spec, e), reply.writes), r);
      hide UpdateOk, ApplyScript, AfterReport, Take, Outcome;
    }
  }

  lemma AdoptLeaves(w: World, key: nat, r: Order, spec: Ladder.Spec, reply: Reply)
    requires reply.lookup.Found? && reply.lookup.report.client == Some(key)
    ensures var e := reply.lookup.report;
      var o := r.(broker := Some(e.broker));
      Outcome(RecoverScript(w, key, r, spec, reply), r) == AfterReport(UpdateOk(w, key, o), r, o, spec, e, reply.writes)
  {
    var e := reply.lookup.report;
    var o := r.(broker := Some(e.broker));
    ReportLeaves(w, key, r, o, spec, e, reply.writes);
    LearningWritesNothing(Finding(key, e.broker, e), Take(ApplyScript(w, key, o, spec, e), reply.writes), r);
    hide UpdateOk, ApplyScript, AfterReport, Take, Outcome;
  }

  /** Why an order found under no identifier of ours, or not found, is parked. */
  function ParkReason(lookup: Lookup): string {
    match lookup
    case Unsupported => LOOKUP_UNSUPPORTED
    case Failed(reason) => Trim(reason)
    case Found(_) => WRONG_CLIENT
  }

  lemma ParkedLeaves(w: World, key: nat, r: Order, spec: Ladder.Spec, reply: Reply)
    requires !(reply.lookup.Found? && reply.lookup.report.client == Some(key))
    ensures Outcome(RecoverScript(w, key, r, spec, reply), r)
      == AfterPark(UpdateOk(w, key, r), r, r, ParkReason(reply.lookup), reply.writes)
  {
    ParkLeaves(w, key, r, r, ParkReason(reply.lookup), reply.writes);
    hide UpdateOk, ParkScript, AfterPark, Take, Outcome;
  }

  // ---------- Hearing the same report again ----------

  /** A row that took a report over has nothing left to take from the same report. */
  lemma ReportTwice(r: Order, o: Order, spec: Ladder.Spec, e: Evidence, n: nat)
    requires var r1 := AfterReport(true, r, o, spec, e, n);
      r1.status.Active() && o.status.Active() && (r1 != r || r == o)
    ensures var r1 := AfterReport(true, r, o, spec, e, n);
      AfterReport(true, r1, r1, spec, e, n) == r1
  {
  }

  // ---------- One stop, twice ----------

  /** The stop would leave its row as it is. */
  ghost predicate Idle(w: World, stop: Stop) {
    stop.key < |w.rows| && Outcome(RefreshAt(w, stop), w.rows[stop.key]) == w.rows[stop.key]
  }

  /** Exchange ids that were known still are, and are the same. */
  ghost predicate LinksKept(w: World, w': World) {
    |w'.rows| == |w.rows| && forall k | 0 <= k < |w.rows| && w.rows[k].broker.Some? :: w'.rows[k].broker == w.rows[k].broker
  }

  /** An id the index refused once is refused from then on. */
  lemma IndexTightens(w: World, w': World, key: nat, o: Order)
    requires LinksKept(w, w') && UpdateOk(w', key, o)
    ensures UpdateOk(w, key, o)
  {
  }

  /** The visit to a stop went as it did in w, and w' is what became of the tables. */
  ghost predicate WentAs(w: World, stop: Stop, w': World) {
    && stop.key < |w.rows| && w.rows[stop.key].ladder < |w.ladders| && LinksKept(w, w')
    && w'.rows[stop.key] == Outcome(RefreshAt(w, stop), w.rows[stop.key])
    && w'.rows[stop.key].ladder < |w'.ladders| && w'.rows[stop.key].ladder == w.rows[stop.key].ladder
    && Spec(w', stop.key) == Spec(w, stop.key)
  }

  lemma AdoptedTwice(w: World, w': World, stop: Stop)
    requires BrokersUnique(w') && WentAs(w, stop, w') && w.rows[stop.key].status.Active() && w'.rows[stop.key].status.Active()
    requires w.rows[stop.key].status != Prepared && w.rows[stop.key].broker.None?
    requires stop.reply.lookup.Found? && stop.reply.lookup.report.client == Some(stop.key)
    ensures Idle(w', stop)
  {
    var key, r, r', reply, spec := stop.key, w.rows[stop.key], w'.rows[stop.key], stop.reply, Spec(w, stop.key);
    var e := reply.lookup.report;
    var o := r.(broker := Some(e.broker));
    hide BrokersUnique, RecoverScript, LookupScript, AfterReport, UpdateOk, Outcome, Unchanged;
    AdoptLeaves(w, key, r, spec, reply);
    if r' == r {
      AdoptLeaves(w', key, r, spec, reply);
      ReportFits(r, o, spec, e, reply.writes, UpdateOk(w, key, o), UpdateOk(w', key, o)) by {
        if UpdateOk(w', key, o) {
          IndexTightens(w, w', key, o);
        }
      }
    } else {
      ReportLinks(UpdateOk(w, key, o), r, o, spec, e, reply.writes);
      SameBrokerFits(w', key, r');
      LookupLeaves(w', key, r', spec, reply);
      ReportTwice(r, o, spec, e, reply.writes);
    }
  }

  lemma ReportFits(r: Order, o: Order, spec: Ladder.Spec, e: Evidence, n: nat, fits: bool, fits': bool)
    requires fits' ==> fits
    requires AfterReport(fits, r, o, spec, e, n) == r
    ensures AfterReport(fits', r, o, spec, e, n) == r
  {
  }

  lemma ReportLinks(fits: bool, r: Order, o: Order, spec: Ladder.Spec, e: Evidence, n: nat)
    ensures var r' := AfterReport(fits, r, o, spec, e, n); r' != r ==> fits && r'.broker == o.broker
  {
  }

  lemma ParkedTwice(w: World, w': World, stop: Stop)
    requires WentAs(w, stop, w')
    requires w.rows[stop.key].status != Prepared && w.rows[stop.key].broker.None?
    requires !(stop.reply.lookup.Found? && stop.reply.lookup.report.client == Some(stop.key))
    ensures Idle(w', stop)
  {
    hide RecoverScript, Outcome;
    ParkedLeaves(w, stop.key, w.rows[stop.key], Spec(w, stop.key), stop.reply);
    ParkedLeaves(w', stop.key, w'.rows[stop.key], Spec(w, stop.key), stop.reply);
  }

  lemma LookedUpTwice(w: World, w': World, stop: Stop)
    requires BrokersUnique(w) && BrokersUnique(w') && WentAs(w, stop, w')
    requires w.rows[stop.key].status.Active() && w'.rows[stop.key].status.Active()
    requires w.rows[stop.key].status != Prepared && w.rows[stop.key].broker.Some? && !Unchanged(w.rows[stop.key], stop.listing)
    ensures Idle(w', stop)
  {
    var key, r, r', reply, spec := stop.key, w.rows[stop.key], w'.rows[stop.key], stop.reply, Spec(w, stop.key);
    hide LookupScript, AfterReport, Outcome, Unchanged;
    SameBrokerFits(w, key, r);
    SameBrokerFits(w', key, r');
    hide BrokersUnique, UpdateOk;
    LookupLeaves(w, key, r, spec, reply);
    LookupLeaves(w', key, r', spec, reply);
    if reply.lookup.Found? {
      ReportTwice(r, r, spec, reply.lookup.report, reply.writes);
    }
  }

  /** A stop that left its row active finds nothing more to do there on the same answer. */
  lemma StopTwice(w: World, w': World, stop: Stop)
    requires BrokersUnique(w) && BrokersUnique(w') && WentAs(w, stop, w')
    requires w.rows[stop.key].status.Active() && w'.rows[stop.key].status.Active()
    ensures Idle(w', stop)
  {
    var r := w.rows[stop.key];
    hide BrokersUnique, LinksKept, LookupScript, RecoverScript, Unchanged;
    if r.status == Prepared {
    } else if r.broker.None? {
      if stop.reply.lookup.Found? && stop.reply.lookup.report.client == Some(stop.key) {
        AdoptedTwice(w, w', stop);
      } else {
        ParkedTwice(w, w', stop);
      }
    } else if !Unchanged(r, stop.listing) {
      LookedUpTwice(w, w', stop);
    }
  }

  // ---------- A whole sweep ----------

  lemma {:induction false} SweepTouchesOnlyStops(w: World, stops: seq<Stop>, k: nat)
    requires k < |w.rows| && forall i | 0 <= i < |stops| :: stops[i].key != k
    ensures var w' := Play(w, SweepScript(w, stops));
      |w'.rows| == |w.rows| && w'.rows[k] == w.rows[k] && w'.ladders == w.ladders && w'.connected == w.connected
    decreases |stops|
  {
    if stops != [] {
      var s := RefreshAt(w, stops[0]);
      RefreshAtOnlyRow(w, stops[0]);
      hide RefreshAt, Play;
      OnlyRowChanges(w, s, stops[0].key);
      SweepTouchesOnlyStops(Play(w, s), stops[1..], k);
      PlayConcat(w, s, SweepScript(Play(w, s), stops[1..]));
    }
  }

  lemma {:induction false} SweepKeepsLadders(w: World, stops: seq<Stop>)
    ensures var w' := Play(w, SweepScript(w, stops)); w'.ladders == w.ladders && w'.connected == w.connected
    decreases |stops|
  {
    if stops != [] {
      var s := RefreshAt(w, stops[0]);
      RefreshAtOnlyRow(w, stops[0]);
      hide RefreshAt, Play;
      OnlyRowChanges(w, s, stops[0].key);
      SweepKeepsLadders(Play(w, s), stops[1..]);
      PlayConcat(w, s, SweepScript(Play(w, s), stops[1..]));
    }
  }

  lemma VisitKeepsLink(w: World, stop: Stop)
    requires stop.key < |w.rows| && w.rows[stop.key].ladder < |w.ladders|
    ensures LinksKept(w, Play(w, RefreshAt(w, stop)))
  {
    hide Play, Outcome, LookupScript, RecoverScript, Visited;
    var r := w.rows[stop.key];
    VisitLeaves(w, stop);
    if r.broker.Some? {
      BrokerStays(w, stop.key, r, Spec(w, stop.key), stop.reply);
      NothingLeaves(r);
    }
    hide RefreshAt;
  }

  lemma NothingLeaves(r: Order)
    ensures Outcome([], r) == r
  {
  }

  lemma VisitLeaves(w: World, stop: Stop)
    requires stop.key < |w.rows| && w.rows[stop.key].ladder < |w.ladders|
    ensures var w1 := Play(w, RefreshAt(w, stop));
      && |w1.rows| == |w.rows| && w1.ladders == w.ladders
      && (forall k | 0 <= k < |w.rows| && k != stop.key :: w1.rows[k] == w.rows[k])
      && w1.rows[stop.key] == Outcome(RefreshAt(w, stop), w.rows[stop.key])
  {
    RefreshVisits(w, stop);
    hide RefreshAt, Play, Outcome;
  }

  lemma LinksCompose(w: World, w1: World, w2: World)
    requires LinksKept(w, w1) && LinksKept(w1, w2)
    ensures LinksKept(w, w2)
  {
  }

  /** One visit on: everything the rest of the sweep needs. */
  lemma SweepStep(w: World, stops: seq<Stop>)
    requires Inv(w) && ToVisit(w, stops) && stops != []
    ensures stops[0].key < |w.rows| && w.rows[stops[0].key].ladder < |w.ladders|
    ensures var w1 := Play(w, RefreshAt(w, stops[0]));
      && Inv(w1) && ToVisit(w1, stops[1..]) && LinksKept(w, w1) && w1.ladders == w.ladders && |w1.rows| == |w.rows|
      && w1.rows[stops[0].key] == Outcome(RefreshAt(w, stops[0]), w.rows[stops[0].key])
      && forall k | 0 <= k < |w.rows| && k != stops[0].key :: w1.rows[k] == w.rows[k]
  {
    hide RefreshAt, Play, SafeScript, Evolves, Outcome, ToVisit, LinksKept;
    FirstStopIsActive(w, stops);
    KnownLadder(w, stops[0].key);
    hide Inv;
    VisitLeaves(w, stops[0]);
    VisitKeepsLink(w, stops[0]);
    RefreshAtIsSafe(w, stops[0]);
    SafeScriptIsSafe(w, RefreshAt(w, stops[0]));
    StillToVisit(w, Play(w, RefreshAt(w, stops[0])), stops);
  }

  lemma KnownLadder(w: World, key: nat)
    requires Inv(w) && key < |w.rows|
    ensures w.rows[key].ladder < |w.ladders|
  {
  }

  lemma {:induction false} SweepKeepsLinks(w: World, stops: seq<Stop>)
    requires Inv(w) && ToVisit(w, stops)
    ensures LinksKept(w, Play(w, SweepScript(w, stops)))
    decreases |stops|
  {
    if stops != [] {
      hide Inv, RefreshAt, Play, ToVisit, Outcome, LinksKept;
      var s := RefreshAt(w, stops[0]);
      SweepStep(w, stops);
      SweepKeepsLinks(Play(w, s), stops[1..]);
      PlayConcat(w, s, SweepScript(Play(w, s), stops[1..]));
      LinksCompose(w, Play(w, s), Play(w, SweepScript(w, stops)));
    }
  }

  /** The tables as the visit to the i-th stop found them. */
  lemma {:induction false} VisitedFrom(w: World, stops: seq<Stop>, i: nat) returns (m: World)
    requires Inv(w) && ToVisit(w, stops) && i < |stops|
    ensures Inv(m) && WentAs(m, stops[i], Play(w, SweepScript(w, stops)))
    ensures m.rows[stops[i].key] == w.rows[stops[i].key] && m.ladders == w.ladders && |m.rows| == |w.rows|
    decreases |stops|
  {
    hide Inv, RefreshAt, Play, Outcome, LinksKept;
    var s := RefreshAt(w, stops[0]);
    var w1, rest := Play(w, s), stops[1..];
    SweepStep(w, stops);
    PlayConcat(w, s, SweepScript(w1, rest));
    if i == 0 {
      m := w;
      SweepTouchesOnlyStops(w1, rest, stops[0].key);
      SweepKeepsLinks(w1, rest);
      LinksCompose(w, w1, Play(w, SweepScript(w, stops)));
      KeptLadder(w, stops[0], w1);
    } else {
      m := VisitedFrom(w1, rest, i - 1);
      assert rest[i - 1] == stops[i];
    }
  }

  lemma KeptLadder(w: World, stop: Stop, w1: World)
    requires Inv(w) && stop.key < |w.rows| && w.rows[stop.key].status.Active() && w1 == Play(w, RefreshAt(w, stop))
    ensures stop.key < |w1.rows| && w1.rows[stop.key].ladder == w.rows[stop.key].ladder
  {
    hide Inv, RefreshAt, Play, SafeScript;
    RefreshAtIsSafe(w, stop);
    SafeScriptIsSafe(w, RefreshAt(w, stop));
    assert RowEvolves(w.rows[stop.key], w1.rows[stop.key]);
  }

  // ---------- Which stops a cycle makes ----------

  /** The stop belongs to the cycle: an active order, with its venue's listing and its own reply. */
  ghost predicate IsStop(w: World, c: Cycle, venues: seq<Venue>, stop: Stop)
    requires LaddersKnown(w)
  {
    && stop.key in c.keys && stop.key < |w.rows|
    && var venue := Spec(w, stop.key).venue;
    && venue in venues && venue in w.connected && venue in c.listings
    && stop == Stop(stop.key, c.listings[venue], LookupReply(c.replies, stop.key))
  }

  lemma {:induction false} VenueStopsAre(w: World, venue: Venue, listing: Listing, keys: seq<nat>, replies: map<nat, Reply>, stop: Stop)
    requires LaddersKnown(w) && forall i | 0 <= i < |keys| :: keys[i] < |w.rows|
    ensures stop in VenueStops(w, venue, listing, keys, replies) <==>
      && stop.key in keys && Spec(w, stop.key).venue == venue && stop == Stop(stop.key, listing, LookupReply(replies, stop.key))
  {
    if keys != [] {
      var n := |keys| - 1;
      assert keys == keys[..n] + [keys[n]];
      VenueStopsAre(w, venue, listing, keys[..n], replies, stop);
    }
  }

  lemma {:induction false} CycleStopsAre(w: World, c: Cycle, venues: seq<Venue>, stop: Stop)
    requires LaddersKnown(w) && forall i | 0 <= i < |c.keys| :: c.keys[i] < |w.rows|
    ensures stop in CycleStops(w, c, venues) <==> IsStop(w, c, venues, stop)
  {
    if venues != [] {
      var n := |venues| - 1;
      assert venues == venues[..n] + [venues[n]];
      CycleStopsAre(w, c, venues[..n], stop);
      if venues[n] in c.listings {
        VenueStopsAre(w, venues[n], c.listings[venues[n]], c.keys, c.replies, stop);
      }
      hide VenueStops, LookupReply;
    }
  }

  // ---------- Settling ----------

  /** Nothing but the closing of live ladders. */
  ghost predicate OnlyCloses(w: World, w': World) {
    && w'.rows == w.rows && w'.connected == w.connected && |w'.ladders| == |w.ladders|
    && forall l | 0 <= l < |w.ladders| ::
         && w'.ladders[l].spec == w.ladders[l].spec && w'.ladders[l].reason == w.ladders[l].reason
         && (w'.ladders[l] == w.ladders[l] || (w.ladders[l].state.Live() && !w'.ladders[l].state.Live()))
  }

  lemma NothingPlayed(w: World)
    ensures Play(w, []) == w && OnlyCloses(w, w)
  {
  }

  lemma SettleOne(w: World, l: nat)
    ensures var w1 := Play(w, SettleScript(w, l));
      && OnlyCloses(w, w1) && (l < |w.ladders| && w1.ladders[l].state.Live() ==> AnyActive(w.rows, l))
      && forall m | 0 <= m < |w.ladders| && m != l :: w1.ladders[m] == w.ladders[m]
  {
    hide AnyActive, Outcomes.Summarize, RowsOf;
    NothingPlayed(w);
    var script := SettleScript(w, l);
    if script != [] {
      var a := script[0];
      assert script == [a] && a.SaveState? && a.ladder == l && !a.state.Live() && w.ladders[l].state.Live();
      hide SettleScript, Play;
      PlayOne(w, a);
    }
  }

  lemma {:induction false} SettleAllLeaves(w: World, live: seq<nat>, unsaved: set<nat>)
    ensures var w1 := Play(w, SettleAll(w, live, unsaved));
      && OnlyCloses(w, w1)
      && (forall l | l in unsaved && l < |w.ladders| :: w1.ladders[l] == w.ladders[l])
      && forall l | l in live && l !in unsaved && l < |w.ladders| && w1.ladders[l].state.Live() :: AnyActive(w.rows, l)
    decreases |live|
  {
    if live != [] {
      var first := if live[0] in unsaved then [] else SettleScript(w, live[0]);
      SettleOne(w, live[0]);
      hide Play, SettleScript, AnyActive;
      var w1 := Play(w, first);
      assert OnlyCloses(w, w1) by {
        NothingPlayed(w);
      }
      SettleAllLeaves(w1, live[1..], unsaved);
      PlayConcat(w, first, SettleAll(w1, live[1..], unsaved));
      assert forall l | l in live :: l == live[0] || l in live[1..];
    }
  }

  lemma {:induction false} NothingToSettle(w: World, live: seq<nat>, unsaved: set<nat>)
    requires forall l | l in live && l !in unsaved :: AnyActive(w.rows, l)
    ensures SettleAll(w, live, unsaved) == []
    decreases |live|
  {
    if live != [] {
      hide AnyActive;
      NothingPlayed(w);
      NothingToSettle(w, live[1..], unsaved);
    }
  }

  // ---------- A whole cycle ----------

  /** After a cycle the orders are as the sweep left them, and whichever live ladder had nothing left active is closed. */
  lemma CycleLeaves(w: World, c: Cycle)
    requires LaddersKnown(w) && CycleOk(w, c)
    ensures var w1 := Play(w, ReconcileScript(w, c));
      && w1.rows == Play(w, SweepScript(w, CycleStops(w, c, c.venues))).rows
      && w1.connected == w.connected && |w1.ladders| == |w.ladders| && |w1.rows| == |w.rows|
      && (forall l | 0 <= l < |w.ladders| ::
            && w1.ladders[l].spec == w.ladders[l].spec && w1.ladders[l].reason == w.ladders[l].reason
            && (w1.ladders[l] == w.ladders[l] || (w.ladders[l].state.Live() && !w1.ladders[l].state.Live())))
      && (forall l | 0 <= l < |w.ladders| && l in c.unsaved :: w1.ladders[l] == w.ladders[l])
      && (forall l | 0 <= l < |w.ladders| && w.ladders[l].state.Live() && l !in c.unsaved ::
            w1.ladders[l].state.Live() ==> AnyActive(w1.rows, l))
  {
    assert forall i | 0 <= i < |c.keys| :: c.keys[i] < |w.rows|;
    hide Play, SweepScript, CycleStops, SettleAll, LiveLadders, ActiveKeys, AnyActive;
    var sweep := SweepScript(w, CycleStops(w, c, c.venues));
    var swept := Play(w, sweep);
    PlayConcat(w, sweep, SettleAll(swept, LiveLadders(swept.ladders), c.unsaved));
    SettleAllLeaves(swept, LiveLadders(swept.ladders), c.unsaved);
    SweepKeepsLadders(w, CycleStops(w, c, c.venues));
    SweepKeepsRows(w, CycleStops(w, c, c.venues));
  }

  /**
    An uninterrupted cycle closes a live ladder exactly when no order of it can change any more, as DONE when something of
    it filled and as CANCELED otherwise, and leaves every other ladder as it is.
  */
  lemma CycleClosesIff(w: World, c: Cycle, l: nat)
    requires Inv(w) && LaddersKnown(w) && CycleOk(w, c) && l < |w.ladders|
    ensures var w1 := Play(w, ReconcileScript(w, c));
      var over := w.ladders[l].state.Live() && l !in c.unsaved && !AnyActive(w1.rows, l);
      var filled := exists k :: 0 <= k < |w1.rows| && w1.rows[k].ladder == l && 0 < w1.rows[k].filled;
      && l < |w1.ladders|
      && w1.ladders[l] == if over then w.ladders[l].(state := if filled then StateDone else StateCanceled) else w.ladders[l]
  {
    hide ReconcileScript, Play, SafeScript, CycleOk, SweepScript, CycleStops;
    CycleLeaves(w, c);
    ReconcileIsSafe(w, c);
    SafeScriptIsSafe(w, ReconcileScript(w, c));
    var w1 := Play(w, ReconcileScript(w, c));
    ClosedLadder(w1, l);
    if w.ladders[l].state != StateDraft {
      ClosedByCycle(w, w1, l);
    }
  }

  lemma ClosedByCycle(w: World, w1: World, l: nat)
    requires Evolves(w, w1) && l < |w.ladders| && w.ladders[l].state != StateDraft
    ensures l < |w1.ladders| && w1.ladders[l].state != StateDraft
  {
    assert LadderEvolves(w.ladders[l], w1.ladders[l], RetypedSince(w, w1, l));
  }

  lemma ClosedLadder(w: World, l: nat)
    requires Inv(w) && l < |w.ladders|
    ensures w.ladders[l].state.Closed() ==> !AnyActive(w.rows, l)
    ensures w.ladders[l].state.Closed() ==> (w.ladders[l].state == StateDone <==>
      exists k :: 0 <= k < |w.rows| && w.rows[k].ladder == l && 0 < w.rows[k].filled)
  {
    InvHasLadders(w);
    assert RowsOk(w) && LadderOk(w, l);
    hide Inv, LaddersOk;
    if w.ladders[l].state == StateCanceled {
      assert forall k | 0 <= k < |w.rows| && w.rows[k].ladder == l :: w.rows[k].filled == 0;
    }
  }

  /** The listing shows a linked order at the fill that is stored, and no cancel of it is awaited. */
  ghost predicate ShownAsIs(r: Order, listing: Listing) {
    r.broker.Some? && r.broker.value in listing && listing[r.broker.value] == r.filled && r.status != PendingCancel
  }

  /** The exchange answers this stop with the fill its order has, for the order we sent, and the writes go through. */
  ghost predicate Reads(w: World, stop: Stop, fills: nat -> int) {
    && stop.key < |w.rows| && w.rows[stop.key].ladder < |w.ladders|
    && var r := w.rows[stop.key];
    && (r.broker.Some? ==>
          && r.filled <= fills(r.broker.value)
          && (r.broker.value in stop.listing ==> stop.listing[r.broker.value] == fills(r.broker.value))
          && (!ShownAsIs(r, stop.listing) ==>
                && stop.reply.lookup.Found? && 2 <= stop.reply.writes
                && HonestReport(stop.reply.lookup.report, r.quantity, Spec(w, stop.key))
                && stop.reply.lookup.report.filled == fills(r.broker.value)))
  }

  /**
    What the row shows after the visit. One that was looked up is FILLED when all of it filled, goes on waiting for its
    cancel while it rests, and otherwise has the status reported; and when the exchange took a resting one back unasked,
    the row says so.
  */
  ghost predicate ShowsTheFill(r: Order, r1: Order, stop: Stop, fills: nat -> int)
    requires r.broker.Some? && (ShownAsIs(r, stop.listing) || stop.reply.lookup.Found?)
  {
    && r1.broker == r.broker && r1.filled == fills(r.broker.value)
    && if ShownAsIs(r, stop.listing) then r1 == r
       else
         var e := stop.reply.lookup.report;
         var status :=
           if e.filled == r.quantity then Filled
           else if r.status == PendingCancel && (e.status == Pending || e.status == PartialFilled) then PendingCancel
           else e.status;
         var reason := if status == Canceled && (r.status == Pending || r.status == PartialFilled) then WITHDRAWN else r.reason;
         && r1 == Order(r.ladder, r.rung, r.price, r.quantity, status, r.broker, e.filled, e.amount, e.costs, e.costsFinal, e.filled, reason)
         && (status.Terminal() <==> e.status.Terminal() || e.filled == r.quantity)
  }

  lemma StopShowsTheFill(w: World, stop: Stop, fills: nat -> int)
    requires BrokersUnique(w) && Reads(w, stop, fills) && RowOk(w.rows[stop.key]) && w.rows[stop.key].status.Active()
    requires w.rows[stop.key].broker.Some?
    ensures ShowsTheFill(w.rows[stop.key], Outcome(RefreshAt(w, stop), w.rows[stop.key]), stop, fills)
  {
    var key, r := stop.key, w.rows[stop.key];
    SameBrokerFits(w, key, r);
    hide BrokersUnique, UpdateOk, LookupScript, Outcome;
    LookupLeaves(w, key, r, Spec(w, key), stop.reply);
    NothingLeaves(r);
  }

  /**
    After an uninterrupted cycle every linked order it read shows exactly the exchange's fill; one it looked up shows
    the reported money too, is open exactly when the exchange has it open, and has no fill left to tell the operator.
  */
  lemma CycleShowsTheFills(w: World, c: Cycle, fills: nat -> int, stop: Stop)
    requires Inv(w) && LaddersKnown(w) && CycleOk(w, c)
    requires IsStop(w, c, c.venues, stop) && w.rows[stop.key].broker.Some? && Reads(w, stop, fills)
    ensures var w1 := Play(w, ReconcileScript(w, c));
      stop.key < |w1.rows| && ShowsTheFill(w.rows[stop.key], w1.rows[stop.key], stop, fills)
  {
    hide Play, ReconcileScript, SweepScript, CycleStops, RefreshAt, Outcome, ShowsTheFill, Inv, Unchanged, LinksKept, BrokersUnique, Reads;
    var m := StopVisited(w, c, stop);
    hide CycleOk;
    FineTables(m, stop.key);
    ReadsAlike(w, m, stop, fills);
    StopShowsTheFill(m, stop, fills);
  }

  /** The tables as a stop of the cycle found them. */
  lemma StopVisited(w: World, c: Cycle, stop: Stop) returns (m: World)
    requires Inv(w) && LaddersKnown(w) && CycleOk(w, c) && IsStop(w, c, c.venues, stop)
    ensures Inv(m) && WentAs(m, stop, Play(w, ReconcileScript(w, c)))
    ensures m.rows[stop.key] == w.rows[stop.key] && m.ladders == w.ladders && |m.rows| == |w.rows|
    ensures w.rows[stop.key].status.Active() && |Play(w, ReconcileScript(w, c)).rows| == |w.rows|
  {
    assert forall j | 0 <= j < |c.keys| :: c.keys[j] < |w.rows|;
    hide Play, ReconcileScript, SweepScript, CycleStops, RefreshAt, Outcome, Inv, ToVisit, LinksKept, ActiveKeys;
    StopIsActive(w, c, stop);
    SweptRows(w, c);
    var stops := CycleStops(w, c, c.venues);
    var i := StopIndex(w, c, stop);
    CycleVisitsOnce(w, c, c.venues);
    hide IsStop, CycleOk;
    m := VisitedFrom(w, stops, i);
    SameLinks(m, Play(w, SweepScript(w, stops)), Play(w, ReconcileScript(w, c)));
  }

  lemma StopIndex(w: World, c: Cycle, stop: Stop) returns (i: nat)
    requires LaddersKnown(w) && CycleOk(w, c) && IsStop(w, c, c.venues, stop)
    ensures i < |CycleStops(w, c, c.venues)| && CycleStops(w, c, c.venues)[i] == stop
  {
    assert forall j | 0 <= j < |c.keys| :: c.keys[j] < |w.rows|;
    CycleStopsAre(w, c, c.venues, stop);
    hide CycleStops, IsStop;
    var stops := CycleStops(w, c, c.venues);
    i :| 0 <= i < |stops| && stops[i] == stop;
  }

  lemma SweptRows(w: World, c: Cycle)
    requires LaddersKnown(w) && CycleOk(w, c)
    ensures var w1 := Play(w, ReconcileScript(w, c));
      && w1.rows == Play(w, SweepScript(w, CycleStops(w, c, c.venues))).rows && |w1.rows| == |w.rows|
      && Play(w, SweepScript(w, CycleStops(w, c, c.venues))).ladders == w.ladders
      && |w1.ladders| == |w.ladders| && forall l | 0 <= l < |w.ladders| :: w1.ladders[l].spec == w.ladders[l].spec
  {
    assert forall i | 0 <= i < |c.keys| :: c.keys[i] < |w.rows|;
    hide Play, ReconcileScript, SweepScript, CycleStops, ActiveKeys, AnyActive;
    CycleLeaves(w, c);
    SweepKeepsLadders(w, CycleStops(w, c, c.venues));
  }

  lemma ReadsAlike(w: World, m: World, stop: Stop, fills: nat -> int)
    requires Reads(w, stop, fills) && |m.rows| == |w.rows| && m.rows[stop.key] == w.rows[stop.key] && m.ladders == w.ladders
    ensures Reads(m, stop, fills)
  {
  }

  lemma FineTables(w: World, key: nat)
    requires Inv(w)
    ensures BrokersUnique(w) && (key < |w.rows| ==> RowOk(w.rows[key]))
  {
  }

  // ---------- The same answers again ----------

  lemma SameRowsSamePark(w: World, w1: World, key: nat, order: Order, reason: string)
    requires w1.rows == w.rows
    ensures ParkScript(w1, key, order, reason) == ParkScript(w, key, order, reason)
  {
    assert forall o :: UpdateOk(w1, key, o) == UpdateOk(w, key, o);
    hide UpdateOk;
  }

  lemma SameRowsSameReport(w: World, w1: World, key: nat, order: Order, spec: Ladder.Spec, e: Evidence)
    requires w1.rows == w.rows
    ensures ApplyScript(w1, key, order, spec, e) == ApplyScript(w, key, order, spec, e)
  {
    SameRowsSamePark(w, w1, key, order, WRONG_TERMS);
    SameRowsSamePark(w, w1, key, order, OVERFILLED);
    assert forall o :: UpdateOk(w1, key, o) == UpdateOk(w, key, o);
    hide UpdateOk, ParkScript, Applied;
  }

  lemma SameTablesSameVisit(w: World, w1: World, stop: Stop)
    requires w1.rows == w.rows && w1.ladders == w.ladders
    ensures RefreshAt(w1, stop) == RefreshAt(w, stop)
  {
    if stop.key < |w.rows| {
      var r, e := w.rows[stop.key], stop.reply.lookup;
      SameRowsSamePark(w, w1, stop.key, r, ParkReason(e));
      if e.Found? && r.ladder < |w.ladders| {
        SameRowsSameReport(w, w1, stop.key, r, Spec(w, stop.key), e.report);
        SameRowsSameReport(w, w1, stop.key, r.(broker := Some(e.report.broker)), Spec(w, stop.key), e.report);
      }
      hide ParkScript, ApplyScript, Unchanged, Take;
    }
  }

  lemma {:induction false} IdleSweep(w: World, stops: seq<Stop>)
    requires forall i | 0 <= i < |stops| ::
      stops[i].key < |w.rows| && w.rows[stops[i].key].ladder < |w.ladders| && Idle(w, stops[i])
    ensures var w1 := Play(w, SweepScript(w, stops)); w1.rows == w.rows && w1.ladders == w.ladders
    decreases |stops|
  {
    if stops != [] {
      var s := RefreshAt(w, stops[0]);
      VisitLeaves(w, stops[0]);
      var w1 := Play(w, s);
      assert Idle(w, stops[0]);
      assert w1.rows == w.rows;
      forall i | 0 <= i < |stops[1..]|
        ensures stops[1..][i].key < |w.rows| && w.rows[stops[1..][i].key].ladder < |w.ladders| && Idle(w1, stops[1..][i])
      {
        assert Idle(w, stops[i + 1]);
        SameTablesSameVisit(w, w1, stops[i + 1]);
      }
      hide RefreshAt, Play, Outcome, Idle;
      IdleSweep(w1, stops[1..]);
      PlayConcat(w, s, SweepScript(w1, stops[1..]));
    }
  }

  /** What the first cycle made of a stop, seen from the tables after it. */
  lemma StopLeft(w: World, c: Cycle, w1: World, stop: Stop)
    requires Inv(w) && LaddersKnown(w) && CycleOk(w, c) && IsStop(w, c, c.venues, stop)
    requires w1 == Play(w, ReconcileScript(w, c)) && BrokersUnique(w1) && stop.key < |w1.rows| && w1.rows[stop.key].status.Active()
    ensures Idle(w1, stop)
  {
    hide Play, ReconcileScript, Inv, RefreshAt, Outcome, LinksKept, BrokersUnique, Idle;
    var m := StopVisited(w, c, stop);
    hide CycleOk, IsStop;
    FineTables(m, stop.key);
    StopTwice(m, w1, stop);
  }

  lemma SameLinks(w: World, w1: World, w2: World)
    requires LinksKept(w, w1) && w2.rows == w1.rows
    ensures LinksKept(w, w2)
  {
  }

  /** Every stop of the second cycle was one of the first. */
  lemma SameStops(w: World, c: Cycle, w1: World, keys: seq<nat>, stop: Stop)
    requires Inv(w) && LaddersKnown(w) && CycleOk(w, c) && w1 == Play(w, ReconcileScript(w, c))
    requires LaddersKnown(w1) && ActiveKeys(w1, keys) && IsStop(w1, c.(keys := keys), c.venues, stop)
    ensures IsStop(w, c, c.venues, stop)
  {
    hide Play, ReconcileScript, SweepScript, CycleStops, Inv, AnyActive, SafeScript;
    CycleLeaves(w, c);
    ReconcileIsSafe(w, c);
    SafeScriptIsSafe(w, ReconcileScript(w, c));
    RowsEvolved(w, w1, stop.key);
  }

  lemma RowsEvolved(w: World, w1: World, key: nat)
    requires Evolves(w, w1) && |w1.rows| == |w.rows| && key < |w.rows|
    ensures RowEvolves(w.rows[key], w1.rows[key])
  {
  }

  /** A ladder still live after the first cycle is one whose closing fails, or has an order that may still change. */
  lemma NothingMoreCloses(w: World, c: Cycle, w1: World)
    requires LaddersKnown(w) && CycleOk(w, c) && w1 == Play(w, ReconcileScript(w, c))
    ensures SettleAll(w1, LiveLadders(w1.ladders), c.unsaved) == []
  {
    hide Play, ReconcileScript, SweepScript, CycleStops, CycleOk, AnyActive, SettleAll, LiveLadders;
    CycleLeaves(w, c);
    NothingToSettle(w1, LiveLadders(w1.ladders), c.unsaved);
  }

  lemma IdleCycle(w: World, c: Cycle)
    requires LaddersKnown(w) && CycleOk(w, c)
    requires forall stop | IsStop(w, c, c.venues, stop) :: Idle(w, stop)
    requires SettleAll(w, LiveLadders(w.ladders), c.unsaved) == []
    ensures var w1 := Play(w, ReconcileScript(w, c)); w1.rows == w.rows && w1.ladders == w.ladders
  {
    assert forall i | 0 <= i < |c.keys| :: c.keys[i] < |w.rows|;
    hide Play, SweepScript, CycleStops, CycleOk, AnyActive, SettleAll, LiveLadders, Idle;
    var stops := CycleStops(w, c, c.venues);
    forall i | 0 <= i < |stops|
      ensures stops[i].key < |w.rows| && w.rows[stops[i].key].ladder < |w.ladders| && Idle(w, stops[i])
    {
      CycleStopsAre(w, c, c.venues, stops[i]);
    }
    IdleSweep(w, stops);
    var swept := Play(w, SweepScript(w, stops));
    NothingToSettleEither(w, swept, LiveLadders(w.ladders), c.unsaved);
    PlayConcat(w, SweepScript(w, stops), []);
    NothingPlayed(swept);
  }

  lemma {:induction false} NothingToSettleEither(w: World, w1: World, live: seq<nat>, unsaved: set<nat>)
    requires w1.rows == w.rows && w1.ladders == w.ladders && SettleAll(w, live, unsaved) == []
    ensures SettleAll(w1, live, unsaved) == []
    decreases |live|
  {
    if live != [] {
      NothingPlayed(w);
      NothingPlayed(w1);
      hide AnyActive, Outcomes.Summarize, RowsOf;
      assert SettleScript(w1, live[0]) == SettleScript(w, live[0]);
      hide SettleScript, Play;
      NothingToSettleEither(w, w1, live[1..], unsaved);
    }
  }

  /** Reading the same answers a second time leaves every order and every ladder as the first time left them. */
  lemma SecondCycleIsIdle(w: World, c: Cycle, keys: seq<nat>)
    requires Inv(w) && LaddersKnown(w) && CycleOk(w, c)
    requires var w1 := Play(w, ReconcileScript(w, c)); LaddersKnown(w1) && ActiveKeys(w1, keys)
    ensures var w1 := Play(w, ReconcileScript(w, c));
      var w2 := Play(w1, ReconcileScript(w1, c.(keys := keys)));
      w2.rows == w1.rows && w2.ladders == w1.ladders
  {
    var w1 := Play(w, ReconcileScript(w, c));
    FinishedCycle(w, c);
    NothingMoreCloses(w, c, w1);
    hide Play, ReconcileScript, Inv, BrokersUnique, ActiveKeys, SettleAll, Idle;
    SameVenues(w, c, w1, keys);
    forall stop | IsStop(w1, c.(keys := keys), c.venues, stop)
      ensures Idle(w1, stop)
    {
      SameStops(w, c, w1, keys, stop);
      StopIsActive(w1, c.(keys := keys), stop);
      StopLeft(w, c, w1, stop);
    }
    IdleCycle(w1, c.(keys := keys));
  }

  lemma FinishedCycle(w: World, c: Cycle)
    requires Inv(w)
    ensures BrokersUnique(Play(w, ReconcileScript(w, c)))
  {
    hide Inv, Evolves, SafeScript, ReconcileScript;
    ReconcileIsSafe(w, c);
    SafeScriptIsSafe(w, ReconcileScript(w, c));
    FineTables(Play(w, ReconcileScript(w, c)), 0);
  }

  lemma SameVenues(w: World, c: Cycle, w1: World, keys: seq<nat>)
    requires CycleOk(w, c) && ActiveKeys(w1, keys)
    ensures CycleOk(w1, c.(keys := keys))
  {
  }

  lemma StopIsActive(w: World, c: Cycle, stop: Stop)
    requires LaddersKnown(w) && ActiveKeys(w, c.keys) && IsStop(w, c, c.venues, stop)
    ensures stop.key < |w.rows| && w.rows[stop.key].status.Active()
  {
  }
}
