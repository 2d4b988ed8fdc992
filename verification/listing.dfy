/**
  Reconcile looks an order up in detail only when the venue's listing says that something changed. Against an honest
  exchange that is as good as looking up every linked order.
*/
module Listings {
  import opened Wrappers
  import opened Market
  import opened Records
  import opened Protocol
  import opened Operations
  import opened Safety
  import opened CancelSafety
  import opened ReconcileSafety
  import Guarantees
  import Outcomes
  import Ladder

  /** What an exchange charged and paid for an order at some fill. */
  datatype Account = Account(amount: int, costs: int, costsFinal: bool)

  /** The exchange's books: for each of its orders, the account at each fill, which is blank before the first fill. */
  type Books = (nat, int) -> Account

  ghost predicate Blank(books: Books) {
    forall b :: books(b, 0) == Account(0, 0, false)
  }

  /** A resting order whose status and account follow from its fill. */
  ghost predicate RestsAs(e: Report, b: nat, books: Books) {
    && e.status == (if e.filled == 0 then Pending else PartialFilled)
    && Account(e.amount, e.costs, e.costsFinal) == books(b, e.filled)
  }

  /** Listing and detail are one snapshot: an order in the listing is found resting, at the fill the listing shows. */
  ghost predicate OneSnapshot(listing: Listing, b: nat, lookup: Lookup, books: Books) {
    b in listing && lookup.Found? ==> lookup.report.filled == listing[b] && RestsAs(lookup.report, b, books)
  }

  /** Everything this row was told about a resting order came from the same books. */
  ghost predicate ToldTruly(w: World, key: nat, books: Books) {
    forall f | About(w, f, key) && (f.report.status == Pending || f.report.status == PartialFilled) ::
      RestsAs(f.report, f.broker, books)
  }

  /** The lookup, when it finds the order, is about the order we sent. */
  ghost predicate AboutOurs(r: Order, spec: Ladder.Spec, lookup: Lookup) {
    lookup.Found? ==> HonestReport(lookup.report, r.quantity, spec)
  }

  /** Equal but for how much of the fill the operator has been told. */
  ghost predicate SameButNotified(r: Order, r': Order) {
    r' == r.(notified := r'.notified)
  }

  // ---------- One row ----------

  lemma RestingRowIsOnTheBooks(w: World, key: nat, books: Books)
    requires key < |w.rows| && RowOk(w.rows[key]) && StatusReported(w, key) && ToldTruly(w, key, books) && Blank(books)
    requires w.rows[key].broker.Some? && (w.rows[key].status == Pending || w.rows[key].status == PartialFilled)
    ensures var r := w.rows[key];
      && r.status == (if r.filled == 0 then Pending else PartialFilled)
      && Account(r.amount, r.costs, r.costsFinal) == books(r.broker.value, r.filled)
  {
    var r := w.rows[key];
    if !(r.status == Pending && Untouched(r)) {
      var f :| About(w, f, key) && Shows(r, f) && Explains(f.report, r);
    }
  }

  /** Looking up an order that the shortcut would skip tells us what we already have. */
  lemma SkippedLookupSaysNothingNew(r: Order, e: Report, books: Books)
    requires RowOk(r) && r.broker.Some? && (r.status == Pending || r.status == PartialFilled)
    requires r.status == (if r.filled == 0 then Pending else PartialFilled)
    requires Account(r.amount, r.costs, r.costsFinal) == books(r.broker.value, r.filled)
    requires e.filled == r.filled && RestsAs(e, r.broker.value, books)
    ensures Applied(r, e) == r
  {
  }

  /** The row a script leaves behind: its last write, if it makes one. */
  ghost function Outcome(script: seq<Action>, r: Order): Order {
    if script == [] then r
    else
      var last := script[|script| - 1];
      if last.Update? then last.order else Outcome(script[..|script| - 1], r)
  }

  lemma {:induction false} OutcomeIsPlayed(w: World, script: seq<Action>, key: nat)
    requires OnlyRow(script, key) && key < |w.rows|
    ensures key < |Play(w, script).rows| && Play(w, script).rows[key] == Outcome(script, w.rows[key])
  {
    if script != [] {
      var n := |script| - 1;
      assert forall a | a in script[..n] :: a in script;
      assert script[n] in script;
      OnlyRowChanges(w, script[..n], key);
      OutcomeIsPlayed(w, script[..n], key);
    }
  }

  lemma OutcomeOfOne(o: Order, key: nat, r: Order, n: nat)
    ensures Outcome(Take([Update(key, o)], n), r) == if n == 0 then r else o
  {
    assert Take([Update(key, o)], n) == if n == 0 then [] else [Update(key, o)];
  }

  lemma OutcomeOfTwo(o: Order, o': Order, key: nat, r: Order, n: nat)
    ensures Outcome(Take([Update(key, o), Update(key, o')], n), r) == if n == 0 then r else if n == 1 then o else o'
  {
    assert Take([Update(key, o), Update(key, o')], n)
        == if n == 0 then [] else if n == 1 then [Update(key, o)] else [Update(key, o), Update(key, o')];
  }

  lemma LearningWritesNothing(f: Finding, rest: seq<Action>, r: Order)
    ensures Outcome([Learn(f)] + rest, r) == Outcome(rest, r)
    decreases |rest|
  {
    var script := [Learn(f)] + rest;
    if rest == [] {
      assert script == [Learn(f)];
      assert script[..0] == [];
    } else {
      var n := |rest| - 1;
      assert script[..|script| - 1] == [Learn(f)] + rest[..n];
      LearningWritesNothing(f, rest[..n], r);
    }
  }

  /** Two processes whose tables agree on every broker id, and on one row but for what was notified. */
  ghost predicate SameBrokers(w: World, w': World) {
    |w'.rows| == |w.rows| && forall k | 0 <= k < |w.rows| :: w'.rows[k].broker == w.rows[k].broker
  }

  lemma SameIndex(w: World, w': World, key: nat, o: Order, o': Order)
    requires SameBrokers(w, w') && o'.broker == o.broker
    ensures UpdateOk(w, key, o) <==> UpdateOk(w', key, o')
  {
  }

  lemma ParkAlike(w: World, w': World, key: nat, r: Order, r': Order, o: Order, o': Order, reason: string, n: nat)
    requires SameBrokers(w, w') && SameButNotified(r, r') && SameButNotified(o, o')
    ensures SameButNotified(Outcome(Take(ParkScript(w, key, o, reason), n), r), Outcome(Take(ParkScript(w', key, o', reason), n), r'))
  {
    var p, p' := o.(status := Unknown, reason := reason), o'.(status := Unknown, reason := reason);
    SameIndex(w, w', key, p, p');
    OutcomeOfOne(p, key, r, n);
    OutcomeOfOne(p', key, r', n);
    hide UpdateOk;
  }

  lemma ApplyAlike(w: World, w': World, key: nat, r: Order, r': Order, o: Order, o': Order, spec: Ladder.Spec, e: Report, n: nat)
    requires SameBrokers(w, w') && SameButNotified(r, r') && SameButNotified(o, o')
    ensures SameButNotified(
      Outcome(Take(ApplyScript(w, key, o, spec, e), n), r), Outcome(Take(ApplyScript(w', key, o', spec, e), n), r'))
  {
    if e.symbol != spec.symbol || e.side != spec.side {
      ParkAlike(w, w', key, r, r', o, o', WRONG_TERMS, n);
    } else if e.filled > o.quantity {
      ParkAlike(w, w', key, r, r', o, o', OVERFILLED, n);
    } else if o.filled <= e.filled {
      var p, p' := Applied(o, e), Applied(o', e);
      SameIndex(w, w', key, p, p');
      OutcomeOfOne(p, key, r, n);
      OutcomeOfOne(p', key, r', n);
      OutcomeOfTwo(p, Notified(p), key, r, n);
      OutcomeOfTwo(p', Notified(p'), key, r', n);
      assert SameButNotified(p, p') && SameButNotified(p, Notified(p')) && SameButNotified(Notified(p), p');
      hide UpdateOk, Applied, Outcome, Take;
    }
  }

  /** Where both processes look the order up, they end up alike. */
  lemma LookupAlike(w: World, w': World, key: nat, r: Order, r': Order, spec: Ladder.Spec, reply: Reply)
    requires SameBrokers(w, w') && SameButNotified(r, r') && r.broker.Some?
    ensures SameButNotified(Outcome(LookupScript(w, key, r, spec, reply), r), Outcome(LookupScript(w', key, r', spec, reply), r'))
  {
    if reply.lookup.Found? {
      var e := reply.lookup.report;
      ApplyAlike(w, w', key, r, r', r, r', spec, e, reply.writes);
      LearningWritesNothing(Finding(key, r.broker.value, e), Take(ApplyScript(w, key, r, spec, e), reply.writes), r);
      LearningWritesNothing(Finding(key, r.broker.value, e), Take(ApplyScript(w', key, r', spec, e), reply.writes), r');
      hide ApplyScript, Take, Outcome;
    }
  }

  lemma RecoverAlike(w: World, w': World, key: nat, r: Order, r': Order, spec: Ladder.Spec, reply: Reply)
    requires SameBrokers(w, w') && SameButNotified(r, r')
    ensures SameButNotified(Outcome(RecoverScript(w, key, r, spec, reply), r), Outcome(RecoverScript(w', key, r', spec, reply), r'))
  {
    if reply.lookup.Found? && reply.lookup.report.client == Some(key) {
      var e := reply.lookup.report;
      var o, o' := r.(broker := Some(e.broker)), r'.(broker := Some(e.broker));
      ApplyAlike(w, w', key, r, r', o, o', spec, e, reply.writes);
      LearningWritesNothing(Finding(key, e.broker, e), Take(ApplyScript(w, key, o, spec, e), reply.writes), r);
      LearningWritesNothing(Finding(key, e.broker, e), Take(ApplyScript(w', key, o', spec, e), reply.writes), r');
      hide ApplyScript, Take, Outcome;
    } else {
      var reason :=
        if reply.lookup.Unsupported? then LOOKUP_UNSUPPORTED
        else if reply.lookup.Failed? then Trim(reply.lookup.reason) else WRONG_CLIENT;
      ParkAlike(w, w', key, r, r', r, r', reason, reply.writes);
      hide ParkScript, Take, Outcome;
    }
  }

  // ---------- One stop ----------

  /** What the exchange says at this stop is one snapshot of the order we sent, out of the books it always used. */
  ghost predicate Trusted(w: World, stop: Stop, books: Books) {
    && stop.key < |w.rows| && w.rows[stop.key].ladder < |w.ladders|
    && ToldTruly(w, stop.key, books)
    && (w.rows[stop.key].broker.Some? && w.rows[stop.key].broker.value in stop.listing ==>
          && OneSnapshot(stop.listing, w.rows[stop.key].broker.value, stop.reply.lookup, books)
          && AboutOurs(w.rows[stop.key], Spec(w, stop.key), stop.reply.lookup))
  }

  /** The same stop with an empty listing, which skips nothing. */
  function Thorough(stop: Stop): Stop {
    stop.(listing := map[])
  }

  /** In doubt although its exchange id is known: the listing may show such an order resting. */
  predicate ParkedWithId(r: Order) {
    r.status == Unknown && r.broker.Some?
  }

  /** A lookup would move the row out of doubt, but the listing shows its fill unchanged and the lookup is skipped. */
  predicate StaysInDoubt(w: World, stop: Stop)
    requires stop.key < |w.rows|
  {
    ParkedWithId(w.rows[stop.key]) && Unchanged(w.rows[stop.key], stop.listing) && stop.reply.lookup.Found? && 0 < stop.reply.writes
  }

  /** As far as closing a ladder goes, the rows say the same. */
  predicate SettlesAlike(r: Order, r': Order) {
    r'.ladder == r.ladder && r'.filled == r.filled && (r'.status.Active() <==> r.status.Active())
  }

  /** Skipping a resting order and looking it up come to the same. */
  lemma SkipAlike(w: World, w': World, key: nat, spec: Ladder.Spec, stop: Stop, books: Books)
    requires key < |w.rows| && RowOk(w.rows[key]) && StatusReported(w, key) && Blank(books) && Trusted(w, stop, books)
    requires stop.key == key && spec == Spec(w, key) && Unchanged(w.rows[key], stop.listing)
    requires w.rows[key].status == Pending || w.rows[key].status == PartialFilled
    requires SameBrokers(w, w') && SameButNotified(w.rows[key], w'.rows[key])
    ensures SameButNotified(w.rows[key], Outcome(LookupScript(w', key, w'.rows[key], spec, stop.reply), w'.rows[key]))
  {
    var r, r', reply := w.rows[key], w'.rows[key], stop.reply;
    if reply.lookup.Found? {
      var e := reply.lookup.report;
      RestingRowIsOnTheBooks(w, key, books);
      SkippedLookupSaysNothingNew(r, e, books);
      assert Applied(r', e) == r' && e.filled == r.filled;
      hide Applied, Trusted, StatusReported, Blank, Unchanged;
      LearningWritesNothing(Finding(key, r.broker.value, e), Take(ApplyScript(w', key, r', spec, e), reply.writes), r');
      OutcomeOfOne(r', key, r', reply.writes);
      OutcomeOfTwo(r', Notified(r'), key, r', reply.writes);
      hide Outcome, Take, UpdateOk;
    }
  }

  lemma BrokerStays(w: World, key: nat, r: Order, spec: Ladder.Spec, reply: Reply)
    requires r.broker.Some?
    ensures Outcome(LookupScript(w, key, r, spec, reply), r).broker == r.broker
  {
    if reply.lookup.Found? {
      var e := reply.lookup.report;
      var o := Applied(r, e);
      LearningWritesNothing(Finding(key, r.broker.value, e), Take(ApplyScript(w, key, r, spec, e), reply.writes), r);
      OutcomeOfOne(o, key, r, reply.writes);
      OutcomeOfTwo(o, Notified(o), key, r, reply.writes);
      OutcomeOfOne(r.(status := Unknown, reason := WRONG_TERMS), key, r, reply.writes);
      OutcomeOfOne(r.(status := Unknown, reason := OVERFILLED), key, r, reply.writes);
      assert o.broker == r.broker;
      hide Outcome, Take, UpdateOk, Applied;
    }
  }

  /** A parked row that is skipped would be found resting: out of doubt, at the same fill. */
  lemma DoubtAlike(w: World, w': World, stop: Stop, books: Books)
    requires BrokersUnique(w) && SameBrokers(w, w') && Trusted(w, stop, books)
    requires RowOk(w.rows[stop.key]) && SameButNotified(w.rows[stop.key], w'.rows[stop.key])
    requires ParkedWithId(w.rows[stop.key]) && Unchanged(w.rows[stop.key], stop.listing)
    ensures var r, r' := w.rows[stop.key], w'.rows[stop.key];
      var o' := Outcome(LookupScript(w', stop.key, r', Spec(w, stop.key), stop.reply), r');
      && SettlesAlike(r, o')
      && (if stop.reply.lookup.Found? && 0 < stop.reply.writes
          then o'.status == if r.filled == 0 then Pending else PartialFilled
          else SameButNotified(r, o'))
  {
    var key, r, r', reply := stop.key, w.rows[stop.key], w'.rows[stop.key], stop.reply;
    if reply.lookup.Found? {
      var e := reply.lookup.report;
      var o := Applied(r', e);
      SameBrokerFits(w, key, r);
      SameIndex(w, w', key, r, o);
      assert e.filled == r.filled && RestsAs(e, r.broker.value, books);
      assert o.status == (if r.filled == 0 then Pending else PartialFilled) && o.filled == r.filled;
      LearningWritesNothing(Finding(key, r.broker.value, e), Take(ApplyScript(w', key, r', Spec(w, key), e), reply.writes), r');
      hide Applied, Trusted, Unchanged, BrokersUnique, UpdateOk, RestsAs;
      OutcomeOfOne(o, key, r', reply.writes);
      OutcomeOfTwo(o, Notified(o), key, r', reply.writes);
      hide Outcome, Take;
    }
  }

  lemma RowIsKnown(w: World, key: nat)
    requires Inv(w) && key < |w.rows|
    ensures RowOk(w.rows[key]) && StatusReported(w, key) && BrokersUnique(w)
  {
    InvHasEvidence(w);
    hide Inv, CallsOk, LaddersOk, BrokersUnique;
  }

  /** At one stop the shortcut and the full lookup leave the same row, exactly unless the shortcut leaves it in doubt. */
  lemma StopAlike(w: World, w': World, stop: Stop, books: Books)
    requires Inv(w) && Blank(books) && Trusted(w, stop, books)
    requires SameBrokers(w, w') && w'.ladders == w.ladders && SameButNotified(w.rows[stop.key], w'.rows[stop.key])
    requires w.rows[stop.key].status.Active()
    ensures var r, r' := w.rows[stop.key], w'.rows[stop.key];
      var o, o' := Outcome(RefreshAt(w, stop), r), Outcome(RefreshAt(w', Thorough(stop)), r');
      && o'.broker == o.broker && SettlesAlike(o, o')
      && (SameButNotified(o, o') <==> !StaysInDoubt(w, stop))
  {
    hide Inv, BrokersUnique, StatusReported;
    RowIsKnown(w, stop.key);
    var key, spec, reply := stop.key, Spec(w, stop.key), stop.reply;
    var r, r' := w.rows[key], w'.rows[key];
    if r.status == Prepared {
    } else if r.broker.None? {
      RecoverAlike(w, w', key, r, r', spec, reply);
      hide RecoverScript;
    } else if Unchanged(r, stop.listing) {
      BrokerStays(w', key, r', spec, reply);
      if ParkedWithId(r) {
        DoubtAlike(w, w', stop, books);
      } else {
        SkipAlike(w, w', key, spec, stop, books);
      }
      hide LookupScript;
    } else {
      LookupAlike(w, w', key, r, r', spec, reply);
      hide LookupScript;
    }
  }

  // ---------- A whole cycle ----------

  ghost function AllThorough(stops: seq<Stop>): (all: seq<Stop>)
    ensures |all| == |stops|
  {
    seq(|stops|, i requires 0 <= i < |stops| => Thorough(stops[i]))
  }

  /** Two tables on the way through the same stops; `aside` are the rows on which they are going to disagree. */
  ghost predicate Abreast(w: World, w': World, stops: seq<Stop>, aside: iset<nat>) {
    && SameBrokers(w, w') && w'.ladders == w.ladders
    && (forall k | 0 <= k < |w.rows| :: SettlesAlike(w.rows[k], w'.rows[k]))
    && (forall k | 0 <= k < |w.rows| && k !in aside :: SameButNotified(w.rows[k], w'.rows[k]))
    && (forall k | 0 <= k < |w.rows| && k in aside && !Ahead(stops, k) :: !SameButNotified(w.rows[k], w'.rows[k]))
    && (forall i | 0 <= i < |stops| :: stops[i].key < |w.rows| && SameButNotified(w.rows[stops[i].key], w'.rows[stops[i].key]))
    && (forall i | 0 <= i < |stops| :: StaysInDoubt(w, stops[i]) <==> stops[i].key in aside)
  }

  ghost predicate Ahead(stops: seq<Stop>, key: nat) {
    exists i :: 0 <= i < |stops| && stops[i].key == key
  }

  ghost predicate AllTrusted(w: World, stops: seq<Stop>, books: Books) {
    forall i | 0 <= i < |stops| :: Trusted(w, stops[i], books)
  }

  /** One row has been visited on both sides, and nothing else moved. */
  lemma StepAbreast(w: World, w': World, w1: World, w1': World, stops: seq<Stop>, aside: iset<nat>)
    requires stops != [] && Once(stops) && Abreast(w, w', stops, aside)
    requires Visited(w, w1, stops[0].key) && Visited(w', w1', stops[0].key)
    requires w1'.rows[stops[0].key].broker == w1.rows[stops[0].key].broker
    requires SettlesAlike(w1.rows[stops[0].key], w1'.rows[stops[0].key])
    requires SameButNotified(w1.rows[stops[0].key], w1'.rows[stops[0].key]) <==> !StaysInDoubt(w, stops[0])
    ensures Abreast(w1, w1', stops[1..], aside)
  {
    var rest := stops[1..];
    forall i | 0 <= i < |rest|
      ensures rest[i].key != stops[0].key && rest[i] == stops[i + 1]
      ensures rest[i].key < |w1.rows| && (StaysInDoubt(w1, rest[i]) <==> StaysInDoubt(w, stops[i + 1]))
    {
    }
    hide SameButNotified, SettlesAlike, StaysInDoubt;
    forall k | 0 <= k < |w.rows| && k != stops[0].key && !Ahead(rest, k)
      ensures !Ahead(stops, k)
    {
      assert forall i | 0 < i < |stops| :: rest[i - 1] == stops[i];
    }
  }

  /** What a visit does to the table: nothing to any other row. */
  ghost predicate Visited(w: World, w1: World, key: nat) {
    && w1.ladders == w.ladders && |w1.rows| == |w.rows|
    && (forall k | 0 <= k < |w.rows| && k != key :: w1.rows[k] == w.rows[k])
    && (forall f, k | k != key :: About(w1, f, k) <==> About(w, f, k))
  }

  lemma RefreshVisits(w: World, stop: Stop)
    requires stop.key < |w.rows| && w.rows[stop.key].ladder < |w.ladders|
    ensures var w1 := Play(w, RefreshAt(w, stop));
      Visited(w, w1, stop.key) && w1.rows[stop.key] == Outcome(RefreshAt(w, stop), w.rows[stop.key])
  {
    RefreshAtOnlyRow(w, stop);
    hide RefreshAt, Play, Outcome, OnlyRow;
    OnlyRowChanges(w, RefreshAt(w, stop), stop.key);
    OutcomeIsPlayed(w, RefreshAt(w, stop), stop.key);
  }

  lemma NextStop(w: World, w': World, stops: seq<Stop>, aside: iset<nat>, books: Books)
    requires Inv(w) && Blank(books) && stops != [] && ToVisit(w, stops) && AllTrusted(w, stops, books) && Abreast(w, w', stops, aside)
    ensures Trusted(w, stops[0], books)
    ensures var w1, w1' := Play(w, RefreshAt(w, stops[0])), Play(w', RefreshAt(w', Thorough(stops[0])));
      Abreast(w1, w1', stops[1..], aside) && ToVisit(w1, stops[1..]) && AllTrusted(w1, stops[1..], books)
  {
    var stop := stops[0];
    hide Inv, Blank, RefreshAt, Play, Trusted, Outcome;
    assert Trusted(w, stop, books);
    StopIsThere(w, stop, books);
    RefreshVisits(w, stop);
    RefreshVisits(w', Thorough(stop));
    StopAlike(w, w', stop, books);
    StillTrusted(w, Play(w, RefreshAt(w, stop)), stops, books);
    StillToVisit(w, Play(w, RefreshAt(w, stop)), stops);
    StepAbreast(w, w', Play(w, RefreshAt(w, stop)), Play(w', RefreshAt(w', Thorough(stop))), stops, aside);
  }

  lemma StopIsThere(w: World, stop: Stop, books: Books)
    requires Trusted(w, stop, books)
    ensures stop.key < |w.rows| && w.rows[stop.key].ladder < |w.ladders|
  {
  }

  lemma StillTrusted(w: World, w1: World, stops: seq<Stop>, books: Books)
    requires stops != [] && ToVisit(w, stops) && AllTrusted(w, stops, books)
    requires Visited(w, w1, stops[0].key)
    ensures AllTrusted(w1, stops[1..], books)
  {
    forall i | 0 <= i < |stops| - 1
      ensures Trusted(w1, stops[1..][i], books)
    {
      assert stops[1..][i] == stops[i + 1] && Trusted(w, stops[i + 1], books);
      hide About, OneSnapshot, AboutOurs, RestsAs;
    }
  }

  lemma {:induction false} SweepAlike(w: World, w': World, stops: seq<Stop>, aside: iset<nat>, books: Books)
    requires Inv(w) && Blank(books) && ToVisit(w, stops) && AllTrusted(w, stops, books) && Abreast(w, w', stops, aside)
    ensures Abreast(Play(w, SweepScript(w, stops)), Play(w', SweepScript(w', AllThorough(stops))), [], aside)
    decreases |stops|
  {
    if stops != [] {
      hide Inv, Play, RefreshAt, AllTrusted, Abreast, ToVisit, Evolves, SafeScript, Blank;
      var s, s' := RefreshAt(w, stops[0]), RefreshAt(w', Thorough(stops[0]));
      var w1, w1' := Play(w, s), Play(w', s');
      NextStop(w, w', stops, aside, books);
      FirstStopIsActive(w, stops);
      RefreshAtIsSafe(w, stops[0]);
      assert AllThorough(stops)[0] == Thorough(stops[0]) && AllThorough(stops)[1..] == AllThorough(stops[1..]);
      hide AllThorough;
      SafeScriptIsSafe(w, s);
      SweepAlike(w1, w1', stops[1..], aside, books);
      PlayConcat(w, s, SweepScript(w1, stops[1..]));
      PlayConcat(w', s', SweepScript(w1', AllThorough(stops[1..])));
    }
  }

  /** The same cycle with nothing in any listing: every linked order is looked up. */
  function Exhaustive(c: Cycle): Cycle {
    c.(listings := map v | v in c.listings :: map[])
  }

  lemma {:induction false} ThoroughVenue(w: World, venue: Venue, listing: Listing, keys: seq<nat>, replies: map<nat, Reply>)
    requires LaddersKnown(w) && forall i | 0 <= i < |keys| :: keys[i] < |w.rows|
    ensures VenueStops(w, venue, map[], keys, replies) == AllThorough(VenueStops(w, venue, listing, keys, replies))
  {
    if keys != [] {
      ThoroughVenue(w, venue, listing, keys[..|keys| - 1], replies);
    }
  }

  lemma {:induction false} ThoroughCycle(w: World, c: Cycle, venues: seq<Venue>)
    requires LaddersKnown(w) && forall i | 0 <= i < |c.keys| :: c.keys[i] < |w.rows|
    ensures CycleStops(w, Exhaustive(c), venues) == AllThorough(CycleStops(w, c, venues))
  {
    if venues != [] {
      var n := |venues| - 1;
      ThoroughCycle(w, c, venues[..n]);
      if venues[n] in c.listings {
        ThoroughVenue(w, venues[n], c.listings[venues[n]], c.keys, c.replies);
      }
      hide VenueStops;
    }
  }

  lemma {:induction false} SettleAllTouchesNoOrder(w: World, live: seq<nat>, unsaved: set<nat>)
    ensures Play(w, SettleAll(w, live, unsaved)).rows == w.rows
    decreases |live|
  {
    if live != [] {
      var first := if live[0] in unsaved then [] else SettleScript(w, live[0]);
      Guarantees.SettleTouchesNoOrder(w, live[0]);
      assert Play(w, first).rows == w.rows;
      hide SettleScript, Play;
      SettleAllTouchesNoOrder(Play(w, first), live[1..], unsaved);
      PlayConcat(w, first, SettleAll(Play(w, first), live[1..], unsaved));
    }
  }

  /** The rows after a cycle are the rows after its sweep. */
  lemma RowsAfterCycle(w: World, c: Cycle)
    requires LaddersKnown(w) && CycleOk(w, c)
    ensures Play(w, ReconcileScript(w, c)).rows == Play(w, SweepScript(w, CycleStops(w, c, c.venues))).rows
  {
    assert forall i | 0 <= i < |c.keys| :: c.keys[i] < |w.rows|;
    hide Play, SweepScript, CycleStops, SettleAll, LiveLadders, ActiveKeys;
    var sweep := SweepScript(w, CycleStops(w, c, c.venues));
    var swept := Play(w, sweep);
    PlayConcat(w, sweep, SettleAll(swept, LiveLadders(swept.ladders), c.unsaved));
    SettleAllTouchesNoOrder(swept, LiveLadders(swept.ladders), c.unsaved);
  }

  // ---------- Closing ladders alike ----------

  ghost predicate AllSettleAlike(w: World, w': World) {
    && w'.ladders == w.ladders && |w'.rows| == |w.rows|
    && forall k | 0 <= k < |w.rows| :: SettlesAlike(w.rows[k], w'.rows[k])
  }

  lemma SomeFillAlike(w: World, w': World, l: nat)
    requires AllSettleAlike(w, w')
    ensures AnyActive(w.rows, l) <==> AnyActive(w'.rows, l)
    ensures (exists k :: 0 <= k < |w.rows| && w.rows[k].ladder == l && 0 < w.rows[k].filled)
      <==> exists k :: 0 <= k < |w'.rows| && w'.rows[k].ladder == l && 0 < w'.rows[k].filled
  {
    assert forall k | 0 <= k < |w.rows| :: SettlesAlike(w.rows[k], w'.rows[k]);
  }

  lemma SettleAlike(w: World, w': World, l: nat)
    requires RowsOk(w) && RowsOk(w') && AllSettleAlike(w, w')
    ensures SettleScript(w', l) == SettleScript(w, l)
  {
    TotalFillIsSomeFill(w, l);
    TotalFillIsSomeFill(w', l);
    SomeFillAlike(w, w', l);
    hide RowsOk, Outcomes.Summarize, RowsOf, AnyActive;
  }

  lemma SavedStillAlike(w: World, w': World, l: nat, state: State, reason: string)
    requires RowsOk(w) && RowsOk(w') && AllSettleAlike(w, w')
    ensures var a := SaveState(l, state, reason);
      RowsOk(Do(w, a)) && RowsOk(Do(w', a)) && AllSettleAlike(Do(w, a), Do(w', a))
  {
    hide SettlesAlike, RowOk;
  }

  lemma SettledStillAlike(w: World, w': World, script: seq<Action>, l: nat)
    requires RowsOk(w) && RowsOk(w') && AllSettleAlike(w, w') && script in {[], SettleScript(w, l)}
    ensures RowsOk(Play(w, script)) && RowsOk(Play(w', script)) && AllSettleAlike(Play(w, script), Play(w', script))
  {
    hide RowsOk, AllSettleAlike, Do, AnyActive, Outcomes.Summarize;
    if script != [] {
      var a := script[0];
      assert script == [a] && a.SaveState?;
      hide SettleScript;
      PlayOne(w, a);
      PlayOne(w', a);
      SavedStillAlike(w, w', a.ladder, a.state, a.reason);
    }
  }

  lemma {:induction false} SettleAllAlike(w: World, w': World, live: seq<nat>, unsaved: set<nat>)
    requires RowsOk(w) && RowsOk(w') && AllSettleAlike(w, w')
    ensures Play(w', SettleAll(w', live, unsaved)).ladders == Play(w, SettleAll(w, live, unsaved)).ladders
    decreases |live|
  {
    if live != [] {
      SettleAlike(w, w', live[0]);
      var first := if live[0] in unsaved then [] else SettleScript(w, live[0]);
      SettledStillAlike(w, w', first, live[0]);
      hide RowsOk, AllSettleAlike, SettleScript, Play;
      SettleAllAlike(Play(w, first), Play(w', first), live[1..], unsaved);
      PlayConcat(w, first, SettleAll(Play(w, first), live[1..], unsaved));
      PlayConcat(w', first, SettleAll(Play(w', first), live[1..], unsaved));
    }
  }

  lemma SweptRowsOk(w: World, stops: seq<Stop>)
    requires Inv(w) && ToVisit(w, stops)
    ensures RowsOk(Play(w, SweepScript(w, stops)))
  {
    hide Inv, SafeScript, Evolves, ToVisit, SweepScript, Play, RowsOk;
    SweepIsSafe(w, stops);
    SafeScriptIsSafe(w, SweepScript(w, stops));
    InvHasCalls(Play(w, SweepScript(w, stops)));
  }

  lemma LaddersAfterCycle(w: World, c: Cycle, swept: World)
    requires LaddersKnown(w) && CycleOk(w, c) && swept == Play(w, SweepScript(w, CycleStops(w, c, c.venues)))
    ensures Play(w, ReconcileScript(w, c)).ladders == Play(swept, SettleAll(swept, LiveLadders(swept.ladders), c.unsaved)).ladders
  {
    assert forall i | 0 <= i < |c.keys| :: c.keys[i] < |w.rows|;
    hide Play, SweepScript, CycleStops, SettleAll, LiveLadders, ActiveKeys;
    PlayConcat(w, SweepScript(w, CycleStops(w, c, c.venues)), SettleAll(swept, LiveLadders(swept.ladders), c.unsaved));
  }

  /** The rows on which the shortcut and the full lookup will differ. */
  ghost predicate LeftInDoubt(w: World, stops: seq<Stop>, key: nat) {
    exists i :: 0 <= i < |stops| && stops[i].key == key && key < |w.rows| && StaysInDoubt(w, stops[i])
  }

  /** The sweeps of the two cycles, row by row. */
  lemma SweepsAlike(w: World, stops: seq<Stop>, books: Books)
    requires Inv(w) && Blank(books) && ToVisit(w, stops) && AllTrusted(w, stops, books)
    ensures var w1, w2 := Play(w, SweepScript(w, stops)), Play(w, SweepScript(w, AllThorough(stops)));
      && AllSettleAlike(w1, w2) && |w1.rows| == |w.rows|
      && forall k | 0 <= k < |w.rows| :: SameButNotified(w1.rows[k], w2.rows[k]) <==> !LeftInDoubt(w, stops, k)
  {
    hide Inv, Blank, ToVisit, AllTrusted, SweepScript, Play, Abreast, LeftInDoubt, AllSettleAlike, SameButNotified, AllThorough;
    var aside := iset k: nat | LeftInDoubt(w, stops, k);
    var w1, w2 := Play(w, SweepScript(w, stops)), Play(w, SweepScript(w, AllThorough(stops)));
    StartAbreast(w, stops, aside);
    SweepKeepsRows(w, stops);
    SweepAlike(w, w, stops, aside, books);
    AbreastAtTheEnd(w1, w2, aside);
  }

  lemma AbreastAtTheEnd(w: World, w': World, aside: iset<nat>)
    requires Abreast(w, w', [], aside)
    ensures AllSettleAlike(w, w')
    ensures forall k: nat | k < |w.rows| :: SameButNotified(w.rows[k], w'.rows[k]) <==> k !in aside
  {
    hide SameButNotified, SettlesAlike;
  }

  lemma StartAbreast(w: World, stops: seq<Stop>, aside: iset<nat>)
    requires ToVisit(w, stops) && aside == iset k: nat | LeftInDoubt(w, stops, k)
    ensures Abreast(w, w, stops, aside)
  {
    forall i | 0 <= i < |stops|
      ensures StaysInDoubt(w, stops[i]) <==> stops[i].key in aside
    {
      hide StaysInDoubt;
      assert forall j | 0 <= j < |stops| && j != i :: stops[j].key != stops[i].key;
    }
    hide StaysInDoubt;
  }

  /**
    Against an exchange that answers from one snapshot, a cycle with the shortcut leaves every row as a cycle that looks
    up every linked order does, exactly except those the shortcut leaves in doubt; and it closes the same ladders.
  */
  lemma ShortcutIsAsGood(w: World, c: Cycle, books: Books)
    requires Inv(w) && LaddersKnown(w) && CycleOk(w, c) && Blank(books)
    requires AllTrusted(w, CycleStops(w, c, c.venues), books)
    ensures var w1, w2 := Play(w, ReconcileScript(w, c)), Play(w, ReconcileScript(w, Exhaustive(c)));
      && |w1.rows| == |w2.rows| == |w.rows| && w1.ladders == w2.ladders
      && forall k | 0 <= k < |w.rows| ::
           SameButNotified(w1.rows[k], w2.rows[k]) <==> !LeftInDoubt(w, CycleStops(w, c, c.venues), k)
  {
    assert forall i | 0 <= i < |c.keys| :: c.keys[i] < |w.rows|;
    assert CycleOk(w, Exhaustive(c));
    hide Inv, Play, SweepScript, CycleStops, AllTrusted, ActiveKeys, ReconcileScript, Blank, SameButNotified, LeftInDoubt, SettleAll;
    var stops := CycleStops(w, c, c.venues);
    CycleVisitsOnce(w, c, c.venues);
    ThoroughCycle(w, c, c.venues);
    ThoroughStops(w, stops);
    hide ToVisit, CycleOk, LiveLadders, AllSettleAlike, RowsOk;
    var w1, w2 := Play(w, SweepScript(w, stops)), Play(w, SweepScript(w, AllThorough(stops)));
    RowsAfterCycle(w, c);
    RowsAfterCycle(w, Exhaustive(c));
    SweepsAlike(w, stops, books);
    SweptRowsOk(w, stops);
    SweptRowsOk(w, AllThorough(stops));
    LaddersAfterCycle(w, c, w1);
    LaddersAfterCycle(w, Exhaustive(c), w2);
    SameLive(w1, w2);
    SettleAllAlike(w1, w2, LiveLadders(w1.ladders), c.unsaved);
  }

  lemma SameLive(w: World, w': World)
    requires AllSettleAlike(w, w')
    ensures |w'.rows| == |w.rows| && w'.ladders == w.ladders
  {
  }

  lemma ThoroughStops(w: World, stops: seq<Stop>)
    requires ToVisit(w, stops)
    ensures ToVisit(w, AllThorough(stops))
  {
  }

  lemma {:induction false} SweepKeepsRows(w: World, stops: seq<Stop>)
    ensures |Play(w, SweepScript(w, stops)).rows| == |w.rows|
    decreases |stops|
  {
    if stops != [] {
      var s := RefreshAt(w, stops[0]);
      RefreshAtOnlyRow(w, stops[0]);
      hide RefreshAt, Play;
      OnlyRowChanges(w, s, stops[0].key);
      SweepKeepsRows(Play(w, s), stops[1..]);
      PlayConcat(w, s, SweepScript(Play(w, s), stops[1..]));
    }
  }
}
