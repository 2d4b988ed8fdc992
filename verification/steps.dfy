/** When a step is safe to take, and that every safe step keeps the invariant and undoes nothing. */
module Steps {
  import opened Records
  import opened Protocol
  import Ladder

  /** A prepared rung may go out: its venue is settled, its ladder is running, and nothing nearer the base still waits. */
  ghost predicate MaySend(w: World, key: nat)
    requires RowsOk(w) && key < |w.rows|
  {
    var r := w.rows[key];
    && r.status == Prepared
    && w.ladders[r.ladder].state.Live()
    && VenueIsSettled(w, Spec(w, key).venue)
    && forall k | 0 <= k < key && w.rows[k].ladder == r.ladder :: w.rows[k].status != Prepared
  }

  ghost predicate WriteIsEvidenced(w: World, key: nat)
    requires key < |w.rows|
  {
    FillReported(w, key) && StatusReported(w, key) && CancelEvidenced(w, key)
  }

  ghost predicate SafeUpdate(w: World, key: nat, o: Order)
    requires RowsOk(w)
  {
    && key < |w.rows|
    && var r := w.rows[key];
    && RowEvolves(r, o) && RowOk(o) && o.status != Prepared
    && UpdateOk(w, key, o)
    && (w.ladders[r.ladder].state == StateDraft ==> o.status == Canceled)
    && (o.status == Sending ==> MaySend(w, key))
    && (Doubtful(o) ==> Doubtful(r) || o.status == Sending)
    && WriteIsEvidenced(w.(rows := w.rows[key := o]), key)
    && (r.status == PendingCancel ==> o.status == PendingCancel || o.status.Terminal() || Dishonest(w, key))
  }

  ghost predicate SafePlace(w: World, key: nat)
    requires RowsOk(w)
  {
    && key < |w.rows|
    && w.rows[key].status == Sending && !Called(w, key) && Alone(w, key)
    && w.ladders[w.rows[key].ladder].state != StateDraft
    && forall k | key < k < |w.rows| && w.rows[k].ladder == w.rows[key].ladder :: !Attempted(w, k)
  }

  ghost predicate SafeState(w: World, l: nat, state: State)
    requires RowsOk(w)
  {
    && l < |w.ladders|
    && var was := w.ladders[l].state;
    match state
    case StateDraft => false
    case StatePlacing => !was.Closed() && Planned(w, l)
    case StateOpen => was.Live()
    case StateFailed => was.Live()
    case StateDone =>
      was.Live() && !AnyActive(w.rows, l) && exists k | 0 <= k < |w.rows| :: w.rows[k].ladder == l && 0 < w.rows[k].filled
    case StateCanceled =>
      was.Live() && !AnyActive(w.rows, l) && forall k | 0 <= k < |w.rows| && w.rows[k].ladder == l :: w.rows[k].filled == 0
  }

  ghost predicate SafeInsert(w: World, l: nat, plan: Ladder.Plan)
    requires RowsOk(w)
  {
    && l < |w.ladders| && w.ladders[l].state == StateDraft
    && InsertOk(w, l, plan) && Numbered(plan) && SameRequest(plan.spec, w.ladders[l].spec)
  }

  ghost predicate Safe(w: World, a: Action)
    requires RowsOk(w)
  {
    match a
    case Create(_) => true
    case Edit(l, spec) =>
      && l < |w.ladders| && w.ladders[l].state == StateDraft
      && spec.venue == w.ladders[l].spec.venue && spec.side == w.ladders[l].spec.side
    case Retype(l, spec) =>
      && l < |w.ladders| && w.ladders[l].state != StateDraft
      && SameKind(w.ladders[l].spec, spec) && spec.fee == w.ladders[l].spec.fee
    case Insert(l, plan, _) => SafeInsert(w, l, plan)
    case SaveState(l, state, _) => SafeState(w, l, state)
    case Update(key, order) => SafeUpdate(w, key, order)
    case Place(key) => SafePlace(w, key)
    case Learn(finding) => finding.order < |w.rows|
    case WriteOff(key, _) => key < |w.rows| && Doubtful(w.rows[key])
  }

  // ---------- Updates ----------

  lemma {:induction false} LinesIgnoreWrites(rows: seq<Order>, key: nat, o: Order, l: nat)
    requires key < |rows|
    requires o.ladder == rows[key].ladder && o.rung == rows[key].rung
    requires o.price == rows[key].price && o.quantity == rows[key].quantity
    ensures Lines(rows[key := o], l) == Lines(rows, l)
  {
    var n := |rows| - 1;
    if key < n {
      LinesIgnoreWrites(rows[..n], key, o, l);
      assert rows[key := o][..n] == rows[..n][key := o];
    } else {
      assert rows[key := o][..n] == rows[..n];
    }
  }

  lemma UpdateKeepsRows(w: World, key: nat, o: Order)
    requires RowsOk(w) && SafeUpdate(w, key, o) && RungsSorted(w) && BrokersUnique(w)
    ensures var w' := Do(w, Update(key, o));
      RowsOk(w') && RungsSorted(w') && BrokersUnique(w')
  {
    hide Evidenced, PlansOk, LaddersOk, CallsOk, InOrder, OneDoubtPerVenue;
  }

  lemma UpdateKeepsCalls(w: World, key: nat, o: Order)
    requires RowsOk(w) && SafeUpdate(w, key, o) && RungsSorted(w) && BrokersUnique(w) && CallsOk(w) && InOrder(w)
    ensures var w' := Do(w, Update(key, o));
      RowsOk(w') && CallsOk(w') && InOrder(w')
  {
    hide Evidenced, PlansOk, LaddersOk, OneDoubtPerVenue, BrokersUnique, FillReported, StatusReported, CancelEvidenced;
    UpdateKeepsRows(w, key, o);
    var w' := Do(w, Update(key, o));
    forall i, j | 0 <= i < j < |w'.rows| && w'.rows[i].ladder == w'.rows[j].ladder && Attempted(w', j)
      ensures w'.rows[i].status != Prepared
    {
      if i != key && !Attempted(w, j) {
        assert j == key && o.status == Sending;
      }
    }
  }

  lemma UpdateKeepsDoubt(w: World, key: nat, o: Order)
    requires RowsOk(w) && SafeUpdate(w, key, o) && RungsSorted(w) && BrokersUnique(w) && OneDoubtPerVenue(w)
    ensures RowsOk(Do(w, Update(key, o))) && OneDoubtPerVenue(Do(w, Update(key, o)))
  {
    hide Evidenced, PlansOk, LaddersOk, InOrder, CallsOk, BrokersUnique, FillReported, StatusReported, CancelEvidenced;
    UpdateKeepsRows(w, key, o);
    var w' := Do(w, Update(key, o));
    forall i, j | 0 <= i < j < |w'.rows| && Doubtful(w'.rows[i]) && Doubtful(w'.rows[j])
      ensures Spec(w', i).venue != Spec(w', j).venue
    {
      var other := if i == key then j else i;
      if i == key || j == key {
        if !Doubtful(w.rows[key]) {
          assert w.rows[other].status.Unresolved();
        }
      }
      assert Spec(w', i) == Spec(w, i) && Spec(w', j) == Spec(w, j);
    }
  }

  lemma UpdateKeepsLadders(w: World, key: nat, o: Order)
    requires RowsOk(w) && SafeUpdate(w, key, o) && LaddersOk(w)
    ensures LaddersOk(Do(w, Update(key, o)))
  {
    hide Evidenced, PlansOk, OneDoubtPerVenue, InOrder, CallsOk, BrokersUnique, FillReported, StatusReported, CancelEvidenced, UpdateOk, RungsSorted;
    var w' := Do(w, Update(key, o));
    forall l | 0 <= l < |w'.ladders|
      ensures LadderOk(w', l)
    {
      assert LadderOk(w, l);
      if w.ladders[l].state == StateDone {
        var k :| 0 <= k < |w.rows| && w.rows[k].ladder == l && 0 < w.rows[k].filled;
        assert w'.rows[k].ladder == l && 0 < w'.rows[k].filled;
      }
    }
  }

  lemma UpdateKeepsPlans(w: World, key: nat, o: Order)
    requires RowsOk(w) && SafeUpdate(w, key, o) && PlansOk(w)
    ensures PlansOk(Do(w, Update(key, o)))
  {
    hide Evidenced, LaddersOk, OneDoubtPerVenue, InOrder, CallsOk, BrokersUnique, FillReported, StatusReported, CancelEvidenced, UpdateOk, RungsSorted;
    forall l | l in w.plans
      ensures Lines(w.rows[key := o], l) == Lines(w.rows, l)
    {
      LinesIgnoreWrites(w.rows, key, o, l);
    }
  }

  lemma UpdateKeepsEvidence(w: World, key: nat, o: Order)
    requires RowsOk(w) && SafeUpdate(w, key, o) && Evidenced(w)
    ensures Evidenced(Do(w, Update(key, o)))
  {
    hide LaddersOk, PlansOk, OneDoubtPerVenue, InOrder, CallsOk, BrokersUnique, UpdateOk, RungsSorted;
    var w' := Do(w, Update(key, o));
    forall k | 0 <= k < |w'.rows|
      ensures FillReported(w', k) && StatusReported(w', k) && CancelEvidenced(w', k)
    {
      if k != key {
        SameEvidence(w, w', k);
      }
    }
  }

  /** What is known about an untouched row survives any step that only adds history. */
  lemma SameEvidence(w: World, w': World, k: nat)
    requires k < |w.rows| && k < |w'.rows| && w.rows[k] == w'.rows[k]
    requires w.findings <= w'.findings && w.writtenOff <= w'.writtenOff
    requires FillReported(w, k) && StatusReported(w, k) && CancelEvidenced(w, k)
    requires Called(w', k) ==> Called(w, k)
    ensures FillReported(w', k) && StatusReported(w', k) && CancelEvidenced(w', k)
  {
    assert forall f :: About(w, f, k) ==> About(w', f, k);
    if !Untouched(w.rows[k]) {
      var f :| About(w, f, k) && Shows(w.rows[k], f);
      assert About(w', f, k);
    }
    var r := w.rows[k];
    if (r.status == Pending || r.status == PartialFilled || r.status == Filled) && !(r.status == Pending && Untouched(r)) {
      var f :| About(w, f, k) && Shows(r, f) && Explains(f.report, r);
      assert About(w', f, k);
    }
    if w.rows[k].status == Canceled && Called(w, k) && !(k in w.writtenOff && w.rows[k].broker.None?) {
      var f :| About(w, f, k) && Shows(w.rows[k], f) && f.report.status == Canceled;
      assert About(w', f, k);
    }
  }

  lemma UpdateEvolves(w: World, key: nat, o: Order)
    requires RowsOk(w) && SafeUpdate(w, key, o)
    ensures Evolves(w, Do(w, Update(key, o)))
  {
    var w' := w.(rows := w.rows[key := o]);
    assert w' == Do(w, Update(key, o));
    assert forall k | 0 <= k < |w.rows| :: RowEvolves(w.rows[k], w'.rows[k]);
    forall k | 0 <= k < |w.rows| && w.rows[k].status == PendingCancel
      ensures w'.rows[k].status == PendingCancel || w'.rows[k].status.Terminal() || Dishonest(w', k)
    {
      if k == key && Dishonest(w, key) {
        var f :| About(w, f, key) && !HonestReport(f.report, w.rows[key].quantity, Spec(w, key));
        assert About(w', f, key);
      }
    }
  }

  lemma UpdateIsSafe(w: World, key: nat, o: Order)
    requires Inv(w) && SafeUpdate(w, key, o)
    ensures Inv(Do(w, Update(key, o))) && Evolves(w, Do(w, Update(key, o)))
  {
    UpdateKeepsRows(w, key, o);
    UpdateKeepsCalls(w, key, o);
    UpdateKeepsDoubt(w, key, o);
    UpdateKeepsLadders(w, key, o);
    UpdateKeepsPlans(w, key, o);
    UpdateKeepsEvidence(w, key, o);
    UpdateEvolves(w, key, o);
    hide SafeUpdate, Evolves, RowsOk, Evidenced, LaddersOk, PlansOk, OneDoubtPerVenue, InOrder, CallsOk, BrokersUnique, RungsSorted;
  }

  // ---------- History ----------

  lemma HistoryKeepsEvidence(w: World, w': World)
    requires Evidenced(w)
    requires w'.rows == w.rows && w'.calls == w.calls
    requires w.findings <= w'.findings && w.writtenOff <= w'.writtenOff
    ensures Evidenced(w')
  {
    forall k | 0 <= k < |w.rows|
      ensures FillReported(w', k) && StatusReported(w', k) && CancelEvidenced(w', k)
    {
      SameEvidence(w, w', k);
    }
  }

  lemma HistoryKeepsCalls(w: World, w': World)
    requires RowsOk(w) && CallsOk(w) && InOrder(w)
    requires w'.rows == w.rows && w'.calls == w.calls && w'.ladders == w.ladders
    ensures RowsOk(w') && CallsOk(w') && InOrder(w')
  {
    assert forall i | 0 <= i < |w.calls| :: CallMatches(w, w.calls[i]) && CallMatches(w', w'.calls[i]);
    assert forall j | 0 <= j < |w.rows| :: Attempted(w', j) <==> Attempted(w, j);
  }

  lemma HistoryIsSafe(w: World, w': World)
    requires Inv(w)
    requires w'.rows == w.rows && w'.calls == w.calls && w'.ladders == w.ladders && w'.plans == w.plans
    requires w'.connected == w.connected && w.findings <= w'.findings && w.writtenOff <= w'.writtenOff && w.retyped <= w'.retyped
    ensures Inv(w') && Evolves(w, w')
  {
    HistoryKeepsEvidence(w, w');
    HistoryKeepsCalls(w, w');
    RowTablesUnchanged(w, w');
    hide Evidenced, LaddersOk, PlansOk, OneDoubtPerVenue, InOrder, CallsOk, BrokersUnique, RungsSorted, RowOk, Dishonest;
  }

  lemma {:induction false} EvolvesComposes(w: World, w1: World, w2: World)
    requires LaddersOk(w1) && Evolves(w, w1) && Evolves(w1, w2)
    ensures Evolves(w, w2)
  {
    forall k | 0 <= k < |w.rows|
      ensures RowEvolves(w.rows[k], w2.rows[k])
    {
      assert RowEvolves(w.rows[k], w1.rows[k]) && RowEvolves(w1.rows[k], w2.rows[k]);
    }
    forall l | 0 <= l < |w.ladders|
      ensures LadderEvolves(w.ladders[l], w2.ladders[l], RetypedSince(w, w2, l))
    {
      RetypingComposes(w, w1, w2, l);
      assert LadderEvolves(w.ladders[l], w1.ladders[l], RetypedSince(w, w1, l));
      assert LadderEvolves(w1.ladders[l], w2.ladders[l], RetypedSince(w1, w2, l));
    }
    forall k | 0 <= k < |w.rows| && w.rows[k].status == PendingCancel
      ensures w2.rows[k].status == PendingCancel || w2.rows[k].status.Terminal() || Dishonest(w2, k)
    {
      if w1.rows[k].status != PendingCancel {
        assert RowEvolves(w1.rows[k], w2.rows[k]);
        if !w1.rows[k].status.Terminal() {
          DishonestyStays(w1, w2, k);
        }
      }
    }
    forall k | |w.rows| <= k < |w2.rows|
      ensures w2.rows[k].ladder !in w.plans
    {
      if k < |w1.rows| {
        assert RowEvolves(w1.rows[k], w2.rows[k]);
      }
    }
  }

  lemma RetypingComposes(w: World, w1: World, w2: World, l: nat)
    requires w.retyped <= w1.retyped <= w2.retyped
    ensures RetypedSince(w, w1, l) || RetypedSince(w1, w2, l) ==> RetypedSince(w, w2, l)
  {
    assert forall i | 0 <= i < |w1.retyped| :: w1.retyped[i] == w2.retyped[i];
  }

  lemma DishonestyStays(w: World, w': World, k: nat)
    requires LaddersOk(w) && Evolves(w, w') && k < |w.rows| && Dishonest(w, k)
    requires w.rows[k].status.Active() && w.rows[k].status != Prepared
    ensures Dishonest(w', k)
  {
    assert RowEvolves(w.rows[k], w'.rows[k]);
    assert LadderOk(w, w.rows[k].ladder);
    var l := w.rows[k].ladder;
    assert LadderEvolves(w.ladders[l], w'.ladders[l], RetypedSince(w, w', l));
    var f :| About(w, f, k) && !HonestReport(f.report, w.rows[k].quantity, Spec(w, k));
    assert About(w', f, k);
  }

  lemma WriteOffIsSafe(w: World, key: nat, reason: string)
    requires Inv(w) && key < |w.rows| && Doubtful(w.rows[key])
    ensures Inv(Do(w, WriteOff(key, reason))) && Evolves(w, Do(w, WriteOff(key, reason)))
  {
    var w1 := w.(writtenOff := w.writtenOff + {key});
    var o := w.rows[key].(status := Canceled, reason := reason);
    assert Do(w, WriteOff(key, reason)) == Do(w1, Update(key, o)) by {
      hide Inv;
    }
    HistoryIsSafe(w, w1);
    InvHasLadders(w1);
    hide Inv, Evolves, Do;
    WrittenOffIsSafeUpdate(w1, key, o);
    UpdateIsSafe(w1, key, o);
    EvolvesComposes(w, w1, Do(w1, Update(key, o)));
  }

  lemma InvHasLadders(w: World)
    requires Inv(w)
    ensures LaddersOk(w) && RowsOk(w)
  {
  }

  lemma WrittenOffIsSafeUpdate(w: World, key: nat, o: Order)
    requires RowsOk(w) && key < |w.rows| && Doubtful(w.rows[key]) && key in w.writtenOff
    requires o == w.rows[key].(status := Canceled, reason := o.reason)
    ensures SafeUpdate(w, key, o)
  {
  }

  // ---------- Placement calls ----------

  lemma PlaceKeepsCalls(w: World, key: nat)
    requires RowsOk(w) && CallsOk(w) && InOrder(w) && SafePlace(w, key)
    ensures CallsOk(Do(w, Place(key))) && InOrder(Do(w, Place(key)))
  {
    var w' := Do(w, Place(key));
    forall i | 0 <= i < |w'.calls|
      ensures CallMatches(w', w'.calls[i])
    {
      if i < |w.calls| {
        assert CallMatches(w, w.calls[i]);
      }
    }
    forall i | 0 <= i < |w.calls|
      ensures w.calls[i].order != key
    {
      assert w.calls[i] in w.calls;
    }
    forall j | 0 <= j < |w.rows|
      ensures Attempted(w', j) ==> Attempted(w, j)
    {
      if Called(w', j) {
        var c :| c in w'.calls && c.order == j;
      }
    }
  }

  lemma PlaceKeepsOrder(w: World, key: nat)
    requires RowsOk(w) && RungsSorted(w) && CallsOk(w) && CallsSorted(w) && SafePlace(w, key)
    ensures CallsSorted(Do(w, Place(key)))
  {
    hide RowOk, Alone;
    forall i | 0 <= i < |w.calls| && w.calls[i].ladder == w.rows[key].ladder
      ensures w.calls[i].rung < w.rows[key].rung
    {
      assert CallMatches(w, w.calls[i]);
      assert w.calls[i] in w.calls;
      assert Called(w, w.calls[i].order) && !Called(w, key);
    }
  }

  lemma PlaceKeepsEvidence(w: World, key: nat)
    requires RowsOk(w) && Evidenced(w) && SafePlace(w, key)
    ensures Evidenced(Do(w, Place(key)))
  {
    var w' := Do(w, Place(key));
    forall k | 0 <= k < |w.rows|
      ensures FillReported(w', k) && StatusReported(w', k) && CancelEvidenced(w', k)
    {
      assert FillReported(w, k) && StatusReported(w, k) && CancelEvidenced(w, k);
      if k != key {
        if Called(w', k) {
          var c :| c in w'.calls && c.order == k;
        }
        SameEvidence(w, w', k);
      } else {
        assert forall f :: About(w, f, k) <==> About(w', f, k);
      }
    }
  }

  lemma PlaceEvolves(w: World, key: nat)
    requires RowsOk(w) && SafePlace(w, key)
    ensures Evolves(w, Do(w, Place(key)))
  {
    hide RowOk, Alone;
    assert forall k | 0 <= k < |w.rows| :: RowEvolves(w.rows[k], w.rows[k]);
  }

  lemma PlaceIsSafe(w: World, key: nat)
    requires Inv(w) && SafePlace(w, key)
    ensures Inv(Do(w, Place(key))) && Evolves(w, Do(w, Place(key)))
  {
    PlaceKeepsCalls(w, key);
    PlaceKeepsOrder(w, key);
    PlaceKeepsEvidence(w, key);
    PlaceEvolves(w, key);
    var w' := Do(w, Place(key));
    assert w' == w.(calls := w.calls + [NewCall(w, key)]);
    RowTablesUnchanged(w, w');
    hide Do, Evolves, SafePlace, Evidenced, RowsOk, LaddersOk, PlansOk, OneDoubtPerVenue, InOrder, CallsOk, CallsSorted, BrokersUnique, RungsSorted;
  }

  lemma RowTablesUnchanged(w: World, w': World)
    requires RowsOk(w) && RungsSorted(w) && BrokersUnique(w) && OneDoubtPerVenue(w) && LaddersOk(w) && PlansOk(w)
    requires w'.rows == w.rows && w'.ladders == w.ladders && w'.plans == w.plans && w.retyped <= w'.retyped
    ensures RowsOk(w') && RungsSorted(w') && BrokersUnique(w') && OneDoubtPerVenue(w') && LaddersOk(w') && PlansOk(w')
  {
    assert forall k | 0 <= k < |w.rows| :: Spec(w', k) == Spec(w, k);
    forall l | 0 <= l < |w.ladders|
      ensures LadderOk(w', l)
    {
      assert LadderOk(w, l);
    }
    hide Lines;
  }

  // ---------- Ladders ----------

  /** One ladder row changes and nothing else: what has to hold of the new row for everything to survive. */
  ghost predicate SafeLadder(w: World, l: nat, row: LadderRow)
    requires RowsOk(w)
  {
    && l < |w.ladders|
    && row.spec.venue == w.ladders[l].spec.venue
    && LadderEvolves(w.ladders[l], row, true)
    && LadderOk(w.(ladders := w.ladders[l := row]), l)
  }

  lemma LadderKeepsOrders(w: World, l: nat, row: LadderRow)
    requires RowsOk(w) && RungsSorted(w) && BrokersUnique(w) && CallsOk(w) && InOrder(w) && OneDoubtPerVenue(w)
    requires SafeLadder(w, l, row)
    ensures var w' := w.(ladders := w.ladders[l := row]);
      RowsOk(w') && RungsSorted(w') && BrokersUnique(w') && CallsOk(w') && InOrder(w') && OneDoubtPerVenue(w')
  {
    var w' := w.(ladders := w.ladders[l := row]);
    assert forall k | 0 <= k < |w.rows| :: Spec(w', k).venue == Spec(w, k).venue;
    forall i | 0 <= i < |w.calls|
      ensures CallMatches(w', w.calls[i])
    {
      assert CallMatches(w, w.calls[i]);
    }
    assert forall j | 0 <= j < |w.rows| :: Attempted(w', j) <==> Attempted(w, j);
  }

  lemma LadderKeepsLadders(w: World, l: nat, row: LadderRow)
    requires RowsOk(w) && LaddersOk(w) && PlansOk(w) && Evidenced(w) && SafeLadder(w, l, row)
    ensures var w' := w.(ladders := w.ladders[l := row]); LaddersOk(w') && PlansOk(w') && Evidenced(w')
  {
    var w' := w.(ladders := w.ladders[l := row]);
    HistoryKeepsEvidence(w, w');
    forall l' | 0 <= l' < |w.ladders|
      ensures LadderOk(w', l')
    {
      assert LadderOk(w, l');
    }
    hide Evidenced, Lines;
  }

  lemma LadderKeepsInv(w: World, l: nat, row: LadderRow)
    requires Inv(w) && SafeLadder(w, l, row)
    ensures Inv(w.(ladders := w.ladders[l := row]))
  {
    LadderKeepsOrders(w, l, row);
    LadderKeepsLadders(w, l, row);
    hide Evidenced, LaddersOk, PlansOk, OneDoubtPerVenue, InOrder, CallsOk, BrokersUnique, RungsSorted, RowOk, SafeLadder;
  }

  lemma LadderIsSafe(w: World, l: nat, row: LadderRow)
    requires Inv(w) && SafeLadder(w, l, row) && LadderEvolves(w.ladders[l], row, false)
    ensures var w' := w.(ladders := w.ladders[l := row]); Inv(w') && Evolves(w, w')
  {
    LadderKeepsInv(w, l, row);
    InvHasLadders(w);
    hide Inv, LaddersOk, RowOk, Dishonest, SameKind;
  }

  lemma RetypedIsSafeLadder(w: World, l: nat, spec: Ladder.Spec)
    requires RowsOk(w) && LaddersOk(w) && Safe(w, Retype(l, spec)) && l in w.retyped
    ensures SafeLadder(w, l, w.ladders[l].(spec := spec))
  {
    assert LadderOk(w, l);
  }

  lemma RetypeEvolves(w: World, l: nat, spec: Ladder.Spec)
    requires RowsOk(w) && Safe(w, Retype(l, spec))
    ensures Evolves(w, Do(w, Retype(l, spec)))
  {
    var w' := Do(w, Retype(l, spec));
    assert w'.retyped[|w.retyped|] == l;
    hide RowOk, Dishonest, SameKind;
  }

  lemma RetypeIsSafe(w: World, l: nat, spec: Ladder.Spec)
    requires Inv(w) && RowsOk(w) && Safe(w, Retype(l, spec))
    ensures Inv(Do(w, Retype(l, spec))) && Evolves(w, Do(w, Retype(l, spec)))
  {
    var w1 := w.(retyped := w.retyped + [l]);
    HistoryIsSafe(w, w1);
    InvHasLadders(w1);
    RetypeEvolves(w, l, spec);
    hide Inv, Evolves, RowsOk, LaddersOk, SafeLadder;
    RetypedIsSafeLadder(w1, l, spec);
    LadderKeepsInv(w1, l, w.ladders[l].(spec := spec));
  }

  lemma StateIsSafeLadder(w: World, l: nat, state: State, reason: string)
    requires RowsOk(w) && LaddersOk(w) && SafeState(w, l, state)
    ensures SafeLadder(w, l, w.ladders[l].(state := state, reason := reason))
    ensures LadderEvolves(w.ladders[l], w.ladders[l].(state := state, reason := reason), false)
  {
    assert LadderOk(w, l);
  }

  lemma EditIsSafeLadder(w: World, l: nat, spec: Ladder.Spec)
    requires RowsOk(w) && LaddersOk(w) && Safe(w, Edit(l, spec))
    ensures SafeLadder(w, l, w.ladders[l].(spec := spec))
    ensures LadderEvolves(w.ladders[l], w.ladders[l].(spec := spec), false)
  {
    assert LadderOk(w, l);
  }

  lemma CreateIsSafe(w: World, spec: Ladder.Spec)
    requires Inv(w)
    ensures Inv(Do(w, Create(spec))) && Evolves(w, Do(w, Create(spec)))
  {
    var w' := Do(w, Create(spec));
    CreateKeepsOrders(w, spec);
    CreateKeepsLadders(w, spec);
    hide Evidenced, LaddersOk, PlansOk, OneDoubtPerVenue, InOrder, CallsOk, BrokersUnique, RungsSorted, RowOk, Dishonest;
  }

  lemma CreateKeepsOrders(w: World, spec: Ladder.Spec)
    requires RowsOk(w) && RungsSorted(w) && BrokersUnique(w) && CallsOk(w) && InOrder(w) && OneDoubtPerVenue(w)
    ensures var w' := Do(w, Create(spec));
      RowsOk(w') && RungsSorted(w') && BrokersUnique(w') && CallsOk(w') && InOrder(w') && OneDoubtPerVenue(w')
  {
    var w' := Do(w, Create(spec));
    assert forall k | 0 <= k < |w.rows| :: Spec(w', k) == Spec(w, k);
    forall i | 0 <= i < |w.calls|
      ensures CallMatches(w', w.calls[i])
    {
      assert CallMatches(w, w.calls[i]);
    }
    assert forall j | 0 <= j < |w.rows| :: Attempted(w', j) <==> Attempted(w, j);
  }

  lemma CreateKeepsLadders(w: World, spec: Ladder.Spec)
    requires RowsOk(w) && LaddersOk(w) && PlansOk(w) && Evidenced(w)
    ensures var w' := Do(w, Create(spec)); LaddersOk(w') && PlansOk(w') && Evidenced(w')
  {
    var w' := Do(w, Create(spec));
    HistoryKeepsEvidence(w, w');
    forall l | 0 <= l < |w'.ladders|
      ensures LadderOk(w', l)
    {
      if l < |w.ladders| {
        assert LadderOk(w, l);
      }
    }
    hide Evidenced, Lines;
  }

  // ---------- Inserting a plan ----------

  lemma {:induction false} LinesOfBatch(rows: seq<Order>, rungs: seq<Ladder.Rung>, l: nat, l': nat)
    ensures Lines(rows + NewOrders(l, rungs), l') ==
      Lines(rows, l') + if l' == l then RungLines(rungs) else []
  {
    if rungs == [] {
      assert rows + NewOrders(l, rungs) == rows;
    } else {
      var n := |rungs| - 1;
      var all := rows + NewOrders(l, rungs);
      LinesOfBatch(rows, rungs[..n], l, l');
      assert all[..|all| - 1] == rows + NewOrders(l, rungs[..n]);
      assert all[|all| - 1] == NewOrder(l, rungs[n]);
      assert RungLines(rungs) == RungLines(rungs[..n]) + [Line(rungs[n].index, rungs[n].price, rungs[n].quantity)];
      hide NewOrders, RungLines;
    }
  }

  lemma {:induction false} LineIsSomeRow(rows: seq<Order>, l: nat, i: nat) returns (key: nat)
    requires i < |Lines(rows, l)|
    ensures key < |rows| && rows[key].ladder == l && rows[key].rung == Lines(rows, l)[i].rung
  {
    var n := |rows| - 1;
    if i < |Lines(rows[..n], l)| {
      key := LineIsSomeRow(rows[..n], l, i);
    } else {
      key := n;
    }
  }

  /** A plan starts at rung zero, so a second batch for the same ladder always meets the unique rung index. */
  lemma OnlyFirstBatchFits(w: World, l: nat, plan: Ladder.Plan)
    requires PlansOk(w) && Numbered(plan) && InsertOk(w, l, plan)
    ensures l !in w.plans
    ensures forall k | 0 <= k < |w.rows| :: w.rows[k].ladder != l
  {
    var first := plan.rungs[0];
    if l in w.plans {
      assert Lines(w.rows, l)[0].rung == first.index;
      var key := LineIsSomeRow(w.rows, l, 0);
    }
  }

  lemma AppendedRows(rows: seq<Order>, l: nat, rungs: seq<Ladder.Rung>)
    ensures forall k | 0 <= k < |rows| :: (rows + NewOrders(l, rungs))[k] == rows[k]
    ensures forall k | |rows| <= k < |rows| + |rungs| :: (rows + NewOrders(l, rungs))[k] == NewOrder(l, rungs[k - |rows|])
  {
  }

  lemma InsertKeepsRows(w: World, l: nat, plan: Ladder.Plan, terms: Terms)
    requires RowsOk(w) && RungsSorted(w) && BrokersUnique(w) && OneDoubtPerVenue(w) && PlansOk(w)
    requires SafeInsert(w, l, plan)
    ensures var w' := Do(w, Insert(l, plan, terms));
      RowsOk(w') && RungsSorted(w') && BrokersUnique(w') && OneDoubtPerVenue(w')
  {
    OnlyFirstBatchFits(w, l, plan);
    hide Lines, PlansOk;
    var w' := Do(w, Insert(l, plan, terms));
    AppendedRows(w.rows, l, plan.rungs);
    hide NewOrders;
    assert forall k | 0 <= k < |w.rows| :: Spec(w', k) == Spec(w, k);
  }

  lemma InsertKeepsCalls(w: World, l: nat, plan: Ladder.Plan, terms: Terms)
    requires RowsOk(w) && CallsOk(w) && InOrder(w) && PlansOk(w) && SafeInsert(w, l, plan)
    requires RowsOk(Do(w, Insert(l, plan, terms)))
    ensures CallsOk(Do(w, Insert(l, plan, terms))) && InOrder(Do(w, Insert(l, plan, terms)))
  {
    OnlyFirstBatchFits(w, l, plan);
    hide Lines, PlansOk, RowOk;
    var w' := Do(w, Insert(l, plan, terms));
    AppendedRows(w.rows, l, plan.rungs);
    hide NewOrders;
    forall i | 0 <= i < |w.calls|
      ensures CallMatches(w', w.calls[i])
    {
      assert CallMatches(w, w.calls[i]);
    }
    assert forall j | 0 <= j < |w'.rows| :: Attempted(w', j) ==> j < |w.rows| && Attempted(w, j);
  }

  lemma InsertKeepsLadders(w: World, l: nat, plan: Ladder.Plan, terms: Terms)
    requires RowsOk(w) && CallsOk(w) && LaddersOk(w) && PlansOk(w) && SafeInsert(w, l, plan)
    ensures LaddersOk(Do(w, Insert(l, plan, terms)))
  {
    OnlyFirstBatchFits(w, l, plan);
    hide Lines, PlansOk, CallsOk;
    var w' := Do(w, Insert(l, plan, terms));
    AppendedRows(w.rows, l, plan.rungs);
    hide NewOrders;
    forall l' | 0 <= l' < |w.ladders|
      ensures LadderOk(w', l')
    {
      assert LadderOk(w, l');
      if w.ladders[l'].state == StateDone {
        var k :| 0 <= k < |w.rows| && w.rows[k].ladder == l' && 0 < w.rows[k].filled;
        assert w'.rows[k].ladder == l' && 0 < w'.rows[k].filled;
      }
    }
  }

  lemma InsertKeepsPlans(w: World, l: nat, plan: Ladder.Plan, terms: Terms)
    requires RowsOk(w) && PlansOk(w) && SafeInsert(w, l, plan)
    ensures PlansOk(Do(w, Insert(l, plan, terms)))
  {
    OnlyFirstBatchFits(w, l, plan);
    var w' := Do(w, Insert(l, plan, terms));
    NoLines(w.rows, l);
    forall l' | l' in w'.plans
      ensures Lines(w'.rows, l') == PlanLines(w'.plans[l'])
    {
      LinesOfBatch(w.rows, plan.rungs, l, l');
    }
    hide Lines;
    AppendedRows(w.rows, l, plan.rungs);
    hide NewOrders;
  }

  lemma {:induction false} NoLines(rows: seq<Order>, l: nat)
    requires forall k | 0 <= k < |rows| :: rows[k].ladder != l
    ensures Lines(rows, l) == []
  {
    if rows != [] {
      NoLines(rows[..|rows| - 1], l);
    }
  }

  lemma InsertKeepsEvidence(w: World, l: nat, plan: Ladder.Plan, terms: Terms)
    requires RowsOk(w) && CallsOk(w) && Evidenced(w) && SafeInsert(w, l, plan)
    ensures Evidenced(Do(w, Insert(l, plan, terms)))
  {
    var w' := Do(w, Insert(l, plan, terms));
    forall k | 0 <= k < |w'.rows|
      ensures FillReported(w', k) && StatusReported(w', k) && CancelEvidenced(w', k)
    {
      if k < |w.rows| {
        SameEvidence(w, w', k);
      } else {
        assert w'.rows[k] == NewOrder(l, plan.rungs[k - |w.rows|]);
      }
    }
  }

  lemma InsertEvolves(w: World, l: nat, plan: Ladder.Plan, terms: Terms)
    requires RowsOk(w) && RowsOk(Do(w, Insert(l, plan, terms))) && l !in w.plans
    ensures Evolves(w, Do(w, Insert(l, plan, terms)))
  {
    var w' := Do(w, Insert(l, plan, terms));
    AppendedRows(w.rows, l, plan.rungs);
    hide NewOrders;
    assert forall k | 0 <= k < |w.rows| :: w'.rows[k] == w.rows[k];
    hide RowOk, Dishonest;
  }

  lemma InsertIsSafe(w: World, l: nat, plan: Ladder.Plan, terms: Terms)
    requires Inv(w) && SafeInsert(w, l, plan)
    ensures Inv(Do(w, Insert(l, plan, terms))) && Evolves(w, Do(w, Insert(l, plan, terms)))
  {
    OnlyFirstBatchFits(w, l, plan);
    InsertKeepsRows(w, l, plan, terms);
    InsertKeepsCalls(w, l, plan, terms);
    InsertKeepsLadders(w, l, plan, terms);
    InsertKeepsPlans(w, l, plan, terms);
    InsertKeepsEvidence(w, l, plan, terms);
    InsertEvolves(w, l, plan, terms);
    hide Evolves, RowsOk, Evidenced, LaddersOk, PlansOk, OneDoubtPerVenue, InOrder, CallsOk, BrokersUnique, RungsSorted;
  }

  // ---------- Any step ----------

  lemma SafeStep(w: World, a: Action)
    requires Inv(w) && RowsOk(w) && Safe(w, a)
    ensures Inv(Do(w, a)) && Evolves(w, Do(w, a))
  {
    InvHasLadders(w);
    hide Inv, Evolves, RowsOk, LaddersOk, SafeUpdate, SafePlace, SafeInsert, SafeState, SafeLadder;
    match a
    case Create(spec) => CreateIsSafe(w, spec);
    case Edit(l, spec) =>
      EditIsSafeLadder(w, l, spec);
      LadderIsSafe(w, l, w.ladders[l].(spec := spec));
    case Retype(l, spec) => RetypeIsSafe(w, l, spec);
    case Insert(l, plan, terms) => InsertIsSafe(w, l, plan, terms);
    case SaveState(l, state, reason) =>
      StateIsSafeLadder(w, l, state, reason);
      LadderIsSafe(w, l, w.ladders[l].(state := state, reason := reason));
    case Update(key, order) => UpdateIsSafe(w, key, order);
    case Place(key) => PlaceIsSafe(w, key);
    case Learn(finding) => HistoryIsSafe(w, Do(w, a));
    case WriteOff(key, reason) => WriteOffIsSafe(w, key, reason);
  }
}
