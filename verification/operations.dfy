/**
  What each operation does, as the list of steps it takes when nothing interrupts it, given the answers it gets
  (internal/orders, and submitDraft of internal/app/actions.go). An interrupted operation takes a prefix.
*/
module Operations {
  import opened Wrappers
  import opened Market
  import opened Records
  import opened Outcomes
  import opened Protocol
  import Ladder

  // ---------- Answers of the exchange and the operator ----------

  /** A placement either returns the exchange's id or fails, and a failure may be ambiguous. */
  datatype PlaceAnswer = Accepted(broker: nat) | Refused(ambiguous: bool, reason: string)

  datatype CancelAnswer = CancelAccepted | CancelRefused(reason: string)

  datatype Lookup = Found(report: Report) | Failed(reason: string) | Unsupported

  /** An answer about one order, and how many of this order's database writes go through in the cycle. */
  datatype Reply = Reply(lookup: Lookup, writes: nat)

  /** The resting orders of a venue: exchange id to filled quantity. */
  type Listing = map<nat, int>

  const DROPPED := "dropped before it was sent"
  const LOOKUP_UNSUPPORTED := "the exchange cannot look this order up; match it by hand"
  const WRONG_CLIENT := "the order found carries another identifier"
  const WRONG_TERMS := "the order found is for another symbol or side"
  const OVERFILLED := "more was filled than ordered"
  const WITHDRAWN := "withdrawn by the exchange"

  // ---------- Settling a ladder ----------

  function RowsOf(rows: seq<Order>, ladder: nat): (orders: seq<Order>)
    ensures |orders| == |OrdersOf(rows, ladder)|
  {
    var keys := OrdersOf(rows, ladder);
    seq(|keys|, i requires 0 <= i < |keys| => rows[keys[i]])
  }

  /** Closes a ladder once none of its rungs can change: DONE if anything filled, CANCELED if nothing did. */
  function SettleScript(w: World, l: nat): seq<Action> {
    if l >= |w.ladders| || AnyActive(w.rows, l) || !w.ladders[l].state.Live() then []
    else
      var state := if 0 < Summarize(RowsOf(w.rows, l)).filled then StateDone else StateCanceled;
      [SaveState(l, state, w.ladders[l].reason)]
  }

  // ---------- Submitting ----------

  /** The keys of a ladder's unsent orders, nearest the base first. */
  function PreparedOf(rows: seq<Order>, ladder: nat): (keys: seq<nat>)
    ensures forall i | 0 <= i < |keys| ::
      keys[i] < |rows| && rows[keys[i]].ladder == ladder && rows[keys[i]].status == Prepared
    ensures forall i, j | 0 <= i < j < |keys| :: keys[i] < keys[j]
    ensures forall k | 0 <= k < |rows| && rows[k].ladder == ladder && rows[k].status == Prepared :: k in keys
  {
    if rows == [] then []
    else
      var n := |rows| - 1;
      var earlier := PreparedOf(rows[..n], ladder);
      if rows[n].ladder == ladder && rows[n].status == Prepared then earlier + [n] else earlier
  }

  /** The rung as it is committed just before its request leaves. */
  function Sent(r: Order): Order {
    r.(status := Sending)
  }

  /** The rung as the answer to its request leaves it. */
  function Answered(r: Order, answer: PlaceAnswer): Order {
    match answer
    case Accepted(b) => Sent(r).(broker := Some(b), status := Pending, reason := "")
    case Refused(ambiguous, reason) => Sent(r).(status := if ambiguous then Unknown else Rejected, reason := Trim(reason))
  }

  /** The state a run leaves its ladder in, from the reason it stopped early, which is empty when it did not. */
  function AfterRun(l: nat, stopped: string): Action {
    SaveState(l, if stopped == "" then StateOpen else StateFailed, stopped)
  }

  /**
    Sends the pending rungs one by one: commit SENDING, place, commit the answer; stop at the first failure. A
    run whose next answer never comes, or whose answer the table refuses, ends there.
  */
  function SendScript(w: World, l: nat, pending: seq<nat>, answers: seq<PlaceAnswer>): seq<Action>
    decreases |pending|, 1
  {
    if pending == [] then [AfterRun(l, "")]
    else if pending[0] >= |w.rows| then []
    else
      var commit, place := Update(pending[0], Sent(w.rows[pending[0]])), Place(pending[0]);
      [commit] + ([place] + AnswerScript(Do(Do(w, commit), place), l, pending, answers))
  }

  /** What follows a request that has left. */
  function AnswerScript(w: World, l: nat, pending: seq<nat>, answers: seq<PlaceAnswer>): seq<Action>
    requires pending != []
    decreases |pending|, 0
  {
    if answers == [] || pending[0] >= |w.rows| then []
    else
      var answered := Answered(w.rows[pending[0]], answers[0]);
      var commit := Update(pending[0], answered);
      if answers[0].Refused? then [commit, AfterRun(l, Trim(answers[0].reason))]
      else if !UpdateOk(w, pending[0], answered) then []
      else [commit] + SendScript(Do(w, commit), l, pending[1..], answers[1..])
  }

  predicate LaddersKnown(w: World) {
    forall k | 0 <= k < |w.rows| :: w.rows[k].ladder < |w.ladders|
  }

  predicate MaySubmit(w: World, l: nat) {
    && l < |w.ladders| && LaddersKnown(w)
    && !w.ladders[l].state.Closed()
    && w.ladders[l].spec.venue in w.connected
    && VenueIsSettled(w, w.ladders[l].spec.venue)
    && PreparedOf(w.rows, l) != []
  }

  function SubmitScript(w: World, l: nat, answers: seq<PlaceAnswer>): seq<Action> {
    if !MaySubmit(w, l) then []
    else
      var start := SaveState(l, StatePlacing, "");
      [start] + SendScript(Do(w, start), l, PreparedOf(w.rows, l), answers)
  }

  /** The commission is reserved on a buy, when the exchange reports a rate. */
  function BuyFee(side: Side, fee: Option<real>): real {
    if side == Buy && fee.Some? then fee.value else 0.0
  }

  /**
    Turns a draft into orders: price it, insert its rows, submit it. A stopped ladder is resumed instead. The
    fee is None when the exchange's terms could not be read, and then no buy is built.
  */
  function SubmitDraftScript(
    w: World, l: nat, terms: Terms, powers: Ladder.Powers, answers: seq<PlaceAnswer>): seq<Action>
  {
    if l >= |w.ladders| then []
    else if w.ladders[l].state == StateFailed then SubmitScript(w, l, answers)
    else if w.ladders[l].state != StateDraft then []
    else if terms.Err? && w.ladders[l].spec.side == Buy then []
    else
      match Ladder.Build(DraftSpec(w.ladders[l], terms), powers)
      case Err(_) => []
      case Ok(plan) =>
        if !InsertOk(w, l, plan) then []
        else [Insert(l, plan, terms)] + SubmitScript(Do(w, Insert(l, plan, terms)), l, answers)
  }

  function DraftSpec(row: LadderRow, terms: Terms): Ladder.Spec {
    var fee := if terms.Ok? then terms.value else None;
    row.spec.(fee := BuyFee(row.spec.side, fee))
  }

  // ---------- Canceling ----------

  function CancelReply(answers: map<nat, CancelAnswer>, key: nat): CancelAnswer {
    if key in answers then answers[key] else CancelRefused("")
  }

  /** One rung of a canceled ladder: dropped if never sent, left alone if its id is unknown, otherwise asked to cancel. */
  function CancelRung(key: nat, r: Order, answer: CancelAnswer): seq<Action> {
    if !r.status.Active() || r.status == PendingCancel then []
    else if r.status == Prepared then [Update(key, r.(status := Canceled, reason := DROPPED))]
    else if r.status.Unresolved() || r.broker.None? then []
    else
      match answer
      case CancelRefused(reason) => [Update(key, r.(reason := Trim(reason)))]
      case CancelAccepted => [Update(key, r.(status := PendingCancel, reason := ""))]
  }

  function CancelRungs(w: World, keys: seq<nat>, answers: map<nat, CancelAnswer>): seq<Action>
    decreases |keys|
  {
    if keys == [] then []
    else if keys[0] >= |w.rows| then []
    else
      var first := CancelRung(keys[0], w.rows[keys[0]], CancelReply(answers, keys[0]));
      first + CancelRungs(Play(w, first), keys[1..], answers)
  }

  function CancelLadderScript(w: World, l: nat, answers: map<nat, CancelAnswer>): seq<Action> {
    if l >= |w.ladders| || w.ladders[l].spec.venue !in w.connected then []
    else
      var cancels := CancelRungs(w, OrdersOf(w.rows, l), answers);
      cancels + SettleScript(Play(w, cancels), l)
  }

  function CancelOrderScript(w: World, key: nat, answer: CancelAnswer): seq<Action> {
    if key >= |w.rows| || !LaddersKnown(w) then []
    else
      var r := w.rows[key];
      if !r.status.Active() || r.status == PendingCancel then []
      else if r.status == Prepared then [Update(key, r.(status := Canceled, reason := DROPPED))]
      else if r.status.Unresolved() || r.broker.None? || Spec(w, key).venue !in w.connected || answer.CancelRefused? then []
      else [Update(key, r.(status := PendingCancel, reason := ""))]
  }

  // ---------- Reconciling ----------

  /** A write the unique broker index refuses is an error that ends the work on this order. */
  function WriteScript(w: World, key: nat, order: Order): seq<Action> {
    if UpdateOk(w, key, order) then [Update(key, order)] else []
  }

  /** Records an order whose fate is unknown. The order is the process's copy, which may already carry an id. */
  function ParkScript(w: World, key: nat, order: Order, reason: string): seq<Action> {
    if order.status == Unknown && order.reason == reason then []
    else WriteScript(w, key, order.(status := Unknown, reason := reason))
  }

  /** The status an exchange's report moves an order to. */
  function NextStatus(order: Order, e: Evidence): Status {
    var next := if e.filled == order.quantity then Filled else e.status;
    if order.status == PendingCancel && (next == Pending || next == PartialFilled) then PendingCancel
    else if order.status.Terminal() && !next.Terminal() then order.status
    else next
  }

  /** The order after a report has been taken over. */
  function Applied(order: Order, e: Evidence): Order {
    var next := NextStatus(order, e);
    order.(
      filled := e.filled, amount := e.amount, costs := e.costs, costsFinal := e.costsFinal, status := next,
      reason :=
        if next == Canceled && (order.status == Pending || order.status == PartialFilled) then WITHDRAWN else order.reason)
  }

  /** Marks everything filled as reported to the operator. */
  function Notified(order: Order): Order {
    order.(notified := order.filled)
  }

  function ApplyScript(w: World, key: nat, order: Order, spec: Ladder.Spec, e: Evidence): seq<Action> {
    if e.symbol != spec.symbol || e.side != spec.side then ParkScript(w, key, order, WRONG_TERMS)
    else if e.filled > order.quantity then ParkScript(w, key, order, OVERFILLED)
    else if e.filled < order.filled then []
    else
      var next := Applied(order, e);
      if !UpdateOk(w, key, next) then []
      else if next.filled <= next.notified then [Update(key, next)]
      else [Update(key, next), Update(key, Notified(next))]
  }

  /** An order with no exchange id is looked up by our own id, and only ever looked up. */
  function RecoverScript(w: World, key: nat, r: Order, spec: Ladder.Spec, reply: Reply): seq<Action> {
    match reply.lookup
    case Unsupported => Take(ParkScript(w, key, r, LOOKUP_UNSUPPORTED), reply.writes)
    case Failed(reason) => Take(ParkScript(w, key, r, Trim(reason)), reply.writes)
    case Found(e) =>
      if e.client != Some(key) then Take(ParkScript(w, key, r, WRONG_CLIENT), reply.writes)
      else [Learn(Finding(key, e.broker, e))] + Take(ApplyScript(w, key, r.(broker := Some(e.broker)), spec, e), reply.writes)
  }

  /** A linked order the listing shows unchanged needs no detail lookup. */
  predicate Unchanged(r: Order, listing: Listing) {
    r.broker.Some? && r.broker.value in listing && listing[r.broker.value] == r.filled && r.status != PendingCancel
  }

  function LookupScript(w: World, key: nat, r: Order, spec: Ladder.Spec, reply: Reply): seq<Action>
    requires r.broker.Some?
  {
    match reply.lookup
    case Found(e) => [Learn(Finding(key, r.broker.value, e))] + Take(ApplyScript(w, key, r, spec, e), reply.writes)
    case Failed(_) => []
    case Unsupported => []
  }

  function RefreshScript(w: World, key: nat, r: Order, spec: Ladder.Spec, listing: Listing, reply: Reply): seq<Action> {
    if r.status == Prepared then []
    else if r.broker.None? then RecoverScript(w, key, r, spec, reply)
    else if Unchanged(r, listing) then []
    else LookupScript(w, key, r, spec, reply)
  }

  /** One order to refresh, with the listing of its venue and the reply its lookup will get. */
  datatype Stop = Stop(key: nat, listing: Listing, reply: Reply)

  function RefreshAt(w: World, stop: Stop): seq<Action> {
    if stop.key < |w.rows| && w.rows[stop.key].ladder < |w.ladders|
    then RefreshScript(w, stop.key, w.rows[stop.key], Spec(w, stop.key), stop.listing, stop.reply)
    else []
  }

  function SweepScript(w: World, stops: seq<Stop>): seq<Action>
    decreases |stops|
  {
    if stops == [] then []
    else RefreshAt(w, stops[0]) + SweepScript(Play(w, RefreshAt(w, stops[0])), stops[1..])
  }

  /**
    The order the query returns keys in, the listing of each venue that answered, the reply to each lookup, and the
    ladders whose closing write fails.
  */
  datatype Cycle = Cycle(
    venues: seq<Venue>, keys: seq<nat>, listings: map<Venue, Listing>, replies: map<nat, Reply>, unsaved: set<nat>)

  predicate ActiveKeys(w: World, keys: seq<nat>) {
    && (forall i | 0 <= i < |keys| :: keys[i] < |w.rows| && w.rows[keys[i]].status.Active())
    && (forall i, j | 0 <= i < j < |keys| :: keys[i] != keys[j])
    && (forall k | 0 <= k < |w.rows| && w.rows[k].status.Active() :: k in keys)
  }

  /** The query returned every active order once, and each venue is read once. */
  predicate CycleOk(w: World, c: Cycle) {
    ActiveKeys(w, c.keys) && forall i, j | 0 <= i < j < |c.venues| :: c.venues[i] != c.venues[j]
  }

  function LookupReply(replies: map<nat, Reply>, key: nat): Reply {
    if key in replies then replies[key] else Reply(Failed(""), 2)
  }

  /** The stops of one venue, in query order. */
  function VenueStops(w: World, venue: Venue, listing: Listing, keys: seq<nat>, replies: map<nat, Reply>): (stops: seq<Stop>)
    requires LaddersKnown(w) && forall i | 0 <= i < |keys| :: keys[i] < |w.rows|
    ensures forall i | 0 <= i < |stops| :: stops[i].key in keys && Spec(w, stops[i].key).venue == venue
  {
    if keys == [] then []
    else
      var earlier := VenueStops(w, venue, listing, keys[..|keys| - 1], replies);
      var k := keys[|keys| - 1];
      if Spec(w, k).venue == venue then earlier + [Stop(k, listing, LookupReply(replies, k))] else earlier
  }

  /** The stops of a cycle: the venues that are connected and whose listing could be read. */
  function CycleStops(w: World, c: Cycle, venues: seq<Venue>): seq<Stop>
    requires LaddersKnown(w) && forall i | 0 <= i < |c.keys| :: c.keys[i] < |w.rows|
  {
    if venues == [] then []
    else
      var earlier := CycleStops(w, c, venues[..|venues| - 1]);
      var venue := venues[|venues| - 1];
      if venue in w.connected && venue in c.listings
      then earlier + VenueStops(w, venue, c.listings[venue], c.keys, c.replies)
      else earlier
  }

  /** The ladders that still need attention, newest first. */
  function LiveLadders(ladders: seq<LadderRow>): (live: seq<nat>)
    ensures forall l | l in live :: l < |ladders| && ladders[l].state.Live()
    ensures forall l | 0 <= l < |ladders| && ladders[l].state.Live() :: l in live
  {
    if ladders == [] then []
    else
      var n := |ladders| - 1;
      if ladders[n].state.Live() then [n] + LiveLadders(ladders[..n]) else LiveLadders(ladders[..n])
  }

  /** Settles one ladder after another; a ladder whose closing write fails stays open for the next cycle. */
  function SettleAll(w: World, live: seq<nat>, unsaved: set<nat>): seq<Action>
    decreases |live|
  {
    if live == [] then []
    else
      var first := if live[0] in unsaved then [] else SettleScript(w, live[0]);
      first + SettleAll(Play(w, first), live[1..], unsaved)
  }

  function ReconcileScript(w: World, c: Cycle): seq<Action> {
    if !LaddersKnown(w) || !CycleOk(w, c) then []
    else
      var sweep := SweepScript(w, CycleStops(w, c, c.venues));
      var swept := Play(w, sweep);
      sweep + SettleAll(swept, LiveLadders(swept.ladders), c.unsaved)
  }

  // ---------- Resolving by hand ----------

  /** The order the operator names must be free, and match ours in every term. */
  predicate Adoptable(w: World, key: nat, broker: nat, lookup: Lookup) {
    && key < |w.rows| && LaddersKnown(w)
    && w.rows[key].status.Unresolved()
    && (forall other | 0 <= other < |w.rows| && other != key :: w.rows[other].broker != Some(broker))
    && Spec(w, key).venue in w.connected
    && lookup.Found?
    && lookup.report.symbol == Spec(w, key).symbol && lookup.report.side == Spec(w, key).side
    && lookup.report.quantity == w.rows[key].quantity && lookup.report.price == w.rows[key].price
  }

  function ResolveFoundScript(w: World, key: nat, broker: nat, lookup: Lookup): seq<Action> {
    if !Adoptable(w, key, broker, lookup) then []
    else
      var adopted := w.rows[key].(broker := Some(broker), reason := "");
      var script := [Learn(Finding(key, broker, lookup.report))] + ApplyScript(w, key, adopted, Spec(w, key), lookup.report);
      script + SettleScript(Play(w, script), w.rows[key].ladder)
  }

  function ResolveMissingScript(w: World, key: nat): seq<Action> {
    if key >= |w.rows| || !w.rows[key].status.Unresolved() || w.rows[key].broker.Some? then []
    else
      var script := [WriteOff(key, WRITTEN_OFF)];
      script + SettleScript(Play(w, script), w.rows[key].ladder)
  }
}
