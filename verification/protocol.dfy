/**
  The order tables, the history of what was asked of the exchanges, and the single steps that change them.

  A step is one committed database write or one exchange call. Everything else a process holds is memory that a
  crash loses, so the state after a crash is the state after some whole number of steps.
*/
module Protocol {
  import opened Wrappers
  import opened Market
  import opened Records
  import Ladder

  /** One request that left for an exchange, with what was true at that moment. */
  datatype Call = Call(
    order: nat, ladder: nat, rung: nat, venue: Venue, symbol: string, side: Side,
    price: nat, quantity: nat, alone: bool)

  /** A report the exchange gave about its order `broker`, acted on for our order `order`. */
  datatype Finding = Finding(order: nat, broker: nat, report: Report)

  /** The commission rate an exchange quotes, if it quotes one, or why its terms could not be read. */
  type Terms = Result<Option<real>, string>

  /**
    Tables: ladders and rows, a row's key being its position; ids.New never repeats, so positions stand for ids.
    History: every placement call, every report acted on, every order the operator wrote off, the plan each
    ladder's rows were inserted from and the commission the exchange had quoted for it, and the ladders whose terms were
    typed over after they had been sent.
  */
  datatype World = World(
    connected: set<Venue>,
    ladders: seq<LadderRow>, rows: seq<Order>,
    calls: seq<Call>, findings: seq<Finding>, writtenOff: set<nat>, plans: map<nat, Ladder.Plan>,
    retyped: seq<nat>, quotes: map<nat, Terms>)

  datatype Action =
    | Create(spec: Ladder.Spec)
    | Edit(ladder: nat, spec: Ladder.Spec)
    | Retype(ladder: nat, spec: Ladder.Spec)
    | Insert(ladder: nat, plan: Ladder.Plan, terms: Terms)
    | SaveState(ladder: nat, state: State, reason: string)
    | Update(key: nat, order: Order)
    | Place(key: nat)
    | Learn(finding: Finding)
    | WriteOff(key: nat, reason: string)

  // ---------- Queries ----------

  function Spec(w: World, key: nat): Ladder.Spec
    requires key < |w.rows| && w.rows[key].ladder < |w.ladders|
  {
    w.ladders[w.rows[key].ladder].spec
  }

  /** The keys of a ladder's orders in insertion order, which is rung order. */
  function OrdersOf(rows: seq<Order>, ladder: nat): (keys: seq<nat>)
    ensures forall i | 0 <= i < |keys| :: keys[i] < |rows| && rows[keys[i]].ladder == ladder
    ensures forall i, j | 0 <= i < j < |keys| :: keys[i] < keys[j]
    ensures forall key | 0 <= key < |rows| && rows[key].ladder == ladder :: key in keys
  {
    if rows == [] then []
    else
      var n := |rows| - 1;
      if rows[n].ladder == ladder then OrdersOf(rows[..n], ladder) + [n] else OrdersOf(rows[..n], ladder)
  }

  predicate AnyActive(rows: seq<Order>, ladder: nat) {
    exists key | 0 <= key < |rows| :: rows[key].ladder == ladder && rows[key].status.Active()
  }

  /** No order of the venue is in doubt: the guard on every submission. */
  predicate VenueIsSettled(w: World, venue: Venue)
    requires forall key | 0 <= key < |w.rows| :: w.rows[key].ladder < |w.ladders|
  {
    forall key | 0 <= key < |w.rows| :: Spec(w, key).venue == venue ==> !w.rows[key].status.Unresolved()
  }

  /** The unique index on the broker id admits this write. */
  predicate UpdateOk(w: World, key: nat, order: Order) {
    order.broker.Some? ==> forall other | 0 <= other < |w.rows| && other != key :: w.rows[other].broker != order.broker
  }

  /** The unique index on (ladder, rung) admits every row of the batch; otherwise none is inserted. */
  predicate InsertOk(w: World, ladder: nat, plan: Ladder.Plan) {
    forall key, i | 0 <= key < |w.rows| && 0 <= i < |plan.rungs| ::
      !(w.rows[key].ladder == ladder && w.rows[key].rung == plan.rungs[i].index)
  }

  function NewOrder(ladder: nat, rung: Ladder.Rung): Order {
    Order(ladder, rung.index, rung.price, rung.quantity, Prepared, None, 0, 0, 0, false, 0, "")
  }

  function NewOrders(ladder: nat, rungs: seq<Ladder.Rung>): (rows: seq<Order>)
    ensures |rows| == |rungs|
  {
    seq(|rungs|, i requires 0 <= i < |rungs| => NewOrder(ladder, rungs[i]))
  }

  function NewCall(w: World, key: nat): Call
    requires key < |w.rows| && w.rows[key].ladder < |w.ladders|
  {
    var r, spec := w.rows[key], Spec(w, key);
    Call(key, r.ladder, r.rung, spec.venue, spec.symbol, spec.side, r.price, r.quantity, Alone(w, key))
  }

  /** No other order of the same venue is in doubt. */
  predicate Alone(w: World, key: nat)
    requires key < |w.rows| && w.rows[key].ladder < |w.ladders|
  {
    forall other | 0 <= other < |w.rows| && other != key ::
      w.rows[other].ladder < |w.ladders| && Spec(w, other).venue == Spec(w, key).venue ==> !w.rows[other].status.Unresolved()
  }

  // ---------- Steps ----------

  const WRITTEN_OFF := "operator: no such order at the exchange"

  /** The effect of one step. A write to a key that is not there changes nothing. */
  function Do(w: World, a: Action): World {
    match a
    case Create(spec) => w.(ladders := w.ladders + [LadderRow(spec, StateDraft, "")])
    case Edit(l, spec) =>
      if l < |w.ladders| then w.(ladders := w.ladders[l := w.ladders[l].(spec := spec)]) else w
    case Retype(l, spec) =>
      if l < |w.ladders|
      then w.(ladders := w.ladders[l := w.ladders[l].(spec := spec)], retyped := w.retyped + [l])
      else w
    case Insert(l, plan, terms) =>
      w.(rows := w.rows + NewOrders(l, plan.rungs), plans := w.plans[l := plan], quotes := w.quotes[l := terms])
    case SaveState(l, state, reason) =>
      if l < |w.ladders| then w.(ladders := w.ladders[l := w.ladders[l].(state := state, reason := reason)]) else w
    case Update(key, order) => if key < |w.rows| then w.(rows := w.rows[key := order]) else w
    case Place(key) =>
      if key < |w.rows| && w.rows[key].ladder < |w.ladders| then w.(calls := w.calls + [NewCall(w, key)]) else w
    case Learn(finding) => w.(findings := w.findings + [finding])
    case WriteOff(key, reason) =>
      if key < |w.rows|
      then w.(rows := w.rows[key := w.rows[key].(status := Canceled, reason := reason)], writtenOff := w.writtenOff + {key})
      else w
  }

  function Play(w: World, script: seq<Action>): World {
    if script == [] then w else Do(Play(w, script[..|script| - 1]), script[|script| - 1])
  }

  /** What a process that survives for n steps gets done. */
  function Take(script: seq<Action>, n: nat): (prefix: seq<Action>)
    ensures |prefix| <= n && prefix <= script
  {
    if n < |script| then script[..n] else script
  }

  lemma {:induction false} PlayConcat(w: World, a: seq<Action>, b: seq<Action>)
    ensures Play(w, a + b) == Play(Play(w, a), b)
  {
    if b == [] {
      assert a + b == a;
    } else {
      var n := |b| - 1;
      PlayConcat(w, a, b[..n]);
      assert (a + b)[..|a + b| - 1] == a + b[..n];
    }
  }

  lemma PlayOne(w: World, a: Action)
    ensures Play(w, [a]) == Do(w, a)
  {
    assert [a][..0] == [];
  }

  // ---------- What every reachable state satisfies ----------

  ghost predicate RowOk(r: Order) {
    && 0 < r.quantity && 0 < r.price
    && 0 <= r.notified <= r.filled <= r.quantity
    && (r.filled == r.quantity ==> r.status == Filled)
    && (r.status == Prepared || r.status == Sending ==> r.broker.None?)
    && (r.broker.None? ==>
          && Untouched(r)
          && r.status != Pending && r.status != PartialFilled && r.status != PendingCancel && r.status != Filled)
  }

  /** No report has ever been written into the row. */
  ghost predicate Untouched(r: Order) {
    r.filled == 0 && r.amount == 0 && r.costs == 0 && !r.costsFinal
  }

  ghost predicate Called(w: World, key: nat) {
    exists c | c in w.calls :: c.order == key
  }

  /** The order was, or may be about to be, sent. */
  ghost predicate Attempted(w: World, key: nat)
    requires key < |w.rows|
  {
    w.rows[key].status == Sending || Called(w, key)
  }

  /** In doubt, and with no exchange id to ask about. */
  ghost predicate Doubtful(r: Order) {
    r.status.Unresolved() && r.broker.None?
  }

  ghost predicate RowsOk(w: World) {
    forall k | 0 <= k < |w.rows| :: RowOk(w.rows[k]) && w.rows[k].ladder < |w.ladders|
  }

  ghost predicate RungsSorted(w: World) {
    forall i, j | 0 <= i < j < |w.rows| && w.rows[i].ladder == w.rows[j].ladder :: w.rows[i].rung < w.rows[j].rung
  }

  ghost predicate BrokersUnique(w: World) {
    forall i, j | 0 <= i < j < |w.rows| && w.rows[i].broker.Some? :: w.rows[i].broker != w.rows[j].broker
  }

  ghost predicate CallMatches(w: World, c: Call)
    requires RowsOk(w)
  {
    && c.order < |w.rows|
    && var r := w.rows[c.order];
    && r.status != Prepared
    && c.ladder == r.ladder && c.rung == r.rung && c.price == r.price && c.quantity == r.quantity
    && w.ladders[r.ladder].state != StateDraft
    && c.venue == Spec(w, c.order).venue && c.symbol == Spec(w, c.order).symbol && c.side == Spec(w, c.order).side
    && c.alone
  }

  ghost predicate CallsOk(w: World)
    requires RowsOk(w)
  {
    && (forall i, j | 0 <= i < j < |w.calls| :: w.calls[i].order != w.calls[j].order)
    && (forall i | 0 <= i < |w.calls| :: CallMatches(w, w.calls[i]))
  }

  /** The calls for one ladder went out nearest the base first, and so no rung twice. */
  ghost predicate CallsSorted(w: World) {
    forall i, j | 0 <= i < j < |w.calls| && w.calls[i].ladder == w.calls[j].ladder :: w.calls[i].rung < w.calls[j].rung
  }

  /** Rungs go out in order: below an attempted rung nothing is still waiting to be sent. */
  ghost predicate InOrder(w: World) {
    forall i, j | 0 <= i < j < |w.rows| && w.rows[i].ladder == w.rows[j].ladder && Attempted(w, j) ::
      w.rows[i].status != Prepared
  }

  ghost predicate OneDoubtPerVenue(w: World)
    requires RowsOk(w)
  {
    forall i, j | 0 <= i < j < |w.rows| && Doubtful(w.rows[i]) && Doubtful(w.rows[j]) ::
      Spec(w, i).venue != Spec(w, j).venue
  }

  /** The same request; only the commission may have been read again. */
  ghost predicate SameRequest(a: Ladder.Spec, b: Ladder.Spec) {
    a == b.(fee := a.fee)
  }

  /** What stays of a request once it has been sent, whatever is typed over it. */
  ghost predicate SameKind(a: Ladder.Spec, b: Ladder.Spec) {
    b == a.(base := b.base, startPct := b.startPct, endPct := b.endPct, total := b.total, fee := b.fee)
  }

  /** The ladder has a plan, and its stored terms are the plan's unless they were typed over since. */
  ghost predicate Planned(w: World, l: nat)
    requires l < |w.ladders|
  {
    && l in w.plans
    && SameKind(w.plans[l].spec, w.ladders[l].spec)
    && (l !in w.retyped ==> SameRequest(w.plans[l].spec, w.ladders[l].spec))
  }

  ghost predicate LadderOk(w: World, l: nat)
    requires l < |w.ladders|
  {
    var state := w.ladders[l].state;
    && (state != StateDraft ==> Planned(w, l))
    && (forall k | 0 <= k < |w.rows| && w.rows[k].ladder == l ::
          && (state.Closed() ==> w.rows[k].status.Terminal())
          && (state == StateDraft ==> w.rows[k].status == Prepared || w.rows[k].status == Canceled)
          && (state == StateCanceled ==> w.rows[k].filled == 0))
    && (state == StateDone ==> exists k | 0 <= k < |w.rows| :: w.rows[k].ladder == l && 0 < w.rows[k].filled)
  }

  ghost predicate LaddersOk(w: World) {
    forall l | 0 <= l < |w.ladders| :: LadderOk(w, l)
  }

  /** What a row asks for, which no later write may change. */
  datatype Line = Line(rung: nat, price: nat, quantity: nat)

  ghost function Lines(rows: seq<Order>, ladder: nat): seq<Line> {
    if rows == [] then []
    else
      var n := |rows| - 1;
      var earlier := Lines(rows[..n], ladder);
      if rows[n].ladder == ladder then earlier + [Line(rows[n].rung, rows[n].price, rows[n].quantity)] else earlier
  }

  ghost function RungLines(rungs: seq<Ladder.Rung>): (lines: seq<Line>)
    ensures |lines| == |rungs|
  {
    seq(|rungs|, i requires 0 <= i < |rungs| => Line(rungs[i].index, rungs[i].price, rungs[i].quantity))
  }

  ghost function PlanLines(plan: Ladder.Plan): (lines: seq<Line>)
    ensures |lines| == |plan.rungs|
  {
    RungLines(plan.rungs)
  }

  /** Rungs numbered from zero, each with something to buy or sell: as much as the tables need to know of a plan. */
  ghost predicate Numbered(plan: Ladder.Plan) {
    && plan.rungs != []
    && forall i | 0 <= i < |plan.rungs| ::
         plan.rungs[i].index == i && 0 < plan.rungs[i].price && 0 < plan.rungs[i].quantity
  }

  ghost predicate PlansOk(w: World) {
    && (forall l | l in w.plans :: l < |w.ladders| && Numbered(w.plans[l]) && Lines(w.rows, l) == PlanLines(w.plans[l]))
    && (forall k | 0 <= k < |w.rows| :: w.rows[k].ladder in w.plans)
  }

  ghost predicate Shows(r: Order, f: Finding) {
    && r.broker == Some(f.broker)
    && r.filled == f.report.filled && r.amount == f.report.amount
    && r.costs == f.report.costs && r.costsFinal == f.report.costsFinal
  }

  ghost predicate About(w: World, f: Finding, key: nat) {
    f in w.findings && f.order == key
  }

  /** Fill, amount and costs were reported together, by the exchange, for the order the row is linked to. */
  ghost predicate FillReported(w: World, key: nat)
    requires key < |w.rows|
  {
    Untouched(w.rows[key]) || exists f :: About(w, f, key) && Shows(w.rows[key], f)
  }

  /** The report gives the order its status: its own, or FILLED when it accounts for the whole quantity. */
  ghost predicate Explains(e: Report, r: Order) {
    e.status == r.status || (r.status == Filled && e.filled == r.quantity)
  }

  /** A resting or filled row shows what the last report said, or it is fresh from its own submission. */
  ghost predicate StatusReported(w: World, key: nat)
    requires key < |w.rows|
  {
    var r := w.rows[key];
    r.status == Pending || r.status == PartialFilled || r.status == Filled ==>
      || (r.status == Pending && Untouched(r))
      || exists f :: About(w, f, key) && Shows(r, f) && Explains(f.report, r)
  }

  /** An order that was ever sent is closed as canceled only on the exchange's word or the operator's. */
  ghost predicate CancelEvidenced(w: World, key: nat)
    requires key < |w.rows|
  {
    w.rows[key].status == Canceled && Called(w, key) ==>
      || (key in w.writtenOff && w.rows[key].broker.None?)
      || exists f :: About(w, f, key) && Shows(w.rows[key], f) && f.report.status == Canceled
  }

  ghost predicate Evidenced(w: World) {
    forall k | 0 <= k < |w.rows| :: FillReported(w, k) && StatusReported(w, k) && CancelEvidenced(w, k)
  }

  ghost predicate Inv(w: World) {
    && RowsOk(w) && RungsSorted(w) && BrokersUnique(w)
    && CallsOk(w) && CallsSorted(w) && InOrder(w) && OneDoubtPerVenue(w)
    && LaddersOk(w) && PlansOk(w) && Evidenced(w)
  }

  // ---------- What no step ever undoes ----------

  /** The exchange answered about an order that cannot be the one we sent. */
  ghost predicate Dishonest(w: World, key: nat)
    requires RowsOk(w) && key < |w.rows|
  {
    exists f :: About(w, f, key) && !HonestReport(f.report, w.rows[key].quantity, Spec(w, key))
  }

  ghost predicate HonestReport(e: Report, quantity: nat, spec: Ladder.Spec) {
    e.symbol == spec.symbol && e.side == spec.side && e.filled <= quantity
  }

  ghost predicate RowEvolves(r: Order, r': Order) {
    && r'.ladder == r.ladder && r'.rung == r.rung && r'.price == r.price && r'.quantity == r.quantity
    && r.filled <= r'.filled && r.notified <= r'.notified
    && (r.broker.Some? ==> r'.broker.Some?)
    && (r.status != Prepared ==> r'.status != Prepared)
    && (r.status.Terminal() ==> r' == r.(notified := r'.notified))
  }

  /** A sent ladder keeps its kind for good, and all its terms as long as nothing is typed over them. */
  ghost predicate LadderEvolves(l: LadderRow, l': LadderRow, retyped: bool) {
    && (l.state.Closed() ==> l'.state == l.state && l'.reason == l.reason)
    && (l.state != StateDraft ==>
          l'.state != StateDraft && SameKind(l.spec, l'.spec) && l'.spec.fee == l.spec.fee && (!retyped ==> l'.spec == l.spec))
  }

  /** The ladder's terms were typed over between two states. */
  ghost predicate RetypedSince(w: World, w': World, l: nat) {
    exists i :: |w.retyped| <= i < |w'.retyped| && w'.retyped[i] == l
  }

  ghost predicate Evolves(w: World, w': World) {
    && RowsOk(w) && RowsOk(w')
    && |w.rows| <= |w'.rows| && |w.ladders| <= |w'.ladders|
    && w.calls <= w'.calls && w.findings <= w'.findings && w.writtenOff <= w'.writtenOff && w.retyped <= w'.retyped
    && w.connected == w'.connected
    && (forall k | 0 <= k < |w.rows| :: RowEvolves(w.rows[k], w'.rows[k]))
    && (forall l | 0 <= l < |w.ladders| :: LadderEvolves(w.ladders[l], w'.ladders[l], RetypedSince(w, w', l)))
    && (forall l | l in w.plans :: l in w'.plans && w'.plans[l] == w.plans[l])
    && (forall k | |w.rows| <= k < |w'.rows| :: w'.rows[k].ladder !in w.plans)
    && (forall k | 0 <= k < |w.rows| && w.rows[k].status == PendingCancel ::
          w'.rows[k].status == PendingCancel || w'.rows[k].status.Terminal() || Dishonest(w', k))
  }
}
