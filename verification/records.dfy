/** The stored rows and the vocabulary shared with the exchanges (internal/store/rows.go, internal/broker/order.go). */
module Records {
  import opened Wrappers
  import opened Market
  import Ladder

  datatype Status =
    | Prepared | Sending | Unknown | Pending | PartialFilled | PendingCancel | Filled | Canceled | Rejected
  {
    /** May still change at the exchange. */
    predicate Active() {
      match this
      case Prepared => true
      case Sending => true
      case Unknown => true
      case Pending => true
      case PartialFilled => true
      case PendingCancel => true
      case Filled => false
      case Canceled => false
      case Rejected => false
    }

    predicate Terminal() {
      !Active()
    }

    /** Whether the order exists at the exchange is in doubt. */
    predicate Unresolved() {
      this == Sending || this == Unknown
    }
  }

  datatype State = StateDraft | StatePlacing | StateOpen | StateDone | StateCanceled | StateFailed {
    /** Still needs reconciling. */
    predicate Live() {
      this == StatePlacing || this == StateOpen || this == StateFailed
    }

    predicate Closed() {
      this == StateDone || this == StateCanceled
    }
  }

  /** One stored ladder: the calculation input without the fee, and where it is in its life. */
  datatype LadderRow = LadderRow(spec: Ladder.Spec, state: State, reason: string)

  /** One limit order of a ladder. The broker id is the exchange's own, absent until a submission is confirmed. */
  datatype Order = Order(
    ladder: nat, rung: nat, price: nat, quantity: nat,
    status: Status, broker: Option<nat>,
    filled: int, amount: int, costs: int, costsFinal: bool, notified: int,
    reason: string)

  /** An exchange's account of one order. */
  datatype Evidence = Evidence(
    broker: nat, client: Option<nat>, symbol: string, side: Side, quantity: int, price: int,
    status: Status, filled: int, amount: int, costs: int, costsFinal: bool)

  /** What both adapters guarantee about an answer before anyone acts on it. */
  predicate Normalized(e: Evidence) {
    && 0 < e.quantity && 0 <= e.filled <= e.quantity
    && 0 <= e.amount && 0 <= e.costs
    && e.status != Prepared && !e.status.Unresolved()
  }

  type Report = e: Evidence | Normalized(e)
    witness Evidence(0, None, "", Buy, 1, 1, Pending, 0, 0, 0, false)

  /** A reason is kept short enough for its column. */
  function Trim(reason: string): (short: string)
    ensures short <= reason && |short| == if |reason| <= 200 then |reason| else 200
  {
    if |reason| <= 200 then reason else reason[..200]
  }
}
