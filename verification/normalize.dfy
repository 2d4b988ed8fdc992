/** How each adapter turns an exchange's answer into evidence (internal/upbit/normalize.go, internal/toss/normalize.go). */
module Normalize {
  import opened Wrappers
  import opened Market
  import opened Records

  datatype Refusal = InvalidEvidence | UnknownState | IncompleteTerminal | MissingAmount

  // ---------- Upbit ----------

  datatype Trade = Trade(volume: int, funds: int)

  datatype UpbitOrder = UpbitOrder(
    uuid: nat, identifier: Option<nat>, market: string, side: string, state: string,
    price: int, volume: int, executed: int, paidFee: int, trades: seq<Trade>)

  function Volume(trades: seq<Trade>): int {
    if trades == [] then 0 else Volume(trades[..|trades| - 1]) + trades[|trades| - 1].volume
  }

  function Funds(trades: seq<Trade>): int {
    if trades == [] then 0 else Funds(trades[..|trades| - 1]) + trades[|trades| - 1].funds
  }

  /** The answer holds together: nothing negative, no overfill, and the trades add up to the executed volume. */
  ghost predicate Coherent(r: UpbitOrder) {
    && 0 < r.volume && 0 <= r.executed <= r.volume && 0 <= r.paidFee && 0 <= Funds(r.trades)
    && Volume(r.trades) == r.executed
    && (0 < r.executed ==> 0 < Funds(r.trades))
  }

  /**
    Accepts an answer exactly when it is coherent, in a known state, and not a completed order with volume left.
    The amount is what the trades were worth, never the limit price times the quantity.
  */
  method NormalizeUpbit(r: UpbitOrder) returns (out: Result<Report, Refusal>)
    ensures out.Ok? <==>
      && Coherent(r) && r.state in {"wait", "watch", "done", "cancel", "prevented"}
      && (r.state == "done" ==> r.executed == r.volume)
    ensures out.Ok? ==>
      && (out.value.status == Filled <==> r.state == "done")
      && (out.value.status == Canceled <==> r.state == "cancel" || r.state == "prevented")
      && (out.value.status == PartialFilled <==> r.state == "wait" && 0 < r.executed)
      && (out.value.status == Pending <==> r.state == "watch" || (r.state == "wait" && r.executed == 0))
      && (out.value.status == Filled ==> out.value.filled == out.value.quantity)
      && out.value.filled == Volume(r.trades) && out.value.amount == Funds(r.trades)
      && (0 < out.value.filled ==> 0 < out.value.amount)
      && (out.value.costsFinal <==> out.value.status.Terminal())
      && out.value.broker == r.uuid && out.value.client == r.identifier && out.value.symbol == r.market
      && (out.value.side == Sell <==> r.side == "ask")
      && out.value.quantity == r.volume && out.value.price == r.price && out.value.costs == r.paidFee
    ensures out.Err? ==>
      && (out.error == InvalidEvidence <==> !Coherent(r))
      && (out.error == UnknownState ==> r.state !in {"wait", "watch", "done", "cancel", "prevented"})
      && (out.error == IncompleteTerminal ==> r.state == "done" && r.executed < r.volume)
      && out.error != MissingAmount
  {
    var tradeQuantity, amount := 0, 0;
    for i := 0 to |r.trades|
      invariant tradeQuantity == Volume(r.trades[..i]) && amount == Funds(r.trades[..i])
    {
      assert r.trades[..i + 1][..i] == r.trades[..i];
      tradeQuantity := tradeQuantity + r.trades[i].volume;
      amount := amount + r.trades[i].funds;
    }
    assert r.trades[..|r.trades|] == r.trades;
    var negative := r.volume < 0 || r.executed < 0 || r.paidFee < 0 || amount < 0;
    if negative || r.volume <= 0 || r.executed > r.volume || tradeQuantity != r.executed || (0 < r.executed && amount <= 0) {
      return Err(InvalidEvidence);
    }
    var status: Status;
    if r.state == "wait" {
      status := if 0 < r.executed then PartialFilled else Pending;
    } else if r.state == "watch" {
      status := Pending;
    } else if r.state == "done" {
      status := Filled;
    } else if r.state == "cancel" || r.state == "prevented" {
      status := Canceled;
    } else {
      return Err(UnknownState);
    }
    if status == Filled && r.executed != r.volume {
      return Err(IncompleteTerminal);
    }
    var side := if r.side == "ask" then Sell else Buy;
    out := Ok(Evidence(r.uuid, r.identifier, r.market, side, r.volume, r.price, status, r.executed, amount, r.paidFee, status.Terminal()));
  }

  // ---------- Toss ----------

  datatype TossOrder = TossOrder(
    orderId: nat, clientOrderId: Option<nat>, symbol: string, side: Side, status: string,
    quantity: int, price: int, filled: int,
    filledAmount: Option<int>, commission: Option<int>, tax: Option<int>)

  function TossStatus(status: string): Option<Status> {
    if status == "PENDING" then Some(Pending)
    else if status == "PENDING_CANCEL" then Some(PendingCancel)
    else if status == "PARTIAL_FILLED" then Some(PartialFilled)
    else if status == "FILLED" then Some(Filled)
    else if status == "CANCELED" then Some(Canceled)
    else if status == "REJECTED" then Some(Rejected)
    else None
  }

  function OrZero(amount: Option<int>): int {
    match amount
    case None => 0
    case Some(value) => value
  }

  /** Commission and tax together, each counted as zero while it is not confirmed. */
  function TossCosts(r: TossOrder): int {
    OrZero(r.commission) + OrZero(r.tax)
  }

  /** The answer holds together: no overfill, an amount for any fill, and no negative money. */
  ghost predicate TossCoherent(r: TossOrder) {
    && 0 < r.quantity && 0 <= r.filled <= r.quantity
    && (0 < r.filled ==> r.filledAmount.Some?)
    && 0 <= OrZero(r.filledAmount) && 0 <= TossCosts(r)
  }

  /**
    Accepts an answer exactly when its status is known and it is coherent. Costs are final only once both commission
    and tax are confirmed. A FILLED answer need not be full here, unlike on Upbit.
  */
  function NormalizeToss(r: TossOrder): (out: Result<Report, Refusal>)
    ensures out.Ok? <==>
      && r.status in {"PENDING", "PENDING_CANCEL", "PARTIAL_FILLED", "FILLED", "CANCELED", "REJECTED"}
      && TossCoherent(r)
    ensures out.Ok? ==>
      && (out.value.status == Pending <==> r.status == "PENDING")
      && (out.value.status == PendingCancel <==> r.status == "PENDING_CANCEL")
      && (out.value.status == PartialFilled <==> r.status == "PARTIAL_FILLED")
      && (out.value.status == Filled <==> r.status == "FILLED")
      && (out.value.status == Canceled <==> r.status == "CANCELED")
      && (out.value.status == Rejected <==> r.status == "REJECTED")
      && out.value.filled == r.filled && out.value.amount == OrZero(r.filledAmount)
      && (0 < out.value.filled ==> r.filledAmount == Some(out.value.amount))
      && out.value.costs == TossCosts(r) && (out.value.costsFinal <==> r.commission.Some? && r.tax.Some?)
      && out.value.broker == r.orderId && out.value.client == r.clientOrderId && out.value.symbol == r.symbol
      && out.value.side == r.side && out.value.quantity == r.quantity && out.value.price == r.price
    ensures out.Err? ==>
      && (out.error == UnknownState <==>
            r.status !in {"PENDING", "PENDING_CANCEL", "PARTIAL_FILLED", "FILLED", "CANCELED", "REJECTED"})
      && (out.error == MissingAmount <==>
            out.error != UnknownState && 0 < r.filled <= r.quantity && r.filledAmount.None?)
      && (out.error == InvalidEvidence || out.error == UnknownState || out.error == MissingAmount)
  {
    match TossStatus(r.status)
    case None => Err(UnknownState)
    case Some(status) =>
      if r.filled < 0 || r.quantity <= 0 || r.filled > r.quantity then Err(InvalidEvidence)
      else if r.filledAmount.None? && 0 < r.filled then Err(MissingAmount)
      else if OrZero(r.filledAmount) < 0 then Err(InvalidEvidence)
      else
        var costs := OrZero(r.commission) + OrZero(r.tax);
        if costs < 0 then Err(InvalidEvidence)
        else Ok(Evidence(r.orderId, r.clientOrderId, r.symbol, r.side, r.quantity, r.price, status,
                         r.filled, OrZero(r.filledAmount), costs, r.commission.Some? && r.tax.Some?))
  }
}
