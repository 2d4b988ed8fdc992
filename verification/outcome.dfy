/** What a finished ladder actually achieved (internal/orders/outcome.go). */
module Outcomes {
  import opened Arithmetic
  import opened Records

  datatype Outcome = Outcome(
    ordered: int, filled: int, amount: int, costs: int, costsFinal: bool, rungs: nat, filledRungs: nat)

  function Summarize(rows: seq<Order>): (out: Outcome)
    ensures out.rungs == |rows|
  {
    if rows == [] then Outcome(0, 0, 0, 0, true, 0, 0)
    else
      var o, r := Summarize(rows[..|rows| - 1]), rows[|rows| - 1];
      Outcome(
        o.ordered + r.quantity, o.filled + r.filled, o.amount + r.amount, o.costs + r.costs,
        o.costsFinal && (0 < r.filled ==> r.costsFinal), |rows|, o.filledRungs + if 0 < r.filled then 1 else 0)
  }

  predicate Complete(o: Outcome) {
    0 < o.filled && o.filled == o.ordered
  }

  /** The share of the ladder that traded, in 10^-8, rounded half away from zero. */
  function FilledRatio(o: Outcome): int {
    if o.ordered <= 0 then 0 else (2 * o.filled * 100_000_000 + o.ordered) / (2 * o.ordered)
  }

  method SummarizeRows(rows: seq<Order>) returns (out: Outcome)
    ensures out == Summarize(rows)
  {
    out := Outcome(0, 0, 0, 0, true, |rows|, 0);
    for i := 0 to |rows|
      invariant out == Summarize(rows[..i]).(rungs := |rows|)
    {
      assert rows[..i + 1][..i] == rows[..i];
      out := out.(ordered := out.ordered + rows[i].quantity, filled := out.filled + rows[i].filled,
                  amount := out.amount + rows[i].amount, costs := out.costs + rows[i].costs);
      if 0 < rows[i].filled {
        out := out.(filledRungs := out.filledRungs + 1);
        if !rows[i].costsFinal {
          out := out.(costsFinal := false);
        }
      }
    }
    assert rows[..|rows|] == rows;
  }

  ghost predicate WithinQuantity(rows: seq<Order>) {
    forall i | 0 <= i < |rows| :: 0 <= rows[i].filled <= rows[i].quantity
  }

  lemma {:induction false} FilledIffSomeFill(rows: seq<Order>)
    requires forall i | 0 <= i < |rows| :: 0 <= rows[i].filled
    ensures 0 <= Summarize(rows).filled
    ensures 0 < Summarize(rows).filled <==> exists i :: 0 <= i < |rows| && 0 < rows[i].filled
  {
    if rows != [] {
      var n := |rows| - 1;
      FilledIffSomeFill(rows[..n]);
      if 0 < Summarize(rows[..n]).filled {
        var i :| 0 <= i < n && 0 < rows[..n][i].filled;
        assert rows[i] == rows[..n][i];
      }
      if i :| 0 <= i < |rows| && 0 < rows[i].filled {
        assert i < n ==> rows[..n][i] == rows[i];
      }
    }
  }

  lemma {:induction false} FillGap(rows: seq<Order>)
    requires WithinQuantity(rows)
    ensures Summarize(rows).filled <= Summarize(rows).ordered
    ensures Summarize(rows).filled == Summarize(rows).ordered <==>
      forall i | 0 <= i < |rows| :: rows[i].filled == rows[i].quantity
  {
    if rows != [] {
      var n := |rows| - 1;
      FillGap(rows[..n]);
      if forall i | 0 <= i < n :: rows[..n][i].filled == rows[..n][i].quantity {
        assert forall i | 0 <= i < n :: rows[i] == rows[..n][i];
      } else {
        var i :| 0 <= i < n && rows[..n][i].filled != rows[..n][i].quantity;
        assert rows[i] == rows[..n][i];
      }
    }
  }

  /** Complete means that something traded and that every rung traded in full. */
  lemma CompleteIffEveryRungIsFull(rows: seq<Order>)
    requires WithinQuantity(rows)
    ensures Complete(Summarize(rows)) <==>
      (exists i :: 0 <= i < |rows| && 0 < rows[i].filled) && forall i | 0 <= i < |rows| :: rows[i].filled == rows[i].quantity
  {
    FillGap(rows);
    FilledIffSomeFill(rows);
  }

  /** The ratio shown never exceeds one, and is one for a complete ladder. */
  lemma RatioIsAShare(rows: seq<Order>)
    requires WithinQuantity(rows)
    ensures 0 <= FilledRatio(Summarize(rows)) <= 100_000_000
    ensures Complete(Summarize(rows)) ==> FilledRatio(Summarize(rows)) == 100_000_000
  {
    FillGap(rows);
    FilledIffSomeFill(rows);
    var o := Summarize(rows);
    if 0 < o.ordered {
      var top := 2 * o.filled * 100_000_000 + o.ordered;
      QuotientIsGreatest(top, 2 * o.ordered, 100_000_001);
      QuotientIsGreatest(top, 2 * o.ordered, 100_000_000);
      QuotientBounds(top, 2 * o.ordered);
    }
  }

  // ---------- What the figures add up ----------

  ghost function Sum(rows: seq<Order>, field: Order -> int): int {
    if rows == [] then 0 else Sum(rows[..|rows| - 1], field) + field(rows[|rows| - 1])
  }

  ghost function WithFill(rows: seq<Order>): set<nat> {
    set i: nat | i < |rows| && 0 < rows[i].filled
  }

  /** Every figure is the sum of that figure over the rungs, and costs are final once those of every rung that traded are. */
  lemma {:induction false} SummaryAddsUp(rows: seq<Order>)
    ensures var o := Summarize(rows);
      && o.ordered == Sum(rows, (r: Order) => r.quantity) && o.filled == Sum(rows, (r: Order) => r.filled)
      && o.amount == Sum(rows, (r: Order) => r.amount) && o.costs == Sum(rows, (r: Order) => r.costs)
      && (o.costsFinal <==> forall i | 0 <= i < |rows| && 0 < rows[i].filled :: rows[i].costsFinal)
      && o.rungs == |rows| && o.filledRungs == |WithFill(rows)|
  {
    if rows != [] {
      var n := |rows| - 1;
      SummaryAddsUp(rows[..n]);
      assert forall i | 0 <= i < n :: rows[..n][i] == rows[i];
      assert WithFill(rows) == WithFill(rows[..n]) + if 0 < rows[n].filled then {n} else {};
    }
  }

  /** The ratio shown is the one nearest to the exact ratio, and the upper of two equally near; nothing ordered shows as zero. */
  lemma RatioIsNearest(o: Outcome)
    ensures o.ordered <= 0 ==> FilledRatio(o) == 0
    ensures 0 < o.ordered ==>
      (2 * FilledRatio(o) - 1) * o.ordered <= 2 * o.filled * 100_000_000 < (2 * FilledRatio(o) + 1) * o.ordered
  {
    if 0 < o.ordered {
      QuotientBounds(2 * o.filled * 100_000_000 + o.ordered, 2 * o.ordered);
    }
  }
}
