/**
 * The retention deduction shown on customer invoices
 * (petro_retention/models/account_move.py): a percent of the invoice's
 * untaxed lines, taken from the first linked sale order that withholds one.
 */
module PetroRetention {
  import opened Common
  import opened Precision
  import opened Retention

  /** A move as the computation reads it; `rounding` is its currency's rounding. */
  datatype Move = Move(moveType: MoveType, lines: seq<MoveLine>, rounding: real)

  /** `sale_orders.filtered(lambda so: so.retention_percent)[0]`, when there is one. */
  function FirstRetentionOrder(orders: seq<SaleOrder>): (r: Option<SaleOrder>)
    ensures r.None? <==> forall k :: 0 <= k < |orders| ==> orders[k].retentionPercent == 0.0
    ensures r.Some? ==> exists i :: 0 <= i < |orders| && orders[i] == r.value && r.value.retentionPercent != 0.0
                                     && forall k :: 0 <= k < i ==> orders[k].retentionPercent == 0.0
  {
    if orders == [] then None
    else if orders[0].retentionPercent != 0.0 then Some(orders[0])
    else
      var r := FirstRetentionOrder(orders[1..]);
      assert forall k :: 1 <= k < |orders| ==> orders[k] == orders[1..][k - 1];
      r
  }

  predicate InDeductBase(l: MoveLine) {
    !l.displayType && !l.isDownpayment
  }

  /** The subtotals of the lines that are neither sections, notes nor down payments; retention lines count. */
  function DeductBase(lines: seq<MoveLine>): real {
    if lines == [] then 0.0
    else
      var n := |lines| - 1;
      DeductBase(lines[..n]) + (if InDeductBase(lines[n]) then lines[n].priceSubtotal else 0.0)
  }

  lemma DeductBaseAppend(lines: seq<MoveLine>, l: MoveLine)
    ensures DeductBase(lines + [l]) == DeductBase(lines) + (if InDeductBase(l) then l.priceSubtotal else 0.0)
  {
    assert (lines + [l])[..|lines|] == lines;
  }

  /**
   * A retention line (not a down payment, not a section) counts in this
   * base but not in the base the retention line itself is computed from.
   */
  lemma BasesDifferOnRetentionLines(lines: seq<MoveLine>, l: MoveLine)
    requires l.isRetention && !l.displayType && !l.isDownpayment
    ensures DeductBase(lines + [l]) == DeductBase(lines) + l.priceSubtotal
    ensures RetentionBase(lines + [l]) == RetentionBase(lines)
  {
    DeductBaseAppend(lines, l);
    RetentionBaseAppend(lines, l);
  }

  /** `base * (percent / 100.0)`. */
  function PercentOf(base: real, percent: real): real {
    base * (percent / 100.0)
  }

  /** The deduction of one move. */
  function DeductAmount(m: Move): real
    requires m.rounding > 0.0
  {
    if m.moveType != OutInvoice then 0.0
    else
      var so := FirstRetentionOrder(LinkedOrders(m.lines));
      if so.None? then 0.0
      else RoundToUnit(PercentOf(DeductBase(m.lines), so.value.retentionPercent), m.rounding)
  }

  lemma RoundNonNegative(x: real, unit: real)
    requires unit > 0.0 && x >= 0.0
    ensures RoundToUnit(x, unit) >= 0.0
  {
    var q := x / unit;
    assert q >= 0.0;
    assert RoundHalfUp(q) >= 0;
  }

  /**
   * No deduction off customer invoices or without a retention percent; else
   * the first such order's percent of the base, so never negative for a
   * non-negative base and percent.
   */
  lemma DeductAmountCases(m: Move)
    requires m.rounding > 0.0
    ensures m.moveType != OutInvoice ==> DeductAmount(m) == 0.0
    ensures (forall i :: 0 <= i < |LinkedOrders(m.lines)| ==> LinkedOrders(m.lines)[i].retentionPercent == 0.0)
            ==> DeductAmount(m) == 0.0
    ensures m.moveType == OutInvoice && FirstRetentionOrder(LinkedOrders(m.lines)).Some? ==>
      var pct := FirstRetentionOrder(LinkedOrders(m.lines)).value.retentionPercent;
      && DeductAmount(m) == RoundToUnit(PercentOf(DeductBase(m.lines), pct), m.rounding)
      && (DeductBase(m.lines) >= 0.0 && pct >= 0.0 ==> DeductAmount(m) >= 0.0)
  {
    if m.moveType == OutInvoice && FirstRetentionOrder(LinkedOrders(m.lines)).Some? {
      var pct := FirstRetentionOrder(LinkedOrders(m.lines)).value.retentionPercent;
      var b := DeductBase(m.lines);
      if b >= 0.0 && pct >= 0.0 {
        assert PercentOf(b, pct) >= 0.0 by {
          assert pct / 100.0 >= 0.0;
        }
        RoundNonNegative(PercentOf(b, pct), m.rounding);
      }
    }
  }

  /** `_compute_retention_deduct_amount`: stores each move's deduction in `amounts`. */
  method ComputeRetentionDeductAmount(moves: seq<Move>, amounts: array<real>)
    requires amounts.Length == |moves|
    requires forall i :: 0 <= i < |moves| ==> moves[i].rounding > 0.0
    modifies amounts
    ensures forall i :: 0 <= i < |moves| ==> amounts[i] == DeductAmount(moves[i])
  {
    var i := 0;
    while i < |moves|
      invariant 0 <= i <= |moves|
      invariant forall k :: 0 <= k < i ==> amounts[k] == DeductAmount(moves[k])
    {
      var move := moves[i];
      if move.moveType != OutInvoice {
        amounts[i] := 0.0;
        i := i + 1;
        continue;
      }
      var saleOrders := FirstRetentionOrder(LinkedOrders(move.lines));
      if saleOrders.None? {
        amounts[i] := 0.0;
        i := i + 1;
        continue;
      }
      var so := saleOrders.value;
      var base := DeductBase(move.lines);
      amounts[i] := RoundToUnit(PercentOf(base, so.retentionPercent), move.rounding);
      i := i + 1;
    }
  }
}
