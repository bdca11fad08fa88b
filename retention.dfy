/**
 * Retention on customer invoices (pr_retention/models/account_move.py):
 * the invoice's sale order, the retention amount and base, the account of
 * the retention line, and the single retention line added to an invoice of
 * an order that withholds a retention percent.
 */
module Retention {
  import opened Common
  import opened Text
  import opened Precision

  datatype MoveType = OutInvoice | OutRefund | InInvoice | InRefund | Entry

  /** A sale order line of an order; `invoiceAccount` is what `_get_invoice_line_account_id` yields for it. */
  datatype OrderLine = OrderLine(displayType: bool, isDownpayment: bool, invoiceAccount: Option<int>)

  datatype SaleOrder = SaleOrder(id: int, name: string, retentionPercent: real, orderLines: seq<OrderLine>)

  /** A sale order line an invoice line comes from, with the order it belongs to. */
  datatype SaleLineRef = SaleLineRef(isDownpayment: bool, order: SaleOrder)

  /** An invoice line; `priceSubtotal` is quantity times unit price for the tax-free lines written here. */
  datatype MoveLine = MoveLine(displayType: bool, isRetention: bool, isDownpayment: bool,
                               quantity: real, priceUnit: real, priceSubtotal: real,
                               accountId: Option<int>, taxIds: seq<int>, saleLines: seq<SaleLineRef>)

  function Abs(x: real): real {
    if x < 0.0 then -x else x
  }

  // ---------------------------------------------------------------------
  // The invoice's sale order
  // ---------------------------------------------------------------------

  /** `invoice_line_ids.sale_line_ids.order_id`, with repeats: the orders of the lines' sale lines in order. */
  function LinkedOrders(lines: seq<MoveLine>): seq<SaleOrder> {
    if lines == [] then [] else OrderRefs(lines[0].saleLines) + LinkedOrders(lines[1..])
  }

  function OrderRefs(refs: seq<SaleLineRef>): (r: seq<SaleOrder>)
    ensures |r| == |refs| && forall i :: 0 <= i < |refs| ==> r[i] == refs[i].order
  {
    if refs == [] then [] else [refs[0].order] + OrderRefs(refs[1..])
  }

  /** `sale_orders[:1]`: the first linked order is the first sale line's order on the first line that has one. */
  lemma {:induction false} FirstLinkedOrder(lines: seq<MoveLine>, i: nat)
    requires i < |lines| && lines[i].saleLines != []
    requires forall k :: 0 <= k < i ==> lines[k].saleLines == []
    ensures LinkedOrders(lines) != [] && LinkedOrders(lines)[0] == lines[i].saleLines[0].order
  {
    if i > 0 {
      FirstLinkedOrder(lines[1..], i - 1);
    }
  }

  /** Lines without sale lines add no linked order. */
  lemma {:induction false} LinkedOrdersAppendUnlinked(lines: seq<MoveLine>, l: MoveLine)
    requires l.saleLines == []
    ensures LinkedOrders(lines + [l]) == LinkedOrders(lines)
  {
    if lines == [] {
      assert LinkedOrders([l]) == OrderRefs(l.saleLines) + LinkedOrders([]);
    } else {
      assert (lines + [l])[1..] == lines[1..] + [l];
      LinkedOrdersAppendUnlinked(lines[1..], l);
    }
  }

  /** The order name an origin such as "S00012, S00013" stands for: its first comma-separated element, stripped. */
  function OriginKey(origin: string): (r: string)
    ensures ',' !in r && Stripped(r)
  {
    var first := Split(origin, ',')[0];
    StripIsStripped(first);
    StripKeepsOut(first, ',');
    Strip(first)
  }

  /** Only the part before the first comma names the order. */
  lemma OriginKeyFirst(key: string, rest: string)
    requires ',' !in key
    ensures OriginKey(key + [','] + rest) == Strip(key)
    ensures OriginKey(key) == Strip(key)
  {
    SplitAtSep(key, rest, ',');
    SplitNoSep(key, ',');
  }

  /** `search([("name", "=", name)], limit=1)` over the orders in search order. */
  function SearchByName(orders: seq<SaleOrder>, name: string): (r: Option<SaleOrder>)
    ensures r.None? <==> forall k :: 0 <= k < |orders| ==> orders[k].name != name
    ensures r.Some? ==> exists i :: 0 <= i < |orders| && orders[i] == r.value && r.value.name == name
                                     && forall k :: 0 <= k < i ==> orders[k].name != name
  {
    if orders == [] then None
    else if orders[0].name == name then Some(orders[0])
    else
      var r := SearchByName(orders[1..], name);
      assert forall k :: 1 <= k < |orders| ==> orders[k] == orders[1..][k - 1];
      r
  }

  /** A text field is set when it holds a non-empty string. */
  predicate Truthy(s: Option<string>) {
    s.Some? && s.value != ""
  }

  /** `_compute_sale_order_id` for one move: the first linked order, else the order the origin names, else none. */
  function ComputedSaleOrder(lines: seq<MoveLine>, origin: Option<string>, orders: seq<SaleOrder>): Option<SaleOrder> {
    var linked := LinkedOrders(lines);
    if linked != [] then Some(linked[0])
    else if Truthy(origin) then SearchByName(orders, OriginKey(origin.value))
    else None
  }

  /** The sale order stays the same when a line without sale lines, such as the retention line, is added. */
  lemma ComputedSaleOrderAppendUnlinked(lines: seq<MoveLine>, origin: Option<string>, orders: seq<SaleOrder>, l: MoveLine)
    requires l.saleLines == []
    ensures ComputedSaleOrder(lines + [l], origin, orders) == ComputedSaleOrder(lines, origin, orders)
  {
    LinkedOrdersAppendUnlinked(lines, l);
  }

  /** A linked order wins over the origin; without one, the origin's first element is looked up by name. */
  lemma ComputedSaleOrderCases(lines: seq<MoveLine>, origin: Option<string>, orders: seq<SaleOrder>)
    ensures LinkedOrders(lines) != [] ==> ComputedSaleOrder(lines, origin, orders) == Some(LinkedOrders(lines)[0])
    ensures LinkedOrders(lines) == [] && !Truthy(origin) ==> ComputedSaleOrder(lines, origin, orders).None?
    ensures LinkedOrders(lines) == [] && Truthy(origin) ==>
      var r := ComputedSaleOrder(lines, origin, orders);
      (r.None? <==> forall k :: 0 <= k < |orders| ==> orders[k].name != OriginKey(origin.value))
      && (r.Some? ==> r.value in orders && r.value.name == OriginKey(origin.value))
  {
  }

  /** `_get_retention_sale_order`: the first linked order, else the stored order, else the origin's order. */
  function RetentionSaleOrder(lines: seq<MoveLine>, stored: Option<SaleOrder>, origin: Option<string>,
                              orders: seq<SaleOrder>): Option<SaleOrder>
  {
    var linked := LinkedOrders(lines);
    if linked != [] then Some(linked[0])
    else if stored.Some? then stored
    else if Truthy(origin) then SearchByName(orders, OriginKey(origin.value))
    else None
  }

  /** Once the stored order has been computed, the retention order is the stored one. */
  lemma RetentionSaleOrderOfComputed(lines: seq<MoveLine>, origin: Option<string>, orders: seq<SaleOrder>)
    ensures RetentionSaleOrder(lines, ComputedSaleOrder(lines, origin, orders), origin, orders)
            == ComputedSaleOrder(lines, origin, orders)
  {
  }

  // ---------------------------------------------------------------------
  // Amounts
  // ---------------------------------------------------------------------

  /** `_compute_retention_amount`: the sum of the absolute subtotals of the retention lines. */
  function RetentionAmount(lines: seq<MoveLine>): (r: real)
    ensures r >= 0.0
  {
    if lines == [] then 0.0
    else
      var n := |lines| - 1;
      RetentionAmount(lines[..n]) + (if lines[n].isRetention then Abs(lines[n].priceSubtotal) else 0.0)
  }

  predicate HasRetentionLine(lines: seq<MoveLine>) {
    exists i :: 0 <= i < |lines| && lines[i].isRetention
  }

  /** The number of retention lines. */
  function RetentionCount(lines: seq<MoveLine>): nat {
    if lines == [] then 0
    else
      var n := |lines| - 1;
      RetentionCount(lines[..n]) + (if lines[n].isRetention then 1 else 0)
  }

  /** Without retention lines there is no retention amount and the count is zero. */
  lemma {:induction false} NoRetentionLines(lines: seq<MoveLine>)
    requires !HasRetentionLine(lines)
    ensures RetentionAmount(lines) == 0.0 && RetentionCount(lines) == 0
  {
    if lines != [] {
      var n := |lines| - 1;
      assert forall k :: 0 <= k < n ==> lines[..n][k] == lines[k];
      NoRetentionLines(lines[..n]);
    }
  }

  /** `_is_downpayment_line`: the line has sale lines and every one of them is a down payment. */
  predicate IsDownpaymentLine(l: MoveLine) {
    |l.saleLines| > 0 && forall j :: 0 <= j < |l.saleLines| ==> l.saleLines[j].isDownpayment
  }

  predicate InRetentionBase(l: MoveLine) {
    !l.displayType && !l.isRetention && !IsDownpaymentLine(l)
  }

  /** `_get_retention_base_amount`: the subtotals of the lines that are not sections or notes, retention or down payment. */
  function RetentionBase(lines: seq<MoveLine>): real {
    if lines == [] then 0.0
    else
      var n := |lines| - 1;
      RetentionBase(lines[..n]) + (if InRetentionBase(lines[n]) then lines[n].priceSubtotal else 0.0)
  }

  /** A line outside the base leaves the base unchanged; a line inside adds its subtotal. */
  lemma RetentionBaseAppend(lines: seq<MoveLine>, l: MoveLine)
    ensures RetentionBase(lines + [l]) == RetentionBase(lines) + (if InRetentionBase(l) then l.priceSubtotal else 0.0)
  {
    assert (lines + [l])[..|lines|] == lines;
  }

  /** When every line is in the base and the subtotals are non-negative, so is the base. */
  lemma {:induction false} RetentionBaseNonNegative(lines: seq<MoveLine>)
    requires forall i :: 0 <= i < |lines| ==> lines[i].priceSubtotal >= 0.0
    ensures RetentionBase(lines) >= 0.0
  {
    if lines != [] {
      var n := |lines| - 1;
      assert forall k :: 0 <= k < n ==> lines[..n][k] == lines[k];
      RetentionBaseNonNegative(lines[..n]);
    }
  }

  // ---------------------------------------------------------------------
  // The retention account
  // ---------------------------------------------------------------------

  predicate AccountCandidate(l: MoveLine) {
    !l.displayType && !l.isRetention && l.accountId.Some?
  }

  /** The account of the first invoice line that is not a section, note or retention line and has one. */
  function CandidateAccount(lines: seq<MoveLine>): (r: Option<int>)
    ensures r.None? <==> forall i :: 0 <= i < |lines| ==> !AccountCandidate(lines[i])
    ensures r.Some? ==> exists i :: 0 <= i < |lines| && AccountCandidate(lines[i]) && lines[i].accountId == r
                                     && forall k :: 0 <= k < i ==> !AccountCandidate(lines[k])
  {
    if lines == [] then None
    else if AccountCandidate(lines[0]) then lines[0].accountId
    else
      var r := CandidateAccount(lines[1..]);
      assert forall k :: 1 <= k < |lines| ==> lines[k] == lines[1..][k - 1];
      r
  }

  predicate BillableOrderLine(l: OrderLine) {
    !l.displayType && !l.isDownpayment
  }

  /** The invoice account of the first order line that is neither a section, a note nor a down payment. */
  function OrderLineAccount(ls: seq<OrderLine>): (r: Option<int>)
    ensures (forall i :: 0 <= i < |ls| ==> !BillableOrderLine(ls[i])) ==> r.None?
    ensures r.Some? ==> exists i :: 0 <= i < |ls| && BillableOrderLine(ls[i]) && ls[i].invoiceAccount == r
                                     && forall k :: 0 <= k < i ==> !BillableOrderLine(ls[k])
    ensures forall i :: 0 <= i < |ls| && BillableOrderLine(ls[i]) && (forall k :: 0 <= k < i ==> !BillableOrderLine(ls[k]))
                        ==> r == ls[i].invoiceAccount
  {
    if ls == [] then None
    else if BillableOrderLine(ls[0]) then ls[0].invoiceAccount
    else
      var r := OrderLineAccount(ls[1..]);
      assert forall k :: 1 <= k < |ls| ==> ls[k] == ls[1..][k - 1];
      r
  }

  /** `_get_retention_account_id`: the company's retention account, else an invoice line's, else an order line's. */
  function RetentionAccount(companyAccount: Option<int>, lines: seq<MoveLine>, order: Option<SaleOrder>): (r: Option<int>)
    ensures companyAccount.Some? ==> r == companyAccount
    ensures companyAccount.None? && CandidateAccount(lines).Some? ==> r == CandidateAccount(lines)
    ensures companyAccount.None? && CandidateAccount(lines).None? ==>
      r == (if order.Some? then OrderLineAccount(order.value.orderLines) else None)
  {
    if companyAccount.Some? then companyAccount
    else if CandidateAccount(lines).Some? then CandidateAccount(lines)
    else if order.Some? then OrderLineAccount(order.value.orderLines)
    else None
  }

  /** Adding a retention line does not change the account chosen for it. */
  lemma {:induction false} CandidateAccountIgnoresRetention(lines: seq<MoveLine>, l: MoveLine)
    requires l.isRetention
    ensures CandidateAccount(lines + [l]) == CandidateAccount(lines)
  {
    if lines == [] {
      assert CandidateAccount([l]) == CandidateAccount([l][1..]);
    } else {
      assert (lines + [l])[1..] == lines[1..] + [l];
      CandidateAccountIgnoresRetention(lines[1..], l);
    }
  }

  // ---------------------------------------------------------------------
  // The retention line
  // ---------------------------------------------------------------------

  /** `currency.round(base * pct / 100)`. */
  function RetentionValue(lines: seq<MoveLine>, order: SaleOrder, rounding: real): real
    requires rounding > 0.0
  {
    RoundToUnit(RetentionBase(lines) * order.retentionPercent / 100.0, rounding)
  }

  /**
   * `_ensure_retention_line` as a value: the line it writes, or `None` when
   * it returns early (not a customer invoice, no order or no percent, a
   * retention line already there, a zero amount, no account).
   */
  function RetentionLineToAdd(moveType: MoveType, lines: seq<MoveLine>, order: Option<SaleOrder>,
                              rounding: real, companyAccount: Option<int>): (r: Option<MoveLine>)
    requires rounding > 0.0
    ensures r.Some? <==>
      (&& moveType == OutInvoice
       && order.Some? && order.value.retentionPercent != 0.0
       && !HasRetentionLine(lines)
       && !IsZero(RetentionValue(lines, order.value, rounding), rounding)
       && RetentionAccount(companyAccount, lines, order).Some?)
    ensures r.Some? ==>
      (&& r.value.quantity == 1.0
       && r.value.priceUnit == -RetentionValue(lines, order.value, rounding)
       && r.value.priceSubtotal == r.value.quantity * r.value.priceUnit
       && r.value.taxIds == []
       && r.value.isRetention && !r.value.displayType && !r.value.isDownpayment
       && r.value.saleLines == []
       && r.value.accountId == RetentionAccount(companyAccount, lines, order))
  {
    if moveType != OutInvoice then None
    else if order.None? || order.value.retentionPercent == 0.0 then None
    else if HasRetentionLine(lines) then None
    else
      var amount := RetentionValue(lines, order.value, rounding);
      if IsZero(amount, rounding) then None
      else
        var account := RetentionAccount(companyAccount, lines, order);
        if account.None? then None
        else Some(MoveLine(false, true, false, 1.0, -amount, -amount, account, [], []))
  }

  function OptList(o: Option<MoveLine>): seq<MoveLine> {
    if o.Some? then [o.value] else []
  }

  /** Applying `_ensure_retention_line` a second time adds nothing. */
  lemma RetentionLineIdempotent(moveType: MoveType, lines: seq<MoveLine>, order: Option<SaleOrder>,
                                rounding: real, companyAccount: Option<int>)
    requires rounding > 0.0
    ensures var added := lines + OptList(RetentionLineToAdd(moveType, lines, order, rounding, companyAccount));
            RetentionLineToAdd(moveType, added, order, rounding, companyAccount) == None
            || added == lines
  {
    var r := RetentionLineToAdd(moveType, lines, order, rounding, companyAccount);
    if r.Some? {
      var added := lines + [r.value];
      assert added[|lines|].isRetention;
    }
  }

  /** An invoice with at most one retention line keeps at most one, and the new line carries the whole retention amount. */
  lemma AtMostOneRetentionLine(moveType: MoveType, lines: seq<MoveLine>, order: Option<SaleOrder>,
                               rounding: real, companyAccount: Option<int>)
    requires rounding > 0.0
    requires RetentionCount(lines) <= 1
    ensures var r := RetentionLineToAdd(moveType, lines, order, rounding, companyAccount);
            && RetentionCount(lines + OptList(r)) <= 1
            && (r.Some? ==> RetentionAmount(lines + OptList(r)) == Abs(RetentionValue(lines, order.value, rounding)))
  {
    var r := RetentionLineToAdd(moveType, lines, order, rounding, companyAccount);
    if r.Some? {
      NoRetentionLines(lines);
      assert (lines + [r.value])[..|lines|] == lines;
    } else {
      assert lines + OptList(r) == lines;
    }
  }

  /** Adding the line changes neither the base nor the account a later call would use. */
  lemma RetentionLineStable(moveType: MoveType, lines: seq<MoveLine>, order: Option<SaleOrder>,
                            rounding: real, companyAccount: Option<int>)
    requires rounding > 0.0
    requires RetentionLineToAdd(moveType, lines, order, rounding, companyAccount).Some?
    ensures var l := RetentionLineToAdd(moveType, lines, order, rounding, companyAccount).value;
            && RetentionBase(lines + [l]) == RetentionBase(lines)
            && RetentionAccount(companyAccount, lines + [l], order) == RetentionAccount(companyAccount, lines, order)
  {
    var l := RetentionLineToAdd(moveType, lines, order, rounding, companyAccount).value;
    RetentionBaseAppend(lines, l);
    CandidateAccountIgnoresRetention(lines, l);
  }

  /** `_maybe_add_retention_line` for one move: its own guards, then `_ensure_retention_line`. */
  function MaybeRetentionLine(skip: bool, moveType: MoveType, lines: seq<MoveLine>, order: Option<SaleOrder>,
                              rounding: real, companyAccount: Option<int>): Option<MoveLine>
    requires rounding > 0.0
  {
    if skip || moveType != OutInvoice then None
    else if order.None? || order.value.retentionPercent == 0.0 then None
    else RetentionLineToAdd(moveType, lines, order, rounding, companyAccount)
  }

  /** The guards of `_maybe_add_retention_line` repeat those of `_ensure_retention_line`: only the context flag adds anything. */
  lemma MaybeRetentionLineGuards(skip: bool, moveType: MoveType, lines: seq<MoveLine>, order: Option<SaleOrder>,
                                 rounding: real, companyAccount: Option<int>)
    requires rounding > 0.0
    ensures MaybeRetentionLine(skip, moveType, lines, order, rounding, companyAccount)
            == if skip then None else RetentionLineToAdd(moveType, lines, order, rounding, companyAccount)
  {
  }

  /** An invoice of the add-on: the fields these methods read and write. */
  class AccountMove {
    const moveType: MoveType
    const invoiceOrigin: Option<string>
    /** The company's retention account. */
    const companyAccount: Option<int>
    /** The rounding of `currency_id or company_id.currency_id`. */
    const rounding: real
    var lines: seq<MoveLine>
    /** The stored `sale_order_id`. */
    var saleOrder: Option<SaleOrder>

    /** `create`: the record with its computed order, then `_maybe_add_retention_line`. */
    constructor (moveType: MoveType, invoiceOrigin: Option<string>, companyAccount: Option<int>, rounding: real,
                 lines: seq<MoveLine>, orders: seq<SaleOrder>, skip: bool)
      requires rounding > 0.0
      ensures this.moveType == moveType && this.invoiceOrigin == invoiceOrigin
      ensures this.companyAccount == companyAccount && this.rounding == rounding
      ensures saleOrder == ComputedSaleOrder(lines, invoiceOrigin, orders)
      ensures this.lines == lines + OptList(MaybeRetentionLine(skip, moveType, lines, saleOrder, rounding, companyAccount))
    {
      this.moveType := moveType;
      this.invoiceOrigin := invoiceOrigin;
      this.companyAccount := companyAccount;
      this.rounding := rounding;
      this.lines := lines;
      this.saleOrder := ComputedSaleOrder(lines, invoiceOrigin, orders);
      new;
      RetentionSaleOrderOfComputed(lines, invoiceOrigin, orders);
      MaybeAddRetentionLine(skip, orders);
    }

    /** `_compute_sale_order_id`. */
    method ComputeSaleOrderId(orders: seq<SaleOrder>)
      modifies this`saleOrder
      ensures saleOrder == ComputedSaleOrder(lines, invoiceOrigin, orders)
    {
      var linked := LinkedOrders(lines);
      if linked != [] {
        saleOrder := Some(linked[0]);
        return;
      }
      if Truthy(invoiceOrigin) {
        var origin := OriginKey(invoiceOrigin.value);
        saleOrder := SearchByName(orders, origin);
        return;
      }
      saleOrder := None;
    }

    /** `_ensure_retention_line(sale_order)`: appends the retention line when every guard passes. */
    method EnsureRetentionLine(order: Option<SaleOrder>)
      requires rounding > 0.0
      modifies this`lines
      ensures lines == old(lines) + OptList(RetentionLineToAdd(moveType, old(lines), order, rounding, companyAccount))
    {
      if moveType != OutInvoice {
        return;
      }
      if order.None? || order.value.retentionPercent == 0.0 {
        return;
      }
      if HasRetentionLine(lines) {
        return;
      }
      var amount := RetentionValue(lines, order.value, rounding);
      if IsZero(amount, rounding) {
        return;
      }
      var account := RetentionAccount(companyAccount, lines, order);
      if account.None? {
        return;
      }
      lines := lines + [MoveLine(false, true, false, 1.0, -amount, -amount, account, [], [])];
    }

    /** `_maybe_add_retention_line` on this move, with `skip` the context's `skip_retention_line`. */
    method MaybeAddRetentionLine(skip: bool, orders: seq<SaleOrder>)
      requires rounding > 0.0
      modifies this`lines
      ensures lines == old(lines) + OptList(MaybeRetentionLine(skip, moveType, old(lines),
                                                               RetentionSaleOrder(old(lines), saleOrder, invoiceOrigin, orders),
                                                               rounding, companyAccount))
    {
      if skip {
        return;
      }
      if moveType != OutInvoice {
        return;
      }
      var order := RetentionSaleOrder(lines, saleOrder, invoiceOrigin, orders);
      if order.None? || order.value.retentionPercent == 0.0 {
        return;
      }
      EnsureRetentionLine(order);
    }

    /**
     * `write(vals)` as far as invoice lines go: `written` is the new line
     * list when `vals` holds `invoice_line_ids`; only then, and only without
     * the skip flag, is a retention line considered.
     */
    method Write(written: Option<seq<MoveLine>>, orders: seq<SaleOrder>, skip: bool)
      requires rounding > 0.0
      modifies this`lines, this`saleOrder
      ensures written.None? ==> lines == old(lines) && saleOrder == old(saleOrder)
      ensures written.Some? ==> saleOrder == ComputedSaleOrder(written.value, invoiceOrigin, orders)
      ensures written.Some? ==>
        lines == written.value + OptList(MaybeRetentionLine(skip, moveType, written.value, saleOrder, rounding, companyAccount))
    {
      if written.None? {
        return;
      }
      lines := written.value;
      ComputeSaleOrderId(orders);
      RetentionSaleOrderOfComputed(lines, invoiceOrigin, orders);
      MaybeAddRetentionLine(skip, orders);
    }
  }
}
