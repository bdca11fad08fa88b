/**
 * Down-payment deduction on regular customer invoices
 * (petroraq_sale_workflow/models/account_payment_term.py): the amounts
 * already paid and deducted through the order's down-payment line, and
 * the allocation of deductions over newly created invoices.
 */
module DownPayment {
  import opened Common
  import opened Precision

  datatype MoveState = DraftMove | Posted | Cancelled
  datatype MoveType = OutInvoice | OutRefund | InInvoice | InRefund | Entry

  /** An invoice line linked to a sale line, with the state and type of its move. */
  datatype Aml = Aml(moveState: MoveState, moveType: MoveType, priceSubtotal: real, quantity: real)

  predicate PostedCustomerInvoice(l: Aml) {
    l.moveState == Posted && l.moveType == OutInvoice
  }

  datatype ProductType = Storable | Consumable | Service

  /** The income accounts a product offers, in the order they are consulted. */
  datatype Product = Product(
    productType: ProductType, incomeAccount: Option<int>, propertyIncomeAccount: Option<int>, categIncomeAccount: Option<int>)

  datatype SaleLine = SaleLine(
    id: int,
    name: Option<string>,
    isDownpayment: bool,
    displayType: Option<string>,
    product: Option<Product>,
    taxIds: seq<int>,
    invoiceLines: seq<Aml>,
    qtyDelivered: real,
    productUomQty: real,
    uomRounding: real)

  predicate IsDpLine(l: SaleLine) {
    l.isDownpayment && l.displayType.None?
  }

  /** `_dp_sale_line`: the first down-payment line of the order that is not a display line. */
  function DpSaleLine(lines: seq<SaleLine>): (r: Option<SaleLine>)
    ensures r.None? <==> forall i :: 0 <= i < |lines| ==> !IsDpLine(lines[i])
    ensures r.Some? ==> exists i :: 0 <= i < |lines| && lines[i] == r.value && IsDpLine(lines[i])
                                    && forall j :: 0 <= j < i ==> !IsDpLine(lines[j])
  {
    if lines == [] then None
    else if IsDpLine(lines[0]) then Some(lines[0])
    else
      var r := DpSaleLine(lines[1..]);
      assert r.Some? ==> exists i :: 1 <= i < |lines| && lines[i] == r.value && IsDpLine(lines[i])
                                     && forall j :: 0 <= j < i ==> !IsDpLine(lines[j]) by {
        if r.Some? {
          var i :| 0 <= i < |lines[1..]| && lines[1..][i] == r.value && IsDpLine(lines[1..][i])
                   && forall j :: 0 <= j < i ==> !IsDpLine(lines[1..][j]);
          assert forall j :: 1 <= j < i + 1 ==> lines[j] == lines[1..][j - 1];
        }
      }
      r
  }

  // ---------------------------------------------------------------------
  // Paid, deducted and remaining amounts
  // ---------------------------------------------------------------------

  /** The sum of the strictly positive subtotals of posted customer invoices. */
  function PaidSum(amls: seq<Aml>): real {
    if amls == [] then 0.0
    else PaidSum(amls[..|amls| - 1])
         + (var l := amls[|amls| - 1]; if PostedCustomerInvoice(l) && l.priceSubtotal > 0.0 then l.priceSubtotal else 0.0)
  }

  /** The sum of the absolute values of the strictly negative subtotals of posted customer invoices. */
  function DeductedSum(amls: seq<Aml>): real {
    if amls == [] then 0.0
    else DeductedSum(amls[..|amls| - 1])
         + (var l := amls[|amls| - 1]; if PostedCustomerInvoice(l) && l.priceSubtotal < 0.0 then -l.priceSubtotal else 0.0)
  }

  lemma {:induction false} PaidSumNonNegative(amls: seq<Aml>)
    ensures PaidSum(amls) >= 0.0
  {
    if amls != [] {
      PaidSumNonNegative(amls[..|amls| - 1]);
    }
  }

  lemma {:induction false} DeductedSumNonNegative(amls: seq<Aml>)
    ensures DeductedSum(amls) >= 0.0
  {
    if amls != [] {
      DeductedSumNonNegative(amls[..|amls| - 1]);
    }
  }

  /** Only posted customer-invoice lines move the paid sum. */
  lemma {:induction false} PaidSumIgnoresOthers(amls: seq<Aml>)
    requires forall i :: 0 <= i < |amls| ==> !PostedCustomerInvoice(amls[i])
    ensures PaidSum(amls) == 0.0 && DeductedSum(amls) == 0.0
  {
    if amls != [] {
      PaidSumIgnoresOthers(amls[..|amls| - 1]);
    }
  }

  /** `_dp_paid_amount`: 0 without a down-payment line. */
  function DpPaidAmount(lines: seq<SaleLine>): (r: real)
    ensures r >= 0.0
    ensures DpSaleLine(lines).None? ==> r == 0.0
    ensures DpSaleLine(lines).Some? ==> r == PaidSum(DpSaleLine(lines).value.invoiceLines)
  {
    match DpSaleLine(lines)
    case None => 0.0
    case Some(dp) => PaidSumNonNegative(dp.invoiceLines); PaidSum(dp.invoiceLines)
  }

  /** `_dp_remaining_amount`: what is paid and not yet deducted, never below zero. */
  function DpRemainingAmount(lines: seq<SaleLine>): (r: real)
    ensures 0.0 <= r <= DpPaidAmount(lines)
    ensures DpSaleLine(lines).Some? ==>
      var amls := DpSaleLine(lines).value.invoiceLines;
      r == if PaidSum(amls) - DeductedSum(amls) > 0.0 then PaidSum(amls) - DeductedSum(amls) else 0.0
  {
    match DpSaleLine(lines)
    case None => 0.0
    case Some(dp) =>
      var paid := PaidSum(dp.invoiceLines);
      var deducted := DeductedSum(dp.invoiceLines);
      DeductedSumNonNegative(dp.invoiceLines);
      PaidSumNonNegative(dp.invoiceLines);
      if paid - deducted > 0.0 then paid - deducted else 0.0
  }

  /** The absolute quantities of the deduction lines of posted customer invoices. */
  function DeductedQuantity(amls: seq<Aml>): real {
    if amls == [] then 0.0
    else DeductedQuantity(amls[..|amls| - 1])
         + (var l := amls[|amls| - 1];
            if PostedCustomerInvoice(l) && l.priceSubtotal < 0.0 then (if l.quantity < 0.0 then -l.quantity else l.quantity) else 0.0)
  }

  function Clamp01(x: real): (r: real)
    ensures 0.0 <= r <= 1.0
    ensures 0.0 <= x <= 1.0 ==> r == x
  {
    if x < 0.0 then 0.0 else if x > 1.0 then 1.0 else x
  }

  /**
   * `_dp_deducted_qty`: the share of the down-payment line (out of 1.0)
   * already deducted, rounded to six digits and clamped to [0, 1].
   */
  method DpDeductedQty(lines: seq<SaleLine>) returns (r: real)
    ensures 0.0 <= r <= 1.0
    ensures DpSaleLine(lines).None? ==> r == 0.0
    ensures DpSaleLine(lines).Some? ==>
      r == Clamp01(RoundToUnit(DeductedQuantity(DpSaleLine(lines).value.invoiceLines), DigitsUnit(6)))
  {
    var dp := DpSaleLine(lines);
    if dp.None? {
      return 0.0;
    }
    var amls := dp.value.invoiceLines;
    var deducted := 0.0;
    var i := 0;
    while i < |amls|
      invariant 0 <= i <= |amls|
      invariant deducted == DeductedQuantity(amls[..i])
    {
      var l := amls[i];
      assert amls[..i + 1][..i] == amls[..i];
      if PostedCustomerInvoice(l) && l.priceSubtotal < 0.0 {
        deducted := deducted + (if l.quantity < 0.0 then -l.quantity else l.quantity);
      }
      i := i + 1;
    }
    assert amls[..|amls|] == amls;
    r := Clamp01(RoundToUnit(deducted, DigitsUnit(6)));
  }

  // ---------------------------------------------------------------------
  // Delivery status
  // ---------------------------------------------------------------------

  /** The lines `_is_fully_delivered` looks at: real, non-down-payment lines of stockable or consumable products. */
  predicate DeliveryRelevant(l: SaleLine) {
    l.displayType.None? && !l.isDownpayment && l.product.Some?
    && l.product.value.productType in {Storable, Consumable}
  }

  predicate Delivered(l: SaleLine)
    requires l.uomRounding > 0.0
  {
    Compare(l.qtyDelivered, l.productUomQty, l.uomRounding) >= 0
  }

  /** `_is_fully_delivered`: false without relevant lines, else every relevant line delivered. */
  method IsFullyDelivered(lines: seq<SaleLine>) returns (r: bool)
    requires forall i :: 0 <= i < |lines| ==> lines[i].uomRounding > 0.0
    ensures r <==> (exists i :: 0 <= i < |lines| && DeliveryRelevant(lines[i]))
                   && forall i :: 0 <= i < |lines| && DeliveryRelevant(lines[i]) ==> Delivered(lines[i])
  {
    var any := false;
    var i := 0;
    while i < |lines|
      invariant 0 <= i <= |lines|
      invariant any <==> exists j :: 0 <= j < i && DeliveryRelevant(lines[j])
    {
      if DeliveryRelevant(lines[i]) {
        any := true;
      }
      i := i + 1;
    }
    if !any {
      return false;
    }
    i := 0;
    while i < |lines|
      invariant 0 <= i <= |lines|
      invariant forall j :: 0 <= j < i && DeliveryRelevant(lines[j]) ==> Delivered(lines[j])
    {
      if DeliveryRelevant(lines[i]) && Compare(lines[i].qtyDelivered, lines[i].productUomQty, lines[i].uomRounding) < 0 {
        return false;
      }
      i := i + 1;
    }
    r := true;
  }

  lemma ScaleMonotone(k: int, m: int, unit: real)
    requires unit > 0.0
    ensures (k < m) <==> (k as real * unit < m as real * unit)
  {
    if k < m {
      assert (m - k) as real * unit > 0.0;
    } else {
      assert (k - m) as real * unit >= 0.0;
    }
  }

  lemma MultipleRounds(k: int, unit: real)
    requires unit > 0.0
    ensures RoundHalfUp((k as real * unit) / unit) == k
  {
    ScaledInt(k, unit);
    RoundOfInt(k);
  }

  lemma CompareMultiples(k: int, m: int, unit: real)
    requires unit > 0.0
    ensures Compare(k as real * unit, m as real * unit, unit) >= 0 <==> k >= m
  {
    var a, b := k as real * unit, m as real * unit;
    assert RoundHalfUp(a / unit) == k by { MultipleRounds(k, unit); }
    assert RoundHalfUp(b / unit) == m by { MultipleRounds(m, unit); }
    CompareByMultiples(a, b, unit);
  }

  /**
   * For quantities that are whole multiples of the unit of measure's
   * rounding, a line is delivered exactly when the delivered quantity
   * reaches the ordered one.
   */
  lemma DeliveredExact(l: SaleLine, k: int, m: int)
    requires l.uomRounding > 0.0
    requires l.qtyDelivered == k as real * l.uomRounding && l.productUomQty == m as real * l.uomRounding
    ensures Delivered(l) <==> l.qtyDelivered >= l.productUomQty
  {
    var u := l.uomRounding;
    var a, b := k as real * u, m as real * u;
    assert Delivered(l) <==> Compare(a, b, u) >= 0 by {
      assert l.qtyDelivered == a && l.productUomQty == b;
    }
    assert Compare(a, b, u) >= 0 <==> k >= m by {
      CompareMultiples(k, m, u);
    }
    assert k >= m <==> a >= b by {
      ScaleMonotone(k, m, u);
    }
  }

  // ---------------------------------------------------------------------
  // The deduction line
  // ---------------------------------------------------------------------

  /** The values of a deduction line (`tax_ids` is `None` when the line has no taxes). */
  datatype DeductionVals = DeductionVals(
    moveId: int, name: string, quantity: real, priceUnit: real, accountId: int,
    taxIds: Option<seq<int>>, saleLineIds: seq<int>)

  /**
   * The income account of a deduction: the product's income account, its
   * property account, its category's, then the company default.
   */
  function DeductionAccount(product: Option<Product>, companyDefault: Option<int>): (r: Option<int>)
    ensures product.None? ==> r == companyDefault
    ensures product.Some? && product.value.incomeAccount.Some? ==> r == product.value.incomeAccount
    ensures product.Some? && product.value.incomeAccount.None? ==>
              r == (if product.value.propertyIncomeAccount.Some? then product.value.propertyIncomeAccount
                    else if product.value.categIncomeAccount.Some? then product.value.categIncomeAccount
                    else companyDefault)
    ensures r.None? ==> companyDefault.None?
  {
    match product
    case None => companyDefault
    case Some(p) =>
      if p.incomeAccount.Some? then p.incomeAccount
      else if p.propertyIncomeAccount.Some? then p.propertyIncomeAccount
      else if p.categIncomeAccount.Some? then p.categIncomeAccount
      else companyDefault
  }

  /**
   * `_prepare_dp_deduction_line_vals`: no line (`None` for the empty dict)
   * for an amount the currency rounds to zero or when no account is
   * found; otherwise one unit at minus the amount on the down-payment line.
   */
  function PrepareDpDeductionLineVals(invoiceId: int, dp: SaleLine, amount: real, rounding: real,
                                      companyDefault: Option<int>): (r: Option<DeductionVals>)
    requires rounding > 0.0
    ensures r.None? <==> IsZero(amount, rounding) || DeductionAccount(dp.product, companyDefault).None?
    ensures r.Some? ==>
      && r.value.moveId == invoiceId && r.value.quantity == 1.0 && r.value.priceUnit == -amount
      && r.value.accountId == DeductionAccount(dp.product, companyDefault).value
      && r.value.saleLineIds == [dp.id]
      && r.value.name == (if dp.name.Some? && dp.name.value != "" then dp.name.value else "Down Payment Deduction")
      && r.value.taxIds == (if dp.taxIds == [] then None else Some(dp.taxIds))
  {
    if IsZero(amount, rounding) then None
    else
      var account := DeductionAccount(dp.product, companyDefault);
      if account.None? then None
      else
        Some(DeductionVals(invoiceId, if dp.name.Some? && dp.name.value != "" then dp.name.value else "Down Payment Deduction",
                           1.0, -amount, account.value, if dp.taxIds == [] then None else Some(dp.taxIds), [dp.id]))
  }

  // ---------------------------------------------------------------------
  // Invoices and allocation
  // ---------------------------------------------------------------------

  /** An invoice line with the sale lines and orders it comes from. */
  datatype InvoiceLine = InvoiceLine(
    displayType: Option<string>, isDownpayment: bool, saleLineIds: seq<int>, saleOrderIds: seq<int>, priceSubtotal: real)

  datatype Invoice = Invoice(id: int, moveType: MoveType, lines: seq<InvoiceLine>)

  predicate BaseLine(l: InvoiceLine, orderId: int) {
    l.displayType.None? && !l.isDownpayment && orderId in l.saleOrderIds
  }

  /** `_get_invoice_order_base`: the invoice's real, non-down-payment lines from this order. */
  function InvoiceOrderBase(orderId: int, lines: seq<InvoiceLine>): real {
    if lines == [] then 0.0
    else InvoiceOrderBase(orderId, lines[..|lines| - 1])
         + (if BaseLine(lines[|lines| - 1], orderId) then lines[|lines| - 1].priceSubtotal else 0.0)
  }

  /** Lines that come from other orders, or are display or down-payment lines, do not move the base. */
  lemma {:induction false} InvoiceOrderBaseOnlyOrderLines(orderId: int, lines: seq<InvoiceLine>, extra: InvoiceLine)
    requires !BaseLine(extra, orderId)
    ensures InvoiceOrderBase(orderId, lines + [extra]) == InvoiceOrderBase(orderId, lines)
  {
    assert (lines + [extra])[..|lines|] == lines;
  }

  /** The customer invoices the order contributed a line to. */
  predicate OrderInvoice(inv: Invoice, orderId: int) {
    inv.moveType == OutInvoice && exists l :: l in inv.lines && orderId in l.saleOrderIds
  }

  /** An invoice that already deducts the down payment: a negative real line on the down-payment sale line. */
  predicate HasDeduction(inv: Invoice, dpLineId: int) {
    exists l :: l in inv.lines && dpLineId in l.saleLineIds && l.displayType.None? && l.priceSubtotal < 0.0
  }

  /** Order-level inputs of the allocation. */
  datatype SaleOrder = SaleOrder(id: int, dpPercent: real, lines: seq<SaleLine>)

  /**
   * The guards of `_create_invoices` for one order: a down-payment percent,
   * a down-payment line, something paid and a remaining amount the currency
   * does not round to zero. The result is the amount to allocate.
   */
  function DeductionBudget(order: SaleOrder, rounding: real): (r: Option<real>)
    requires rounding > 0.0
    ensures r.Some? ==> r.value == DpRemainingAmount(order.lines) && r.value > 0.0
    ensures r.Some? <==> order.dpPercent != 0.0 && DpSaleLine(order.lines).Some?
                         && DpPaidAmount(order.lines) != 0.0 && !IsZero(DpRemainingAmount(order.lines), rounding)
  {
    if order.dpPercent == 0.0 || DpSaleLine(order.lines).None? || DpPaidAmount(order.lines) == 0.0 then None
    else
      var remaining := DpRemainingAmount(order.lines);
      if IsZero(remaining, rounding) then None
      else
        IsZeroIff(remaining, rounding);
        Some(remaining)
  }

  /** The amount a deduction line takes off. */
  function Amount(v: DeductionVals): real {
    -v.priceUnit
  }

  function TotalAmount(vs: seq<DeductionVals>): real {
    if vs == [] then 0.0 else TotalAmount(vs[..|vs| - 1]) + Amount(vs[|vs| - 1])
  }

  function Min(a: real, b: real): real {
    if a <= b then a else b
  }

  /** The invoices that may receive a deduction line. */
  predicate Eligible(inv: Invoice, order: SaleOrder, dpLineId: int) {
    OrderInvoice(inv, order.id) && !HasDeduction(inv, dpLineId) && InvoiceOrderBase(order.id, inv.lines) > 0.0
  }

  /** The per-invoice cap of a deduction: the invoice base times the down-payment percent. */
  function Cap(base: real, dpPercent: real): real {
    base * dpPercent
  }

  /**
   * A deduction line that invoice `inv` may receive when `left` of the
   * budget remains: an eligible invoice, one unit, a positive amount the
   * currency does not round to zero, within the cap and within `left`.
   */
  predicate GoodDeduction(v: DeductionVals, inv: Invoice, order: SaleOrder, dpLineId: int, rounding: real, left: real)
    requires rounding > 0.0
  {
    && Eligible(inv, order, dpLineId)
    && v.moveId == inv.id
    && v.quantity == 1.0
    && Amount(v) > 0.0
    && !IsZero(Amount(v), rounding)
    && Amount(v) <= Cap(InvoiceOrderBase(order.id, inv.lines), order.dpPercent)
    && Amount(v) <= left
  }

  lemma TotalAmountAppend(vs: seq<DeductionVals>, v: DeductionVals)
    ensures TotalAmount(vs + [v]) == TotalAmount(vs) + Amount(v)
    ensures forall k :: 0 <= k <= |vs| ==> (vs + [v])[..k] == vs[..k]
  {
    assert (vs + [v])[..|vs|] == vs;
  }

  /**
   * One iteration of the allocation loop: the deduction line invoice `inv`
   * receives when `remaining` is left, if any.
   */
  function InvoiceDeduction(order: SaleOrder, dp: SaleLine, inv: Invoice, remaining: real,
                            rounding: real, companyDefault: Option<int>): (r: Option<DeductionVals>)
    requires rounding > 0.0
    ensures r.Some? ==> GoodDeduction(r.value, inv, order, dp.id, rounding, remaining)
    ensures !Eligible(inv, order, dp.id) ==> r.None?
    ensures r.Some? ==> Amount(r.value) == Min(remaining, Cap(InvoiceOrderBase(order.id, inv.lines), order.dpPercent))
    ensures var target := Min(remaining, Cap(InvoiceOrderBase(order.id, inv.lines), order.dpPercent));
            r.Some? <==> Eligible(inv, order, dp.id) && target > 0.0 && !IsZero(target, rounding)
                         && DeductionAccount(dp.product, companyDefault).Some?
  {
    if !OrderInvoice(inv, order.id) || HasDeduction(inv, dp.id) then None
    else
      var base := InvoiceOrderBase(order.id, inv.lines);
      if base <= 0.0 then None
      else
        var target := Min(remaining, Cap(base, order.dpPercent));
        if IsZero(target, rounding) || target <= 0.0 then None
        else PrepareDpDeductionLineVals(inv.id, dp, target, rounding, companyDefault)
  }

  /** `lefts[k]` is what was left of `budget` before deduction `k`. */
  predicate LeftsMatch(lefts: seq<real>, created: seq<DeductionVals>, budget: real) {
    |lefts| == |created| && forall k :: 0 <= k < |lefts| ==> lefts[k] == budget - TotalAmount(created[..k])
  }

  /** Deduction `k` went to invoice `targets[k]`, below `bound`, and was good for `lefts[k]`. */
  predicate GoodTargets(created: seq<DeductionVals>, targets: seq<nat>, lefts: seq<real>, invoices: seq<Invoice>,
                        order: SaleOrder, dpLineId: int, rounding: real, bound: nat)
    requires rounding > 0.0
  {
    && |targets| == |created| == |lefts|
    && bound <= |invoices|
    && forall k :: 0 <= k < |created| ==>
         targets[k] < bound && GoodDeduction(created[k], invoices[targets[k]], order, dpLineId, rounding, lefts[k])
  }

  predicate Increasing(targets: seq<nat>) {
    forall k, m :: 0 <= k < m < |targets| ==> targets[k] < targets[m]
  }

  /** The outcome of the allocation loop: lines created, their invoices, what was left before each, what is left. */
  datatype Allocation = Allocation(created: seq<DeductionVals>, targets: seq<nat>, lefts: seq<real>, remaining: real)

  /**
   * The allocation loop of `_create_invoices` for one order, over the
   * invoices in order: `budget` is the remaining down payment. Each
   * invoice that gets a line takes it off what is left.
   */
  function Allocate(order: SaleOrder, dp: SaleLine, budget: real, invoices: seq<Invoice>,
                    rounding: real, companyDefault: Option<int>): Allocation
    requires rounding > 0.0
    decreases |invoices|
  {
    if invoices == [] then Allocation([], [], [], budget)
    else
      var n := |invoices| - 1;
      var a := Allocate(order, dp, budget, invoices[..n], rounding, companyDefault);
      var vals := InvoiceDeduction(order, dp, invoices[n], a.remaining, rounding, companyDefault);
      if vals.Some? then
        Allocation(a.created + [vals.value], a.targets + [n], a.lefts + [a.remaining], a.remaining - Amount(vals.value))
      else a
  }

  /** What is left never goes below zero or above the budget, and the deductions add up to what was used. */
  lemma {:induction false} AllocateBudget(order: SaleOrder, dp: SaleLine, budget: real, invoices: seq<Invoice>,
                                          rounding: real, companyDefault: Option<int>)
    requires rounding > 0.0 && budget >= 0.0
    ensures var a := Allocate(order, dp, budget, invoices, rounding, companyDefault);
            && 0.0 <= a.remaining <= budget
            && TotalAmount(a.created) == budget - a.remaining
            && LeftsMatch(a.lefts, a.created, budget)
    decreases |invoices|
  {
    if invoices != [] {
      var n := |invoices| - 1;
      var a := Allocate(order, dp, budget, invoices[..n], rounding, companyDefault);
      AllocateBudget(order, dp, budget, invoices[..n], rounding, companyDefault);
      var vals := InvoiceDeduction(order, dp, invoices[n], a.remaining, rounding, companyDefault);
      if vals.Some? {
        TotalAmountAppend(a.created, vals.value);
      }
    }
  }

  /**
   * No invoice is passed over: an invoice gets a deduction exactly when the
   * loop step, given what was left after the invoices before it, makes one.
   */
  lemma {:induction false} AllocateSkipsOnlyUnfit(order: SaleOrder, dp: SaleLine, budget: real, invoices: seq<Invoice>,
                                                  rounding: real, companyDefault: Option<int>)
    requires rounding > 0.0
    ensures var a := Allocate(order, dp, budget, invoices, rounding, companyDefault);
            forall i :: 0 <= i < |invoices| ==>
              (i in a.targets <==>
                 InvoiceDeduction(order, dp, invoices[i],
                                  Allocate(order, dp, budget, invoices[..i], rounding, companyDefault).remaining,
                                  rounding, companyDefault).Some?)
    ensures var a := Allocate(order, dp, budget, invoices, rounding, companyDefault);
            forall i :: 0 <= i < |invoices| && i !in a.targets ==>
              var left := Allocate(order, dp, budget, invoices[..i], rounding, companyDefault).remaining;
              var target := Min(left, Cap(InvoiceOrderBase(order.id, invoices[i].lines), order.dpPercent));
              || !Eligible(invoices[i], order, dp.id) || target <= 0.0 || IsZero(target, rounding)
              || DeductionAccount(dp.product, companyDefault).None?
    decreases |invoices|
  {
    if invoices != [] {
      var n := |invoices| - 1;
      var pre := invoices[..n];
      var a := Allocate(order, dp, budget, pre, rounding, companyDefault);
      AllocateSkipsOnlyUnfit(order, dp, budget, pre, rounding, companyDefault);
      AllocateTargets(order, dp, budget, pre, rounding, companyDefault);
      var b := Allocate(order, dp, budget, invoices, rounding, companyDefault);
      forall i | 0 <= i < |invoices|
        ensures i in b.targets <==>
                InvoiceDeduction(order, dp, invoices[i],
                                 Allocate(order, dp, budget, invoices[..i], rounding, companyDefault).remaining,
                                 rounding, companyDefault).Some?
      {
        if i < n {
          assert pre[..i] == invoices[..i] && pre[i] == invoices[i];
          assert i in b.targets <==> i in a.targets;
        } else {
          assert invoices[..i] == pre;
          assert n !in a.targets;
        }
      }
    }
  }

  /** Each deduction went to an eligible invoice, within its cap and within what was left before it. */
  lemma {:induction false} AllocateTargets(order: SaleOrder, dp: SaleLine, budget: real, invoices: seq<Invoice>,
                                           rounding: real, companyDefault: Option<int>)
    requires rounding > 0.0
    ensures var a := Allocate(order, dp, budget, invoices, rounding, companyDefault);
            && GoodTargets(a.created, a.targets, a.lefts, invoices, order, dp.id, rounding, |invoices|)
            && Increasing(a.targets)
            && (a.targets != [] ==> a.targets[|a.targets| - 1] < |invoices|)
    decreases |invoices|
  {
    if invoices != [] {
      var n := |invoices| - 1;
      var pre := invoices[..n];
      var a := Allocate(order, dp, budget, pre, rounding, companyDefault);
      AllocateTargets(order, dp, budget, pre, rounding, companyDefault);
      var vals := InvoiceDeduction(order, dp, invoices[n], a.remaining, rounding, companyDefault);
      GoodTargetsWiden(a.created, a.targets, a.lefts, invoices, order, dp.id, rounding, n);
      if vals.Some? {
        GoodTargetsAppend(a.created, a.targets, a.lefts, invoices, order, dp.id, rounding, n, vals.value, a.remaining);
        IncreasingAppend(a.targets, n);
      }
    }
  }

  /** Targets found among the first `n` invoices stay good in the longer list. */
  lemma GoodTargetsWiden(created: seq<DeductionVals>, targets: seq<nat>, lefts: seq<real>, invoices: seq<Invoice>,
                         order: SaleOrder, dpLineId: int, rounding: real, n: nat)
    requires rounding > 0.0 && n < |invoices|
    requires GoodTargets(created, targets, lefts, invoices[..n], order, dpLineId, rounding, n)
    ensures GoodTargets(created, targets, lefts, invoices, order, dpLineId, rounding, n + 1)
  {
    forall k | 0 <= k < |created|
      ensures GoodDeduction(created[k], invoices[targets[k]], order, dpLineId, rounding, lefts[k])
    {
      assert invoices[targets[k]] == invoices[..n][targets[k]];
    }
  }

  /** A deduction for invoice `n` extends the good targets. */
  lemma GoodTargetsAppend(created: seq<DeductionVals>, targets: seq<nat>, lefts: seq<real>, invoices: seq<Invoice>,
                          order: SaleOrder, dpLineId: int, rounding: real, n: nat, v: DeductionVals, left: real)
    requires rounding > 0.0 && n < |invoices|
    requires GoodTargets(created, targets, lefts, invoices, order, dpLineId, rounding, n + 1)
    requires GoodDeduction(v, invoices[n], order, dpLineId, rounding, left)
    ensures GoodTargets(created + [v], targets + [n], lefts + [left], invoices, order, dpLineId, rounding, n + 1)
  {
    var cs, ts, ls := created + [v], targets + [n], lefts + [left];
    forall k | 0 <= k < |cs|
      ensures ts[k] < n + 1 && GoodDeduction(cs[k], invoices[ts[k]], order, dpLineId, rounding, ls[k])
    {
      if k < |created| {
        assert cs[k] == created[k] && ts[k] == targets[k] && ls[k] == lefts[k];
      }
    }
  }

  lemma IncreasingAppend(targets: seq<nat>, n: nat)
    requires Increasing(targets) && forall k :: 0 <= k < |targets| ==> targets[k] < n
    ensures Increasing(targets + [n])
  {
    var ts := targets + [n];
    forall k, m | 0 <= k < m < |ts|
      ensures ts[k] < ts[m]
    {
      assert ts[k] == targets[k];
      if m < |targets| {
        assert ts[m] == targets[m];
      }
    }
  }

  /**
   * `_create_invoices`' allocation loop for one order, computed in place:
   * the running remainder decreases by each deduction as it is created.
   */
  method AllocateDeductions(order: SaleOrder, dp: SaleLine, budget: real, invoices: seq<Invoice>,
                            rounding: real, companyDefault: Option<int>)
    returns (created: seq<DeductionVals>, targets: seq<nat>, lefts: seq<real>, remaining: real)
    requires rounding > 0.0
    ensures Allocation(created, targets, lefts, remaining) == Allocate(order, dp, budget, invoices, rounding, companyDefault)
  {
    created, targets, lefts, remaining := [], [], [], budget;
    var i := 0;
    while i < |invoices|
      invariant 0 <= i <= |invoices|
      invariant Allocation(created, targets, lefts, remaining) == Allocate(order, dp, budget, invoices[..i], rounding, companyDefault)
    {
      assert invoices[..i + 1][..i] == invoices[..i];
      var vals := InvoiceDeduction(order, dp, invoices[i], remaining, rounding, companyDefault);
      if vals.Some? {
        created, targets, lefts := created + [vals.value], targets + [i], lefts + [remaining];
        remaining := remaining - Amount(vals.value);
      }
      i := i + 1;
    }
    assert invoices[..|invoices|] == invoices;
  }

  /**
   * The order-level guards and the allocation together: `_create_invoices`
   * for one order. No guard passed, no line; otherwise the deductions stay
   * within the remaining down payment, each goes to a distinct eligible
   * invoice, and each is within that invoice's cap and what was left.
   */
  method CreateInvoiceDeductions(order: SaleOrder, invoices: seq<Invoice>, rounding: real, companyDefault: Option<int>)
    returns (created: seq<DeductionVals>, targets: seq<nat>)
    requires rounding > 0.0
    ensures DeductionBudget(order, rounding).None? ==> created == [] && targets == []
    ensures DeductionBudget(order, rounding).Some? ==>
      && DpSaleLine(order.lines).Some?
      && 0.0 <= TotalAmount(created) <= DpRemainingAmount(order.lines)
      && exists lefts :: LeftsMatch(lefts, created, DpRemainingAmount(order.lines))
                         && GoodTargets(created, targets, lefts, invoices, order, DpSaleLine(order.lines).value.id, rounding, |invoices|)
    ensures DeductionBudget(order, rounding).Some? ==>
      var a := Allocate(order, DpSaleLine(order.lines).value, DeductionBudget(order, rounding).value, invoices,
                        rounding, companyDefault);
      created == a.created && targets == a.targets
    ensures Increasing(targets)
  {
    var budget := DeductionBudget(order, rounding);
    if budget.None? {
      return [], [];
    }
    var dp := DpSaleLine(order.lines).value;
    var lefts, remaining;
    created, targets, lefts, remaining := AllocateDeductions(order, dp, budget.value, invoices, rounding, companyDefault);
    AllocateBudget(order, dp, budget.value, invoices, rounding, companyDefault);
    AllocateTargets(order, dp, budget.value, invoices, rounding, companyDefault);
  }
}
