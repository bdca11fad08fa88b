/**
 * Goods receipt and service entry sheets (custom_pr_system/models/inventory.py):
 * their totals, the review and approval stages, the vendor bill made from
 * an approved sheet, the report guards, and the wizard that splits a
 * purchase order's custom lines into a GRN for materials and an SES for
 * services.
 */
module Inventory {
  import opened Common

  /** A text value is set when it holds a non-empty string. */
  predicate Set(s: Option<string>) {
    s.Some? && s.value != ""
  }

  datatype Stage = StagePending | StageReviewed | StageApproved
  datatype LineType = Material | Service
  datatype BillState = BillDraft | BillPosted | BillCancel

  datatype GrnLine = GrnLine(name: Option<string>, quantity: real, unit: Option<string>, lineType: LineType,
                             priceUnit: real, remarks: Option<string>)

  /** `GrnSesLine._compute_subtotal`. */
  function LineSubtotal(l: GrnLine): real {
    l.quantity * l.priceUnit
  }

  function LinesSubtotal(lines: seq<GrnLine>): real {
    if lines == [] then 0.0 else LinesSubtotal(lines[..|lines| - 1]) + LineSubtotal(lines[|lines| - 1])
  }

  datatype Totals = Totals(subtotal: real, tax15: real, grandTotal: real)

  /** `_compute_totals`: the line sum, 15% VAT on a non-zero sum, and the sum of the two. */
  function SheetTotals(lines: seq<GrnLine>): (t: Totals)
    ensures t.subtotal == LinesSubtotal(lines)
    ensures t.tax15 == t.subtotal * 0.15
    ensures t.grandTotal == t.subtotal * 1.15
  {
    var subtotal := LinesSubtotal(lines);
    var tax := if subtotal != 0.0 then subtotal * 0.15 else 0.0;
    Totals(subtotal, tax, subtotal + tax)
  }

  /** Non-negative quantities and prices give non-negative totals, ordered subtotal <= grand total. */
  lemma {:induction false} SheetTotalsNonNegative(lines: seq<GrnLine>)
    requires forall i :: 0 <= i < |lines| ==> lines[i].quantity >= 0.0 && lines[i].priceUnit >= 0.0
    ensures 0.0 <= SheetTotals(lines).subtotal <= SheetTotals(lines).grandTotal
  {
    if lines != [] {
      var n := |lines| - 1;
      assert forall k :: 0 <= k < n ==> lines[..n][k] == lines[k];
      SheetTotalsNonNegative(lines[..n]);
      assert LineSubtotal(lines[n]) >= 0.0;
    }
  }

  /** A product found by name for a bill line. */
  datatype Product = Product(id: int, name: string)

  /** `product.product` search on the line's name, limit 1. */
  function SearchProduct(products: seq<Product>, name: Option<string>): (r: Option<int>)
    ensures r.None? <==> forall k :: 0 <= k < |products| ==> name != Some(products[k].name)
    ensures r.Some? ==> exists k :: 0 <= k < |products| && products[k].id == r.value && name == Some(products[k].name)
                                    && forall j :: 0 <= j < k ==> name != Some(products[j].name)
  {
    if products == [] then None
    else if name == Some(products[0].name) then Some(products[0].id)
    else
      var r := SearchProduct(products[1..], name);
      assert forall k :: 1 <= k < |products| ==> products[k] == products[1..][k - 1];
      assert r.Some? ==> exists k :: 1 <= k < |products| && products[k].id == r.value && name == Some(products[k].name)
                                     && forall j :: 0 <= j < k ==> name != Some(products[j].name) by {
        if r.Some? {
          var k :| 0 <= k < |products[1..]| && products[1..][k].id == r.value && name == Some(products[1..][k].name)
                   && forall j :: 0 <= j < k ==> name != Some(products[1..][j].name);
          assert products[k + 1] == products[1..][k];
        }
      }
      r
  }

  /** A product's own expense account and its category's. */
  datatype ProductAccounts = ProductAccounts(expense: Option<int>, categExpense: Option<int>)

  /**
   * `_get_expense_account` as intended: the product's account, else its
   * category's, else the company's first active expense account, else an error.
   */
  function ExpenseAccount(product: Option<ProductAccounts>, companyExpense: Option<int>): (r: Result<int, GrnError>)
    ensures r.Err? <==> (product.None? || (product.value.expense.None? && product.value.categExpense.None?))
                        && companyExpense.None?
    ensures product.Some? && product.value.expense.Some? ==> r == Ok(product.value.expense.value)
    ensures product.Some? && product.value.expense.None? && product.value.categExpense.Some?
            ==> r == Ok(product.value.categExpense.value)
    ensures ((product.None? || (product.value.expense.None? && product.value.categExpense.None?))
             && companyExpense.Some?) ==> r == Ok(companyExpense.value)
    ensures r.Err? ==> r.error == NoExpenseAccount
  {
    var own := if product.Some? then (if product.value.expense.Some? then product.value.expense
                                      else product.value.categExpense)
               else None;
    if own.Some? then Ok(own.value)
    else if companyExpense.Some? then Ok(companyExpense.value)
    else Err(NoExpenseAccount)
  }

  /**
   * `_get_expense_account` as written: the company search reads
   * `self.company_id`, a field the sheet does not have, so every call that
   * gets past the product raises.
   */
  function ExpenseAccountAsWritten(product: Option<ProductAccounts>, companyExpense: Option<int>): (r: Result<int, GrnError>)
    ensures r.Ok? <==> product.Some? && (product.value.expense.Some? || product.value.categExpense.Some?)
    ensures r.Err? ==> r.error == NoCompanyField
  {
    var own := if product.Some? then (if product.value.expense.Some? then product.value.expense
                                      else product.value.categExpense)
               else None;
    if own.Some? then Ok(own.value) else Err(NoCompanyField)
  }

  /** The vendor bill calls it without a product: as written it raises even where the company has an expense account. */
  lemma ExpenseAccountWithoutProduct(companyExpense: int)
    ensures ExpenseAccountAsWritten(None, Some(companyExpense)) == Err(NoCompanyField)
    ensures ExpenseAccount(None, Some(companyExpense)) == Ok(companyExpense)
  {
  }

  /** A vendor bill line: either a product or, without one, the expense account. */
  datatype BillLineVals = BillLineVals(name: string, quantity: real, priceUnit: real,
                                       productId: Option<int>, accountId: Option<int>)

  /**
   * One bill line of `action_create_vendor_bill`, or `None` when it needs an
   * expense account and there is none; `expenseAccount` is the company's.
   */
  function BillLine(l: GrnLine, products: seq<Product>, expenseAccount: Option<int>): (r: Option<BillLineVals>)
    ensures r.None? <==> SearchProduct(products, l.name).None? && expenseAccount.None?
    ensures r.Some? ==>
      && r.value.name == (if Set(l.name) then l.name.value else "GRN/SES Item")
      && r.value.quantity == (if l.quantity != 0.0 then l.quantity else 1.0)
      && r.value.priceUnit == l.priceUnit
      && (r.value.productId.Some? != r.value.accountId.Some?)
      && (r.value.productId.Some? ==> r.value.productId == SearchProduct(products, l.name))
      && (r.value.accountId.Some? ==> r.value.accountId == expenseAccount)
  {
    var name := if Set(l.name) then l.name.value else "GRN/SES Item";
    var qty := if l.quantity != 0.0 then l.quantity else 1.0;
    var product := SearchProduct(products, l.name);
    if product.Some? then Some(BillLineVals(name, qty, l.priceUnit, product, None))
    else
      var account := ExpenseAccount(None, expenseAccount);
      if account.Ok? then Some(BillLineVals(name, qty, l.priceUnit, None, Some(account.value)))
      else None
  }

  /** The header of the bill: the vendor, today's date, the origin and the reference. */
  datatype BillVals = BillVals(partnerId: int, invoiceDate: int, invoiceOrigin: string, reference: string,
                               lines: seq<BillLineVals>)

  datatype Bill = Bill(id: int, state: BillState)

  /** `action_create_vendor_bill`'s outcome: the draft bill already there, or the new bill. */
  datatype BillAction = OpenBill(billId: int) | CreatedBill(newId: int, vals: BillVals)

  datatype GrnError = NotApproved | NoVendor | NoLines | NoExpenseAccount | NoCompanyField | ReportNotApproved

  /** The first draft among the bills. */
  function FirstDraft(bills: seq<Bill>): (r: Option<int>)
    ensures r.None? <==> forall k :: 0 <= k < |bills| ==> bills[k].state != BillDraft
    ensures r.Some? ==> exists k :: 0 <= k < |bills| && bills[k] == Bill(r.value, BillDraft)
                                    && forall j :: 0 <= j < k ==> bills[j].state != BillDraft
  {
    if bills == [] then None
    else if bills[0].state == BillDraft then Some(bills[0].id)
    else
      var r := FirstDraft(bills[1..]);
      assert forall k :: 1 <= k < |bills| ==> bills[k] == bills[1..][k - 1];
      assert r.Some? ==> exists k :: 1 <= k < |bills| && bills[k] == Bill(r.value, BillDraft)
                                     && forall j :: 0 <= j < k ==> bills[j].state != BillDraft by {
        if r.Some? {
          var k :| 0 <= k < |bills[1..]| && bills[1..][k] == Bill(r.value, BillDraft)
                   && forall j :: 0 <= j < k ==> bills[1..][j].state != BillDraft;
          assert bills[k + 1] == bills[1..][k];
        }
      }
      r
  }

  /** Once a bill has been created, the next call finds a draft to open instead of creating another. */
  lemma DraftFoundAfterCreation(bills: seq<Bill>, newId: int)
    requires FirstDraft(bills).None?
    ensures FirstDraft(bills + [Bill(newId, BillDraft)]) == Some(newId)
  {
    var b := bills + [Bill(newId, BillDraft)];
    assert forall k :: 0 <= k < |bills| ==> b[k] == bills[k];
    assert b[|bills|] == Bill(newId, BillDraft);
    var r := FirstDraft(b);
    assert r.Some?;
    var k :| 0 <= k < |b| && b[k] == Bill(r.value, BillDraft);
    assert k == |bills|;
  }

  /** `_get_report_base_filename`: no name before approval, else the sheet's name with `_Report`. */
  function ReportBaseFilename(isApproved: bool, name: string): (r: Option<string>)
    ensures r.None? <==> !isApproved
    ensures r.Some? ==> r.value == name + "_Report" && |r.value| == |name| + 7
  {
    if !isApproved then None else Some(name + "_Report")
  }

  /** `print_grn_ses_report`: every sheet must be at the approved stage. */
  function PrintGuard(stages: seq<Stage>): (r: Outcome<GrnError>)
    ensures r == Pass <==> forall i :: 0 <= i < |stages| ==> stages[i] == StageApproved
  {
    if forall i :: 0 <= i < |stages| ==> stages[i] == StageApproved then Pass else Fail(NotApproved)
  }

  /** A sheet as the report model sees it. */
  datatype ReportDoc = ReportDoc(id: int, isApproved: bool)

  /** `GrnSesReport._get_report_values`: the report's documents, only when every sheet is approved. */
  function ReportValues(docs: seq<ReportDoc>): (r: Result<seq<int>, GrnError>)
    ensures r.Ok? <==> forall i :: 0 <= i < |docs| ==> docs[i].isApproved
    ensures r.Ok? ==> |r.value| == |docs| && forall i :: 0 <= i < |docs| ==> r.value[i] == docs[i].id
    ensures r.Err? ==> r.error == ReportNotApproved
  {
    if forall i :: 0 <= i < |docs| ==> docs[i].isApproved then Ok(seq(|docs|, i requires 0 <= i < |docs| => docs[i].id))
    else Err(ReportNotApproved)
  }

  /** A purchase order as a sheet refers to it. */
  datatype OrderRef = OrderRef(id: int, name: string)

  /** The purchase order fields a sheet carries; the wizard copies them from the order. */
  datatype OrderHeader = OrderHeader(partnerId: Option<int>, purchaseOrder: Option<OrderRef>,
                                     partnerRef: Option<string>, project: Option<string>, origin: Option<string>)

  /**
   * The line loop of `action_create_vendor_bill`: one bill line per sheet
   * line, stopping at the first line that needs an expense account when the
   * company has none.
   */
  method BuildBillLines(lines: seq<GrnLine>, products: seq<Product>, expenseAccount: Option<int>)
    returns (r: Result<seq<BillLineVals>, GrnError>)
    ensures r.Ok? <==> forall i :: 0 <= i < |lines| ==> BillLine(lines[i], products, expenseAccount).Some?
    ensures r.Ok? ==> |r.value| == |lines|
                      && forall i :: 0 <= i < |lines| ==> BillLine(lines[i], products, expenseAccount) == Some(r.value[i])
    ensures r.Err? ==> r == Err(NoExpenseAccount)
  {
    var invoiceLines: seq<BillLineVals> := [];
    var i := 0;
    while i < |lines|
      invariant 0 <= i <= |lines|
      invariant |invoiceLines| == i
      invariant forall k :: 0 <= k < i ==> BillLine(lines[k], products, expenseAccount) == Some(invoiceLines[k])
    {
      var line := lines[i];
      var product := SearchProduct(products, line.name);
      var lineName := if Set(line.name) then line.name.value else "GRN/SES Item";
      var qty := if line.quantity != 0.0 then line.quantity else 1.0;
      var vals: BillLineVals;
      if product.Some? {
        vals := BillLineVals(lineName, qty, line.priceUnit, product, None);
      } else {
        var account := ExpenseAccount(None, expenseAccount);
        if account.Err? {
          return Err(account.error);
        }
        vals := BillLineVals(lineName, qty, line.priceUnit, None, Some(account.value));
      }
      invoiceLines := invoiceLines + [vals];
      i := i + 1;
    }
    r := Ok(invoiceLines);
  }

  /** A GRN/SES sheet. */
  class GrnSes {
    const name: string
    const header: OrderHeader
    const lines: seq<GrnLine>
    var isReviewed: bool
    var isApproved: bool
    var stage: Stage
    var totals: Totals
    var bills: seq<Bill>

    /** A new sheet: pending, neither reviewed nor approved, no bills. */
    constructor (name: string, header: OrderHeader, lines: seq<GrnLine>)
      ensures this.name == name && this.header == header && this.lines == lines
      ensures !isReviewed && !isApproved && stage == StagePending
      ensures totals == SheetTotals(lines) && bills == []
    {
      this.name := name;
      this.header := header;
      this.lines := lines;
      isReviewed, isApproved, stage := false, false, StagePending;
      totals := SheetTotals(lines);
      bills := [];
    }

    /** `_compute_totals`, accumulating the line subtotals. */
    method ComputeTotals()
      modifies this`totals
      ensures totals == SheetTotals(lines)
    {
      var subtotal := 0.0;
      var i := 0;
      while i < |lines|
        invariant 0 <= i <= |lines|
        invariant subtotal == LinesSubtotal(lines[..i])
      {
        assert lines[..i + 1][..i] == lines[..i];
        subtotal := subtotal + LineSubtotal(lines[i]);
        i := i + 1;
      }
      assert lines[..|lines|] == lines;
      var tax := if subtotal != 0.0 then subtotal * 0.15 else 0.0;
      totals := Totals(subtotal, tax, subtotal + tax);
    }

    /** `action_review`: reviewed, from any stage; approval is untouched. */
    method ActionReview()
      modifies this`isReviewed, this`stage
      ensures isReviewed && stage == StageReviewed
    {
      isReviewed := true;
      stage := StageReviewed;
    }

    /** `action_approve`: approved, from any stage. */
    method ActionApprove()
      modifies this`isApproved, this`stage
      ensures isApproved && stage == StageApproved
    {
      isApproved := true;
      stage := StageApproved;
    }

    /**
     * `action_create_vendor_bill`: refuses an unapproved sheet, one without
     * vendor or without lines; opens the first draft bill when there is one;
     * otherwise builds one bill line per sheet line and records the new
     * draft bill.
     */
    method ActionCreateVendorBill(products: seq<Product>, expenseAccount: Option<int>, today: int, newBillId: int)
      returns (r: Result<BillAction, GrnError>)
      modifies this`bills
      ensures !isApproved ==> r == Err(NotApproved)
      ensures isApproved && header.partnerId.None? ==> r == Err(NoVendor)
      ensures isApproved && header.partnerId.Some? && lines == [] ==> r == Err(NoLines)
      ensures r.Ok? && r.value.OpenBill? ==> Some(r.value.billId) == FirstDraft(bills)
      ensures r.Ok? && r.value.CreatedBill? ==>
        && old(FirstDraft(bills)).None?
        && bills == old(bills) + [Bill(r.value.newId, BillDraft)]
        && r.value.newId == newBillId
        && r.value.vals.partnerId == header.partnerId.value
        && r.value.vals.invoiceDate == today
        && r.value.vals.invoiceOrigin == (if header.purchaseOrder.Some? then header.purchaseOrder.value.name else name)
        && r.value.vals.reference == (if Set(header.partnerRef) then header.partnerRef.value else name)
        && |r.value.vals.lines| == |lines|
        && forall i :: 0 <= i < |lines| ==> BillLine(lines[i], products, expenseAccount) == Some(r.value.vals.lines[i])
      ensures r == Err(NoExpenseAccount) ==>
        exists i :: 0 <= i < |lines| && BillLine(lines[i], products, expenseAccount).None?
      ensures isApproved && header.partnerId.Some? && lines != [] && FirstDraft(bills).None?
              ==> (r.Ok? <==> forall i :: 0 <= i < |lines| ==> BillLine(lines[i], products, expenseAccount).Some?)
      ensures isApproved && header.partnerId.Some? && lines != [] && old(FirstDraft(bills)).Some?
              ==> r == Ok(OpenBill(old(FirstDraft(bills)).value))
      ensures isApproved && header.partnerId.Some? && lines != [] && r.Err? ==> r == Err(NoExpenseAccount)
      ensures !(r.Ok? && r.value.CreatedBill?) ==> bills == old(bills)
    {
      if !isApproved {
        return Err(NotApproved);
      }
      if header.partnerId.None? {
        return Err(NoVendor);
      }
      if lines == [] {
        return Err(NoLines);
      }
      var existingDraft := FirstDraft(bills);
      if existingDraft.Some? {
        return Ok(OpenBill(existingDraft.value));
      }
      var built := BuildBillLines(lines, products, expenseAccount);
      if built.Err? {
        return Err(built.error);
      }
      var invoiceLines := built.value;
      var reference := if Set(header.partnerRef) then header.partnerRef.value else name;
      var origin := if header.purchaseOrder.Some? then header.purchaseOrder.value.name else name;
      var billVals := BillVals(header.partnerId.value, today, origin, reference, invoiceLines);
      bills := bills + [Bill(newBillId, BillDraft)];
      r := Ok(CreatedBill(newBillId, billVals));
    }
  }

  /**
   * Approving and then reviewing leaves a sheet whose report has a name and
   * whose report values are given, but which cannot be printed.
   */
  lemma ReviewAfterApproveBlocksPrint(name: string, id: int)
    ensures var isApproved, stage := true, StageReviewed;
            && ReportBaseFilename(isApproved, name).Some? && PrintGuard([stage]).Fail?
            && ReportValues([ReportDoc(id, isApproved)]) == Ok([id])
  {
    assert [StageReviewed][0] != StageApproved;
    var r := ReportValues([ReportDoc(id, true)]);
    assert r.Ok? && |r.value| == 1 && r.value[0] == id;
    assert r.value == [id];
  }

  // ---------------------------------------------------------------------
  // The GRN/SES wizard
  // ---------------------------------------------------------------------

  /** A custom line of the purchase order. */
  datatype CustomLine = CustomLine(name: Option<string>, quantity: real, unit: Option<string>, lineType: LineType,
                                   priceUnit: real)

  /** The lines of one type, in order. */
  function OfType(ls: seq<CustomLine>, t: LineType): (r: seq<CustomLine>)
    ensures |r| <= |ls|
    ensures forall i :: 0 <= i < |r| ==> r[i].lineType == t
  {
    if ls == [] then [] else (if ls[0].lineType == t then [ls[0]] else []) + OfType(ls[1..], t)
  }

  /** A line is among the lines of a type exactly when it is one of the lines and has that type. */
  lemma {:induction false} OfTypeMembers(ls: seq<CustomLine>, t: LineType, x: CustomLine)
    ensures x in OfType(ls, t) <==> x in ls && x.lineType == t
  {
    if ls != [] {
      OfTypeMembers(ls[1..], t, x);
      assert ls == [ls[0]] + ls[1..];
    }
  }

  /** Every line goes to exactly one of the two documents. */
  lemma {:induction false} SplitPartitions(ls: seq<CustomLine>)
    ensures |OfType(ls, Material)| + |OfType(ls, Service)| == |ls|
    ensures multiset(OfType(ls, Material)) + multiset(OfType(ls, Service)) == multiset(ls)
  {
    if ls != [] {
      SplitPartitions(ls[1..]);
      assert ls == [ls[0]] + ls[1..];
    }
  }

  /** The sheet line made from a custom line, with the wizard's remarks. */
  function SheetLine(l: CustomLine, remarks: Option<string>): GrnLine {
    GrnLine(l.name, l.quantity, l.unit, l.lineType, l.priceUnit, remarks)
  }

  datatype SheetVals = SheetVals(name: string, header: OrderHeader, lines: seq<GrnLine>)

  function SheetLines(ls: seq<CustomLine>, remarks: Option<string>): (r: seq<GrnLine>)
    ensures |r| == |ls| && forall i :: 0 <= i < |ls| ==> r[i] == SheetLine(ls[i], remarks)
  {
    if ls == [] then [] else [SheetLine(ls[0], remarks)] + SheetLines(ls[1..], remarks)
  }

  /** A sheet named `<kind><order name>` with the order's common values and the given lines. */
  function NamedSheet(kind: string, order: PurchaseOrder, ls: seq<CustomLine>, remarks: Option<string>): (r: SheetVals)
    ensures r.name == kind + order.name && r.header == CommonVals(order) && r.lines == SheetLines(ls, remarks)
    ensures r.lines != [] <==> ls != []
  {
    SheetVals(kind + order.name, CommonVals(order), SheetLines(ls, remarks))
  }

  /** The purchase order the wizard runs on. */
  datatype PurchaseOrder = PurchaseOrder(id: int, name: string, partnerId: Option<int>, partnerRef: Option<string>,
                                         project: Option<string>, origin: Option<string>, customLines: seq<CustomLine>)

  /** `common_vals`: what both sheets copy from the order. */
  function CommonVals(order: PurchaseOrder): (h: OrderHeader)
    ensures h.purchaseOrder == Some(OrderRef(order.id, order.name))
    ensures h.partnerId == order.partnerId && h.partnerRef == order.partnerRef
  {
    OrderHeader(order.partnerId, Some(OrderRef(order.id, order.name)), order.partnerRef, order.project, order.origin)
  }

  /** A sheet made by the wizard bills with the order's name as origin and the order's vendor reference, if any. */
  lemma WizardSheetBillHeader(order: PurchaseOrder, name: string)
    ensures var h := CommonVals(order);
            && (if h.purchaseOrder.Some? then h.purchaseOrder.value.name else name) == order.name
            && (if Set(h.partnerRef) then h.partnerRef.value else name)
               == (if Set(order.partnerRef) then order.partnerRef.value else name)
  {
  }

  /**
   * `action_create_grn_ses`: a "GRN for <order>" holding the material lines
   * and an "SES for <order>" holding the service lines, each only when it
   * would have lines, in that order.
   */
  method ActionCreateGrnSes(order: PurchaseOrder, remarks: Option<string>) returns (created: seq<SheetVals>)
    ensures var m, s := OfType(order.customLines, Material), OfType(order.customLines, Service);
            && |created| == (if m != [] then 1 else 0) + (if s != [] then 1 else 0)
            && (m != [] ==> created[0] == NamedSheet("GRN for ", order, m, remarks))
            && (s != [] ==> created[|created| - 1] == NamedSheet("SES for ", order, s, remarks))
    ensures forall i :: 0 <= i < |created| ==>
              created[i].lines != [] && created[i].header.purchaseOrder == Some(OrderRef(order.id, order.name))
  {
    var materialLines := OfType(order.customLines, Material);
    var serviceLines := OfType(order.customLines, Service);
    var grn := NamedSheet("GRN for ", order, materialLines, remarks);
    var ses := NamedSheet("SES for ", order, serviceLines, remarks);
    created := [];
    if materialLines != [] {
      created := created + [grn];
    }
    if serviceLines != [] {
      created := created + [ses];
    }
  }
}
