/**
 * Purchase requisitions (custom_user_portal/models/models.py): the required
 * date a priority implies, the PR number fallback, the approval sync with
 * the matching custom PR, the VAT totals, the button rules, the supervisor
 * test and the creation of the RFQ or purchase order from a PR's lines.
 * Dates are day numbers.
 */
module Requisition {
  import opened Common
  import opened Text

  datatype Approval = Pending | Rejected | Approved
  datatype PrType = PrStandard | Cash
  datatype Status = StatusPr | StatusRfq

  // ---------------------------------------------------------------------
  // Priority and required date
  // ---------------------------------------------------------------------

  /** The day offsets of `_required_date_from_priority`; a priority outside the table gets none. */
  function PriorityOffset(priority: string): (r: nat)
    ensures priority == "low" ==> r == 30
    ensures priority == "medium" ==> r == 10
    ensures priority == "high" ==> r == 3
    ensures priority == "urgent" ==> r == 0
    ensures priority !in {"low", "medium", "high", "urgent"} ==> r == 0
  {
    if priority == "low" then 30
    else if priority == "medium" then 10
    else if priority == "high" then 3
    else 0
  }

  /** `_required_date_from_priority`: today plus the priority's offset, so at most thirty days ahead. */
  function RequiredDate(today: int, priority: string): (r: int)
    ensures today <= r <= today + 30
    ensures r == today + PriorityOffset(priority)
  {
    today + PriorityOffset(priority)
  }

  /** A higher priority never asks for a later date. */
  lemma PriorityOrder(today: int)
    ensures RequiredDate(today, "urgent") < RequiredDate(today, "high") < RequiredDate(today, "medium")
            < RequiredDate(today, "low")
  {
  }

  /** A selection or text value is set when it holds a non-empty string. */
  predicate Set(s: Option<string>) {
    s.Some? && s.value != ""
  }

  /** `x or default` for a value `next_by_code` may leave unset. */
  function OrDefault(s: Option<string>, default: string): (r: string)
    ensures Set(s) ==> r == s.value
    ensures !Set(s) ==> r == default
  {
    if Set(s) then s.value else default
  }

  /** The PR number given to a record still named "New": the next sequence value, else the first number of its kind. */
  function PrNumber(prType: PrType, cashSeq: Option<string>, prSeq: Option<string>): (r: string)
    ensures prType == Cash ==> r == OrDefault(cashSeq, "CPR0001")
    ensures prType == PrStandard ==> r == OrDefault(prSeq, "PR0001")
  {
    if prType == Cash then OrDefault(cashSeq, "CPR0001") else OrDefault(prSeq, "PR0001")
  }

  // ---------------------------------------------------------------------
  // Lines and totals
  // ---------------------------------------------------------------------

  /** A requisition line; `product` is the name of its product. */
  datatype ReqLine = ReqLine(product: string, lineType: string, quantity: real, unit: string, unitPrice: real)

  /** `PurchaseRequisitionLine._compute_total`. */
  function LineTotal(l: ReqLine): real {
    l.quantity * l.unitPrice
  }

  datatype LineError = NegativeQuantity | NegativeUnitPrice

  /** `_check_non_negative_values`: the quantity is checked before the unit price. */
  function CheckNonNegativeValues(l: ReqLine): (r: Outcome<LineError>)
    ensures r == Pass <==> l.quantity >= 0.0 && l.unitPrice >= 0.0
    ensures r == Fail(NegativeQuantity) <==> l.quantity < 0.0
    ensures r == Fail(NegativeUnitPrice) <==> l.quantity >= 0.0 && l.unitPrice < 0.0
  {
    if l.quantity < 0.0 then Fail(NegativeQuantity)
    else if l.unitPrice < 0.0 then Fail(NegativeUnitPrice)
    else Pass
  }

  /** The sum of the line totals. */
  function LinesTotal(lines: seq<ReqLine>): real {
    if lines == [] then 0.0 else LinesTotal(lines[..|lines| - 1]) + LineTotal(lines[|lines| - 1])
  }

  /** Lines that pass the constraint give a non-negative total. */
  lemma {:induction false} LinesTotalNonNegative(lines: seq<ReqLine>)
    requires forall i :: 0 <= i < |lines| ==> CheckNonNegativeValues(lines[i]) == Pass
    ensures LinesTotal(lines) >= 0.0
  {
    if lines != [] {
      var n := |lines| - 1;
      assert forall k :: 0 <= k < n ==> lines[..n][k] == lines[k];
      LinesTotalNonNegative(lines[..n]);
      var l := lines[n];
      assert l.quantity >= 0.0 && l.unitPrice >= 0.0;
      assert LineTotal(l) >= 0.0;
    }
  }

  /** The three stored totals. */
  datatype Totals = Totals(totalExclVat: real, vatAmount: real, totalInclVat: real)

  /** `_compute_totals`: the line sum, 15% VAT on it, and the sum of the two. */
  function ComputeTotals(lines: seq<ReqLine>): (t: Totals)
    ensures t.totalExclVat == LinesTotal(lines)
    ensures t.vatAmount == t.totalExclVat * 0.15
    ensures t.totalInclVat == t.totalExclVat * 1.15
  {
    var total := LinesTotal(lines);
    Totals(total, total * 0.15, total + total * 0.15)
  }

  /** With lines that pass the constraint, every total is non-negative and VAT never exceeds the base. */
  lemma TotalsNonNegative(lines: seq<ReqLine>)
    requires forall i :: 0 <= i < |lines| ==> CheckNonNegativeValues(lines[i]) == Pass
    ensures var t := ComputeTotals(lines);
            0.0 <= t.vatAmount <= t.totalExclVat <= t.totalInclVat
  {
    LinesTotalNonNegative(lines);
  }

  // ---------------------------------------------------------------------
  // Buttons and supervisor
  // ---------------------------------------------------------------------

  /** `show_create_rfq_button`. */
  predicate ShowCreateRfqButton(prType: PrType, approval: Approval, status: Status) {
    prType != Cash && approval == Approved && status == StatusPr
  }

  /** `show_create_po_button`. */
  predicate ShowCreatePoButton(prType: PrType, approval: Approval, status: Status) {
    prType == Cash && approval == Approved && (status == StatusPr || status == StatusRfq)
  }

  /** At most one of the two buttons shows, and only an approved PR shows either. */
  lemma ButtonsExclusive(prType: PrType, approval: Approval, status: Status)
    ensures !(ShowCreateRfqButton(prType, approval, status) && ShowCreatePoButton(prType, approval, status))
    ensures ShowCreateRfqButton(prType, approval, status) || ShowCreatePoButton(prType, approval, status)
            ==> approval == Approved
    ensures approval == Approved ==>
              (ShowCreatePoButton(prType, approval, status) <==> prType == Cash)
              && (ShowCreateRfqButton(prType, approval, status) <==> prType == PrStandard && status == StatusPr)
  {
  }

  /** The supervisor id of `_compute_is_supervisor`: unset or unparsable ids become 0. */
  function SupervisorId(stored: Option<string>): (r: int)
    ensures !Set(stored) ==> r == 0
    ensures Set(stored) && ParseInt(stored.value).None? ==> r == 0
    ensures Set(stored) && ParseInt(stored.value).Some? ==> r == ParseInt(stored.value).value
  {
    if !Set(stored) then 0
    else
      var parsed := ParseInt(stored.value);
      if parsed.Some? then parsed.value else 0
  }

  /** `is_supervisor`: an approver, or the partner whose id is stored on the PR (0 for a user without partner). */
  function IsSupervisor(stored: Option<string>, hasApproverGroup: bool, currentPartnerId: int): bool {
    hasApproverGroup || SupervisorId(stored) == currentPartnerId
  }

  /** A stored decimal id names exactly its partner; an approver always qualifies. */
  lemma IsSupervisorOfStoredId(n: nat, hasApproverGroup: bool, currentPartnerId: int)
    ensures IsSupervisor(Some(NatToString(n)), hasApproverGroup, currentPartnerId)
            <==> hasApproverGroup || currentPartnerId == n
  {
    ParseNatToString(n);
  }

  // ---------------------------------------------------------------------
  // Approval sync with the custom PR
  // ---------------------------------------------------------------------

  /** The `custom.pr` record whose name matches the requisition's. */
  class CustomPr {
    var approval: Approval

    constructor (approval: Approval)
      ensures this.approval == approval
    {
      this.approval := approval;
    }
  }

  /** The values of a `create` or `write` call, as far as these rules read them. */
  datatype Vals = Vals(name: Option<string>, prType: Option<PrType>, priority: Option<string>, approval: Option<Approval>)

  /** An RFQ line copied from a PR line. */
  datatype CustomLine = CustomLine(name: string, quantity: real, lineType: string, unit: string, priceUnit: real)

  /** The copy of one PR line. */
  function CopyOf(l: ReqLine): CustomLine {
    CustomLine(l.product, l.quantity, l.lineType, l.unit, l.unitPrice)
  }

  /** `PurchaseOrderCustomLine._compute_subtotal`. */
  function CustomSubtotal(l: CustomLine): real {
    l.quantity * l.priceUnit
  }

  /** `_check_non_negative_subtotal_inputs`: the same order of checks as on PR lines. */
  function CheckCustomLine(l: CustomLine): (r: Outcome<LineError>)
    ensures r == Pass <==> l.quantity >= 0.0 && l.priceUnit >= 0.0
    ensures r == Fail(NegativeQuantity) <==> l.quantity < 0.0
    ensures r == Fail(NegativeUnitPrice) <==> l.quantity >= 0.0 && l.priceUnit < 0.0
  {
    if l.quantity < 0.0 then Fail(NegativeQuantity)
    else if l.priceUnit < 0.0 then Fail(NegativeUnitPrice)
    else Pass
  }

  /** A copied line meets the order line constraint exactly when its PR line met its own, with the same subtotal. */
  lemma CopyKeepsChecks(l: ReqLine)
    ensures CheckCustomLine(CopyOf(l)) == CheckNonNegativeValues(l)
    ensures CustomSubtotal(CopyOf(l)) == LineTotal(l)
  {
  }

  /** A project that can be matched on budget type and code. */
  datatype Project = Project(id: int, budgetType: Option<string>, budgetCode: Option<string>)

  /** `project.project` search on the PR's budget type and code, limit 1. */
  function MatchedProject(projects: seq<Project>, budgetType: Option<string>, budgetCode: Option<string>): (r: Option<int>)
    ensures r.None? <==> forall k :: 0 <= k < |projects| ==>
                           !(projects[k].budgetType == budgetType && projects[k].budgetCode == budgetCode)
    ensures r.Some? ==> exists i :: 0 <= i < |projects| && projects[i].id == r.value
                                     && projects[i].budgetType == budgetType && projects[i].budgetCode == budgetCode
                                     && forall k :: 0 <= k < i ==>
                                          !(projects[k].budgetType == budgetType && projects[k].budgetCode == budgetCode)
  {
    if projects == [] then None
    else if projects[0].budgetType == budgetType && projects[0].budgetCode == budgetCode then Some(projects[0].id)
    else
      var r := MatchedProject(projects[1..], budgetType, budgetCode);
      assert forall k :: 1 <= k < |projects| ==> projects[k] == projects[1..][k - 1];
      assert r.Some? ==> exists i :: 1 <= i < |projects| && projects[i].id == r.value
                                     && projects[i].budgetType == budgetType && projects[i].budgetCode == budgetCode
                                     && forall k :: 0 <= k < i ==>
                                          !(projects[k].budgetType == budgetType && projects[k].budgetCode == budgetCode) by {
        if r.Some? {
          var i :| 0 <= i < |projects[1..]| && projects[1..][i].id == r.value
                   && projects[1..][i].budgetType == budgetType && projects[1..][i].budgetCode == budgetCode
                   && forall k :: 0 <= k < i ==>
                        !(projects[1..][k].budgetType == budgetType && projects[1..][k].budgetCode == budgetCode);
          assert projects[i + 1] == projects[1..][i];
        }
      }
      r
  }

  /** The values of the purchase order created from a PR; `prName` is set for an RFQ only. */
  datatype OrderVals = OrderVals(origin: string, partnerId: Option<int>, prName: Option<string>,
                                 datePlanned: Option<int>, projectId: Option<int>, customLines: seq<CustomLine>,
                                 name: string, confirmed: bool)

  datatype PrError = NoLineItems

  /** A purchase requisition with the fields these rules read and write. */
  class PurchaseRequisition {
    var name: string
    const prType: PrType
    var priority: string
    var requiredDate: Option<int>
    var approval: Approval
    var status: Status
    const lines: seq<ReqLine>
    const vendorId: Option<int>
    const budgetType: Option<string>
    const budgetDetails: Option<string>
    /** `total_excl_vat`, `vat_amount` and `total_incl_vat`. */
    var totals: Totals

    /**
     * `create(vals)`: a priority in `vals` sets the required date; a record
     * left named "New" takes the next PR or cash PR number.
     */
    constructor (vals: Vals, today: int, lines: seq<ReqLine>, vendorId: Option<int>,
                 budgetType: Option<string>, budgetDetails: Option<string>,
                 cashSeq: Option<string>, prSeq: Option<string>)
      ensures var given := if vals.name.Some? then vals.name.value else "New";
              name == if given == "New" then PrNumber(prType, cashSeq, prSeq) else given
      ensures prType == (if vals.prType.Some? then vals.prType.value else PrStandard)
      ensures priority == (if vals.priority.Some? then vals.priority.value else "medium")
      ensures requiredDate == if Set(vals.priority) then Some(RequiredDate(today, vals.priority.value)) else None
      ensures approval == (if vals.approval.Some? then vals.approval.value else Pending)
      ensures status == StatusPr
      ensures this.lines == lines && totals == ComputeTotals(lines)
      ensures this.vendorId == vendorId && this.budgetType == budgetType && this.budgetDetails == budgetDetails
    {
      var requiredDate: Option<int> := None;
      if Set(vals.priority) {
        requiredDate := Some(RequiredDate(today, vals.priority.value));
      }
      name := if vals.name.Some? then vals.name.value else "New";
      prType := if vals.prType.Some? then vals.prType.value else PrStandard;
      priority := if vals.priority.Some? then vals.priority.value else "medium";
      this.requiredDate := requiredDate;
      approval := if vals.approval.Some? then vals.approval.value else Pending;
      status := StatusPr;
      this.lines := lines;
      this.vendorId := vendorId;
      this.budgetType := budgetType;
      this.budgetDetails := budgetDetails;
      totals := ComputeTotals(lines);
      new;
      if name == "New" {
        if prType == Cash {
          name := OrDefault(cashSeq, "CPR0001");
        } else {
          name := OrDefault(prSeq, "PR0001");
        }
      }
    }

    /**
     * `write(vals)`: a priority resets the required date; a written approval
     * is copied to the matching custom PR when it differs, and an approval
     * newly reaching "approved" asks for the procurement admins' notification.
     */
    method Write(vals: Vals, today: int, customPr: CustomPr?) returns (synced: bool, notify: bool)
      modifies this`priority, this`requiredDate, this`approval, customPr
      ensures priority == (if vals.priority.Some? then vals.priority.value else old(priority))
      ensures requiredDate == if Set(vals.priority) then Some(RequiredDate(today, vals.priority.value)) else old(requiredDate)
      ensures approval == (if vals.approval.Some? then vals.approval.value else old(approval))
      ensures synced <==> customPr != null && vals.approval.Some? && old(customPr.approval) != vals.approval.value
      ensures customPr != null ==>
                customPr.approval == (if vals.approval.Some? then vals.approval.value else old(customPr.approval))
      ensures notify <==> synced && vals.approval == Some(Approved)
    {
      if Set(vals.priority) {
        requiredDate := Some(RequiredDate(today, vals.priority.value));
      }
      if vals.priority.Some? {
        priority := vals.priority.value;
      }
      if vals.approval.Some? {
        approval := vals.approval.value;
      }
      synced, notify := false, false;
      if vals.approval.Some? && customPr != null {
        var newApproval := vals.approval.value;
        if newApproval == Approved && customPr.approval != Approved {
          customPr.approval := Approved;
          synced, notify := true, true;
        } else if newApproval == Rejected && customPr.approval != Rejected {
          customPr.approval := Rejected;
          synced := true;
        } else if newApproval == Pending && customPr.approval != Pending {
          customPr.approval := Pending;
          synced := true;
        }
      }
    }

    /** `_compute_totals`. */
    method ComputeTotalsField()
      modifies this`totals
      ensures totals == ComputeTotals(lines)
    {
      var total := 0.0;
      var i := 0;
      while i < |lines|
        invariant 0 <= i <= |lines|
        invariant total == LinesTotal(lines[..i])
      {
        assert lines[..i + 1][..i] == lines[..i];
        total := total + LineTotal(lines[i]);
        i := i + 1;
      }
      assert lines[..|lines|] == lines;
      totals := Totals(total, total * 0.15, total + total * 0.15);
    }

    /** The loop of `action_create_rfq` that fills `custom_line_ids`: one copy per PR line, in order. */
    static method CopyLines(lines: seq<ReqLine>) returns (custom: seq<CustomLine>)
      ensures |custom| == |lines|
      ensures forall i :: 0 <= i < |lines| ==>
        && custom[i].name == lines[i].product && custom[i].quantity == lines[i].quantity
        && custom[i].lineType == lines[i].lineType && custom[i].unit == lines[i].unit
        && custom[i].priceUnit == lines[i].unitPrice
    {
      custom := [];
      var i := 0;
      while i < |lines|
        invariant 0 <= i <= |lines|
        invariant |custom| == i
        invariant forall k :: 0 <= k < i ==> custom[k] == CopyOf(lines[k])
      {
        custom := custom + [CopyOf(lines[i])];
        i := i + 1;
      }
    }

    /**
     * `action_create_rfq`: refuses a PR without lines; otherwise the RFQ's
     * values (origin and PR name the PR number, the first matching project,
     * one custom line per PR line, the next RFQ number or "RFQ0001"), and
     * the PR's status becomes rfq.
     */
    method ActionCreateRfq(projects: seq<Project>, rfqSeq: Option<string>) returns (r: Result<OrderVals, PrError>)
      modifies this`status
      ensures lines == [] ==> r == Err(NoLineItems) && status == old(status)
      ensures lines != [] ==> r.Ok? && status == StatusRfq
      ensures r.Ok? ==>
        && r.value.origin == name && r.value.prName == Some(name)
        && r.value.partnerId == vendorId && r.value.datePlanned == requiredDate
        && r.value.projectId == MatchedProject(projects, budgetType, budgetDetails)
        && r.value.customLines == seq(|lines|, i requires 0 <= i < |lines| => CopyOf(lines[i]))
        && r.value.name == OrDefault(rfqSeq, "RFQ0001") && !r.value.confirmed
    {
      if lines == [] {
        return Err(NoLineItems);
      }
      var project := MatchedProject(projects, budgetType, budgetDetails);
      var custom := CopyLines(lines);
      r := Ok(OrderVals(name, vendorId, Some(name), requiredDate, project, custom, OrDefault(rfqSeq, "RFQ0001"), false));
      status := StatusRfq;
    }

    /**
     * `action_create_purchase_order`: the same guard and copy for a cash PR,
     * without the PR name, confirmed at once; the PR's status becomes rfq.
     * `poName` is the name the new order receives on creation.
     */
    method ActionCreatePurchaseOrder(projects: seq<Project>, poName: string) returns (r: Result<OrderVals, PrError>)
      modifies this`status
      ensures lines == [] ==> r == Err(NoLineItems) && status == old(status)
      ensures lines != [] ==> r.Ok? && status == StatusRfq
      ensures r.Ok? ==>
        && r.value.origin == name && r.value.prName.None?
        && r.value.partnerId == vendorId && r.value.datePlanned == requiredDate
        && r.value.projectId == MatchedProject(projects, budgetType, budgetDetails)
        && r.value.customLines == seq(|lines|, i requires 0 <= i < |lines| => CopyOf(lines[i]))
        && r.value.name == poName && r.value.confirmed
    {
      if lines == [] {
        return Err(NoLineItems);
      }
      var project := MatchedProject(projects, budgetType, budgetDetails);
      var custom := CopyLines(lines);
      r := Ok(OrderVals(name, vendorId, None, requiredDate, project, custom, poName, true));
      status := StatusRfq;
    }
  }
}
