/**
 * Construction estimations (petroraq_sale_workflow/models/estimation.py):
 * the five-state approval workflow, the section totals with their
 * overhead / risk / profit cascade, line subtotals in hours or quantity,
 * and the rules that keep a line's four section back-references in step
 * with its estimation and section type.
 */
module Estimation {
  import opened Common

  datatype ApprovalState = Draft | ToManager | ToMd | Approved | Rejected

  datatype Section = Material | Labor | Equipment | Subcontract

  /** The order in which the sections' reference fields are examined. */
  const SectionOrder: seq<Section> := [Material, Labor, Equipment, Subcontract]

  datatype EstimationError =
    | NoLines              // "Please add at least one estimation line."
    | NotAwaitingManager   // "This estimation is not awaiting manager approval."
    | NotAwaitingMd        // "This estimation is not awaiting MD approval."
    | NotWaiting           // "Only waiting approvals can be rejected."
    | NegativePercent      // "Percentage cannot be negative."
    | PercentOver100       // "Percentage cannot exceed 100%."
    | NotApproved          // "You can only create a quotation after final approval."
    | NoCustomer           // "Please set a customer before creating a quotation."
    | MultipleSections     // "Only one section reference can be set per estimation line."

  /**
   * An estimation line's stored fields. Record ids are positive integers;
   * `None` is an empty relation (`False`).
   */
  datatype Line = Line(
    estimationId: Option<int>,
    sectionType: Option<Section>,
    materialRef: Option<int>,
    laborRef: Option<int>,
    equipmentRef: Option<int>,
    subcontractRef: Option<int>,
    resourceCount: real,
    days: real,
    hoursPerDay: real,
    quantity: real,
    unitCost: real)

  // ---------------------------------------------------------------------
  // Line quantities and subtotals (non-stored computed fields)
  // ---------------------------------------------------------------------

  /** Labor and equipment are costed in hours. */
  predicate IsHourly(s: Option<Section>) {
    s == Some(Labor) || s == Some(Equipment)
  }

  /** `_compute_quantity_hours`. */
  function QuantityHours(l: Line): (h: real)
    ensures !IsHourly(l.sectionType) ==> h == 0.0
  {
    if IsHourly(l.sectionType) then l.resourceCount * l.days * l.hoursPerDay else 0.0
  }

  /** `_compute_subtotal`: hours or quantity, times the unit cost. */
  function Subtotal(l: Line): (r: real)
    ensures IsHourly(l.sectionType) ==> r == l.resourceCount * l.days * l.hoursPerDay * l.unitCost
    ensures !IsHourly(l.sectionType) ==> r == l.quantity * l.unitCost
  {
    (if IsHourly(l.sectionType) then QuantityHours(l) else l.quantity) * l.unitCost
  }

  /** `sum(lines.mapped("subtotal"))`. */
  function SectionTotal(lines: seq<Line>): real {
    if lines == [] then 0.0 else SectionTotal(lines[..|lines| - 1]) + Subtotal(lines[|lines| - 1])
  }

  /** A section's total is additive over a split of its lines. */
  lemma {:induction false} SectionTotalAppend(a: seq<Line>, b: seq<Line>)
    ensures SectionTotal(a + b) == SectionTotal(a) + SectionTotal(b)
  {
    if b == [] {
      assert a + b == a;
    } else {
      assert (a + b)[..|a + b| - 1] == a + b[..|b| - 1];
      assert (a + b)[|a + b| - 1] == b[|b| - 1];
      SectionTotalAppend(a, b[..|b| - 1]);
    }
  }

  predicate NonNegativeInputs(l: Line) {
    l.resourceCount >= 0.0 && l.days >= 0.0 && l.hoursPerDay >= 0.0 && l.quantity >= 0.0 && l.unitCost >= 0.0
  }

  lemma SubtotalNonNegative(l: Line)
    requires NonNegativeInputs(l)
    ensures Subtotal(l) >= 0.0
  {
    var h := l.resourceCount * l.days;
    assert h >= 0.0;
    assert h * l.hoursPerDay >= 0.0;
    assert QuantityHours(l) >= 0.0;
  }

  /** Lines with non-negative counts, days, hours, quantities and costs total at least zero. */
  lemma {:induction false} SectionTotalNonNegative(lines: seq<Line>)
    requires forall i :: 0 <= i < |lines| ==> NonNegativeInputs(lines[i])
    ensures SectionTotal(lines) >= 0.0
  {
    if lines != [] {
      SectionTotalNonNegative(lines[..|lines| - 1]);
      SubtotalNonNegative(lines[|lines| - 1]);
    }
  }

  // ---------------------------------------------------------------------
  // The totals cascade
  // ---------------------------------------------------------------------

  /** The amounts `_compute_totals` derives from the base total and the three percents. */
  datatype Cascade = Cascade(
    overheadAmount: real, riskAmount: real, bufferTotal: real, profitAmount: real, totalWithProfit: real)

  /** `x * pct / 100`: a percentage of an amount. */
  function PercentOf(x: real, pct: real): real {
    x * pct / 100.0
  }

  function ComputeCascade(base: real, overhead: real, risk: real, profit: real): Cascade {
    var o := PercentOf(base, overhead);
    var r := PercentOf(base, risk);
    var buffer := base + o + r;
    var p := PercentOf(buffer, profit);
    Cascade(o, r, buffer, p, buffer + p)
  }

  /** The cascade in closed form: overhead and risk on the base, then profit on top. */
  lemma CascadeClosedForm(base: real, overhead: real, risk: real, profit: real)
    ensures var c := ComputeCascade(base, overhead, risk, profit);
            && c.bufferTotal == base * (1.0 + (overhead + risk) / 100.0)
            && c.totalWithProfit == base * (1.0 + (overhead + risk) / 100.0) * (1.0 + profit / 100.0)
  {
    var c := ComputeCascade(base, overhead, risk, profit);
    var f := 1.0 + (overhead + risk) / 100.0;
    assert c.bufferTotal == base * f;
    assert c.totalWithProfit == c.bufferTotal * (1.0 + profit / 100.0);
  }

  /** The computed amount fields of an estimation. */
  datatype Totals = Totals(
    materialTotal: real, laborTotal: real, equipmentTotal: real, subcontractTotal: real,
    totalAmount: real, cascade: Cascade)

  /**
   * The amounts `_compute_totals` assigns: each section's subtotals summed,
   * the four sums added, and the cascade applied to that base.
   */
  function ComputeEstimationTotals(material: seq<Line>, labor: seq<Line>, equipment: seq<Line>, subcontract: seq<Line>,
                                   overhead: real, risk: real, profit: real): (t: Totals)
    ensures t.totalAmount == t.materialTotal + t.laborTotal + t.equipmentTotal + t.subcontractTotal
    ensures t.materialTotal == SectionTotal(material) && t.laborTotal == SectionTotal(labor)
    ensures t.equipmentTotal == SectionTotal(equipment) && t.subcontractTotal == SectionTotal(subcontract)
    ensures t.cascade == ComputeCascade(t.totalAmount, overhead, risk, profit)
  {
    var base := SectionTotal(material) + SectionTotal(labor) + SectionTotal(equipment) + SectionTotal(subcontract);
    Totals(SectionTotal(material), SectionTotal(labor), SectionTotal(equipment), SectionTotal(subcontract),
           base, ComputeCascade(base, overhead, risk, profit))
  }

  predicate PercentInRange(v: real) {
    0.0 <= v <= 100.0
  }

  lemma ScaleBounds(x: real, pct: real)
    requires x >= 0.0 && PercentInRange(pct)
    ensures 0.0 <= PercentOf(x, pct) <= x
  {
    assert x * pct <= x * 100.0;
  }

  /**
   * With percents the constraint accepts and a non-negative base, each step
   * of the cascade only adds: base <= buffer <= 3 * base and
   * buffer <= total with profit <= 2 * buffer.
   */
  lemma CascadeBounds(base: real, overhead: real, risk: real, profit: real)
    requires base >= 0.0 && PercentInRange(overhead) && PercentInRange(risk) && PercentInRange(profit)
    ensures var c := ComputeCascade(base, overhead, risk, profit);
            && base <= c.bufferTotal <= 3.0 * base
            && c.bufferTotal <= c.totalWithProfit <= 2.0 * c.bufferTotal
  {
    ScaleBounds(base, overhead);
    ScaleBounds(base, risk);
    ScaleBounds(base + PercentOf(base, overhead) + PercentOf(base, risk), profit);
  }

  // ---------------------------------------------------------------------
  // Percentage constraint
  // ---------------------------------------------------------------------

  function CheckPercent(v: real): (r: Outcome<EstimationError>)
    ensures r.Pass? <==> PercentInRange(v)
    ensures r.Fail? ==> (r.error == NegativePercent <==> v < 0.0)
    ensures v < 0.0 ==> r == Fail(NegativePercent)
    ensures v > 100.0 ==> r == Fail(PercentOver100)
  {
    if v < 0.0 then Fail(NegativePercent) else if v > 100.0 then Fail(PercentOver100) else Pass
  }

  /**
   * `_check_percentages`: overhead, risk and profit are examined in that
   * order; the first one outside [0, 100] raises, a negative value with the
   * "negative" message.
   */
  function CheckPercentages(overhead: real, risk: real, profit: real): (r: Outcome<EstimationError>)
    ensures r.Pass? <==> PercentInRange(overhead) && PercentInRange(risk) && PercentInRange(profit)
    ensures r.Fail? ==> r.error in {NegativePercent, PercentOver100}
    ensures !PercentInRange(overhead) ==> r == CheckPercent(overhead)
    ensures PercentInRange(overhead) && !PercentInRange(risk) ==> r == CheckPercent(risk)
    ensures PercentInRange(overhead) && PercentInRange(risk) ==> r == CheckPercent(profit)
  {
    if CheckPercent(overhead).Fail? then CheckPercent(overhead)
    else if CheckPercent(risk).Fail? then CheckPercent(risk)
    else CheckPercent(profit)
  }

  // ---------------------------------------------------------------------
  // The approval workflow as a transition function
  // ---------------------------------------------------------------------

  datatype Action = Confirm | ManagerApprove | MdApprove | Reject | ResetToDraft

  /**
   * One workflow button on one estimation: the new state, or the error it
   * raises (which leaves the state as it was). `hasLines` says whether any
   * of the four section line lists is non-empty.
   */
  function Step(a: Action, s: ApprovalState, hasLines: bool): Result<ApprovalState, EstimationError> {
    match a
    case Confirm => if hasLines then Ok(ToManager) else Err(NoLines)
    case ManagerApprove => if s == ToManager then Ok(ToMd) else Err(NotAwaitingManager)
    case MdApprove => if s == ToMd then Ok(Approved) else Err(NotAwaitingMd)
    case Reject => if s in {Draft, ToManager, ToMd} then Ok(Rejected) else Err(NotWaiting)
    case ResetToDraft => Ok(if s == Rejected then Draft else s)
  }

  /** The state after a sequence of button presses; a press that raises changes nothing. */
  function Run(s: ApprovalState, actions: seq<Action>, hasLines: bool): ApprovalState
    decreases |actions|
  {
    if actions == [] then s
    else
      var r := Step(actions[0], s, hasLines);
      Run(if r.Ok? then r.value else s, actions[1..], hasLines)
  }

  /** The only way into MD approval is a manager approval from manager approval. */
  lemma IntoToMd(a: Action, s: ApprovalState, hasLines: bool)
    requires s != ToMd
    requires Step(a, s, hasLines) == Ok(ToMd)
    ensures a == ManagerApprove && s == ToManager
  {
  }

  /**
   * An estimation that ends approved without starting approved went through
   * a manager approval and, after it, an MD approval.
   */
  lemma {:induction false} ApprovedNeedsBothApprovals(s: ApprovalState, actions: seq<Action>, hasLines: bool)
    requires s != Approved && Run(s, actions, hasLines) == Approved
    ensures s == ToMd ==> MdApprove in actions
    ensures s != ToMd ==> exists i, j :: 0 <= i < j < |actions| && actions[i] == ManagerApprove && actions[j] == MdApprove
    decreases |actions|
  {
    var r := Step(actions[0], s, hasLines);
    var next := if r.Ok? then r.value else s;
    var rest := actions[1..];
    assert actions == [actions[0]] + rest;
    if next == Approved {
      assert actions[0] == MdApprove && s == ToMd;
    } else if next == ToMd && s != ToMd {
      IntoToMd(actions[0], s, hasLines);
      ApprovedNeedsBothApprovals(next, rest, hasLines);
      var j :| 0 <= j < |rest| && rest[j] == MdApprove;
      assert actions[1 + j] == MdApprove;
    } else {
      ApprovedNeedsBothApprovals(next, rest, hasLines);
      if s == ToMd {
        if next == ToMd {
          assert MdApprove in rest;
        } else {
          var i, j :| 0 <= i < j < |rest| && rest[i] == ManagerApprove && rest[j] == MdApprove;
          assert actions[1 + j] == MdApprove;
        }
      } else {
        var i, j :| 0 <= i < j < |rest| && rest[i] == ManagerApprove && rest[j] == MdApprove;
        assert actions[1 + i] == ManagerApprove && actions[1 + j] == MdApprove;
      }
    }
  }

  /** `_compute_show_reject_button`. */
  function ShowRejectButton(s: ApprovalState, isApprovalManager: bool, isApprovalMd: bool): (show: bool)
    ensures show ==> Step(Reject, s, true).Ok?
    ensures show <==> (s == ToManager && isApprovalManager) || (s == ToMd && isApprovalMd)
  {
    (s == ToManager && isApprovalManager) || (s == ToMd && isApprovalMd)
  }

  /** `create`: a name left as "New" takes the next sequence value, or stays "New". */
  function NameOnCreate(name: Option<string>, sequenceValue: Option<string>): (r: string)
    ensures name.Some? && name.value != "New" ==> r == name.value
    ensures (name.None? || name.value == "New") ==> r == (if sequenceValue.Some? then sequenceValue.value else "New")
  {
    match name
    case Some(n) => if n != "New" then n else (if sequenceValue.Some? then sequenceValue.value else "New")
    case None => if sequenceValue.Some? then sequenceValue.value else "New"
  }

  // ---------------------------------------------------------------------
  // Section back-references of a line
  // ---------------------------------------------------------------------

  /** The back-reference field of a section. */
  function Ref(l: Line, s: Section): Option<int> {
    match s
    case Material => l.materialRef
    case Labor => l.laborRef
    case Equipment => l.equipmentRef
    case Subcontract => l.subcontractRef
  }

  function CountRefs(l: Line): nat {
    (if l.materialRef.Some? then 1 else 0) + (if l.laborRef.Some? then 1 else 0)
    + (if l.equipmentRef.Some? then 1 else 0) + (if l.subcontractRef.Some? then 1 else 0)
  }

  /** `_compute_section_estimation_ids`: only the line's own section points back at its estimation. */
  function ComputeSectionRefs(l: Line): (r: Line)
    ensures forall s :: Ref(r, s) == (if l.sectionType == Some(s) then l.estimationId else None)
    ensures r.estimationId == l.estimationId && r.sectionType == l.sectionType
    ensures CountRefs(r) <= 1
  {
    l.(materialRef := if l.sectionType == Some(Material) then l.estimationId else None,
       laborRef := if l.sectionType == Some(Labor) then l.estimationId else None,
       equipmentRef := if l.sectionType == Some(Equipment) then l.estimationId else None,
       subcontractRef := if l.sectionType == Some(Subcontract) then l.estimationId else None)
  }

  /**
   * `_inverse_section_estimation_ids`: the first set reference, in section
   * order, gives the line its estimation and section; none set changes nothing.
   */
  function InverseSectionRefs(l: Line): (r: Line)
    ensures CountRefs(l) == 0 ==> r == l
    ensures forall s :: Ref(r, s) == Ref(l, s)
    ensures r.(estimationId := l.estimationId, sectionType := l.sectionType) == l
    ensures forall i :: 0 <= i < 4 && Ref(l, SectionOrder[i]).Some?
                        && (forall j :: 0 <= j < i ==> Ref(l, SectionOrder[j]).None?) ==>
              r.estimationId == Ref(l, SectionOrder[i]) && r.sectionType == Some(SectionOrder[i])
  {
    assert SectionOrder[0] == Material && SectionOrder[1] == Labor;
    assert SectionOrder[2] == Equipment && SectionOrder[3] == Subcontract;
    if l.materialRef.Some? then l.(estimationId := l.materialRef, sectionType := Some(Material))
    else if l.laborRef.Some? then l.(estimationId := l.laborRef, sectionType := Some(Labor))
    else if l.equipmentRef.Some? then l.(estimationId := l.equipmentRef, sectionType := Some(Equipment))
    else if l.subcontractRef.Some? then l.(estimationId := l.subcontractRef, sectionType := Some(Subcontract))
    else l
  }

  /** `_check_single_section`. */
  function CheckSingleSection(l: Line): (r: Outcome<EstimationError>)
    ensures r.Pass? <==> CountRefs(l) <= 1
    ensures r.Fail? ==> r.error == MultipleSections
  {
    if CountRefs(l) > 1 then Fail(MultipleSections) else Pass
  }

  /** Computed references always satisfy the single-section constraint. */
  lemma ComputedRefsPassCheck(l: Line)
    ensures CheckSingleSection(ComputeSectionRefs(l)) == Pass
  {
  }

  /**
   * Writing one back-reference and recomputing gives the same one back:
   * the inverse followed by the compute is the identity on the references
   * of a line that has exactly one set.
   */
  lemma {:induction false} InverseThenCompute(l: Line)
    requires CountRefs(l) == 1
    ensures forall s :: Ref(ComputeSectionRefs(InverseSectionRefs(l)), s) == Ref(l, s)
  {
    var r := InverseSectionRefs(l);
    forall s ensures Ref(ComputeSectionRefs(r), s) == Ref(l, s) {
      if l.materialRef.Some? {
        assert r.sectionType == Some(Material);
      } else if l.laborRef.Some? {
        assert r.sectionType == Some(Labor);
      } else if l.equipmentRef.Some? {
        assert r.sectionType == Some(Equipment);
      } else {
        assert r.sectionType == Some(Subcontract);
      }
    }
  }

  /** The compute followed by the inverse keeps the line's estimation and section. */
  lemma ComputeThenInverse(l: Line)
    requires l.estimationId.Some? && l.sectionType.Some?
    ensures var r := InverseSectionRefs(ComputeSectionRefs(l));
            r.estimationId == l.estimationId && r.sectionType == l.sectionType
  {
  }

  // ---------------------------------------------------------------------
  // `_prepare_section_vals`: the values dict of a line create or write
  // ---------------------------------------------------------------------

  /** A key of a values dict: absent, or present with a value (`None` for `False`). */
  datatype Slot<T> = Absent | Present(v: Option<T>)

  predicate Truthy<T>(s: Slot<T>) {
    s.Present? && s.v.Some?
  }

  datatype LineVals = LineVals(
    estimationId: Slot<int>,
    sectionType: Slot<Section>,
    materialRef: Slot<int>,
    laborRef: Slot<int>,
    equipmentRef: Slot<int>,
    subcontractRef: Slot<int>)

  function RefSlot(v: LineVals, s: Section): Slot<int> {
    match s
    case Material => v.materialRef
    case Labor => v.laborRef
    case Equipment => v.equipmentRef
    case Subcontract => v.subcontractRef
  }

  function WithRefSlot(v: LineVals, s: Section, x: Slot<int>): (r: LineVals)
    ensures RefSlot(r, s) == x
    ensures forall t :: t != s ==> RefSlot(r, t) == RefSlot(v, t)
    ensures r.estimationId == v.estimationId && r.sectionType == v.sectionType
  {
    match s
    case Material => v.(materialRef := x)
    case Labor => v.(laborRef := x)
    case Equipment => v.(equipmentRef := x)
    case Subcontract => v.(subcontractRef := x)
  }

  /** `vals.setdefault(field, False)`. */
  function SetDefaultFalse(v: LineVals, s: Section): (r: LineVals)
    ensures RefSlot(r, s) == (if RefSlot(v, s).Absent? then Present(None) else RefSlot(v, s))
    ensures forall t :: t != s ==> RefSlot(r, t) == RefSlot(v, t)
    ensures r.estimationId == v.estimationId && r.sectionType == v.sectionType
  {
    if RefSlot(v, s).Absent? then WithRefSlot(v, s, Present(None)) else v
  }

  /** The first section, in section order, whose reference the dict sets truthily. */
  function FirstSetSection(v: LineVals): (r: Option<Section>)
    ensures r.Some? ==> Truthy(RefSlot(v, r.value))
    ensures r.None? ==> forall s :: !Truthy(RefSlot(v, s))
  {
    if Truthy(v.materialRef) then Some(Material)
    else if Truthy(v.laborRef) then Some(Labor)
    else if Truthy(v.equipmentRef) then Some(Equipment)
    else if Truthy(v.subcontractRef) then Some(Subcontract)
    else None
  }

  lemma FirstSetSectionBefore(v: LineVals, i: nat)
    requires i < 4
    requires forall j :: 0 <= j < i ==> !Truthy(RefSlot(v, SectionOrder[j]))
    requires Truthy(RefSlot(v, SectionOrder[i]))
    ensures FirstSetSection(v) == Some(SectionOrder[i])
  {
    assert SectionOrder[0] == Material && SectionOrder[1] == Labor;
    assert SectionOrder[2] == Equipment && SectionOrder[3] == Subcontract;
  }

  /** Every section has its place in the section order. */
  lemma SectionIndex(t: Section) returns (j: nat)
    ensures j < 4 && SectionOrder[j] == t
  {
    match t
    case Material => j := 0;
    case Labor => j := 1;
    case Equipment => j := 2;
    case Subcontract => j := 3;
  }

  /** The inner loop of `_prepare_section_vals`: every other reference the dict leaves out becomes `False`. */
  method DefaultOtherRefs(v: LineVals, section: Section) returns (out: LineVals)
    ensures out.estimationId == v.estimationId && out.sectionType == v.sectionType
    ensures RefSlot(out, section) == RefSlot(v, section)
    ensures forall t :: t != section ==>
              RefSlot(out, t) == (if RefSlot(v, t).Absent? then Present(None) else RefSlot(v, t))
  {
    out := v;
    var k := 0;
    while k < 4
      invariant 0 <= k <= 4
      invariant out.estimationId == v.estimationId && out.sectionType == v.sectionType
      invariant RefSlot(out, section) == RefSlot(v, section)
      invariant forall j :: 0 <= j < k && SectionOrder[j] != section ==>
        RefSlot(out, SectionOrder[j]) == (if RefSlot(v, SectionOrder[j]).Absent? then Present(None) else RefSlot(v, SectionOrder[j]))
      invariant forall j :: k <= j < 4 ==> RefSlot(out, SectionOrder[j]) == RefSlot(v, SectionOrder[j])
    {
      if SectionOrder[k] != section {
        out := SetDefaultFalse(out, SectionOrder[k]);
      }
      k := k + 1;
    }
    forall t | t != section
      ensures RefSlot(out, t) == (if RefSlot(v, t).Absent? then Present(None) else RefSlot(v, t))
    {
      var j := SectionIndex(t);
    }
  }

  /**
   * `_prepare_section_vals(vals)`. `contextDefault` is the context's
   * `default_section_type`; `recordSection` and `recordEstimation` are the
   * line's current section and estimation (`None` on create, where the
   * method runs on an empty recordset).
   *
   * If the dict sets a back-reference, the first one in section order
   * decides the estimation and the section, and every other reference the
   * dict leaves out is defaulted to `False`. Otherwise the section is the
   * dict's, the context's or the record's, and the matching reference is
   * filled in from the estimation.
   */
  method PrepareSectionVals(vals: LineVals, contextDefault: Option<Section>,
                            recordSection: Option<Section>, recordEstimation: Option<int>)
    returns (out: LineVals)
    ensures FirstSetSection(vals).Some? ==>
      var s := FirstSetSection(vals).value;
      && out.estimationId == Present(RefSlot(vals, s).v)
      && out.sectionType == Present(Some(s))
      && RefSlot(out, s) == RefSlot(vals, s)
      && forall t :: t != s ==> RefSlot(out, t) == (if RefSlot(vals, t).Absent? then Present(None) else RefSlot(vals, t))
    ensures FirstSetSection(vals).None? ==>
      var st := if Truthy(vals.sectionType) then vals.sectionType.v
                else if contextDefault.Some? then contextDefault else recordSection;
      var est := if Truthy(vals.estimationId) then vals.estimationId.v else recordEstimation;
      && out.estimationId == vals.estimationId
      && out.sectionType == (if st.Some? then Present(st) else vals.sectionType)
      && forall t :: RefSlot(out, t) == (if st == Some(t) && est.Some? then Present(est) else RefSlot(vals, t))
  {
    var sectionType := if Truthy(vals.sectionType) then vals.sectionType.v
                       else if contextDefault.Some? then contextDefault else recordSection;
    var estimationId := if Truthy(vals.estimationId) then vals.estimationId.v else recordEstimation;
    out := vals;
    var i := 0;
    while i < 4
      invariant 0 <= i <= 4
      invariant out == vals
      invariant forall j :: 0 <= j < i ==> !Truthy(RefSlot(vals, SectionOrder[j]))
    {
      var section := SectionOrder[i];
      if Truthy(RefSlot(out, section)) {
        FirstSetSectionBefore(vals, i);
        var chosen := vals.(estimationId := Present(RefSlot(vals, section).v), sectionType := Present(Some(section)));
        assert forall t :: RefSlot(chosen, t) == RefSlot(vals, t);
        out := DefaultOtherRefs(chosen, section);
        return;
      }
      i := i + 1;
    }
    assert SectionOrder[0] == Material && SectionOrder[1] == Labor;
    assert SectionOrder[2] == Equipment && SectionOrder[3] == Subcontract;
    assert FirstSetSection(vals).None?;
    out := FillSection(vals, sectionType, estimationId);
  }

  /** The fallback of `_prepare_section_vals`: set the section, then its reference when the dict has none. */
  method FillSection(vals: LineVals, sectionType: Option<Section>, estimationId: Option<int>) returns (out: LineVals)
    requires forall t :: !Truthy(RefSlot(vals, t))
    ensures out.estimationId == vals.estimationId
    ensures out.sectionType == (if sectionType.Some? then Present(sectionType) else vals.sectionType)
    ensures forall t :: RefSlot(out, t)
                        == (if sectionType == Some(t) && estimationId.Some? then Present(estimationId) else RefSlot(vals, t))
  {
    out := vals;
    if sectionType.Some? {
      out := out.(sectionType := Present(sectionType));
      assert forall t :: RefSlot(out, t) == RefSlot(vals, t);
    }
    if sectionType.Some? && estimationId.Some? && !Truthy(RefSlot(out, sectionType.value)) {
      out := WithRefSlot(out, sectionType.value, Present(estimationId));
    }
  }

  // ---------------------------------------------------------------------
  // The estimation record
  // ---------------------------------------------------------------------

  /** How `action_create_sale_order` answers. */
  datatype SaleOrderAction =
    | OpenExisting(orderId: int)
    | CreateOrder(vals: OrderVals)

  /** The values of the quotation the estimation creates. */
  datatype OrderVals = OrderVals(
    partnerId: int, companyId: int, inquiryType: string, paymentTermId: Option<int>, orderInquiryId: Option<int>)

  class PetroraqEstimation {
    var approvalState: ApprovalState
    var approvalComment: Option<string>
    var partnerId: Option<int>
    var partnerCompanyId: Option<int>
    var companyId: int
    var orderInquiryId: Option<int>
    var saleOrderId: Option<int>
    var materialLines: seq<Line>
    var laborLines: seq<Line>
    var equipmentLines: seq<Line>
    var subcontractLines: seq<Line>
    var overheadPercent: real
    var riskPercent: real
    var profitPercent: real
    /** The ten computed amount fields, written together by `ComputeTotals`. */
    var totals: Totals

    /** A new estimation: draft, no lines, zero percents. */
    constructor (partnerId: Option<int>, companyId: int)
      ensures this.approvalState == Draft && this.approvalComment == None
      ensures this.partnerId == partnerId && this.companyId == companyId && this.saleOrderId == None
      ensures !HasLines()
      ensures this.overheadPercent == 0.0 && this.riskPercent == 0.0 && this.profitPercent == 0.0
    {
      this.approvalState := Draft;
      this.approvalComment := None;
      this.partnerId := partnerId;
      this.partnerCompanyId := None;
      this.companyId := companyId;
      this.orderInquiryId := None;
      this.saleOrderId := None;
      this.materialLines, this.laborLines, this.equipmentLines, this.subcontractLines := [], [], [], [];
      this.overheadPercent, this.riskPercent, this.profitPercent := 0.0, 0.0, 0.0;
    }

    predicate HasLines()
      reads this
    {
      materialLines != [] || laborLines != [] || equipmentLines != [] || subcontractLines != []
    }

    /** `action_confirm_estimation`: from any state, provided some section has a line. */
    method ConfirmEstimation() returns (r: Outcome<EstimationError>)
      modifies this`approvalState, this`approvalComment
      ensures r.Pass? <==> HasLines()
      ensures r.Pass? ==> approvalState == ToManager && approvalComment == None
      ensures r.Fail? ==> r.error == NoLines && approvalState == old(approvalState) && approvalComment == old(approvalComment)
      ensures Step(Confirm, old(approvalState), HasLines()) == (if r.Pass? then Ok(approvalState) else Err(NoLines))
    {
      if !HasLines() {
        return Fail(NoLines);
      }
      approvalState := ToManager;
      approvalComment := None;
      r := Pass;
    }

    /** `action_manager_approve`. */
    method ManagerApprove() returns (r: Outcome<EstimationError>)
      modifies this`approvalState
      ensures r.Pass? <==> old(approvalState) == ToManager
      ensures r.Pass? ==> approvalState == ToMd
      ensures r.Fail? ==> r.error == NotAwaitingManager && approvalState == old(approvalState)
      ensures Step(Action.ManagerApprove, old(approvalState), HasLines()) == (if r.Pass? then Ok(approvalState) else Err(r.error))
    {
      if approvalState != ToManager {
        return Fail(NotAwaitingManager);
      }
      approvalState := ToMd;
      r := Pass;
    }

    /** `action_md_approve`. */
    method MdApprove() returns (r: Outcome<EstimationError>)
      modifies this`approvalState
      ensures r.Pass? <==> old(approvalState) == ToMd
      ensures r.Pass? ==> approvalState == Approved
      ensures r.Fail? ==> r.error == NotAwaitingMd && approvalState == old(approvalState)
      ensures Step(Action.MdApprove, old(approvalState), HasLines()) == (if r.Pass? then Ok(approvalState) else Err(r.error))
    {
      if approvalState != ToMd {
        return Fail(NotAwaitingMd);
      }
      approvalState := Approved;
      r := Pass;
    }

    /** `action_reject`: from draft or either waiting state. */
    method Reject() returns (r: Outcome<EstimationError>)
      modifies this`approvalState
      ensures r.Pass? <==> old(approvalState) in {Draft, ToManager, ToMd}
      ensures r.Pass? ==> approvalState == Rejected
      ensures r.Fail? ==> r.error == NotWaiting && approvalState == old(approvalState)
      ensures Step(Action.Reject, old(approvalState), HasLines()) == (if r.Pass? then Ok(approvalState) else Err(r.error))
    {
      if approvalState !in {ToManager, ToMd, Draft} {
        return Fail(NotWaiting);
      }
      approvalState := Rejected;
      r := Pass;
    }

    /** `action_reset_to_draft`: only a rejected estimation moves; it never raises. */
    method ResetToDraft()
      modifies this`approvalState
      ensures approvalState == if old(approvalState) == Rejected then Draft else old(approvalState)
      ensures Step(Action.ResetToDraft, old(approvalState), HasLines()) == Ok(approvalState)
    {
      if approvalState == Rejected {
        approvalState := Draft;
      }
    }

    /** `_check_percentages` on this record. */
    function CheckOwnPercentages(): (r: Outcome<EstimationError>)
      reads this
      ensures r.Pass? <==> PercentInRange(overheadPercent) && PercentInRange(riskPercent) && PercentInRange(profitPercent)
    {
      CheckPercentages(overheadPercent, riskPercent, profitPercent)
    }

    /** `_compute_totals`: the four section totals, their sum and the cascade on it. */
    method ComputeTotals()
      modifies this`totals
      ensures totals == ComputeEstimationTotals(materialLines, laborLines, equipmentLines, subcontractLines,
                                                overheadPercent, riskPercent, profitPercent)
    {
      var m := SectionTotal(materialLines);
      var l := SectionTotal(laborLines);
      var e := SectionTotal(equipmentLines);
      var s := SectionTotal(subcontractLines);
      var base := m + l + e + s;
      totals := Totals(m, l, e, s, base, ComputeCascade(base, overheadPercent, riskPercent, profitPercent));
    }

    /** The guards of `action_create_sale_order`, in the order the source checks them. */
    function SaleOrderGuard(): (r: Result<Option<int>, EstimationError>)
      reads this
      ensures r.Ok? <==> approvalState == Approved && partnerId.Some?
      ensures r.Err? ==> r.error == (if approvalState != Approved then NotApproved else NoCustomer)
      ensures r.Ok? ==> r.value == saleOrderId
    {
      if approvalState != Approved then Err(NotApproved)
      else if partnerId.None? then Err(NoCustomer)
      else Ok(saleOrderId)
    }

    /**
     * `action_create_sale_order`. An existing quotation is opened; otherwise
     * one is created in the partner's company when it has one, else in the
     * estimation's, and linked as `newOrderId`. `immediateTerm` is the
     * immediate payment term if it exists.
     */
    method CreateSaleOrder(newOrderId: int, immediateTerm: Option<int>)
      returns (r: Result<SaleOrderAction, EstimationError>)
      modifies this`saleOrderId
      ensures r.Err? <==> SaleOrderGuard().Err?
      ensures r.Err? ==> r.error == SaleOrderGuard().error && saleOrderId == old(saleOrderId)
      ensures r.Ok? && old(saleOrderId).Some? ==> r.value == OpenExisting(old(saleOrderId).value) && saleOrderId == old(saleOrderId)
      ensures r.Ok? && old(saleOrderId).None? ==>
        && saleOrderId == Some(newOrderId)
        && r.value == CreateOrder(OrderVals(partnerId.value,
                                            if partnerCompanyId.Some? then partnerCompanyId.value else companyId,
                                            "construction", immediateTerm, orderInquiryId))
    {
      var g := SaleOrderGuard();
      if g.Err? {
        return Err(g.error);
      }
      if saleOrderId.Some? {
        return Ok(OpenExisting(saleOrderId.value));
      }
      var company := companyId;
      if partnerCompanyId.Some? {
        company := partnerCompanyId.value;
      }
      var vals := OrderVals(partnerId.value, company, "construction", immediateTerm, orderInquiryId);
      saleOrderId := Some(newOrderId);
      r := Ok(CreateOrder(vals));
    }
  }
}
