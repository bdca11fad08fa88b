/**
 * Cost-centre budgets on analytic accounts
 * (custom_user_portal/models/cost_center_budget.py): what confirmed
 * purchase orders have spent against a budget type and code, what is left,
 * and the check that a cost centre exists and can cover an amount.
 */
module CostCenter {
  import opened Common

  /** A selection or text value is set when it holds a non-empty string. */
  predicate Set(s: Option<string>) {
    s.Some? && s.value != ""
  }

  datatype PoState = DraftPo | SentPo | ToApprove | PurchasePo | DonePo | CancelPo

  /** A purchase order; `grandTotal` is read instead of `amountTotal` when the model has that field. */
  datatype PurchaseOrder = PurchaseOrder(budgetType: Option<string>, budgetCode: Option<string>, state: PoState,
                                         amountTotal: real, grandTotal: real)

  /** An analytic account with its budget. */
  datatype CostCentre = CostCentre(id: int, budgetType: Option<string>, budgetCode: Option<string>, budgetAllowance: real)

  /** The order search of `_compute_budget_metrics`: same type and code, confirmed or done. */
  predicate Counts(po: PurchaseOrder, c: CostCentre) {
    po.budgetType == c.budgetType && po.budgetCode == c.budgetCode && (po.state == PurchasePo || po.state == DonePo)
  }

  function OrderTotal(po: PurchaseOrder, hasGrandTotal: bool): real {
    if hasGrandTotal then po.grandTotal else po.amountTotal
  }

  /** The total of the counted orders. */
  function Spent(pos: seq<PurchaseOrder>, c: CostCentre, hasGrandTotal: bool): real {
    if pos == [] then 0.0
    else
      var n := |pos| - 1;
      Spent(pos[..n], c, hasGrandTotal) + (if Counts(pos[n], c) then OrderTotal(pos[n], hasGrandTotal) else 0.0)
  }

  /** `budget_spent`: nothing without both a type and a code. */
  function BudgetSpent(pos: seq<PurchaseOrder>, c: CostCentre, hasGrandTotal: bool): real {
    if Set(c.budgetCode) && Set(c.budgetType) then Spent(pos, c, hasGrandTotal) else 0.0
  }

  /** `budget_left`. */
  function BudgetLeft(pos: seq<PurchaseOrder>, c: CostCentre, hasGrandTotal: bool): real {
    c.budgetAllowance - BudgetSpent(pos, c, hasGrandTotal)
  }

  /** Orders of another type or code, or not confirmed, do not count; a counted order adds its total. */
  lemma SpentAppend(pos: seq<PurchaseOrder>, po: PurchaseOrder, c: CostCentre, hasGrandTotal: bool)
    ensures Spent(pos + [po], c, hasGrandTotal)
            == Spent(pos, c, hasGrandTotal) + (if Counts(po, c) then OrderTotal(po, hasGrandTotal) else 0.0)
  {
    assert (pos + [po])[..|pos|] == pos;
  }

  /** With non-negative order totals, spending is never negative, so the amount left never exceeds the allowance. */
  lemma {:induction false} SpentBounds(pos: seq<PurchaseOrder>, c: CostCentre, hasGrandTotal: bool)
    requires forall i :: 0 <= i < |pos| ==> OrderTotal(pos[i], hasGrandTotal) >= 0.0
    ensures Spent(pos, c, hasGrandTotal) >= 0.0
    ensures c.budgetAllowance - Spent(pos, c, hasGrandTotal) <= c.budgetAllowance
  {
    if pos != [] {
      var n := |pos| - 1;
      assert forall k :: 0 <= k < n ==> pos[..n][k] == pos[k];
      SpentBounds(pos[..n], c, hasGrandTotal);
    }
  }

  /** `_compute_budget_metrics` for one cost centre: the spent and left amounts it assigns. */
  method ComputeBudgetMetrics(pos: seq<PurchaseOrder>, c: CostCentre, hasGrandTotal: bool)
    returns (spent: real, left: real)
    ensures spent == BudgetSpent(pos, c, hasGrandTotal)
    ensures left == c.budgetAllowance - spent
    ensures !(Set(c.budgetCode) && Set(c.budgetType)) ==> spent == 0.0 && left == c.budgetAllowance
  {
    spent := 0.0;
    if Set(c.budgetCode) && Set(c.budgetType) {
      var i := 0;
      while i < |pos|
        invariant 0 <= i <= |pos|
        invariant spent == Spent(pos[..i], c, hasGrandTotal)
      {
        assert pos[..i + 1][..i] == pos[..i];
        var po := pos[i];
        if Counts(po, c) {
          spent := spent + (if hasGrandTotal then po.grandTotal else po.amountTotal);
        }
        i := i + 1;
      }
      assert pos[..|pos|] == pos;
    }
    left := c.budgetAllowance - spent;
  }

  /** `get_cost_center_budget`: none without a type and a code, else the first cost centre with both. */
  function GetCostCenterBudget(centres: seq<CostCentre>, budgetType: Option<string>, budgetCode: Option<string>)
    : (r: Option<CostCentre>)
    ensures !Set(budgetType) || !Set(budgetCode) ==> r.None?
    ensures Set(budgetType) && Set(budgetCode) ==>
      (r.None? <==> forall k :: 0 <= k < |centres| ==>
                      !(centres[k].budgetType == budgetType && centres[k].budgetCode == budgetCode))
    ensures r.Some? ==> r.value in centres && r.value.budgetType == budgetType && r.value.budgetCode == budgetCode
    ensures Set(budgetType) && Set(budgetCode) ==> r == FirstCentre(centres, budgetType, budgetCode)
  {
    if !Set(budgetType) || !Set(budgetCode) then None else FirstCentre(centres, budgetType, budgetCode)
  }

  function FirstCentre(centres: seq<CostCentre>, budgetType: Option<string>, budgetCode: Option<string>)
    : (r: Option<CostCentre>)
    ensures r.None? <==> forall k :: 0 <= k < |centres| ==>
                           !(centres[k].budgetType == budgetType && centres[k].budgetCode == budgetCode)
    ensures r.Some? ==> exists i :: 0 <= i < |centres| && centres[i] == r.value
                          && r.value.budgetType == budgetType && r.value.budgetCode == budgetCode
                          && forall k :: 0 <= k < i ==>
                               !(centres[k].budgetType == budgetType && centres[k].budgetCode == budgetCode)
  {
    if centres == [] then None
    else if centres[0].budgetType == budgetType && centres[0].budgetCode == budgetCode then Some(centres[0])
    else
      var r := FirstCentre(centres[1..], budgetType, budgetCode);
      assert forall k :: 1 <= k < |centres| ==> centres[k] == centres[1..][k - 1];
      assert r.Some? ==> exists i :: 1 <= i < |centres| && centres[i] == r.value
                          && r.value.budgetType == budgetType && r.value.budgetCode == budgetCode
                          && forall k :: 0 <= k < i ==>
                               !(centres[k].budgetType == budgetType && centres[k].budgetCode == budgetCode) by {
        if r.Some? {
          var i :| 0 <= i < |centres[1..]| && centres[1..][i] == r.value
                   && r.value.budgetType == budgetType && r.value.budgetCode == budgetCode
                   && forall k :: 0 <= k < i ==>
                        !(centres[1..][k].budgetType == budgetType && centres[1..][k].budgetCode == budgetCode);
          assert centres[i + 1] == centres[1..][i];
        }
      }
      r
  }

  datatype BudgetError = NoCostCenter | NoBudgetLeft | InsufficientBudget

  /**
   * `validate_budget_or_raise`: the cost centre when one exists, has budget
   * left and, for a non-zero required amount, at least that much left.
   */
  function ValidateBudget(centres: seq<CostCentre>, pos: seq<PurchaseOrder>, hasGrandTotal: bool,
                          budgetType: Option<string>, budgetCode: Option<string>, required: real)
    : (r: Result<CostCentre, BudgetError>)
    ensures r == Err(NoCostCenter) <==> GetCostCenterBudget(centres, budgetType, budgetCode).None?
    ensures r.Ok? ==> GetCostCenterBudget(centres, budgetType, budgetCode) == Some(r.value)
    ensures r.Ok? ==> BudgetLeft(pos, r.value, hasGrandTotal) > 0.0
    ensures r.Ok? && required != 0.0 ==> BudgetLeft(pos, r.value, hasGrandTotal) >= required
    ensures var c := GetCostCenterBudget(centres, budgetType, budgetCode);
            r == Err(NoBudgetLeft) <==> c.Some? && BudgetLeft(pos, c.value, hasGrandTotal) <= 0.0
    ensures var c := GetCostCenterBudget(centres, budgetType, budgetCode);
            r == Err(InsufficientBudget) <==>
              c.Some? && 0.0 < BudgetLeft(pos, c.value, hasGrandTotal) && required != 0.0
              && BudgetLeft(pos, c.value, hasGrandTotal) < required
    ensures var c := GetCostCenterBudget(centres, budgetType, budgetCode);
            (c.Some? && BudgetLeft(pos, c.value, hasGrandTotal) > 0.0
             && (required == 0.0 || BudgetLeft(pos, c.value, hasGrandTotal) >= required)) ==> r == Ok(c.value)
  {
    var c := GetCostCenterBudget(centres, budgetType, budgetCode);
    if c.None? then Err(NoCostCenter)
    else
      var left := BudgetLeft(pos, c.value, hasGrandTotal);
      if left <= 0.0 then Err(NoBudgetLeft)
      else if required != 0.0 && left < required then Err(InsufficientBudget)
      else Ok(c.value)
  }

  /** A required amount of zero only asks for a cost centre with some budget left. */
  lemma ZeroRequiredSkipsSufficiency(centres: seq<CostCentre>, pos: seq<PurchaseOrder>, hasGrandTotal: bool,
                                     budgetType: Option<string>, budgetCode: Option<string>)
    ensures var c := GetCostCenterBudget(centres, budgetType, budgetCode);
            ValidateBudget(centres, pos, hasGrandTotal, budgetType, budgetCode, 0.0).Ok?
            <==> c.Some? && BudgetLeft(pos, c.value, hasGrandTotal) > 0.0
  {
  }

  /** A found cost centre has a type and a code, so its spending is the total of its counted orders. */
  lemma ValidatedSpending(centres: seq<CostCentre>, pos: seq<PurchaseOrder>, hasGrandTotal: bool,
                          budgetType: Option<string>, budgetCode: Option<string>, required: real)
    requires ValidateBudget(centres, pos, hasGrandTotal, budgetType, budgetCode, required).Ok?
    ensures var c := ValidateBudget(centres, pos, hasGrandTotal, budgetType, budgetCode, required).value;
            BudgetLeft(pos, c, hasGrandTotal) == c.budgetAllowance - Spent(pos, c, hasGrandTotal)
  {
  }
}
