/**
 * The milestone constraint of work orders (pr_work_order/models/project_milestone.py):
 * the milestone percentages of one sale order line may not add up to more
 * than 100, compared at two decimals.
 */
module Milestone {
  import opened Common
  import opened Precision

  datatype ProjectMilestone = ProjectMilestone(saleLineId: Option<int>, quantity: real)

  /** The percentages of every milestone on the sale line, not only the ones being written. */
  function LineTotal(all: seq<ProjectMilestone>, saleLineId: int): real {
    if all == [] then 0.0
    else
      var n := |all| - 1;
      LineTotal(all[..n], saleLineId) + (if all[n].saleLineId == Some(saleLineId) then all[n].quantity else 0.0)
  }

  /** `float_compare(total, 100.0, precision_digits=2) > 0`. */
  predicate Exceeds(total: real) {
    Compare(total, 100.0, DigitsUnit(2)) > 0
  }

  datatype MilestoneError = TotalExceeds(saleLineId: int, total: real)

  /** `_check_sale_line_milestone_percentage` over the written milestones, in order. */
  function CheckMilestones(written: seq<ProjectMilestone>, all: seq<ProjectMilestone>): (r: Outcome<MilestoneError>)
    ensures r == Pass <==> forall i :: 0 <= i < |written| && written[i].saleLineId.Some? ==>
                             !Exceeds(LineTotal(all, written[i].saleLineId.value))
    ensures r.Fail? ==> exists i :: 0 <= i < |written| && written[i].saleLineId.Some?
                          && r.error == TotalExceeds(written[i].saleLineId.value, LineTotal(all, written[i].saleLineId.value))
                          && Exceeds(r.error.total)
  {
    if written == [] then Pass
    else
      var m := written[0];
      if m.saleLineId.Some? && Exceeds(LineTotal(all, m.saleLineId.value)) then
        Fail(TotalExceeds(m.saleLineId.value, LineTotal(all, m.saleLineId.value)))
      else
        var r := CheckMilestones(written[1..], all);
        assert forall k :: 1 <= k < |written| ==> written[k] == written[1..][k - 1];
        r
  }

  /** Exactly 100, and anything below it, is accepted; a hundredth more is rejected. */
  lemma ExceedsBoundary(total: real)
    ensures total <= 100.0 ==> !Exceeds(total)
    ensures total >= 100.01 ==> Exceeds(total)
  {
    var u := DigitsUnit(2);
    assert u == 0.01;
    if total <= 100.0 {
      CompareLe(total, 100.0, u);
    }
    if total >= 100.01 {
      CompareAboveByUnit(total, 100.0, u);
    }
  }

  /** A milestone without a sale line is never checked. */
  lemma UnlinkedNotChecked(written: seq<ProjectMilestone>, all: seq<ProjectMilestone>, m: ProjectMilestone)
    requires m.saleLineId.None?
    ensures CheckMilestones(written + [m], all) == Pass <==> CheckMilestones(written, all) == Pass
  {
    var w := written + [m];
    assert forall i :: 0 <= i < |written| ==> w[i] == written[i];
  }

  /** Milestones of other sale lines do not change a line's total; one of the line adds its percentage. */
  lemma LineTotalAppend(all: seq<ProjectMilestone>, m: ProjectMilestone, saleLineId: int)
    ensures LineTotal(all + [m], saleLineId)
            == LineTotal(all, saleLineId) + (if m.saleLineId == Some(saleLineId) then m.quantity else 0.0)
  {
    assert (all + [m])[..|all|] == all;
  }

  /** Writing one milestone can fail because of the other milestones already on its line. */
  lemma OthersCount()
    ensures var line := 7;
            var others := [ProjectMilestone(Some(line), 60.0)];
            var written := ProjectMilestone(Some(line), 50.0);
            CheckMilestones([written], others + [written]).Fail?
  {
    var others := [ProjectMilestone(Some(7), 60.0)];
    var written := ProjectMilestone(Some(7), 50.0);
    var all := others + [written];
    assert all[..1] == others;
    assert others[..0] == [];
    assert LineTotal(all, 7) == 110.0;
    ExceedsBoundary(110.0);
  }
}
