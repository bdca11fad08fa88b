# Petroraq ERP add-ons: business rules in Dafny

This project models the business rules of a set of ERP add-ons for a
construction and trading company, and proves properties of them. The add-ons
extend a Python ERP framework with the following:

- construction estimations with a manager / managing-director approval workflow and an overhead, risk and profit cascade;
- down-payment deductions on customer invoices;
- a multi-account ledger report and its wizard;
- cc/bcc handling on the mail composer and on outgoing notification mails;
- retention lines on customer invoices;
- purchase requisitions, RFQs and cost-centre budgets;
- goods receipt (GRN) and service entry (SES) sheets with their vendor bills;
- work-order milestones.

There is one Dafny module per source file:

- `Estimation`, `DownPayment`, `LedgerReport`, `LedgerWizard`, `EmailMerge`, `EmailCcBcc`;
- `Retention`, `PetroRetention`, `Requisition`, `Inventory`, `CostCenter`, `Milestone`.

Four shared modules support them:

- `Common`: Option, Result and pass-or-raise outcomes.
- `Text`: Python's strip, split, join and integer conversions, and a `lower` that folds only the ASCII letters.
- `Precision`: the framework's half-up rounding, zero test and comparison at a rounding unit.
- `Dates`: ISO date formatting and parsing.

How the framework is modelled:

- Record searches and browses become input sequences, searched in sequence order.
- Amounts are exact `real`s. The framework's float helpers are stated once, on reals, in `Precision`.
- A method that loops over a recordset is modelled on one record. An exception rolls the whole call back, so one record is enough.
- Where the source updates records in place, the model does too: classes with fields and `modifies` clauses. These are the estimation, the requisition and its custom PR, the GRN/SES sheet, the invoice with its retention line and the ledger wizard. The email modules declare no class: the composer's mail values are a map that `EmailMerge.UpdateRecords` rebuilds record by record in a loop, and the outgoing mail list is an array that `EmailCcBcc.PrepareOutgoingList` updates.
- Loops become methods with invariants, proved against specification functions. The properties of those functions are proved as lemmas.

Inputs the source reads from the environment are parameters:

- today's date;
- the next sequence value;
- context flags;
- configuration parameters;
- ids of newly created records;
- the result of the opening-balance SQL query.

## Model

| member | source | states |
|---|---|---|
| Milestone.CheckMilestones | pr_work_order/models/project_milestone.py:9-28 | the constraint passes exactly when no written milestone with a sale line has a total over 100 at two decimals, summing every milestone on that line; a failure names such a line and its total |
| Milestone.ExceedsBoundary | pr_work_order/models/project_milestone.py:18 | a total of at most 100 is accepted and one of 100.01 or more is rejected, because the comparison is at two decimals |
| Milestone.UnlinkedNotChecked | pr_work_order/models/project_milestone.py:12-14 | a milestone without a sale line adds no check |
| Milestone.LineTotalAppend | pr_work_order/models/project_milestone.py:15-17 | a milestone adds its percentage to its own line's total only |
| Milestone.OthersCount | pr_work_order/models/project_milestone.py:15-18 | a 50 % milestone is rejected when the line already holds another 60 %: the total counts milestones that were not written |
| CostCenter.ComputeBudgetMetrics | custom_user_portal/models/cost_center_budget.py:17-32 | spent is the total of the confirmed or done orders of the same type and code, or 0 without both; left is the allowance minus spent |
| CostCenter.SpentAppend | custom_user_portal/models/cost_center_budget.py:23-29 | an order adds its grand total (or amount total) only when it has the centre's type and code and is confirmed or done |
| CostCenter.SpentBounds | custom_user_portal/models/cost_center_budget.py:28-32 | with non-negative order totals the spending is non-negative and the left amount is at most the allowance |
| CostCenter.GetCostCenterBudget | custom_user_portal/models/cost_center_budget.py:34-42 | nothing without a type and a code; otherwise the first centre in search order with both that type and that code, and nothing exactly when there is none |
| CostCenter.FirstCentre | custom_user_portal/models/cost_center_budget.py:39-42 | the search with `limit=1`: none exactly when no centre matches; else the first centre in search order with that type and code |
| CostCenter.ValidateBudget | custom_user_portal/models/cost_center_budget.py:44-59 | no cost centre exactly when the lookup finds none; no budget left exactly when the found centre has nothing left; insufficient budget exactly when something is left, the amount is non-zero and above it; in every other case the found centre is returned |
| CostCenter.ZeroRequiredSkipsSufficiency | custom_user_portal/models/cost_center_budget.py:53 | with a zero required amount the check passes exactly when a centre exists with budget left |
| CostCenter.ValidatedSpending | custom_user_portal/models/cost_center_budget.py:22-32 | a validated centre has a type and a code, so its left amount is its allowance minus its counted orders |
| PetroRetention.FirstRetentionOrder | petro_retention/models/account_move.py:27-33 | none exactly when no linked order has a retention percent; otherwise the first order that has one |
| PetroRetention.DeductBaseAppend | petro_retention/models/account_move.py:36-40 | a line adds its subtotal to the base unless it is a section, a note or a down payment |
| PetroRetention.BasesDifferOnRetentionLines | petro_retention/models/account_move.py:36-40 | a retention line counts in this base but not in the base its own amount is computed from |
| PetroRetention.DeductAmountCases | petro_retention/models/account_move.py:21-44 | 0 off customer invoices and when no linked order has a percent; otherwise the currency-rounded percent of the base, never negative for a non-negative base and percent |
| PetroRetention.RoundNonNegative | petro_retention/models/account_move.py:42-44 | rounding a non-negative amount to the currency unit gives a non-negative amount |
| PetroRetention.ComputeRetentionDeductAmount | petro_retention/models/account_move.py:21-44 | each move gets its own deduction as defined above |
| Dates.Format | account_ledger/wizard/account_ledger_multi.py:131-132 | `%Y-%m-%d` of a valid date is always 10 characters |
| Dates.Parse | account_ledger/report/account_ledger_multi_report.py:13-14 | `strptime` with `%Y-%m-%d` succeeds only on a real calendar date |
| Precision.RoundHalfUp | petro_retention/models/account_move.py:42-44 | the integer nearest to the value, halves away from zero |
| Precision.IsZeroIff | pr_retention/models/account_move.py:125 | `is_zero` holds exactly when the amount lies strictly within half a rounding unit of zero |
| Precision.Compare | pr_work_order/models/project_milestone.py:18 | `float_compare` answers -1, 0 or 1 |
| Precision.CompareLe | pr_work_order/models/project_milestone.py:18 | a value never compares above a value at least as large |
| Precision.CompareAboveByUnit | pr_work_order/models/project_milestone.py:18 | a value at least one unit above another compares above it |
| Precision.RoundHalfUpMonotone | petro_retention/models/account_move.py:42-44 | rounding keeps the order of two values |
| Text.TrimLeft | pr_odoo_email_cc/models/compose_mail.py:73 | `lstrip()` drops only leading whitespace and leaves a suffix that starts with a non-space |
| Text.TrimRight | pr_odoo_email_cc/models/compose_mail.py:73 | `rstrip()` drops only trailing whitespace and leaves a prefix that ends with a non-space |
| Text.StripIsStripped | pr_odoo_email_cc/models/compose_mail.py:73 | `strip()` leaves no whitespace at either end |
| Text.StripIdempotent | pr_odoo_email_cc/models/compose_mail.py:73 | stripping twice is stripping once |
| Text.Split | pr_odoo_email_cc/models/compose_mail.py:73 | `split(sep)` gives at least one piece and no piece holds the separator |
| Text.SplitJoin | pr_odoo_email_cc/models/compose_mail.py:85 | splitting a join of separator-free pieces gives the pieces back |
| Text.Lower | pr_odoo_email_cc/models/compose_mail.py:80 | `lower()` maps each ASCII capital to its small letter and keeps every other character and the length |
| Text.ParseInt | account_ledger/report/account_ledger_multi_report.py:160-161 | `int(s)` succeeds only on a non-empty string |
| Text.ParseNatToString | account_ledger/report/account_ledger_multi_report.py:160-161 | `int(str(n))` is `n` for every natural number |
| Dates.ParseFormat | account_ledger/wizard/account_ledger_multi.py:131-132 | a valid date written `%Y-%m-%d` is read back by `strptime` with the same format as the same date |
| Dates.FirstOfMonth | account_ledger/wizard/account_ledger_multi.py:10-12 | `replace(day=1)` gives a valid date of the same year and month whose day is 1 |
| LedgerWizard.AccountLedgerMulti.constructor | account_ledger/wizard/account_ledger_multi.py:10-44 | a new wizard runs from the first of the month to today, sorts by amount, highest first, in the given company, with no accounts, main head or analytic filters |
| LedgerWizard.AccountLedgerMulti.ComputeAccountDomain | account_ledger/wizard/account_ledger_multi.py:71-79 | an account is offered exactly when it is not deprecated and either the user is an accounting manager or the account is not one of 748, 749, 1132 |
| LedgerWizard.AccountLedgerMulti.ReportAccountIds | account_ledger/wizard/account_ledger_multi.py:81-85 | the selected accounts, empty when none are selected |
| LedgerWizard.LinePartners | account_ledger/wizard/account_ledger_multi.py:99-118 | each partner at most once, and a partner is listed exactly when it has the head's rank and is the partner of a selected line |
| LedgerWizard.RankedPartners | account_ledger/wizard/account_ledger_multi.py:122 | the fallback search: exactly the partners with the head's customer or supplier rank |
| LedgerWizard.MoveLineDomain | account_ledger/wizard/account_ledger_multi.py:99-110 | five terms, or six when accounts are selected, and a line matches them all exactly when it is a posted line of the company in the period on the head's side and on a selected account |
| LedgerWizard.AccountLedgerMulti.GetReportPartnerIds | account_ledger/wizard/account_ledger_multi.py:87-122 | nothing without a main head; the partners of the selected lines when there are any; otherwise every partner with the rank |
| LedgerWizard.FallbackOnlyWithoutLinePartners | account_ledger/wizard/account_ledger_multi.py:112-122 | the partner of any selected line with the right rank is always in the result, so the fallback is taken only when no such line exists |
| LedgerWizard.AccountLedgerMulti.GetReport | account_ledger/wizard/account_ledger_multi.py:124-145 | the form holds both dates formatted `%Y-%m-%d`, the selected accounts, the partner ids above, the company, head, sort options and analytic filters |
| LedgerWizard.FormDatesReadBack | account_ledger/wizard/account_ledger_multi.py:131-132 | the report parses the form's dates back to the wizard's period, and its valuation line joins them with " To " |
| LedgerReport.OnAnalytic | account_ledger/report/account_ledger_multi_report.py:49-64 | one narrowing search keeps exactly the items distributed to the analytic account, never more items |
| LedgerReport.SelectJournalItems | account_ledger/report/account_ledger_multi_report.py:42-64 | an item is listed exactly when it is one of the account's items and is distributed to every set analytic filter (department, section, project, employee, asset) |
| LedgerReport.InitialBalance | account_ledger/report/account_ledger_multi_report.py:90-92 | no row or a NULL sum gives 0; otherwise the fetched sum |
| LedgerReport.OpeningSplit | account_ledger/report/account_ledger_multi_report.py:96-98 | the opening debit and credit are non-negative, at most one of them is non-zero, and debit minus credit is the initial balance |
| LedgerReport.ItemRows | account_ledger/report/account_ledger_multi_report.py:114-131 | one row per journal item |
| LedgerReport.ItemRowsAt | account_ledger/report/account_ledger_multi_report.py:114-131 | the row of item k shows the running balance after the items before it as its initial balance |
| LedgerReport.RunningBalanceStep | account_ledger/report/account_ledger_multi_report.py:115 | each item moves the running balance by its debit minus its credit |
| LedgerReport.DocsShape | account_ledger/report/account_ledger_multi_report.py:100-147 | the report of an account has two more rows than items: an "Opening" row first carrying the initial balance split into debit and credit, item rows with a transaction reference, and a closing row without one last |
| LedgerReport.DocsRunningBalance | account_ledger/report/account_ledger_multi_report.py:114-131 | each item row's balance is the previous row's balance plus its debit minus its credit, and shows the previous balance as its initial one |
| LedgerReport.DocsClosing | account_ledger/report/account_ledger_multi_report.py:133-145 | the closing row totals the items' debits and credits, and its balance equals the last running balance |
| LedgerReport.BuildAccountDocs | account_ledger/report/account_ledger_multi_report.py:92-147 | the loop builds exactly the rows defined above from the fetched opening balance |
| LedgerReport.SetValues | account_ledger/report/account_ledger_multi_report.py:158-161 | only truthy filter values are kept, in order, and every truthy value is kept |
| LedgerReport.CollectAnalyticIds | account_ledger/report/account_ledger_multi_report.py:156-161 | the integer ids are the set filters in key order, and the string ids are their decimal forms, one per id |
| LedgerReport.StrIdsRoundTrip | account_ledger/report/account_ledger_multi_report.py:160-161 | every string id reads back as its integer id |
| LedgerReport.ValuationDates | account_ledger/report/account_ledger_multi_report.py:12-15 | a value exactly when both dates parse as `%Y-%m-%d` |
| LedgerReport.ValuationDatesOfFormatted | account_ledger/report/account_ledger_multi_report.py:12-15 | dates written by the wizard come back as "start To end" unchanged |
| LedgerReport.AccountHeader | account_ledger/report/account_ledger_multi_report.py:165-181 | the company name alone without account names, else the company name, " - " and the comma-joined names |
| LedgerReport.BuildAccounts | account_ledger/report/account_ledger_multi_report.py:167-175 | one section per selected account, in order, holding its display name and its rows over its selected items |
| Requisition.PriorityOffset | custom_user_portal/models/models.py:94-100 | low 30 days, medium 10, high 3, urgent 0, and no offset for any other priority |
| Requisition.RequiredDate | custom_user_portal/models/models.py:92-100 | the required date is today plus the priority's offset, never before today and at most thirty days ahead |
| Requisition.PriorityOrder | custom_user_portal/models/models.py:94-99 | urgent comes before high, which comes before medium, which comes before low |
| Requisition.OrDefault | custom_user_portal/models/models.py:115-124 | the sequence value when there is one, else the fallback number |
| Requisition.PrNumber | custom_user_portal/models/models.py:113-125 | a cash PR takes the cash sequence or "CPR0001"; any other PR takes the PR sequence or "PR0001" |
| Requisition.CheckNonNegativeValues | custom_user_portal/models/models.py:561-567 | a line passes exactly when quantity and unit price are non-negative; a negative quantity is reported first, then a negative unit price |
| Requisition.LinesTotalNonNegative | custom_user_portal/models/models.py:556-567 | lines that pass the constraint have a non-negative total |
| Requisition.ComputeTotals | custom_user_portal/models/models.py:166-172 | the untaxed total is the sum of the line totals, VAT is 15 % of it and the total including VAT is 1.15 times it |
| Requisition.TotalsNonNegative | custom_user_portal/models/models.py:166-172 | for lines that pass the constraint, 0 <= VAT <= untaxed total <= total including VAT |
| Requisition.PurchaseRequisition.ComputeTotalsField | custom_user_portal/models/models.py:166-172 | the loop stores the totals defined above |
| Requisition.ButtonsExclusive | custom_user_portal/models/models.py:174-188 | at most one of the RFQ and PO buttons shows, only on an approved PR; when approved, the PO button shows exactly for a cash PR and the RFQ button exactly for a standard PR still in status pr |
| Requisition.SupervisorId | custom_user_portal/models/models.py:519-524 | an unset or non-numeric stored id becomes 0, otherwise its integer value |
| Requisition.IsSupervisorOfStoredId | custom_user_portal/models/models.py:516-532 | with a decimal id stored, the user can approve exactly when they are an approver or their partner has that id |
| Requisition.CustomPr.constructor | custom_user_portal/models/models.py:140-144 | the matching custom PR holds an approval |
| Requisition.PurchaseRequisition.constructor | custom_user_portal/models/models.py:108-127 | a priority sets the required date; a record left named "New" takes its PR number; defaults are priority medium, approval pending, type PR, status pr; the totals are computed from the lines |
| Requisition.PurchaseRequisition.Write | custom_user_portal/models/models.py:129-164 | a priority resets the required date; a written approval is copied to the custom PR exactly when it differs, and the procurement admins are notified exactly when the approval newly becomes approved |
| Requisition.MatchedProject | custom_user_portal/models/models.py:347-353 | the project search with limit 1: none exactly when no project has the PR's budget type and code, else the id of the first project in search order that has them |
| Requisition.PurchaseRequisition.CopyLines | custom_user_portal/models/models.py:370-384 | one custom line per PR line, in order, with its product name, quantity, type, unit and unit price |
| Requisition.CheckCustomLine | custom_user_portal/models/models.py:609-615 | an order line passes exactly when quantity and unit price are non-negative, a negative quantity reported first |
| Requisition.CopyKeepsChecks | custom_user_portal/models/models.py:604-615 | a copied line passes the order-line constraint exactly when its PR line passed its own, and has the same subtotal |
| Requisition.PurchaseRequisition.ActionCreateRfq | custom_user_portal/models/models.py:338-423 | a PR without lines is refused and keeps its status; otherwise an unconfirmed RFQ whose origin and PR name are the PR number, with the vendor, required date, matched project, the copied lines and the next RFQ number or "RFQ0001", and the PR moves to status rfq |
| Requisition.PurchaseRequisition.ActionCreatePurchaseOrder | custom_user_portal/models/models.py:442-496 | a PR without lines is refused and keeps its status; otherwise a confirmed order with the same values but no PR name, and the PR moves to status rfq |
| Retention.OrderRefs | pr_retention/models/account_move.py:44 | the orders of a line's sale lines, one per sale line, in order |
| Retention.FirstLinkedOrder | pr_retention/models/account_move.py:44-46 | `sale_orders[:1]` is the first sale line's order on the first invoice line that has sale lines |
| Retention.LinkedOrdersAppendUnlinked | pr_retention/models/account_move.py:44 | a line without sale lines adds no linked order |
| Retention.OriginKey | pr_retention/models/account_move.py:49 | the order name taken from an origin contains no comma and has no surrounding whitespace |
| Retention.OriginKeyFirst | pr_retention/models/account_move.py:49-78 | only the part before the first comma, stripped, names the order |
| Retention.SearchByName | pr_retention/models/account_move.py:50-79 | the name search with limit 1: none exactly when no order has the name, else the first order that has it |
| Retention.ComputedSaleOrderCases | pr_retention/models/account_move.py:41-53 | a linked order wins; without one, an origin is looked up by its first element and a match has that name; without either there is no order |
| Retention.ComputedSaleOrderAppendUnlinked | pr_retention/models/account_move.py:41-53 | adding a line without sale lines, such as the retention line, keeps the computed order |
| Retention.RetentionSaleOrderOfComputed | pr_retention/models/account_move.py:70-80 | once the stored order has been computed from the same lines and origin, the retention order is the stored one |
| Retention.RetentionAmount | pr_retention/models/account_move.py:55-59 | the sum of absolute subtotals of the retention lines is never negative |
| Retention.NoRetentionLines | pr_retention/models/account_move.py:55-59 | without retention lines the amount is 0 and there are none to count |
| Retention.RetentionBaseAppend | pr_retention/models/account_move.py:82-90 | a line adds its subtotal to the base exactly when it is not a section, note, retention or down-payment line |
| Retention.RetentionBaseNonNegative | pr_retention/models/account_move.py:82-90 | with non-negative subtotals the base is non-negative |
| Retention.CandidateAccount | pr_retention/models/account_move.py:96-100 | none exactly when no line is an account candidate; else the account of the first line that is not a section, note or retention line and has an account |
| Retention.OrderLineAccount | pr_retention/models/account_move.py:101-106 | the invoice account of the first order line that is neither a section, a note nor a down payment; none when there is no such line |
| Retention.RetentionAccount | pr_retention/models/account_move.py:92-107 | the company's retention account first, then the candidate line's account, then the order line's account, else none |
| Retention.CandidateAccountIgnoresRetention | pr_retention/models/account_move.py:96-98 | adding a retention line does not change the candidate account |
| Retention.RetentionLineToAdd | pr_retention/models/account_move.py:109-149 | a line is written exactly when the move is a customer invoice, the order has a percent, no retention line exists, the rounded amount is not zero and an account is found; it has quantity 1, unit price minus the rounded percent of the base, no taxes and the retention flag |
| Retention.RetentionLineIdempotent | pr_retention/models/account_move.py:117-118 | a second call adds nothing |
| Retention.AtMostOneRetentionLine | pr_retention/models/account_move.py:109-149 | a move with at most one retention line keeps at most one, and a new line carries the whole retention amount |
| Retention.RetentionLineStable | pr_retention/models/account_move.py:120-128 | adding the line changes neither the base nor the account a later call would compute |
| Retention.MaybeRetentionLineGuards | pr_retention/models/account_move.py:151-160 | the guards of `_maybe_add_retention_line` repeat those of `_ensure_retention_line`; only the skip flag adds a condition |
| Retention.AccountMove.constructor | pr_retention/models/account_move.py:162-166 | a created move stores its computed order and then gets the retention line `_maybe_add_retention_line` gives |
| Retention.AccountMove.ComputeSaleOrderId | pr_retention/models/account_move.py:41-53 | the stored order becomes the computed order |
| Retention.AccountMove.EnsureRetentionLine | pr_retention/models/account_move.py:109-149 | the lines gain exactly the retention line defined above, or nothing |
| Retention.AccountMove.MaybeAddRetentionLine | pr_retention/models/account_move.py:151-160 | nothing with the skip flag or off customer invoices; otherwise the retention line for the retention order |
| Retention.AccountMove.Write | pr_retention/models/account_move.py:168-172 | a write without invoice lines changes nothing here; with lines, the order is recomputed and, without the skip flag, a retention line is considered |
| DownPayment.DpSaleLine | petroraq_sale_workflow/models/account_payment_term.py:50-52 | none exactly when no line is a non-display down-payment line; else the first such line |
| DownPayment.PaidSumNonNegative | petroraq_sale_workflow/models/account_payment_term.py:26-31 | the paid sum is never negative |
| DownPayment.DeductedSumNonNegative | petroraq_sale_workflow/models/account_payment_term.py:45-46 | the deducted sum is never negative |
| DownPayment.PaidSumIgnoresOthers | petroraq_sale_workflow/models/account_payment_term.py:26-43 | lines outside posted customer invoices move neither the paid nor the deducted sum |
| DownPayment.DpPaidAmount | petroraq_sale_workflow/models/account_payment_term.py:19-31 | 0 without a down-payment line; otherwise the positive subtotals of its posted customer-invoice lines, never negative |
| DownPayment.DpRemainingAmount | petroraq_sale_workflow/models/account_payment_term.py:33-48 | paid minus deducted, never below 0 and never above the paid amount |
| DownPayment.Clamp01 | petroraq_sale_workflow/models/account_payment_term.py:73 | the result lies in [0, 1] and keeps a value already there |
| DownPayment.DpDeductedQty | petroraq_sale_workflow/models/account_payment_term.py:54-73 | 0 without a down-payment line; else the absolute quantities of its posted negative lines, rounded to six digits and clamped to [0, 1] |
| DownPayment.IsFullyDelivered | petroraq_sale_workflow/models/account_payment_term.py:75-91 | true exactly when some stockable or consumable line exists and every such line has its delivered quantity at least the ordered one at the unit's rounding |
| DownPayment.DeliveredExact | petroraq_sale_workflow/models/account_payment_term.py:86-89 | for quantities on the unit's rounding grid, a line is delivered exactly when the delivered quantity reaches the ordered one |
| DownPayment.DeductionAccount | petroraq_sale_workflow/models/account_payment_term.py:99-105 | the product's income account first, then its property account, then its category account, then the company default; without a product the company default; none only when the company default is none |
| DownPayment.PrepareDpDeductionLineVals | petroraq_sale_workflow/models/account_payment_term.py:93-119 | no line for an amount rounding to zero or without an account; otherwise one unit at minus the amount on the down-payment sale line, with its name or "Down Payment Deduction" and its taxes or none |
| DownPayment.InvoiceOrderBaseOnlyOrderLines | petroraq_sale_workflow/models/account_payment_term.py:121-129 | lines from other orders, display lines and down-payment lines do not move an invoice's base |
| DownPayment.DeductionBudget | petroraq_sale_workflow/models/account_payment_term.py:134-150 | an amount exactly when the order has a percent, a down-payment line, a paid amount and a remaining amount not rounding to zero; that amount is the remaining one and positive |
| DownPayment.InvoiceDeduction | petroraq_sale_workflow/models/account_payment_term.py:156-178 | a line exactly when the invoice is eligible, the smaller of what is left and base times percent is positive and not zero at the rounding, and an account is found; the line has that amount and is a good deduction |
| DownPayment.TotalAmountAppend | petroraq_sale_workflow/models/account_payment_term.py:178 | a new line adds its amount to the total deducted |
| DownPayment.AllocateBudget | petroraq_sale_workflow/models/account_payment_term.py:147-178 | what is left stays in [0, budget], the lines add up to what was used, and each line saw what was left after the ones before it |
| DownPayment.AllocateTargets | petroraq_sale_workflow/models/account_payment_term.py:152-178 | each line goes to a different eligible invoice, in invoice order, within that invoice's cap and within what was left |
| DownPayment.AllocateSkipsOnlyUnfit | petroraq_sale_workflow/models/account_payment_term.py:152-178 | an invoice receives a line exactly when its own deduction, computed from what the earlier invoices left, exists; an invoice without a line is ineligible, has a non-positive or zero-rounding target, or has no account |
| DownPayment.GoodTargetsWiden | petroraq_sale_workflow/models/account_payment_term.py:156 | lines placed in the first invoices stay well placed in the whole list |
| DownPayment.GoodTargetsAppend | petroraq_sale_workflow/models/account_payment_term.py:173-178 | a good line for the next invoice extends the placed lines |
| DownPayment.IncreasingAppend | petroraq_sale_workflow/models/account_payment_term.py:156 | adding a later invoice keeps the targets in increasing order |
| DownPayment.AllocateDeductions | petroraq_sale_workflow/models/account_payment_term.py:152-178 | the loop produces exactly the allocation defined above |
| DownPayment.CreateInvoiceDeductions | petroraq_sale_workflow/models/account_payment_term.py:131-180 | without a passing guard no line; otherwise exactly the lines and invoices of the allocation over the invoices in order, which total between 0 and the remaining down payment, each on a distinct eligible invoice within its cap and what was left |
| Estimation.QuantityHours | petroraq_sale_workflow/models/estimation.py:504-510 | lines outside labor and equipment have no hours |
| Estimation.Subtotal | petroraq_sale_workflow/models/estimation.py:512-521 | labor and equipment cost count times days times hours per day times the unit cost; other sections cost quantity times unit cost |
| Estimation.SectionTotalAppend | petroraq_sale_workflow/models/estimation.py:195-198 | a section's total is additive over a split of its lines |
| Estimation.SubtotalNonNegative | petroraq_sale_workflow/models/estimation.py:504-521 | a line with non-negative inputs has a non-negative subtotal |
| Estimation.SectionTotalNonNegative | petroraq_sale_workflow/models/estimation.py:195-198 | lines with non-negative inputs total at least zero |
| Estimation.CascadeClosedForm | petroraq_sale_workflow/models/estimation.py:203-214 | overhead and risk are percents of the base, the buffer is base plus both, profit is a percent of the buffer, and the total with profit is buffer plus profit |
| Estimation.ComputeEstimationTotals | petroraq_sale_workflow/models/estimation.py:193-214 | each section total is the sum of its subtotals, the total is their sum, and the cascade is applied to that total |
| Estimation.ScaleBounds | petroraq_sale_workflow/models/estimation.py:204-207 | a percent in [0, 100] of a non-negative amount lies between 0 and the amount |
| Estimation.CascadeBounds | petroraq_sale_workflow/models/estimation.py:203-233 | with percents the constraint accepts and a non-negative base, base <= buffer <= 3 * base and buffer <= total with profit <= 2 * buffer |
| Estimation.CheckPercent | petroraq_sale_workflow/models/estimation.py:229-233 | a percent passes exactly when it lies in [0, 100]; below 0 it reports the negative message, above 100 the over-100 message |
| Estimation.CheckPercentages | petroraq_sale_workflow/models/estimation.py:225-233 | the three percents pass exactly when all are in [0, 100]; otherwise the check of the first one out of range, in the order overhead, risk, profit, decides the message |
| Estimation.IntoToMd | petroraq_sale_workflow/models/estimation.py:289-293 | the only way into MD approval is a manager approval from manager approval |
| Estimation.ApprovedNeedsBothApprovals | petroraq_sale_workflow/models/estimation.py:281-310 | an estimation that ends approved without starting approved went through a manager approval and, later, an MD approval (only the MD approval when it started there) |
| Estimation.ShowRejectButton | petroraq_sale_workflow/models/estimation.py:165-176 | the button shows exactly to an approval manager on manager approval or an MD on MD approval, and only where rejecting succeeds |
| Estimation.NameOnCreate | petroraq_sale_workflow/models/estimation.py:159-163 | a name other than "New" is kept; otherwise the next sequence value, or "New" when there is none |
| Estimation.ComputeSectionRefs | petroraq_sale_workflow/models/estimation.py:433-438 | only the line's own section points back at its estimation, so at most one reference is set, and estimation and section are kept |
| Estimation.InverseSectionRefs | petroraq_sale_workflow/models/estimation.py:440-453 | only the estimation and the section type change; with no reference set nothing changes; otherwise the first set reference in the order material, labor, equipment, subcontract gives the estimation and the section type |
| Estimation.CheckSingleSection | petroraq_sale_workflow/models/estimation.py:468-478 | a line passes exactly when at most one reference is set |
| Estimation.ComputedRefsPassCheck | petroraq_sale_workflow/models/estimation.py:433-478 | computed references always pass the single-section constraint |
| Estimation.InverseThenCompute | petroraq_sale_workflow/models/estimation.py:433-453 | for a line with one reference set, the inverse followed by the compute gives the same references back |
| Estimation.ComputeThenInverse | petroraq_sale_workflow/models/estimation.py:433-453 | the compute followed by the inverse keeps the line's estimation and section |
| Estimation.FirstSetSection | petroraq_sale_workflow/models/estimation.py:340-341 | when a section is chosen, its reference is truthy in the dict; none is chosen only when no reference is truthy |
| Estimation.FirstSetSectionBefore | petroraq_sale_workflow/models/estimation.py:334-341 | the sections are examined in the order material, labor, equipment, subcontract |
| Estimation.SetDefaultFalse | petroraq_sale_workflow/models/estimation.py:346 | `setdefault` sets an absent reference to False and leaves every other key alone |
| Estimation.DefaultOtherRefs | petroraq_sale_workflow/models/estimation.py:344-346 | every other reference the dict leaves out becomes False; the chosen one and the other keys are kept |
| Estimation.FillSection | petroraq_sale_workflow/models/estimation.py:348-351 | the section is set when there is one, and its reference is filled from the estimation only when the dict has none |
| Estimation.PrepareSectionVals | petroraq_sale_workflow/models/estimation.py:331-352 | a truthy reference decides estimation and section and the other references default to False; otherwise the section comes from the dict, the context or the record, and its reference is filled from the estimation |
| Estimation.PetroraqEstimation.constructor | petroraq_sale_workflow/models/estimation.py:112-126 | a new estimation is draft, without comment, lines, quotation or percents |
| Estimation.PetroraqEstimation.ConfirmEstimation | petroraq_sale_workflow/models/estimation.py:281-287 | confirming succeeds from any state exactly when some section has a line, clearing the comment; otherwise it reports the missing lines and changes nothing, and the new state or error is the workflow step function's, so the properties proved about runs of steps hold for these buttons |
| Estimation.PetroraqEstimation.ManagerApprove | petroraq_sale_workflow/models/estimation.py:289-293 | succeeds exactly from manager approval and moves to MD approval; otherwise changes nothing, and the new state or error is the workflow step function's, so the properties proved about runs of steps hold for these buttons |
| Estimation.PetroraqEstimation.MdApprove | petroraq_sale_workflow/models/estimation.py:295-299 | succeeds exactly from MD approval and moves to approved; otherwise changes nothing, and the new state or error is the workflow step function's, so the properties proved about runs of steps hold for these buttons |
| Estimation.PetroraqEstimation.Reject | petroraq_sale_workflow/models/estimation.py:301-305 | succeeds exactly from draft, manager or MD approval and moves to rejected; otherwise changes nothing, and the new state or error is the workflow step function's, so the properties proved about runs of steps hold for these buttons |
| Estimation.PetroraqEstimation.ResetToDraft | petroraq_sale_workflow/models/estimation.py:307-310 | only a rejected estimation moves, back to draft, and the new state or error is the workflow step function's, so the properties proved about runs of steps hold for these buttons |
| Estimation.PetroraqEstimation.CheckOwnPercentages | petroraq_sale_workflow/models/estimation.py:225-233 | the record passes exactly when its three percents are in [0, 100] |
| Estimation.PetroraqEstimation.ComputeTotals | petroraq_sale_workflow/models/estimation.py:193-214 | the computed fields become the totals and cascade of the record's lines and percents |
| Estimation.PetroraqEstimation.SaleOrderGuard | petroraq_sale_workflow/models/estimation.py:235-241 | a quotation may be made or opened exactly when the estimation is approved and has a customer; the approval is checked first |
| Estimation.PetroraqEstimation.CreateSaleOrder | petroraq_sale_workflow/models/estimation.py:235-279 | a failing guard changes nothing; an existing quotation is opened; otherwise a construction quotation is created in the partner's company (else the estimation's), with the immediate term and inquiry, and linked |
| EmailMerge.StripNonEmpty | pr_odoo_email_cc/models/compose_mail.py:73-76 | the comprehension keeps only stripped, non-empty pieces and never adds any |
| EmailMerge.StripNonEmptyOfClean | pr_odoo_email_cc/models/compose_mail.py:73 | pieces that are already stripped and non-empty are all kept unchanged |
| EmailMerge.Parts | pr_odoo_email_cc/models/compose_mail.py:69-76 | every address an argument contributes is stripped and non-empty |
| EmailMerge.Collect | pr_odoo_email_cc/models/compose_mail.py:68-76 | every collected address is stripped and non-empty |
| EmailMerge.CollectEmails | pr_odoo_email_cc/models/compose_mail.py:68-76 | the collecting loop gathers exactly the addresses defined above, in argument order |
| EmailMerge.Firsts | pr_odoo_email_cc/models/compose_mail.py:77-84 | the de-duplicated list is no longer than its input and holds only input addresses |
| EmailMerge.FirstsStep | pr_odoo_email_cc/models/compose_mail.py:79-84 | the next address is kept exactly when its lower-case form was not seen, and its lower-case form is then seen |
| EmailMerge.UniqueEmails | pr_odoo_email_cc/models/compose_mail.py:77-84 | the loop keeps exactly the first address of each lower-case form, in input order |
| EmailMerge.FirstsLowers | pr_odoo_email_cc/models/compose_mail.py:77-84 | no address is lost up to case |
| EmailMerge.FirstsClean | pr_odoo_email_cc/models/compose_mail.py:77-84 | kept addresses stay stripped and non-empty |
| EmailMerge.FirstsNoCaseDuplicates | pr_odoo_email_cc/models/compose_mail.py:80-83 | no two kept addresses are equal ignoring case |
| EmailMerge.FirstsKeepsFirst | pr_odoo_email_cc/models/compose_mail.py:79-84 | an address whose lower-case form did not appear earlier is kept |
| EmailMerge.FirstsOfDistinct | pr_odoo_email_cc/models/compose_mail.py:77-84 | a list without case duplicates is kept whole |
| EmailMerge.FreeOfAppend | pr_odoo_email_cc/models/compose_mail.py:74 | joining two comma-free lists gives a comma-free list |
| EmailMerge.StripNonEmptyNoSep | pr_odoo_email_cc/models/compose_mail.py:73 | stripping keeps pieces free of a character they were free of |
| EmailMerge.CollectNoComma | pr_odoo_email_cc/models/compose_mail.py:72-74 | addresses split from comma strings contain no comma |
| EmailMerge.FirstsFreeOf | pr_odoo_email_cc/models/compose_mail.py:77-84 | de-duplication keeps addresses free of a character |
| EmailMerge.MergedEmailsProperties | pr_odoo_email_cc/models/compose_mail.py:66-85 | False exactly when nothing is left; otherwise stripped, non-empty, case-distinct addresses covering every input address up to case |
| EmailMerge.MergeEmails | pr_odoo_email_cc/models/compose_mail.py:66-85 | the merge method returns the merged value defined above |
| EmailMerge.MergeIdempotent | pr_odoo_email_cc/models/compose_mail.py:66-85 | when every argument is a string, merging the merged result again gives it back |
| EmailMerge.DefaultCc | pr_odoo_email_cc/models/compose_mail.py:58-60 | the company's default cc when it displays the cc field, else False |
| EmailMerge.DefaultBcc | pr_odoo_email_cc/models/compose_mail.py:62-64 | the company's default bcc when it displays the bcc field, else False |
| EmailMerge.UpdateRecords | pr_odoo_email_cc/models/compose_mail.py:97-104 | every listed record gets the update, new records are added, and unlisted records keep their values |
| EmailMerge.GetMailValues | pr_odoo_email_cc/models/compose_mail.py:87-106 | every listed record gets the composer's "to" when set (else its own) and the same merged cc and bcc; the others keep their values |
| EmailCcBcc.Defaults | odoo_email_cc_bcc/models/compose_mail.py:55-71 | each of cc, bcc and reply-to is the company's default exactly when the company displays that field, and unset otherwise |
| EmailCcBcc.DefaultsIndependent | odoo_email_cc_bcc/models/compose_mail.py:55-71 | hiding the cc field clears only the cc default; bcc and reply-to are unaffected |
| EmailCcBcc.Contribution | odoo_email_cc_bcc/models/compose_mail.py:784-796 | a `(4, id)` command adds its id, a `(6, _, ids)` command adds all of its ids, a plain id adds itself, anything else adds nothing; only a tuple can raise |
| EmailCcBcc.NormalisedMembers | odoo_email_cc_bcc/models/compose_mail.py:784-807 | the recipient loop succeeds exactly when every command succeeds, and then yields exactly the union of what the commands contribute |
| EmailCcBcc.NormalisedErrorSticks | odoo_email_cc_bcc/models/compose_mail.py:784-807 | once a command raises, the later commands cannot change the error |
| EmailCcBcc.NormaliseRecipients | odoo_email_cc_bcc/models/compose_mail.py:784-807 | the loop returns the set of partner ids of the command list, or the first error it raises |
| EmailCcBcc.Ints | odoo_email_cc_bcc/models/compose_mail.py:743-748 | a list that holds only ids becomes the list of those ids, the same length and in order |
| EmailCcBcc.PostCheck | odoo_email_cc_bcc/models/compose_mail.py:721-807 | posting passes exactly when the record is a saved business document, the message is not a user notification, the attachments are well formed, the attachment and partner ids are ints and both recipient lists normalise; the first two checks come first |
| EmailCcBcc.MessagePost | odoo_email_cc_bcc/models/compose_mail.py:674-867 | the post fails exactly when a check fails, with that error; otherwise the stored message has the record, the type, the subject when set, the partner ids, and the raw cc/bcc commands |
| EmailCcBcc.RawCommandsStored | odoo_email_cc_bcc/models/compose_mail.py:784-837 | two different command lists naming the same partner normalise alike, yet the message stores them as written |
| EmailCcBcc.ExtendRestrictingNames | odoo_email_cc_bcc/models/compose_mail.py:668-672 | a missing or empty set of restricting names is kept; a non-empty one gains exactly the five recipient field names |
| EmailCcBcc.PartnerEntries | odoo_email_cc_bcc/models/compose_mail.py:164-175 | a partner contributes one address per normalised email, or one built from the raw email ("False" when unset), each under the partner's name |
| EmailCcBcc.PartnerEmailListCovers | odoo_email_cc_bcc/models/compose_mail.py:164-175 | every partner gets at least one address; with at most one normalised email each, exactly one |
| EmailCcBcc.GetPartnerEmailList | odoo_email_cc_bcc/models/compose_mail.py:164-175 | the list is the partners' address entries, partner after partner |
| EmailCcBcc.WithPartnerCopies | odoo_email_cc_bcc/models/compose_mail.py:180-189 | an outgoing mail keeps its recipients and body, and its cc and bcc lists become its own followed by the partner addresses |
| EmailCcBcc.PrepareOutgoingList | odoo_email_cc_bcc/models/compose_mail.py:177-190 | with the `cc` context every outgoing mail gets the cc and bcc partners' addresses appended; without it the list is unchanged |
| EmailCcBcc.Chunks | odoo_email_cc_bcc/models/compose_mail.py:613 | the chunks put the recipients back together in order, no chunk is empty or longer than the limit, and all but the last are full |
| EmailCcBcc.ChunkCount | odoo_email_cc_bcc/models/compose_mail.py:589-613 | the number of chunks is the recipient count divided by the limit, rounded up |
| EmailCcBcc.FlattenAppend | odoo_email_cc_bcc/models/compose_mail.py:613 | concatenating chunk lists concatenates their recipients |
| EmailCcBcc.GroupMailsCover | odoo_email_cc_bcc/models/compose_mail.py:589-613 | across all recipient groups every recipient appears exactly once, in order, with at most 50 to a mail |
| EmailCcBcc.ForceSendThreshold | odoo_email_cc_bcc/models/compose_mail.py:589-657 | with the default limit of 100 mails, a single group is sent at once up to 4950 recipients and queued beyond |
| EmailCcBcc.ForceSend | odoo_email_cc_bcc/models/compose_mail.py:655-657 | sending at once needs fewer mails than the configured limit (100 by default); the context flag, when present, overrides the argument, so a false flag never sends and a true one sends below the default limit |
| EmailCcBcc.NotifyThreadByEmail | odoo_email_cc_bcc/models/compose_mail.py:566-657 | no mails and no sending without recipients notified by email; otherwise one mail per chunk of each group, and sent at once only when requested and below the limit |
| EmailCcBcc.CcBccMailValues | odoo_email_cc_bcc/models/compose_mail.py:901-935 | the cc/bcc mail takes the message's subject, else "Re: " and the record name, else none; copies the message's cc, bcc and to fields; and follows the context's force-send setting over the argument |
| EmailCcBcc.CcBccMailsAsWritten | odoo_email_cc_bcc/models/compose_mail.py:892-897 | as written, `_notify_thread` makes a cc/bcc mail and the early return of `_notify_thread_by_email` (lines 566-570) may make a second: at most two, and none exactly when the message has no copy recipients |
| EmailCcBcc.CcBccMailSentTwice | odoo_email_cc_bcc/models/compose_mail.py:892-897 | a message with only a cc address, posted where nobody is notified by email, gets the cc/bcc mail twice |
| EmailCcBcc.CcBccMails | odoo_email_cc_bcc/models/compose_mail.py:892-893 | one cc/bcc mail exactly when the message has some copy recipient, never more |
| EmailCcBcc.CcBccMailsAgree | odoo_email_cc_bcc/models/compose_mail.py:892-897 | the written and intended counts agree whenever someone is notified by email or email notification is off; the written count is double exactly in the remaining case |
| Inventory.SheetTotals | custom_pr_system/models/inventory.py:41-46 | the subtotal is the sum of quantity times unit price over the lines, the VAT is 15% of it, and the grand total is 115% of it |
| Inventory.SheetTotalsNonNegative | custom_pr_system/models/inventory.py:41-46 | lines with non-negative quantities and prices give a non-negative subtotal that does not exceed the grand total |
| Inventory.SearchProduct | custom_pr_system/models/inventory.py:120 | the first product in search order with the line's name; none exactly when no product has that name |
| Inventory.ExpenseAccount | custom_pr_system/models/inventory.py:84-96 | the product's expense account, else its category's, else the company's; the error exactly when none of these exists |
| Inventory.ExpenseAccountAsWritten | custom_pr_system/models/inventory.py:84-96 | as written, an account is found exactly when the product or its category has one; otherwise the missing company field raises |
| Inventory.ExpenseAccountWithoutProduct | custom_pr_system/models/inventory.py:88-129 | without a product, the written lookup raises even where the company has an expense account, while the intended one returns it |
| Inventory.BillLine | custom_pr_system/models/inventory.py:119-130 | a bill line has the sheet line's name (else "GRN/SES Item"), its quantity (else 1) and unit price, and exactly one of the found product or the expense account; none exactly when neither exists |
| Inventory.FirstDraft | custom_pr_system/models/inventory.py:107 | the first draft among the sheet's bills in search order; none exactly when no bill is a draft |
| Inventory.DraftFoundAfterCreation | custom_pr_system/models/inventory.py:107-140 | after a bill is created, a second call opens that draft instead of creating another bill |
| Inventory.ReportBaseFilename | custom_pr_system/models/inventory.py:164-169 | no report name exactly when the sheet is not approved; otherwise the sheet's name followed by "_Report" |
| Inventory.PrintGuard | custom_pr_system/models/inventory.py:171-175 | printing is allowed exactly when every sheet is at the approved stage |
| Inventory.ReportValues | custom_pr_system/models/inventory.py:298-307 | the report gets its documents, in order, exactly when every sheet is approved, and raises otherwise |
| Inventory.GrnSes.constructor | custom_pr_system/models/inventory.py:10-39 | a new sheet is pending, neither reviewed nor approved, has no bills, and its totals are those of its lines |
| Inventory.GrnSes.ComputeTotals | custom_pr_system/models/inventory.py:41-46 | the sheet's totals become those of its lines |
| Inventory.GrnSes.ActionReview | custom_pr_system/models/inventory.py:53-67 | the sheet becomes reviewed and at the reviewed stage, from any stage |
| Inventory.GrnSes.ActionApprove | custom_pr_system/models/inventory.py:69-82 | the sheet becomes approved and at the approved stage, from any stage |
| Inventory.BuildBillLines | custom_pr_system/models/inventory.py:118-130 | the line loop succeeds exactly when every sheet line gets a bill line, and then gives each line its bill line in order; otherwise it reports the missing expense account |
| Inventory.GrnSes.ActionCreateVendorBill | custom_pr_system/models/inventory.py:98-151 | unapproved, vendorless and empty sheets are refused in that order; after them the first existing draft is opened; otherwise one bill line per sheet line with the vendor, today's date, the order as origin and the vendor reference (else the sheet's name), and exactly one new draft bill; the only other failure is a line with no expense account. The lines use the corrected account fallback of the Findings table: as written, a line whose product search finds nothing raises before the fallback is reached |
| Inventory.ReviewAfterApproveBlocksPrint | custom_pr_system/models/inventory.py:164-175 | a sheet approved and then reviewed has a report name and report values, yet cannot be printed |
| Inventory.OfType | custom_pr_system/models/inventory.py:214-215 | the filtered lines all have the chosen type and are no more than the order's lines |
| Inventory.OfTypeMembers | custom_pr_system/models/inventory.py:214-215 | a line is among the filtered lines exactly when it is an order line of that type |
| Inventory.SplitPartitions | custom_pr_system/models/inventory.py:214-215 | the material and service lines together are exactly the order's lines, each line in one of them |
| Inventory.SheetLines | custom_pr_system/models/inventory.py:236-269 | each sheet line copies its custom line's name, quantity, unit, type and price, with the wizard's remarks |
| Inventory.NamedSheet | custom_pr_system/models/inventory.py:231-271 | a sheet is named after its kind and the order, carries the order's common values, and has lines exactly when it was given some |
| Inventory.CommonVals | custom_pr_system/models/inventory.py:217-229 | both sheets refer to the order and copy its vendor and vendor reference |
| Inventory.WizardSheetBillHeader | custom_pr_system/models/inventory.py:217-229 | a bill made from a wizard sheet has the order's name as origin and the order's vendor reference when it has one |
| Inventory.ActionCreateGrnSes | custom_pr_system/models/inventory.py:208-284 | a GRN of the material lines and then an SES of the service lines, each made only when it has lines, every one referring to the order |

## Left out

- Sending mail: `Mail._send`, SMTP, the mail queue and the post-commit send hook. These are I/O. The model only decides which mails are created and whether they are sent at once.
- Notifications, activities and chatter messages: `_notify_supervisor`, `_notify_procurement_admins`, the activity schedules of the sheets and the wizard, and the posted "created from" messages. These are framework notification plumbing and do not affect the modelled state.
- The ORM itself. Searches, `filtered`, `mapped`, `create` and `write` become sequences and returned values, and new record ids are parameters. Access rights, `sudo` and record rules are not modelled.
- The opening-balance SQL query of the ledger report. It is modelled by its fetched result. The unused `opening_balance_domain` is not modelled.
- `formataddr` and `email_normalize_all`. These are foreign mail utilities. An address is kept as a name/email pair, and each partner carries its normalised addresses as data.
- Number and date formatting for display: the `"{:,.2f}"` amounts, the `"Retention (%s%%)"` line label and the `%b-%d-%Y` report dates. These are presentation only. The ISO date format the wizard and report exchange is modelled in `Dates`.
- Floating point. Amounts are exact reals. The framework's rounding and comparison helpers are stated on them in `Precision` with half-up rounding, so binary float error is not modelled.
- Onchange handlers and plain computed display fields: `_onchange_partner_company`, `_onchange_product_id`, `_onchange_section_type`, `_onchange_percent_validation`, `_onchange_priority_set_required_date` and `_compute_currency_id`. They only prefill form values in the user interface.
- The `create` and `write` of estimation lines. Each only applies `_prepare_section_vals` to every value dict before the framework's write. That step is `Estimation.PrepareSectionVals`.
- `GrnSes._compute_bill_count` and `action_view_vendor_bills`. These only count and display the bills the model already keeps.
- The parent class's checks, which `message_post` and `_notify_thread` call through `super()`. Only the checks written in this repository are modelled.
- `EmailCcBcc.ExtendRestrictingNames` returns the extended set instead of updating the caller's set in place. Aliasing of that set is not modelled.
- `resend_existing` handling, attachment processing, author subscription and the `cc_email` flag of `_notify_thread_by_email`. These are framework notification details outside the cc/bcc logic.
- Mail layout and rendering in the cc/bcc mail: the template, the local-link rewriting of the body, the headers and the mail server. The rewritten body is a parameter of `EmailCcBcc.CcBccMailValues`.
- The `grand_total` field test of the cost-centre budget. Whether the purchase order model has that field is a parameter, `hasGrandTotal`.
- `print_xlsx_report` of the ledger wizard. It only builds the report action for a spreadsheet file.
- UniqueEmails, Firsts and Text.Lower: the case-insensitive de-duplication of addresses folds only ASCII letters. Python's `str.lower()` also folds other letters, which is not modelled.
- Text.ParseInt: only ASCII digits are read. Python's `int()` also accepts other Unicode decimal digits.
- Requisition.PurchaseRequisition.Write: only the approval, priority and required date are written. The PR type is a constant because nothing modelled changes it after creation, and a new name in the values is not applied.
- Requisition.PurchaseRequisition.Write: the custom PR found by the name search of `custom_user_portal/models/models.py:139-143` is a parameter, so its tie to the requisition's name is not modelled.
- Requisition.OrderVals: the request date, requester, department, supervisor and supervisor partner copied unchanged into the RFQ and purchase-order values (`custom_user_portal/models/models.py:363-367` and `:467-471`) are not modelled.
- Requisition.CustomLine: a PR line type other than material or service would make the framework refuse the custom line, because the selection field allows only those two. Field validation is not modelled.
- LedgerWizard: one `today` parameter stands for both `fields.Date.context_today` and `Date.today`. Their time-zone difference is not modelled.
- The `not self.pool._init` condition of the force-send step of `_notify_thread_by_email`. It only holds while the registry is loading, which is outside the model.
- The XML views, security files, HTTP controllers and front-end scripts. They hold no business rules beyond the ones modelled here.

## Findings

| source | as written | input that shows it | evidently intended | confidence | as-written member | corrected member |
|---|---|---|---|---|---|---|
| odoo_email_cc_bcc/models/compose_mail.py:892-897 | `_notify_thread` creates the cc/bcc mail whenever the message has copy recipients. Then `_notify_thread_by_email`, reached with `notify_by_email` on, creates it again (lines 566-570) when no recipient is notified by email | a message with only `email_cc` set, posted on a record whose followers are all notified in the inbox | one cc/bcc mail per message | high, not executed | EmailCcBcc.CcBccMailsAsWritten | EmailCcBcc.CcBccMails |
| custom_pr_system/models/inventory.py:88-93 | the company fallback of `_get_expense_account` reads `self.company_id`, but `grn.ses` declares no such field (lines 10-39). The vendor bill calls it without a product, so a sheet line with no matching product raises instead of taking the company's expense account | an approved sheet with a vendor and one line whose name matches no product | the first active expense account of the company | medium, not executed | Inventory.ExpenseAccountAsWritten | Inventory.ExpenseAccount |
