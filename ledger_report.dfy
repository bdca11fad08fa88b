/**
 * The multi-account ledger report
 * (account_ledger/report/account_ledger_multi_report.py): per account, an
 * opening row, one row per journal item with a running balance, and a
 * closing row with the period's totals; plus the report header values.
 */
module LedgerReport {
  import opened Common
  import opened Text
  import Dates

  /** A posted journal item of the account in the period, with the analytic accounts it is distributed to. */
  datatype JournalItem = JournalItem(
    moveName: string, date: string, name: string, reference: string, journalName: string,
    debit: real, credit: real, analytics: set<int>)

  /** A row of the report; `transactionRef` is `None` on the closing row (`False`). */
  datatype Row = Row(
    transactionRef: Option<string>, date: string, description: string, reference: string, journal: string,
    initialBalance: real, debit: real, credit: real, balance: real)

  /** The analytic filters of the wizard's form, in key order; `None` is an unset filter. */
  datatype AnalyticFilters = AnalyticFilters(
    department: Option<nat>, section: Option<nat>, project: Option<nat>, employee: Option<nat>, asset: Option<nat>)

  /** Python truthiness of a form value: set and not 0. */
  predicate Truthy(v: Option<nat>) {
    v.Some? && v.value != 0
  }

  // ---------------------------------------------------------------------
  // Journal item selection
  // ---------------------------------------------------------------------

  /** The items distributed to analytic account `id`, in their order. */
  function OnAnalytic(items: seq<JournalItem>, id: nat): (r: seq<JournalItem>)
    ensures |r| <= |items|
    ensures forall x :: x in r <==> x in items && id in x.analytics
  {
    if items == [] then []
    else (if id in items[0].analytics then [items[0]] else []) + OnAnalytic(items[1..], id)
  }

  function FilterIf(items: seq<JournalItem>, v: Option<nat>): seq<JournalItem> {
    if Truthy(v) then OnAnalytic(items, v.value) else items
  }

  predicate Passes(x: JournalItem, v: Option<nat>) {
    Truthy(v) ==> v.value in x.analytics
  }

  /**
   * The journal items the report lists: the account's posted items of the
   * period, date ordered, narrowed by each set analytic filter in turn
   * (department in the first search, then section, project, employee and
   * asset).
   */
  function SelectJournalItems(items: seq<JournalItem>, f: AnalyticFilters): (r: seq<JournalItem>)
    ensures forall x :: x in r <==>
      x in items && Passes(x, f.department) && Passes(x, f.section) && Passes(x, f.project)
      && Passes(x, f.employee) && Passes(x, f.asset)
  {
    FilterIf(FilterIf(FilterIf(FilterIf(FilterIf(items, f.department), f.section), f.project), f.employee), f.asset)
  }

  // ---------------------------------------------------------------------
  // Opening balance
  // ---------------------------------------------------------------------

  /**
   * The initial balance from the opening-balance query's single row: no
   * row, a NULL sum or a zero sum all give 0.
   */
  function InitialBalance(fetched: Option<Option<real>>): (r: real)
    ensures fetched.None? || fetched.value.None? ==> r == 0.0
    ensures fetched.Some? && fetched.value.Some? ==> r == fetched.value.value
  {
    match fetched
    case None => 0.0
    case Some(sum) => if sum.Some? && sum.value != 0.0 then sum.value else 0.0
  }

  /** The opening row's debit and credit: the balance on the side of its sign. */
  function OpeningDebit(init: real): real {
    if init > 0.0 then init else 0.0
  }

  function OpeningCredit(init: real): real {
    if init < 0.0 then -init else 0.0
  }

  /** The opening split is non-negative on both sides and nets to the balance. */
  lemma OpeningSplit(init: real)
    ensures OpeningDebit(init) >= 0.0 && OpeningCredit(init) >= 0.0
    ensures OpeningDebit(init) - OpeningCredit(init) == init
    ensures OpeningDebit(init) == 0.0 || OpeningCredit(init) == 0.0
  {
  }

  // ---------------------------------------------------------------------
  // Rows
  // ---------------------------------------------------------------------

  function SumDebit(items: seq<JournalItem>): real {
    if items == [] then 0.0 else SumDebit(items[..|items| - 1]) + items[|items| - 1].debit
  }

  function SumCredit(items: seq<JournalItem>): real {
    if items == [] then 0.0 else SumCredit(items[..|items| - 1]) + items[|items| - 1].credit
  }

  /** The balance after the given items. */
  function RunningBalance(init: real, items: seq<JournalItem>): real {
    init + SumDebit(items) - SumCredit(items)
  }

  function OpeningRow(dateStart: string, init: real): Row {
    Row(Some("Opening"), dateStart, "Opening Balance", " ", " ", init, OpeningDebit(init), OpeningCredit(init), init)
  }

  function ItemRow(item: JournalItem, before: real): Row {
    Row(Some(item.moveName), item.date, item.name, item.reference, item.journalName,
        before, item.debit, item.credit, before + (item.debit - item.credit))
  }

  /** One row per item, each carrying the balance before it and after it. */
  function ItemRows(init: real, items: seq<JournalItem>): (r: seq<Row>)
    ensures |r| == |items|
  {
    if items == [] then []
    else
      var n := |items| - 1;
      ItemRows(init, items[..n]) + [ItemRow(items[n], RunningBalance(init, items[..n]))]
  }

  function ClosingRow(init: real, items: seq<JournalItem>): Row {
    Row(None, " ", " ", " ", " ", init, SumDebit(items), SumCredit(items), init + SumDebit(items) - SumCredit(items))
  }

  /** The rows `_build_account_docs` returns. */
  function Docs(dateStart: string, init: real, items: seq<JournalItem>): seq<Row> {
    [OpeningRow(dateStart, init)] + ItemRows(init, items) + [ClosingRow(init, items)]
  }

  lemma {:induction false} ItemRowsAt(init: real, items: seq<JournalItem>, k: nat)
    requires k < |items|
    ensures ItemRows(init, items)[k] == ItemRow(items[k], RunningBalance(init, items[..k]))
  {
    var n := |items| - 1;
    if k < n {
      ItemRowsAt(init, items[..n], k);
      assert items[..n][..k] == items[..k];
    } else {
      assert items[..n] == items[..k];
    }
  }

  /** Adding one item moves the running balance by its debit minus its credit. */
  lemma RunningBalanceStep(init: real, items: seq<JournalItem>, k: nat)
    requires k < |items|
    ensures RunningBalance(init, items[..k + 1]) == RunningBalance(init, items[..k]) + (items[k].debit - items[k].credit)
  {
    assert items[..k + 1][..k] == items[..k];
  }

  /**
   * The shape of the report for one account: items + 2 rows, an opening
   * row first and a closing row (no transaction reference) last; the
   * opening row carries the initial balance split into debit and credit.
   */
  lemma DocsShape(dateStart: string, init: real, items: seq<JournalItem>)
    ensures var d := Docs(dateStart, init, items);
            && |d| == |items| + 2
            && d[0].transactionRef == Some("Opening") && d[0].balance == init
            && d[0].debit - d[0].credit == init
            && d[|d| - 1].transactionRef.None?
            && forall k :: 1 <= k <= |items| ==> d[k].transactionRef.Some?
  {
    var d := Docs(dateStart, init, items);
    OpeningSplit(init);
    forall k | 1 <= k <= |items|
      ensures d[k].transactionRef.Some?
    {
      ItemRowsAt(init, items, k - 1);
    }
  }

  /**
   * Each item row's balance is the previous row's balance plus its debit
   * minus its credit, and it shows the previous balance as its initial one.
   */
  lemma DocsRunningBalance(dateStart: string, init: real, items: seq<JournalItem>, k: nat)
    requires k < |items|
    ensures var d := Docs(dateStart, init, items);
            && d[k + 1].initialBalance == d[k].balance
            && d[k + 1].balance == d[k].balance + items[k].debit - items[k].credit
            && d[k + 1].debit == items[k].debit && d[k + 1].credit == items[k].credit
  {
    var d := Docs(dateStart, init, items);
    ItemRowsAt(init, items, k);
    if k > 0 {
      ItemRowsAt(init, items, k - 1);
      RunningBalanceStep(init, items, k - 1);
    } else {
      assert items[..0] == [];
    }
  }

  /**
   * The closing row's totals are the sums of the items' debits and credits,
   * and its balance is the last running balance.
   */
  lemma DocsClosing(dateStart: string, init: real, items: seq<JournalItem>)
    ensures var d := Docs(dateStart, init, items);
            && d[|d| - 1].debit == SumDebit(items) && d[|d| - 1].credit == SumCredit(items)
            && d[|d| - 1].initialBalance == init
            && d[|d| - 1].balance == d[|d| - 2].balance
  {
    var d := Docs(dateStart, init, items);
    if items != [] {
      var n := |items| - 1;
      ItemRowsAt(init, items, n);
      RunningBalanceStep(init, items, n);
      assert items[..n + 1] == items;
    }
  }

  /** `_build_account_docs` for one account, given its selected items and the opening query's row. */
  method BuildAccountDocs(dateStart: string, items: seq<JournalItem>, fetched: Option<Option<real>>)
    returns (docs: seq<Row>)
    ensures docs == Docs(dateStart, InitialBalance(fetched), items)
  {
    var initialBalance := InitialBalance(fetched);
    var tDebit, tCredit := 0.0, 0.0;
    var initBalance := initialBalance;
    docs := [OpeningRow(dateStart, initialBalance)];
    var i := 0;
    while i < |items|
      invariant 0 <= i <= |items|
      invariant docs == [OpeningRow(dateStart, initBalance)] + ItemRows(initBalance, items[..i])
      invariant tDebit == SumDebit(items[..i]) && tCredit == SumCredit(items[..i])
      invariant initialBalance == RunningBalance(initBalance, items[..i])
    {
      var item := items[i];
      assert items[..i + 1][..i] == items[..i];
      var balance := initialBalance + (item.debit - item.credit);
      tDebit := tDebit + item.debit;
      tCredit := tCredit + item.credit;
      docs := docs + [ItemRow(item, initialBalance)];
      initialBalance := balance;
      i := i + 1;
    }
    assert items[..|items|] == items;
    docs := docs + [Row(None, " ", " ", " ", " ", initBalance, tDebit, tCredit, initBalance + tDebit - tCredit)];
  }

  // ---------------------------------------------------------------------
  // Report values
  // ---------------------------------------------------------------------

  function FilterValues(f: AnalyticFilters): seq<Option<nat>> {
    [f.department, f.section, f.project, f.employee, f.asset]
  }

  /** The set values among `vs`, in order. */
  function SetValues(vs: seq<Option<nat>>): (r: seq<nat>)
    ensures |r| <= |vs|
    ensures forall i :: 0 <= i < |r| ==> r[i] != 0
    ensures forall k :: 0 <= k < |vs| && Truthy(vs[k]) ==> vs[k].value in r
  {
    if vs == [] then []
    else
      var n := |vs| - 1;
      var r := SetValues(vs[..n]) + (if Truthy(vs[n]) then [vs[n].value] else []);
      assert forall k :: 0 <= k < n ==> vs[..n][k] == vs[k];
      r
  }

  /**
   * The analytic-id collection of `_get_report_values`: the set filters in
   * the order department, section, project, employee, asset, as integers
   * and as their decimal strings.
   */
  method CollectAnalyticIds(f: AnalyticFilters) returns (ids: seq<nat>, strIds: seq<string>)
    ensures ids == SetValues(FilterValues(f))
    ensures |strIds| == |ids| && forall k :: 0 <= k < |ids| ==> strIds[k] == NatToString(ids[k])
  {
    var keys := FilterValues(f);
    ids, strIds := [], [];
    var i := 0;
    while i < 5
      invariant 0 <= i <= 5
      invariant ids == SetValues(keys[..i])
      invariant |strIds| == |ids| && forall k :: 0 <= k < |ids| ==> strIds[k] == NatToString(ids[k])
    {
      assert keys[..i + 1][..i] == keys[..i];
      if Truthy(keys[i]) {
        ids := ids + [keys[i].value];
        strIds := strIds + [NatToString(keys[i].value)];
      }
      i := i + 1;
    }
    assert keys[..5] == keys;
  }

  /** Every collected string id reads back as its integer id. */
  lemma StrIdsRoundTrip(ids: seq<nat>, strIds: seq<string>)
    requires |strIds| == |ids| && forall k :: 0 <= k < |ids| ==> strIds[k] == NatToString(ids[k])
    ensures forall k :: 0 <= k < |ids| ==> ParseInt(strIds[k]) == Some(ids[k] as int)
  {
    forall k | 0 <= k < |ids|
      ensures ParseInt(strIds[k]) == Some(ids[k] as int)
    {
      ParseNatToString(ids[k]);
    }
  }

  /**
   * `_get_valuation_dates`: both dates parsed as `%Y-%m-%d` and printed in
   * ISO form around " To "; a date that does not parse raises (`None`).
   */
  function ValuationDates(start: string, end: string): (r: Option<string>)
    ensures r.Some? <==> Dates.Parse(start).Some? && Dates.Parse(end).Some?
  {
    match (Dates.Parse(start), Dates.Parse(end))
    case (Some(a), Some(b)) => Some(Dates.Format(a) + " To " + Dates.Format(b))
    case _ => None
  }

  /** Dates the wizard writes come back unchanged. */
  lemma ValuationDatesOfFormatted(a: Dates.Date, b: Dates.Date)
    requires Dates.Valid(a) && Dates.Valid(b)
    ensures ValuationDates(Dates.Format(a), Dates.Format(b)) == Some(Dates.Format(a) + " To " + Dates.Format(b))
  {
    Dates.ParseFormat(a);
    Dates.ParseFormat(b);
  }

  /** `", ".join(names)`. */
  function JoinNames(names: seq<string>): string {
    if names == [] then "" else if |names| == 1 then names[0] else names[0] + ", " + JoinNames(names[1..])
  }

  /** The report's `account` header: the company name, and the account names when there are any. */
  function AccountHeader(companyName: string, accountNames: seq<string>): (r: string)
    ensures JoinNames(accountNames) == "" ==> r == companyName
    ensures JoinNames(accountNames) != "" ==> r == companyName + " - " + JoinNames(accountNames)
    ensures companyName <= r
  {
    var joined := JoinNames(accountNames);
    if joined != "" then companyName + " - " + joined else companyName
  }

  /** One account of the report: its display name and rows. */
  datatype AccountSection = AccountSection(accountName: string, docs: seq<Row>)

  /** The inputs of one selected account: its name, posted items of the period and opening query row. */
  datatype AccountInput = AccountInput(displayName: string, items: seq<JournalItem>, fetched: Option<Option<real>>)

  /** The per-account loop of `_get_report_values`. */
  method BuildAccounts(dateStart: string, f: AnalyticFilters, accounts: seq<AccountInput>)
    returns (sections: seq<AccountSection>)
    ensures |sections| == |accounts|
    ensures forall k :: 0 <= k < |accounts| ==>
      sections[k] == AccountSection(accounts[k].displayName,
                                    Docs(dateStart, InitialBalance(accounts[k].fetched), SelectJournalItems(accounts[k].items, f)))
  {
    sections := [];
    var i := 0;
    while i < |accounts|
      invariant 0 <= i <= |accounts|
      invariant |sections| == i
      invariant forall k :: 0 <= k < i ==>
        sections[k] == AccountSection(accounts[k].displayName,
                                      Docs(dateStart, InitialBalance(accounts[k].fetched), SelectJournalItems(accounts[k].items, f)))
    {
      var docs := BuildAccountDocs(dateStart, SelectJournalItems(accounts[i].items, f), accounts[i].fetched);
      sections := sections + [AccountSection(accounts[i].displayName, docs)];
      i := i + 1;
    }
  }
}
