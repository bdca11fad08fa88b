/**
 * The multi-account ledger wizard (account_ledger/wizard/account_ledger_multi.py):
 * its defaults, the account domain offered to the user, the partner list
 * derived from the period's move lines, and the form handed to the report.
 */
module LedgerWizard {
  import opened Common
  import Dates
  import LedgerReport

  datatype MainHead = Revenue | Expense

  /** The account selection domain: non-deprecated accounts outside `excluded`. */
  datatype AccountDomain = AccountDomain(excluded: set<int>)

  datatype Account = Account(id: int, deprecated: bool)

  predicate Admits(d: AccountDomain, a: Account) {
    !a.deprecated && a.id !in d.excluded
  }

  /** The accounts hidden from users who are not accounting managers. */
  const RestrictedAccounts: set<int> := {748, 749, 1132}

  datatype Partner = Partner(id: int, customerRank: int, supplierRank: int)

  datatype MoveLine = MoveLine(
    companyId: int, date: Dates.Date, posted: bool, debit: real, credit: real, accountId: int, partner: Option<Partner>)

  /** A term of the move-line search domain the partner lookup builds. */
  datatype Term =
    | CompanyIs(id: int)
    | DateFrom(d: Dates.Date)
    | DateTo(d: Dates.Date)
    | MovePosted
    | CreditPositive
    | DebitPositive
    | AccountIn(ids: seq<int>)

  /** Calendar order on dates. */
  predicate DateLe(a: Dates.Date, b: Dates.Date) {
    a.year < b.year || (a.year == b.year && (a.month < b.month || (a.month == b.month && a.day <= b.day)))
  }

  predicate Matches(t: Term, ml: MoveLine) {
    match t
    case CompanyIs(id) => ml.companyId == id
    case DateFrom(d) => DateLe(d, ml.date)
    case DateTo(d) => DateLe(ml.date, d)
    case MovePosted => ml.posted
    case CreditPositive => ml.credit > 0.0
    case DebitPositive => ml.debit > 0.0
    case AccountIn(ids) => ml.accountId in ids
  }

  predicate MatchesAll(domain: seq<Term>, ml: MoveLine) {
    forall i :: 0 <= i < |domain| ==> Matches(domain[i], ml)
  }

  /** The partner rank the main head asks for. */
  predicate RankOk(head: MainHead, p: Partner) {
    match head
    case Revenue => p.customerRank > 0
    case Expense => p.supplierRank > 0
  }

  /**
   * The move lines the partner lookup considers: the company's posted lines
   * of the period, on the credit side for revenue or the debit side for
   * expense, and on one of the accounts when any are selected.
   */
  predicate LineSelected(ml: MoveLine, company: int, start: Dates.Date, end: Dates.Date, head: MainHead, accountIds: seq<int>) {
    && ml.companyId == company && DateLe(start, ml.date) && DateLe(ml.date, end) && ml.posted
    && (head == Revenue ==> ml.credit > 0.0)
    && (head == Expense ==> ml.debit > 0.0)
    && (accountIds != [] ==> ml.accountId in accountIds)
  }

  /**
   * The partners of the selected lines, each once in order of first
   * appearance, that have the rank the head asks for.
   */
  function LinePartners(lines: seq<MoveLine>, company: int, start: Dates.Date, end: Dates.Date,
                        head: MainHead, accountIds: seq<int>): (r: seq<Partner>)
    ensures forall i, j :: 0 <= i < j < |r| ==> r[i] != r[j]
    ensures forall p :: p in r <==>
      (RankOk(head, p) && exists k :: 0 <= k < |lines| && LineSelected(lines[k], company, start, end, head, accountIds) && lines[k].partner == Some(p))
  {
    if lines == [] then []
    else
      var n := |lines| - 1;
      var acc := LinePartners(lines[..n], company, start, end, head, accountIds);
      var ml := lines[n];
      assert forall k :: 0 <= k < n ==> lines[..n][k] == lines[k];
      if LineSelected(ml, company, start, end, head, accountIds) && ml.partner.Some?
         && RankOk(head, ml.partner.value) && ml.partner.value !in acc
      then acc + [ml.partner.value]
      else acc
  }

  function Ids(ps: seq<Partner>): (r: seq<int>)
    ensures |r| == |ps| && forall i :: 0 <= i < |ps| ==> r[i] == ps[i].id
  {
    seq(|ps|, i requires 0 <= i < |ps| => ps[i].id)
  }

  function RankedPartners(partners: seq<Partner>, head: MainHead): (r: seq<Partner>)
    ensures forall p :: p in r <==> p in partners && RankOk(head, p)
  {
    if partners == [] then []
    else (if RankOk(head, partners[0]) then [partners[0]] else []) + RankedPartners(partners[1..], head)
  }

  /**
   * `_get_report_partner_ids`: nothing without a main head; the partners
   * of the selected lines when there are any; otherwise every partner with
   * the rank.
   */
  function ReportPartnerIds(lines: seq<MoveLine>, partners: seq<Partner>, company: int, start: Dates.Date,
                            end: Dates.Date, head: Option<MainHead>, accountIds: seq<int>): seq<int>
  {
    match head
    case None => []
    case Some(h) =>
      var found := LinePartners(lines, company, start, end, h, accountIds);
      if found != [] then Ids(found) else Ids(RankedPartners(partners, h))
  }

  /** Partners come from the lines whenever a selected line has a partner of the right rank. */
  lemma FallbackOnlyWithoutLinePartners(lines: seq<MoveLine>, partners: seq<Partner>, company: int, start: Dates.Date,
                                        end: Dates.Date, h: MainHead, accountIds: seq<int>, k: nat)
    requires k < |lines| && LineSelected(lines[k], company, start, end, h, accountIds)
    requires lines[k].partner.Some? && RankOk(h, lines[k].partner.value)
    ensures lines[k].partner.value.id in ReportPartnerIds(lines, partners, company, start, end, Some(h), accountIds)
  {
    var found := LinePartners(lines, company, start, end, h, accountIds);
    var p := lines[k].partner.value;
    assert p in found;
    var i :| 0 <= i < |found| && found[i] == p;
    assert Ids(found)[i] == p.id;
  }

  /**
   * The move-line domain `_get_report_partner_ids` builds: company, period
   * and posted state, then the side of the head, then the accounts only
   * when some are selected.
   */
  method MoveLineDomain(company: int, start: Dates.Date, end: Dates.Date, head: MainHead, accountIds: seq<int>)
    returns (domain: seq<Term>)
    ensures |domain| == (if accountIds == [] then 5 else 6)
    ensures forall ml :: MatchesAll(domain, ml) <==> LineSelected(ml, company, start, end, head, accountIds)
  {
    domain := [CompanyIs(company), DateFrom(start), DateTo(end), MovePosted];
    if head == Revenue {
      domain := domain + [CreditPositive];
    } else {
      domain := domain + [DebitPositive];
    }
    if accountIds != [] {
      domain := domain + [AccountIn(accountIds)];
    }
    forall ml
      ensures MatchesAll(domain, ml) <==> LineSelected(ml, company, start, end, head, accountIds)
    {
      if MatchesAll(domain, ml) {
        assert Matches(domain[0], ml) && Matches(domain[1], ml) && Matches(domain[2], ml);
        assert Matches(domain[3], ml) && Matches(domain[4], ml);
        if accountIds != [] {
          assert Matches(domain[5], ml);
        }
      }
    }
  }

  /** The form that `get_report` hands to the report. */
  datatype FormData = FormData(
    dateStart: string, dateEnd: string, account: seq<int>, partner: seq<int>, company: int,
    mainHead: Option<MainHead>, sortBy: Option<string>, sortOrder: Option<string>,
    filters: LedgerReport.AnalyticFilters)

  class AccountLedgerMulti {
    var dateStart: Dates.Date
    var dateEnd: Dates.Date
    var accountIds: seq<int>
    var accountDomain: AccountDomain
    var mainHead: Option<MainHead>
    var sortBy: Option<string>
    var sortOrder: Option<string>
    var companyId: int
    var filters: LedgerReport.AnalyticFilters

    predicate Valid()
      reads this
    {
      Dates.Valid(dateStart) && Dates.Valid(dateEnd)
    }

    /** A new wizard: the month so far, sorted by amount, highest first, in the user's company. */
    constructor (today: Dates.Date, companyId: int)
      requires Dates.Valid(today)
      ensures Valid()
      ensures dateStart == Dates.FirstOfMonth(today) && dateEnd == today
      ensures sortBy == Some("amount") && sortOrder == Some("desc")
      ensures this.companyId == companyId && accountIds == [] && mainHead.None?
      ensures filters == LedgerReport.AnalyticFilters(None, None, None, None, None)
    {
      dateStart := Dates.FirstOfMonth(today);
      dateEnd := today;
      accountIds := [];
      accountDomain := AccountDomain({});
      mainHead := None;
      sortBy := Some("amount");
      sortOrder := Some("desc");
      this.companyId := companyId;
      filters := LedgerReport.AnalyticFilters(None, None, None, None, None);
    }

    /**
     * `_compute_account_domain`: accounting managers see every
     * non-deprecated account; other users do not see the restricted ones.
     */
    method ComputeAccountDomain(isManager: bool)
      modifies this`accountDomain
      ensures forall a :: Admits(accountDomain, a) <==> !a.deprecated && (isManager || a.id !in RestrictedAccounts)
    {
      if isManager {
        accountDomain := AccountDomain({});
      } else {
        accountDomain := AccountDomain(RestrictedAccounts);
      }
    }

    /** `_get_report_account_ids`: the selected accounts, or none. */
    function ReportAccountIds(): (r: seq<int>)
      reads this
      ensures accountIds == [] ==> r == []
      ensures r == accountIds
    {
      if accountIds != [] then accountIds else []
    }

    /** `_get_report_partner_ids`, with the move-line and partner searches as inputs. */
    method GetReportPartnerIds(lines: seq<MoveLine>, partners: seq<Partner>, accounts: seq<int>) returns (r: seq<int>)
      ensures r == ReportPartnerIds(lines, partners, companyId, dateStart, dateEnd, mainHead, accounts)
      ensures mainHead.None? ==> r == []
    {
      if mainHead.None? {
        return [];
      }
      var head := mainHead.value;
      var domain := MoveLineDomain(companyId, dateStart, dateEnd, head, accounts);
      var found: seq<Partner> := [];
      var i := 0;
      while i < |lines|
        invariant 0 <= i <= |lines|
        invariant found == LinePartners(lines[..i], companyId, dateStart, dateEnd, head, accounts)
      {
        var ml := lines[i];
        assert lines[..i + 1][..i] == lines[..i];
        if MatchesAll(domain, ml) && ml.partner.Some? && RankOk(head, ml.partner.value) && ml.partner.value !in found {
          found := found + [ml.partner.value];
        }
        i := i + 1;
      }
      assert lines[..|lines|] == lines;
      if found != [] {
        return Ids(found);
      }
      r := Ids(RankedPartners(partners, head));
    }

    /** `get_report`: the form data, with dates written `%Y-%m-%d` and unset filters as `False`. */
    method GetReport(lines: seq<MoveLine>, partners: seq<Partner>) returns (data: FormData)
      requires Valid()
      ensures data.dateStart == Dates.Format(dateStart) && data.dateEnd == Dates.Format(dateEnd)
      ensures data.account == accountIds
      ensures data.partner == ReportPartnerIds(lines, partners, companyId, dateStart, dateEnd, mainHead, accountIds)
      ensures data.company == companyId && data.mainHead == mainHead
      ensures data.sortBy == sortBy && data.sortOrder == sortOrder && data.filters == filters
    {
      var accounts := ReportAccountIds();
      var partnerIds := GetReportPartnerIds(lines, partners, accounts);
      data := FormData(Dates.Format(dateStart), Dates.Format(dateEnd), accounts, partnerIds, companyId,
                       mainHead, sortBy, sortOrder, filters);
    }
  }

  /** The report reads the wizard's dates back as the period it was given. */
  lemma FormDatesReadBack(data: FormData, start: Dates.Date, end: Dates.Date)
    requires Dates.Valid(start) && Dates.Valid(end)
    requires data.dateStart == Dates.Format(start) && data.dateEnd == Dates.Format(end)
    ensures Dates.Parse(data.dateStart) == Some(start) && Dates.Parse(data.dateEnd) == Some(end)
    ensures LedgerReport.ValuationDates(data.dateStart, data.dateEnd) == Some(data.dateStart + " To " + data.dateEnd)
  {
    Dates.ParseFormat(start);
    Dates.ParseFormat(end);
  }
}
