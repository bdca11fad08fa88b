/**
 * Cc/bcc e-mail addresses on the mail composer (pr_odoo_email_cc/models/compose_mail.py):
 * the company defaults, the merge of typed addresses with partner
 * addresses, and the values written for each recipient record.
 */
module EmailMerge {
  import opened Common
  import opened Text

  /** One argument of `_merge_emails`: a falsy value, a comma-separated string, or a list of (possibly unset) addresses. */
  datatype EmailValue = Falsy | Str(s: string) | Items(items: seq<Option<string>>)

  /** Stripped, non-empty pieces: the comprehension `[x.strip() for x in xs if x.strip()]`. */
  function StripNonEmpty(xs: seq<string>): (r: seq<string>)
    ensures |r| <= |xs|
    ensures forall i :: 0 <= i < |r| ==> r[i] != "" && Stripped(r[i])
  {
    if xs == [] then []
    else
      StripIsStripped(xs[0]);
      (if Strip(xs[0]) != "" then [Strip(xs[0])] else []) + StripNonEmpty(xs[1..])
  }

  /** The set entries of a list, in order. */
  function SetItems(xs: seq<Option<string>>): seq<string> {
    if xs == [] then [] else (if xs[0].Some? then [xs[0].value] else []) + SetItems(xs[1..])
  }

  /** The addresses one argument contributes. */
  function Parts(v: EmailValue): (r: seq<string>)
    ensures forall i :: 0 <= i < |r| ==> r[i] != "" && Stripped(r[i])
  {
    match v
    case Falsy => []
    case Str(s) => StripNonEmpty(Split(s, ','))
    case Items(xs) => StripNonEmpty(SetItems(xs))
  }

  /** All addresses of all arguments, in order. */
  function Collect(vs: seq<EmailValue>): (r: seq<string>)
    ensures forall i :: 0 <= i < |r| ==> r[i] != "" && Stripped(r[i])
  {
    if vs == [] then [] else Collect(vs[..|vs| - 1]) + Parts(vs[|vs| - 1])
  }

  /** Address `i` is the first one with its lower-case form. */
  predicate IsFirst(s: seq<string>, i: nat)
    requires i < |s|
  {
    forall j :: 0 <= j < i ==> Lower(s[j]) != Lower(s[i])
  }

  /** The first occurrence of every address, ignoring case, in input order. */
  function Firsts(s: seq<string>): (r: seq<string>)
    ensures |r| <= |s|
    ensures forall x :: x in r ==> x in s
  {
    if s == [] then []
    else
      var n := |s| - 1;
      Firsts(s[..n]) + (if IsFirst(s, n) then [s[n]] else [])
  }

  function LowerSet(s: seq<string>): set<string> {
    set x | x in s :: Lower(x)
  }

  lemma LowerSetAppend(a: seq<string>, b: seq<string>)
    ensures LowerSet(a + b) == LowerSet(a) + LowerSet(b)
  {
    assert forall x :: x in a + b <==> x in a || x in b;
  }

  /** Dropping later case duplicates loses no address up to case. */
  lemma {:induction false} FirstsLowers(s: seq<string>)
    ensures LowerSet(Firsts(s)) == LowerSet(s)
  {
    if s != [] {
      var n := |s| - 1;
      var p := s[..n];
      FirstsLowers(p);
      assert s == p + [s[n]];
      LowerSetAppend(p, [s[n]]);
      var tail := if IsFirst(s, n) then [s[n]] else [];
      assert Firsts(s) == Firsts(p) + tail;
      LowerSetAppend(Firsts(p), tail);
      assert LowerSet([s[n]]) == {Lower(s[n])};
      if !IsFirst(s, n) {
        var j :| 0 <= j < n && Lower(s[j]) == Lower(s[n]);
        assert p[j] == s[j];
        assert Lower(s[n]) in LowerSet(p);
        assert LowerSet(tail) == {};
      }
    }
  }

  /** Merged addresses stay stripped and non-empty. */
  lemma {:induction false} FirstsClean(s: seq<string>)
    requires forall i :: 0 <= i < |s| ==> s[i] != "" && Stripped(s[i])
    ensures forall i :: 0 <= i < |Firsts(s)| ==> Firsts(s)[i] != "" && Stripped(Firsts(s)[i])
  {
    if s != [] {
      var n := |s| - 1;
      FirstsClean(s[..n]);
    }
  }

  /** No two addresses are equal ignoring case. */
  predicate CaseDistinct(r: seq<string>) {
    forall i, j :: 0 <= i < j < |r| ==> Lower(r[i]) != Lower(r[j])
  }

  /** No two merged addresses are equal ignoring case. */
  lemma {:induction false} FirstsNoCaseDuplicates(s: seq<string>)
    ensures CaseDistinct(Firsts(s))
  {
    if s != [] {
      var n := |s| - 1;
      FirstsNoCaseDuplicates(s[..n]);
      var p := Firsts(s[..n]);
      if IsFirst(s, n) {
        forall i | 0 <= i < |p|
          ensures Lower(p[i]) != Lower(s[n])
        {
          assert p[i] in s[..n];
          var j :| 0 <= j < n && s[..n][j] == p[i];
          assert s[j] == p[i];
        }
        var r := Firsts(s);
        assert r == p + [s[n]];
        forall i, j | 0 <= i < j < |r|
          ensures Lower(r[i]) != Lower(r[j])
        {
          if j == |p| {
            assert r[i] == p[i] && r[j] == s[n];
          } else {
            assert r[i] == p[i] && r[j] == p[j];
            assert Lower(p[i]) != Lower(p[j]);
          }
        }
      } else {
        assert Firsts(s) == p;
      }
    }
  }

  /** Every address is kept exactly when no earlier one has its lower-case form. */
  lemma {:induction false} FirstsKeepsFirst(s: seq<string>, i: nat)
    requires i < |s| && IsFirst(s, i)
    ensures s[i] in Firsts(s)
  {
    var n := |s| - 1;
    if i < n {
      FirstsKeepsFirst(s[..n], i);
    }
  }

  /** A list with no case duplicates is its own first occurrences. */
  lemma {:induction false} FirstsOfDistinct(s: seq<string>)
    requires CaseDistinct(s)
    ensures Firsts(s) == s
  {
    if s != [] {
      var n := |s| - 1;
      FirstsOfDistinct(s[..n]);
      assert IsFirst(s, n);
      assert s[..n] + [s[n]] == s;
    }
  }

  /** One step of the de-duplication: the next address is kept iff its lower-case form is new. */
  lemma FirstsStep(s: seq<string>, k: nat)
    requires k < |s|
    ensures Firsts(s[..k + 1]) == Firsts(s[..k]) + (if Lower(s[k]) in LowerSet(s[..k]) then [] else [s[k]])
    ensures LowerSet(s[..k + 1]) == LowerSet(s[..k]) + {Lower(s[k])}
  {
    var pre := s[..k + 1];
    assert pre[..k] == s[..k];
    assert pre == s[..k] + [s[k]];
    LowerSetAppend(s[..k], [s[k]]);
    assert IsFirst(pre, k) <==> Lower(s[k]) !in LowerSet(s[..k]) by {
      if Lower(s[k]) in LowerSet(s[..k]) {
        var x :| x in s[..k] && Lower(x) == Lower(s[k]);
        var j :| 0 <= j < k && s[..k][j] == x;
        assert pre[j] == x;
      }
    }
  }

  /** `_merge_emails` as a value: the merged addresses joined by commas, or `False` when none is left. */
  function MergedEmails(vs: seq<EmailValue>): Option<string> {
    var r := Firsts(Collect(vs));
    if r == [] then None else Some(Join(r, ','))
  }

  /**
   * `_merge_emails(*email_values)`: collect the stripped, non-empty
   * addresses of every argument, keep the first of each ignoring case, and
   * join them with commas.
   */
  method MergeEmails(vs: seq<EmailValue>) returns (r: Option<string>)
    ensures r == MergedEmails(vs)
  {
    var emails := CollectEmails(vs);
    var orderedUnique := UniqueEmails(emails);
    r := if orderedUnique != [] then Some(Join(orderedUnique, ',')) else None;
  }

  /** The collecting loop of `_merge_emails`. */
  method CollectEmails(vs: seq<EmailValue>) returns (emails: seq<string>)
    ensures emails == Collect(vs)
  {
    emails := [];
    var i := 0;
    while i < |vs|
      invariant 0 <= i <= |vs|
      invariant emails == Collect(vs[..i])
    {
      assert vs[..i + 1][..i] == vs[..i];
      assert Collect(vs[..i + 1]) == Collect(vs[..i]) + Parts(vs[i]);
      match vs[i] {
        case Falsy =>
        case Str(s) =>
          emails := emails + StripNonEmpty(Split(s, ','));
        case Items(xs) =>
          emails := emails + StripNonEmpty(SetItems(xs));
      }
      i := i + 1;
    }
    assert vs[..|vs|] == vs;
  }

  /** The de-duplicating loop of `_merge_emails`, keyed on the lower-case address. */
  method UniqueEmails(emails: seq<string>) returns (orderedUnique: seq<string>)
    ensures orderedUnique == Firsts(emails)
  {
    var seen: set<string> := {};
    orderedUnique := [];
    var k := 0;
    while k < |emails|
      invariant 0 <= k <= |emails|
      invariant orderedUnique == Firsts(emails[..k])
      invariant seen == LowerSet(emails[..k])
    {
      var email := emails[k];
      var key := Lower(email);
      FirstsStep(emails, k);
      if key in seen {
        k := k + 1;
        continue;
      }
      seen := seen + {key};
      orderedUnique := orderedUnique + [email];
      k := k + 1;
    }
    assert emails[..|emails|] == emails;
  }

  /** The properties of the merge that callers rely on. */
  lemma MergedEmailsProperties(vs: seq<EmailValue>)
    ensures var r := Firsts(Collect(vs));
            && (MergedEmails(vs).None? <==> r == [])
            && (forall i :: 0 <= i < |r| ==> r[i] != "" && Stripped(r[i]))
            && CaseDistinct(r)
            && LowerSet(r) == LowerSet(Collect(vs))
  {
    var c := Collect(vs);
    FirstsNoCaseDuplicates(c);
    FirstsLowers(c);
    FirstsClean(c);
  }

  lemma {:induction false} StripNonEmptyOfClean(xs: seq<string>)
    requires forall i :: 0 <= i < |xs| ==> xs[i] != "" && Stripped(xs[i])
    ensures StripNonEmpty(xs) == xs
  {
    if xs != [] {
      StrippedFixed(xs[0]);
      StripNonEmptyOfClean(xs[1..]);
      assert [xs[0]] + xs[1..] == xs;
    }
  }

  /** No piece contains the separator. */
  predicate FreeOf(xs: seq<string>, c: char) {
    forall i :: 0 <= i < |xs| ==> c !in xs[i]
  }

  lemma {:induction false} StripNonEmptyNoSep(xs: seq<string>, c: char)
    requires FreeOf(xs, c)
    ensures FreeOf(StripNonEmpty(xs), c)
  {
    if xs != [] {
      StripKeepsOut(xs[0], c);
      StripNonEmptyNoSep(xs[1..], c);
      var head := if Strip(xs[0]) != "" then [Strip(xs[0])] else [];
      var tail := StripNonEmpty(xs[1..]);
      assert StripNonEmpty(xs) == head + tail;
      FreeOfAppend(head, tail, c);
    }
  }

  lemma FreeOfAppend(a: seq<string>, b: seq<string>, c: char)
    requires FreeOf(a, c) && FreeOf(b, c)
    ensures FreeOf(a + b, c)
  {
    forall i | 0 <= i < |a + b|
      ensures c !in (a + b)[i]
    {
      if i < |a| {
        assert (a + b)[i] == a[i];
      } else {
        assert (a + b)[i] == b[i - |a|];
      }
    }
  }

  /** Comma-string arguments give comma-free addresses. */
  lemma {:induction false} CollectNoComma(vs: seq<EmailValue>)
    requires forall i :: 0 <= i < |vs| ==> !vs[i].Items?
    ensures FreeOf(Collect(vs), ',')
  {
    if vs != [] {
      var n := |vs| - 1;
      var p := vs[..n];
      assert forall i :: 0 <= i < |p| ==> p[i] == vs[i];
      CollectNoComma(p);
      var a := Collect(p);
      var b := Parts(vs[n]);
      if vs[n].Str? {
        StripNonEmptyNoSep(Split(vs[n].s, ','), ',');
      }
      assert FreeOf(b, ',');
      assert Collect(vs) == a + b;
      FreeOfAppend(a, b, ',');
    }
  }

  lemma FirstsFreeOf(s: seq<string>, c: char)
    requires FreeOf(s, c)
    ensures FreeOf(Firsts(s), c)
  {
    var r := Firsts(s);
    forall i | 0 <= i < |r|
      ensures c !in r[i]
    {
      assert r[i] in s;
    }
  }

  /** Clean, comma-free addresses joined with commas are collected back unchanged. */
  lemma CollectJoined(r: seq<string>)
    requires |r| >= 1 && FreeOf(r, ',')
    requires forall i :: 0 <= i < |r| ==> r[i] != "" && Stripped(r[i])
    ensures Collect([Str(Join(r, ','))]) == r
  {
    SplitJoin(r, ',');
    StripNonEmptyOfClean(r);
    var again := [Str(Join(r, ','))];
    assert again[..0] == [];
    assert Parts(again[0]) == StripNonEmpty(Split(Join(r, ','), ','));
    assert Collect(again) == Collect([]) + Parts(again[0]);
  }

  /** When every argument is a comma string, merging the merged result again changes nothing. */
  lemma MergeIdempotent(vs: seq<EmailValue>)
    requires forall i :: 0 <= i < |vs| ==> !vs[i].Items?
    requires MergedEmails(vs).Some?
    ensures MergedEmails([Str(MergedEmails(vs).value)]) == MergedEmails(vs)
  {
    var r := Firsts(Collect(vs));
    MergedEmailsProperties(vs);
    CollectNoComma(vs);
    FirstsFreeOf(Collect(vs), ',');
    assert MergedEmails(vs).value == Join(r, ',');
    CollectJoined(r);
    FirstsOfDistinct(r);
  }

  // ---------------------------------------------------------------------
  // Defaults and per-record mail values
  // ---------------------------------------------------------------------

  datatype Company = Company(displayCc: bool, displayBcc: bool, defaultCc: Option<string>, defaultBcc: Option<string>)

  /** `_get_default_cc`: the company's default cc when it displays the cc field. */
  function DefaultCc(c: Company): (r: Option<string>)
    ensures c.displayCc ==> r == c.defaultCc
    ensures !c.displayCc ==> r.None?
  {
    if c.displayCc then c.defaultCc else None
  }

  /** `_get_default_bcc`: the company's default bcc when it displays the bcc field. */
  function DefaultBcc(c: Company): (r: Option<string>)
    ensures c.displayBcc ==> r == c.defaultBcc
    ensures !c.displayBcc ==> r.None?
  {
    if c.displayBcc then c.defaultBcc else None
  }

  /** The keys of one record's mail values this module writes; `rest` stands for the others. */
  datatype MailValues = MailValues(emailTo: Option<string>, emailCc: Option<string>, emailBcc: Option<string>,
                                   rest: map<string, string>)

  const EmptyValues := MailValues(None, None, None, map[])

  /** A composer's own fields; partner e-mails are the `email` of each cc and bcc partner. */
  datatype Composer = Composer(emailTo: Option<string>, emailCc: Option<string>, emailBcc: Option<string>,
                               ccPartnerEmails: seq<Option<string>>, bccPartnerEmails: seq<Option<string>>)

  function AsValue(s: Option<string>): EmailValue {
    if s.Some? && s.value != "" then Str(s.value) else Falsy
  }

  function MergedCc(c: Composer): Option<string> {
    MergedEmails([AsValue(c.emailCc), Items(c.ccPartnerEmails)])
  }

  function MergedBcc(c: Composer): Option<string> {
    MergedEmails([AsValue(c.emailBcc), Items(c.bccPartnerEmails)])
  }

  /** The values of one record after the composer's update. */
  function Updated(c: Composer, v: MailValues, cc: Option<string>, bcc: Option<string>): MailValues {
    v.(emailTo := if c.emailTo.Some? && c.emailTo.value != "" then c.emailTo else v.emailTo,
       emailCc := cc, emailBcc := bcc)
  }

  /** A record's values before the update: the ones already built, or none. */
  function Prior(base: map<int, MailValues>, id: int): MailValues {
    if id in base then base[id] else EmptyValues
  }

  /** The loop of `get_mail_values`: every listed record gets the update, the others keep their values. */
  method UpdateRecords(c: Composer, base: map<int, MailValues>, resIds: seq<int>, cc: Option<string>, bcc: Option<string>)
    returns (r: map<int, MailValues>)
    ensures r.Keys == base.Keys + set id | id in resIds
    ensures forall id :: id in base && id !in resIds ==> r[id] == base[id]
    ensures forall id :: id in resIds ==> r[id] == Updated(c, Prior(base, id), cc, bcc)
  {
    r := base;
    ghost var done: set<int> := {};
    var i := 0;
    while i < |resIds|
      invariant 0 <= i <= |resIds|
      invariant done == set id | id in resIds[..i]
      invariant r.Keys == base.Keys + done
      invariant forall id :: id in base && id !in done ==> r[id] == base[id]
      invariant forall id :: id in done ==> r[id] == Updated(c, Prior(base, id), cc, bcc)
    {
      var id := resIds[i];
      assert resIds[..i + 1] == resIds[..i] + [id];
      var values := if id in r then r[id] else EmptyValues;
      assert values == Prior(base, id) || values == Updated(c, Prior(base, id), cc, bcc);
      values := Updated(c, values, cc, bcc);
      r := r[id := values];
      done := done + {id};
      i := i + 1;
    }
    assert resIds[..|resIds|] == resIds;
  }

  /**
   * `get_mail_values`: for each record, the composer's "to" when set (else
   * the one already there) and the same merged cc and bcc; records not
   * listed keep their values.
   */
  method GetMailValues(c: Composer, base: map<int, MailValues>, resIds: seq<int>) returns (r: map<int, MailValues>)
    ensures r.Keys == base.Keys + set id | id in resIds
    ensures forall id :: id in base && id !in resIds ==> r[id] == base[id]
    ensures forall id :: id in resIds ==> r[id] == Updated(c, Prior(base, id), MergedCc(c), MergedBcc(c))
  {
    var mergedCc := MergeEmails([AsValue(c.emailCc), Items(c.ccPartnerEmails)]);
    var mergedBcc := MergeEmails([AsValue(c.emailBcc), Items(c.bccPartnerEmails)]);
    r := UpdateRecords(c, base, resIds, mergedCc, mergedBcc);
  }
}
