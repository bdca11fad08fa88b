/**
 * Cc and bcc recipients on the mail composer, messages and outgoing mails
 * (odoo_email_cc_bcc/models/compose_mail.py): the company defaults, the
 * argument checks and recipient-command handling of `message_post`, the
 * partner address lists added to outgoing mails, the 50-recipient chunks
 * of notification mails and the force-send limit.
 */
module EmailCcBcc {
  import opened Common

  /** A text value is set when it holds a non-empty string. */
  predicate Set(s: Option<string>) {
    s.Some? && s.value != ""
  }

  // ---------------------------------------------------------------------
  // Composer defaults
  // ---------------------------------------------------------------------

  datatype Company = Company(displayCc: bool, defaultCc: Option<string>, displayBcc: bool, defaultBcc: Option<string>,
                             displayReplyTo: bool, defaultReplyTo: Option<string>)

  datatype ComposerDefaults = ComposerDefaults(emailCc: Option<string>, emailBcc: Option<string>, replyTo: Option<string>)

  /** `get_default_cc_email`, `get_default_bcc_emails` and `get_default_reply_to`. */
  function Defaults(c: Company): (r: ComposerDefaults)
    ensures r.emailCc.Some? ==> c.displayCc && r.emailCc == c.defaultCc
    ensures r.emailBcc.Some? ==> c.displayBcc && r.emailBcc == c.defaultBcc
    ensures r.replyTo.Some? ==> c.displayReplyTo && r.replyTo == c.defaultReplyTo
    ensures c.displayCc ==> r.emailCc == c.defaultCc
    ensures c.displayBcc ==> r.emailBcc == c.defaultBcc
    ensures c.displayReplyTo ==> r.replyTo == c.defaultReplyTo
  {
    ComposerDefaults(if c.displayCc then c.defaultCc else None,
                     if c.displayBcc then c.defaultBcc else None,
                     if c.displayReplyTo then c.defaultReplyTo else None)
  }

  /** Each default depends on its own flag only: hiding cc leaves bcc and reply-to as they were. */
  lemma DefaultsIndependent(c: Company)
    ensures Defaults(c.(displayCc := false)) == Defaults(c).(emailCc := None)
  {
  }

  // ---------------------------------------------------------------------
  // Recipient commands
  // ---------------------------------------------------------------------

  /** An element of a command tuple: an id, a list of ids, or any other hashable, non-iterable value. */
  datatype Value = VInt(i: int) | VIds(ids: seq<int>) | VOther

  /** One entry of `cc_recipient_ids`/`bcc_recipient_ids`: a list or tuple, a plain id, or anything else. */
  datatype Command = CTuple(items: seq<Value>) | CInt(n: int) | COther

  /** What the normalisation loop raises on: indexing an empty tuple, adding a list to a set, `set()` of a non-list. */
  datatype NormError = EmptyCommand | Unhashable | NotIterable

  /** What one command adds: `(4, id)` its id, `(6, _, ids)` all ids, a plain id itself, anything else nothing. */
  function Contribution(c: Command): (r: Result<set<Value>, NormError>)
    ensures c.CInt? ==> r == Ok({VInt(c.n)})
    ensures c.COther? ==> r == Ok({})
    ensures c.CTuple? && |c.items| == 2 && c.items[0] == VInt(4) && !c.items[1].VIds? ==> r == Ok({c.items[1]})
    ensures c.CTuple? && |c.items| == 3 && c.items[0] == VInt(6) && c.items[2].VIds? ==>
              r.Ok? && forall x :: x in r.value <==> x.VInt? && x.i in c.items[2].ids
    ensures r.Err? ==> c.CTuple?
  {
    match c
    case CInt(n) => Ok({VInt(n)})
    case COther => Ok({})
    case CTuple(items) =>
      if items == [] then Err(EmptyCommand)
      else if items[0] == VInt(4) && |items| == 2 then
        (if items[1].VIds? then Err(Unhashable) else Ok({items[1]}))
      else if items[0] == VInt(6) && |items| == 3 then
        (if items[2].VIds? then Ok(set id | id in items[2].ids :: VInt(id)) else Err(NotIterable))
      else Ok({})
  }

  /** The set `message_post` builds from a command list, or the first error raised. */
  function Normalised(cmds: seq<Command>): Result<set<Value>, NormError> {
    if cmds == [] then Ok({})
    else
      var n := |cmds| - 1;
      var prior := Normalised(cmds[..n]);
      if prior.Err? then prior
      else
        var c := Contribution(cmds[n]);
        if c.Err? then Err(c.error) else Ok(prior.value + c.value)
  }

  /** The normalisation succeeds exactly when every command's does, and then holds exactly their ids. */
  lemma {:induction false} NormalisedMembers(cmds: seq<Command>, x: Value)
    ensures Normalised(cmds).Ok? <==> forall i :: 0 <= i < |cmds| ==> Contribution(cmds[i]).Ok?
    ensures Normalised(cmds).Ok? ==>
      (x in Normalised(cmds).value <==> exists i :: 0 <= i < |cmds| && x in Contribution(cmds[i]).value)
  {
    if cmds != [] {
      var n := |cmds| - 1;
      NormalisedMembers(cmds[..n], x);
      assert forall i :: 0 <= i < n ==> cmds[..n][i] == cmds[i];
      if Normalised(cmds).Ok? && x in Normalised(cmds).value && x !in Contribution(cmds[n]).value {
        var i :| 0 <= i < n && x in Contribution(cmds[..n][i]).value;
        assert x in Contribution(cmds[i]).value;
      }
    }
  }

  /** Once a prefix raises, so does the whole list, with the same error. */
  lemma {:induction false} NormalisedErrorSticks(cmds: seq<Command>, k: nat)
    requires k <= |cmds| && Normalised(cmds[..k]).Err?
    decreases |cmds| - k
    ensures Normalised(cmds) == Normalised(cmds[..k])
  {
    if k < |cmds| {
      var n := |cmds| - 1;
      assert cmds[..n][..k] == cmds[..k];
      NormalisedErrorSticks(cmds[..n], k);
    } else {
      assert cmds[..k] == cmds;
    }
  }

  lemma NormalisedStep(cmds: seq<Command>, i: nat)
    requires i < |cmds| && Normalised(cmds[..i]).Ok?
    ensures Normalised(cmds[..i + 1])
            == (if Contribution(cmds[i]).Err? then Err(Contribution(cmds[i]).error)
                else Ok(Normalised(cmds[..i]).value + Contribution(cmds[i]).value))
  {
    assert cmds[..i + 1][..i] == cmds[..i] && cmds[..i + 1][i] == cmds[i];
  }

  /** The normalisation loop of `message_post` for one command list. */
  method NormaliseRecipients(cmds: seq<Command>) returns (r: Result<set<Value>, NormError>)
    ensures r == Normalised(cmds)
  {
    var partnerIds: set<Value> := {};
    var i := 0;
    while i < |cmds|
      invariant 0 <= i <= |cmds|
      invariant Normalised(cmds[..i]) == Ok(partnerIds)
    {
      NormalisedStep(cmds, i);
      assert partnerIds + {} == partnerIds;
      match cmds[i] {
        case CTuple(items) =>
          if items == [] {
            NormalisedErrorSticks(cmds, i + 1);
            return Err(EmptyCommand);
          }
          if items[0] == VInt(4) && |items| == 2 {
            if items[1].VIds? {
              NormalisedErrorSticks(cmds, i + 1);
              return Err(Unhashable);
            }
            partnerIds := partnerIds + {items[1]};
          }
          if items[0] == VInt(6) && |items| == 3 {
            if !items[2].VIds? {
              NormalisedErrorSticks(cmds, i + 1);
              return Err(NotIterable);
            }
            partnerIds := partnerIds + set id | id in items[2].ids :: VInt(id);
          }
        case CInt(n) =>
          assert Contribution(cmds[i]) == Ok({VInt(n)});
          partnerIds := partnerIds + {VInt(n)};
        case COther =>
      }
      i := i + 1;
    }
    assert cmds[..|cmds|] == cmds;
    r := Ok(partnerIds);
  }

  // ---------------------------------------------------------------------
  // message_post
  // ---------------------------------------------------------------------

  /** An entry of `attachments`: a list or a tuple of some length, or anything else. */
  datatype Attachment = AList(arity: nat) | ATuple(arity: nat) | AOther

  /** The arguments of `message_post` the checks and the stored values read. */
  datatype PostArgs = PostArgs(messageType: string, subject: Option<string>, partnerIds: seq<Value>,
                               attachments: seq<Attachment>, attachmentIds: seq<Value>,
                               ccRecipientIds: seq<Command>, bccRecipientIds: seq<Command>)

  /** The record posted on: its model name, and id 0 for a record not yet saved. */
  datatype Thread = Thread(modelName: string, id: int)

  datatype PostError = NotBusinessDocument | UserNotification | BadAttachments | BadAttachmentIds | BadPartnerIds
                     | BadRecipients(e: NormError)

  /** The message values `message_post` stores for the recipients. */
  datatype MessageVals = MessageVals(model: string, resId: int, messageType: string, subject: Option<string>,
                                     partnerIds: seq<int>, ccRecipientIds: seq<Command>, bccRecipientIds: seq<Command>)

  /** `is_list_of(values, int)`. */
  predicate AllInts(vs: seq<Value>) {
    forall i :: 0 <= i < |vs| ==> vs[i].VInt?
  }

  function Ints(vs: seq<Value>): (r: seq<int>)
    requires AllInts(vs)
    ensures |r| == |vs| && forall i :: 0 <= i < |vs| ==> vs[i] == VInt(r[i])
  {
    if vs == [] then [] else [vs[0].i] + Ints(vs[1..])
  }

  /** The attachment check: all lists or all tuples, each of two or three elements; none at all is fine. */
  predicate AttachmentsWellFormed(atts: seq<Attachment>) {
    || atts == []
    || (&& ((forall i :: 0 <= i < |atts| ==> atts[i].AList?) || (forall i :: 0 <= i < |atts| ==> atts[i].ATuple?))
        && forall i :: 0 <= i < |atts| ==> !atts[i].AOther? && 2 <= atts[i].arity <= 3)
  }

  /** The error `message_post` raises first, if any: the checks in their order, then the recipient loops. */
  function PostCheck(t: Thread, a: PostArgs): (r: Outcome<PostError>)
    ensures r == Pass <==>
      && t.modelName != "mail.thread" && t.id != 0 && a.messageType != "user_notification"
      && AttachmentsWellFormed(a.attachments) && AllInts(a.attachmentIds) && AllInts(a.partnerIds)
      && Normalised(a.ccRecipientIds).Ok? && Normalised(a.bccRecipientIds).Ok?
    ensures (t.modelName == "mail.thread" || t.id == 0) ==> r == Fail(NotBusinessDocument)
    ensures t.modelName != "mail.thread" && t.id != 0 && a.messageType == "user_notification"
            ==> r == Fail(UserNotification)
  {
    if t.modelName == "mail.thread" || t.id == 0 then Fail(NotBusinessDocument)
    else if a.messageType == "user_notification" then Fail(UserNotification)
    else if !AttachmentsWellFormed(a.attachments) then Fail(BadAttachments)
    else if !AllInts(a.attachmentIds) then Fail(BadAttachmentIds)
    else if !AllInts(a.partnerIds) then Fail(BadPartnerIds)
    else if Normalised(a.ccRecipientIds).Err? then Fail(BadRecipients(Normalised(a.ccRecipientIds).error))
    else if Normalised(a.bccRecipientIds).Err? then Fail(BadRecipients(Normalised(a.bccRecipientIds).error))
    else Pass
  }

  /**
   * `message_post`: the checks, the two normalisation loops, and the values
   * of the new message, which keep the raw command lists.
   */
  method MessagePost(t: Thread, a: PostArgs) returns (r: Result<MessageVals, PostError>)
    ensures r.Err? <==> PostCheck(t, a).Fail?
    ensures r.Err? ==> PostCheck(t, a) == Fail(r.error)
    ensures r.Ok? ==>
      && r.value.model == t.modelName && r.value.resId == t.id && r.value.messageType == a.messageType
      && r.value.subject == (if Set(a.subject) then a.subject else None)
      && AllInts(a.partnerIds) && r.value.partnerIds == Ints(a.partnerIds)
      && r.value.ccRecipientIds == a.ccRecipientIds && r.value.bccRecipientIds == a.bccRecipientIds
  {
    if t.modelName == "mail.thread" || t.id == 0 {
      return Err(NotBusinessDocument);
    }
    if a.messageType == "user_notification" {
      return Err(UserNotification);
    }
    if !AttachmentsWellFormed(a.attachments) {
      return Err(BadAttachments);
    }
    if !AllInts(a.attachmentIds) {
      return Err(BadAttachmentIds);
    }
    if !AllInts(a.partnerIds) {
      return Err(BadPartnerIds);
    }
    var ccPartnerIds := NormaliseRecipients(a.ccRecipientIds);
    if ccPartnerIds.Err? {
      return Err(BadRecipients(ccPartnerIds.error));
    }
    var bccPartnerIds := NormaliseRecipients(a.bccRecipientIds);
    if bccPartnerIds.Err? {
      return Err(BadRecipients(bccPartnerIds.error));
    }
    var subject := if Set(a.subject) then a.subject else None;
    r := Ok(MessageVals(t.modelName, t.id, a.messageType, subject, Ints(a.partnerIds),
                        a.ccRecipientIds, a.bccRecipientIds));
  }

  /** Two command lists naming the same partner are stored as written, not as the same set. */
  lemma RawCommandsStored()
    ensures var linked, plain := [CTuple([VInt(4), VInt(3)])], [CInt(3)];
            Normalised(linked) == Normalised(plain) && linked != plain
  {
    var linked, plain := [CTuple([VInt(4), VInt(3)])], [CInt(3)];
    assert linked[..0] == [] && plain[..0] == [];
    assert Contribution(linked[0]) == Ok({VInt(3)});
  }

  /** `_raise_for_invalid_parameters`: a given, non-empty set of restricting names gains the five recipient fields. */
  function ExtendRestrictingNames(restricting: Option<set<string>>): (r: Option<set<string>>)
    ensures restricting.None? || restricting == Some({}) ==> r == restricting
    ensures restricting.Some? && restricting.value != {} ==>
      r.Some? && restricting.value <= r.value
      && forall n :: n in r.value <==> n in restricting.value || n in RecipientFields()
  {
    if restricting.Some? && restricting.value != {} then Some(restricting.value + RecipientFields()) else restricting
  }

  function RecipientFields(): set<string> {
    {"bcc_recipient_ids", "cc_recipient_ids", "email_cc", "email_to", "email_bcc"}
  }

  // ---------------------------------------------------------------------
  // Outgoing mails
  // ---------------------------------------------------------------------

  /** A partner; `normalized` is what the mail tools' `email_normalize_all` gives for its email. */
  datatype Partner = Partner(name: Option<string>, email: Option<string>, normalized: seq<string>)

  /** A `formataddr((name, email))` pair. */
  datatype Address = Address(name: string, email: string)

  function NameOrEmpty(p: Partner): string {
    if Set(p.name) then p.name.value else ""
  }

  /** The entries one partner contributes: one per normalised address, or a single one from the raw email. */
  function PartnerEntries(p: Partner): (r: seq<Address>)
    ensures |r| == (if p.normalized == [] then 1 else |p.normalized|)
    ensures forall k :: 0 <= k < |r| ==> r[k].name == NameOrEmpty(p)
    ensures p.normalized == [] ==> r[0].email == (if Set(p.email) then p.email.value else "False")
    ensures forall k :: 0 <= k < |p.normalized| ==>
              r[k].email == (if p.normalized[k] == "" then "False" else p.normalized[k])
  {
    if p.normalized != [] then
      seq(|p.normalized|, k requires 0 <= k < |p.normalized| =>
        Address(NameOrEmpty(p), if p.normalized[k] == "" then "False" else p.normalized[k]))
    else [Address(NameOrEmpty(p), if Set(p.email) then p.email.value else "False")]
  }

  function PartnerEmailList(ps: seq<Partner>): seq<Address> {
    if ps == [] then [] else PartnerEmailList(ps[..|ps| - 1]) + PartnerEntries(ps[|ps| - 1])
  }

  /** Every partner contributes at least one address: the list is never shorter than the partners. */
  lemma {:induction false} PartnerEmailListCovers(ps: seq<Partner>)
    ensures |PartnerEmailList(ps)| >= |ps|
    ensures (forall i :: 0 <= i < |ps| ==> |ps[i].normalized| <= 1) ==> |PartnerEmailList(ps)| == |ps|
  {
    if ps != [] {
      var n := |ps| - 1;
      assert forall i :: 0 <= i < n ==> ps[..n][i] == ps[i];
      PartnerEmailListCovers(ps[..n]);
    }
  }

  /** `get_partner_email_list`. */
  method GetPartnerEmailList(partners: seq<Partner>) returns (emails: seq<Address>)
    ensures emails == PartnerEmailList(partners)
  {
    emails := [];
    var i := 0;
    while i < |partners|
      invariant 0 <= i <= |partners|
      invariant emails == PartnerEmailList(partners[..i])
    {
      assert partners[..i + 1][..i] == partners[..i];
      emails := emails + PartnerEntries(partners[i]);
      i := i + 1;
    }
    assert partners[..|partners|] == partners;
  }

  /** One entry of `_prepare_outgoing_list`'s result, with the address lists this module extends. */
  datatype OutgoingMail = OutgoingMail(emailTo: seq<Address>, emailCc: Option<seq<Address>>,
                                       emailBcc: Option<seq<Address>>, body: string)

  function OrEmpty(l: Option<seq<Address>>): seq<Address> {
    if l.Some? then l.value else []
  }

  /** An outgoing mail with the partner cc and bcc addresses after its own. */
  function WithPartnerCopies(m: OutgoingMail, cc: seq<Address>, bcc: seq<Address>): (r: OutgoingMail)
    ensures r.emailTo == m.emailTo && r.body == m.body
    ensures r.emailCc.Some? && r.emailBcc.Some?
    ensures |r.emailCc.value| == |OrEmpty(m.emailCc)| + |cc| && |r.emailBcc.value| == |OrEmpty(m.emailBcc)| + |bcc|
    ensures r.emailCc.value[..|OrEmpty(m.emailCc)|] == OrEmpty(m.emailCc)
    ensures r.emailCc.value[|OrEmpty(m.emailCc)|..] == cc
    ensures r.emailBcc.value[..|OrEmpty(m.emailBcc)|] == OrEmpty(m.emailBcc)
    ensures r.emailBcc.value[|OrEmpty(m.emailBcc)|..] == bcc
  {
    m.(emailCc := Some(OrEmpty(m.emailCc) + cc), emailBcc := Some(OrEmpty(m.emailBcc) + bcc))
  }

  /**
   * `_prepare_outgoing_list`: with the `cc` context, every result gets the
   * message's cc and bcc partners' addresses; without it nothing changes.
   */
  method PrepareOutgoingList(results: array<OutgoingMail>, ccContext: bool,
                             ccPartners: seq<Partner>, bccPartners: seq<Partner>)
    modifies results
    ensures !ccContext ==> results[..] == old(results[..])
    ensures ccContext ==> forall i :: 0 <= i < results.Length ==>
      results[i] == WithPartnerCopies(old(results[i]), PartnerEmailList(ccPartners), PartnerEmailList(bccPartners))
  {
    if ccContext {
      var ccEmails := GetPartnerEmailList(ccPartners);
      var bccEmails := GetPartnerEmailList(bccPartners);
      var i := 0;
      while i < results.Length
        invariant 0 <= i <= results.Length
        invariant forall k :: 0 <= k < i ==> results[k] == WithPartnerCopies(old(results[k]), ccEmails, bccEmails)
        invariant forall k :: i <= k < results.Length ==> results[k] == old(results[k])
      {
        var result := results[i];
        var emailCc := if result.emailCc.Some? then result.emailCc.value else [];
        var emailBcc := if result.emailBcc.Some? then result.emailBcc.value else [];
        results[i] := result.(emailCc := Some(emailCc + ccEmails), emailBcc := Some(emailBcc + bccEmails));
        i := i + 1;
      }
    }
  }

  // ---------------------------------------------------------------------
  // Notification mails
  // ---------------------------------------------------------------------

  /** `recipients_max` of `_notify_thread_by_email`. */
  const RecipientsMax := 50

  function Flatten(chunks: seq<seq<int>>): seq<int> {
    if chunks == [] then [] else chunks[0] + Flatten(chunks[1..])
  }

  /** `split_every(n, ids)`: consecutive chunks of `n`, the last one possibly shorter. */
  function Chunks(ids: seq<int>, n: nat): (r: seq<seq<int>>)
    requires n > 0
    decreases |ids|
    ensures Flatten(r) == ids
    ensures forall i :: 0 <= i < |r| ==> 0 < |r[i]| <= n
    ensures forall i :: 0 <= i < |r| - 1 ==> |r[i]| == n
  {
    if ids == [] then []
    else if |ids| <= n then
      assert Flatten([ids]) == ids + Flatten([]);
      [ids]
    else
      var rest := Chunks(ids[n..], n);
      var r := [ids[..n]] + rest;
      assert r[0] == ids[..n] && r[1..] == rest;
      assert ids[..n] + ids[n..] == ids;
      r
  }

  /** The number of chunks is the number of recipients divided by `n`, rounded up. */
  lemma {:induction false} ChunkCount(ids: seq<int>, n: nat)
    requires n > 0
    decreases |ids|
    ensures |Chunks(ids, n)| == (|ids| + n - 1) / n
  {
    if ids == [] {
      DivBetween(n - 1, n, 0);
    } else if |ids| <= n {
      DivBetween(|ids| + n - 1, n, 1);
    } else {
      ChunkCount(ids[n..], n);
      assert |Chunks(ids, n)| == |Chunks(ids[n..], n)| + 1;
      DivShift(|ids| - 1, n);
    }
  }

  lemma DivShift(a: int, n: int)
    requires n > 0
    ensures (a + n) / n == a / n + 1
  {
    var q := a / n;
    DivBounds(a, n);
    assert (q + 1) * n == q * n + n;
    DivBetween(a + n, n, q + 1);
  }

  lemma DivBetween(a: int, n: int, q: int)
    requires n > 0 && q * n <= a < q * n + n
    ensures a / n == q
  {
    var d := a / n;
    DivBounds(a, n);
    assert (q - d) * n == q * n - d * n;
    assert (d - q) * n == d * n - q * n;
    BelowOne(q - d, n);
    BelowOne(d - q, n);
  }

  lemma BelowOne(k: int, n: int)
    requires n > 0 && k * n < n
    ensures k < 1
  {
  }

  lemma DivBounds(a: int, n: int)
    requires n > 0
    ensures (a / n) * n <= a < (a / n) * n + n
  {
  }

  /** The mails of the recipient groups: each group's recipients in chunks, group after group. */
  function GroupMails(groups: seq<seq<int>>): seq<seq<int>> {
    if groups == [] then [] else Chunks(groups[0], RecipientsMax) + GroupMails(groups[1..])
  }

  lemma {:induction false} FlattenAppend(a: seq<seq<int>>, b: seq<seq<int>>)
    ensures Flatten(a + b) == Flatten(a) + Flatten(b)
  {
    if a == [] {
      assert a + b == b;
    } else {
      assert (a + b)[0] == a[0] && (a + b)[1..] == a[1..] + b;
      assert Flatten(a + b) == a[0] + Flatten(a[1..] + b);
      FlattenAppend(a[1..], b);
      assert a[0] + (Flatten(a[1..]) + Flatten(b)) == (a[0] + Flatten(a[1..])) + Flatten(b);
    }
  }

  /** Every recipient gets exactly one place in the mails, in order, at most 50 to a mail. */
  lemma {:induction false} GroupMailsCover(groups: seq<seq<int>>)
    ensures Flatten(GroupMails(groups)) == Flatten(groups)
    ensures forall i :: 0 <= i < |GroupMails(groups)| ==> 0 < |GroupMails(groups)[i]| <= RecipientsMax
  {
    if groups != [] {
      GroupMailsCover(groups[1..]);
      FlattenAppend(Chunks(groups[0], RecipientsMax), GroupMails(groups[1..]));
    }
  }

  /**
   * The force-send decision: the context's `mail_notify_force_send`, else
   * the argument; when on, kept only below the configured limit (100 by default).
   */
  function ForceSend(requested: bool, contextForceSend: Option<bool>, mailCount: nat, limitParam: Option<int>): (r: bool)
    ensures r ==> mailCount < (if limitParam.Some? then limitParam.value else 100)
    ensures contextForceSend == Some(false) ==> !r
    ensures contextForceSend.None? && !requested ==> !r
    ensures contextForceSend == Some(true) && limitParam.None? && mailCount < 100 ==> r
  {
    var wanted := if contextForceSend.Some? then contextForceSend.value else requested;
    var limit := if limitParam.Some? then limitParam.value else 100;
    wanted && mailCount < limit
  }

  /** With the default limit, one group is sent at once up to 4950 recipients (99 mails) and queued beyond. */
  lemma ForceSendThreshold(g: seq<int>)
    ensures ForceSend(true, None, |GroupMails([g])|, None) <==> |g| <= 4950
  {
    assert GroupMails([g]) == Chunks(g, RecipientsMax) + GroupMails([]);
    ChunkCount(g, RecipientsMax);
  }

  /**
   * `_notify_thread_by_email`'s mails: nothing without recipients notified
   * by email, else one mail per chunk of each group; and whether to send
   * them at once.
   */
  method NotifyThreadByEmail(emailPartners: seq<int>, groups: seq<seq<int>>, requested: bool,
                             contextForceSend: Option<bool>, limitParam: Option<int>)
    returns (mails: seq<seq<int>>, forceSend: bool)
    ensures emailPartners == [] ==> mails == [] && !forceSend
    ensures emailPartners != [] ==>
      mails == GroupMails(groups) && forceSend == ForceSend(requested, contextForceSend, |mails|, limitParam)
  {
    if emailPartners == [] {
      return [], false;
    }
    mails := [];
    var g := 0;
    while g < |groups|
      invariant 0 <= g <= |groups|
      invariant mails + GroupMails(groups[g..]) == GroupMails(groups)
    {
      assert groups[g..][1..] == groups[g + 1..];
      mails := mails + Chunks(groups[g], RecipientsMax);
      g := g + 1;
    }
    forceSend := if contextForceSend.Some? then contextForceSend.value else requested;
    if forceSend {
      var limit := if limitParam.Some? then limitParam.value else 100;
      forceSend := |mails| < limit;
    }
  }

  // ---------------------------------------------------------------------
  // The separate cc/bcc mail
  // ---------------------------------------------------------------------

  /** The message fields that make `_notify_thread` send the separate cc/bcc mail. */
  datatype MessageRecipients = MessageRecipients(emailCc: Option<string>, emailBcc: Option<string>,
                                                  ccRecipientIds: seq<int>, bccRecipientIds: seq<int>,
                                                  emailTo: Option<string>)

  predicate HasCopyRecipients(m: MessageRecipients) {
    Set(m.emailCc) || Set(m.emailBcc) || m.ccRecipientIds != [] || m.bccRecipientIds != [] || Set(m.emailTo)
  }

  /** The values of the separate cc/bcc mail; `body` is the message body after its local links are replaced. */
  datatype CcBccMail = CcBccMail(subject: Option<string>, body: string, emailCc: Option<string>, emailBcc: Option<string>,
                                 ccRecipientIds: seq<int>, bccRecipientIds: seq<int>, emailTo: Option<string>,
                                 sendNow: bool)

  /**
   * `_nofity_cc_bcc`: the message's own subject, else "Re: " and the record
   * name, else none; the message's copy fields unchanged; sent at once
   * unless the context or the argument says otherwise.
   */
  function CcBccMailValues(m: MessageRecipients, subject: Option<string>, recordName: Option<string>, body: string,
                           forceSend: bool, contextForceSend: Option<bool>): (r: CcBccMail)
    ensures Set(subject) ==> r.subject == subject
    ensures !Set(subject) && Set(recordName) ==>
              r.subject.Some? && |r.subject.value| >= 4 && r.subject.value[..4] == "Re: " && r.subject.value[4..] == recordName.value
    ensures !Set(subject) && !Set(recordName) ==> r.subject.None?
    ensures r.body == body && r.emailTo == m.emailTo
    ensures r.emailCc == m.emailCc && r.emailBcc == m.emailBcc
    ensures r.ccRecipientIds == m.ccRecipientIds && r.bccRecipientIds == m.bccRecipientIds
    ensures contextForceSend.Some? ==> r.sendNow == contextForceSend.value
    ensures contextForceSend.None? ==> r.sendNow == forceSend
  {
    var mailSubject := if Set(subject) then subject
                       else if Set(recordName) then Some("Re: " + recordName.value)
                       else None;
    var now := if contextForceSend.Some? then contextForceSend.value else forceSend;
    CcBccMail(mailSubject, body, m.emailCc, m.emailBcc, m.ccRecipientIds, m.bccRecipientIds, m.emailTo, now)
  }

  /**
   * The cc/bcc mails created as written: one by `_notify_thread`, and one
   * more by `_notify_thread_by_email` when no recipient is notified by email.
   */
  function CcBccMailsAsWritten(m: MessageRecipients, emailPartners: seq<int>, notifyByEmail: bool): (r: nat)
    ensures r <= 2
    ensures r == 0 <==> !HasCopyRecipients(m)
  {
    (if HasCopyRecipients(m) then 1 else 0)
    + (if notifyByEmail && emailPartners == [] && HasCopyRecipients(m) then 1 else 0)
  }

  /** A message with a cc address, posted where nobody is notified by email, gets two identical cc/bcc mails. */
  lemma CcBccMailSentTwice()
    ensures CcBccMailsAsWritten(MessageRecipients(Some("a@example.com"), None, [], [], None), [], true) == 2
  {
  }

  /** The cc/bcc mails as intended: one when the message has copy recipients, none otherwise. */
  function CcBccMails(m: MessageRecipients, emailPartners: seq<int>, notifyByEmail: bool): (r: nat)
    ensures r <= 1
    ensures r == 1 <==> HasCopyRecipients(m)
  {
    if HasCopyRecipients(m) then 1 else 0
  }

  /** The two agree except where nobody is notified by email. */
  lemma CcBccMailsAgree(m: MessageRecipients, emailPartners: seq<int>, notifyByEmail: bool)
    ensures emailPartners != [] || !notifyByEmail ==>
              CcBccMailsAsWritten(m, emailPartners, notifyByEmail) == CcBccMails(m, emailPartners, notifyByEmail)
    ensures CcBccMailsAsWritten(m, emailPartners, notifyByEmail) == 2 * CcBccMails(m, emailPartners, notifyByEmail)
            <==> HasCopyRecipients(m) ==> notifyByEmail && emailPartners == []
  {
  }
}
