/** Writing one call into the CRM (`createCallEngagement`) in its two
    revisions, the call note each revision generates, `updateCallNotes`,
    and the legacy revision's single association calls.

    The client revision (src/hubspot-api.client.ts) links the call through
    the batch association helper and reads the company leniently; the
    legacy revision (src/hubspot-api.ts), which the synchronization jobs
    use, reads the company directly (a failure aborts the write) and links
    with one request per target. */
module Writer {
  import opened Base
  import opened Text
  import opened Phone
  import opened Status
  import opened Crm
  import opened Lookup
  import opened Associations

  /** What the caller passes to `createCallEngagement`. A duration of None
      is NaN; a UUID of None is `undefined`. */
  datatype EngagementParams = EngagementParams(
    contactId: Option<string>,
    fromNumber: string,
    toNumber: string,
    callDuration: Option<int>,
    recordingUrl: string,
    callStatus: string,
    callTimestamp: int,
    callUuid: Option<string>,
    notes: Option<string>)

  /** The outcome of a write: `{success: false, reason: "duplicate"}`, or
      the created call with what was found for it. */
  datatype Engagement =
    | Duplicate
    | Created(callId: string, contactId: Option<string>, contactName: Option<string>,
              companyId: Option<string>, companyName: Option<string>)

  /** The company found for a contact: its id and its `name` property. */
  datatype CompanyInfo = CompanyInfo(companyId: string, companyName: Option<string>)

  /** What the writer depends on besides its arguments: the phone library,
      the CRM, and `new Date(t).toLocaleString()` for the note. */
  datatype Env = Env(lib: PhoneLib, crm: Service, localeTime: int -> string)

  // ---------------------------------------------------------------------
  // Names and numbers

  /** `getContactDisplayName`: first and last name joined by a space, absent
      or empty parts as "", then trimmed. */
  function DisplayName(c: Contact): (r: string)
    ensures r == "" || (!IsJsSpace(r[0]) && !IsJsSpace(r[|r| - 1]))
  {
    Trim(OrElse(c.firstName, "") + " " + OrElse(c.lastName, ""))
  }

  /** A name part with no white space at either end. */
  predicate TrimmedPart(part: Option<string>) {
    Truthy(part) && !IsJsSpace(part.value[0]) && !IsJsSpace(part.value[|part.value| - 1])
  }

  /** A contact whose name parts carry no edge white space is shown as
      "first last" when it has both, as the one part it has when it has
      one, and as "" when it has neither. */
  lemma DisplayNameParts(c: Contact)
    ensures TrimmedPart(c.firstName) && TrimmedPart(c.lastName)
            ==> DisplayName(c) == c.firstName.value + " " + c.lastName.value
    ensures TrimmedPart(c.firstName) && !Truthy(c.lastName) ==> DisplayName(c) == c.firstName.value
    ensures !Truthy(c.firstName) && TrimmedPart(c.lastName) ==> DisplayName(c) == c.lastName.value
    ensures !Truthy(c.firstName) && !Truthy(c.lastName) ==> DisplayName(c) == ""
  {
    var t := OrElse(c.firstName, "") + " " + OrElse(c.lastName, "");
    if TrimmedPart(c.firstName) && TrimmedPart(c.lastName) {
      assert t[0] == c.firstName.value[0];
      TrimKeeps(t);
    } else if TrimmedPart(c.firstName) && !Truthy(c.lastName) {
      assert t == c.firstName.value + " ";
      TrimSpaceAfter(c.firstName.value);
    } else if !Truthy(c.firstName) && TrimmedPart(c.lastName) {
      assert t == " " + c.lastName.value;
      TrimSpaceBefore(c.lastName.value);
    } else if !Truthy(c.firstName) && !Truthy(c.lastName) {
      assert t == " ";
      TrimSpace(t);
    }
  }

  /** `PhoneUtils.formatInternationalNumber(x) || x`. */
  function Formatted(lib: PhoneLib, raw: string): (r: string)
    ensures Truthy(Normalize(lib, raw)) ==> r == Normalize(lib, raw).value
    ensures !Truthy(Normalize(lib, raw)) ==> r == raw
  {
    OrElse(Normalize(lib, raw), raw)
  }

  // ---------------------------------------------------------------------
  // The call note

  /** JavaScript's `a % b` for a positive `b`: the remainder truncated
      toward zero, so negative for a negative `a`. */
  function JsRem(a: int, b: int): (r: int)
    requires b > 0
    ensures -b < r < b
    ensures a >= 0 ==> r == a % b
    ensures a < 0 ==> r == -((-a) % b)
  {
    if a >= 0 then a % b else -((-a) % b)
  }

  /** The minutes (`Math.floor(d / 60)`) and seconds (`d % 60`) the note
      shows add back up to `d` exactly when `d` is not negative; for a
      negative `d` that is not a whole number of minutes they fall a minute
      short. */
  lemma {:induction false} MinutesAndSeconds(d: int)
    ensures d >= 0 ==> (d / 60) * 60 + JsRem(d, 60) == d && 0 <= JsRem(d, 60) < 60
    ensures d < 0 && d % 60 != 0 ==> (d / 60) * 60 + JsRem(d, 60) == d - 60
  {
    if d < 0 && d % 60 != 0 {
      var k := -d;
      var a := k / 60;
      var b := k % 60;
      assert k == 60 * a + b && 0 < b < 60;
      assert d == 60 * (-a - 1) + (60 - b);
      assert d / 60 == -a - 1;
    }
  }

  /** The note's `Süre` text; NaN prints as "NaN". */
  function DurationText(d: Option<int>): string {
    match d
    case None => "NaN dakika NaN saniye"
    case Some(n) => IntToString(n / 60) + " dakika " + IntToString(JsRem(n, 60)) + " saniye"
  }

  const NoteHeader := "Santral Çağrı Detayları\n\nDETAYLAR\n--------\n"

  /** The line naming the call's UUID; the duplicate check and
      `updateCallNotes` search call bodies for this token. */
  function UuidLine(uuid: Option<string>): string {
    "• UUID: " + TemplateText(uuid) + "\n"
  }

  /** The duration line. */
  function DurationLine(d: Option<int>): string {
    "• Süre: " + DurationText(d) + "\n"
  }

  /** The last line: the recording URL when there is one. */
  function RecordingLine(url: string): (r: string)
    ensures url != "" <==> StartsWith(r, "• Ses Kaydı: ")
  {
    assert !StartsWith("• Ses Kaydı Yok", "• Ses Kaydı: ") by {
      assert "• Ses Kaydı Yok"[11] != "• Ses Kaydı: "[11];
    }
    if url != "" then "• Ses Kaydı: " + url else "• Ses Kaydı Yok"
  }

  /** The body of `generateCallNote`, line by line. Both revisions share
      its layout; the client revision adds a `Durum` line (`status`), the
      legacy one does not (None). */
  function NoteLines(uuid: Option<string>, from: string, to: string, contactName: string,
                     companyName: Option<string>, time: string, duration: Option<int>,
                     status: Option<string>, recordingUrl: string): (ls: seq<string>)
    ensures |ls| == 6 && ls[0] == NoteHeader && ls[1] == UuidLine(uuid)
    ensures ls[3] == DurationLine(duration) && ls[5] == RecordingLine(recordingUrl)
    ensures status.Some? ==> ls[4] == "• Durum: " + status.value + "\n"
  {
    var company := if Truthy(companyName) then " (" + companyName.value + ")" else "";
    [NoteHeader,
     UuidLine(uuid),
     "• Arayan: " + from + "\n• Aranan: " + contactName + company + "\n• Alıcı No: " + to
       + "\n• Başlangıç: " + time + "\n",
     DurationLine(duration),
     if status.Some? then "• Durum: " + status.value + "\n" else "",
     RecordingLine(recordingUrl)]
  }

  /** The note: it names the UUID, the duration and (when given) the status,
      and ends with the recording line. */
  function Note(uuid: Option<string>, from: string, to: string, contactName: string,
                companyName: Option<string>, time: string, duration: Option<int>,
                status: Option<string>, recordingUrl: string): (r: string)
    ensures Contains(r, UuidLine(uuid))
    ensures Contains(r, DurationLine(duration))
    ensures status.Some? ==> Contains(r, "• Durum: " + status.value + "\n")
    ensures EndsWith(r, RecordingLine(recordingUrl))
  {
    var ls := NoteLines(uuid, from, to, contactName, companyName, time, duration, status, recordingUrl);
    ConcatContains(ls, 1);
    ConcatContains(ls, 3);
    ConcatContains(ls, 4);
    ConcatEndsWith(ls);
    Concat(ls)
  }

  /** What every call object the writer creates carries, whatever was
      found for it: the caller's duration, status, time and recording, the
      numbers in international form where the phone library gives one, and
      as body the caller's notes or else a note naming the UUID and the
      duration. */
  ghost predicate Promised(lib: PhoneLib, p: EngagementParams, props: CallProperties) {
    && props.direction == "INBOUND"
    && props.duration == p.callDuration
    && props.recordingUrl == p.recordingUrl
    && props.status == MapCallStatus(p.callStatus)
    && props.timestamp == p.callTimestamp
    && props.fromNumber == Formatted(lib, p.fromNumber)
    && props.toNumber == Formatted(lib, p.toNumber)
    && (Truthy(p.notes) ==> props.body == p.notes.value)
    && (!Truthy(p.notes) ==> Contains(props.body, UuidLine(p.callUuid)))
    && (!Truthy(p.notes) ==> Contains(props.body, DurationLine(p.callDuration)))
  }

  /** The properties for the call: title "Call with <shown> - Santral" and,
      without notes, the generated note. */
  function CallFor(lib: PhoneLib, p: EngagementParams, shown: string, note: string): (r: CallProperties)
    requires !Truthy(p.notes) ==> Contains(note, UuidLine(p.callUuid))
    requires !Truthy(p.notes) ==> Contains(note, DurationLine(p.callDuration))
    ensures Promised(lib, p, r)
    ensures StartsWith(r.title, "Call with " + shown)
  {
    CallProperties("INBOUND", p.callDuration, Formatted(lib, p.fromNumber), p.recordingUrl,
                   MapCallStatus(p.callStatus), "Call with " + shown + " - Santral",
                   Formatted(lib, p.toNumber), p.callTimestamp, OrElse(p.notes, note))
  }

  /** The client revision's note: the numbers as the caller gave them, the
      contact's display name (or the dialled number), the company name and
      the raw status. */
  function ClientNote(env: Env, p: EngagementParams, shown: string, company: Option<CompanyInfo>): (r: string)
    ensures Contains(r, UuidLine(p.callUuid))
    ensures Contains(r, DurationLine(p.callDuration))
    ensures Contains(r, "• Durum: " + p.callStatus + "\n")
  {
    Note(p.callUuid, p.fromNumber, p.toNumber, shown,
         if company.Some? then company.value.companyName else None,
         env.localeTime(p.callTimestamp), p.callDuration, Some(p.callStatus), p.recordingUrl)
  }

  /** The legacy revision's note: the numbers it already formatted, passed
      once more through the display formatter, and no status line. */
  function LegacyNote(env: Env, p: EngagementParams, shown: string, company: Option<CompanyInfo>): (r: string)
    ensures Contains(r, UuidLine(p.callUuid))
    ensures Contains(r, DurationLine(p.callDuration))
  {
    Note(p.callUuid, DisplayForm(env.lib, Formatted(env.lib, p.fromNumber)),
         DisplayForm(env.lib, Formatted(env.lib, p.toNumber)), shown,
         if company.Some? then company.value.companyName else None,
         env.localeTime(p.callTimestamp), p.callDuration, None, p.recordingUrl)
  }

  // ---------------------------------------------------------------------
  // What the requests create

  lemma CreatesSnoc(h: seq<Request>, q: Request)
    ensures Creates(h + [q]) == Creates(h) + (if q.CallCreate? then [q.props] else [])
  {
    CreatesAppend(h, [q]);
    assert [q][1..] == [];
  }

  /** Contact searches create no call objects. */
  lemma SearchesCreateNothing(s1: Session, s2: Session, wc: bool)
    requires Extends(s1, s2) && OnlySearches(NewRequests(s1, s2), wc)
    ensures Creates(s2.history) == Creates(s1.history)
  {
    var n := NewRequests(s1, s2);
    assert s2.history == s1.history + n;
    CreatesNone(n);
    CreatesAppend(s1.history, n);
  }

  /** Association requests create no call objects. */
  lemma LinksCreateNothing(h: seq<Request>, h2: seq<Request>)
    requires LinksAfter(h, h2)
    ensures Creates(h2) == Creates(h)
    ensures h <= h2
  {
    var n := h2[|h|..];
    assert h2 == h + n;
    assert forall i :: 0 <= i < |n| ==> IsLink(h2[|h| + i]) && n[i] == h2[|h| + i];
    CreatesNone(n);
    CreatesAppend(h, n);
  }

  /** The requests `h` create the calls `before` and then exactly one
      more, which carries what `p` promises. */
  ghost predicate CreatedOnce(lib: PhoneLib, p: EngagementParams, before: seq<CallProperties>, h: seq<Request>) {
    var c := Creates(h);
    |c| == |before| + 1 && c[..|before|] == before && Promised(lib, p, c[|before|])
  }

  lemma CreatedOnceOf(lib: PhoneLib, p: EngagementParams, before: seq<CallProperties>, h: seq<Request>, props: CallProperties)
    requires Creates(h) == before + [props] && Promised(lib, p, props)
    ensures CreatedOnce(lib, p, before, h)
  {
    assert Creates(h)[..|before|] == before;
  }

  /** The promise does not depend on the contact the call is linked to. */
  lemma CreatedOnceAnyContact(lib: PhoneLib, p: EngagementParams, id: Option<string>, before: seq<CallProperties>, h: seq<Request>)
    requires CreatedOnce(lib, p.(contactId := id), before, h)
    ensures CreatedOnce(lib, p, before, h)
  {
  }

  /** A write that failed: the error is the last log entry, under the
      method's name, and either nothing or exactly the promised call was
      created. */
  ghost predicate FailedWrite(lib: PhoneLib, p: EngagementParams, before: seq<CallProperties>, s: Session, e: Failure) {
    LastLogged(s, "createCallEngagement", e)
    && (Creates(s.history) == before || CreatedOnce(lib, p, before, s.history))
  }

  /** The duplicate check's search found a call with the UUID. */
  predicate AlreadySynced(crm: Service, h: seq<Request>, uuid: Option<string>) {
    var a := crm.searchCalls(h + [CallSearch(uuid)]);
    a.Ok? && a.value.total > 0
  }

  /** The last log entry records `e` under `name`. */
  predicate LastLogged(s: Session, name: string, e: Failure) {
    |s.log| > 0 && s.log[|s.log| - 1] == LogEntry(name, e)
  }

  /** The CRM's answer to the last create request of `h`: the id it gave,
      or None when there is no create request or the last one failed. */
  function LastCreated(crm: Service, h: seq<Request>): Option<string>
    decreases |h|
  {
    if h == [] then None
    else if h[|h| - 1].CallCreate? then
      match crm.createCall(h)
      case Ok(id) => Some(id)
      case Err(_) => None
    else LastCreated(crm, h[..|h| - 1])
  }

  /** Requests other than creates leave the last create's answer alone. */
  lemma {:induction false} LastCreatedKept(crm: Service, h: seq<Request>, h2: seq<Request>)
    requires h <= h2
    requires forall i :: |h| <= i < |h2| ==> !h2[i].CallCreate?
    ensures LastCreated(crm, h2) == LastCreated(crm, h)
    decreases |h2|
  {
    if |h2| > |h| {
      var h1 := h2[..|h2| - 1];
      assert h <= h1;
      assert !h2[|h2| - 1].CallCreate?;
      assert forall i :: |h| <= i < |h1| ==> h1[i] == h2[i];
      LastCreatedKept(crm, h, h1);
    } else {
      assert h2 == h;
    }
  }

  /** The id of the company found, if any. */
  function CompanyIdOf(company: Option<CompanyInfo>): Option<string> {
    if company.Some? then Some(company.value.companyId) else None
  }

  // ---------------------------------------------------------------------
  // The stages of a write

  /** The contact of the call: read by id when the caller names one (a
      failed read is logged and means "no contact"), else searched by the
      dialled number, whose error is raised. Neither creates a call. */
  function ResolveContact(env: Env, s: Session, p: EngagementParams, wc: bool): (r: Step<Result<Option<Contact>, Failure>>)
    ensures Extends(s, r.session)
    ensures Creates(r.session.history) == Creates(s.history)
    ensures Truthy(p.contactId) ==>
              var h := s.history + [ContactRead(p.contactId.value)];
              var a := env.crm.readContact(h);
              r.session.history == h && r.out == Ok(if a.Ok? then Some(a.value) else None)
    ensures !Truthy(p.contactId) ==> OnlySearches(NewRequests(s, r.session), wc)
    ensures !Truthy(p.contactId) ==> r == FindContactByPhone(env.lib, env.crm, s, p.toNumber, wc)
    ensures r.out.Err? ==> r.session.log == s.log + [LogEntry("findContactByPhone", r.out.error)]
    ensures AnswersWell(env.crm) ==> r.out.Ok?
  {
    if Truthy(p.contactId) then
      var g := GetContactWithAssociations(env.crm, s, p.contactId.value);
      CreatesSnoc(s.history, ContactRead(p.contactId.value));
      Step(Ok(g.out), g.session)
    else
      var f := FindContactByPhone(env.lib, env.crm, s, p.toNumber, wc);
      SearchesCreateNothing(s, f.session, wc);
      f
  }

  /** The client revision's company: the first associated company of the
      contact, read by id; a failed read is logged and means "no company". */
  function ClientCompany(crm: Service, s: Session, contact: Option<Contact>): (r: Step<Option<CompanyInfo>>)
    ensures Extends(s, r.session)
    ensures Creates(r.session.history) == Creates(s.history)
    ensures contact.None? || contact.value.companyIds == [] ==> r == Step(None, s)
    ensures contact.Some? && contact.value.companyIds != [] ==>
              var id := contact.value.companyIds[0];
              var a := crm.readCompany(s.history + [CompanyRead(id)]);
              r.session.history == s.history + [CompanyRead(id)]
              && (a.Ok? ==> r.out == Some(CompanyInfo(id, a.value.name)))
              && (a.Err? ==> r.out == None && LastLogged(r.session, "getCompanyById", a.error))
  {
    if contact.None? || contact.value.companyIds == [] then Step(None, s)
    else
      var id := contact.value.companyIds[0];
      var g := GetCompanyById(crm, s, id);
      CreatesSnoc(s.history, CompanyRead(id));
      Step(if g.out.Some? then Some(CompanyInfo(id, g.out.value.name)) else None, g.session)
  }

  /** The legacy revision's company: the same read, but a failure is
      raised. */
  function LegacyCompany(crm: Service, s: Session, contact: Option<Contact>): (r: Step<Result<Option<CompanyInfo>, Failure>>)
    ensures r.session.log == s.log
    ensures Creates(r.session.history) == Creates(s.history)
    ensures contact.None? || contact.value.companyIds == [] ==> r == Step(Ok(None), s)
    ensures contact.Some? && contact.value.companyIds != [] ==>
              var id := contact.value.companyIds[0];
              var a := crm.readCompany(s.history + [CompanyRead(id)]);
              r.session.history == s.history + [CompanyRead(id)]
              && (a.Ok? ==> r.out == Ok(Some(CompanyInfo(id, a.value.name))))
              && (a.Err? ==> r.out == Err(a.error))
  {
    if contact.None? || contact.value.companyIds == [] then Step(Ok(None), s)
    else
      var id := contact.value.companyIds[0];
      var h := s.history + [CompanyRead(id)];
      CreatesSnoc(s.history, CompanyRead(id));
      match crm.readCompany(h)
      case Err(e) => Step(Err(e), Session(h, s.log))
      case Ok(c) => Step(Ok(Some(CompanyInfo(id, c.name))), Session(h, s.log))
  }

  /** The create request: the call's id, or the error raised. */
  function CreateCall(crm: Service, s: Session, props: CallProperties): (r: Step<Result<string, Failure>>)
    ensures r.session == Session(s.history + [CallCreate(props)], s.log)
    ensures Creates(r.session.history) == Creates(s.history) + [props]
    ensures r.out == crm.createCall(r.session.history)
  {
    CreatesSnoc(s.history, CallCreate(props));
    var h := s.history + [CallCreate(props)];
    Step(crm.createCall(h), Session(h, s.log))
  }

  // ---------------------------------------------------------------------
  // The client revision

  /** After the create: the batch links of the call to its contact and
      company when a contact was found; their failure is raised. */
  function ClientLinks(crm: Service, s: Session, callId: string, contact: Option<Contact>, company: Option<CompanyInfo>): (r: Step<Result<(), Failure>>)
    ensures r.session.log == s.log
    ensures LinksAfter(s.history, r.session.history)
    ensures contact.None? ==> r == Step(Ok(()), s)
    ensures contact.Some? && Truthy(Some(contact.value.id)) ==>
              |r.session.history| > |s.history| && r.session.history[|s.history|].TypedBatch?
    ensures r.out.Err? ==> FailedSingle(crm, r.session.history, r.out.error)
    ensures BatchesAnswer(crm) ==> r.out.Ok?
  {
    if contact.None? then Step(Ok(()), s)
    else
      var t := CreateCallAssociations(crm, s.history, callId, Some(contact.value.id), CompanyIdOf(company));
      Step(if t.out.Err? then Err(t.out.error) else Ok(()), Session(t.history, s.log))
  }

  /** With a contact, the links are those the association helper makes
      for the contact and the company: its requests are the ones sent, and
      its error, and only its error, is raised. */
  lemma ClientLinksOfHelper(crm: Service, s: Session, callId: string, contact: Option<Contact>, company: Option<CompanyInfo>)
    requires contact.Some?
    ensures var r := ClientLinks(crm, s, callId, contact, company);
            var t := CreateCallAssociations(crm, s.history, callId, Some(contact.value.id), CompanyIdOf(company));
            && r.session.history == t.history
            && (r.out.Err? <==> t.out.Err?)
            && (t.out.Err? ==> r.out.error == t.out.error)
  {
  }

  /** The client revision's create and links: exactly one promised call
      is created, and a failure of either is logged under the method's
      name. */
  function ClientCreate(env: Env, s: Session, p: EngagementParams, contact: Option<Contact>,
                        company: Option<CompanyInfo>, props: CallProperties): (r: Step<Result<string, Failure>>)
    requires Promised(env.lib, p, props)
    ensures Extends(s, r.session)
    ensures r.out.Ok? ==> CreatedOnce(env.lib, p, Creates(s.history), r.session.history)
    ensures r.out.Err? ==> FailedWrite(env.lib, p, Creates(s.history), r.session, r.out.error)
    ensures var h1 := s.history + [CallCreate(props)];
            var a := env.crm.createCall(h1);
            && (a.Err? ==> r.out == Err(a.error))
            && (a.Ok? ==> var l := ClientLinks(env.crm, Session(h1, s.log), a.value, contact, company);
                          r.out == if l.out.Ok? then Ok(a.value) else Err(l.out.error))
    ensures r.out.Ok? ==> LastCreated(env.crm, r.session.history) == Some(r.out.value)
    ensures AnswersWell(env.crm) ==> r.out.Ok?
  {
    var cc := CreateCall(env.crm, s, props);
    CreatedOnceOf(env.lib, p, Creates(s.history), cc.session.history, props);
    assert Extends(s, cc.session);
    match cc.out
    case Err(e) => Step(Err(e), LogError(cc.session, "createCallEngagement", e))
    case Ok(callId) =>
      var l := ClientLinks(env.crm, cc.session, callId, contact, company);
      LinksCreateNothing(cc.session.history, l.session.history);
      LastCreatedKept(env.crm, cc.session.history, l.session.history);
      ExtendsTrans(s, cc.session, l.session);
      CreatedOnceOf(env.lib, p, Creates(s.history), l.session.history, props);
      match l.out
      case Err(e) => Step(Err(e), LogError(l.session, "createCallEngagement", e))
      case Ok(_) => Step(Ok(callId), l.session)
  }

  /** The client revision once the contact is known: company, create,
      links. Exactly one promised call is created when it succeeds, and a
      failure is logged under the method's name. */
  function ClientWrite(env: Env, s: Session, p: EngagementParams, contact: Option<Contact>): (r: Step<Result<Engagement, Failure>>)
    ensures Extends(s, r.session)
    ensures r.out.Ok? ==> r.out.value.Created? && CreatedOnce(env.lib, p, Creates(s.history), r.session.history)
    ensures r.out.Ok? ==> (r.out.value.contactId.Some? <==> contact.Some?)
                          && (r.out.value.contactName.Some? <==> contact.Some?)
                          && (r.out.value.companyId.Some? ==> contact.Some?)
    ensures r.out.Err? ==> FailedWrite(env.lib, p, Creates(s.history), r.session, r.out.error)
    ensures r.out.Ok? ==> LastCreated(env.crm, r.session.history) == Some(r.out.value.callId)
    ensures r.out.Ok? && contact.Some? ==> r.out.value.contactId == Some(contact.value.id)
    ensures AnswersWell(env.crm) ==> r.out.Ok?
  {
    var co := ClientCompany(env.crm, s, contact);
    var shown := if contact.Some? then DisplayName(contact.value) else p.toNumber;
    var props := CallFor(env.lib, p, shown, ClientNote(env, p, shown, co.out));
    var w := ClientCreate(env, co.session, p, contact, co.out, props);
    ExtendsTrans(s, co.session, w.session);
    match w.out
    case Err(e) => Step(Err(e), w.session)
    case Ok(callId) =>
      Step(Ok(Created(callId,
                      if contact.Some? then Some(contact.value.id) else None,
                      if contact.Some? then Some(shown) else None,
                      if co.out.Some? then Some(co.out.value.companyId) else None,
                      if co.out.Some? then co.out.value.companyName else None)),
           w.session)
  }

  /** The client revision after the duplicate check: the contact, then the
      write; an error finding the contact is logged under the method's
      name as well. */
  function ClientAfterCheck(env: Env, s: Session, p: EngagementParams): (r: Step<Result<Engagement, Failure>>)
    ensures Extends(s, r.session)
    ensures r.out.Ok? ==> r.out.value.Created? && CreatedOnce(env.lib, p, Creates(s.history), r.session.history)
    ensures r.out.Ok? ==> (r.out.value.contactName.Some? <==> r.out.value.contactId.Some?)
                          && (r.out.value.companyId.Some? ==> r.out.value.contactId.Some?)
    ensures r.out.Err? ==> FailedWrite(env.lib, p, Creates(s.history), r.session, r.out.error)
    ensures var c := ResolveContact(env, s, p, true);
            && (c.out.Err? ==> r.out == Err(c.out.error))
            && (c.out.Ok? ==> r == ClientWrite(env, c.session, p, c.out.value))
    ensures r.out.Ok? ==> LastCreated(env.crm, r.session.history) == Some(r.out.value.callId)
    ensures AnswersWell(env.crm) ==> r.out.Ok?
  {
    var c := ResolveContact(env, s, p, true);
    match c.out
    case Err(e) => Step(Err(e), LogError(c.session, "createCallEngagement", e))
    case Ok(contact) =>
      var w := ClientWrite(env, c.session, p, contact);
      ExtendsTrans(s, c.session, w.session);
      w
  }

  /** `createCallEngagement` of the client revision. The duplicate check
      comes first and decides "duplicate" exactly when the CRM already has
      a call with the UUID; then nothing else is sent. Otherwise exactly one
      call is created, carrying what the parameters promise, before the
      links; every error is logged under the method's name and raised. */
  function CreateEngagement(env: Env, s: Session, p: EngagementParams): (r: Step<Result<Engagement, Failure>>)
    ensures Extends(s, r.session)
    ensures |r.session.history| > |s.history| && r.session.history[|s.history|] == CallSearch(p.callUuid)
    ensures r.out == Ok(Duplicate) <==> AlreadySynced(env.crm, s.history, p.callUuid)
    ensures r.out == Ok(Duplicate) ==> r.session.history == s.history + [CallSearch(p.callUuid)]
    ensures r.out.Ok? && r.out.value.Created? ==>
              CreatedOnce(env.lib, p, Creates(s.history), r.session.history)
              && (r.out.value.contactName.Some? <==> r.out.value.contactId.Some?)
              && (r.out.value.companyId.Some? ==> r.out.value.contactId.Some?)
              && LastCreated(env.crm, r.session.history) == Some(r.out.value.callId)
    ensures r.out.Err? ==> FailedWrite(env.lib, p, Creates(s.history), r.session, r.out.error)
    ensures !AlreadySynced(env.crm, s.history, p.callUuid) ==>
              r == ClientAfterCheck(env, FindCallByUuid(env.crm, s, p.callUuid).session, p)
    ensures !AlreadySynced(env.crm, s.history, p.callUuid) && AnswersWell(env.crm) ==>
              r.out.Ok? && r.out.value.Created?
  {
    var dup := FindCallByUuid(env.crm, s, p.callUuid);
    if dup.out then Step(Ok(Duplicate), dup.session)
    else
      var r := ClientAfterCheck(env, dup.session, p);
      AfterDuplicateCheck(s, dup.session, r.session, p.callUuid);
      r
  }

  /** What the requests after the duplicate check inherit from it. */
  lemma AfterDuplicateCheck(s: Session, s1: Session, s2: Session, uuid: Option<string>)
    requires s1.history == s.history + [CallSearch(uuid)] && s.log <= s1.log
    requires Extends(s1, s2)
    ensures Extends(s, s2)
    ensures |s2.history| > |s.history| && s2.history[|s.history|] == CallSearch(uuid)
    ensures Creates(s1.history) == Creates(s.history)
  {
    CreatesSnoc(s.history, CallSearch(uuid));
    assert s2.history[..|s1.history|] == s1.history;
  }

  // ---------------------------------------------------------------------
  // The legacy revision

  /** `associateCall`: one request linking the call to the contact with
      type 194; a failure is logged and raised. */
  function AssociateCall(crm: Service, s: Session, callId: string, contactId: string): (r: Step<Result<(), Failure>>)
    ensures r.session.history == s.history + [LinkCall(callId, "contacts", contactId, 194)]
    ensures r.out.Ok? <==> crm.write(r.session.history).Ok?
    ensures r.out.Ok? ==> r.session.log == s.log
    ensures r.out.Err? ==> r.out == crm.write(r.session.history)
                           && r.session.log == s.log + [LogEntry("associateCall", r.out.error)]
  {
    var h := s.history + [LinkCall(callId, "contacts", contactId, 194)];
    match crm.write(h)
    case Err(e) => Step(Err(e), LogError(Session(h, s.log), "associateCall", e))
    case Ok(_) => Step(Ok(()), Session(h, s.log))
  }

  /** `associateCallWithCompany`: one request linking the call to the
      company with type 220; a failure is logged and not raised. */
  function AssociateCallWithCompany(crm: Service, s: Session, callId: string, companyId: string): (r: Session)
    ensures r.history == s.history + [LinkCall(callId, "companies", companyId, 220)]
    ensures crm.write(r.history).Ok? ==> r.log == s.log
    ensures crm.write(r.history).Err? ==> r.log == s.log + [LogEntry("associateCallWithCompany", crm.write(r.history).error)]
  {
    var h := s.history + [LinkCall(callId, "companies", companyId, 220)];
    match crm.write(h)
    case Err(e) => LogError(Session(h, s.log), "associateCallWithCompany", e)
    case Ok(_) => Session(h, s.log)
  }

  /** The CRM accepted a request linking the call to the contact. */
  predicate ContactLinked(crm: Service, h: seq<Request>, callId: string, contactId: string) {
    exists k :: 0 <= k < |h| && h[k] == LinkCall(callId, "contacts", contactId, 194) && crm.write(h[..k + 1]).Ok?
  }

  /** After the legacy create: the contact link, whose failure is raised,
      then the company link, whose failure is only logged. Only link
      requests are sent, and a contact link that returns succeeded. */
  function LegacyLinks(crm: Service, s: Session, callId: string, contact: Option<Contact>, company: Option<CompanyInfo>): (r: Step<Result<(), Failure>>)
    ensures Extends(s, r.session)
    ensures forall i :: |s.history| <= i < |r.session.history| ==> r.session.history[i].LinkCall?
    ensures r.out.Ok? && contact.Some? ==> ContactLinked(crm, r.session.history, callId, contact.value.id)
    ensures r.out.Err? ==> contact.Some? && LastLogged(r.session, "associateCall", r.out.error)
    ensures contact.None? && company.None? ==> r == Step(Ok(()), s)
    ensures var hc := if contact.Some? then s.history + [LinkCall(callId, "contacts", contact.value.id, 194)] else s.history;
            && (contact.Some? ==> (r.out.Ok? <==> crm.write(hc).Ok?))
            && (contact.None? ==> r.out.Ok?)
            && (r.out.Err? ==> r.session.history == hc && crm.write(hc) == Err(r.out.error))
            && (r.out.Ok? && company.Some? ==>
                  r.session.history == hc + [LinkCall(callId, "companies", company.value.companyId, 220)])
            && (r.out.Ok? && company.None? ==> r.session.history == hc)
  {
    var a := if contact.Some? then AssociateCall(crm, s, callId, contact.value.id) else Step(Ok(()), s);
    if a.out.Err? then a
    else
      var s2 := if company.Some? then AssociateCallWithCompany(crm, a.session, callId, company.value.companyId) else a.session;
      assert contact.Some? ==> ContactLinked(crm, s2.history, callId, contact.value.id) by {
        if contact.Some? {
          var k := |s.history|;
          assert s2.history[k] == LinkCall(callId, "contacts", contact.value.id, 194);
          assert s2.history[..k + 1] == a.session.history;
        }
      }
      Step(Ok(()), s2)
  }

  /** No request after `h` creates a call. */
  lemma LinkCallsCreateNothing(h: seq<Request>, h2: seq<Request>)
    requires h <= h2
    requires forall i :: |h| <= i < |h2| ==> h2[i].LinkCall?
    ensures Creates(h2) == Creates(h)
  {
    var n := h2[|h|..];
    assert h2 == h + n;
    assert forall i :: 0 <= i < |n| ==> n[i] == h2[|h| + i];
    CreatesNone(n);
    CreatesAppend(h, n);
  }

  /** The legacy revision's create and links: exactly one promised call
      is created, and a failure of either is logged under the method's
      name; a contact is linked to the call when both succeed. */
  function LegacyCreate(env: Env, s: Session, p: EngagementParams, contact: Option<Contact>,
                        company: Option<CompanyInfo>, props: CallProperties): (r: Step<Result<string, Failure>>)
    requires Promised(env.lib, p, props)
    ensures Extends(s, r.session)
    ensures r.out.Ok? ==> CreatedOnce(env.lib, p, Creates(s.history), r.session.history)
    ensures r.out.Ok? && contact.Some? ==> ContactLinked(env.crm, r.session.history, r.out.value, contact.value.id)
    ensures r.out.Err? ==> FailedWrite(env.lib, p, Creates(s.history), r.session, r.out.error)
    ensures var h1 := s.history + [CallCreate(props)];
            var a := env.crm.createCall(h1);
            && (a.Err? ==> r.out == Err(a.error))
            && (a.Ok? ==> var l := LegacyLinks(env.crm, Session(h1, s.log), a.value, contact, company);
                          r.out == if l.out.Ok? then Ok(a.value) else Err(l.out.error))
    ensures r.out.Ok? ==> LastCreated(env.crm, r.session.history) == Some(r.out.value)
    ensures AnswersWell(env.crm) ==> r.out.Ok?
  {
    var cc := CreateCall(env.crm, s, props);
    CreatedOnceOf(env.lib, p, Creates(s.history), cc.session.history, props);
    assert Extends(s, cc.session);
    match cc.out
    case Err(e) => Step(Err(e), LogError(cc.session, "createCallEngagement", e))
    case Ok(callId) =>
      var l := LegacyLinks(env.crm, cc.session, callId, contact, company);
      LinkCallsCreateNothing(cc.session.history, l.session.history);
      LastCreatedKept(env.crm, cc.session.history, l.session.history);
      ExtendsTrans(s, cc.session, l.session);
      CreatedOnceOf(env.lib, p, Creates(s.history), l.session.history, props);
      match l.out
      case Err(e) => Step(Err(e), LogError(l.session, "createCallEngagement", e))
      case Ok(_) => Step(Ok(callId), l.session)
  }

  /** The legacy revision once the contact and its company are known:
      create and links. The contact name is always reported (the dialled
      number when there is no contact), the contact and company are those
      given, and a reported contact was linked to the call. */
  function LegacyWriteFound(env: Env, s: Session, p: EngagementParams, contact: Option<Contact>,
                            company: Option<CompanyInfo>): (r: Step<Result<Engagement, Failure>>)
    ensures Extends(s, r.session)
    ensures r.out.Ok? ==> r.out.value.Created? && CreatedOnce(env.lib, p, Creates(s.history), r.session.history)
    ensures r.out.Ok? ==> r.out.value.contactName.Some?
                          && r.out.value.contactId == (if contact.Some? then Some(contact.value.id) else None)
                          && r.out.value.companyId == CompanyIdOf(company)
                          && (r.out.value.contactId.Some? ==>
                                ContactLinked(env.crm, r.session.history, r.out.value.callId, r.out.value.contactId.value))
    ensures r.out.Err? ==> FailedWrite(env.lib, p, Creates(s.history), r.session, r.out.error)
    ensures r.out.Ok? ==> LastCreated(env.crm, r.session.history) == Some(r.out.value.callId)
    ensures AnswersWell(env.crm) ==> r.out.Ok?
  {
    var shown := if contact.Some? then DisplayName(contact.value) else p.toNumber;
    var props := CallFor(env.lib, p, shown, LegacyNote(env, p, shown, company));
    var w := LegacyCreate(env, s, p, contact, company, props);
    match w.out
    case Err(e) => Step(Err(e), w.session)
    case Ok(callId) =>
      Step(Ok(Created(callId,
                      if contact.Some? then Some(contact.value.id) else None,
                      Some(shown),
                      CompanyIdOf(company),
                      if company.Some? then company.value.companyName else None)),
           w.session)
  }

  /** The legacy revision once the contact is known: company (a failed
      read aborts), create, links. Exactly one promised call is created
      when it succeeds, the contact name is always reported, and a reported
      contact was linked to the call. */
  function LegacyWrite(env: Env, s: Session, p: EngagementParams, contact: Option<Contact>): (r: Step<Result<Engagement, Failure>>)
    ensures Extends(s, r.session)
    ensures r.out.Ok? ==> r.out.value.Created? && CreatedOnce(env.lib, p, Creates(s.history), r.session.history)
    ensures r.out.Ok? ==> r.out.value.contactName.Some?
                          && r.out.value.contactId == (if contact.Some? then Some(contact.value.id) else None)
                          && (contact.None? ==> r.out.value.companyId.None?)
                          && (r.out.value.contactId.Some? ==>
                                ContactLinked(env.crm, r.session.history, r.out.value.callId, r.out.value.contactId.value))
    ensures r.out.Err? ==> FailedWrite(env.lib, p, Creates(s.history), r.session, r.out.error)
    ensures LegacyCompany(env.crm, s, contact).out.Err? ==> r.out == Err(LegacyCompany(env.crm, s, contact).out.error)
    ensures r.out.Ok? && contact.Some? && contact.value.companyIds != [] ==>
              r.out.value.companyId == Some(contact.value.companyIds[0])
    ensures r.out.Ok? ==> LastCreated(env.crm, r.session.history) == Some(r.out.value.callId)
    ensures AnswersWell(env.crm) ==> r.out.Ok?
  {
    var co := LegacyCompany(env.crm, s, contact);
    assert Extends(s, co.session);
    match co.out
    case Err(e) => Step(Err(e), LogError(co.session, "createCallEngagement", e))
    case Ok(company) =>
      var w := LegacyWriteFound(env, co.session, p, contact, company);
      ExtendsTrans(s, co.session, w.session);
      w
  }

  /** The legacy revision after the duplicate check: the contact, then
      the write; an error finding the contact is logged under the method's
      name as well. */
  function LegacyAfterCheck(env: Env, s: Session, p: EngagementParams): (r: Step<Result<Engagement, Failure>>)
    ensures Extends(s, r.session)
    ensures r.out.Ok? ==> r.out.value.Created? && CreatedOnce(env.lib, p, Creates(s.history), r.session.history)
    ensures r.out.Ok? ==> r.out.value.contactName.Some?
                          && (r.out.value.companyId.Some? ==> r.out.value.contactId.Some?)
                          && (r.out.value.contactId.Some? ==>
                                ContactLinked(env.crm, r.session.history, r.out.value.callId, r.out.value.contactId.value))
    ensures r.out.Err? ==> FailedWrite(env.lib, p, Creates(s.history), r.session, r.out.error)
    ensures var c := ResolveContact(env, s, p, false);
            && (c.out.Err? ==> r.out == Err(c.out.error))
            && (c.out.Ok? ==> r == LegacyWrite(env, c.session, p, c.out.value))
    ensures Truthy(p.contactId) ==>
              |r.session.history| > |s.history| && r.session.history[|s.history|] == ContactRead(p.contactId.value)
    ensures r.out.Ok? ==> LastCreated(env.crm, r.session.history) == Some(r.out.value.callId)
    ensures AnswersWell(env.crm) ==> r.out.Ok?
  {
    var c := ResolveContact(env, s, p, false);
    match c.out
    case Err(e) => Step(Err(e), LogError(c.session, "createCallEngagement", e))
    case Ok(contact) =>
      var w := LegacyWrite(env, c.session, p, contact);
      LegacyWriteAfter(env, s, c.session, p, contact);
      w
  }

  /** The legacy write's promises, stated from before the contact search. */
  lemma LegacyWriteAfter(env: Env, s: Session, s1: Session, p: EngagementParams, contact: Option<Contact>)
    requires Extends(s, s1) && Creates(s1.history) == Creates(s.history)
    ensures var r := LegacyWrite(env, s1, p, contact);
            && Extends(s, r.session)
            && (r.out.Ok? ==> r.out.value.Created? && CreatedOnce(env.lib, p, Creates(s.history), r.session.history))
            && (r.out.Ok? ==> r.out.value.contactName.Some?
                              && (r.out.value.companyId.Some? ==> r.out.value.contactId.Some?)
                              && (r.out.value.contactId.Some? ==>
                                    ContactLinked(env.crm, r.session.history, r.out.value.callId, r.out.value.contactId.value)))
            && (r.out.Err? ==> FailedWrite(env.lib, p, Creates(s.history), r.session, r.out.error))
  {
    var r := LegacyWrite(env, s1, p, contact);
    ExtendsTrans(s, s1, r.session);
  }

  /** `createCallEngagement` of the legacy revision. As in the client
      revision the duplicate check comes first and decides "duplicate"
      exactly when the CRM already has the UUID, and exactly one promised
      call is created otherwise; here the contact name is always reported
      (the dialled number when there is no contact), a failed company read
      aborts the write, and a reported contact is linked to the call. */
  function CreateEngagementLegacy(env: Env, s: Session, p: EngagementParams): (r: Step<Result<Engagement, Failure>>)
    ensures Extends(s, r.session)
    ensures |r.session.history| > |s.history| && r.session.history[|s.history|] == CallSearch(p.callUuid)
    ensures r.out == Ok(Duplicate) <==> AlreadySynced(env.crm, s.history, p.callUuid)
    ensures r.out == Ok(Duplicate) ==> r.session.history == s.history + [CallSearch(p.callUuid)]
    ensures r.out.Ok? && r.out.value.Created? ==>
              CreatedOnce(env.lib, p, Creates(s.history), r.session.history)
              && r.out.value.contactName.Some?
              && (r.out.value.companyId.Some? ==> r.out.value.contactId.Some?)
              && (r.out.value.contactId.Some? ==>
                    ContactLinked(env.crm, r.session.history, r.out.value.callId, r.out.value.contactId.value))
              && LastCreated(env.crm, r.session.history) == Some(r.out.value.callId)
    ensures r.out.Err? ==> FailedWrite(env.lib, p, Creates(s.history), r.session, r.out.error)
    ensures !AlreadySynced(env.crm, s.history, p.callUuid) ==>
              r == LegacyAfterCheck(env, FindCallByUuid(env.crm, s, p.callUuid).session, p)
    ensures !AlreadySynced(env.crm, s.history, p.callUuid) && Truthy(p.contactId) ==>
              |r.session.history| > |s.history| + 1 && r.session.history[|s.history| + 1] == ContactRead(p.contactId.value)
    ensures !AlreadySynced(env.crm, s.history, p.callUuid) && AnswersWell(env.crm) ==>
              r.out.Ok? && r.out.value.Created?
  {
    var dup := FindCallByUuid(env.crm, s, p.callUuid);
    if dup.out then Step(Ok(Duplicate), dup.session)
    else
      var r := LegacyAfterCheck(env, dup.session, p);
      AfterDuplicateCheck(s, dup.session, r.session, p.callUuid);
      r
  }

  /** A legacy write for a contact id the caller fills in keeps the
      promises of the parameters without it: nothing is created for a
      duplicate, one promised call for a success, and nothing or that one
      call for a failure. */
  lemma LegacyWriteFor(env: Env, s: Session, p: EngagementParams, id: Option<string>)
    ensures var c := CreateEngagementLegacy(env, s, p.(contactId := id));
            var before := Creates(s.history);
            && Extends(s, c.session)
            && (c.out == Ok(Duplicate) ==> Creates(c.session.history) == before)
            && (c.out.Ok? && c.out.value.Created? ==> CreatedOnce(env.lib, p, before, c.session.history))
            && (c.out.Err? ==> Creates(c.session.history) == before || CreatedOnce(env.lib, p, before, c.session.history))
  {
    var q := p.(contactId := id);
    var c := CreateEngagementLegacy(env, s, q);
    var before := Creates(s.history);
    if CreatedOnce(env.lib, q, before, c.session.history) {
      CreatedOnceAnyContact(env.lib, p, id, before, c.session.history);
    }
    if c.out == Ok(Duplicate) {
      CreatesSnoc(s.history, CallSearch(q.callUuid));
    }
  }

  // ---------------------------------------------------------------------
  // Updating a note

  /** `updateCallNotes`: search the calls for the UUID, then replace the
      body of the first one. True exactly when the patch was sent and
      accepted; nothing is raised: an empty search is a plain false, every
      error is logged under the method's name and reads as false. */
  function UpdateCallNotes(crm: Service, s: Session, uuid: string, notes: string): (r: Step<bool>)
    ensures Extends(s, r.session)
    ensures Creates(r.session.history) == Creates(s.history)
    ensures r.out <==>
              var a := crm.searchCalls(s.history + [CallSearch(Some(uuid))]);
              && a.Ok? && a.value.total != 0 && |a.value.results| > 0
              && r.session.history == s.history + [CallSearch(Some(uuid)), CallPatch(a.value.results[0], notes)]
              && crm.write(r.session.history).Ok?
    ensures r.out ==> r.session.log == s.log
    ensures !r.out ==> r.session.log == s.log || (|r.session.log| == |s.log| + 1 && LastLogged(r.session, "updateCallNotes", r.session.log[|s.log|].error))
    ensures var h := s.history + [CallSearch(Some(uuid))];
            var a := crm.searchCalls(h);
            && (a.Err? ==> r == Step(false, Session(h, s.log + [LogEntry("updateCallNotes", a.error)])))
            && (a.Ok? && a.value.total == 0 ==> r == Step(false, Session(h, s.log)))
            && (a.Ok? && a.value.total != 0 && |a.value.results| == 0 ==>
                  r == Step(false, Session(h, s.log + [LogEntry("updateCallNotes", MissingResult)])))
            && (a.Ok? && a.value.total != 0 && |a.value.results| > 0 ==>
                  var h2 := h + [CallPatch(a.value.results[0], notes)];
                  crm.write(h2).Err? ==>
                    r == Step(false, Session(h2, s.log + [LogEntry("updateCallNotes", crm.write(h2).error)])))
  {
    var h := s.history + [CallSearch(Some(uuid))];
    CreatesSnoc(s.history, CallSearch(Some(uuid)));
    match crm.searchCalls(h)
    case Err(e) => Step(false, LogError(Session(h, s.log), "updateCallNotes", e))
    case Ok(page) =>
      if page.total == 0 then Step(false, Session(h, s.log))
      else if |page.results| == 0 then Step(false, LogError(Session(h, s.log), "updateCallNotes", MissingResult))
      else
        var h2 := h + [CallPatch(page.results[0], notes)];
        CreatesSnoc(h, CallPatch(page.results[0], notes));
        match crm.write(h2)
        case Err(e) => Step(false, LogError(Session(h2, s.log), "updateCallNotes", e))
        case Ok(_) => Step(true, Session(h2, s.log))
  }
}
