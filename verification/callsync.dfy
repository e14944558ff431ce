/** The single-call synchronization (`syncCallToHubspot` in
    src/call-sync.ts): find the contact for the destination number, fetch
    the recording URL with a new recording client, and write the call
    through the legacy writer with a note of its details. */
module CallSync {
  import opened Base
  import opened Text
  import opened Crm
  import opened Lookup
  import opened Writer
  import opened Recording
  import opened Sync

  /** The call as the caller describes it (the API keys are left out). */
  datatype CallParams = CallParams(
    callUuid: string,
    callerNumber: string,
    destinationNumber: string,
    startTime: string,
    duration: string,
    status: string,
    recordingPresent: bool)

  /** What the function depends on besides its arguments: the writer's
      environment, the recording service's answers, the
      `MAX_REQUESTS_PER_MINUTE` setting, and `new Date(startTime).getTime()`. */
  datatype CallSyncEnv = CallSyncEnv(
    writer: Env,
    recording: seq<string> -> Answer,
    maxSetting: Option<string>,
    parseStamp: string -> int)

  /** How a run ends: raised or not, with the CRM requests and recording
      requests sent by then. */
  datatype CallRun = CallRun(out: Result<(), Failure>, history: seq<Request>, sent: seq<string>)

  /** The note passed as the call's body: an indented list of the UUID,
      the raw duration, the status and "Var"/"Yok" for the recording. */
  function CallSyncNote(p: CallParams): (r: string)
    ensures Contains(r, "        - UUID: " + p.callUuid + "\n")
    ensures Contains(r, "        - Süre: " + p.duration + "\n")
    ensures Contains(r, "        - Sonuç: " + p.status + "\n")
    ensures Contains(r, "        - Ses Kaydı: " + (if p.recordingPresent then "Var" else "Yok") + "\n")
    ensures r != ""
  {
    var ls := [
      "\n        Çağrı Detayları:\n",
      "        - UUID: " + p.callUuid + "\n",
      "        - Süre: " + p.duration + "\n",
      "        - Sonuç: " + p.status + "\n",
      "        - Ses Kaydı: " + (if p.recordingPresent then "Var" else "Yok") + "\n",
      "      "];
    ConcatContains(ls, 1);
    ConcatContains(ls, 2);
    ConcatContains(ls, 3);
    ConcatContains(ls, 4);
    ConcatEndsWith(ls);
    Concat(ls)
  }

  /** Step 2: with a recording, one request through a new recording
      client; the URL is kept when the response succeeds with a non-empty
      one, and is "" otherwise. A new client is never rate-limited, so the
      request is always sent. */
  function RecordingUrlFor(env: CallSyncEnv, sent: seq<string>, now: int, p: CallParams): (r: (string, seq<string>))
    ensures !p.recordingPresent ==> r == ("", sent)
    ensures p.recordingPresent ==>
              r.1 == sent + [p.callUuid]
              && r.0 == (match env.recording(r.1) case Data(u) => u case _ => "")
  {
    if !p.recordingPresent then ("", sent)
    else
      var max := MaxRequests(env.maxSetting);
      FreshClientAllows(now, max);
      var f := GetRecordingUrl(RecordingClient(FreshLimiter, sent), env.recording, now, max, p.callUuid);
      (if f.response.success && Truthy(f.response.url) then f.response.url.value else "", f.client.sent)
  }

  /** What step 4 passes to the writer, before the contact's id is filled
      in: the raw numbers, the duration in seconds, the found URL, no call
      UUID, and the note. */
  function CallSyncParams(env: CallSyncEnv, p: CallParams, url: string): (q: EngagementParams)
    ensures q.callUuid.None? && q.notes == Some(CallSyncNote(p)) && Truthy(q.notes)
    ensures q.fromNumber == p.callerNumber && q.toNumber == p.destinationNumber
    ensures q.recordingUrl == url && q.callDuration == DurationSeconds(p.duration)
  {
    EngagementParams(
      None,
      p.callerNumber,
      p.destinationNumber,
      DurationSeconds(p.duration),
      url,
      p.status,
      env.parseStamp(p.startTime),
      None,
      Some(CallSyncNote(p)))
  }

  /** The call was written: exactly one call was created, carrying what
      the parameters promise for the URL the recording step found. */
  ghost predicate WroteCall(env: CallSyncEnv, p: CallParams, url: string, before: seq<CallProperties>, h: seq<Request>) {
    CreatedOnce(env.writer.lib, CallSyncParams(env, p, url), before, h)
  }

  /** Steps 2 to 4, once a contact is found. The writer's duplicate check
      searches for the UUID `undefined`, since no UUID is passed; a
      "duplicate" answer is not an error here. The CRM requests are the
      legacy writer's for the contact's id, and only its errors are raised;
      past the duplicate check, the contact is read by its id and an Ok run
      wrote the call. */
  function WriteCall(env: CallSyncEnv, s: Session, sent: seq<string>, now: int, p: CallParams, contact: Contact): (r: CallRun)
    ensures s.history <= r.history
    ensures |r.history| > |s.history| && r.history[|s.history|] == CallSearch(None)
    ensures r.sent == RecordingUrlFor(env, sent, now, p).1
    ensures AlreadySynced(env.writer.crm, s.history, None) ==>
              r.out.Ok? && r.history == s.history + [CallSearch(None)]
    ensures Creates(r.history) == Creates(s.history)
            || WroteCall(env, p, RecordingUrlFor(env, sent, now, p).0, Creates(s.history), r.history)
    ensures var q := CallSyncParams(env, p, RecordingUrlFor(env, sent, now, p).0);
            var c := CreateEngagementLegacy(env.writer, s, q.(contactId := Some(contact.id)));
            && r.history == c.session.history
            && (r.out.Err? <==> c.out.Err?)
            && (c.out.Err? ==> r.out.error == c.out.error)
    ensures !AlreadySynced(env.writer.crm, s.history, None) && r.out.Ok? ==>
              WroteCall(env, p, RecordingUrlFor(env, sent, now, p).0, Creates(s.history), r.history)
    ensures !AlreadySynced(env.writer.crm, s.history, None) && contact.id != "" ==>
              |r.history| > |s.history| + 1 && r.history[|s.history| + 1] == ContactRead(contact.id)
    ensures !AlreadySynced(env.writer.crm, s.history, None) && AnswersWell(env.writer.crm) ==> r.out.Ok?
  {
    var (url, sent2) := RecordingUrlFor(env, sent, now, p);
    var q := CallSyncParams(env, p, url);
    var c := CreateEngagementLegacy(env.writer, s, q.(contactId := Some(contact.id)));
    LegacyWriteFor(env.writer, s, q, Some(contact.id));
    CallRun(if c.out.Err? then Err(c.out.error) else Ok(()), c.session.history, sent2)
  }

  /** `syncCallToHubspot` with a new CRM client (an empty error log) over
      the CRM requests `h` and the recording requests `sent`. Without a
      contact (or when the contact search fails) nothing but searches is
      sent and no recording is asked for; otherwise at most the one call
      is created, carrying the promised properties. */
  function SyncCallToHubspot(env: CallSyncEnv, h: seq<Request>, sent: seq<string>, now: int, p: CallParams): (r: CallRun)
    ensures h <= r.history
    ensures !p.recordingPresent ==> r.sent == sent
    ensures var f := FindContactByPhone(env.writer.lib, env.writer.crm, Session(h, []), p.destinationNumber, false);
            && (f.out.Err? ==> r == CallRun(Err(f.out.error), f.session.history, sent))
            && (f.out == Ok(None) ==> r == CallRun(Ok(()), f.session.history, sent))
            && (f.out.Ok? && f.out.value.Some? ==>
                  && r.sent == RecordingUrlFor(env, sent, now, p).1
                  && |r.history| > |f.session.history|
                  && r.history[|f.session.history|] == CallSearch(None))
    ensures Creates(r.history) == Creates(h)
            || WroteCall(env, p, RecordingUrlFor(env, sent, now, p).0, Creates(h), r.history)
    ensures var f := FindContactByPhone(env.writer.lib, env.writer.crm, Session(h, []), p.destinationNumber, false);
            f.out.Ok? && f.out.value.Some? ==> r == WriteCall(env, f.session, sent, now, p, f.out.value.value)
    ensures AnswersWell(env.writer.crm) ==> r.out.Ok?
    ensures var f := FindContactByPhone(env.writer.lib, env.writer.crm, Session(h, []), p.destinationNumber, false);
            (AnswersWell(env.writer.crm) && f.out.Ok? && f.out.value.Some?
             && !AlreadySynced(env.writer.crm, f.session.history, None)) ==>
              WroteCall(env, p, RecordingUrlFor(env, sent, now, p).0, Creates(h), r.history)
  {
    var s := Session(h, []);
    var f := FindContactByPhone(env.writer.lib, env.writer.crm, s, p.destinationNumber, false);
    SearchesCreateNothing(s, f.session, false);
    match f.out
    case Err(e) => CallRun(Err(e), f.session.history, sent)
    case Ok(None) => CallRun(Ok(()), f.session.history, sent)
    case Ok(Some(contact)) => WriteCall(env, f.session, sent, now, p, contact)
  }
}
