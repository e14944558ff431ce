/** The batch synchronization job (`SantralHubspotSync` in
    src/santral-sync.ts): a fold over the call records fetched from the
    telephony provider, writing each one into the CRM through the legacy
    writer and keeping running statistics. */
module Sync {
  import opened Base
  import opened Text
  import opened Crm
  import opened Phone
  import opened Lookup
  import opened Writer

  /** One call record as the provider reports it. */
  datatype CallRecord = CallRecord(
    callUuid: string,
    callerIdNumber: string,
    destinationNumber: string,
    startStamp: string,
    duration: string,
    result: string,
    recordingPresent: string,
    queue: Option<string>,
    queueWaitSeconds: Option<string>)

  /** The provider's answer to the record fetch. */
  datatype Fetched = Fetched(success: bool, data: Option<seq<CallRecord>>, error: Option<string>)

  /** One entry of the statistics' error list. */
  datatype SyncError = SyncError(callUuid: string, number: string, error: string, timestamp: string)

  datatype SyncStats = SyncStats(total: int, processed: nat, success: nat, failed: nat, skipped: nat, errors: seq<SyncError>)

  /** The statistics a fresh job starts with (`resetStats`). */
  const InitialStats := SyncStats(0, 0, 0, 0, 0, [])

  /** Every processed record is counted exactly once as a success, a skip
      or a failure, and every failure has its error entry. */
  predicate Balanced(st: SyncStats) {
    st.success + st.skipped + st.failed == st.processed && |st.errors| == st.failed
  }

  /** What the job depends on besides its arguments: the writer's
      environment, `new Date(start_stamp).getTime()`, and the ISO time
      the clock shows after a given history of requests. */
  datatype SyncEnv = SyncEnv(writer: Env, parseStamp: string -> int, now: seq<Request> -> string)

  // ---------------------------------------------------------------------
  // Durations

  /** `[h, m, s] = fields.map(Number)` then `h * 3600 + m * 60 + s`: a
      missing or non-numeric field makes the sum NaN (None). */
  function FieldsSeconds(f: seq<string>): (r: Option<int>)
    ensures r.Some? ==> |f| >= 3 && r.value >= 0
  {
    var h := if |f| > 0 then NumberOf(f[0]) else None;
    var m := if |f| > 1 then NumberOf(f[1]) else None;
    var s := if |f| > 2 then NumberOf(f[2]) else None;
    if h.Some? && m.Some? && s.Some? then Some(h.value * 3600 + m.value * 60 + s.value) else None
  }

  /** The duration text of a record in seconds: its ':'-separated fields
      read as hours, minutes and seconds. */
  function DurationSeconds(d: string): (r: Option<int>)
    ensures r.Some? ==> |SplitOn(d, ':')| >= 3 && r.value >= 0
  {
    FieldsSeconds(SplitOn(d, ':'))
  }

  /** The sum read off three digit fields. */
  lemma DigitFieldsSeconds(h: string, m: string, s: string)
    requires AllDigits(h) && AllDigits(m) && AllDigits(s)
    ensures var r := FieldsSeconds([h, m, s]);
            r.Some? && r.value == DecimalValue(h) * 3600 + DecimalValue(m) * 60 + DecimalValue(s)
  {
  }

  lemma JoinThree(h: string, m: string, s: string)
    ensures Join([h, m, s], ':') == h + ":" + m + ":" + s
  {
    assert [h, m, s][1..] == [m, s];
    assert [m, s][1..] == [s];
    assert Join([m, s], ':') == m + ":" + s;
  }

  lemma DigitsHaveNoColon(s: string)
    requires AllDigits(s)
    ensures ':' !in s
  {
  }

  /** Three digit fields "h:m:s" read as `h * 3600 + m * 60 + s`. */
  lemma DurationOfFields(h: string, m: string, s: string)
    requires AllDigits(h) && AllDigits(m) && AllDigits(s)
    ensures var r := DurationSeconds(h + ":" + m + ":" + s);
            r.Some? && r.value == DecimalValue(h) * 3600 + DecimalValue(m) * 60 + DecimalValue(s)
  {
    DigitsHaveNoColon(h);
    DigitsHaveNoColon(m);
    DigitsHaveNoColon(s);
    var fields := [h, m, s];
    assert forall i :: 0 <= i < |fields| ==> ':' !in fields[i];
    JoinThree(h, m, s);
    SplitJoin(fields, ':');
    DigitFieldsSeconds(h, m, s);
  }

  /** The clock text "h:m:s" written from numbers of hours, minutes and
      seconds reads back as the seconds they add up to. */
  lemma DurationRoundTrip(h: nat, m: nat, s: nat)
    ensures var r := DurationSeconds(NatToDecimal(h) + ":" + NatToDecimal(m) + ":" + NatToDecimal(s));
            r.Some? && r.value == h * 3600 + m * 60 + s
  {
    DurationOfFields(NatToDecimal(h), NatToDecimal(m), NatToDecimal(s));
  }

  lemma PaddedDecimals()
    ensures DecimalValue("00") == 0 && DecimalValue("02") == 2
  {
    assert "00"[..1] == "0";
    assert "02"[..1] == "0";
  }

  /** "00:02:02" is 122 seconds. */
  lemma DurationExample()
    ensures var r := DurationSeconds("00" + ":" + "02" + ":" + "02");
            r.Some? && r.value == 122
  {
    PaddedDecimals();
    DurationOfFields("00", "02", "02");
  }

  /** A text with fewer than three fields is NaN. */
  lemma DurationNeedsThreeFields(d: string)
    requires |SplitOn(d, ':')| < 3
    ensures DurationSeconds(d).None?
  {
  }

  // ---------------------------------------------------------------------
  // One record

  /** The note the job writes as the call's body: it names the UUID, the
      start, the raw duration, the status, the queue ("Yok" without one),
      the wait ("0" without one) and whether a recording exists. */
  function SantralNote(rec: CallRecord): (r: string)
    ensures Contains(r, UuidLine(Some(rec.callUuid)))
    ensures Contains(r, "• Kuyruk: " + OrElse(rec.queue, "Yok") + "\n")
    ensures Contains(r, "• Bekleme Süresi: " + OrElse(rec.queueWaitSeconds, "0") + " saniye\n")
    ensures EndsWith(r, if rec.recordingPresent == "true" then "• Ses Kaydı Mevcut" else "• Ses Kaydı Yok")
  {
    var ls := [
      "Santral Çağrı Kaydı\n\nDETAYLAR\n--------\n",
      UuidLine(Some(rec.callUuid)),
      "• Başlangıç: " + rec.startStamp + "\n• Süre: " + rec.duration + "\n• Durum: " + rec.result + "\n",
      "• Kuyruk: " + OrElse(rec.queue, "Yok") + "\n",
      "• Bekleme Süresi: " + OrElse(rec.queueWaitSeconds, "0") + " saniye\n",
      if rec.recordingPresent == "true" then "• Ses Kaydı Mevcut" else "• Ses Kaydı Yok"];
    ConcatContains(ls, 1);
    ConcatContains(ls, 3);
    ConcatContains(ls, 4);
    ConcatEndsWith(ls);
    Concat(ls)
  }

  const RecordingBase := "https://api.bulutsantralim.com/recording/"

  /** What `processCall` passes to the writer for a record, before the
      found contact's id is filled in: numbers up to the first space, the
      duration in seconds, a recording URL exactly when `recording_present`
      is "true", the record's UUID and its note. */
  function RecordParams(env: SyncEnv, rec: CallRecord): (p: EngagementParams)
    ensures p.recordingUrl != "" <==> rec.recordingPresent == "true"
    ensures Truthy(p.notes) && p.callUuid == Some(rec.callUuid)
    ensures ' ' !in p.toNumber && StartsWith(rec.destinationNumber, p.toNumber)
    ensures ' ' !in p.fromNumber && StartsWith(rec.callerIdNumber, p.fromNumber)
  {
    EngagementParams(
      None,
      FirstField(rec.callerIdNumber),
      FirstField(rec.destinationNumber),
      DurationSeconds(rec.duration),
      if rec.recordingPresent == "true" then RecordingBase + rec.callUuid else "",
      rec.result,
      env.parseStamp(rec.startStamp),
      Some(rec.callUuid),
      Some(SantralNote(rec)))
  }

  /** How one record ends. */
  datatype Outcome = Succeeded | Skipped | FailedWith(error: Failure)

  /** The text of the error `processCall` raises for a writer result
      without success. */
  const DuplicateRejected := Failure("Çağrı kaydı oluşturulamadı: duplicate")

  /** The record's call was written: exactly one call was created, and it
      carries what the record's parameters promise. */
  ghost predicate WroteRecord(env: SyncEnv, rec: CallRecord, before: seq<CallProperties>, h: seq<Request>) {
    CreatedOnce(env.writer.lib, RecordParams(env, rec), before, h)
  }

  /** How `processCall` judges the writer's answer: a created call is a
      success, "duplicate" is the failure `DuplicateRejected`, and an
      error is the record's failure. */
  function Verdict(w: Result<Engagement, Failure>): (o: Outcome)
    ensures o == Succeeded <==> w.Ok? && w.value.Created?
    ensures w == Ok(Duplicate) ==> o == FailedWith(DuplicateRejected)
    ensures w.Err? ==> o == FailedWith(w.error)
    ensures o != Skipped
  {
    match w
    case Err(e) => FailedWith(e)
    case Ok(Duplicate) => FailedWith(DuplicateRejected)
    case Ok(Created(_, _, _, _, _)) => Succeeded
  }

  /** The write once the check found nothing: the legacy writer, given the
      found contact's id, and its answer judged. A success wrote the
      record's call, and against a CRM in good order that does not have
      the UUID the write succeeds. */
  function WriteChecked(env: SyncEnv, s: Session, rec: CallRecord, contact: Contact): (r: Step<Outcome>)
    ensures var c := CreateEngagementLegacy(env.writer, s, RecordParams(env, rec).(contactId := Some(contact.id)));
            r == Step(Verdict(c.out), c.session)
    ensures Extends(s, r.session) && r.out != Skipped
    ensures r.out == Succeeded ==> WroteRecord(env, rec, Creates(s.history), r.session.history)
    ensures r.out.FailedWith? ==> Creates(r.session.history) == Creates(s.history)
                                  || WroteRecord(env, rec, Creates(s.history), r.session.history)
    ensures AnswersWell(env.writer.crm) && !AlreadySynced(env.writer.crm, s.history, Some(rec.callUuid)) ==>
              r.out == Succeeded
  {
    var p := RecordParams(env, rec);
    var c := CreateEngagementLegacy(env.writer, s, p.(contactId := Some(contact.id)));
    LegacyWriteFor(env.writer, s, p, Some(contact.id));
    Step(Verdict(c.out), c.session)
  }

  /** The part of the loop body after a contact was found: check for the
      UUID (found: skip), then write; a writer answering "duplicate" is a
      failure. */
  function WriteRecord(env: SyncEnv, s: Session, rec: CallRecord, contact: Contact): (r: Step<Outcome>)
    ensures Extends(s, r.session)
    ensures r.out == Succeeded ==> WroteRecord(env, rec, Creates(s.history), r.session.history)
    ensures r.out == Skipped ==> Creates(r.session.history) == Creates(s.history)
    ensures r.out.FailedWith? ==> Creates(r.session.history) == Creates(s.history)
                                  || WroteRecord(env, rec, Creates(s.history), r.session.history)
    ensures r.out == Skipped <==> AlreadySynced(env.writer.crm, s.history, Some(rec.callUuid))
    ensures r.out == Skipped ==> r.session.history == s.history + [CallSearch(Some(rec.callUuid))]
    ensures !AlreadySynced(env.writer.crm, s.history, Some(rec.callUuid)) ==>
              r == WriteChecked(env, FindCallByUuid(env.writer.crm, s, Some(rec.callUuid)).session, rec, contact)
  {
    var d := FindCallByUuid(env.writer.crm, s, Some(rec.callUuid));
    CreatesSnoc(s.history, CallSearch(Some(rec.callUuid)));
    if d.out then Step(Skipped, d.session)
    else
      var r := WriteChecked(env, d.session, rec, contact);
      ExtendsTrans(s, d.session, r.session);
      r
  }

  /** How the write after the check ends: the legacy writer's answer
      decides it (created: success; duplicate: the duplicate failure; an
      error: that error), and against a CRM in good order that has the
      UUID neither at the check nor at the writer's own check, it
      succeeds. */
  lemma WriteRecordOutcome(env: SyncEnv, s: Session, rec: CallRecord, contact: Contact)
    ensures var r := WriteRecord(env, s, rec, contact);
            var d := FindCallByUuid(env.writer.crm, s, Some(rec.callUuid));
            var c := CreateEngagementLegacy(env.writer, d.session, RecordParams(env, rec).(contactId := Some(contact.id)));
            && (!d.out && c.out == Ok(Duplicate) ==> r == Step(FailedWith(DuplicateRejected), c.session))
            && (!d.out && c.out.Ok? && c.out.value.Created? ==> r == Step(Succeeded, c.session))
            && (!d.out && c.out.Err? ==> r == Step(FailedWith(c.out.error), c.session))
    ensures var u := Some(rec.callUuid);
            (AnswersWell(env.writer.crm) && !AlreadySynced(env.writer.crm, s.history, u)
             && !AlreadySynced(env.writer.crm, s.history + [CallSearch(u)], u)) ==>
              WriteRecord(env, s, rec, contact).out == Succeeded
  {
  }

  /** The body of the loop for one record: find the contact by the
      destination number (none: skip), then check and write. A success
      created exactly one call, whose body is the record's note; a skip
      created none; a failure at most one. */
  function ProcessRecord(env: SyncEnv, s: Session, rec: CallRecord): (r: Step<Outcome>)
    ensures Extends(s, r.session)
    ensures r.out == Succeeded ==> WroteRecord(env, rec, Creates(s.history), r.session.history)
    ensures r.out == Skipped ==> Creates(r.session.history) == Creates(s.history)
    ensures r.out.FailedWith? ==> Creates(r.session.history) == Creates(s.history)
                                  || WroteRecord(env, rec, Creates(s.history), r.session.history)
    ensures var f := FindContactByPhone(env.writer.lib, env.writer.crm, s, FirstField(rec.destinationNumber), false);
            && (f.out == Ok(None) ==> r == Step(Skipped, f.session))
            && (f.out.Err? ==> r == Step(FailedWith(f.out.error), f.session))
            && (r.out == Skipped <==> f.out == Ok(None) || (f.out.Ok? && f.out.value.Some?
                                       && AlreadySynced(env.writer.crm, f.session.history, Some(rec.callUuid))))
            && (f.out.Ok? && f.out.value.Some? ==> r == WriteRecord(env, f.session, rec, f.out.value.value))
    ensures var f := FindContactByPhone(env.writer.lib, env.writer.crm, s, FirstField(rec.destinationNumber), false);
            var u := Some(rec.callUuid);
            (AnswersWell(env.writer.crm) && f.out != Ok(None) && !AlreadySynced(env.writer.crm, f.session.history, u)
             && !AlreadySynced(env.writer.crm, f.session.history + [CallSearch(u)], u)) ==> r.out == Succeeded
  {
    var w := env.writer;
    var f := FindContactByPhone(w.lib, w.crm, s, FirstField(rec.destinationNumber), false);
    SearchesCreateNothing(s, f.session, false);
    match f.out
    case Err(e) => Step(FailedWith(e), f.session)
    case Ok(None) => Step(Skipped, f.session)
    case Ok(Some(contact)) =>
      var r := WriteRecord(env, f.session, rec, contact);
      WriteRecordOutcome(env, f.session, rec, contact);
      ExtendsTrans(s, f.session, r.session);
      r
  }

  /** A record whose destination number does not normalize is skipped
      before any request is sent. */
  lemma UnnormalizableSkipped(env: SyncEnv, s: Session, rec: CallRecord)
    requires !Truthy(Normalize(env.writer.lib, FirstField(rec.destinationNumber)))
    ensures ProcessRecord(env, s, rec) == Step(Skipped, s)
  {
  }

  /** `handleCallProcessError`: one more failure and its entry, naming the
      record's UUID and its raw destination number. */
  function CountFailure(st: SyncStats, rec: CallRecord, e: Failure, time: string): (r: SyncStats)
    ensures r.failed == st.failed + 1 && r.errors == st.errors + [SyncError(rec.callUuid, rec.destinationNumber, e.message, time)]
    ensures (r.total, r.processed, r.success, r.skipped) == (st.total, st.processed, st.success, st.skipped)
  {
    st.(failed := st.failed + 1, errors := st.errors + [SyncError(rec.callUuid, rec.destinationNumber, e.message, time)])
  }

  /** The statistics after one record: `processed` and exactly one of the
      three counters grow by one. */
  function Tally(st: SyncStats, out: Outcome, rec: CallRecord, time: string): (r: SyncStats)
    ensures r.processed == st.processed + 1
    ensures r.success + r.skipped + r.failed == st.success + st.skipped + st.failed + 1
    ensures r.total == st.total
    ensures Balanced(st) ==> Balanced(r)
    ensures |r.errors| >= |st.errors| && r.errors[..|st.errors|] == st.errors
    ensures out == Succeeded <==> r.success == st.success + 1
    ensures out == Skipped <==> r.skipped == st.skipped + 1
    ensures out.FailedWith? <==> r.failed == st.failed + 1
    ensures out.FailedWith? ==> r.errors == st.errors + [SyncError(rec.callUuid, rec.destinationNumber, out.error.message, time)]
    ensures !out.FailedWith? ==> r.errors == st.errors
  {
    var counted := st.(processed := st.processed + 1);
    match out
    case Succeeded => counted.(success := counted.success + 1)
    case Skipped => counted.(skipped := counted.skipped + 1)
    case FailedWith(e) => CountFailure(counted, rec, e, time)
  }

  // ---------------------------------------------------------------------
  // The job

  /** The error raised when the fetch fails. */
  function FetchError(fetched: Fetched): Failure {
    Failure("Santral API hatası: " + TemplateText(fetched.error))
  }

  /** One turn of the loop: the record's `ProcessRecord`, then its tally
      at the time of its last request. `processed` and one counter grow by
      one, an error entry only for a failure, and the calls created are
      one for a success, none for a skip, at most one for a failure. */
  function Turn(env: SyncEnv, s: Session, st: SyncStats, rec: CallRecord): (t: (SyncStats, Session))
    ensures var step := ProcessRecord(env, s, rec);
            t == (Tally(st, step.out, rec, env.now(step.session.history)), step.session)
    ensures Extends(s, t.1)
    ensures t.0.total == st.total && t.0.processed == st.processed + 1
    ensures t.0.success + t.0.skipped + t.0.failed == st.success + st.skipped + st.failed + 1
    ensures t.0.success >= st.success && t.0.skipped >= st.skipped && t.0.failed >= st.failed
    ensures st.errors <= t.0.errors && |t.0.errors| == |st.errors| + (t.0.failed - st.failed)
    ensures |Creates(s.history)| + (t.0.success - st.success) <= |Creates(t.1.history)|
            <= |Creates(s.history)| + (t.0.success - st.success) + (t.0.failed - st.failed)
    ensures Balanced(st) ==> Balanced(t.0)
  {
    var step := ProcessRecord(env, s, rec);
    (Tally(st, step.out, rec, env.now(step.session.history)), step.session)
  }

  /** The records processed in turn from session `s` and statistics `st`:
      each one by `ProcessRecord`, then tallied at the time of its last
      request. The result is the statistics and the session at the end:
      the counters grow by exactly the number of records, only failures
      add error entries, and the calls created are at least one per
      success and at most one per success or failure. */
  function RunRecords(env: SyncEnv, s: Session, st: SyncStats, cdrs: seq<CallRecord>): (r: (SyncStats, Session))
    ensures Extends(s, r.1)
    ensures r.0.total == st.total && r.0.processed == st.processed + |cdrs|
    ensures r.0.success + r.0.skipped + r.0.failed == st.success + st.skipped + st.failed + |cdrs|
    ensures r.0.success >= st.success && r.0.skipped >= st.skipped && r.0.failed >= st.failed
    ensures st.errors <= r.0.errors && |r.0.errors| == |st.errors| + (r.0.failed - st.failed)
    ensures |Creates(s.history)| + (r.0.success - st.success) <= |Creates(r.1.history)|
            <= |Creates(s.history)| + (r.0.success - st.success) + (r.0.failed - st.failed)
    ensures Balanced(st) ==> Balanced(r.0)
    decreases |cdrs|
  {
    if cdrs == [] then (st, s)
    else
      var t := Turn(env, s, st, cdrs[0]);
      var r := RunRecords(env, t.1, t.0, cdrs[1..]);
      ExtendsTrans(s, t.1, r.1);
      r
  }

  /** One record is `ProcessRecord` followed by its tally. */
  lemma RunRecordsOne(env: SyncEnv, s: Session, st: SyncStats, rec: CallRecord)
    ensures var step := ProcessRecord(env, s, rec);
            RunRecords(env, s, st, [rec]) == (Tally(st, step.out, rec, env.now(step.session.history)), step.session)
  {
    assert [rec][1..] == [];
  }

  /** The run from record `i` on is record `i`'s turn followed by the run
      from record `i + 1` on. */
  lemma RunRecordsFrom(env: SyncEnv, s: Session, st: SyncStats, cdrs: seq<CallRecord>, i: nat)
    requires i < |cdrs|
    ensures var step := ProcessRecord(env, s, cdrs[i]);
            RunRecords(env, s, st, cdrs[i..])
            == RunRecords(env, step.session, Tally(st, step.out, cdrs[i], env.now(step.session.history)), cdrs[i + 1..])
  {
    assert cdrs[i..][0] == cdrs[i] && cdrs[i..][1..] == cdrs[i + 1..];
  }

  /** Processing `a + b` is processing `a`, then `b` from where `a` ended. */
  lemma {:induction false} RunRecordsAppend(env: SyncEnv, s: Session, st: SyncStats, a: seq<CallRecord>, b: seq<CallRecord>)
    ensures var m := RunRecords(env, s, st, a);
            RunRecords(env, s, st, a + b) == RunRecords(env, m.1, m.0, b)
    decreases |a|
  {
    if a == [] {
      assert a + b == b;
    } else {
      var t := Turn(env, s, st, a[0]);
      AppendSplits(a, b);
      RunRecordsAppend(env, t.1, t.0, a[1..], b);
    }
  }

  /** The loop of `syncCalls`: the records in order, each processed and
      then tallied; it computes the fold `RunRecords`. */
  method RunLoop(env: SyncEnv, s: Session, st0: SyncStats, cdrs: seq<CallRecord>) returns (st: SyncStats, s2: Session)
    ensures (st, s2) == RunRecords(env, s, st0, cdrs)
  {
    st, s2 := st0, s;
    var i := 0;
    while i < |cdrs|
      invariant 0 <= i <= |cdrs|
      invariant RunRecords(env, s2, st, cdrs[i..]) == RunRecords(env, s, st0, cdrs)
    {
      var rec := cdrs[i];
      var step := ProcessOne(env, s2, rec);
      var time := env.now(step.session.history);
      RunRecordsFrom(env, s2, st, cdrs, i);
      st := Tally(st, step.out, rec, time);
      s2 := step.session;
      i := i + 1;
    }
    assert cdrs[i..] == [];
  }

  /** `syncCalls`: a failed fetch is raised before anything else happens;
      otherwise `total` is set to the number of records and each record is
      processed in turn (`RunRecords`), its failure counted and not
      raised. The counters accumulate over earlier runs, stay balanced,
      and grow by exactly the number of records; the calls created are at
      least one per success and at most one per success or failure. */
  method SyncCalls(env: SyncEnv, s: Session, stats: SyncStats, fetched: Fetched)
    returns (out: Result<(), Failure>, st: SyncStats, s2: Session)
    ensures !fetched.success || fetched.data.None? ==> out == Err(FetchError(fetched)) && st == stats && s2 == s
    ensures fetched.success && fetched.data.Some? ==>
              var n := |fetched.data.value|;
              && out.Ok? && st.total == n
              && st.processed == stats.processed + n
              && st.success + st.skipped + st.failed == stats.success + stats.skipped + stats.failed + n
              && st.success >= stats.success && st.skipped >= stats.skipped && st.failed >= stats.failed
              && |st.errors| == |stats.errors| + (st.failed - stats.failed)
              && st.errors[..|stats.errors|] == stats.errors
              && |Creates(s.history)| + (st.success - stats.success) <= |Creates(s2.history)|
                 <= |Creates(s.history)| + (st.success - stats.success) + (st.failed - stats.failed)
    ensures fetched.success && fetched.data.Some? ==>
              (st, s2) == RunRecords(env, s, stats.(total := |fetched.data.value|), fetched.data.value)
    ensures Balanced(stats) ==> Balanced(st)
    ensures Extends(s, s2)
  {
    if !fetched.success || fetched.data.None? {
      return Err(FetchError(fetched)), stats, s;
    }
    var cdrs := fetched.data.value;
    st, s2 := RunLoop(env, s, stats.(total := |cdrs|), cdrs);
    out := Ok(());
  }

  /** One turn of the loop: the record's `ProcessRecord`, seen through the
      calls it adds: one for a success, none for a skip, at most one for a
      failure. */
  method ProcessOne(env: SyncEnv, s: Session, rec: CallRecord) returns (r: Step<Outcome>)
    ensures r == ProcessRecord(env, s, rec)
    ensures Extends(s, r.session)
    ensures r.out == Succeeded ==> |Creates(r.session.history)| == |Creates(s.history)| + 1
    ensures r.out == Skipped ==> |Creates(r.session.history)| == |Creates(s.history)|
    ensures r.out.FailedWith? ==> |Creates(s.history)| <= |Creates(r.session.history)| <= |Creates(s.history)| + 1
  {
    r := ProcessRecord(env, s, rec);
  }

  /** Over a successful fetch, a fresh job ends balanced with `total`
      and `processed` equal to the number of records. */
  method FreshRun(env: SyncEnv, s: Session, fetched: Fetched)
    returns (out: Result<(), Failure>, st: SyncStats, s2: Session)
    ensures fetched.success && fetched.data.Some? ==>
              out.Ok? && Balanced(st) && st.total == st.processed == |fetched.data.value|
    ensures !fetched.success || fetched.data.None? ==> out.Err? && st == InitialStats
  {
    out, st, s2 := SyncCalls(env, s, InitialStats, fetched);
    if fetched.success && fetched.data.Some? {
      assert st.processed == |fetched.data.value|;
    }
  }
}
