# Santral → HubSpot call sync, modelled in Dafny

The system copies call records from the Santral telephony provider into the
HubSpot CRM as call activities. For each record it does the following:

- normalizes the dialled number to E.164;
- finds the CRM contact for that number, trying several spellings;
- refuses to write a call whose UUID the CRM already has;
- creates the call with a generated note;
- links the call to the contact and to the contact's first company.

A second entry point writes a single call, fetching its recording URL
through a client limited to a number of requests per minute.

The model is a set of pure functions over immutable data. Every HTTP
round-trip becomes one `Crm.Request` appended to a request history. The CRM
is a `Crm.Service`: for each kind of request, a function of the whole
history so far, with the current request last. So the CRM may change between
requests. For example, a call created by one job becomes visible to the
duplicate check of the next one. Each CRM client instance keeps an error log,
and `Crm.Session` pairs the history with that log.

The modules follow the source files:

| module | file |
|---|---|
| `Base`, `Text` | options, results, JavaScript string and number built-ins (`trim`, `split`, `Number`, `slice`, truthiness, template text) |
| `Phone` | `src/utils/phone-utils.ts` |
| `Status` | `mapCallStatus`, the same in both revisions of the CRM client |
| `Crm` | the CRM's objects and requests, and the error log |
| `Lookup` | `findContactByPhone`, `findCallByUUID`, `getContactWithAssociations`, `getCompanyById` |
| `Associations` | `src/hubspot-associations.helper.ts` |
| `Writer` | `createCallEngagement` in both revisions (`src/hubspot-api.client.ts` and the older `src/hubspot-api.ts`), the call notes, `updateCallNotes` and the single association calls |
| `Sync` | `src/santral-sync.ts` |
| `Recording` | `src/recording-api.ts` and the `maxRequestsPerMinute` setting of `src/config/index.ts` |
| `CallSync` | `src/call-sync.ts` |

The batch job and the single-call sync both use the older client
(`src/hubspot-api.ts`), and the model wires them to the legacy writer.

Several inputs are parameters of the model rather than computed:

- **Phone library.** `libphonenumber-js` is `Phone.PhoneLib`. It has a
  `decodeURIComponent` step, which may fail. It also has a parser that throws,
  finds no number, or finds one with a validity flag, an E.164 text and an
  international text.
- **Clock and dates.** `new Date(...).getTime()`, `toLocaleString()`,
  `toISOString()` and `Date.now()` are parameters.
- **Recording service.** It is a function of the call UUIDs sent to it so far.

Two JavaScript value semantics are modelled explicitly:

- **NaN.** A NaN duration is `None`.
- **The `%` operator.** Its sign follows the dividend (`Writer.JsRem`).

## Model

| member | source | states |
|---|---|---|
| Text.Trim | src/hubspot-api.client.ts:306-310 | `trim` gives a slice of its input that neither starts nor ends with white space, and only white space is cut off at either end |
| Text.SplitJoin | src/santral-sync.ts:152 | splitting on ':' undoes joining with ':' whenever no field contains ':' |
| Text.FirstField | src/santral-sync.ts:112 | `split(" ")[0]` is the prefix of the text up to its first space and contains no space |
| Text.NumberOf | src/santral-sync.ts:152 | `Number` reads a digit text as its decimal value and white space alone as 0 |
| Phone.Clean | src/utils/phone-utils.ts:9 | cleaning removes every white-space, parenthesis and hyphen character and keeps every other character as often as it occurred |
| Phone.CleanKeepsClean | src/utils/phone-utils.ts:9 | a text without such characters is left as it is |
| Phone.CleanIdempotent | src/utils/phone-utils.ts:9 | cleaning twice is cleaning once |
| Phone.DropPrefix | src/utils/phone-utils.ts:51-53 | removing a prefix gives back the original text when the prefix is put in front again; a text without the prefix is unchanged |
| Phone.FallbackTexts | src/utils/phone-utils.ts:49-54 | the four fallback variants are, in order: the text as it is, the text without a leading "0", without a leading "90", and without a leading "+90"; a variant whose prefix is absent is the text itself |
| Phone.Candidates | src/utils/phone-utils.ts:14-54 | at most one international attempt comes first. It is a direct parse of a "+" number, "+90" for an 11-character "0" number, or "+" for a 12-character "90" number. The four fallback variants under the Turkish default follow. Only the direct parse is outside an inner try |
| Phone.TryAttempts | src/utils/phone-utils.ts:56-65 | the result is the E.164 text of the attempt that wins: the first one accepted before any unguarded throw. There is no result exactly when no attempt wins |
| Phone.Normalize | src/utils/phone-utils.ts:6-73 | `formatInternationalNumber` gives a number exactly when decoding succeeds and some attempt wins, and that number is the winner's E.164 text |
| Phone.IsValidPhoneNumber | src/utils/phone-utils.ts:75-78 | a number is valid exactly when normalization gives a number |
| Phone.DisplayForm | src/utils/phone-utils.ts:80-90 | when normalization gives a non-empty number that re-parses, the display form is that number's international form; in every other case it is the input itself |
| Phone.FirstAttemptDecides | src/utils/phone-utils.ts:14-20 | when the first attempt on a clean number is accepted, its E.164 text is the result |
| Phone.AsIsFirst | src/utils/phone-utils.ts:49-58 | without an international attempt, the text as it is, under the Turkish default, is tried first |
| Phone.CountryCodeFirst | src/utils/phone-utils.ts:36-37 | a 12-character "90" number is first tried with "+" in front |
| Phone.CountryCodeDecides | src/utils/phone-utils.ts:36-46 | a clean 12-character "90" number whose "+" form is accepted normalizes to that form's E.164 text |
| Phone.NationalFormAgrees | src/utils/phone-utils.ts:22-33 | "0" followed by a Turkish mobile number normalizes to "+90" followed by it |
| Phone.BareFormAgrees | src/utils/phone-utils.ts:49-65 | a bare Turkish mobile number normalizes to "+90" followed by it |
| Phone.CountryCodeFormAgrees | src/utils/phone-utils.ts:35-46 | "90" followed by a Turkish mobile number normalizes to "+90" followed by it |
| Phone.InternationalFormAgrees | src/utils/phone-utils.ts:14-20 | "+90" followed by a Turkish mobile number normalizes to itself |
| Phone.TurkishFormsAgree | src/utils/phone-utils.ts:6-73 | the national, bare, country-code and international forms of a Turkish mobile number all normalize to the same E.164 text |
| Phone.FallbackReachesBareForm | src/utils/phone-utils.ts:49-54 | the national, country-code and international forms of a Turkish mobile number each fall back to the bare number at the variant that drops their prefix |
| Phone.TurkishFormsDisplayAlike | src/utils/phone-utils.ts:80-90 | the four forms of a Turkish mobile number are all displayed as the library's international rendering of their common E.164 text |
| Phone.DisplayOfUndecodable | src/utils/phone-utils.ts:69-90 | a number whose decoding fails is invalid and is displayed as given |
| Status.MapCallStatus | src/hubspot-api.client.ts:166-180 | each CRM status is reached from exactly the provider texts listed for it, and every unlisted text maps to COMPLETED |
| Status.AnsweredIsCompleted | src/hubspot-api.client.ts:166-180 | "Cevaplandı" (answered) maps to COMPLETED |
| Status.MapCallStatusAsWritten | src/hubspot-api.client.ts:166-180 | the lookup as written agrees with the intended mapping except on names of inherited object members, for which it returns the member |
| Status.AsWrittenLeaksPrototype | src/hubspot-api.client.ts:166-180 | for "toString" and "\_\_proto\_\_" the lookup as written returns something other than a status, while the intended mapping gives COMPLETED |
| Crm.LogError | src/hubspot-api.client.ts:26-39 | `logError` appends exactly one entry naming the method and the error, and sends nothing |
| Crm.ClearErrorLogs | src/hubspot-api.client.ts:45-47 | `clearErrorLogs` empties the log and sends nothing |
| Crm.CreatesAppend | src/hubspot-api.client.ts:245-257 | the call objects created by two runs of requests are those of the first run followed by those of the second |
| Lookup.NonEmpty | src/hubspot-api.client.ts:59-64 | `filter(Boolean)` keeps exactly the non-empty texts; a non-empty first or last text stays first or last |
| Lookup.NonEmptyAppend | src/hubspot-api.client.ts:59-64 | the filter keeps the order: filtering a concatenation is concatenating the filtered parts |
| Lookup.NonEmptyCounts | src/hubspot-api.client.ts:59-64 | every non-empty text is kept exactly as often as it occurred |
| Lookup.NonEmptyKeepsFull | src/hubspot-api.client.ts:59-64 | a list without empty texts passes the filter whole |
| Lookup.ContactVariants | src/hubspot-api.client.ts:59-64 | for a number longer than three characters the tokens are, in order, the number, the number without a leading "+", the number without its first three characters, and "0" followed by those; for shorter numbers the empty third token is dropped. Every token is non-empty |
| Lookup.ShortVariants | src/hubspot-api.client.ts:59-64 | for a number of at most three characters the tokens are the number and its "+"-less form when non-empty, then "0" |
| Lookup.VariantsOfTurkishNumber | src/hubspot-api.client.ts:59-64 | for "+90" followed by a Turkish mobile number, the tokens are its international, country-code, bare and national forms |
| Lookup.VariantsNormalizeBack | src/hubspot-api.client.ts:59-64 | every token searched for a Turkish mobile number normalizes back to that number |
| Lookup.Queries | src/hubspot-api.client.ts:68-80 | one contact search per token, in order |
| Lookup.SearchVariants | src/hubspot-api.client.ts:68-125 | only searches for a prefix of the tokens are sent, at least one when there is a token. A found contact is the first result of an answer with a total above zero |
| Lookup.SearchStopsAtFirstDecisive | src/hubspot-api.client.ts:68-125 | the first answer that is an error or has a total above zero decides the lookup, and no token after it is searched |
| Lookup.SearchExhausted | src/hubspot-api.client.ts:68-125 | when no answer is decisive, every token is searched and no contact is found |
| Lookup.SearchVariantsAnswered | src/hubspot-api.client.ts:68-125 | against a CRM that answers every search without an error, and lists a match whenever it reports one, the token loop raises nothing |
| Lookup.QueriesPrefix | src/hubspot-api.client.ts:68-125 | searching the first token and then a prefix of the rest is searching a prefix of all tokens |
| Lookup.SearchByNormalized | src/hubspot-api.client.ts:49-132 | a missing or empty normalized number sends nothing and finds no contact. Otherwise only contact searches for a non-empty prefix of the tokens are sent. An error is logged once under `findContactByPhone` and raised |
| Lookup.FindContactByPhone | src/hubspot-api.ts:68-153 | `findContactByPhone` is the token search for the normalized form of the number, so a found contact is the first result of the first answer with a total above zero. It sends only contact searches, logs exactly when it raises, and sends nothing for a number that does not normalize. Against a CRM that answers every request without an error, it raises nothing |
| Lookup.FindCallByUuid | src/hubspot-api.client.ts:134-164 | one call search. The answer is true exactly when the search succeeds with a total above zero; a failed search is logged and reads as false |
| Lookup.GetContactWithAssociations | src/hubspot-api.client.ts:329-345 | one contact read; a failure is logged and reads as no contact |
| Lookup.GetCompanyById | src/hubspot-api.client.ts:312-327 | one company read; a failure is logged and reads as no company |
| Associations.OfTypes | src/hubspot-associations.helper.ts:25-32 | the inputs with a given pair of types are exactly the inputs of that pair |
| Associations.FindGroup | src/hubspot-associations.helper.ts:25-32 | the position found is that of the first group for the pair, or the end when there is none |
| Associations.AddToGroups | src/hubspot-associations.helper.ts:25-32 | one step of the grouping `reduce`: at most one group is added, the existing groups keep their pairs of types in order, and the groups hold exactly the inputs they held plus the new one |
| Associations.GroupInputs | src/hubspot-associations.helper.ts:25-32 | the groups together hold every input exactly once |
| Associations.GroupInputsGroups | src/hubspot-associations.helper.ts:25-32 | there is one non-empty group per pair of types that occurs, never two for one pair, and each holds the inputs of its pair in their order |
| Associations.Chunks | src/hubspot-associations.helper.ts:39-40 | the slices of at most n items put together are the items; only the last slice may be shorter |
| Associations.GroupBatches | src/hubspot-associations.helper.ts:37-40 | the batches of a group hold its inputs in order, 1 to 100 at a time, all of the group's pair |
| Associations.PlanBatches | src/hubspot-associations.helper.ts:35-41 | the batches of all groups hold the groups' inputs in order, 1 to 100 at a time, each of one group's pair |
| Associations.BatchesCoverInputs | src/hubspot-associations.helper.ts:25-41 | grouping and batching neither drops nor repeats an input; every batch has 1 to 100 inputs, all of the batch's own pair of types |
| Associations.ParseInt | src/hubspot-associations.helper.ts:56 | `parseInt` reads a digit text as its decimal value |
| Associations.ParseAssociationTypes | src/hubspot-associations.helper.ts:56 | the type texts "219" and "220" parse to 219 and 220 |
| Associations.TypedInputs | src/hubspot-associations.helper.ts:43-61 | one typed input per item, in order, with the defined category and the parsed type |
| Associations.Singles | src/hubspot-associations.helper.ts:118-151 | one individual request per item, in order |
| Associations.RunSingles | src/hubspot-associations.helper.ts:118-151 | individual requests go in order and stop at the first failure, whose error is raised. Every earlier one succeeded; on success every input is reported a success |
| Associations.RunBatch | src/hubspot-associations.helper.ts:63-151 | the typed batch request goes first. The default batch is sent only if the typed one fails, and the individual requests only if both fail |
| Associations.RunBatchShape | src/hubspot-associations.helper.ts:63-151 | a batch sends at least one request, only association requests. A failure can only come from the last individual request |
| Associations.RunBatches | src/hubspot-associations.helper.ts:42-160 | the batches go in order, beginning with the typed request of the first; only association requests are sent, and a raised error is the last individual request's failure |
| Associations.RunBatchesOne | src/hubspot-associations.helper.ts:42-160 | running a single batch in the loop is running that batch |
| Associations.RunBatchesCons | src/hubspot-associations.helper.ts:42-160 | the first batch's error ends the whole operation; otherwise the other batches run on from where it stopped, and its results come before theirs |
| Associations.RunBatchesAppend | src/hubspot-associations.helper.ts:42-160 | running two lists of batches one after the other: an error in the first list ends everything; otherwise the second list runs on, and on success the results are the first list's followed by the second's |
| Associations.RunBatchesTwo | src/hubspot-associations.helper.ts:42-160 | with two batches the second runs only after the first succeeded, and on success the results are the first's followed by the second's |
| Associations.RunBatchesAnswered | src/hubspot-associations.helper.ts:42-160 | when every batch request is answered, the loop sends exactly one typed request per batch, in order, raises nothing, and reports the answers of all batches in order |
| Associations.CreateBatchAssociations | src/hubspot-associations.helper.ts:18-162 | the whole operation is the batch loop over the grouped and chunked inputs. Only association requests are sent, none for no inputs. With inputs, the first request is the typed batch of the first planned batch, and a raised error is the failure of the last individual request. When every batch request is answered, exactly the planned typed batches are sent, and the result is their answers in order |
| Associations.FindByTarget | src/hubspot-associations.helper.ts:202-216 | the link reported for a target is the first result naming that target, and none when no result does |
| Associations.CallInputs | src/hubspot-associations.helper.ts:172-192 | the contact input (type "219") comes first and the company input (type "220") last, each present exactly when its id is non-empty |
| Associations.CreateCallAssociations | src/hubspot-associations.helper.ts:164-248 | nothing is sent without ids. Otherwise the inputs go through `createBatchAssociations`: its error is raised, and each reported link is the first of its results naming that target. When every batch request is answered, nothing is raised |
| Associations.CallAssociationsOfBoth | src/hubspot-associations.helper.ts:164-248 | with both ids the contact's batch runs first and its error is raised; otherwise the company's batch follows, and each link is looked up in the results of both batches together |
| Associations.CallBatches | src/hubspot-associations.helper.ts:164-196 | with both ids, the call is linked in two single-input batches, the contact first |
| Associations.SplitKey | src/hubspot-associations.helper.ts:37 | splitting a key without "-" gives the key and "undefined" |
| Associations.SplitKeyRecoversTypes | src/hubspot-associations.helper.ts:26-37 | when neither type contains "-", splitting the key text gives back the pair of types it was built from |
| Associations.SplitKeyMisreadsDashedType | src/hubspot-associations.helper.ts:26-37 | a target type containing "-" comes back from the key as a different type |
| Writer.DisplayName | src/hubspot-api.client.ts:306-310 | the contact name neither starts nor ends with white space |
| Writer.DisplayNameParts | src/hubspot-api.ts:253-257 | for name parts with clean outer edges: both give "first last", only a first name gives that name, only a last name gives that name, and neither gives "" |
| Writer.Formatted | src/hubspot-api.ts:259-264 | a number is shown in its normalized form when normalization gives a non-empty text, and as given otherwise |
| Writer.JsRem | src/hubspot-api.client.ts:369-370 | `d % 60` lies strictly between -60 and 60 and takes the sign of `d` |
| Writer.MinutesAndSeconds | src/hubspot-api.client.ts:369-370 | the note's minutes and seconds add back up to a non-negative duration, with seconds below 60. For a negative duration that is not a whole number of minutes, they fall one minute short |
| Writer.RecordingLine | src/hubspot-api.client.ts:374-376 | the note's last line names a recording URL exactly when one is given |
| Writer.NoteLines | src/hubspot-api.client.ts:347-378 | the note has six parts: header, UUID line, parties, duration line, status line (client revision only) and recording line |
| Writer.Note | src/hubspot-api.ts:352-377 | the generated note names the UUID and the duration, and the status when given, and ends with the recording line |
| Writer.CallFor | src/hubspot-api.ts:267-288 | the call's properties carry everything the parameters promise. The body is the caller's notes, or else a note naming the UUID and the duration |
| Writer.ClientNote | src/hubspot-api.client.ts:347-378 | the client revision's note names the UUID, the duration and the raw status |
| Writer.LegacyNote | src/hubspot-api.ts:352-377 | the legacy note names the UUID and the duration |
| Writer.ResolveContact | src/hubspot-api.client.ts:195-202 | a given contact id is read, and that one read is all that is sent: its contact, or no contact when it fails. Without an id, the result is exactly `findContactByPhone` on the dialled number. Neither creates a call, a raised error is logged under `findContactByPhone`, and against a CRM in good order nothing is raised |
| Writer.ClientCompany | src/hubspot-api.client.ts:204-213 | the first associated company is read; a failed read is logged and means no company |
| Writer.LegacyCompany | src/hubspot-api.ts:236-251 | the first associated company is read; a failed read is raised |
| Writer.CreateCall | src/hubspot-api.client.ts:245-257 | one create request, which creates exactly the given call object |
| Writer.ClientCreate | src/hubspot-api.client.ts:245-296 | a failed create request is the result's error. After a created call the links follow: their error is the result's error, and otherwise the result is the id the CRM gave, which is the answer to the last create request sent. Success creates exactly one promised call, a failure is logged, and against a CRM in good order the write succeeds |
| Writer.ClientLinks | src/hubspot-api.client.ts:260-287 | without a contact nothing is sent. With one, the call is linked through the batch helper, beginning with a typed batch, and only association requests are sent. The log is untouched, and when every batch request is answered the links succeed |
| Writer.ClientLinksOfHelper | src/hubspot-api.client.ts:260-287 | with a contact, the links send exactly what `createCallAssociations` sends for the contact's id and the company's id, and fail exactly when it raises, with its error |
| Writer.ClientWrite | src/hubspot-api.client.ts:204-296 | success creates exactly one call with the promised properties, whose id is the CRM's answer to the last create. Contact id and name are reported exactly when a contact was found, and the id is that contact's. Against a CRM in good order it succeeds |
| Writer.ClientAfterCheck | src/hubspot-api.client.ts:195-303 | an error resolving the contact is the result's error; otherwise the result is the write for the resolved contact. Success creates exactly one promised call, reported with the CRM's id for it. A failure is logged under `createCallEngagement` and creates nothing or that one call. Against a CRM in good order it succeeds |
| Writer.CreateEngagement | src/hubspot-api.client.ts:182-304 | the duplicate check comes first and answers "duplicate" exactly when the CRM already has the UUID, sending nothing more. Otherwise the result is the write after the check, and exactly one call with the promised properties is created on success. Every error is logged and raised. For a new UUID, a CRM in good order gives a created call |
| Writer.AssociateCall | src/hubspot-api.ts:433-457 | one link request of type 194; its failure is logged and raised |
| Writer.AssociateCallWithCompany | src/hubspot-api.ts:459-483 | one link request of type 220; its failure is logged and not raised |
| Writer.LegacyLinks | src/hubspot-api.ts:305-315 | a given contact is linked with type 194, and the result fails exactly when that link request fails, with its error, and nothing more is sent. Without a contact nothing fails. After a successful contact step a given company is linked with type 220, and that link's failure does not fail the result. A failure is logged under `associateCall` |
| Writer.LegacyCreate | src/hubspot-api.ts:290-331 | a failed create request is the result's error. After a created call the links follow: their error is the result's error, and otherwise the result is the id the CRM gave, which is the answer to the last create request sent. Success creates exactly one promised call and links a given contact to it. A failure of either is logged under `createCallEngagement` and creates nothing or that one call. Against a CRM in good order it succeeds |
| Writer.LegacyWriteFound | src/hubspot-api.ts:253-322 | once contact and company are known: success creates exactly one promised call, reported with the CRM's id for it, the contact's id, the company's id and a contact name. A reported contact was linked to the call, and against a CRM in good order it succeeds |
| Writer.LegacyWrite | src/hubspot-api.ts:236-331 | a failed company read is the result's error. Success creates exactly one promised call, reported with the CRM's id for it, and always reports a contact name. It reports the contact's id and its first company, and a reported contact was linked to the call. Against a CRM in good order it succeeds |
| Writer.LegacyAfterCheck | src/hubspot-api.ts:223-331 | an error resolving the contact is the result's error; otherwise the result is the write for the resolved contact, and a given contact id is read first. The write keeps the same promises, and an error finding the contact is logged. Against a CRM in good order it succeeds |
| Writer.CreateEngagementLegacy | src/hubspot-api.ts:204-332 | "duplicate" exactly when the CRM already has the UUID. Otherwise the result is the write after the check, whose first request after the search is the read of a given contact id. Exactly one promised call is created on success, the contact name is always reported, and a reported contact is linked. Errors are logged and raised. For a new UUID, a CRM in good order gives a created call |
| Writer.UpdateCallNotes | src/hubspot-api.ts:379-431 | true exactly when the first call found for the UUID was patched and the CRM accepted it. Nothing is raised. An empty search is a plain false with nothing logged. A failed search or a failed patch logs that answer's own error under `updateCallNotes`, and a total without results logs the missing-result error |
| Sync.FieldsSeconds | src/santral-sync.ts:152-153 | a duration is a number only when there are at least three numeric fields, and it is then non-negative |
| Sync.DurationSeconds | src/santral-sync.ts:152-153 | a duration text with a number of seconds has at least three ':'-fields |
| Sync.DurationOfFields | src/santral-sync.ts:152-153 | three digit fields "h:m:s" read as h·3600 + m·60 + s |
| Sync.DurationRoundTrip | src/santral-sync.ts:152-153 | "h:m:s" written from numbers reads back as the seconds they add up to |
| Sync.DurationExample | src/santral-sync.ts:152-153 | "00:02:02" is 122 seconds |
| Sync.DurationNeedsThreeFields | src/santral-sync.ts:152-153 | fewer than three fields give NaN |
| Sync.SantralNote | src/santral-sync.ts:186-200 | the record's note names the UUID, the queue ("Yok" without one) and the wait ("0" without one), and ends with whether a recording exists |
| Sync.RecordParams | src/santral-sync.ts:155-171 | the writer gets the numbers up to their first space, the record's UUID and its note. It gets a recording URL exactly when `recording_present` is "true" |
| Sync.WriteRecord | src/santral-sync.ts:127-182 | the record is skipped exactly when the CRM already has its UUID, and then only that search was sent. Otherwise the result is the legacy write for the contact's id, with its answer judged. A success wrote exactly the record's promised call |
| Sync.WriteRecordOutcome | src/santral-sync.ts:127-182 | past the check, a created call is a success, a writer answer of "duplicate" is the failure "Çağrı kaydı oluşturulamadı: duplicate", and a writer error is the failure with that error. Against a CRM in good order that has the UUID at neither check, the record succeeds |
| Sync.ProcessRecord | src/santral-sync.ts:110-137 | a record is skipped exactly when no contact is found for its destination, or one is found and the CRM already has the record's UUID; a search error is the record's failure. With a contact, the result is the check and write for it. A success creates exactly one call carrying what the record promises; a skip creates none, and a failure at most that one. Against a CRM in good order, a record with a contact whose UUID the CRM lacks succeeds |
| Sync.UnnormalizableSkipped | src/santral-sync.ts:116-124 | a record whose destination number does not normalize is skipped before any request is sent |
| Sync.ProcessOne | src/santral-sync.ts:110-140 | one turn of the loop is the record's `ProcessRecord`. It adds one call for a success, none for a skip, and at most one for a failure |
| Sync.CountFailure | src/santral-sync.ts:202-212 | a failure adds one to `failed` and appends an entry with the UUID, the raw destination and the message; nothing else changes |
| Sync.Tally | src/santral-sync.ts:111-140 | after one record, `processed` and exactly the counter of its outcome grow by one, errors grow only on failure, and balance is kept |
| Sync.Turn | src/santral-sync.ts:108-140 | one record's turn is its `ProcessRecord` followed by its tally. `processed` and one counter grow by one, an error entry is added only for a failure, and the calls created are one per success and at most one per failure |
| Sync.RunRecords | src/santral-sync.ts:108-140 | processing the records in turn makes `processed` and the three counters grow by exactly the number of records, keeps earlier error entries and adds one per failure, and keeps the statistics balanced. The calls created are at least one per success and at most one per success or failure |
| Sync.RunRecordsOne | src/santral-sync.ts:108-140 | a single record is its `ProcessRecord` and its tally, nothing more |
| Sync.RunRecordsFrom | src/santral-sync.ts:108-140 | the records from position i on are record i's `ProcessRecord` and tally, then the records after it from where that turn ended |
| Sync.RunRecordsAppend | src/santral-sync.ts:108-140 | processing two lists of records one after the other is processing the first list, then the second from the session and statistics it ended with |
| Sync.RunLoop | src/santral-sync.ts:108-140 | the loop over the records computes exactly the statistics and the session of processing them in turn |
| Sync.SyncCalls | src/santral-sync.ts:91-149 | a failed fetch is raised before anything else. Otherwise the statistics and the session are exactly those of processing the records in turn, each by `ProcessRecord`, from the statistics with `total` set to the number of records. The counters grow by exactly that many, kept balanced. The calls created are between the successes and the successes plus failures |
| Sync.FreshRun | src/santral-sync.ts:60-85 | from fresh statistics a successful run ends balanced, with `total` and `processed` equal to the number of records |
| Recording.MaxRequests | src/config/index.ts:11 | the limit is at least one: a positive numeric setting is taken as given, and a missing, blank or zero setting gives 5 |
| Recording.Window | src/recording-api.ts:26-29 | a new window, with no requests counted, starts once a minute has passed since the current one started |
| Recording.CheckRateLimit | src/recording-api.ts:22-39 | a request is let through exactly when its window has let fewer than the limit through, and only a request let through is counted |
| Recording.RunLimiter | src/recording-api.ts:22-39 | one verdict per request |
| Recording.CountStaysBounded | src/recording-api.ts:31-38 | the count in a window never exceeds the limit |
| Recording.WithinWindow | src/recording-api.ts:22-39 | within one window, the i-th request is let through exactly when fewer than limit − i were counted before, and the window does not move |
| Recording.WindowCount | src/recording-api.ts:22-39 | one window lets through what remains of the limit, capped by the number of requests |
| Recording.FreshClientAllows | src/recording-api.ts:14-15 | a new client lets its first request through whatever the clock says |
| Recording.FixedWindowBurst | src/recording-api.ts:26-29 | windows are fixed, not sliding: with a limit of one, two requests a millisecond apart across a window's end are both let through |
| Recording.Respond | src/recording-api.ts:64-80 | success exactly for response data. A failure has no URL and a non-empty error, the response data when there is some |
| Recording.GetRecordingUrl | src/recording-api.ts:41-81 | a refused request is not sent and is answered with the rate-limit error; any other is sent. Success exactly when there is a URL, and a failure always has an error |
| CallSync.CallSyncNote | src/call-sync.ts:61-67 | the note names the UUID, the raw duration, the status and whether a recording exists |
| CallSync.RecordingUrlFor | src/call-sync.ts:40-46 | without a recording nothing is asked. Otherwise exactly one request is sent, and the URL is the answer's, or "" |
| CallSync.CallSyncParams | src/call-sync.ts:49-68 | the writer gets the raw numbers, the seconds of the duration, the URL and the note, but no call UUID |
| CallSync.WriteCall | src/call-sync.ts:39-68 | the CRM requests are exactly the legacy writer's for the contact's id, and the result fails exactly when the writer fails, with its error. The writer's duplicate check searches for an absent UUID, and a "duplicate" answer is not an error. Past that check, a contact with a non-empty id is read by that id, and an Ok run created exactly the one promised call; against a CRM in good order the run is Ok |
| CallSync.SyncCallToHubspot | src/call-sync.ts:4-75 | a search error is raised, and no contact returns quietly; neither asks for a recording. With a contact, the run is the write for it, and at most the one call is created, carrying what the parameters promise. Against a CRM in good order nothing is raised, and a found contact whose absent-UUID check finds nothing gets the one call |

## Left out

- HTTP, request headers and bodies, axios and the console are not modelled. Every request is an abstract `Crm.Request`, and every answer comes from the `Crm.Service` functions.
- `call-api.ts` (`getCallRecords`) is not part of this model. Its answer is the `Sync.Fetched` parameter of `Sync.SyncCalls`.
- `index.ts`, `types/hubspot.types.ts` and the `test-*.ts` scripts are not part of this model, apart from the record and result shapes.
- Clock and date parsing are parameters: `Date.now()`, `new Date(s).getTime()`, `toLocaleString()` and `toISOString()`. The default 24-hour window of `syncCalls` is not modelled, since it only shapes the fetch.
- The 300 ms pause between contact searches is not modelled. It only delays requests.
- `printSyncSummary` and the wait-time message of the rate limiter are not modelled. They only print.
- `getErrorLogs` is not a member of its own: the log is `Crm.Session.log`.
- Configuration other than `MAX_REQUESTS_PER_MINUTE` is not modelled. It is base URLs and keys.
- Crm.LogError: the logged error is the error value itself. The `error.message || JSON.stringify(error)` fallback and the timestamp are not modelled. Likewise `Sync.CountFailure` records the failure's message.
- Text.NumberOf: reads only digit runs, with white space around them or white space alone. Every other text, such as "1.5", "-3", "0x10" or "1e3", reads as NaN here, although JavaScript reads them as numbers. So `Recording.MaxRequests` gives 5 for a negative setting, where the source would refuse every request.
- Associations.ParseInt: states the value only for texts of digits. Signs and leading white space are handled as `parseInt` does, but without a contract. A "0x" prefix is not read as hexadecimal: "0x10" gives 0 here and 16 in JavaScript. Only "219" and "220" are ever parsed, so this does not matter to the system.
- Phone.Normalize: the library's own behaviour is an oracle. The Turkish-number lemmas assume a library that knows the number, as `Phone.KnowsTurkishNumber` says.
- Writer.CallFor: the stored status uses the corrected `Status.MapCallStatus`. For a status text naming an inherited object member, such as "toString", both revisions as written (`src/hubspot-api.client.ts:224`, `src/hubspot-api.ts:273`) would store that member instead; `Status.MapCallStatusAsWritten` models that lookup, and the Findings table records it.
- Associations.FindByTarget: results are modelled with their `inputs` always present, so an absent id matches nothing. In the source a result without `inputs` has an undefined target id, which `===` matches against an absent contact or company id, so such a result would be reported as that link.
- The legacy writer links a contact with association type 194 (`src/hubspot-api.ts:438`), while the batch helper uses 219. Each file's own constant is kept.
- Contact and call searches: which contacts a search returns is the service's answer. So the legacy search returning contacts without company associations is up to the oracle.
- Associations.CreateBatchAssociations: the model groups the inputs by their pair of types and sends each batch with that pair's own types (the corrected behaviour). As written, `src/hubspot-associations.helper.ts:26-37` groups by the key text `${from}-${to}` and splits it on "-" again, which misreads a type containing "-". `Associations.SplitKeyMisreadsDashedType` shows this, and the Findings table records it.
- CallSync.SyncCallToHubspot: the client's error log is discarded, since the function builds a new client for each call. The recording client is likewise new for each call, so its limiter starts fresh.

## Findings

| source | as written | input that shows it | evidently intended | confidence | as-written member | corrected member |
|---|---|---|---|---|---|---|
| src/hubspot-api.client.ts:166-180 | `statusMap[santralStatus] \|\| "COMPLETED"` also finds members inherited from `Object.prototype`, which are truthy | the status text "toString" (or "\_\_proto\_\_") | COMPLETED for every text the table does not list | not executed; high that the lookup leaks, low that the provider sends such a text | Status.MapCallStatusAsWritten, Status.AsWrittenLeaksPrototype | Status.MapCallStatus |
| src/hubspot-associations.helper.ts:26-37 | inputs are grouped by the text `${from}-${to}`, which is split on "-" again to recover the types | an input whose target type is a custom object type id such as "2-123" | each batch is sent for the pair of types its inputs were grouped by | not executed; medium, since this system only uses types without "-" | Associations.SplitKey, Associations.SplitKeyMisreadsDashedType | Associations.BatchesCoverInputs |
