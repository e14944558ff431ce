/** The CRM as the client sees it: the objects it reads, the requests it
    sends, and an abstract service that answers each request. Every HTTP
    round-trip of the source (axios calls) becomes one `Request` appended
    to the history, and the answer is a function of that history, so the
    CRM may change between requests (a created call becomes findable). */
module Crm {
  import opened Base
  import opened Status

  /** A CRM contact: its id, name parts, and the ids of its associated
      companies (`associations.companies.results`). */
  datatype Contact = Contact(id: string, firstName: Option<string>, lastName: Option<string>, companyIds: seq<string>)

  datatype Company = Company(name: Option<string>)

  /** One page of a CRM search: the reported total and the results sent. */
  datatype Page<T> = Page(total: int, results: seq<T>)

  /** The properties of a call activity object; a duration of None is
      JavaScript's NaN, which the JSON body carries as null. */
  datatype CallProperties = CallProperties(
    direction: string,
    duration: Option<int>,
    fromNumber: string,
    recordingUrl: string,
    status: CrmStatus,
    title: string,
    toNumber: string,
    timestamp: int,
    body: string)

  datatype IdPair = IdPair(fromId: string, toId: string)

  /** One input of the typed batch endpoint: the pair, the association
      category and the numeric type (None when `parseInt` gives NaN). */
  datatype TypedInput = TypedInput(pair: IdPair, category: string, typeId: Option<int>)

  datatype AssocStatus = Success | Error

  /** One `BatchAssociationResult`: a status and the pair it is about. */
  datatype AssocResult = AssocResult(status: AssocStatus, pair: IdPair)

  /** The requests the client sends to the CRM. */
  datatype Request =
    | ContactSearch(token: string, withCompanies: bool)
    | CallSearch(uuid: Option<string>)
    | ContactRead(contactId: string)
    | CompanyRead(companyId: string)
    | CallCreate(props: CallProperties)
    | CallPatch(callId: string, body: string)
    | TypedBatch(fromType: string, toType: string, inputs: seq<TypedInput>)
    | DefaultBatch(fromType: string, toType: string, pairs: seq<IdPair>)
    | DefaultSingle(fromType: string, toType: string, pair: IdPair)
    | LinkCall(callId: string, toType: string, toId: string, typeId: int)

  /** The CRM service: for each kind of request, its answer given all
      requests received so far, the current one last. A batch answer of
      None is a response without `results`. */
  datatype Service = Service(
    searchContacts: seq<Request> -> Result<Page<Contact>, Failure>,
    searchCalls: seq<Request> -> Result<Page<string>, Failure>,
    readContact: seq<Request> -> Result<Contact, Failure>,
    readCompany: seq<Request> -> Result<Company, Failure>,
    createCall: seq<Request> -> Result<string, Failure>,
    batch: seq<Request> -> Result<Option<seq<AssocResult>>, Failure>,
    write: seq<Request> -> Result<(), Failure>)

  /** One entry of the client's error log: the method that failed and the
      error. */
  datatype LogEntry = LogEntry(source: string, error: Failure)

  /** What one client instance has done: the requests sent and its error
      log. */
  datatype Session = Session(history: seq<Request>, log: seq<LogEntry>)

  /** A result together with the session after computing it. */
  datatype Step<T> = Step(out: T, session: Session)

  /** A result together with the request history after computing it, for
      code that keeps no error log. */
  datatype Trace<T> = Trace(out: T, history: seq<Request>)

  /** The TypeError raised when code reads `.id` of a missing first result. */
  const MissingResult := Failure("Cannot read properties of undefined (reading 'id')")

  /** `logError`: the log grows by exactly one entry; nothing is sent. */
  function LogError(s: Session, name: string, e: Failure): (r: Session)
    ensures r.history == s.history
    ensures |r.log| == |s.log| + 1 && r.log[..|s.log|] == s.log
    ensures r.log[|s.log|] == LogEntry(name, e)
  {
    Session(s.history, s.log + [LogEntry(name, e)])
  }

  /** `clearErrorLogs`: the log is emptied and nothing is sent. */
  function ClearErrorLogs(s: Session): (r: Session)
    ensures r.history == s.history && |r.log| == 0
  {
    Session(s.history, [])
  }

  /** Every batch association request is answered without an error. */
  ghost predicate BatchesAnswer(crm: Service) {
    forall h :: crm.batch(h).Ok?
  }

  /** A CRM in good order: it answers every request without an error, and
      a contact search that reports a match lists it. */
  ghost predicate AnswersWell(crm: Service) {
    && (forall h :: crm.searchContacts(h).Ok?
                    && (crm.searchContacts(h).value.total > 0 ==> |crm.searchContacts(h).value.results| > 0))
    && (forall h :: crm.searchCalls(h).Ok?)
    && (forall h :: crm.readContact(h).Ok?)
    && (forall h :: crm.readCompany(h).Ok?)
    && (forall h :: crm.createCall(h).Ok?)
    && (forall h :: crm.write(h).Ok?)
    && BatchesAnswer(crm)
  }

  /** `s2` continues `s1`: requests and log entries are only ever added. */
  predicate Extends(s1: Session, s2: Session) {
    s1.history <= s2.history && s1.log <= s2.log
  }

  lemma ExtendsTrans(s1: Session, s2: Session, s3: Session)
    requires Extends(s1, s2) && Extends(s2, s3)
    ensures Extends(s1, s3)
  {
  }

  /** The requests sent after `s1`. */
  function NewRequests(s1: Session, s2: Session): seq<Request>
    requires Extends(s1, s2)
  {
    s2.history[|s1.history|..]
  }

  /** The call objects a sequence of requests creates, in order. */
  function Creates(h: seq<Request>): seq<CallProperties> {
    if h == [] then []
    else (if h[0].CallCreate? then [h[0].props] else []) + Creates(h[1..])
  }

  lemma {:induction false} CreatesAppend(a: seq<Request>, b: seq<Request>)
    ensures Creates(a + b) == Creates(a) + Creates(b)
  {
    if a != [] {
      assert (a + b)[1..] == a[1..] + b;
      CreatesAppend(a[1..], b);
    } else {
      assert a + b == b;
    }
  }

  /** Requests that create no call objects add none. */
  lemma {:induction false} CreatesNone(h: seq<Request>)
    requires forall i :: 0 <= i < |h| ==> !h[i].CallCreate?
    ensures Creates(h) == []
  {
    if h != [] {
      CreatesNone(h[1..]);
    }
  }
}
