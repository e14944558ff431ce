/** Reads against the CRM: finding a contact by phone number over several
    textual variants, the duplicate-call guard, and the single-object reads
    (src/hubspot-api.client.ts and its older revision src/hubspot-api.ts). */
module Lookup {
  import opened Base
  import opened Text
  import opened Phone
  import opened Crm

  /** `xs.filter(Boolean)` on strings: the non-empty entries, in order,
      each as often as it occurred. */
  function NonEmpty(xs: seq<string>): (r: seq<string>)
    ensures |r| <= |xs|
    ensures forall i :: 0 <= i < |r| ==> r[i] != ""
    ensures forall x :: x in r <==> x in xs && x != ""
    ensures xs != [] && xs[0] != "" ==> |r| >= 1 && r[0] == xs[0]
    ensures xs != [] && xs[|xs| - 1] != "" ==> |r| >= 1 && r[|r| - 1] == xs[|xs| - 1]
  {
    if xs == [] then []
    else
      var rest := NonEmpty(xs[1..]);
      assert xs == [xs[0]] + xs[1..];
      assert forall x :: x in xs <==> x == xs[0] || x in xs[1..];
      assert |xs| > 1 ==> xs[1..][|xs[1..]| - 1] == xs[|xs| - 1];
      (if xs[0] == "" then [] else [xs[0]]) + rest
  }

  /** The filter keeps or drops the first text, then filters the rest. */
  function Kept(x: string): seq<string> {
    if x == "" then [] else [x]
  }

  lemma NonEmptyCons(xs: seq<string>)
    requires xs != []
    ensures NonEmpty(xs) == Kept(xs[0]) + NonEmpty(xs[1..])
  {
  }

  lemma ConcatAssoc(x: seq<string>, y: seq<string>, z: seq<string>)
    ensures x + (y + z) == (x + y) + z
  {
  }

  /** Filtering keeps the order: filtering a concatenation concatenates
      the filtered parts. */
  lemma {:induction false} NonEmptyAppend(a: seq<string>, b: seq<string>)
    ensures NonEmpty(a + b) == NonEmpty(a) + NonEmpty(b)
  {
    if a == [] {
      assert a + b == b;
    } else {
      var ab := a + b;
      assert ab[0] == a[0] && ab[1..] == a[1..] + b;
      NonEmptyCons(a);
      NonEmptyCons(ab);
      NonEmptyAppend(a[1..], b);
      ConcatAssoc(Kept(a[0]), NonEmpty(a[1..]), NonEmpty(b));
    }
  }

  /** Filtering keeps every non-empty text as often as it occurred. */
  lemma {:induction false} NonEmptyCounts(xs: seq<string>)
    ensures forall x :: x != "" ==> multiset(NonEmpty(xs))[x] == multiset(xs)[x]
  {
    if xs != [] {
      NonEmptyCounts(xs[1..]);
      assert xs == [xs[0]] + xs[1..];
      assert multiset(xs) == multiset{xs[0]} + multiset(xs[1..]);
    }
  }

  /** A sequence without empty texts passes the filter whole. */
  lemma {:induction false} NonEmptyKeepsFull(xs: seq<string>)
    requires forall i :: 0 <= i < |xs| ==> xs[i] != ""
    ensures NonEmpty(xs) == xs
  {
    if xs != [] {
      NonEmptyKeepsFull(xs[1..]);
    }
  }

  /** The search tokens tried for a normalized number `f`: as it is, without
      a leading "+", without its first three characters, and "0" followed by
      those; empty ones are dropped. The last token is always tried. */
  function ContactVariants(f: string): (r: seq<string>)
    ensures 1 <= |r| <= 4
    ensures forall i :: 0 <= i < |r| ==> r[i] != ""
    ensures r[|r| - 1] == "0" + Slice(f, 3)
    ensures f != "" ==> r[0] == f
    ensures |f| > 3 && StartsWith(f, "+") ==> r == [f, f[1..], f[3..], "0" + f[3..]]
    ensures |f| > 3 && !StartsWith(f, "+") ==> r == [f, f, f[3..], "0" + f[3..]]
    ensures |f| <= 3 && f != "" && f != "+" ==> r == [f, DropPrefix(f, "+"), "0"]
    ensures f == "" ==> r == ["0"]
    ensures f == "+" ==> r == ["+", "0"]
  {
    var xs := [f, DropPrefix(f, "+"), Slice(f, 3), "0" + Slice(f, 3)];
    if |f| > 3 then
      NonEmptyKeepsFull(xs);
      NonEmpty(xs)
    else
      ShortVariants(f, xs);
      NonEmpty(xs)
  }

  /** For a number of at most three characters the third token is empty
      and the last is "0" alone. */
  lemma ShortVariants(f: string, xs: seq<string>)
    requires |f| <= 3 && xs == [f, DropPrefix(f, "+"), Slice(f, 3), "0" + Slice(f, 3)]
    ensures f == "" ==> NonEmpty(xs) == ["0"]
    ensures f == "+" ==> NonEmpty(xs) == ["+", "0"]
    ensures f != "" && f != "+" ==> NonEmpty(xs) == [f, DropPrefix(f, "+"), "0"]
  {
    var p := DropPrefix(f, "+");
    assert xs == [f, p, "", "0"] by {
      assert Slice(f, 3) == "";
      assert "0" + Slice(f, 3) == "0";
    }
    FilterTwoThenZero(f, p);
    if f == "+" {
      assert StartsWith(f, "+") && "+" + p == f;
    } else if f != "" && StartsWith(f, "+") {
      assert "+" + p == f;
    }
  }

  lemma FilterTwoThenZero(a: string, b: string)
    ensures NonEmpty([a, b, "", "0"]) == Kept(a) + Kept(b) + ["0"]
  {
    var xs := [a, b, "", "0"];
    assert xs[1..] == [b, "", "0"] && [b, "", "0"][1..] == ["", "0"] && ["", "0"][1..] == ["0"] && ["0"][1..] == [];
    NonEmptyCons(["0"]);
    NonEmptyCons(["", "0"]);
    NonEmptyCons([b, "", "0"]);
    NonEmptyCons(xs);
    assert NonEmpty(["", "0"]) == ["0"];
    ConcatAssoc(Kept(a), Kept(b), ["0"]);
  }

  /** For the E.164 form of a Turkish mobile number the variants are the
      international, country-code, bare and national forms. */
  lemma VariantsOfTurkishNumber(n: string)
    requires TurkishMobile(n)
    ensures ContactVariants("+90" + n) == ["+90" + n, "90" + n, n, "0" + n]
  {
    var f := "+90" + n;
    assert DropPrefix(f, "+") == "90" + n by {
      assert StartsWith(f, "+");
      assert f[1..] == "90" + n;
    }
    assert Slice(f, 3) == n by {
      assert f[3..] == n;
    }
    assert NonEmpty([f, "90" + n, n, "0" + n]) == [f, "90" + n, n, "0" + n] by {
      var xs := [f, "90" + n, n, "0" + n];
      assert xs[1..][1..][1..][1..] == [];
      assert NonEmpty(xs[1..][1..][1..]) == ["0" + n];
      assert NonEmpty(xs[1..][1..]) == [n, "0" + n];
      assert NonEmpty(xs[1..]) == ["90" + n, n, "0" + n];
    }
  }

  /** Every variant searched for a Turkish mobile number normalizes back to
      the number it was derived from. */
  lemma VariantsNormalizeBack(lib: PhoneLib, n: string)
    requires TurkishMobile(n) && KnowsTurkishNumber(lib, n)
    ensures var vs := ContactVariants("+90" + n);
            forall i :: 0 <= i < |vs| ==> Normalize(lib, vs[i]) == Some("+90" + n)
  {
    VariantsOfTurkishNumber(n);
    TurkishFormsAgree(lib, n);
    var norm := x => Normalize(lib, x);
    AllMapTo(norm, ContactVariants("+90" + n), "+90" + n, "90" + n, n, "0" + n, "+90" + n);
  }

  /** A function that maps each of four texts to `e` maps every entry of
      their sequence to `e`. */
  lemma AllMapTo(f: string -> Option<string>, vs: seq<string>, a: string, b: string, c: string, d: string, e: string)
    requires vs == [a, b, c, d]
    requires f(a) == Some(e) && f(b) == Some(e) && f(c) == Some(e) && f(d) == Some(e)
    ensures forall i :: 0 <= i < |vs| ==> f(vs[i]) == Some(e)
  {
  }

  /** The contact searches for the tokens `vs`, in order. */
  function Queries(vs: seq<string>, withCompanies: bool): (r: seq<Request>)
    ensures |r| == |vs|
    ensures forall i :: 0 <= i < |vs| ==> r[i] == ContactSearch(vs[i], withCompanies)
  {
    seq(|vs|, i requires 0 <= i < |vs| => ContactSearch(vs[i], withCompanies))
  }

  lemma QueriesCons(vs: seq<string>, wc: bool)
    requires vs != []
    ensures Queries(vs, wc) == [ContactSearch(vs[0], wc)] + Queries(vs[1..], wc)
  {
    assert forall i :: 1 <= i < |vs| ==> Queries(vs, wc)[i] == Queries(vs[1..], wc)[i - 1];
  }

  /** A search answer that ends the walk over the variants: an error, or a
      reported total above zero. */
  predicate Decisive(a: Result<Page<Contact>, Failure>) {
    a.Err? || a.value.total > 0
  }

  /** What a decisive answer makes of the lookup: the error, the first
      result, or the TypeError of reading a first result that is missing. */
  function Conclude(a: Result<Page<Contact>, Failure>): Result<Option<Contact>, Failure>
    requires Decisive(a)
  {
    match a
    case Err(e) => Err(e)
    case Ok(p) => if |p.results| > 0 then Ok(Some(p.results[0])) else Err(MissingResult)
  }

  /** The answer to the search for the `k`-th token after history `h`. */
  function AnswerAt(crm: Service, h: seq<Request>, vs: seq<string>, wc: bool, k: int): Result<Page<Contact>, Failure>
    requires 0 <= k < |vs|
  {
    crm.searchContacts(h + Queries(vs, wc)[..k + 1])
  }

  /** The answer to the (k+1)-th search is the answer to the k-th search
      of the rest once the first token has been searched. */
  lemma ShiftAnswer(crm: Service, h: seq<Request>, vs: seq<string>, wc: bool, k: nat)
    requires k < |vs| - 1
    ensures AnswerAt(crm, h, vs, wc, k + 1) == AnswerAt(crm, h + [ContactSearch(vs[0], wc)], vs[1..], wc, k)
  {
    QueriesPrefix(h, vs, wc, k + 1);
  }

  lemma ShiftAnswers(crm: Service, h: seq<Request>, vs: seq<string>, wc: bool)
    requires |vs| >= 1
    ensures Queries(vs, wc) == [ContactSearch(vs[0], wc)] + Queries(vs[1..], wc)
    ensures forall k :: 0 <= k < |vs| - 1 ==>
              AnswerAt(crm, h, vs, wc, k + 1) == AnswerAt(crm, h + [ContactSearch(vs[0], wc)], vs[1..], wc, k)
  {
    QueriesCons(vs, wc);
    forall k | 0 <= k < |vs| - 1
      ensures AnswerAt(crm, h, vs, wc, k + 1) == AnswerAt(crm, h + [ContactSearch(vs[0], wc)], vs[1..], wc, k)
    {
      ShiftAnswer(crm, h, vs, wc, k);
    }
  }

  /** The search loop of `findContactByPhone`: tokens are tried in order,
      one search each, stopping at the first decisive answer. Only searches
      for a prefix of the tokens are sent, at least one when there is a
      token, and a found contact is the first result of the last answer. */
  function SearchVariants(crm: Service, h: seq<Request>, vs: seq<string>, wc: bool): (r: Trace<Result<Option<Contact>, Failure>>)
    ensures |h| <= |r.history| <= |h| + |vs|
    ensures vs != [] ==> |r.history| > |h|
    ensures r.history == h + Queries(vs, wc)[..|r.history| - |h|]
    ensures r.out.Ok? && r.out.value.Some? ==>
              var a := crm.searchContacts(r.history);
              a.Ok? && a.value.total > 0 && |a.value.results| > 0 && a.value.results[0] == r.out.value.value
    decreases |vs|
  {
    if vs == [] then Trace(Ok(None), h)
    else
      var h1 := h + [ContactSearch(vs[0], wc)];
      var a := crm.searchContacts(h1);
      if Decisive(a) then
        RestPrefix(h, vs, wc, h1);
        Trace(Conclude(a), h1)
      else
        var r := SearchVariants(crm, h1, vs[1..], wc);
        RestPrefix(h, vs, wc, r.history);
        r
  }

  /** Against a CRM in good order the search loop raises nothing. */
  lemma {:induction false} SearchVariantsAnswered(crm: Service, h: seq<Request>, vs: seq<string>, wc: bool)
    ensures AnswersWell(crm) ==> SearchVariants(crm, h, vs, wc).out.Ok?
    decreases |vs|
  {
    if vs != [] {
      var h1 := h + [ContactSearch(vs[0], wc)];
      if !Decisive(crm.searchContacts(h1)) {
        SearchVariantsAnswered(crm, h1, vs[1..], wc);
      }
    }
  }

  /** Searching the first token and then a prefix of the rest is searching
      a prefix of all tokens. */
  lemma QueriesPrefix(h: seq<Request>, vs: seq<string>, wc: bool, m: nat)
    requires m < |vs|
    ensures (h + [ContactSearch(vs[0], wc)]) + Queries(vs[1..], wc)[..m] == h + Queries(vs, wc)[..m + 1]
  {
    QueriesCons(vs, wc);
    assert Queries(vs, wc)[..m + 1] == [ContactSearch(vs[0], wc)] + Queries(vs[1..], wc)[..m];
  }

  /** The first token's search followed by searches for a prefix of the
      rest is a prefix of all searches. */
  lemma RestPrefix(h: seq<Request>, vs: seq<string>, wc: bool, hs: seq<Request>)
    requires vs != []
    requires |h| + 1 <= |hs| <= |h| + |vs|
    requires hs == (h + [ContactSearch(vs[0], wc)]) + Queries(vs[1..], wc)[..|hs| - |h| - 1]
    ensures hs == h + Queries(vs, wc)[..|hs| - |h|]
  {
    QueriesPrefix(h, vs, wc, |hs| - |h| - 1);
  }

  /** The first decisive answer decides the outcome of the search loop,
      and no token after it is searched. */
  lemma {:induction false} SearchStopsAtFirstDecisive(crm: Service, h: seq<Request>, vs: seq<string>, wc: bool, k: int)
    requires 0 <= k < |vs| && Decisive(AnswerAt(crm, h, vs, wc, k))
    requires forall j :: 0 <= j < k ==> !Decisive(AnswerAt(crm, h, vs, wc, j))
    ensures SearchVariants(crm, h, vs, wc).out == Conclude(AnswerAt(crm, h, vs, wc, k))
    ensures |SearchVariants(crm, h, vs, wc).history| == |h| + k + 1
    decreases k
  {
    var h1 := h + [ContactSearch(vs[0], wc)];
    ShiftAnswers(crm, h, vs, wc);
    assert AnswerAt(crm, h, vs, wc, 0) == crm.searchContacts(h1);
    if k > 0 {
      assert !Decisive(AnswerAt(crm, h, vs, wc, 0));
      forall j | 0 <= j < k - 1
        ensures !Decisive(AnswerAt(crm, h1, vs[1..], wc, j))
      {
        assert !Decisive(AnswerAt(crm, h, vs, wc, j + 1));
      }
      SearchStopsAtFirstDecisive(crm, h1, vs[1..], wc, k - 1);
    }
  }

  /** After an answer that is not decisive the loop goes on with the
      next token. */
  lemma SearchMovesOn(crm: Service, h: seq<Request>, vs: seq<string>, wc: bool)
    requires vs != [] && !Decisive(crm.searchContacts(h + [ContactSearch(vs[0], wc)]))
    ensures SearchVariants(crm, h, vs, wc) == SearchVariants(crm, h + [ContactSearch(vs[0], wc)], vs[1..], wc)
  {
  }

  /** When no answer is decisive, every token is searched and no contact
      is found. */
  lemma {:induction false} SearchExhausted(crm: Service, h: seq<Request>, vs: seq<string>, wc: bool)
    requires forall j :: 0 <= j < |vs| ==> !Decisive(AnswerAt(crm, h, vs, wc, j))
    ensures SearchVariants(crm, h, vs, wc) == Trace(Ok(None), h + Queries(vs, wc))
    decreases |vs|
  {
    if vs != [] {
      var h1 := h + [ContactSearch(vs[0], wc)];
      ShiftAnswers(crm, h, vs, wc);
      assert AnswerAt(crm, h, vs, wc, 0) == crm.searchContacts(h1);
      SearchMovesOn(crm, h, vs, wc);
      forall j | 0 <= j < |vs| - 1
        ensures !Decisive(AnswerAt(crm, h1, vs[1..], wc, j))
      {
        assert !Decisive(AnswerAt(crm, h, vs, wc, j + 1));
      }
      SearchExhausted(crm, h1, vs[1..], wc);
      assert h1 + Queries(vs[1..], wc) == h + Queries(vs, wc);
    }
  }

  /** Every request is a contact search, with or without the company
      associations as `wc` says. */
  predicate OnlySearches(reqs: seq<Request>, wc: bool) {
    forall i :: 0 <= i < |reqs| ==> reqs[i].ContactSearch? && reqs[i].withCompanies == wc
  }

  /** What a search loop appended to `h` is a prefix of the searches for
      the tokens, all contact searches. */
  lemma SearchedTail(h: seq<Request>, hs: seq<Request>, vs: seq<string>, wc: bool)
    requires |h| <= |hs| <= |h| + |vs| && hs == h + Queries(vs, wc)[..|hs| - |h|]
    ensures hs[|h|..] == Queries(vs, wc)[..|hs| - |h|]
    ensures OnlySearches(hs[|h|..], wc)
  {
  }

  /** The search loop with its `catch`: the error of a search is logged
      under `findContactByPhone` and raised. */
  function SearchAndLog(crm: Service, s: Session, vs: seq<string>, wc: bool): (r: Step<Result<Option<Contact>, Failure>>)
    requires vs != []
    ensures Extends(s, r.session)
    ensures OnlySearches(NewRequests(s, r.session), wc)
    ensures |s.history| < |r.session.history| <= |s.history| + |vs|
    ensures NewRequests(s, r.session) == Queries(vs, wc)[..|r.session.history| - |s.history|]
    ensures r.out.Ok? ==> r.session.log == s.log
    ensures r.out.Err? ==> r.session.log == s.log + [LogEntry("findContactByPhone", r.out.error)]
    ensures r.out.Ok? && r.out.value.Some? ==>
              var a := crm.searchContacts(r.session.history);
              a.Ok? && a.value.total > 0 && |a.value.results| > 0 && a.value.results[0] == r.out.value.value
  {
    var t := SearchVariants(crm, s.history, vs, wc);
    SearchedTail(s.history, t.history, vs, wc);
    var searched := Session(t.history, s.log);
    Step(t.out, if t.out.Err? then LogError(searched, "findContactByPhone", t.out.error) else searched)
  }

  /** `findContactByPhone` once the number has been normalized to `f`:
      nothing is sent when `f` is null or ""; otherwise only contact
      searches for a non-empty prefix of its variants are sent, a found
      contact is the first result of the last answer, and an error is
      logged once under the method's name and raised. */
  function SearchByNormalized(crm: Service, s: Session, f: Option<string>, wc: bool): (r: Step<Result<Option<Contact>, Failure>>)
    ensures Extends(s, r.session)
    ensures OnlySearches(NewRequests(s, r.session), wc)
    ensures !Truthy(f) ==> r == Step(Ok(None), s)
    ensures Truthy(f) ==>
              |s.history| < |r.session.history| <= |s.history| + |ContactVariants(f.value)|
              && NewRequests(s, r.session) == Queries(ContactVariants(f.value), wc)[..|r.session.history| - |s.history|]
    ensures r.out.Ok? ==> r.session.log == s.log
    ensures r.out.Err? ==> r.session.log == s.log + [LogEntry("findContactByPhone", r.out.error)]
    ensures r.out.Ok? && r.out.value.Some? ==>
              var a := crm.searchContacts(r.session.history);
              a.Ok? && a.value.total > 0 && |a.value.results| > 0 && a.value.results[0] == r.out.value.value
  {
    if !Truthy(f) then Step(Ok(None), s)
    else SearchAndLog(crm, s, ContactVariants(f.value), wc)
  }

  /** `findContactByPhone`: the search above, for the normalized form of
      the raw number. */
  function FindContactByPhone(lib: PhoneLib, crm: Service, s: Session, raw: string, wc: bool): (r: Step<Result<Option<Contact>, Failure>>)
    ensures Extends(s, r.session)
    ensures OnlySearches(NewRequests(s, r.session), wc)
    ensures !Truthy(Normalize(lib, raw)) ==> r == Step(Ok(None), s)
    ensures r.out.Ok? ==> r.session.log == s.log
    ensures r.out.Err? ==> r.session.log == s.log + [LogEntry("findContactByPhone", r.out.error)]
    ensures AnswersWell(crm) ==> r.out.Ok?
    ensures r == SearchByNormalized(crm, s, Normalize(lib, raw), wc)
  {
    var f := Normalize(lib, raw);
    if Truthy(f) then
      SearchVariantsAnswered(crm, s.history, ContactVariants(f.value), wc);
      SearchByNormalized(crm, s, f, wc)
    else SearchByNormalized(crm, s, f, wc)
  }

  /** `findCallByUUID`: one call search for the UUID (an absent UUID
      leaves the filter without a value, since serializing the request
      body drops it); true exactly when it succeeds with a total above
      zero. A failed search is logged and reads as "not found". */
  function FindCallByUuid(crm: Service, s: Session, uuid: Option<string>): (r: Step<bool>)
    ensures r.session.history == s.history + [CallSearch(uuid)]
    ensures var a := crm.searchCalls(r.session.history);
            (r.out <==> a.Ok? && a.value.total > 0)
            && (a.Ok? ==> r.session.log == s.log)
            && (a.Err? ==> r.session.log == s.log + [LogEntry("findCallByUUID", a.error)])
  {
    var h := s.history + [CallSearch(uuid)];
    match crm.searchCalls(h)
    case Err(e) => Step(false, LogError(Session(h, s.log), "findCallByUUID", e))
    case Ok(p) => Step(p.total > 0, Session(h, s.log))
  }

  /** `getContactWithAssociations`: one read; a failure is logged and
      reads as "no contact". */
  function GetContactWithAssociations(crm: Service, s: Session, id: string): (r: Step<Option<Contact>>)
    ensures r.session.history == s.history + [ContactRead(id)]
    ensures var a := crm.readContact(r.session.history);
            (a.Ok? ==> r.out == Some(a.value) && r.session.log == s.log)
            && (a.Err? ==> r.out == None && r.session.log == s.log + [LogEntry("getContactWithAssociations", a.error)])
  {
    var h := s.history + [ContactRead(id)];
    match crm.readContact(h)
    case Err(e) => Step(None, LogError(Session(h, s.log), "getContactWithAssociations", e))
    case Ok(c) => Step(Some(c), Session(h, s.log))
  }

  /** `getCompanyById`: one read; a failure is logged and reads as
      "no company". */
  function GetCompanyById(crm: Service, s: Session, id: string): (r: Step<Option<Company>>)
    ensures r.session.history == s.history + [CompanyRead(id)]
    ensures var a := crm.readCompany(r.session.history);
            (a.Ok? ==> r.out == Some(a.value) && r.session.log == s.log)
            && (a.Err? ==> r.out == None && r.session.log == s.log + [LogEntry("getCompanyById", a.error)])
  {
    var h := s.history + [CompanyRead(id)];
    match crm.readCompany(h)
    case Err(e) => Step(None, LogError(Session(h, s.log), "getCompanyById", e))
    case Ok(c) => Step(Some(c), Session(h, s.log))
  }
}
