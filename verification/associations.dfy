/** Linking CRM objects (src/hubspot-associations.helper.ts): inputs are
    grouped by their pair of object types, each group is sent in batches of
    at most 100, and each batch falls back from the typed batch endpoint to
    the default batch endpoint to one request per pair. */
module Associations {
  import opened Base
  import opened Text
  import opened Crm

  /** One association to create (`AssociationInput`). */
  datatype AssociationInput = AssociationInput(fromType: string, toType: string, fromId: string, toId: string, assocType: string)

  /** The pair of object types an input links. */
  datatype TypePair = TypePair(fromType: string, toType: string)

  /** The inputs of one pair of object types, in input order. */
  datatype Group = Group(types: TypePair, items: seq<AssociationInput>)

  /** One request's worth of inputs, all of the same pair of types. */
  datatype Batch = Batch(types: TypePair, items: seq<AssociationInput>)

  const BatchSize: nat := 100
  const DefinedCategory := "HUBSPOT_DEFINED"

  function Types(a: AssociationInput): TypePair {
    TypePair(a.fromType, a.toType)
  }

  function Pair(a: AssociationInput): IdPair {
    IdPair(a.fromId, a.toId)
  }

  /** The inputs of `xs` with the given pair of types, in order. */
  function OfTypes(xs: seq<AssociationInput>, t: TypePair): (r: seq<AssociationInput>)
    ensures forall y :: y in r <==> y in xs && Types(y) == t
  {
    if xs == [] then []
    else
      var last := xs[|xs| - 1];
      assert xs == xs[..|xs| - 1] + [last];
      OfTypes(xs[..|xs| - 1], t) + (if Types(last) == t then [last] else [])
  }

  lemma OfTypesSnoc(xs: seq<AssociationInput>, x: AssociationInput, t: TypePair)
    ensures OfTypes(xs + [x], t) == OfTypes(xs, t) + (if Types(x) == t then [x] else [])
  {
    var ys := xs + [x];
    assert ys[..|ys| - 1] == xs;
  }

  /** The inputs of all groups, group after group. */
  function AllItems(gs: seq<Group>): seq<AssociationInput> {
    if gs == [] then [] else gs[0].items + AllItems(gs[1..])
  }

  /** The position of the group for `t`, or `|gs|` when there is none. */
  function FindGroup(gs: seq<Group>, t: TypePair): (i: nat)
    ensures i <= |gs|
    ensures i < |gs| ==> gs[i].types == t
    ensures forall j :: 0 <= j < i ==> gs[j].types != t
  {
    if gs == [] then 0
    else if gs[0].types == t then 0
    else 1 + FindGroup(gs[1..], t)
  }

  lemma {:induction false} FindGroupBound(gs: seq<Group>, t: TypePair, j: nat)
    requires j < |gs| && gs[j].types == t
    ensures FindGroup(gs, t) <= j
  {
    if gs[0].types != t {
      FindGroupBound(gs[1..], t, j - 1);
    }
  }

  lemma {:induction false} AllItemsAppend(a: seq<Group>, b: seq<Group>)
    ensures AllItems(a + b) == AllItems(a) + AllItems(b)
  {
    if a != [] {
      assert (a + b)[1..] == a[1..] + b;
      AllItemsAppend(a[1..], b);
    } else {
      assert a + b == b;
    }
  }

  /** Replacing one group replaces its inputs in the concatenation. */
  lemma AllItemsUpdate(gs: seq<Group>, i: nat, g: Group)
    requires i < |gs|
    ensures AllItems(gs) == AllItems(gs[..i]) + gs[i].items + AllItems(gs[i + 1..])
    ensures AllItems(gs[i := g]) == AllItems(gs[..i]) + g.items + AllItems(gs[i + 1..])
  {
    assert gs == gs[..i] + ([gs[i]] + gs[i + 1..]);
    assert gs[i := g] == gs[..i] + ([g] + gs[i + 1..]);
    AllItemsAppend(gs[..i], [gs[i]] + gs[i + 1..]);
    AllItemsAppend(gs[..i], [g] + gs[i + 1..]);
    assert ([gs[i]] + gs[i + 1..])[1..] == gs[i + 1..];
    assert ([g] + gs[i + 1..])[1..] == gs[i + 1..];
  }

  /** One step of the `reduce`: `x` joins the group of its types, or opens
      a new group at the end. The groups keep their types and order, and
      hold the inputs they held and `x`. */
  function AddToGroups(gs: seq<Group>, x: AssociationInput): (r: seq<Group>)
    ensures |gs| <= |r| <= |gs| + 1
    ensures forall i :: 0 <= i < |gs| ==> r[i].types == gs[i].types
    ensures multiset(AllItems(r)) == multiset(AllItems(gs)) + multiset{x}
  {
    var i := FindGroup(gs, Types(x));
    if i < |gs| then
      var g := Group(gs[i].types, gs[i].items + [x]);
      AllItemsUpdate(gs, i, g);
      gs[i := g]
    else
      var g := Group(Types(x), [x]);
      AllItemsAppend(gs, [g]);
      assert AllItems([g]) == [x];
      gs + [g]
  }

  /** Each group holds the inputs of its pair of types, in order, and is
      not empty. */
  predicate ItemsMatch(gs: seq<Group>, xs: seq<AssociationInput>) {
    forall i :: 0 <= i < |gs| ==> gs[i].items == OfTypes(xs, gs[i].types) && gs[i].items != []
  }

  /** No pair of types has two groups. */
  predicate DistinctTypes(gs: seq<Group>) {
    forall i, j :: 0 <= i < j < |gs| ==> gs[i].types != gs[j].types
  }

  /** Every input's pair of types has a group. */
  predicate Covers(gs: seq<Group>, xs: seq<AssociationInput>) {
    forall x :: x in xs ==> FindGroup(gs, Types(x)) < |gs|
  }

  /** The groups are exactly the inputs split by pair of types: one group
      per pair that occurs, no group twice, each holding the inputs of its
      pair in order. */
  predicate GroupedBy(gs: seq<Group>, xs: seq<AssociationInput>) {
    ItemsMatch(gs, xs) && DistinctTypes(gs) && Covers(gs, xs)
  }

  /** A pair of types that some input has has a group. */
  lemma GroupOfPresent(gs: seq<Group>, xs: seq<AssociationInput>, t: TypePair)
    requires Covers(gs, xs)
    ensures OfTypes(xs, t) != [] ==> FindGroup(gs, t) < |gs|
  {
    if OfTypes(xs, t) != [] {
      var y := OfTypes(xs, t)[0];
      assert y in OfTypes(xs, t);
      assert y in xs && Types(y) == t;
    }
  }

  lemma NoInputsWithoutGroup(gs: seq<Group>, xs: seq<AssociationInput>, t: TypePair)
    requires Covers(gs, xs) && FindGroup(gs, t) == |gs|
    ensures OfTypes(xs, t) == []
  {
    GroupOfPresent(gs, xs, t);
  }

  lemma AddKeepsItems(gs: seq<Group>, xs: seq<AssociationInput>, x: AssociationInput)
    requires GroupedBy(gs, xs)
    ensures ItemsMatch(AddToGroups(gs, x), xs + [x])
  {
    var r := AddToGroups(gs, x);
    var k := FindGroup(gs, Types(x));
    forall i | 0 <= i < |r|
      ensures r[i].items == OfTypes(xs + [x], r[i].types) && r[i].items != []
    {
      OfTypesSnoc(xs, x, r[i].types);
      if i == k {
        if k == |gs| {
          NoInputsWithoutGroup(gs, xs, Types(x));
        }
      } else {
        assert r[i] == gs[i];
        assert i < k || gs[k].types != gs[i].types;
      }
    }
  }

  lemma AddKeepsDistinct(gs: seq<Group>, x: AssociationInput)
    requires DistinctTypes(gs)
    ensures DistinctTypes(AddToGroups(gs, x))
  {
    var r := AddToGroups(gs, x);
    assert forall i :: 0 <= i < |gs| ==> r[i].types == gs[i].types;
  }

  lemma AddKeepsCovers(gs: seq<Group>, xs: seq<AssociationInput>, x: AssociationInput)
    requires Covers(gs, xs)
    ensures Covers(AddToGroups(gs, x), xs + [x])
  {
    var r := AddToGroups(gs, x);
    var k := FindGroup(gs, Types(x));
    forall y | y in xs + [x]
      ensures FindGroup(r, Types(y)) < |r|
    {
      if y in xs {
        var j := FindGroup(gs, Types(y));
        assert r[j].types == Types(y);
        FindGroupBound(r, Types(y), j);
      } else {
        assert r[k].types == Types(x);
        FindGroupBound(r, Types(y), k);
      }
    }
  }

  /** The `reduce` that groups the inputs: every input lands in the group
      of its pair of types, each exactly once. */
  function GroupInputs(xs: seq<AssociationInput>): (r: seq<Group>)
    ensures multiset(AllItems(r)) == multiset(xs)
  {
    if xs == [] then []
    else
      var init := xs[..|xs| - 1];
      assert init + [xs[|xs| - 1]] == xs;
      AddToGroups(GroupInputs(init), xs[|xs| - 1])
  }

  /** The groups are the inputs split by pair of types. */
  lemma {:induction false} GroupInputsGroups(xs: seq<AssociationInput>)
    ensures GroupedBy(GroupInputs(xs), xs)
  {
    if xs != [] {
      var init := xs[..|xs| - 1];
      var x := xs[|xs| - 1];
      assert init + [x] == xs;
      GroupInputsGroups(init);
      var gs := GroupInputs(init);
      AddKeepsItems(gs, init, x);
      AddKeepsDistinct(gs, x);
      AddKeepsCovers(gs, init, x);
    }
  }

  /** Concatenation of a sequence of sequences. */
  function Flatten<T>(xss: seq<seq<T>>): seq<T> {
    if xss == [] then [] else xss[0] + Flatten(xss[1..])
  }

  /** The slices `items.slice(i, i + n)` for `i = 0, n, 2n, ...`: together
      they are `items`; each holds between 1 and `n` items and only the last
      may hold fewer than `n`. */
  function Chunks<T>(items: seq<T>, n: nat): (r: seq<seq<T>>)
    requires n > 0
    ensures Flatten(r) == items
    ensures forall i :: 0 <= i < |r| ==> 1 <= |r[i]| <= n
    ensures forall i :: 0 <= i < |r| - 1 ==> |r[i]| == n
    decreases |items|
  {
    if items == [] then []
    else if |items| <= n then
      assert Flatten([items]) == items + Flatten([items][1..]);
      [items]
    else
      var rest := Chunks(items[n..], n);
      var r := [items[..n]] + rest;
      assert r[1..] == rest;
      assert items == items[..n] + items[n..];
      r
  }

  /** The batches of one group. */
  function GroupBatches(g: Group): (r: seq<Batch>)
    ensures forall i :: 0 <= i < |r| ==> r[i].types == g.types && 1 <= |r[i].items| <= BatchSize
    ensures BatchItems(r) == g.items
  {
    var cs := Chunks(g.items, BatchSize);
    var r := seq(|cs|, i requires 0 <= i < |cs| => Batch(g.types, cs[i]));
    BatchItemsOfChunks(g.types, cs, r);
    r
  }

  lemma {:induction false} BatchItemsOfChunks(t: TypePair, cs: seq<seq<AssociationInput>>, r: seq<Batch>)
    requires |r| == |cs| && forall i :: 0 <= i < |cs| ==> r[i] == Batch(t, cs[i])
    ensures BatchItems(r) == Flatten(cs)
  {
    if cs != [] {
      BatchItemsOfChunks(t, cs[1..], r[1..]);
    }
  }

  /** The inputs of all batches, batch after batch. */
  function BatchItems(bs: seq<Batch>): seq<AssociationInput> {
    if bs == [] then [] else bs[0].items + BatchItems(bs[1..])
  }

  lemma {:induction false} BatchItemsAppend(a: seq<Batch>, b: seq<Batch>)
    ensures BatchItems(a + b) == BatchItems(a) + BatchItems(b)
  {
    if a == [] {
      assert a + b == b;
    } else {
      assert (a + b)[1..] == a[1..] + b;
      BatchItemsAppend(a[1..], b);
    }
  }

  /** The batches of all groups, group after group: every batch holds 1 to
      100 inputs of one pair of types, and together they hold the groups'
      inputs in order. */
  function PlanBatches(gs: seq<Group>): (r: seq<Batch>)
    ensures forall i :: 0 <= i < |r| ==> 1 <= |r[i].items| <= BatchSize
    ensures forall i :: 0 <= i < |r| ==> exists j :: 0 <= j < |gs| && r[i].types == gs[j].types
    ensures BatchItems(r) == AllItems(gs)
  {
    if gs == [] then []
    else
      var first := GroupBatches(gs[0]);
      var rest := PlanBatches(gs[1..]);
      PlanBatchesStep(gs, first, rest);
      first + rest
  }

  /** The batches of the first group followed by those of the others keep
      the promises of `PlanBatches`. */
  lemma {:induction false} PlanBatchesStep(gs: seq<Group>, first: seq<Batch>, rest: seq<Batch>)
    requires gs != []
    requires forall i :: 0 <= i < |first| ==> first[i].types == gs[0].types && 1 <= |first[i].items| <= BatchSize
    requires BatchItems(first) == gs[0].items
    requires forall i :: 0 <= i < |rest| ==> 1 <= |rest[i].items| <= BatchSize
    requires forall i :: 0 <= i < |rest| ==> exists j :: 0 <= j < |gs[1..]| && rest[i].types == gs[1..][j].types
    requires BatchItems(rest) == AllItems(gs[1..])
    ensures var r := first + rest;
            && (forall i :: 0 <= i < |r| ==> 1 <= |r[i].items| <= BatchSize)
            && (forall i :: 0 <= i < |r| ==> exists j :: 0 <= j < |gs| && r[i].types == gs[j].types)
            && BatchItems(r) == AllItems(gs)
  {
    var r := first + rest;
    BatchItemsAppend(first, rest);
    assert AllItems(gs) == gs[0].items + AllItems(gs[1..]);
    forall i | 0 <= i < |r|
      ensures 1 <= |r[i].items| <= BatchSize
      ensures exists j :: 0 <= j < |gs| && r[i].types == gs[j].types
    {
      if i < |first| {
        assert r[i] == first[i] && r[i].types == gs[0].types;
      } else {
        var k := i - |first|;
        assert r[i] == rest[k];
        var j :| 0 <= j < |gs| - 1 && rest[k].types == gs[1..][j].types;
        assert r[i].types == gs[j + 1].types;
      }
    }
  }

  /** Grouping and batching neither drops nor repeats an input, and every
      batch is within the size limit and of a single pair of types. */
  lemma BatchesCoverInputs(xs: seq<AssociationInput>)
    ensures var bs := PlanBatches(GroupInputs(xs));
            && multiset(BatchItems(bs)) == multiset(xs)
            && (forall i :: 0 <= i < |bs| ==> 1 <= |bs[i].items| <= BatchSize)
            && (forall i, x :: 0 <= i < |bs| && x in bs[i].items ==> Types(x) == bs[i].types)
  {
    var gs := GroupInputs(xs);
    var bs := PlanBatches(gs);
    GroupInputsGroups(xs);
    forall i, x | 0 <= i < |bs| && x in bs[i].items
      ensures Types(x) == bs[i].types
    {
      var j :| 0 <= j < |gs| && bs[i].types == gs[j].types;
      BatchHomogeneous(gs, xs, i, x);
    }
  }

  lemma {:induction false} BatchHomogeneous(gs: seq<Group>, xs: seq<AssociationInput>, i: int, x: AssociationInput)
    requires forall k :: 0 <= k < |gs| ==> gs[k].items == OfTypes(xs, gs[k].types)
    requires 0 <= i < |PlanBatches(gs)| && x in PlanBatches(gs)[i].items
    ensures Types(x) == PlanBatches(gs)[i].types
    decreases |gs|
  {
    var first := GroupBatches(gs[0]);
    var rest := PlanBatches(gs[1..]);
    assert PlanBatches(gs) == first + rest;
    if i < |first| {
      var c := first[i];
      assert c.types == gs[0].types;
      assert x in BatchItems(first) by {
        InBatchItems(first, i, x);
      }
      assert x in gs[0].items;
    } else {
      assert PlanBatches(gs)[i] == rest[i - |first|];
      BatchHomogeneous(gs[1..], xs, i - |first|, x);
    }
  }

  lemma {:induction false} InBatchItems(bs: seq<Batch>, i: int, x: AssociationInput)
    requires 0 <= i < |bs| && x in bs[i].items
    ensures x in BatchItems(bs)
  {
    if i > 0 {
      InBatchItems(bs[1..], i - 1, x);
    }
  }

  /** JavaScript's `parseInt` for a decimal text: leading white space and a
      sign are skipped and the longest run of digits is read; None is NaN.
      A "0x" prefix is read as the digit 0, not as hexadecimal. */
  function ParseInt(s: string): (r: Option<int>)
    ensures |s| >= 1 && AllDigits(s) ==> r == Some(DecimalValue(s))
  {
    var t := s[LeadingSpace(s)..];
    var negative := |t| > 0 && t[0] == '-';
    var u := if |t| > 0 && (t[0] == '-' || t[0] == '+') then t[1..] else t;
    var k := DigitRun(u);
    var value: int := DecimalValue(u[..k]);
    assert |s| >= 1 && AllDigits(s) ==> LeadingSpace(s) == 0 && u == s && k == |s| && u[..k] == s by {
      if |s| >= 1 && AllDigits(s) {
        assert !IsJsSpace(s[0]) && !IsDigit(s[0]) ==> false;
      }
    }
    if k == 0 then None
    else if negative then Some(-value)
    else Some(value)
  }

  /** The number of digits `s` starts with. */
  function DigitRun(s: string): (k: nat)
    ensures k <= |s| && AllDigits(s[..k])
    ensures k == |s| || !IsDigit(s[k])
  {
    if |s| > 0 && IsDigit(s[0]) then
      var k := 1 + DigitRun(s[1..]);
      assert s[..k] == [s[0]] + s[1..][..k - 1];
      k
    else 0
  }

  /** The association type texts this system sends parse to their numbers. */
  lemma ParseAssociationTypes()
    ensures ParseInt("219") == Some(219) && ParseInt("220") == Some(220)
  {
    assert AllDigits("219") && DecimalValue("219") == 219 by {
      assert "219"[..2] == "21" && "21"[..1] == "2";
    }
    assert AllDigits("220") && DecimalValue("220") == 220 by {
      assert "220"[..2] == "22" && "22"[..1] == "2";
    }
  }

  /** The inputs of the typed batch request for `items`. */
  function TypedInputs(items: seq<AssociationInput>): (r: seq<TypedInput>)
    ensures |r| == |items|
    ensures forall i :: 0 <= i < |items| ==> r[i] == TypedInput(Pair(items[i]), DefinedCategory, ParseInt(items[i].assocType))
  {
    seq(|items|, i requires 0 <= i < |items| => TypedInput(Pair(items[i]), DefinedCategory, ParseInt(items[i].assocType)))
  }

  function Pairs(items: seq<AssociationInput>): (r: seq<IdPair>)
    ensures |r| == |items| && forall i :: 0 <= i < |items| ==> r[i] == Pair(items[i])
  {
    seq(|items|, i requires 0 <= i < |items| => Pair(items[i]))
  }

  /** The individual requests for `items`, in order. */
  function Singles(t: TypePair, items: seq<AssociationInput>): (r: seq<Request>)
    ensures |r| == |items|
    ensures forall i :: 0 <= i < |items| ==> r[i] == DefaultSingle(t.fromType, t.toType, Pair(items[i]))
  {
    seq(|items|, i requires 0 <= i < |items| => DefaultSingle(t.fromType, t.toType, Pair(items[i])))
  }

  /** The success records the individual path reports for `items`. */
  function Successes(items: seq<AssociationInput>): (r: seq<AssocResult>)
    ensures |r| == |items|
    ensures forall i :: 0 <= i < |items| ==> r[i] == AssocResult(Success, Pair(items[i]))
  {
    seq(|items|, i requires 0 <= i < |items| => AssocResult(Success, Pair(items[i])))
  }

  /** The third tier: one request per input, in order, stopping at the
      first failure, whose error is raised. Every request before the last
      one sent succeeded; on success every input is reported a success. */
  function RunSingles(crm: Service, h: seq<Request>, t: TypePair, items: seq<AssociationInput>): (r: Trace<Result<seq<AssocResult>, Failure>>)
    ensures |h| <= |r.history| <= |h| + |items|
    ensures r.history == h + Singles(t, items)[..|r.history| - |h|]
    ensures forall k :: |h| < k < |r.history| ==> crm.write(r.history[..k]).Ok?
    ensures r.out.Ok? ==> r.history == h + Singles(t, items) && r.out.value == Successes(items)
    ensures r.out.Err? ==> |r.history| > |h| && crm.write(r.history) == Err(r.out.error)
    decreases |items|
  {
    if items == [] then Trace(Ok([]), h)
    else
      var h1 := h + [DefaultSingle(t.fromType, t.toType, Pair(items[0]))];
      match crm.write(h1)
      case Err(e) =>
        assert Singles(t, items)[..1] == [DefaultSingle(t.fromType, t.toType, Pair(items[0]))];
        Trace(Err(e), h1)
      case Ok(_) =>
        var rest := RunSingles(crm, h1, t, items[1..]);
        SinglesStep(crm, h, t, items, rest.history);
        match rest.out
        case Err(e) => rest
        case Ok(rs) =>
          SuccessesCons(items);
          Trace(Ok([AssocResult(Success, Pair(items[0]))] + rs), rest.history)
  }

  lemma SinglesPrefix(h: seq<Request>, t: TypePair, items: seq<AssociationInput>, m: nat)
    requires m < |items|
    ensures (h + [DefaultSingle(t.fromType, t.toType, Pair(items[0]))]) + Singles(t, items[1..])[..m] == h + Singles(t, items)[..m + 1]
  {
    assert Singles(t, items)[..m + 1] == [DefaultSingle(t.fromType, t.toType, Pair(items[0]))] + Singles(t, items[1..])[..m];
  }

  lemma SuccessesCons(items: seq<AssociationInput>)
    requires items != []
    ensures Successes(items) == [AssocResult(Success, Pair(items[0]))] + Successes(items[1..])
  {
  }

  /** The requests after a first accepted one extend to the requests of
      all items. */
  lemma SinglesStep(crm: Service, h: seq<Request>, t: TypePair, items: seq<AssociationInput>, hs: seq<Request>)
    requires items != []
    requires crm.write(h + [DefaultSingle(t.fromType, t.toType, Pair(items[0]))]).Ok?
    requires |h| + 1 <= |hs| <= |h| + |items|
    requires hs == (h + [DefaultSingle(t.fromType, t.toType, Pair(items[0]))]) + Singles(t, items[1..])[..|hs| - |h| - 1]
    requires forall k :: |h| + 1 < k < |hs| ==> crm.write(hs[..k]).Ok?
    ensures hs == h + Singles(t, items)[..|hs| - |h|]
    ensures forall k :: |h| < k < |hs| ==> crm.write(hs[..k]).Ok?
  {
    var h1 := h + [DefaultSingle(t.fromType, t.toType, Pair(items[0]))];
    SinglesPrefix(h, t, items, |hs| - |h1|);
    assert hs[..|h1|] == h1;
  }

  lemma PrefixAnswers(crm: Service, h1: seq<Request>, hs: seq<Request>)
    requires crm.write(h1).Ok? && h1 <= hs
    ensures hs[..|h1|] == h1
  {
  }

  /** A batch answer without `results` contributes nothing. */
  function OrEmpty(rs: Option<seq<AssocResult>>): seq<AssocResult> {
    match rs
    case Some(xs) => xs
    case None => []
  }

  /** One batch: the typed batch request; only if it fails, the default
      batch request; only if that fails too, the individual requests. */
  function RunBatch(crm: Service, h: seq<Request>, b: Batch): (r: Trace<Result<seq<AssocResult>, Failure>>)
    ensures var typed := h + [TypedBatch(b.types.fromType, b.types.toType, TypedInputs(b.items))];
            var default := typed + [DefaultBatch(b.types.fromType, b.types.toType, Pairs(b.items))];
            && (crm.batch(typed).Ok? ==> r == Trace(Ok(OrEmpty(crm.batch(typed).value)), typed))
            && (crm.batch(typed).Err? && crm.batch(default).Ok? ==> r == Trace(Ok(OrEmpty(crm.batch(default).value)), default))
            && (crm.batch(typed).Err? && crm.batch(default).Err? ==> r == RunSingles(crm, default, b.types, b.items))
  {
    var typed := h + [TypedBatch(b.types.fromType, b.types.toType, TypedInputs(b.items))];
    match crm.batch(typed)
    case Ok(rs) => Trace(Ok(OrEmpty(rs)), typed)
    case Err(_) =>
      var default := typed + [DefaultBatch(b.types.fromType, b.types.toType, Pairs(b.items))];
      match crm.batch(default)
      case Ok(rs) => Trace(Ok(OrEmpty(rs)), default)
      case Err(_) => RunSingles(crm, default, b.types, b.items)
  }

  /** A request of the association endpoints. */
  predicate IsLink(q: Request) {
    q.TypedBatch? || q.DefaultBatch? || q.DefaultSingle?
  }

  /** The last request of `hs` is an individual association request and
      failed with `e`. */
  predicate FailedSingle(crm: Service, hs: seq<Request>, e: Failure) {
    |hs| > 0 && hs[|hs| - 1].DefaultSingle? && crm.write(hs) == Err(e)
  }

  /** `h2` continues `h` with association requests only. */
  predicate LinksAfter(h: seq<Request>, h2: seq<Request>) {
    |h| <= |h2| && h2[..|h|] == h && forall i :: |h| <= i < |h2| ==> IsLink(h2[i])
  }

  lemma LinksAfterTrans(h: seq<Request>, h1: seq<Request>, h2: seq<Request>)
    requires LinksAfter(h, h1) && LinksAfter(h1, h2)
    ensures LinksAfter(h, h2)
    ensures |h1| > |h| ==> h2[|h|] == h1[|h|]
  {
    assert h2[..|h|] == h2[..|h1|][..|h|];
  }

  lemma SinglesAreLinks(h: seq<Request>, t: TypePair, items: seq<AssociationInput>, hs: seq<Request>)
    requires |h| <= |hs| <= |h| + |items| && hs == h + Singles(t, items)[..|hs| - |h|]
    ensures LinksAfter(h, hs)
  {
    assert hs[..|h|] == h;
    assert forall i :: |h| <= i < |hs| ==> hs[i] == Singles(t, items)[i - |h|];
  }

  /** The individual requests are association requests, and a failure is
      the last one's. */
  lemma SinglesShape(crm: Service, h: seq<Request>, t: TypePair, items: seq<AssociationInput>)
    ensures var r := RunSingles(crm, h, t, items);
            LinksAfter(h, r.history) && (r.out.Err? ==> FailedSingle(crm, r.history, r.out.error))
  {
    var r := RunSingles(crm, h, t, items);
    SinglesAreLinks(h, t, items, r.history);
    if r.out.Err? {
      assert r.history[|r.history| - 1] == Singles(t, items)[|r.history| - 1 - |h|];
    }
  }

  /** One or two association requests after `h`. */
  lemma OneOrTwoLinks(h: seq<Request>, q1: Request, q2: Request)
    requires IsLink(q1) && IsLink(q2)
    ensures LinksAfter(h, h + [q1]) && LinksAfter(h, h + [q1] + [q2])
  {
    assert (h + [q1])[..|h|] == h;
    assert (h + [q1] + [q2])[..|h|] == h;
  }

  /** A batch sends only association requests, at least one; a failure can
      only come from an individual request, and it is the last one sent. */
  lemma RunBatchShape(crm: Service, h: seq<Request>, b: Batch)
    ensures var r := RunBatch(crm, h, b);
            && |r.history| > |h| && LinksAfter(h, r.history)
            && (r.out.Err? ==> FailedSingle(crm, r.history, r.out.error))
  {
    var typed := h + [TypedBatch(b.types.fromType, b.types.toType, TypedInputs(b.items))];
    var default := typed + [DefaultBatch(b.types.fromType, b.types.toType, Pairs(b.items))];
    OneOrTwoLinks(h, typed[|h|], default[|typed|]);
    if crm.batch(typed).Err? && crm.batch(default).Err? {
      var r := RunSingles(crm, default, b.types, b.items);
      SinglesShape(crm, default, b.types, b.items);
      LinksAfterTrans(h, default, r.history);
    }
  }

  /** All batches in order; the first error stops the whole operation and
      is raised, and the results of earlier batches are dropped. */
  function RunBatches(crm: Service, h: seq<Request>, bs: seq<Batch>): (r: Trace<Result<seq<AssocResult>, Failure>>)
    ensures LinksAfter(h, r.history)
    ensures bs != [] ==> |r.history| > |h| && r.history[|h|] == TypedBatch(bs[0].types.fromType, bs[0].types.toType, TypedInputs(bs[0].items))
    ensures r.out.Err? ==> FailedSingle(crm, r.history, r.out.error)
    decreases |bs|
  {
    if bs == [] then Trace(Ok([]), h)
    else
      var t := RunBatch(crm, h, bs[0]);
      RunBatchShape(crm, h, bs[0]);
      if t.out.Err? then Trace(Err(t.out.error), t.history)
      else
        var rest := RunBatches(crm, t.history, bs[1..]);
        LinksAfterTrans(h, t.history, rest.history);
        Trace(if rest.out.Err? then Err(rest.out.error) else Ok(t.out.value + rest.out.value), rest.history)
  }

  /** Running one batch alone is running that batch. */
  lemma RunBatchesOne(crm: Service, h: seq<Request>, b: Batch)
    ensures RunBatches(crm, h, [b]) == RunBatch(crm, h, b)
  {
    var t := RunBatch(crm, h, b);
    assert [b][1..] == [];
    if t.out.Ok? {
      assert t.out.value + [] == t.out.value;
    }
  }

  /** How results and errors combine from one batch to the next. */
  function Then(t: Result<seq<AssocResult>, Failure>, rest: Result<seq<AssocResult>, Failure>): Result<seq<AssocResult>, Failure>
    requires t.Ok?
  {
    if rest.Err? then Err(rest.error) else Ok(t.value + rest.value)
  }

  /** One step of `RunBatches`: the first batch, then the others from
      where it stopped. */
  lemma RunBatchesCons(crm: Service, h: seq<Request>, bs: seq<Batch>)
    requires bs != []
    ensures var t := RunBatch(crm, h, bs[0]);
            var r := RunBatches(crm, h, bs);
            && (t.out.Err? ==> r == Trace(Err(t.out.error), t.history))
            && (t.out.Ok? ==> r == Trace(Then(t.out, RunBatches(crm, t.history, bs[1..]).out),
                                         RunBatches(crm, t.history, bs[1..]).history))
  {
  }

  lemma ThenAssoc(t: Result<seq<AssocResult>, Failure>, u: Result<seq<AssocResult>, Failure>, v: Result<seq<AssocResult>, Failure>)
    requires t.Ok? && u.Ok?
    ensures Then(t, Then(u, v)) == Then(Then(t, u), v)
  {
    if v.Ok? {
      assert t.value + (u.value + v.value) == (t.value + u.value) + v.value;
    }
  }

  /** Running `a + b` runs `a` first: an error there is the whole result;
      otherwise `b` runs on from where `a` stopped, and on success the
      results are those of `a` followed by those of `b`. */
  lemma {:induction false} RunBatchesAppend(crm: Service, h: seq<Request>, a: seq<Batch>, b: seq<Batch>)
    ensures var ra := RunBatches(crm, h, a);
            var r := RunBatches(crm, h, a + b);
            && (ra.out.Err? ==> r == ra)
            && (ra.out.Ok? ==> r == Trace(Then(ra.out, RunBatches(crm, ra.history, b).out),
                                          RunBatches(crm, ra.history, b).history))
    decreases |a|, 1
  {
    if a == [] {
      assert a + b == b;
      var rb := RunBatches(crm, h, b);
      assert Then(Ok([]), rb.out) == rb.out by {
        if rb.out.Ok? {
          assert [] + rb.out.value == rb.out.value;
        }
      }
    } else {
      RunBatchesAppendCons(crm, h, a, b);
    }
  }

  lemma {:induction false} RunBatchesAppendCons(crm: Service, h: seq<Request>, a: seq<Batch>, b: seq<Batch>)
    requires a != []
    ensures var ra := RunBatches(crm, h, a);
            var r := RunBatches(crm, h, a + b);
            && (ra.out.Err? ==> r == ra)
            && (ra.out.Ok? ==> r == Trace(Then(ra.out, RunBatches(crm, ra.history, b).out),
                                          RunBatches(crm, ra.history, b).history))
    decreases |a|, 0
  {
    assert (a + b)[0] == a[0] && (a + b)[1..] == a[1..] + b;
    RunBatchesCons(crm, h, a);
    RunBatchesCons(crm, h, a + b);
    var t := RunBatch(crm, h, a[0]);
    if t.out.Ok? {
      RunBatchesAppend(crm, t.history, a[1..], b);
      var ra := RunBatches(crm, t.history, a[1..]);
      if ra.out.Ok? {
        ThenAssoc(t.out, ra.out, RunBatches(crm, ra.history, b).out);
      }
    }
  }

  /** The typed batch request of each batch, in order. */
  function TypedRequests(bs: seq<Batch>): (r: seq<Request>)
    ensures |r| == |bs|
    ensures forall i :: 0 <= i < |bs| ==> r[i] == TypedBatch(bs[i].types.fromType, bs[i].types.toType, TypedInputs(bs[i].items))
  {
    seq(|bs|, i requires 0 <= i < |bs| => TypedBatch(bs[i].types.fromType, bs[i].types.toType, TypedInputs(bs[i].items)))
  }

  /** The results the CRM gives to the batch requests `qs` sent one after
      another after `h`, joined in order. */
  function BatchAnswers(crm: Service, h: seq<Request>, qs: seq<Request>): seq<AssocResult>
    decreases |qs|
  {
    if qs == [] then []
    else
      (match crm.batch(h + [qs[0]]) case Ok(rs) => OrEmpty(rs) case Err(_) => [])
      + BatchAnswers(crm, h + [qs[0]], qs[1..])
  }

  /** Against a CRM that answers every batch request, each batch is sent
      once, as a typed batch request, in order; the run succeeds with the
      answers' results joined in order. */
  lemma {:induction false} RunBatchesAnswered(crm: Service, h: seq<Request>, bs: seq<Batch>)
    ensures BatchesAnswer(crm) ==>
              && RunBatches(crm, h, bs).history == h + TypedRequests(bs)
              && RunBatches(crm, h, bs).out == Ok(BatchAnswers(crm, h, TypedRequests(bs)))
    decreases |bs|
  {
    if BatchesAnswer(crm) && bs != [] {
      var q := TypedBatch(bs[0].types.fromType, bs[0].types.toType, TypedInputs(bs[0].items));
      assert crm.batch(h + [q]).Ok?;
      RunBatchesAnswered(crm, h + [q], bs[1..]);
      var qs := TypedRequests(bs);
      assert qs[0] == q && qs[1..] == TypedRequests(bs[1..]);
      assert (h + [q]) + qs[1..] == h + qs;
    }
  }

  /** `createBatchAssociations`: the inputs are grouped and batched, and
      the planned batches are run in order. */
  function CreateBatchAssociations(crm: Service, h: seq<Request>, xs: seq<AssociationInput>): (r: Trace<Result<seq<AssocResult>, Failure>>)
    ensures LinksAfter(h, r.history)
    ensures r == RunBatches(crm, h, PlanBatches(GroupInputs(xs)))
    ensures xs == [] ==> r == Trace(Ok([]), h)
    ensures xs != [] ==> var bs := PlanBatches(GroupInputs(xs));
                         && bs != [] && |r.history| > |h|
                         && r.history[|h|] == TypedBatch(bs[0].types.fromType, bs[0].types.toType, TypedInputs(bs[0].items))
    ensures BatchesAnswer(crm) ==>
              var qs := TypedRequests(PlanBatches(GroupInputs(xs)));
              r.history == h + qs && r.out == Ok(BatchAnswers(crm, h, qs))
    ensures r.out.Err? ==> FailedSingle(crm, r.history, r.out.error)
  {
    var bs := PlanBatches(GroupInputs(xs));
    assert xs == [] ==> bs == [];
    assert xs != [] ==> bs != [] by {
      if xs != [] {
        assert xs[0] in multiset(xs);
        assert AllItems(GroupInputs(xs)) != [];
      }
    }
    RunBatchesAnswered(crm, h, bs);
    RunBatches(crm, h, bs)
  }

  /** The links of a call to its contact and company, as found in the
      results (None when no result names that target). */
  datatype CallLinks = CallLinks(contact: Option<AssocResult>, company: Option<AssocResult>)

  /** The first result whose target id is `target`. */
  function FindByTarget(rs: seq<AssocResult>, target: Option<string>): (r: Option<AssocResult>)
    ensures r.Some? ==> exists i :: 0 <= i < |rs| && rs[i] == r.value && Some(rs[i].pair.toId) == target
                                    && forall j :: 0 <= j < i ==> Some(rs[j].pair.toId) != target
    ensures r.None? ==> forall i :: 0 <= i < |rs| ==> Some(rs[i].pair.toId) != target
  {
    if rs == [] then None
    else if Some(rs[0].pair.toId) == target then Some(rs[0])
    else
      var r := FindByTarget(rs[1..], target);
      assert forall i :: 1 <= i < |rs| ==> rs[i] == rs[1..][i - 1];
      r
  }

  /** The association inputs for a call: contact first (type "219"), then
      company (type "220"), each only when its id is present and non-empty. */
  function CallInputs(callId: string, contactId: Option<string>, companyId: Option<string>): (r: seq<AssociationInput>)
    ensures |r| == (if Truthy(contactId) then 1 else 0) + (if Truthy(companyId) then 1 else 0)
    ensures Truthy(contactId) ==> r[0] == AssociationInput("calls", "contacts", callId, contactId.value, "219")
    ensures Truthy(companyId) ==> r[|r| - 1] == AssociationInput("calls", "companies", callId, companyId.value, "220")
  {
    (if Truthy(contactId) then [AssociationInput("calls", "contacts", callId, contactId.value, "219")] else [])
    + (if Truthy(companyId) then [AssociationInput("calls", "companies", callId, companyId.value, "220")] else [])
  }

  /** `createCallAssociations`: nothing is sent when neither id is present;
      otherwise the inputs go through `createBatchAssociations`, whose
      error is raised, and each link is the first result naming its target. */
  function CreateCallAssociations(crm: Service, h: seq<Request>, callId: string, contactId: Option<string>, companyId: Option<string>): (r: Trace<Result<CallLinks, Failure>>)
    ensures LinksAfter(h, r.history)
    ensures !Truthy(contactId) && !Truthy(companyId) ==> r == Trace(Ok(CallLinks(None, None)), h)
    ensures Truthy(contactId) || Truthy(companyId) ==> |r.history| > |h| && r.history[|h|].TypedBatch?
    ensures r.out.Err? ==> FailedSingle(crm, r.history, r.out.error)
    ensures r.out.Ok? && r.out.value.contact.Some? ==> Some(r.out.value.contact.value.pair.toId) == contactId
    ensures r.out.Ok? && r.out.value.company.Some? ==> Some(r.out.value.company.value.pair.toId) == companyId
    ensures BatchesAnswer(crm) ==> r.out.Ok?
    ensures Truthy(contactId) || Truthy(companyId) ==>
              var t := CreateBatchAssociations(crm, h, CallInputs(callId, contactId, companyId));
              && r.history == t.history
              && (t.out.Err? ==> r.out == Err(t.out.error))
              && (t.out.Ok? ==> r.out == Ok(CallLinks(FindByTarget(t.out.value, contactId), FindByTarget(t.out.value, companyId))))
  {
    var inputs := CallInputs(callId, contactId, companyId);
    if inputs == [] then Trace(Ok(CallLinks(None, None)), h)
    else
      var t := CreateBatchAssociations(crm, h, inputs);
      assert GroupInputs(inputs) != [] by {
        assert inputs[0] in inputs;
      }
      match t.out
      case Err(e) => Trace(Err(e), t.history)
      case Ok(rs) => Trace(Ok(CallLinks(FindByTarget(rs, contactId), FindByTarget(rs, companyId))), t.history)
  }

  /** With both a contact and a company, the call's inputs form two
      single-input batches: the contact link first, then the company link. */
  lemma CallBatches(callId: string, contactId: string, companyId: string)
    requires contactId != "" && companyId != ""
    ensures PlanBatches(GroupInputs(CallInputs(callId, Some(contactId), Some(companyId))))
         == [Batch(TypePair("calls", "contacts"), [AssociationInput("calls", "contacts", callId, contactId, "219")]),
             Batch(TypePair("calls", "companies"), [AssociationInput("calls", "companies", callId, companyId, "220")])]
  {
    var a := AssociationInput("calls", "contacts", callId, contactId, "219");
    var b := AssociationInput("calls", "companies", callId, companyId, "220");
    var ga := Group(Types(a), [a]);
    var gb := Group(Types(b), [b]);
    CallInputsOfBoth(callId, contactId, companyId);
    TwoGroups(a, b);
    OneBatch(ga);
    OneBatch(gb);
    TwoPlans(ga, gb);
  }

  /** With both a contact and a company, the contact's batch runs first;
      its error is raised, otherwise the company's batch follows, and each
      link is looked up in the results of both batches together. */
  lemma CallAssociationsOfBoth(crm: Service, h: seq<Request>, callId: string, contactId: string, companyId: string)
    requires contactId != "" && companyId != ""
    ensures var r := CreateCallAssociations(crm, h, callId, Some(contactId), Some(companyId));
            var ta := RunBatch(crm, h, Batch(TypePair("calls", "contacts"), [AssociationInput("calls", "contacts", callId, contactId, "219")]));
            var tb := RunBatch(crm, ta.history, Batch(TypePair("calls", "companies"), [AssociationInput("calls", "companies", callId, companyId, "220")]));
            && (ta.out.Err? ==> r == Trace(Err(ta.out.error), ta.history))
            && (ta.out.Ok? && tb.out.Err? ==> r == Trace(Err(tb.out.error), tb.history))
            && (ta.out.Ok? && tb.out.Ok? ==>
                  r == Trace(Ok(CallLinks(FindByTarget(ta.out.value + tb.out.value, Some(contactId)),
                                          FindByTarget(ta.out.value + tb.out.value, Some(companyId)))), tb.history))
  {
    var ba := Batch(TypePair("calls", "contacts"), [AssociationInput("calls", "contacts", callId, contactId, "219")]);
    var bb := Batch(TypePair("calls", "companies"), [AssociationInput("calls", "companies", callId, companyId, "220")]);
    CallBatches(callId, contactId, companyId);
    RunBatchesTwo(crm, h, ba, bb);
  }

  /** Two batches: the second runs only after the first succeeded. */
  lemma RunBatchesTwo(crm: Service, h: seq<Request>, ba: Batch, bb: Batch)
    ensures var r := RunBatches(crm, h, [ba, bb]);
            var ta := RunBatch(crm, h, ba);
            var tb := RunBatch(crm, ta.history, bb);
            && (ta.out.Err? ==> r == Trace(Err(ta.out.error), ta.history))
            && (ta.out.Ok? && tb.out.Err? ==> r == Trace(Err(tb.out.error), tb.history))
            && (ta.out.Ok? && tb.out.Ok? ==> r == Trace(Ok(ta.out.value + tb.out.value), tb.history))
  {
    assert [ba] + [bb] == [ba, bb];
    RunBatchesAppend(crm, h, [ba], [bb]);
    RunBatchesOne(crm, h, ba);
    var ta := RunBatch(crm, h, ba);
    RunBatchesOne(crm, ta.history, bb);
  }

  lemma TwoPlans(ga: Group, gb: Group)
    ensures PlanBatches([ga, gb]) == GroupBatches(ga) + GroupBatches(gb)
  {
    assert [ga, gb][1..] == [gb];
    assert PlanBatches([gb]) == GroupBatches(gb) + PlanBatches([]);
  }

  lemma CallInputsOfBoth(callId: string, contactId: string, companyId: string)
    requires contactId != "" && companyId != ""
    ensures CallInputs(callId, Some(contactId), Some(companyId))
         == [AssociationInput("calls", "contacts", callId, contactId, "219"),
             AssociationInput("calls", "companies", callId, companyId, "220")]
  {
  }

  lemma TwoGroups(a: AssociationInput, b: AssociationInput)
    requires Types(a) != Types(b)
    ensures GroupInputs([a, b]) == [Group(Types(a), [a]), Group(Types(b), [b])]
  {
    assert [a, b][..1] == [a];
    assert [a][..0] == [];
    assert GroupInputs([a]) == AddToGroups([], a);
    assert FindGroup([Group(Types(a), [a])], Types(b)) == 1;
  }

  lemma OneBatch(g: Group)
    requires |g.items| == 1
    ensures GroupBatches(g) == [Batch(g.types, g.items)]
  {
    assert Chunks(g.items, BatchSize) == [g.items];
  }

  /** The key text the source groups by (`${from}-${to}`). */
  function KeyText(a: AssociationInput): string {
    a.fromType + "-" + a.toType
  }

  /** `const [fromObjectType, toObjectType] = key.split("-")` as written:
      the first two fields, the second "undefined" when missing. */
  function SplitKey(key: string): (r: TypePair)
    ensures '-' !in key ==> r == TypePair(key, "undefined")
  {
    var fields := SplitOn(key, '-');
    if |fields| == 1 then
      assert Join(fields, '-') == fields[0];
      TypePair(fields[0], "undefined")
    else TypePair(fields[0], fields[1])
  }

  /** When neither type contains "-", splitting the key text recovers the
      types, so grouping by key text and grouping by types agree. */
  lemma SplitKeyRecoversTypes(a: AssociationInput)
    requires '-' !in a.fromType && '-' !in a.toType
    ensures SplitKey(KeyText(a)) == Types(a)
  {
    var fields := [a.fromType, a.toType];
    assert Join(fields, '-') == KeyText(a) by {
      assert Join(fields[1..], '-') == a.toType;
    }
    SplitJoin(fields, '-');
  }

  /** The discrepancy: for a target type containing "-" (as custom object
      type ids such as "2-123" do) the split key names another type. */
  lemma SplitKeyMisreadsDashedType()
    ensures var a := AssociationInput("calls", "2-123", "1", "2", "1");
            SplitKey(KeyText(a)) == TypePair("calls", "2") && Types(a) != TypePair("calls", "2")
  {
    var a := AssociationInput("calls", "2-123", "1", "2", "1");
    assert KeyText(a) == "calls-2-123";
    var fields := ["calls", "2", "123"];
    assert Join(fields, '-') == "calls-2-123" by {
      assert Join(fields[1..], '-') == "2-123" by {
        assert Join(fields[1..][1..], '-') == "123";
      }
    }
    SplitJoin(fields, '-');
  }
}
