/** The phone normalizer of `PhoneUtils` (src/utils/phone-utils.ts).

    A raw number is cleaned, URL-decoded, and turned into an ordered list of
    parse attempts; the first attempt the phone-number library reports valid
    is returned in E.164 form (section 6.2 of ITU-T Recommendation E.164
    numbers: `+`, country code, national significant number). The library
    (`parsePhoneNumber`, `isValid`, `format`) and `decodeURIComponent` are
    foreign code and appear here as the abstract oracle `PhoneLib`. */
module Phone {
  import opened Base
  import opened Text

  /** `parsePhoneNumber(text)` parses against the international plan;
      `parsePhoneNumber(text, "TR")` assumes Turkey when no code is given. */
  datatype Region = International | Turkey

  /** What one call of `parsePhoneNumber` produces: it throws, yields no
      number, or yields a number with its validity and two formattings. */
  datatype Parsed =
    | Threw
    | NoNumber
    | Number(valid: bool, e164: string, international: string)

  /** The foreign code the normalizer calls: `decodeURIComponent` (None when
      it throws a URIError) and `parsePhoneNumber`. */
  datatype PhoneLib = PhoneLib(decode: string -> Option<string>, parse: (string, Region) -> Parsed)

  /** One parse attempt. An unguarded attempt sits outside any inner
      `try`, so a throw from it ends normalization through the outer
      handler instead of moving on to the next attempt. */
  datatype Attempt = Attempt(text: string, region: Region, guarded: bool)

  /** The characters removed by `/[\s\(\)\-]/g`. */
  predicate IsFormatting(c: char) {
    IsJsSpace(c) || c == '(' || c == ')' || c == '-'
  }

  /** The cleaning step: every formatting character goes, every other
      character stays, as often as it occurred. */
  function Clean(s: string): (r: string)
    ensures forall i :: 0 <= i < |r| ==> !IsFormatting(r[i])
    ensures forall c :: !IsFormatting(c) ==> multiset(r)[c] == multiset(s)[c]
  {
    if s == [] then []
    else
      assert s == [s[0]] + s[1..];
      if IsFormatting(s[0]) then Clean(s[1..]) else [s[0]] + Clean(s[1..])
  }

  /** Cleaning leaves a string without formatting characters as it is. */
  lemma {:induction false} CleanKeepsClean(s: string)
    requires forall i :: 0 <= i < |s| ==> !IsFormatting(s[i])
    ensures Clean(s) == s
  {
    if s != [] {
      CleanKeepsClean(s[1..]);
      assert s == [s[0]] + s[1..];
    }
  }

  /** Cleaning is idempotent. */
  lemma CleanIdempotent(s: string)
    ensures Clean(Clean(s)) == Clean(s)
  {
    CleanKeepsClean(Clean(s));
  }

  /** `s` with `prefix` removed when it starts with it. */
  function DropPrefix(s: string, prefix: string): (r: string)
    ensures StartsWith(s, prefix) ==> prefix + r == s
    ensures !StartsWith(s, prefix) ==> r == s
  {
    if StartsWith(s, prefix) then s[|prefix|..] else s
  }

  /** The four format variants tried last, each under the Turkish default
      country: as it is, without a leading "0", without a leading "90",
      without a leading "+90". */
  function FallbackTexts(d: string): (r: seq<string>)
    ensures |r| == 4 && r[0] == d
    ensures StartsWith(d, "0") ==> "0" + r[1] == d
    ensures !StartsWith(d, "0") ==> r[1] == d
    ensures StartsWith(d, "90") ==> "90" + r[2] == d
    ensures !StartsWith(d, "90") ==> r[2] == d
    ensures StartsWith(d, "+90") ==> "+90" + r[3] == d
    ensures !StartsWith(d, "+90") ==> r[3] == d
  {
    [d, DropPrefix(d, "0"), DropPrefix(d, "90"), DropPrefix(d, "+90")]
  }

  /** The ordered parse attempts for a decoded number `d`: at most one
      international attempt (the direct parse of a "+" number, the
      "0"-national form of length 11 rewritten to "+90", or the "90" form of
      length 12 given a "+"), then the four fallback variants. Only the
      direct parse is unguarded. */
  function Candidates(d: string): (r: seq<Attempt>)
    ensures |r| == 4 || |r| == 5
    ensures |r| == 5 <==> (|| StartsWith(d, "+")
                           || (StartsWith(d, "0") && Utf16Length(d) == 11)
                           || (StartsWith(d, "90") && Utf16Length(d) == 12))
    ensures r[|r| - 4..] == seq(4, i requires 0 <= i < 4 => Attempt(FallbackTexts(d)[i], Turkey, true))
    ensures StartsWith(d, "+") ==> r[0] == Attempt(d, International, false)
    ensures StartsWith(d, "0") && Utf16Length(d) == 11 ==> r[0] == Attempt("+90" + d[1..], International, true)
    ensures StartsWith(d, "90") && Utf16Length(d) == 12 ==> r[0] == Attempt("+" + d, International, true)
    ensures forall i :: 1 <= i < |r| ==> r[i].guarded
  {
    var direct := if StartsWith(d, "+") then [Attempt(d, International, false)] else [];
    var national := if StartsWith(d, "0") && Utf16Length(d) == 11
                    then [Attempt("+90" + d[1..], International, true)] else [];
    var withCode := if StartsWith(d, "90") && Utf16Length(d) == 12
                    then [Attempt("+" + d, International, true)] else [];
    var fallback := seq(4, i requires 0 <= i < 4 => Attempt(FallbackTexts(d)[i], Turkey, true));
    direct + national + withCode + fallback
  }

  /** The attempt is parsed into a number the library calls valid. */
  predicate Accepts(lib: PhoneLib, a: Attempt) {
    var p := lib.parse(a.text, a.region);
    p.Number? && p.valid
  }

  /** After the attempt the normalizer moves on to the next one. */
  predicate MovesOn(lib: PhoneLib, a: Attempt) {
    !Accepts(lib, a) && (lib.parse(a.text, a.region).Threw? ==> a.guarded)
  }

  /** Attempt `i` is the one whose result is returned. */
  predicate WinsAt(lib: PhoneLib, atts: seq<Attempt>, i: int)
    requires 0 <= i < |atts|
  {
    Accepts(lib, atts[i]) && forall j :: 0 <= j < i ==> MovesOn(lib, atts[j])
  }

  /** The short-circuiting walk over the attempts: the E.164 text of the
      first accepted attempt, or nothing when an unguarded attempt throws
      first or no attempt is accepted. */
  function TryAttempts(lib: PhoneLib, atts: seq<Attempt>): (r: Option<string>)
    ensures r.Some? ==> exists i :: 0 <= i < |atts| && WinsAt(lib, atts, i)
                                    && r.value == lib.parse(atts[i].text, atts[i].region).e164
    ensures r.None? ==> forall i :: 0 <= i < |atts| ==> !WinsAt(lib, atts, i)
  {
    if atts == [] then None
    else
      var a := atts[0];
      var rest := TryAttempts(lib, atts[1..]);
      assert forall i :: 1 <= i < |atts| ==>
        (WinsAt(lib, atts, i) <==> MovesOn(lib, a) && WinsAt(lib, atts[1..], i - 1));
      match lib.parse(a.text, a.region)
      case Number(valid, e164, _) =>
        if valid then
          assert WinsAt(lib, atts, 0);
          Some(e164)
        else rest
      case Threw =>
        if a.guarded then rest
        else None
      case NoNumber => rest
  }

  /** `PhoneUtils.formatInternationalNumber`: None is the source's `null`. */
  function Normalize(lib: PhoneLib, raw: string): (r: Option<string>)
    ensures r.Some? <==> lib.decode(Clean(raw)).Some?
                         && exists i :: 0 <= i < |Candidates(lib.decode(Clean(raw)).value)|
                                        && WinsAt(lib, Candidates(lib.decode(Clean(raw)).value), i)
    ensures r.Some? ==> exists i :: var atts := Candidates(lib.decode(Clean(raw)).value);
                                    0 <= i < |atts| && WinsAt(lib, atts, i)
                                    && r.value == lib.parse(atts[i].text, atts[i].region).e164
  {
    match lib.decode(Clean(raw))
    case None => None
    case Some(d) => TryAttempts(lib, Candidates(d))
  }

  /** `PhoneUtils.isValidPhoneNumber`: valid exactly when decoding succeeds
      and some attempt wins. */
  function IsValidPhoneNumber(lib: PhoneLib, raw: string): (r: bool)
    ensures r <==> lib.decode(Clean(raw)).Some?
                   && exists i :: 0 <= i < |Candidates(lib.decode(Clean(raw)).value)|
                                  && WinsAt(lib, Candidates(lib.decode(Clean(raw)).value), i)
  {
    Normalize(lib, raw).Some?
  }

  /** `PhoneUtils.formatPhoneNumberForDisplay`: the international form of
      the normalized number, or the input itself when normalization gives
      nothing (or "") or the re-parse yields no number. */
  function DisplayForm(lib: PhoneLib, raw: string): (r: string)
    ensures !Truthy(Normalize(lib, raw)) ==> r == raw
    ensures Truthy(Normalize(lib, raw)) && lib.parse(Normalize(lib, raw).value, International).Number?
            ==> r == lib.parse(Normalize(lib, raw).value, International).international
    ensures Truthy(Normalize(lib, raw)) && !lib.parse(Normalize(lib, raw).value, International).Number?
            ==> r == raw
  {
    var f := Normalize(lib, raw);
    if !Truthy(f) then raw
    else
      match lib.parse(f.value, International)
      case Number(_, _, intl) => intl
      case _ => raw
  }

  /** A Turkish mobile subscriber number: ten digits starting with 5. */
  predicate TurkishMobile(n: string) {
    |n| == 10 && n[0] == '5' && AllDigits(n)
  }

  /** What a library that knows the number `n` does with its usual forms:
      decoding leaves them unchanged, and both the international form and
      the bare form under the Turkish default are valid with E.164 text
      "+90" followed by `n`. */
  predicate KnowsTurkishNumber(lib: PhoneLib, n: string) {
    && lib.decode("0" + n) == Some("0" + n)
    && lib.decode("90" + n) == Some("90" + n)
    && lib.decode("+90" + n) == Some("+90" + n)
    && lib.decode(n) == Some(n)
    && Accepts(lib, Attempt("+90" + n, International, true))
    && lib.parse("+90" + n, International).e164 == "+90" + n
    && Accepts(lib, Attempt(n, Turkey, true))
    && lib.parse(n, Turkey).e164 == "+90" + n
  }

  /** Digits and "+" are neither formatting nor outside the Basic
      Multilingual Plane. */
  lemma DigitsAreClean(s: string)
    requires forall i :: 0 <= i < |s| ==> IsDigit(s[i]) || s[i] == '+'
    ensures Clean(s) == s
    ensures Utf16Length(s) == |s|
  {
    assert forall i :: 0 <= i < |s| ==> !IsFormatting(s[i]) && s[i] as int <= 0xFFFF;
    CleanKeepsClean(s);
  }

  /** When the raw text is already clean and decodes to itself, an
      accepted first attempt decides the result. */
  lemma FirstAttemptDecides(lib: PhoneLib, raw: string)
    requires Clean(raw) == raw && lib.decode(raw) == Some(raw)
    requires Accepts(lib, Candidates(raw)[0])
    ensures Normalize(lib, raw) == Some(lib.parse(Candidates(raw)[0].text, Candidates(raw)[0].region).e164)
  {
  }

  lemma NationalFormAgrees(lib: PhoneLib, n: string)
    requires TurkishMobile(n) && KnowsTurkishNumber(lib, n)
    ensures Normalize(lib, "0" + n) == Some("+90" + n)
  {
    var d := "0" + n;
    assert AllDigits(d);
    DigitsAreClean(d);
    assert d[1..] == n;
    assert !StartsWith(d, "+") && StartsWith(d, "0");
    assert Candidates(d)[0] == Attempt("+90" + n, International, true);
    FirstAttemptDecides(lib, d);
  }

  /** Without an international attempt the as-is text comes first. */
  lemma AsIsFirst(d: string)
    requires |Candidates(d)| == 4
    ensures Candidates(d)[0] == Attempt(d, Turkey, true)
  {
    var c := Candidates(d);
    assert c[0..] == c;
    var fallback := seq(4, i requires 0 <= i < 4 => Attempt(FallbackTexts(d)[i], Turkey, true));
    assert c == fallback;
    assert fallback[0] == Attempt(FallbackTexts(d)[0], Turkey, true);
  }

  lemma BareFormAgrees(lib: PhoneLib, n: string)
    requires TurkishMobile(n) && KnowsTurkishNumber(lib, n)
    ensures Normalize(lib, n) == Some("+90" + n)
  {
    DigitsAreClean(n);
    assert n[..1] == [n[0]] && n[..2] == [n[0], n[1]];
    assert !StartsWith(n, "+") && !StartsWith(n, "0") && !StartsWith(n, "90");
    AsIsFirst(n);
    FirstAttemptDecides(lib, n);
  }

  /** A twelve-unit "90" number is first tried with a "+" in front. */
  lemma CountryCodeFirst(d: string)
    requires StartsWith(d, "90") && Utf16Length(d) == 12
    ensures Candidates(d)[0] == Attempt("+" + d, International, true)
  {
  }

  /** A clean twelve-unit "90" number is decided by its "+" form. */
  lemma CountryCodeDecides(lib: PhoneLib, d: string, e: string)
    requires Clean(d) == d && lib.decode(d) == Some(d)
    requires StartsWith(d, "90") && Utf16Length(d) == 12
    requires Accepts(lib, Attempt("+" + d, International, true))
    requires lib.parse("+" + d, International).e164 == e
    ensures Normalize(lib, d) == Some(e)
  {
    CountryCodeFirst(d);
    FirstAttemptDecides(lib, d);
  }

  lemma CountryCodeFormAgrees(lib: PhoneLib, n: string)
    requires TurkishMobile(n) && KnowsTurkishNumber(lib, n)
    ensures Normalize(lib, "90" + n) == Some("+90" + n)
  {
    CountryCodeTextAgrees(lib, n, "90" + n);
  }

  lemma CountryCodeTextAgrees(lib: PhoneLib, n: string, d: string)
    requires TurkishMobile(n) && KnowsTurkishNumber(lib, n) && d == "90" + n
    ensures Normalize(lib, d) == Some("+90" + n)
  {
    CountryCodeFormIsClean(n, d);
    CountryCodeFormIsKnown(lib, n, d);
    CountryCodeDecides(lib, d, "+90" + n);
  }

  lemma CountryCodeFormIsKnown(lib: PhoneLib, n: string, d: string)
    requires KnowsTurkishNumber(lib, n) && d == "90" + n
    ensures lib.decode(d) == Some(d)
    ensures Accepts(lib, Attempt("+" + d, International, true))
    ensures lib.parse("+" + d, International).e164 == "+90" + n
  {
    assert "+" + d == "+90" + n;
  }

  lemma CountryCodeFormIsClean(n: string, d: string)
    requires TurkishMobile(n) && d == "90" + n
    ensures Clean(d) == d
    ensures StartsWith(d, "90") && Utf16Length(d) == 12
  {
    assert AllDigits(d);
    DigitsAreClean(d);
    assert d[..2] == "90";
  }

  lemma InternationalFormAgrees(lib: PhoneLib, n: string)
    requires TurkishMobile(n) && KnowsTurkishNumber(lib, n)
    ensures Normalize(lib, "+90" + n) == Some("+90" + n)
  {
    var d := "+90" + n;
    forall i | 0 <= i < |d| ensures IsDigit(d[i]) || d[i] == '+' {
      if i >= 3 { assert d[i] == n[i - 3]; }
    }
    DigitsAreClean(d);
    assert StartsWith(d, "+");
    assert Candidates(d)[0] == Attempt(d, International, false);
    FirstAttemptDecides(lib, d);
  }

  /** The national ("05..."), bare ("5..."), country-code ("905...") and
      international ("+905...") forms of a Turkish mobile number all
      normalize to the same E.164 text. */
  lemma TurkishFormsAgree(lib: PhoneLib, n: string)
    requires TurkishMobile(n) && KnowsTurkishNumber(lib, n)
    ensures Normalize(lib, "0" + n) == Some("+90" + n)
    ensures Normalize(lib, n) == Some("+90" + n)
    ensures Normalize(lib, "90" + n) == Some("+90" + n)
    ensures Normalize(lib, "+90" + n) == Some("+90" + n)
  {
    NationalFormAgrees(lib, n);
    BareFormAgrees(lib, n);
    CountryCodeFormAgrees(lib, n);
    InternationalFormAgrees(lib, n);
  }

  /** A number the decoder rejects cannot be shown in any other form. */
  lemma DisplayOfUndecodable(lib: PhoneLib, raw: string)
    requires lib.decode(Clean(raw)).None?
    ensures DisplayForm(lib, raw) == raw && !IsValidPhoneNumber(lib, raw)
  {
  }

  /** Each prefixed form of a Turkish mobile number falls back, at the
      variant that drops its prefix, to the bare subscriber number. */
  lemma FallbackReachesBareForm(n: string)
    requires TurkishMobile(n)
    ensures FallbackTexts("0" + n)[1] == n
    ensures FallbackTexts("90" + n)[2] == n
    ensures FallbackTexts("+90" + n)[3] == n
  {
    assert StartsWith("0" + n, "0") by { assert ("0" + n)[..1] == "0"; }
    assert StartsWith("90" + n, "90") by { assert ("90" + n)[..2] == "90"; }
    assert StartsWith("+90" + n, "+90") by { assert ("+90" + n)[..3] == "+90"; }
  }

  /** All four forms of a Turkish mobile number are shown alike: as the
      library's international rendering of their common E.164 text. */
  lemma TurkishFormsDisplayAlike(lib: PhoneLib, n: string)
    requires TurkishMobile(n) && KnowsTurkishNumber(lib, n)
    requires lib.parse("+90" + n, International).Number?
    ensures var shown := lib.parse("+90" + n, International).international;
            && DisplayForm(lib, "0" + n) == shown
            && DisplayForm(lib, n) == shown
            && DisplayForm(lib, "90" + n) == shown
            && DisplayForm(lib, "+90" + n) == shown
  {
    TurkishFormsAgree(lib, n);
  }
}
