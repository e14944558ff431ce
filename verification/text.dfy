/** The JavaScript string operations the synchronization logic relies on,
    stated over `seq<char>`: white space as `\s` and `trim` see it,
    `split` on one character, `startsWith`, UTF-16 `length`, decimal
    digits as `Number` reads them and as template literals print them. */
module Text {
  import opened Base


  /** The characters matched by JavaScript's `\s` and removed by `trim`
      (WhiteSpace and LineTerminator of ECMAScript). */
  predicate IsJsSpace(c: char) {
    var n := c as int;
    n == 0x09 || n == 0x0A || n == 0x0B || n == 0x0C || n == 0x0D || n == 0x20
    || n == 0xA0 || n == 0x1680 || (0x2000 <= n <= 0x200A) || n == 0x2028
    || n == 0x2029 || n == 0x202F || n == 0x205F || n == 0x3000 || n == 0xFEFF
  }

  predicate AllSpace(s: string) {
    forall i :: 0 <= i < |s| ==> IsJsSpace(s[i])
  }

  predicate StartsWith(s: string, prefix: string) {
    |prefix| <= |s| && s[..|prefix|] == prefix
  }

  predicate EndsWith(s: string, suffix: string) {
    |suffix| <= |s| && s[|s| - |suffix|..] == suffix
  }

  /** The lines of a text laid end to end. */
  function Concat(ls: seq<string>): string {
    if ls == [] then "" else ls[0] + Concat(ls[1..])
  }

  /** A text laid out from lines is its lines before `i`, line `i`, and
      the lines after. */
  lemma {:induction false} ConcatAt(ls: seq<string>, i: nat)
    requires i < |ls|
    ensures Concat(ls) == Concat(ls[..i]) + ls[i] + Concat(ls[i + 1..])
  {
    if i > 0 {
      ConcatAt(ls[1..], i - 1);
      assert ls[1..][..i - 1] == ls[1..i];
      assert ls[1..][i - 1] == ls[i];
      assert ls[1..][i..] == ls[i + 1..];
      assert ls[..i][1..] == ls[1..i];
    } else {
      assert ls[1..] == ls[i + 1..];
      assert Concat(ls[..0]) == "";
    }
  }

  /** Each line occurs in the text. */
  lemma ConcatContains(ls: seq<string>, i: nat)
    requires i < |ls|
    ensures Contains(Concat(ls), ls[i])
  {
    ConcatAt(ls, i);
    ContainsMiddle(Concat(ls[..i]), ls[i], Concat(ls[i + 1..]));
  }

  /** The text ends with its last line. */
  lemma ConcatEndsWith(ls: seq<string>)
    requires |ls| > 0
    ensures EndsWith(Concat(ls), ls[|ls| - 1])
  {
    ConcatAt(ls, |ls| - 1);
    assert Concat(ls[|ls|..]) == "";
    var a := Concat(ls[..|ls| - 1]);
    assert Concat(ls) == a + ls[|ls| - 1];
  }

  /** `t` occurs in `s` as a contiguous substring. */
  ghost predicate Contains(s: string, t: string) {
    exists i :: 0 <= i <= |s| - |t| && Window(s, i, |t|) == t
  }

  /** The `n` characters of `s` starting at `i`. */
  function Window(s: string, i: nat, n: nat): string
    requires i + n <= |s|
  {
    s[i..i + n]
  }

  lemma ContainsMiddle(a: string, t: string, b: string)
    ensures Contains(a + t + b, t)
  {
    var s := a + t + b;
    assert Window(s, |a|, |t|) == t;
  }

  /** JavaScript's `s.slice(k)` for a non-negative `k`. */
  function Slice(s: string, k: nat): (r: string)
    ensures |s| >= k ==> r == s[k..]
    ensures |s| <= k ==> r == ""
  {
    if |s| >= k then s[k..] else ""
  }

  /** The number of white-space characters `s` starts with. */
  function LeadingSpace(s: string): (k: nat)
    ensures k <= |s| && AllSpace(s[..k])
    ensures k == |s| || !IsJsSpace(s[k])
  {
    if |s| > 0 && IsJsSpace(s[0]) then
      var k := 1 + LeadingSpace(s[1..]);
      assert s[..k] == [s[0]] + s[1..][..k - 1];
      k
    else 0
  }

  /** The length of `s` without the white space it ends with. */
  function TrailingStart(s: string): (j: nat)
    ensures j <= |s| && AllSpace(s[j..])
    ensures j == 0 || !IsJsSpace(s[j - 1])
  {
    if |s| > 0 && IsJsSpace(s[|s| - 1]) then
      var j := TrailingStart(s[..|s| - 1]);
      assert s[j..] == s[..|s| - 1][j..] + [s[|s| - 1]];
      j
    else |s|
  }

  /** JavaScript's `trim`: the result is the slice of `s` left after removing
      the white space at both ends, and it neither starts nor ends with white
      space. */
  function Trim(s: string): (r: string)
    ensures exists i, j :: 0 <= i <= j <= |s| && r == s[i..j]
                           && AllSpace(s[..i]) && AllSpace(s[j..])
    ensures r == "" || (!IsJsSpace(r[0]) && !IsJsSpace(r[|r| - 1]))
  {
    var i := LeadingSpace(s);
    var t := s[i..];
    var j := TrailingStart(t);
    assert t[..j] == s[i..i + j];
    assert t[j..] == s[i + j..];
    t[..j]
  }

  /** A string with no white space at either end is its own trim. */
  lemma TrimKeeps(s: string)
    requires s == "" || (!IsJsSpace(s[0]) && !IsJsSpace(s[|s| - 1]))
    ensures Trim(s) == s
  {
    LeadingNone(s);
    TrailingNone(s);
    assert s[0..] == s;
  }

  lemma LeadingNone(s: string)
    requires s == "" || !IsJsSpace(s[0])
    ensures LeadingSpace(s) == 0
  {
  }

  lemma TrailingNone(s: string)
    requires s == "" || !IsJsSpace(s[|s| - 1])
    ensures TrailingStart(s) == |s|
  {
  }

  /** A space appended to a string without edge white space is trimmed
      away again. */
  lemma TrimSpaceAfter(s: string)
    requires s != "" && !IsJsSpace(s[0]) && !IsJsSpace(s[|s| - 1])
    ensures Trim(s + " ") == s
  {
    var t := s + " ";
    LeadingNone(t);
    assert t[0..] == t && t[..|t| - 1] == s;
    TrailingNone(s);
  }

  /** A space prepended to a string without edge white space is trimmed
      away again. */
  lemma TrimSpaceBefore(s: string)
    requires s != "" && !IsJsSpace(s[0]) && !IsJsSpace(s[|s| - 1])
    ensures Trim(" " + s) == s
  {
    var t := " " + s;
    assert t[1..] == s;
    LeadingNone(s);
    assert LeadingSpace(t) == 1;
    TrailingNone(s);
  }

  /** White space alone trims to the empty string. */
  lemma TrimSpace(s: string)
    requires AllSpace(s)
    ensures Trim(s) == ""
  {
  }

  /** JavaScript's `s.split(sep)` for a one-character separator. */
  function SplitOn(s: string, sep: char): (r: seq<string>)
    ensures |r| >= 1
    ensures forall i :: 0 <= i < |r| ==> sep !in r[i]
    ensures Join(r, sep) == s
  {
    if s == [] then [[]]
    else
      var rest := SplitOn(s[1..], sep);
      if s[0] == sep then [[]] + rest
      else
        assert s == [s[0]] + s[1..];
        [[s[0]] + rest[0]] + rest[1..]
  }

  /** JavaScript's `fields.join(sep)`. */
  function Join(fields: seq<string>, sep: char): string {
    if |fields| == 0 then ""
    else if |fields| == 1 then fields[0]
    else fields[0] + [sep] + Join(fields[1..], sep)
  }

  /** Splitting undoes joining whenever no field holds the separator. */
  lemma {:induction false} SplitJoin(fields: seq<string>, sep: char)
    requires |fields| >= 1
    requires forall i :: 0 <= i < |fields| ==> sep !in fields[i]
    ensures SplitOn(Join(fields, sep), sep) == fields
    decreases |Join(fields, sep)|, |fields[0]|
  {
    var f0 := fields[0];
    if |fields| == 1 {
      if f0 != [] {
        assert f0 == [f0[0]] + f0[1..];
        SplitJoin([f0[1..]], sep);
        assert Join([f0[1..]], sep) == f0[1..];
      }
    } else {
      var s := Join(fields, sep);
      if f0 == [] {
        assert s == [sep] + Join(fields[1..], sep);
        assert s[1..] == Join(fields[1..], sep);
        SplitJoin(fields[1..], sep);
      } else {
        var fields' := [f0[1..]] + fields[1..];
        assert fields'[1..] == fields[1..];
        assert s == [f0[0]] + Join(fields', sep);
        assert s[1..] == Join(fields', sep);
        SplitJoin(fields', sep);
        assert f0 == [f0[0]] + f0[1..];
        assert [[f0[0]] + fields'[0]] + fields'[1..] == fields;
      }
    }
  }

  /** `s.split(" ")[0]`: the text before the first space. */
  function FirstField(s: string): (r: string)
    ensures ' ' !in r
    ensures StartsWith(s, r)
    ensures |r| == |s| || s[|r|] == ' '
  {
    var fields := SplitOn(s, ' ');
    assert s == Join(fields, ' ');
    fields[0]
  }

  predicate IsDigit(c: char) {
    '0' <= c <= '9'
  }

  predicate AllDigits(s: string) {
    forall i :: 0 <= i < |s| ==> IsDigit(s[i])
  }

  function DigitValue(c: char): nat
    requires IsDigit(c)
  {
    (c as int) - ('0' as int)
  }

  function Digit(d: nat): (c: char)
    requires d < 10
    ensures IsDigit(c) && DigitValue(c) == d
  {
    (('0' as int) + d) as char
  }

  /** `Number(s)` for a string of decimal digits; the empty string reads as 0. */
  function DecimalValue(s: string): nat
    requires AllDigits(s)
  {
    if s == [] then 0 else DecimalValue(s[..|s| - 1]) * 10 + DigitValue(s[|s| - 1])
  }

  /** `Number(s)` for the texts the model reads: a run of decimal digits
      with white space around it, or white space alone (which reads as 0).
      Every other text reads as NaN, here None. */
  function NumberOf(s: string): (r: Option<nat>)
    ensures AllDigits(s) ==> r == Some(DecimalValue(s))
    ensures AllSpace(s) ==> r == Some(0)
  {
    TrimOfDigits(s);
    TrimOfSpace(s);
    var t := Trim(s);
    if AllDigits(t) then Some(DecimalValue(t)) else None
  }

  /** Digits carry no white space to trim. */
  lemma TrimOfDigits(s: string)
    ensures AllDigits(s) ==> Trim(s) == s
  {
    if AllDigits(s) && s != "" {
      assert IsDigit(s[0]) && IsDigit(s[|s| - 1]);
      TrimKeeps(s);
    }
  }

  lemma TrimOfSpace(s: string)
    ensures AllSpace(s) ==> Trim(s) == ""
  {
    if AllSpace(s) {
      TrimSpace(s);
    }
  }

  /** The decimal text of a natural number, as a template literal prints it;
      reading it back gives the number. */
  function NatToDecimal(n: nat): (r: string)
    ensures |r| >= 1 && AllDigits(r)
    ensures DecimalValue(r) == n
  {
    if n < 10 then [Digit(n)]
    else
      var r := NatToDecimal(n / 10) + [Digit(n % 10)];
      assert r[..|r| - 1] == NatToDecimal(n / 10);
      r
  }

  /** `${n}` for an integer `n`. */
  function IntToString(n: int): (r: string)
    ensures n >= 0 ==> AllDigits(r) && DecimalValue(r) == n
    ensures n < 0 ==> |r| >= 2 && r[0] == '-' && AllDigits(r[1..]) && DecimalValue(r[1..]) == -n
  {
    if n >= 0 then NatToDecimal(n) else "-" + NatToDecimal(-n)
  }

  /** JavaScript's `length`: characters outside the Basic Multilingual
      Plane take two UTF-16 code units. */
  function Utf16Length(s: string): (r: nat)
    ensures |s| <= r <= 2 * |s|
    ensures (forall i :: 0 <= i < |s| ==> s[i] as int <= 0xFFFF) ==> r == |s|
  {
    if s == [] then 0
    else (if s[0] as int > 0xFFFF then 2 else 1) + Utf16Length(s[1..])
  }
}
