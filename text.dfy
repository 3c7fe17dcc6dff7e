/** The slice of .NET's string and text-reader behaviour the core relies on:
    white space and trimming, line reading, case folding, substring tests and
    the decimal rendering of integers. */
module Text {
  import opened Wrappers

  /** `Environment.NewLine`, taken as the Unix line feed. */
  const NewLine: string := "\n"

  /** `char.IsWhiteSpace` restricted to the ASCII white-space characters,
      NEXT LINE and NO-BREAK SPACE. */
  predicate IsWhiteSpace(c: char) {
    c == ' ' || c == '\t' || c == '\n' || c == '\U{B}' || c == '\U{C}' || c == '\r'
    || c == '\U{85}' || c == '\U{A0}'
  }

  /** `string.IsNullOrWhiteSpace` on a non-null string. */
  predicate IsBlank(s: string) {
    forall i | 0 <= i < |s| :: IsWhiteSpace(s[i])
  }

  /** `string.TrimStart()`: drops the leading white space, nothing else. */
  function TrimStart(s: string): (r: string)
    ensures |r| <= |s| && r == s[|s| - |r|..]
    ensures forall i | 0 <= i < |s| - |r| :: IsWhiteSpace(s[i])
    ensures r == [] || !IsWhiteSpace(r[0])
  {
    if |s| > 0 && IsWhiteSpace(s[0]) then TrimStart(s[1..]) else s
  }

  /** `string.TrimEnd()`: drops the trailing white space, nothing else. */
  function TrimEnd(s: string): (r: string)
    ensures |r| <= |s| && r == s[..|r|]
    ensures forall i | |r| <= i < |s| :: IsWhiteSpace(s[i])
    ensures r == [] || !IsWhiteSpace(r[|r| - 1])
  {
    if |s| > 0 && IsWhiteSpace(s[|s| - 1]) then TrimEnd(s[..|s| - 1]) else s
  }

  /** `string.Trim()`. */
  function Trim(s: string): (r: string)
    ensures |r| <= |s|
    ensures r == [] <==> IsBlank(s)
    ensures r == [] || (!IsWhiteSpace(r[0]) && !IsWhiteSpace(r[|r| - 1]))
  {
    TrimEnd(TrimStart(s))
  }

  /** A single leading blank, as the SSE framing writes after `event:` and
      `data:`, is what both trims remove first. */
  lemma TrimsSkipLeadingSpace(l: string)
    ensures TrimStart(" " + l) == TrimStart(l)
    ensures Trim(" " + l) == Trim(l)
  {
    assert (" " + l)[1..] == l;
  }

  /** `string.StartsWith` with an ordinal comparison. */
  predicate StartsWith(s: string, prefix: string) {
    |prefix| <= |s| && s[..|prefix|] == prefix
  }

  /** `string.Contains` with an ordinal comparison. */
  predicate Contains(s: string, part: string) {
    exists i | 0 <= i <= |s| - |part| :: OccursAt(s, part, i)
  }

  predicate OccursAt(s: string, part: string, i: int) {
    0 <= i <= |s| - |part| && s[i..i + |part|] == part
  }

  /** A prefix of a string is contained in it. */
  lemma PrefixIsContained(s: string, prefix: string)
    requires StartsWith(s, prefix)
    ensures Contains(s, prefix)
  {
    assert OccursAt(s, prefix, 0);
  }

  /** `char.ToLowerInvariant` on the ASCII letters; other characters are kept. */
  function LowerChar(c: char): char {
    if 'A' <= c <= 'Z' then (c as int + 32) as char else c
  }

  /** `char.ToUpperInvariant` on the ASCII letters; other characters are kept. */
  function UpperChar(c: char): char {
    if 'a' <= c <= 'z' then (c as int - 32) as char else c
  }

  /** `string.ToLowerInvariant`, with the folding of `LowerChar`. */
  function ToLower(s: string): (r: string)
    ensures |r| == |s|
    ensures forall i | 0 <= i < |s| :: r[i] == LowerChar(s[i])
  {
    if s == [] then [] else [LowerChar(s[0])] + ToLower(s[1..])
  }

  /** Equality under `StringComparison.OrdinalIgnoreCase` on ASCII letters. */
  predicate EqualsIgnoreCase(a: string, b: string) {
    |a| == |b| && forall i | 0 <= i < |a| :: UpperChar(a[i]) == UpperChar(b[i])
  }

  // ---------------------------------------------------------------------
  // Line reading (`TextReader.ReadLine` over an in-memory text)
  // ---------------------------------------------------------------------

  predicate IsLineBreak(c: char) {
    c == '\n' || c == '\r'
  }

  predicate NoLineBreak(s: string) {
    forall i | 0 <= i < |s| :: !IsLineBreak(s[i])
  }

  /** The length of the first line of `s`: the index of its first line break,
      or `|s|` when there is none. */
  function LineLength(s: string): (k: nat)
    ensures k <= |s|
    ensures NoLineBreak(s[..k])
    ensures k < |s| ==> IsLineBreak(s[k])
  {
    if s == [] || IsLineBreak(s[0]) then 0 else 1 + LineLength(s[1..])
  }

  /** `ReadLine` on a reader whose unread text is `rest`: `None` (null) when
      nothing is left, otherwise the line and the number of characters it
      consumed, where a line ends at `\n`, at `\r`, at `\r\n` or at the end of
      the text, and the terminator is not part of the line. */
  function ReadLine(rest: string): (r: Option<(string, nat)>)
    ensures r.None? <==> rest == []
    ensures r.Some? ==> var (line, n) := r.value;
      |line| <= n <= |rest| && 0 < n && line == rest[..|line|] && NoLineBreak(line)
      && (n == |line| ==> n == |rest|)
      && (n > |line| ==> rest[|line|..n] in {"\n", "\r", "\r\n"})
  {
    if rest == [] then None
    else
      var k := LineLength(rest);
      if k == |rest| then Some((rest, k))
      else if rest[k] == '\r' && k + 1 < |rest| && rest[k + 1] == '\n' then
        assert rest[k..k + 2] == "\r\n";
        Some((rest[..k], k + 2))
      else
        assert rest[k..k + 1] == [rest[k]];
        Some((rest[..k], k + 1))
  }

  /** Every line `ReadLine` returns, in order, until it returns null. */
  function SplitLines(s: string): (lines: seq<string>)
    ensures forall i | 0 <= i < |lines| :: NoLineBreak(lines[i])
    decreases |s|
  {
    match ReadLine(s)
    case None => []
    case Some((line, n)) => [line] + SplitLines(s[n..])
  }

  lemma {:induction false} LineLengthOfTerminated(line: string, rest: string)
    requires NoLineBreak(line)
    ensures LineLength(line + "\n" + rest) == |line|
    decreases |line|
  {
    if line != [] {
      assert (line + "\n" + rest)[1..] == line[1..] + "\n" + rest;
      LineLengthOfTerminated(line[1..], rest);
    }
  }

  /** A line followed by `\n` is read back as exactly that line. */
  lemma SplitLinesOfTerminated(line: string, rest: string)
    requires NoLineBreak(line)
    ensures SplitLines(line + "\n" + rest) == [line] + SplitLines(rest)
  {
    var s := line + "\n" + rest;
    LineLengthOfTerminated(line, rest);
    assert s[..|line|] == line;
    assert s[|line| + 1..] == rest;
  }

  /** Regrouping a list around one element, stated once for any element
      type so that the solver never has to unfold strings to see it. */
  lemma AppendAssoc<T>(a: seq<T>, x: T, b: seq<T>)
    ensures a + [x] + b == a + ([x] + b)
  {
  }

  lemma Assoc3<T>(a: seq<T>, b: seq<T>, c: seq<T>)
    ensures a + b + c == a + (b + c)
  {
  }

  lemma RegroupLast<T>(a: seq<T>, b: seq<T>, c: seq<T>, d: seq<T>)
    ensures a + b + c + d == a + b + (c + d)
  {
  }

  lemma RegroupTail<T>(a: seq<T>, b: seq<T>, c: seq<T>, d: seq<T>)
    ensures a + b + c + d == a + (b + c + d)
  {
  }

  lemma SplitLinesStep(s: string, line: string, n: nat)
    requires ReadLine(s) == Some((line, n))
    ensures n <= |s| && SplitLines(s) == [line] + SplitLines(s[n..])
  {
  }

  // ---------------------------------------------------------------------
  // Decimal rendering (`long.ToString()` and the `{Code}` interpolation,
  // which use the current culture; modelled as the invariant one)
  // ---------------------------------------------------------------------

  predicate IsDigit(c: char) {
    '0' <= c <= '9'
  }

  function DigitChar(d: nat): (c: char)
    requires d < 10
    ensures IsDigit(c)
  {
    (('0' as int) + d) as char
  }

  function DigitValue(c: char): nat {
    if IsDigit(c) then c as int - '0' as int else 0
  }

  /** The decimal digits of a natural number, most significant first, with
      no leading zero. */
  function NatToDecimal(n: nat): (s: string)
    ensures |s| > 0 && forall i | 0 <= i < |s| :: IsDigit(s[i])
    ensures |s| > 1 ==> s[0] != '0'
  {
    if n < 10 then [DigitChar(n)] else NatToDecimal(n / 10) + [DigitChar(n % 10)]
  }

  /** `long.ToString()`: a minus sign before the digits of a negative value. */
  function IntToDecimal(n: int): string {
    if n < 0 then "-" + NatToDecimal(-n) else NatToDecimal(n)
  }

  /** The value of a string of decimal digits. */
  function DigitsValue(s: string): nat {
    if s == [] then 0 else DigitsValue(s[..|s| - 1]) * 10 + DigitValue(s[|s| - 1])
  }

  /** The value of an optionally negative decimal numeral. */
  function ParseDecimal(s: string): (v: int) {
    if |s| > 0 && s[0] == '-' then -(DigitsValue(s[1..]) as int) else DigitsValue(s)
  }

  lemma {:induction false} NatToDecimalValue(n: nat)
    ensures DigitsValue(NatToDecimal(n)) == n
  {
    if n >= 10 {
      var s := NatToDecimal(n / 10) + [DigitChar(n % 10)];
      assert s[..|s| - 1] == NatToDecimal(n / 10);
      NatToDecimalValue(n / 10);
    }
  }

  /** The decimal rendering of an integer reads back as that integer, so two
      different integers never render alike. */
  lemma IntToDecimalRoundTrip(n: int)
    ensures ParseDecimal(IntToDecimal(n)) == n
  {
    if n < 0 {
      NatToDecimalValue(-n);
      assert ("-" + NatToDecimal(-n))[1..] == NatToDecimal(-n);
    } else {
      NatToDecimalValue(n);
    }
  }

  lemma IntToDecimalInjective(m: int, n: int)
    requires IntToDecimal(m) == IntToDecimal(n)
    ensures m == n
  {
    IntToDecimalRoundTrip(m);
    IntToDecimalRoundTrip(n);
  }
}
