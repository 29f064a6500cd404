/**
  Text as the bridge produces it: decimal integers and booleans as C# formats
  them inside an interpolated string, and the lines a StringBuilder collects
  through AppendLine.  Parsers are given beside each formatter so that the
  display can be read back.
*/
module Text {
  import opened Wrappers

  /** The line terminator AppendLine adds (the WebGL player's newline). */
  const NewLine: string := "\n"

  predicate IsDigit(c: char) {
    '0' <= c <= '9'
  }

  predicate AllDigits(s: string) {
    forall i :: 0 <= i < |s| ==> IsDigit(s[i])
  }

  function DigitChar(d: nat): (c: char)
    requires d < 10
    ensures IsDigit(c)
  {
    ('0' as int + d) as char
  }

  /** Decimal digits of a natural number, most significant first, no leading zeros. */
  function NatDigits(n: nat): (s: string)
    ensures |s| >= 1 && AllDigits(s)
    ensures n >= 10 ==> s[0] != '0'
    decreases n
  {
    if n < 10 then [DigitChar(n)] else NatDigits(n / 10) + [DigitChar(n % 10)]
  }

  /** The value of a string of decimal digits. */
  function DigitsValue(s: string): nat
    requires AllDigits(s)
  {
    if s == [] then 0
    else
      assert AllDigits(s[..|s| - 1]);
      DigitsValue(s[..|s| - 1]) * 10 + (s[|s| - 1] as int - '0' as int)
  }

  lemma {:induction false} NatDigitsRoundTrip(n: nat)
    ensures DigitsValue(NatDigits(n)) == n
    decreases n
  {
    var s := NatDigits(n);
    if n >= 10 {
      NatDigitsRoundTrip(n / 10);
      assert s[..|s| - 1] == NatDigits(n / 10);
      assert s[|s| - 1] == DigitChar(n % 10);
    }
  }

  /** `{i}` in an interpolated string: an optional minus sign, then the digits. */
  function IntToString(i: int): (s: string)
    ensures |s| >= 1
    ensures forall k :: 0 <= k < |s| ==> IsDigit(s[k]) || s[k] == '-'
  {
    if i < 0 then "-" + NatDigits(-i) else NatDigits(i)
  }

  function ParseInt(s: string): Option<int> {
    if |s| >= 2 && s[0] == '-' && AllDigits(s[1..]) then Some(-(DigitsValue(s[1..]) as int))
    else if |s| >= 1 && AllDigits(s) then Some(DigitsValue(s))
    else None
  }

  lemma IntToStringRoundTrip(i: int)
    ensures ParseInt(IntToString(i)) == Some(i)
  {
    var s := IntToString(i);
    if i < 0 {
      assert s[1..] == NatDigits(-i);
      NatDigitsRoundTrip(-i);
    } else {
      assert IsDigit(s[0]);
      NatDigitsRoundTrip(i);
    }
  }

  /** `{b}` for a C# bool. */
  function BoolToString(b: bool): string {
    if b then "True" else "False"
  }

  function ParseBool(s: string): Option<bool> {
    if s == "True" then Some(true) else if s == "False" then Some(false) else None
  }

  lemma BoolToStringRoundTrip(b: bool)
    ensures ParseBool(BoolToString(b)) == Some(b)
  {
  }

  /** Position of the first `c` in `s`, or `|s|` when there is none. */
  function IndexOf(s: string, c: char): (i: nat)
    ensures i <= |s|
    ensures i < |s| ==> s[i] == c
    ensures forall j :: 0 <= j < i ==> s[j] != c
  {
    if s == [] then 0 else if s[0] == c then 0 else 1 + IndexOf(s[1..], c)
  }

  /** What a StringBuilder holds after AppendLine of each of `lines` in turn. */
  function RenderLines(lines: seq<string>): string {
    if lines == [] then "" else lines[0] + NewLine + RenderLines(lines[1..])
  }

  /** One more AppendLine adds the line and its terminator at the end. */
  lemma {:induction false} RenderLinesSnoc(lines: seq<string>, line: string)
    ensures RenderLines(lines + [line]) == RenderLines(lines) + line + NewLine
  {
    if lines != [] {
      assert (lines + [line])[1..] == lines[1..] + [line];
      RenderLinesSnoc(lines[1..], line);
    }
  }

  /** Cuts text into the lines it holds, each terminated by a newline (the last one possibly not). */
  function SplitLines(s: string): seq<string>
    decreases |s|
  {
    if s == [] then []
    else
      var i := IndexOf(s, '\n');
      if i == |s| then [s] else [s[..i]] + SplitLines(s[i + 1..])
  }

  predicate NoNewline(line: string) {
    forall k :: 0 <= k < |line| ==> line[k] != '\n'
  }

  /** Text built by AppendLine reads back as exactly the lines appended. */
  lemma {:induction false} SplitRenderLines(lines: seq<string>)
    requires forall i :: 0 <= i < |lines| ==> NoNewline(lines[i])
    ensures SplitLines(RenderLines(lines)) == lines
  {
    if lines != [] {
      var l, rest := lines[0], RenderLines(lines[1..]);
      var s := RenderLines(lines);
      assert s == l + NewLine + rest;
      assert s[|l|] == '\n';
      assert forall j :: 0 <= j < |l| ==> s[j] == l[j];
      var i := IndexOf(s, '\n');
      assert i == |l|;
      assert s[..i] == l;
      assert s[i + 1..] == rest;
      SplitRenderLines(lines[1..]);
    }
  }
}
