/**
 The text functions of the C library that the runtime configuration files go
 through: fgets into a buffer of 255 bytes, strtok at colons, %d both ways.
 */
module TextLines {
  import opened Bytes

  const COLON: byte := 58
  const NEWLINE: byte := 10
  const MINUS: byte := 45
  const PLUS: byte := 43
  const LINE_MAX := 254

  // ---------------------------------------------------------------- fgets

  /** Where the line that starts the text ends: behind its newline, at the buffer's size, or at the end of the file. */
  function LineEnd(text: seq<byte>, k: nat): (e: nat)
    requires k <= |text|
    ensures k <= e <= |text| && (k < |text| && k < LINE_MAX ==> k < e)
    decreases |text| - k
  {
    if k == |text| || k >= LINE_MAX then k else if text[k] == NEWLINE then k + 1 else LineEnd(text, k + 1)
  }

  /** All that fgets returns until the end of the file. */
  function FileLines(text: seq<byte>): seq<seq<byte>> {
    if text == [] then []
    else
      var e := LineEnd(text, 0);
      [text[..e]] + FileLines(text[e..])
  }

  ghost predicate Free(s: seq<byte>, c: byte) {
    forall k :: 0 <= k < |s| ==> s[k] != c
  }

  /** A line that one call of fgets reads. */
  ghost predicate IsLine(s: seq<byte>) {
    0 < |s| <= LINE_MAX && s[|s| - 1] == NEWLINE && forall k :: 0 <= k < |s| - 1 ==> s[k] != NEWLINE
  }

  lemma {:induction false} LineEndIs(line: seq<byte>, rest: seq<byte>, k: nat)
    requires IsLine(line) && k < |line|
    ensures LineEnd(line + rest, k) == |line|
    decreases |line| - k
  {
    assert (line + rest)[k] == line[k];
    if k < |line| - 1 {
      LineEndIs(line, rest, k + 1);
    }
  }

  lemma FirstLine(line: seq<byte>, rest: seq<byte>)
    requires IsLine(line)
    ensures FileLines(line + rest) == [line] + FileLines(rest)
  {
    LineEndIs(line, rest, 0);
    assert (line + rest)[..|line|] == line && (line + rest)[|line|..] == rest;
  }

  /** Reading lines back. */
  lemma {:induction false} LinesBack(lines: seq<seq<byte>>, i: nat)
    requires i <= |lines| && forall k :: 0 <= k < |lines| ==> IsLine(lines[k])
    ensures FileLines(Joined(lines, i)) == lines[i..]
    decreases |lines| - i
  {
    if i < |lines| {
      LinesBack(lines, i + 1);
      FirstLine(lines[i], Joined(lines, i + 1));
      assert lines[i..] == [lines[i]] + lines[i + 1..];
    }
  }

  lemma {:induction false} NoEnd(text: seq<byte>, k: nat)
    requires k <= 254 <= |text| && Free(text[..254], NEWLINE)
    ensures LineEnd(text, k) == 254
    decreases 254 - k
  {
    if k < 254 {
      assert text[k] == text[..254][k];
      NoEnd(text, k + 1);
    }
  }

  /** A line too long for the buffer of 255 bytes is read in pieces. */
  lemma LongLine(text: seq<byte>)
    requires |text| >= 254 && Free(text[..254], NEWLINE)
    ensures FileLines(text) == [text[..254]] + FileLines(text[254..])
  {
    NoEnd(text, 0);
  }

  // ---------------------------------------------------------------- strtok

  function FirstColon(s: seq<byte>, k: nat): (e: nat)
    requires k <= |s|
    ensures k <= e <= |s|
    decreases |s| - k
  {
    if k == |s| || s[k] == COLON then k else FirstColon(s, k + 1)
  }

  /** The tokens between colons; neighbouring colons count as one. */
  function Tokens(s: seq<byte>): seq<seq<byte>> {
    if s == [] then []
    else if s[0] == COLON then Tokens(s[1..])
    else
      var e := FirstColon(s, 1);
      [s[..e]] + Tokens(s[e..])
  }

  lemma {:induction false} FirstColonIs(f: seq<byte>, rest: seq<byte>, k: nat)
    requires Free(f, COLON) && k <= |f|
    ensures FirstColon(f + [COLON] + rest, k) == |f|
    decreases |f| - k
  {
    var s := f + [COLON] + rest;
    assert s[k] == if k < |f| then f[k] else COLON;
    if k < |f| {
      FirstColonIs(f, rest, k + 1);
    }
  }

  lemma SkipColon(rest: seq<byte>)
    ensures Tokens([COLON] + rest) == Tokens(rest)
  {
    assert ([COLON] + rest)[1..] == rest;
  }

  /** A field in front of a colon is the first token. */
  lemma FirstToken(f: seq<byte>, rest: seq<byte>)
    requires f != [] && Free(f, COLON)
    ensures Tokens(f + [COLON] + rest) == [f] + Tokens(rest)
  {
    var s := f + [COLON] + rest;
    FirstColonIs(f, rest, 1);
    assert s[0] == f[0] && s[..|f|] == f && s[|f|..] == [COLON] + rest;
    SkipColon(rest);
  }

  lemma TwoTokens(f: seq<byte>, g: seq<byte>, rest: seq<byte>)
    requires f != [] && g != [] && Free(f, COLON) && Free(g, COLON)
    ensures Tokens(f + [COLON] + (g + [COLON] + rest)) == [f, g] + Tokens(rest)
  {
    FirstToken(f, g + [COLON] + rest);
    FirstToken(g, rest);
  }

  lemma LastToken()
    ensures Tokens([NEWLINE]) == [[NEWLINE]]
  {
    assert FirstColon([NEWLINE], 1) == 1;
    assert [NEWLINE][..1] == [NEWLINE] && [NEWLINE][1..] == [];
  }

  // ---------------------------------------------------------------- %d

  predicate IsDigit(c: byte) {
    48 <= c <= 57
  }

  function Decimal(n: nat): (s: seq<byte>)
    ensures s != []
  {
    if n < 10 then [48 + n] else Decimal(n / 10) + [48 + n % 10]
  }

  /** printf %d */
  function PrintInt(n: int): (s: seq<byte>)
    ensures s != []
  {
    if n < 0 then [MINUS] + Decimal(-n) else Decimal(n)
  }

  function DigitRun(s: seq<byte>, k: nat): (e: nat)
    requires k <= |s|
    ensures k <= e <= |s|
    decreases |s| - k
  {
    if k < |s| && IsDigit(s[k]) then DigitRun(s, k + 1) else k
  }

  /** The number the characters from `k` up to `e` denote. */
  function Value(s: seq<byte>, k: nat, e: nat): int
    requires k <= e <= |s|
    decreases e
  {
    if k == e then 0
    else
      var c: int := s[e - 1];
      Value(s, k, e - 1) * 10 + (c - 48)
  }

  function SkipSpace(s: seq<byte>, k: nat): (e: nat)
    requires k <= |s|
    ensures k <= e <= |s|
    decreases |s| - k
  {
    if k < |s| && (s[k] == 32 || 9 <= s[k] <= 13) then SkipSpace(s, k + 1) else k
  }

  /** sscanf %d; without a number the variable keeps what it had. */
  function ScanInt(s: seq<byte>, before: int): int {
    var i := SkipSpace(s, 0);
    var signed := i < |s| && (s[i] == MINUS || s[i] == PLUS);
    var k := if signed then i + 1 else i;
    var e := DigitRun(s, k);
    if e == k then before else if signed && s[i] == MINUS then -Value(s, k, e) else Value(s, k, e)
  }

  lemma {:induction false} DecimalDigits(n: nat)
    ensures forall k :: 0 <= k < |Decimal(n)| ==> IsDigit(Decimal(n)[k])
  {
    if n >= 10 {
      DecimalDigits(n / 10);
    }
  }

  lemma {:induction false} ValuePrefix(a: seq<byte>, b: seq<byte>, k: nat, e: nat)
    requires k <= e <= |a|
    ensures Value(a + b, k, e) == Value(a, k, e)
    decreases e
  {
    if k < e {
      ValuePrefix(a, b, k, e - 1);
    }
  }

  lemma {:induction false} DecimalValue(pre: seq<byte>, n: nat)
    ensures Value(pre + Decimal(n), |pre|, |pre| + |Decimal(n)|) == n
  {
    var s, k := pre + Decimal(n), |pre|;
    if n < 10 {
      assert Value(s, k, k) == 0;
    } else {
      var d := Decimal(n / 10);
      DecimalValue(pre, n / 10);
      assert s == (pre + d) + [48 + n % 10];
      ValuePrefix(pre + d, [48 + n % 10], k, k + |d|);
    }
  }

  lemma {:induction false} BlanksSkipped(b: seq<byte>, s: seq<byte>, k: nat)
    requires k <= |b| && (forall j :: 0 <= j < |b| ==> b[j] == 32) && s != [] && s[0] != 32 && !(9 <= s[0] <= 13)
    ensures SkipSpace(b + s, k) == |b|
    decreases |b| - k
  {
    assert (b + s)[k] == if k < |b| then b[k] else s[0];
    if k < |b| {
      BlanksSkipped(b, s, k + 1);
    }
  }

  /** Blanks in front of a number are skipped, and what follows its digits does not matter. */
  lemma NumberFound(b: seq<byte>, n: nat, rest: seq<byte>, before: int)
    requires (forall j :: 0 <= j < |b| ==> b[j] == 32) && (rest == [] || !IsDigit(rest[0]))
    ensures ScanInt(b + Decimal(n) + rest, before) == n
    ensures ScanInt(b + [MINUS] + Decimal(n) + rest, before) == 0 - n
    ensures ScanInt(b + [PLUS] + Decimal(n) + rest, before) == n
  {
    DecimalDigits(n);
    SignedFound(b, [], n, rest, before);
    assert b + [] == b;
    SignedFound(b, [MINUS], n, rest, before);
    SignedFound(b, [PLUS], n, rest, before);
  }

  lemma SignedFound(b: seq<byte>, sign: seq<byte>, n: nat, rest: seq<byte>, before: int)
    requires (forall j :: 0 <= j < |b| ==> b[j] == 32) && (rest == [] || !IsDigit(rest[0]))
    requires sign == [] || sign == [MINUS] || sign == [PLUS]
    ensures ScanInt(b + sign + Decimal(n) + rest, before) == if sign == [MINUS] then 0 - n else n
  {
    var s := b + sign + Decimal(n) + rest;
    SignAt(b, sign, n, rest);
    DigitsAt(b + sign, n, rest);
  }

  /** Where the sign is. */
  lemma SignAt(b: seq<byte>, sign: seq<byte>, n: nat, rest: seq<byte>)
    requires forall j :: 0 <= j < |b| ==> b[j] == 32
    requires sign == [] || sign == [MINUS] || sign == [PLUS]
    ensures var s := b + sign + Decimal(n) + rest;
            SkipSpace(s, 0) == |b| < |s| && s[|b|] == if sign == [] then Decimal(n)[0] else sign[0]
  {
    var s, t := b + sign + Decimal(n) + rest, sign + Decimal(n) + rest;
    DecimalDigits(n);
    assert s == b + t;
    assert t[0] == if sign == [] then Decimal(n)[0] else sign[0];
    BlanksSkipped(b, t, 0);
  }

  /** Where the digits are, and what they denote. */
  lemma DigitsAt(pre: seq<byte>, n: nat, rest: seq<byte>)
    requires rest == [] || !IsDigit(rest[0])
    ensures var s := pre + Decimal(n) + rest;
            var e := |pre| + |Decimal(n)|;
            |pre| < e == DigitRun(s, |pre|) && Value(s, |pre|, e) == n && IsDigit(Decimal(n)[0])
  {
    DecimalDigits(n);
    DigitsEnd(pre, Decimal(n), rest, 0);
    DecimalValue(pre, n);
    ValuePrefix(pre + Decimal(n), rest, |pre|, |pre| + |Decimal(n)|);
  }

  lemma {:induction false} DigitsEnd(pre: seq<byte>, d: seq<byte>, rest: seq<byte>, k: nat)
    requires k <= |d| && (forall j :: 0 <= j < |d| ==> IsDigit(d[j])) && (rest == [] || !IsDigit(rest[0]))
    ensures DigitRun(pre + d + rest, |pre| + k) == |pre| + |d|
    decreases |d| - k
  {
    if k < |d| {
      assert (pre + d + rest)[|pre| + k] == d[k];
      DigitsEnd(pre, d, rest, k + 1);
    } else if rest != [] {
      assert (pre + d + rest)[|pre| + k] == rest[0];
    }
  }

  /** What %d prints, %d reads. */
  lemma IntBack(n: int, before: int)
    ensures ScanInt(PrintInt(n), before) == n
  {
    var sign, d := if n < 0 then [MINUS] else [], Decimal(if n < 0 then -n else n);
    assert [] + sign + d + [] == PrintInt(n);
    SignedFound([], sign, if n < 0 then -n else n, [], before);
  }

  lemma PrintFree(n: int, c: byte)
    requires !IsDigit(c) && c != MINUS
    ensures Free(PrintInt(n), c)
  {
    DecimalDigits(if n < 0 then -n else n);
  }
}
