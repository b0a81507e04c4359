/** Characters and decimal numbers, as the text formats of the repository use them. */
module Text {
  import opened Basics

  predicate IsDigit(c: char) { '0' <= c <= '9' }

  function DigitChar(d: int): (c: char)
    requires 0 <= d < 10
    ensures IsDigit(c) && c as int - '0' as int == d
  {
    '0' + d as char
  }

  predicate AllDigits(s: string) { forall i :: 0 <= i < |s| ==> IsDigit(s[i]) }

  /** Decimal digits without leading zeros. */
  function Decimal(n: nat): (s: string)
    ensures s != "" && AllDigits(s)
  {
    if n < 10 then [DigitChar(n)] else Decimal(n / 10) + [DigitChar(n % 10)]
  }

  /** The number a string of digits stands for. */
  function Value(s: string): (n: nat)
    requires AllDigits(s)
  {
    if s == "" then 0 else 10 * Value(s[..|s| - 1]) + (s[|s| - 1] as int - '0' as int)
  }

  lemma {:induction false} ValueOfDecimal(n: nat)
    ensures Value(Decimal(n)) == n
  {
    if n >= 10 {
      ValueOfDecimal(n / 10);
      assert Decimal(n)[..|Decimal(n)| - 1] == Decimal(n / 10);
    }
  }

  /** How a signed integer prints. */
  function Signed(i: int): (s: string)
    ensures |s| > 0 && AllDigits(s[1..]) && (s[0] == '-' || IsDigit(s[0]))
  {
    if i < 0 then "-" + Decimal(-i) else Decimal(i)
  }

  function ParseSigned(s: string): int {
    if s != "" && s[0] == '-' && AllDigits(s[1..]) then 0 - Value(s[1..]) as int
    else if AllDigits(s) then Value(s)
    else 0
  }

  lemma SignedReadsBack(i: int)
    ensures ParseSigned(Signed(i)) == i
  {
    if i < 0 {
      ValueOfDecimal(-i);
    } else {
      ValueOfDecimal(i);
    }
  }

  /** The position of the first `c`, or the length when there is none. */
  function First(s: string, c: char): (i: nat)
    ensures i <= |s| && c !in s[..i] && (i < |s| ==> s[i] == c)
  {
    if s == "" || s[0] == c then 0 else 1 + First(s[1..], c)
  }

  /** The position after the last `c`, or 0 when there is none. */
  function AfterLast(s: string, c: char): (i: nat)
    ensures i <= |s| && c !in s[i..] && (i > 0 ==> s[i - 1] == c)
  {
    if s == "" then 0 else if s[|s| - 1] == c then |s| else AfterLast(s[..|s| - 1], c)
  }

  lemma FirstIs(a: string, c: char, b: string)
    requires c !in a
    ensures First(a + [c] + b, c) == |a|
  {
    var s, i := a + [c] + b, First(a + [c] + b, c);
    assert s[|a|] == c;
    assert forall k :: 0 <= k < |a| ==> s[k] == a[k];
    assert forall k :: 0 <= k < i ==> s[..i][k] == s[k];
  }

  lemma {:induction false} AfterLastIs(a: string, c: char, b: string)
    requires c !in b
    ensures AfterLast(a + [c] + b, c) == |a| + 1
    decreases |b|
  {
    var s := a + [c] + b;
    if b != "" {
      assert s[..|s| - 1] == a + [c] + b[..|b| - 1];
      assert s[|s| - 1] == b[|b| - 1];
      AfterLastIs(a, c, b[..|b| - 1]);
    }
  }

  datatype Cut = Cut(head: string, tail: string)

  /** The text around the first `c`. */
  function AroundFirst(s: string, c: char): Option<Cut> {
    var i := First(s, c);
    if i == |s| then None else Some(Cut(s[..i], s[i + 1..]))
  }

  /** The text around the last `c`. */
  function AroundLast(s: string, c: char): Option<Cut> {
    var i := AfterLast(s, c);
    if i == 0 then None else Some(Cut(s[..i - 1], s[i..]))
  }

  lemma AroundFirstIs(a: string, c: char, b: string)
    requires c !in a
    ensures AroundFirst(a + [c] + b, c) == Some(Cut(a, b))
  {
    var s := a + [c] + b;
    FirstIs(a, c, b);
    assert s[..|a|] == a && s[|a| + 1..] == b;
  }

  lemma AroundLastIs(a: string, c: char, b: string)
    requires c !in b
    ensures AroundLast(a + [c] + b, c) == Some(Cut(a, b))
  {
    var s := a + [c] + b;
    AfterLastIs(a, c, b);
    assert s[..|a|] == a && s[|a| + 1..] == b;
  }

  // --- Lines ---

  const NL := '\n'

  /** Every line followed by a newline. */
  function Join(lines: seq<string>): string {
    if lines == [] then "" else Join(lines[..|lines| - 1]) + lines[|lines| - 1] + [NL]
  }

  /** The lines of a text, the last one whether or not a newline ends it. */
  function Lines(s: string): seq<string>
    decreases |s|
  {
    if s == "" then []
    else
      var i := First(s, NL);
      if i == |s| then [s] else [s[..i]] + Lines(s[i + 1..])
  }

  lemma {:induction false} JoinFromFront(lines: seq<string>)
    requires lines != []
    ensures Join(lines) == lines[0] + [NL] + Join(lines[1..])
    decreases |lines|
  {
    var n := |lines|;
    if n == 1 {
      assert lines[..0] == [] && lines[1..] == [];
    } else {
      var tail, last := lines[1..][..n - 2], lines[n - 1];
      JoinFromFront(lines[..n - 1]);
      assert lines[..n - 1][1..] == tail && lines[1..][n - 2] == last;
    }
  }

  lemma {:induction false} LinesOfJoin(lines: seq<string>)
    requires forall i :: 0 <= i < |lines| ==> NL !in lines[i]
    ensures Lines(Join(lines)) == lines
    decreases |lines|
  {
    if lines != [] {
      JoinFromFront(lines);
      var s, rest := Join(lines), Join(lines[1..]);
      FirstIs(lines[0], NL, rest);
      assert s[..|lines[0]|] == lines[0] && s[|lines[0]| + 1..] == rest;
      LinesOfJoin(lines[1..]);
      assert lines == [lines[0]] + lines[1..];
    }
  }

  lemma JoinExtends(lines: seq<string>, line: string)
    ensures Join(lines + [line]) == Join(lines) + line + [NL]
  {
    assert (lines + [line])[..|lines|] == lines;
  }

  lemma {:induction false} JoinSplits(a: seq<string>, b: seq<string>)
    ensures Join(a + b) == Join(a) + Join(b)
    decreases |b|
  {
    if b == [] {
      assert a + b == a;
    } else {
      var n := |b| - 1;
      assert a + b == (a + b[..n]) + [b[n]] && b == b[..n] + [b[n]];
      JoinExtends(a + b[..n], b[n]);
      JoinExtends(b[..n], b[n]);
      JoinSplits(a, b[..n]);
      assert (Join(a) + Join(b[..n])) + b[n] + [NL] == Join(a) + (Join(b[..n]) + b[n] + [NL]);
    }
  }

  /** What follows a name at the head of a line. */
  predicate Begins(line: string, name: string) { name <= line }

  function After(line: string, name: string): string
    requires Begins(line, name)
  {
    line[|name|..]
  }

  // --- White space and case, for ASCII ---

  predicate IsSpace(c: char) {
    c == ' ' || c == '\t' || c == '\n' || c == '\r' || c == 0x0B as char || c == 0x0C as char
  }

  function LeadingSpaces(s: string): (n: nat)
    ensures n <= |s| && (forall i :: 0 <= i < n ==> IsSpace(s[i])) && (n < |s| ==> !IsSpace(s[n]))
  {
    if s != "" && IsSpace(s[0]) then 1 + LeadingSpaces(s[1..]) else 0
  }

  /** Where the white space at the end begins. */
  function TextEnd(s: string): (n: nat)
    ensures n <= |s| && (forall i :: n <= i < |s| ==> IsSpace(s[i])) && (n > 0 ==> !IsSpace(s[n - 1]))
  {
    if s != "" && IsSpace(s[|s| - 1]) then TextEnd(s[..|s| - 1]) else |s|
  }

  function Trim(s: string): string {
    var t := s[LeadingSpaces(s)..];
    t[..TextEnd(t)]
  }

  predicate Trimmed(s: string) { s == "" || (!IsSpace(s[0]) && !IsSpace(s[|s| - 1])) }

  lemma TrimOfTrimmed(s: string)
    requires Trimmed(s)
    ensures Trim(s) == s
  {}

  function UpperChar(c: char): char {
    if 'a' <= c <= 'z' then (c as int - 32) as char else c
  }

  function Upper(s: string): (r: string)
    ensures |r| == |s| && forall i :: 0 <= i < |s| ==> r[i] == UpperChar(s[i])
  {
    seq(|s|, i requires 0 <= i < |s| => UpperChar(s[i]))
  }

  lemma UpperSplits(a: string, b: string)
    ensures Upper(a + b) == Upper(a) + Upper(b)
  {}

  /** Whether `t` occurs in `s`. */
  function Contains(s: string, t: string): bool {
    if t <= s then true else if s == "" then false else Contains(s[1..], t)
  }

  lemma {:induction false} ContainsAt(p: string, t: string, q: string)
    ensures Contains(p + t + q, t)
    decreases |p|
  {
    var s := p + t + q;
    if p == "" {
      assert s == t + q;
    } else {
      assert s[1..] == p[1..] + t + q;
      ContainsAt(p[1..], t, q);
    }
  }

  lemma {:induction false} ContainsSplits(s: string, t: string) returns (p: string, q: string)
    requires Contains(s, t)
    ensures s == p + t + q
    decreases |s|
  {
    if t <= s {
      p, q := "", s[|t|..];
    } else {
      p, q := ContainsSplits(s[1..], t);
      p := [s[0]] + p;
    }
  }

  /** The library's decimal conversion: an optional sign and at least one digit. */
  function Atoi(s: string): Option<int> {
    if s != "" && AllDigits(s) then Some(Value(s))
    else if |s| > 1 && s[0] == '+' && AllDigits(s[1..]) then Some(Value(s[1..]))
    else if |s| > 1 && s[0] == '-' && AllDigits(s[1..]) then Some(0 - Value(s[1..]))
    else None
  }

  /** A number as exactly two digits. */
  function TwoDigits(n: nat): (s: string)
    requires n < 100
    ensures |s| == 2 && AllDigits(s)
  {
    [DigitChar(n / 10), DigitChar(n % 10)]
  }

  lemma TwoDigitsValue(s: string)
    requires |s| == 2 && AllDigits(s)
    ensures Atoi(s) == Some(Value(s)) && Value(s) < 100 && TwoDigits(Value(s)) == s
    ensures Value(s) == 10 * (s[0] as int - '0' as int) + (s[1] as int - '0' as int)
  {
    assert s[..1] == [s[0]] && s[..1][..0] == "";
    assert Value(s[..1]) == s[0] as int - '0' as int;
  }

  lemma ValueOfTwoDigits(n: nat)
    requires n < 100
    ensures Value(TwoDigits(n)) == n
  {
    TwoDigitsValue(TwoDigits(n));
  }
}
