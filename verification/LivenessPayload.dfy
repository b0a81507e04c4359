/** The canonical text a device signs over its liveness frames. */
module LivenessPayload {
  import opened Basics
  import opened Text

  /** One captured frame; `digest` is the hex SHA-256 of its bytes. */
  datatype Step = Step(index: int, action: string, capturedAt: int, digest: string)

  datatype Evidence = Evidence(challenge: string, nonce: string, device: string, neutral: string, steps: seq<Step>)

  // --- The stable order ---

  predicate Ordered(s: seq<Step>) {
    forall i, j :: 0 <= i < j < |s| ==> s[i].index <= s[j].index
  }

  predicate Strict(s: seq<Step>) {
    forall i, j :: 0 <= i < j < |s| ==> s[i].index < s[j].index
  }

  predicate DistinctIndices(s: seq<Step>) {
    forall i, j :: 0 <= i < j < |s| ==> s[i].index != s[j].index
  }

  /** Before the first frame whose index is not smaller. */
  function Insert(x: Step, s: seq<Step>): (r: seq<Step>)
    ensures |r| == |s| + 1 && forall y :: y in r <==> y == x || y in s
  {
    if s == [] || x.index <= s[0].index then [x] + s else [s[0]] + Insert(x, s[1..])
  }

  /** Sorted by index; frames with the same index keep their order. */
  function StableSort(s: seq<Step>): (r: seq<Step>)
    ensures |r| == |s| && forall y :: y in r <==> y in s
  {
    if s == [] then [] else Insert(s[0], StableSort(s[1..]))
  }

  lemma {:induction false} InsertOrders(x: Step, s: seq<Step>)
    requires Ordered(s)
    ensures Ordered(Insert(x, s))
    decreases |s|
  {
    if s != [] && s[0].index < x.index {
      InsertOrders(x, s[1..]);
      var r := Insert(x, s[1..]);
      forall k | 0 <= k < |r| ensures s[0].index <= r[k].index {
        assert r[k] in r;
      }
    }
  }

  lemma {:induction false} InsertStrictly(x: Step, s: seq<Step>)
    requires Strict(s) && forall k :: 0 <= k < |s| ==> s[k].index != x.index
    ensures Strict(Insert(x, s))
    decreases |s|
  {
    if s != [] && s[0].index < x.index {
      InsertStrictly(x, s[1..]);
      var r := Insert(x, s[1..]);
      forall k | 0 <= k < |r| ensures s[0].index < r[k].index {
        assert r[k] in r;
      }
    }
  }

  lemma {:induction false} SortOrders(s: seq<Step>)
    ensures Ordered(StableSort(s))
    decreases |s|
  {
    if s != [] {
      SortOrders(s[1..]);
      InsertOrders(s[0], StableSort(s[1..]));
    }
  }

  lemma {:induction false} SortStrictly(s: seq<Step>)
    requires DistinctIndices(s)
    ensures Strict(StableSort(s))
    decreases |s|
  {
    if s != [] {
      SortStrictly(s[1..]);
      var r := StableSort(s[1..]);
      forall k | 0 <= k < |r| ensures r[k].index != s[0].index {
        assert r[k] in r;
      }
      InsertStrictly(s[0], r);
    }
  }

  function WithIndex(s: seq<Step>, i: int): seq<Step> {
    if s == [] then [] else (if s[0].index == i then [s[0]] else []) + WithIndex(s[1..], i)
  }

  lemma {:induction false} InsertIsStable(x: Step, s: seq<Step>, i: int)
    ensures WithIndex(Insert(x, s), i) == WithIndex([x] + s, i)
    decreases |s|
  {
    if s == [] || x.index <= s[0].index {
    } else {
      InsertIsStable(x, s[1..], i);
      assert Insert(x, s)[1..] == Insert(x, s[1..]);
      assert ([x] + s)[1..] == s && ([x] + s[1..])[1..] == s[1..];
    }
  }

  lemma {:induction false} SortIsStable(s: seq<Step>, i: int)
    ensures WithIndex(StableSort(s), i) == WithIndex(s, i)
    decreases |s|
  {
    if s != [] {
      SortIsStable(s[1..], i);
      InsertIsStable(s[0], StableSort(s[1..]), i);
      assert ([s[0]] + StableSort(s[1..]))[1..] == StableSort(s[1..]);
    }
  }

  /** Strictly sorted lists of the same frames are the same list. */
  lemma {:induction false} OneStrictList(s: seq<Step>, t: seq<Step>)
    requires Strict(s) && Strict(t) && forall y :: y in s <==> y in t
    ensures s == t
    decreases |s|
  {
    assert (s == [] || s[0] in s) && (t == [] || t[0] in t);
    if s != [] {
      var i :| 0 <= i < |t| && t[i] == s[0];
      var j :| 0 <= j < |s| && s[j] == t[0];
      assert s[0] == t[0];
      forall y ensures y in s[1..] <==> y in t[1..] {
        assert y in s <==> y == s[0] || y in s[1..];
        assert y in t <==> y == t[0] || y in t[1..];
        assert s[0] !in s[1..] && t[0] !in t[1..];
      }
      OneStrictList(s[1..], t[1..]);
    }
  }

  // --- The text ---

  function StepBody(s: Step): string {
    Signed(s.index) + [':'] + ((s.action + [':'] + Signed(s.capturedAt)) + [':'] + s.digest)
  }

  function StepLine(s: Step): string { "step=" + StepBody(s) }

  function StepLines(s: seq<Step>): (lines: seq<string>)
    ensures |lines| == |s| && forall i :: 0 <= i < |s| ==> lines[i] == StepLine(s[i])
  {
    if s == [] then [] else StepLines(s[..|s| - 1]) + [StepLine(s[|s| - 1])]
  }

  function Header(e: Evidence): seq<string> {
    ["v1", "challenge_id=" + e.challenge, "nonce=" + e.nonce, "device_id=" + e.device, "neutral=" + e.neutral]
  }

  function Payload(e: Evidence): string {
    Join(Header(e) + StepLines(StableSort(e.steps)))
  }

  /** The source's builder. Sorting is the library's stable sort. */
  method SignedPayload(e: Evidence) returns (text: string)
    ensures text == Payload(e)
  {
    hide StepLine, Header, Join, StableSort;
    var ordered := StableSort(e.steps);
    text := HeaderText(e);
    ghost var lines := Header(e);
    for i := 0 to |ordered|
      invariant lines == Header(e) + StepLines(ordered[..i]) && text == Join(lines)
    {
      assert ordered[..i + 1][..i] == ordered[..i];
      var line := StepLine(ordered[i]);
      JoinExtends(lines, line);
      text := text + line + [NL];
      lines := lines + [line];
    }
    assert ordered[..|ordered|] == ordered;
  }

  method HeaderText(e: Evidence) returns (text: string)
    ensures text == Join(Header(e))
  {
    text := "";
    ghost var lines := [];
    text, lines := Append(text, lines, "v1");
    text, lines := Append(text, lines, "challenge_id=" + e.challenge);
    text, lines := Append(text, lines, "nonce=" + e.nonce);
    text, lines := Append(text, lines, "device_id=" + e.device);
    text, lines := Append(text, lines, "neutral=" + e.neutral);
    assert lines == Header(e);
  }

  method Append(text: string, ghost lines: seq<string>, line: string) returns (longer: string, ghost more: seq<string>)
    requires text == Join(lines)
    ensures longer == Join(more) && more == lines + [line]
  {
    JoinExtends(lines, line);
    return text + line + [NL], lines + [line];
  }

  // --- Reading it back ---

  function Field(lines: seq<string>, i: nat, name: string): Option<string> {
    if i < |lines| && Begins(lines[i], name) then Some(After(lines[i], name)) else None
  }

  /** The index is up to the first colon, the digest after the last, the time after the last but
      one; whatever is between is the action. */
  function ParseStep(body: string): Option<Step> {
    var x := AroundFirst(body, ':');
    if x.None? then None
    else
      var y := AroundLast(x.value.tail, ':');
      if y.None? then None
      else
        var z := AroundLast(y.value.head, ':');
        if z.None? then None
        else Some(Step(ParseSigned(x.value.head), z.value.head, ParseSigned(z.value.tail), y.value.tail))
  }

  lemma SignedHasNo(i: int, c: char)
    requires c == ':' || c == NL
    ensures c !in Signed(i)
  {}

  lemma StepReadsBack(s: Step)
    requires ':' !in s.digest
    ensures ParseStep(StepBody(s)) == Some(s)
  {
    hide Signed, ParseSigned, AroundFirst, AroundLast;
    var i, t := Signed(s.index), Signed(s.capturedAt);
    SignedHasNo(s.index, ':');
    SignedHasNo(s.capturedAt, ':');
    AroundFirstIs(i, ':', (s.action + [':'] + t) + [':'] + s.digest);
    AroundLastIs(s.action + [':'] + t, ':', s.digest);
    AroundLastIs(s.action, ':', t);
    SignedReadsBack(s.index);
    SignedReadsBack(s.capturedAt);
  }

  function ParseSteps(lines: seq<string>): Option<seq<Step>> {
    if lines == [] then Some([])
    else
      var body := Field(lines, 0, "step=");
      if body.None? then None
      else
        var step := ParseStep(body.value);
        var rest := ParseSteps(lines[1..]);
        if step.None? || rest.None? then None else Some([step.value] + rest.value)
  }

  function ParseLines(lines: seq<string>): Option<Evidence> {
    var challenge := Field(lines, 1, "challenge_id=");
    var nonce := Field(lines, 2, "nonce=");
    var device := Field(lines, 3, "device_id=");
    var neutral := Field(lines, 4, "neutral=");
    if neutral.None? || device.None? || nonce.None? || challenge.None? || lines[0] != "v1" then None
    else
      var steps := ParseSteps(lines[5..]);
      if steps.None? then None
      else Some(Evidence(challenge.value, nonce.value, device.value, neutral.value, steps.value))
  }

  function Parse(s: string): Option<Evidence> { ParseLines(Lines(s)) }

  /** Digests are hexadecimal, and no field the client or the challenge supplies holds a
      newline. Actions may hold anything else, colons included. */
  predicate StepClean(s: Step) {
    NL !in s.action && NL !in s.digest && ':' !in s.digest
  }

  predicate Clean(e: Evidence) {
    && NL !in e.challenge && NL !in e.nonce && NL !in e.device && NL !in e.neutral
    && forall i :: 0 <= i < |e.steps| ==> StepClean(e.steps[i])
  }

  lemma {:induction false} StepsReadBack(s: seq<Step>)
    requires forall i :: 0 <= i < |s| ==> StepClean(s[i])
    ensures ParseSteps(StepLines(s)) == Some(s)
    decreases |s|
  {
    hide StepBody, StepLine, StepLines, ParseStep, Field;
    if s != [] {
      assert StepLines(s)[1..] == StepLines(s[1..]);
      StepLineReadsBack(StepLines(s), s[0]);
      StepsReadBack(s[1..]);
      assert s == [s[0]] + s[1..];
    }
  }

  lemma StepLineReadsBack(lines: seq<string>, s: Step)
    requires lines != [] && lines[0] == StepLine(s) && StepClean(s)
    ensures Field(lines, 0, "step=") == Some(StepBody(s)) && ParseStep(StepBody(s)) == Some(s)
  {
    hide StepBody, ParseStep;
    StepReadsBack(s);
  }

  lemma HeaderReadsBack(e: Evidence, tail: seq<string>)
    ensures ParseLines(Header(e) + tail) ==
            match ParseSteps(tail) case None => None case Some(steps) => Some(e.(steps := steps))
  {
    hide ParseSteps;
    assert (Header(e) + tail)[5..] == tail;
  }

  lemma StepBodyIsOneLine(s: Step)
    requires StepClean(s)
    ensures NL !in StepLine(s)
  {
    hide Signed;
    SignedHasNo(s.index, NL);
    SignedHasNo(s.capturedAt, NL);
    OneLine(Signed(s.index), [':'] + ((s.action + [':'] + Signed(s.capturedAt)) + [':'] + s.digest));
    OneLine("step=", StepBody(s));
  }

  lemma OneLine(a: string, b: string)
    requires NL !in a && NL !in b
    ensures NL !in a + b
  {}

  lemma HeaderIsLines(e: Evidence)
    requires NL !in e.challenge && NL !in e.nonce && NL !in e.device && NL !in e.neutral
    ensures forall i :: 0 <= i < |Header(e)| ==> NL !in Header(e)[i]
  {
    OneLine("challenge_id=", e.challenge);
    OneLine("nonce=", e.nonce);
    OneLine("device_id=", e.device);
    OneLine("neutral=", e.neutral);
  }

  lemma LinesOfPayload(e: Evidence, steps: seq<Step>)
    requires NL !in e.challenge && NL !in e.nonce && NL !in e.device && NL !in e.neutral
    requires forall i :: 0 <= i < |steps| ==> StepClean(steps[i])
    ensures Lines(Join(Header(e) + StepLines(steps))) == Header(e) + StepLines(steps)
  {
    hide StepLine, Header, Join, Lines;
    forall i | 0 <= i < |steps| ensures NL !in StepLines(steps)[i] {
      StepBodyIsOneLine(steps[i]);
    }
    HeaderIsLines(e);
    LinesOfJoin(Header(e) + StepLines(steps));
  }

  /** The payload can be read back: it determines everything that was signed, up to the order of
      the frames. */
  lemma PayloadReadsBack(e: Evidence)
    requires Clean(e)
    ensures Parse(Payload(e)) == Some(e.(steps := StableSort(e.steps)))
  {
    hide Header, StepLines, ParseLines;
    var sorted := StableSort(e.steps);
    forall i | 0 <= i < |sorted| ensures StepClean(sorted[i]) {
      assert sorted[i] in sorted;
    }
    LinesOfPayload(e, sorted);
    StepsReadBack(sorted);
    HeaderReadsBack(e, StepLines(sorted));
  }

  /** One signature covers one piece of evidence: equal payloads mean the same challenge, nonce,
      device, neutral frame and index-ordered steps, and conversely. */
  lemma PayloadsAgreeExactly(e: Evidence, f: Evidence)
    requires Clean(e) && Clean(f)
    ensures Payload(e) == Payload(f) <==>
            e.(steps := StableSort(e.steps)) == f.(steps := StableSort(f.steps))
  {
    hide Parse, StepLines;
    PayloadReadsBack(e);
    PayloadReadsBack(f);
  }

  /** The order in which frames with distinct indices arrive does not matter. */
  lemma ArrivalOrderIsIrrelevant(e: Evidence, steps: seq<Step>)
    requires DistinctIndices(e.steps) && DistinctIndices(steps) && forall y :: y in steps <==> y in e.steps
    ensures Payload(e.(steps := steps)) == Payload(e)
  {
    SortStrictly(e.steps);
    SortStrictly(steps);
    OneStrictList(StableSort(e.steps), StableSort(steps));
  }

  lemma TwoLines(a: string, b: string)
    ensures Join([a, b]) == a + [NL] + b + [NL]
  {
    JoinExtends([], a);
    JoinExtends([a], b);
    assert [] + [a] == [a] && [a] + [b] == [a, b];
  }

  lemma SameText(c: string, n: string, x: string, y: string, z: string)
    ensures Join([c + (x + [NL] + n + y), n + z]) == Join([c + x, n + (y + [NL] + n + z)])
  {
    TwoLines(c + (x + [NL] + n + y), n + z);
    TwoLines(c + x, n + (y + [NL] + n + z));
    assert (c + (x + [NL] + n + y)) + [NL] + (n + z) + [NL] == (c + x) + [NL] + (n + (y + [NL] + n + z)) + [NL];
  }

  /** The newline condition is needed: a newline in the challenge id or the nonce lets one text
      be signed for two different pairs of them. */
  lemma NewlinesCollide(x: string, y: string, z: string, e: Evidence)
    ensures Payload(e.(challenge := x + [NL] + "nonce=" + y, nonce := z)) ==
            Payload(e.(challenge := x, nonce := y + [NL] + "nonce=" + z))
  {
    var a := e.(challenge := x + [NL] + "nonce=" + y, nonce := z);
    var b := e.(challenge := x, nonce := y + [NL] + "nonce=" + z);
    var tail := HeaderTail(e) + StepLines(StableSort(e.steps));
    var s := ["challenge_id=" + a.challenge, "nonce=" + a.nonce];
    var t := ["challenge_id=" + b.challenge, "nonce=" + b.nonce];
    HeaderSplits(a, StepLines(StableSort(e.steps)));
    HeaderSplits(b, StepLines(StableSort(e.steps)));
    SameText("challenge_id=", "nonce=", x, y, z);
    assert HeaderTail(a) == HeaderTail(e) && HeaderTail(b) == HeaderTail(e);
    hide Header, Join, StepLines, StableSort, HeaderTail;
    JoinMiddle(["v1"], s, t, tail);
  }

  function HeaderTail(e: Evidence): seq<string> {
    ["device_id=" + e.device, "neutral=" + e.neutral]
  }

  lemma HeaderSplits(e: Evidence, steps: seq<string>)
    ensures Header(e) + steps ==
            ["v1"] + (["challenge_id=" + e.challenge, "nonce=" + e.nonce] + (HeaderTail(e) + steps))
  {
    var h := Header(e);
    assert h == [h[0]] + ([h[1], h[2]] + [h[3], h[4]]);
  }

  lemma JoinMiddle(a: seq<string>, s: seq<string>, t: seq<string>, tail: seq<string>)
    requires Join(s) == Join(t)
    ensures Join(a + (s + tail)) == Join(a + (t + tail))
  {
    JoinSplits(a, s + tail);
    JoinSplits(a, t + tail);
    JoinSplits(s, tail);
    JoinSplits(t, tail);
  }
}
