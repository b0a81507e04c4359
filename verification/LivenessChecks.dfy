/** The model-free checks of a liveness submission, the checks on top of a face model, and the
    three providers that combine them. */
module LivenessChecks {
  import opened Basics
  import opened LivenessActions
  import opened LivenessHash

  /** The bytes of a frame: none, not a picture, or the grey samples of the decoded picture. */
  datatype Frame = Empty | Undecodable | Picture(samples: seq<real>)

  predicate Decodes(f: Frame) { f.Picture? && IsGrid(f.samples) }

  function HashFor(f: Frame): (h: seq<bool>)
    requires Decodes(f)
    ensures IsHash(h)
  {
    AverageHash(f.samples)
  }

  function Name(a: Action): string {
    match a
    case TurnLeft => "TURN_LEFT"
    case TurnRight => "TURN_RIGHT"
    case LookUp => "LOOK_UP"
    case LookDown => "LOOK_DOWN"
    case Blink => "BLINK"
  }

  datatype StepFrame = StepFrame(index: int, action: string, capturedAt: int, frame: Frame)

  datatype Challenge = Challenge(id: string, nonce: string, session: string, device: string, deviceKey: string,
                                 actions: seq<Action>, issuedAt: int, expiresAt: int)

  datatype Submission = Submission(session: string, challenge: string, nonce: string, device: string,
                                   deviceKey: string, neutral: Frame, steps: seq<StepFrame>)

  datatype Config = Config(minFrameDistance: int, maxClockSkew: int, livenessThreshold: real, matchThreshold: real)

  /** Midnight of 1 January of year 1 in UTC, in Unix milliseconds: the instant the time library
      calls zero. */
  const ZERO_TIME := -62135596800000

  datatype Reason =
    | Pass
    | ChallengeMismatch | DeviceMismatch | DeviceKeyMismatch | MissingNeutral | FrameCount
    | StepIndex | StepAction | EmptyStep | OutsideWindow | NotMonotonic
    | NeutralUndecodable | StepUndecodable | Duplicate | TooSimilar

  function Lower(c: Config, ch: Challenge): int { ch.issuedAt - c.maxClockSkew }
  function Upper(c: Config, ch: Challenge): int { ch.expiresAt + c.maxClockSkew }

  // --- What is demanded ---

  predicate Bound(ch: Challenge, s: Submission) {
    && s.challenge == ch.id && s.nonce == ch.nonce && s.device == ch.device
    && (ch.deviceKey != "" ==> s.deviceKey == ch.deviceKey)
  }

  predicate StepMatches(ch: Challenge, s: Submission, i: nat)
    requires i < |s.steps| && i < |ch.actions|
  {
    s.steps[i].index == i && s.steps[i].action == Name(ch.actions[i]) && !s.steps[i].frame.Empty?
  }

  predicate InWindow(c: Config, ch: Challenge, t: int) { Lower(c, ch) <= t <= Upper(c, ch) }

  /** A frame is not older than the one before it, unless that one carries the zero time. */
  predicate Follows(s: Submission, i: nat)
    requires 0 < i < |s.steps|
  {
    s.steps[i - 1].capturedAt == ZERO_TIME || s.steps[i - 1].capturedAt <= s.steps[i].capturedAt
  }

  predicate FarFromNeutral(c: Config, ch: Challenge, s: Submission, i: nat)
    requires i < |s.steps| && i < |ch.actions| && Decodes(s.neutral) && Decodes(s.steps[i].frame)
  {
    var d := Distance(HashFor(s.steps[i].frame), HashFor(s.neutral));
    d != 0 && (IsHeadPose(ch.actions[i]) ==> c.minFrameDistance <= d)
  }

  predicate Apart(s: Submission, i: nat, j: nat)
    requires i < |s.steps| && j < |s.steps| && Decodes(s.steps[i].frame) && Decodes(s.steps[j].frame)
  {
    HashFor(s.steps[i].frame) != HashFor(s.steps[j].frame)
  }

  predicate Paired(ch: Challenge, s: Submission) {
    && Bound(ch, s) && !s.neutral.Empty? && |s.steps| == |ch.actions|
    && forall i :: 0 <= i < |s.steps| ==> StepMatches(ch, s, i)
  }

  predicate Timed(c: Config, ch: Challenge, s: Submission) {
    && (forall i :: 0 <= i < |s.steps| ==> InWindow(c, ch, s.steps[i].capturedAt))
    && forall i :: 0 < i < |s.steps| ==> Follows(s, i)
  }

  predicate DistinctFrames(c: Config, ch: Challenge, s: Submission)
    requires |s.steps| == |ch.actions|
  {
    && Decodes(s.neutral) && (forall i :: 0 <= i < |s.steps| ==> Decodes(s.steps[i].frame))
    && (forall i :: 0 <= i < |s.steps| ==> FarFromNeutral(c, ch, s, i))
    && forall i, j :: 0 <= i < j < |s.steps| ==> Apart(s, i, j)
  }

  predicate Accepts(c: Config, ch: Challenge, s: Submission) {
    Paired(ch, s) && Timed(c, ch, s) && DistinctFrames(c, ch, s)
  }

  // --- The loops ---

  method CheckPairing(ch: Challenge, s: Submission) returns (reason: Reason)
    ensures reason == Pass <==> Paired(ch, s)
    ensures reason.ChallengeMismatch? <==> s.challenge != ch.id || s.nonce != ch.nonce
    ensures reason.FrameCount? ==> |s.steps| != |ch.actions|
    ensures reason.StepIndex? || reason.StepAction? || reason.EmptyStep? ==>
              Bound(ch, s) && exists i :: 0 <= i < |s.steps| == |ch.actions| && !StepMatches(ch, s, i)
  {
    if s.challenge != ch.id || s.nonce != ch.nonce {
      return ChallengeMismatch;
    }
    if s.device != ch.device {
      return DeviceMismatch;
    }
    if ch.deviceKey != "" && s.deviceKey != ch.deviceKey {
      return DeviceKeyMismatch;
    }
    if s.neutral.Empty? {
      return MissingNeutral;
    }
    if |s.steps| != |ch.actions| {
      return FrameCount;
    }
    for i := 0 to |ch.actions|
      invariant forall k :: 0 <= k < i ==> StepMatches(ch, s, k)
    {
      var step := s.steps[i];
      if step.index != i {
        assert !StepMatches(ch, s, i);
        return StepIndex;
      }
      if step.action != Name(ch.actions[i]) {
        assert !StepMatches(ch, s, i);
        return StepAction;
      }
      if step.frame.Empty? {
        assert !StepMatches(ch, s, i);
        return EmptyStep;
      }
    }
    return Pass;
  }

  /** `previous` starts at the zero time, and a zero previous time is not compared with. */
  method CheckTimes(c: Config, ch: Challenge, s: Submission) returns (reason: Reason)
    ensures reason == Pass <==> Timed(c, ch, s)
    ensures reason == Pass || reason == OutsideWindow || reason == NotMonotonic
    ensures reason == OutsideWindow ==> exists i :: 0 <= i < |s.steps| && !InWindow(c, ch, s.steps[i].capturedAt)
  {
    var lower, upper := ch.issuedAt - c.maxClockSkew, ch.expiresAt + c.maxClockSkew;
    var previous := ZERO_TIME;
    for i := 0 to |s.steps|
      invariant previous == if i == 0 then ZERO_TIME else s.steps[i - 1].capturedAt
      invariant forall k :: 0 <= k < i ==> InWindow(c, ch, s.steps[k].capturedAt)
      invariant forall k :: 0 < k < i ==> Follows(s, k)
    {
      var t := s.steps[i].capturedAt;
      if t < lower || t > upper {
        assert !InWindow(c, ch, s.steps[i].capturedAt);
        return OutsideWindow;
      }
      if previous != ZERO_TIME && t < previous {
        assert !Follows(s, i);
        return NotMonotonic;
      }
      previous := t;
    }
    return Pass;
  }

  method HashFrames(s: Submission) returns (hashes: Option<seq<seq<bool>>>)
    ensures hashes.Some? <==> forall i :: 0 <= i < |s.steps| ==> Decodes(s.steps[i].frame)
    ensures hashes.Some? ==> |hashes.value| == |s.steps| &&
                             forall i :: 0 <= i < |s.steps| ==> hashes.value[i] == HashFor(s.steps[i].frame)
  {
    var h := [];
    for i := 0 to |s.steps|
      invariant |h| == i
      invariant forall k :: 0 <= k < i ==> Decodes(s.steps[k].frame) && h[k] == HashFor(s.steps[k].frame)
    {
      var f := s.steps[i].frame;
      if !f.Picture? || |f.samples| != SIDE * SIDE {
        assert !Decodes(s.steps[i].frame);
        return None;
      }
      var x := ComputeHash(f.samples);
      h := h + [x];
    }
    return Some(h);
  }

  method CheckDistinctness(c: Config, ch: Challenge, s: Submission) returns (reason: Reason)
    requires Paired(ch, s)
    ensures reason == Pass <==> DistinctFrames(c, ch, s)
    ensures reason == TooSimilar ==>
              exists i :: 0 <= i < |s.steps| && IsHeadPose(ch.actions[i]) && Decodes(s.neutral)
                          && Decodes(s.steps[i].frame)
                          && Distance(HashFor(s.steps[i].frame), HashFor(s.neutral)) < c.minFrameDistance
  {
    if !s.neutral.Picture? || |s.neutral.samples| != SIDE * SIDE {
      return NeutralUndecodable;
    }
    var neutral := ComputeHash(s.neutral.samples);
    var hashes := HashFrames(s);
    if hashes.None? {
      return StepUndecodable;
    }
    var frames := hashes.value;
    for i := 0 to |frames|
      invariant forall k :: 0 <= k < i ==> FarFromNeutral(c, ch, s, k)
    {
      assert StepMatches(ch, s, i);
      if Distance(frames[i], neutral) == 0 {
        assert !FarFromNeutral(c, ch, s, i);
        return Duplicate;
      }
      if s.steps[i].action != "BLINK" && Distance(frames[i], neutral) < c.minFrameDistance {
        assert !FarFromNeutral(c, ch, s, i);
        return TooSimilar;
      }
    }
    for i := 0 to |frames|
      invariant forall k, j :: 0 <= k < i && k < j < |frames| ==> Apart(s, k, j)
    {
      for j := i + 1 to |frames|
        invariant forall k :: i < k < j ==> Apart(s, i, k)
      {
        DistanceZero(frames[i], frames[j]);
        if Distance(frames[i], frames[j]) == 0 {
          assert !Apart(s, i, j);
          return Duplicate;
        }
      }
    }
    return Pass;
  }

  method CheckDeterministic(c: Config, ch: Challenge, s: Submission) returns (reason: Reason)
    ensures reason == Pass <==> Accepts(c, ch, s)
  {
    reason := CheckPairing(ch, s);
    if reason == Pass {
      reason := CheckTimes(c, ch, s);
      if reason == Pass {
        reason := CheckDistinctness(c, ch, s);
      }
    }
  }

  // --- Against the documented rule ---

  predicate Increasing(s: Submission) {
    forall i, j :: 0 <= i < j < |s.steps| ==> s.steps[i].capturedAt <= s.steps[j].capturedAt
  }

  ghost predicate AllHashesDistinct(s: Submission) {
    && Decodes(s.neutral) && (forall i :: 0 <= i < |s.steps| ==> Decodes(s.steps[i].frame))
    && (forall i :: 0 <= i < |s.steps| ==> HashFor(s.steps[i].frame) != HashFor(s.neutral))
    && forall i, j :: 0 <= i < j < |s.steps| ==> HashFor(s.steps[i].frame) != HashFor(s.steps[j].frame)
  }

  /** The rule as documented: bound to the challenge, the actions in order, the times advancing
      inside the window, every picture different, every head pose far from neutral. */
  ghost predicate Documented(c: Config, ch: Challenge, s: Submission) {
    && Paired(ch, s) && Increasing(s) && AllHashesDistinct(s)
    && (forall i :: 0 <= i < |s.steps| ==> InWindow(c, ch, s.steps[i].capturedAt))
    && forall i :: 0 <= i < |s.steps| && IsHeadPose(ch.actions[i]) ==>
                     c.minFrameDistance <= Distance(HashFor(s.steps[i].frame), HashFor(s.neutral))
  }

  lemma FramesAgree(c: Config, ch: Challenge, s: Submission)
    requires |s.steps| == |ch.actions|
    ensures DistinctFrames(c, ch, s) <==>
            AllHashesDistinct(s) && forall i :: 0 <= i < |s.steps| && IsHeadPose(ch.actions[i]) ==>
              c.minFrameDistance <= Distance(HashFor(s.steps[i].frame), HashFor(s.neutral))
  {
    if Decodes(s.neutral) && forall i :: 0 <= i < |s.steps| ==> Decodes(s.steps[i].frame) {
      forall i | 0 <= i < |s.steps|
        ensures Distance(HashFor(s.steps[i].frame), HashFor(s.neutral)) == 0 <==>
                HashFor(s.steps[i].frame) == HashFor(s.neutral)
      {
        DistanceZero(HashFor(s.steps[i].frame), HashFor(s.neutral));
      }
      if DistinctFrames(c, ch, s) {
        forall i | 0 <= i < |s.steps|
          ensures HashFor(s.steps[i].frame) != HashFor(s.neutral)
          ensures IsHeadPose(ch.actions[i]) ==>
                    c.minFrameDistance <= Distance(HashFor(s.steps[i].frame), HashFor(s.neutral))
        {
          assert FarFromNeutral(c, ch, s, i);
        }
        forall i, j | 0 <= i < j < |s.steps| ensures HashFor(s.steps[i].frame) != HashFor(s.steps[j].frame) {
          assert Apart(s, i, j);
        }
      }
    }
  }

  lemma {:induction false} FollowsIncreasing(c: Config, ch: Challenge, s: Submission, i: nat, j: nat)
    requires Timed(c, ch, s) && !(Lower(c, ch) < ZERO_TIME <= Upper(c, ch)) && i <= j < |s.steps|
    ensures s.steps[i].capturedAt <= s.steps[j].capturedAt
    decreases j
  {
    if i < j {
      FollowsIncreasing(c, ch, s, i, j - 1);
      assert Follows(s, j) && InWindow(c, ch, s.steps[j].capturedAt) && InWindow(c, ch, s.steps[j - 1].capturedAt);
    }
  }

  /** The code enforces the documented rule on every submission, unless the zero time lies in
      the window with room below it. */
  lemma AcceptsAsDocumented(c: Config, ch: Challenge, s: Submission)
    requires !(Lower(c, ch) < ZERO_TIME <= Upper(c, ch))
    ensures Accepts(c, ch, s) <==> Documented(c, ch, s)
  {
    if Paired(ch, s) {
      FramesAgree(c, ch, s);
    }
    if Accepts(c, ch, s) {
      forall i, j | 0 <= i < j < |s.steps| ensures s.steps[i].capturedAt <= s.steps[j].capturedAt {
        FollowsIncreasing(c, ch, s, i, j);
      }
    }
    if Documented(c, ch, s) {
      forall i | 0 < i < |s.steps| ensures Follows(s, i) {
      }
    }
  }

  /** The frames of a submission with the first stamped zero and the others a moment before. */
  function Backdated(s: Submission): Submission {
    s.(steps := seq(|s.steps|, i requires 0 <= i < |s.steps| =>
         s.steps[i].(capturedAt := if i == 0 then ZERO_TIME else ZERO_TIME - 1)))
  }

  /** And in that window it does not: every accepted submission of two frames or more is also
      accepted with its times running backwards. */
  lemma ZeroTimeBreaksTheOrder(c: Config, ch: Challenge, s: Submission)
    requires Lower(c, ch) < ZERO_TIME <= Upper(c, ch) && |s.steps| >= 2 && Accepts(c, ch, s)
    ensures Accepts(c, ch, Backdated(s)) && !Documented(c, ch, Backdated(s))
  {
    var b := Backdated(s);
    forall i | 0 <= i < |b.steps| ensures StepMatches(ch, b, i) {
      assert StepMatches(ch, s, i);
    }
    forall i | 0 < i < |b.steps| ensures Follows(b, i) {
    }
    forall i | 0 <= i < |b.steps| ensures FarFromNeutral(c, ch, b, i) {
      assert FarFromNeutral(c, ch, s, i);
    }
    forall i, j | 0 <= i < j < |b.steps| ensures Apart(b, i, j) {
      assert Apart(s, i, j);
    }
    assert b.steps[0].capturedAt > b.steps[1].capturedAt;
  }

  /** A still image fails: the same picture for two steps, or for a step and the neutral frame,
      is refused, whatever its exposure. */
  lemma StillImageIsRefused(c: Config, ch: Challenge, s: Submission, f: Frame, g: Frame, gain: real, offset: real)
    requires Decodes(f) && Decodes(g) && gain > 0.0
    requires forall i :: 0 <= i < |f.samples| ==> g.samples[i] == gain * f.samples[i] + offset
    requires (exists i :: 0 <= i < |s.steps| && AreBoth(s.steps[i].frame, s.neutral, f, g))
             || exists i, j :: 0 <= i < j < |s.steps| && AreBoth(s.steps[i].frame, s.steps[j].frame, f, g)
    ensures !Accepts(c, ch, s)
  {
    ExposureKeepsTheHash(f.samples, g.samples, gain, offset);
    if |s.steps| == |ch.actions| {
      FramesAgree(c, ch, s);
    }
  }

  predicate AreBoth(x: Frame, y: Frame, f: Frame, g: Frame) { (x == f && y == g) || (x == g && y == f) }

  // --- On top of a face model ---

  /** What a face model says of one frame. */
  datatype Face = Face(count: int, yaw: real, pitch: real, eyeOpen: real)

  /** The answers of the face model for one submission; None where a call failed. `same[i]`
      compares the i-th step with the neutral frame, `likeness` the enrolled reference with it. */
  datatype Analyses = Analyses(neutral: Option<Face>, steps: seq<Option<Face>>, same: seq<real>, spoof: Option<real>,
                               hasReference: bool, reference: Option<Face>, likeness: real)

  predicate PoseMatches(a: Action, f: Face) {
    match a
    case TurnLeft => f.yaw >= 18.0
    case TurnRight => f.yaw <= -18.0
    case LookUp => f.pitch >= 14.0
    case LookDown => f.pitch <= -10.0
    case Blink => f.eyeOpen <= 0.35
  }

  datatype Verdict = Passed(liveness: real, faceMatch: real) | Fails | Unavailable

  predicate StepShown(ch: Challenge, a: Analyses, i: nat)
    requires i < |ch.actions| && i < |a.steps| && i < |a.same|
  {
    a.steps[i].Some? && a.steps[i].value.count == 1 && PoseMatches(ch.actions[i], a.steps[i].value)
    && a.same[i] >= 0.75
  }

  /** One live person performs every action and is the enrolled person. */
  predicate PersonPasses(c: Config, ch: Challenge, a: Analyses)
    requires |a.steps| == |a.same| == |ch.actions|
  {
    && a.neutral.Some? && a.neutral.value.count == 1
    && (forall i :: 0 <= i < |ch.actions| ==> StepShown(ch, a, i))
    && a.spoof.Some? && a.spoof.value * 100.0 >= c.livenessThreshold
    && a.hasReference && a.reference.Some? && a.likeness * 100.0 >= c.matchThreshold
  }

  /** None: a call to the model failed, so nothing was judged. */
  method CheckWithModels(c: Config, ch: Challenge, a: Analyses) returns (verdict: Option<Verdict>)
    requires |a.steps| == |a.same| == |ch.actions|
    ensures verdict.Some? && verdict.value.Passed? <==> PersonPasses(c, ch, a)
    ensures verdict == Some(Unavailable) ==> !a.hasReference
    ensures verdict.Some? && verdict.value.Passed? ==>
              verdict.value.liveness >= c.livenessThreshold && verdict.value.faceMatch >= c.matchThreshold
  {
    if a.neutral.None? {
      return None;
    }
    if a.neutral.value.count != 1 {
      return Some(Fails);
    }
    for i := 0 to |a.steps|
      invariant forall k :: 0 <= k < i ==> StepShown(ch, a, k)
    {
      if a.steps[i].None? {
        assert !StepShown(ch, a, i);
        return None;
      }
      var face := a.steps[i].value;
      if face.count != 1 || !PoseMatches(ch.actions[i], face) || a.same[i] < 0.75 {
        assert !StepShown(ch, a, i);
        return Some(Fails);
      }
    }
    if a.spoof.None? {
      return None;
    }
    var liveness := a.spoof.value * 100.0;
    if liveness < c.livenessThreshold {
      return Some(Fails);
    }
    if !a.hasReference {
      return Some(Unavailable);
    }
    if a.reference.None? {
      return None;
    }
    var matched := a.likeness * 100.0;
    return Some(if matched >= c.matchThreshold then Passed(liveness, matched) else Fails);
  }

  /** The built-in provider, with or without a face model. */
  method VerifyInternal(c: Config, ch: Challenge, s: Submission, model: Option<Analyses>)
    returns (verdict: Option<Verdict>)
    requires model.Some? ==> |model.value.steps| == |model.value.same| == |ch.actions|
    ensures verdict.Some? && verdict.value.Passed? <==>
            Accepts(c, ch, s) && model.Some? && PersonPasses(c, ch, model.value)
    ensures model.None? ==> verdict == Some(if Accepts(c, ch, s) then Unavailable else Fails)
  {
    var reason := CheckDeterministic(c, ch, s);
    if reason != Pass {
      return Some(Fails);
    }
    if model.None? {
      return Some(Unavailable);
    }
    verdict := CheckWithModels(c, ch, model.value);
  }

  /** The development stub: what the built-in provider without a model could not judge passes. */
  method VerifyStub(c: Config, ch: Challenge, s: Submission) returns (verdict: Verdict)
    ensures verdict == if Accepts(c, ch, s) then Passed(100.0, 100.0) else Fails
  {
    var inner := VerifyInternal(c, ch, s, None);
    if inner != Some(Unavailable) {
      return inner.value;
    }
    return Passed(100.0, 100.0);
  }
}
