/** Onboarding sessions and the order of their steps. */
module Onboarding {
  import opened Basics

  type SessionId = string

  datatype Step =
    | Tnc | CardSelection | Ocr | PersonalData | OtpVerify | Biometric | VideoCall | Credentials | Review | Completed

  const STEP_ORDER := [Tnc, CardSelection, Ocr, PersonalData, OtpVerify, Biometric, VideoCall, Credentials, Review,
      Completed]

  /** `flags` is the part of the completed-steps record that the modelled services only copy. */
  datatype Session = Session(device: string, step: Step, biometric: bool, videoCall: bool, flags: set<string>,
                             expiresAt: int)

  predicate Expired(s: Session, now: int) { s.expiresAt < now }

  function StepIndex(s: Step): (i: nat)
    ensures i < |STEP_ORDER| && STEP_ORDER[i] == s
  {
    match s
    case Tnc => 0
    case CardSelection => 1
    case Ocr => 2
    case PersonalData => 3
    case OtpVerify => 4
    case Biometric => 5
    case VideoCall => 6
    case Credentials => 7
    case Review => 8
    case Completed => 9
  }

  predicate Skippable(s: Step) { s == CardSelection }

  ghost predicate CanTransition(from: Step, to: Step) {
    && StepIndex(from) < StepIndex(to)
    && forall i :: StepIndex(from) < i < StepIndex(to) ==> Skippable(STEP_ORDER[i])
  }

  method CheckTransition(from: Step, to: Step) returns (ok: bool)
    ensures ok <==> CanTransition(from, to)
  {
    var a, b := StepIndex(from), StepIndex(to);
    if b <= a {
      return false;
    }
    for i := a + 1 to b
      invariant forall k :: a < k < i ==> Skippable(STEP_ORDER[k])
    {
      if STEP_ORDER[i] != CardSelection {
        return false;
      }
    }
    return true;
  }

  /** Every step moves to the next one, and only the card selection can be passed over. */
  lemma TransitionsExactly(from: Step, to: Step)
    ensures CanTransition(from, to) <==>
            StepIndex(to) == StepIndex(from) + 1 || (from == Tnc && to == Ocr)
  {
    assert CanTransition(from, to) && StepIndex(from) < 2 < StepIndex(to) ==> Skippable(STEP_ORDER[2]);
    if StepIndex(to) > StepIndex(from) + 1 && CanTransition(from, to) {
      assert Skippable(STEP_ORDER[StepIndex(from) + 1]);
    }
  }

  lemma IndexOfStep(k: nat)
    requires k < |STEP_ORDER|
    ensures StepIndex(STEP_ORDER[k]) == k
  {}

  // --- The session store ---

  /** UPDATE of the step and the completed steps, whatever they were: no row, no change. */
  function StepWritten(rows: map<SessionId, Session>, x: SessionId, step: Step, copy: Session, o: Outcome)
    : (r: map<SessionId, Session>)
    ensures r.Keys == rows.Keys
    ensures forall y :: y in rows && y != x ==> r[y] == rows[y]
  {
    if o == Refused || x !in rows then rows
    else rows[x := rows[x].(step := step, biometric := copy.biometric, videoCall := copy.videoCall,
        flags := copy.flags)]
  }

  /** An expired session is not cached. */
  function Cached(cache: map<SessionId, Session>, x: SessionId, copy: Session, now: int): map<SessionId, Session> {
    if now < copy.expiresAt then cache[x := copy] else cache
  }
}
