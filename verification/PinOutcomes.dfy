/** What one PIN call answers and leaves behind, read off the row and the cache it finds; and what a
    successful login is worth to the calls that follow. */
module PinOutcomes {
  import opened Basics
  import opened PinLockout

  predicate Reads(a: Attempt) { a.ready && a.lockRead }

  /** Every call looks at the cached lock, a login also at the one on the row. */
  predicate Stopped(s: Store, a: Attempt) {
    (s.lock.Some? && s.now < s.lock.value) || (a.kind == Login && s.lockedRow.Some? && s.now < s.lockedRow.value)
  }

  /** The comparison is made and says no. */
  predicate Misses(s: Store, a: Attempt) { Reads(a) && !Stopped(s, a) && a.usable && a.compared && !a.right }

  predicate Hits(s: Store, a: Attempt) { Reads(a) && !Stopped(s, a) && a.usable && a.compared && a.right }

  /** The failure is counted and is one too many. */
  predicate Exceeds(s: Store, a: Attempt) { Misses(s, a) && a.increment.Done? && s.attempts + 1 >= s.maxAttempts }

  /** A login and a stored change reset the count; a verification does not. */
  predicate Clears(s: Store, a: Attempt) { Hits(s, a) && (a.kind == Login || (a.kind == Change && a.accepted)) }

  /** The call that nobody comes between. */
  function Alone(s: Store, a: Attempt): (Store, Phase) { Drive(s, Arrive(s, a), a, MAX_CALLS) }

  /** The answer of every call. A change tells no failure short of a lock apart; a login whose reset
      fails is an error, though the PIN was right. */
  lemma AnswersExactly(s: Store, a: Attempt)
    ensures var q := Alone(s, a).1;
      && q.Over?
      && (q.answer == Blocked <==> Reads(a) && Stopped(s, a))
      && (q.answer == LockedNow <==> Exceeds(s, a))
      && (q.answer == Right <==>
          Hits(s, a) && (a.kind == Login ==> a.reset.Done?) && (a.kind == Change ==> a.accepted))
      && (q.answer.Wrong? <==> a.kind != Change && Misses(s, a) && a.increment.Done? && !Exceeds(s, a))
      && (q.answer.Wrong? ==> q.answer.remaining == s.maxAttempts - s.attempts - 1 > 0)
      && (q.answer == Invalid <==> a.kind != Change && Reads(a) && !Stopped(s, a) && !a.usable)
      && (q.answer == Mismatch <==>
          a.kind == Change && Reads(a) && !Stopped(s, a) && (!a.usable || (Misses(s, a) && !Exceeds(s, a))))
      && (q.answer == Error <==>
          || !Reads(a)
          || (!Stopped(s, a) && a.usable && !a.compared)
          || (a.kind != Change && Misses(s, a) && !a.increment.Done?)
          || (a.kind == Login && Hits(s, a) && !a.reset.Done?)
          || (a.kind == Change && Hits(s, a) && !a.accepted))
  {
    hide Drive;
    TryIsDriven(s, a);
  }

  /** The count on the row: cleared by a right PIN at a login or a change, one up for a wrong one, and
      otherwise as it was. */
  lemma CountExactly(s: Store, a: Attempt)
    ensures var t := Alone(s, a).0;
      && (Clears(s, a) && !a.reset.Refused? ==> t.attempts == 0)
      && (Misses(s, a) && !a.increment.Refused? ==> t.attempts == s.attempts + 1)
      && (!(Clears(s, a) && !a.reset.Refused?) && !(Misses(s, a) && !a.increment.Refused?) ==>
            t.attempts == s.attempts)
  {
    hide Drive;
    TryIsDriven(s, a);
  }

  /** The lock: only a call that answers LockedNow sets one, for half an hour, or for a day from the third
      of a day on; the count of locks is refreshed first, and the row gets a copy last. */
  lemma LockExactly(s: Store, a: Attempt)
    ensures var t := Alone(s, a).0;
      var n := if s.counter.Some? && s.now < s.counter.value.until then s.counter.value.n + 1 else 1;
      var until := s.now + (if n >= 3 then DAY else HALF_HOUR);
      && t.counter == (if Exceeds(s, a) && !a.pipeline.Refused? then Some(Counter(n, s.now + DAY)) else s.counter)
      && t.lock == (if Exceeds(s, a) && a.pipeline.Done? && !a.set_.Refused? then Some(until) else s.lock)
      && t.lockedRow == (if Exceeds(s, a) && a.pipeline.Done? && a.set_.Done? && !a.row.Refused? then Some(until)
                         else s.lockedRow)
      && t.now == s.now && t.maxAttempts == s.maxAttempts
  {
    hide Drive;
    TryIsDriven(s, a);
  }

  // --- After a successful login ---

  /** Nothing that happens meanwhile is a step of a call. */
  predicate Quiet(e: Event) { !e.Step? }

  lemma {:induction false} QuietRunKeepsCount(w: World, events: seq<Event>)
    requires forall e :: e in events ==> Quiet(e)
    ensures Run(w, events).s.attempts == w.s.attempts && Run(w, events).s.maxAttempts == w.s.maxAttempts
    ensures w.calls.Keys <= Run(w, events).calls.Keys
    decreases |events|
  {
    if events != [] {
      assert Quiet(events[0]);
      QuietRunKeepsCount(Apply(w, events[0]), events[1..]);
    }
  }

  function Whole(id: CallId, a: Attempt): seq<Event> { [Call(id, a)] + seq(MAX_CALLS, _ => Step(id, a)) }

  lemma WholeIsAlone(w: World, id: CallId, a: Attempt)
    requires id !in w.calls
    ensures var (t, q) := Alone(w.s, a); Run(w, Whole(id, a)) == World(t, w.calls[id := q])
  {
    hide Drive, Arrive;
    var steps := seq(MAX_CALLS, _ => Step(id, a));
    var v := Apply(w, Call(id, a));
    assert Whole(id, a)[1..] == steps;
    DriveIsARun(v, id, a, MAX_CALLS);
    var q := Alone(w.s, a).1;
    assert w.calls[id := Arrive(w.s, a)][id := q] == w.calls[id := q];
  }

  /** A login that answers Right gives all attempts back: in every run, whatever time passes and whatever
      the cache forgets meanwhile, the next call whose PIN is wrong and whose failure is counted is told
      one attempt less than the maximum. */
  lemma LoginGivesAttemptsBack(w: World, id: CallId, a: Attempt, between: seq<Event>, next: CallId, b: Attempt)
    requires id !in w.calls && a.kind == Login && Alone(w.s, a).1 == Over(Right)
    requires forall e :: e in between ==> Quiet(e)
    requires var v := Run(Run(w, Whole(id, a)), between);
      next !in v.calls && b.kind != Change && Misses(v.s, b) && b.increment.Done? && v.s.maxAttempts > 1
    ensures var u := Run(w, Whole(id, a) + between + Whole(next, b));
      next in u.calls && u.calls[next] == Over(Wrong(w.s.maxAttempts - 1))
  {
    hide Run, Drive, Arrive;
    var first, second := Whole(id, a), Whole(next, b);
    RunAppend(w, first + between, second);
    RunAppend(w, first, between);
    WholeIsAlone(w, id, a);
    AnswersExactly(w.s, a);
    CountExactly(w.s, a);
    LockExactly(w.s, a);
    QuietRunKeepsCount(Run(w, first), between);
    var v := Run(w, first + between);
    WholeIsAlone(v, next, b);
    AnswersExactly(v.s, b);
  }

  /** A verification does not: after one with the right PIN the failures before it still count. */
  lemma VerifyKeepsFailures(s: Store, a: Attempt, b: Attempt)
    requires a.kind == Verify && Hits(s, a)
    requires b.kind == Verify && Misses(s, b) && b.increment.Done? && s.attempts + 1 >= s.maxAttempts
    ensures Alone(s, a).1 == Over(Right) && Alone(Alone(s, a).0, b).1 == Over(LockedNow)
  {
    hide Drive, Arrive;
    AnswersExactly(s, a);
    CountExactly(s, a);
    LockExactly(s, a);
    AnswersExactly(Alone(s, a).0, b);
  }
}
