/** Runs of overlapping PIN calls in which every store call succeeds and the lock does not slow
    anybody down. */
module PinRuns {
  import opened Basics
  import opened PinLockout
  import opened PinSafety

  /** A wrong PIN, with everything else going well. */
  const GUESS := Attempt(Verify, true, true, true, true, false, false, Done, Done, Done, Done, Done)

  // --- Any number of guesses at one moment ---

  /** `k` calls arrive and look at the lock before any of them compares. */
  function Arrivals(k: nat): seq<Event>
    decreases k
  {
    if k == 0 then [] else Arrivals(k - 1) + [Call(k - 1, GUESS), Step(k - 1, GUESS)]
  }

  /** The first `k` calls compare, count, and lock. */
  function Guesses(k: nat): seq<Event>
    decreases k
  {
    if k == 0 then [] else Guesses(k - 1) + seq(5, _ => Step(k - 1, GUESS))
  }

  /** The calls are past their look at the lock, and nothing else has happened. */
  ghost predicate Waiting(w: World, now: int, maxAttempts: int, k: nat) {
    && w.s == Opened(now, maxAttempts)
    && (forall id {:trigger id in w.calls} :: id in w.calls <==> 0 <= id < k)
    && (forall id {:trigger w.calls[id]} :: id in w.calls ==> w.calls[id] == Comparing(Verify, 0))
  }

  lemma RunTwo(w: World, a: Event, b: Event)
    ensures Run(w, [a, b]) == Apply(Apply(w, a), b)
  {
    hide Apply;
    RunAppend(w, [a], [b]);
    assert [a] + [b] == [a, b] && [a][1..] == [] && [b][1..] == [];
  }

  lemma {:induction false} ArrivalsWait(now: int, maxAttempts: int, k: nat)
    ensures Waiting(Run(Initial(now, maxAttempts), Arrivals(k)), now, maxAttempts, k)
    decreases k
  {
    if k > 0 {
      ArrivalsWait(now, maxAttempts, k - 1);
      RunAppend(Initial(now, maxAttempts), Arrivals(k - 1), [Call(k - 1, GUESS), Step(k - 1, GUESS)]);
      RunTwo(Run(Initial(now, maxAttempts), Arrivals(k - 1)), Call(k - 1, GUESS), Step(k - 1, GUESS));
    }
  }

  /** All locks so far started now, one for each failure past the allowance. */
  predicate AllAtOnce(s: Store, now: int, maxAttempts: int, k: nat) {
    && s.now == now && s.maxAttempts == maxAttempts && s.attempts == k && s.fails == k
    && |s.locks| == (if k > Allowance(s) then k - Allowance(s) else 0)
    && forall i :: 0 <= i < |s.locks| ==> s.locks[i].at == now
  }

  lemma OneGuess(s: Store, now: int, maxAttempts: int, k: nat)
    requires AllAtOnce(s, now, maxAttempts, k)
    ensures AllAtOnce(Drive(s, Comparing(Verify, 0), GUESS, 5).0, now, maxAttempts, k + 1)
  {
    hide Drive;
    var q := Comparing(Verify, 0);
    var (t, p) := Advance(s, q, GUESS);
    DriveStep(s, q, GUESS, 5);
    FailureIsDriven(s, p, GUESS);
  }

  lemma {:induction false} GuessesLock(w: World, now: int, maxAttempts: int, n: nat, k: nat)
    requires Waiting(w, now, maxAttempts, n) && k <= n
    ensures var v := Run(w, Guesses(k));
      && AllAtOnce(v.s, now, maxAttempts, k)
      && forall id :: k <= id < n ==> id in v.calls && v.calls[id] == Comparing(Verify, 0)
    decreases k
  {
    if k == 0 {
      forall id | 0 <= id < n ensures id in w.calls && w.calls[id] == Comparing(Verify, 0) {
        assert id in w.calls;
      }
    } else {
      GuessesLock(w, now, maxAttempts, n, k - 1);
      RunAppend(w, Guesses(k - 1), seq(5, _ => Step(k - 1, GUESS)));
      var v := Run(w, Guesses(k - 1));
      DriveIsARun(v, k - 1, GUESS, 5);
      OneGuess(v.s, now, maxAttempts, k - 1);
    }
  }

  /** However many calls look at the lock before the first of them compares, all of them compare, and
      each failure past the allowance starts a lock period at the same moment: the lock stops none. */
  lemma BurstLocksAtOnce(now: int, maxAttempts: int, n: nat)
    ensures var s := Run(Initial(now, maxAttempts), Arrivals(n) + Guesses(n)).s;
      && s.fails == n && s.now == now
      && |s.locks| == (if n > Allowance(s) then n - Allowance(s) else 0)
      && forall i :: 0 <= i < |s.locks| ==> s.locks[i].at == now
  {
    RunAppend(Initial(now, maxAttempts), Arrivals(n), Guesses(n));
    ArrivalsWait(now, maxAttempts, n);
    GuessesLock(Run(Initial(now, maxAttempts), Arrivals(n)), now, maxAttempts, n, n);
  }

  // --- A day cut to half an hour ---

  /** The user's second and third locks of the day are due at the same moment: they are numbered in
      one order and set in the other. */
  function Swapped(now: int): seq<Event> {
    [Call(0, GUESS)] + seq(MAX_CALLS, _ => Step(0, GUESS))
    + [Tick(now + HALF_HOUR)]
    + [Call(1, GUESS), Step(1, GUESS)] + [Call(2, GUESS), Step(2, GUESS)]
    + seq(3, _ => Step(1, GUESS)) + seq(4, _ => Step(2, GUESS)) + [Step(1, GUESS)]
  }

  lemma RunOne(w: World, e: Event)
    ensures Run(w, [e]) == Apply(w, e)
  {
    hide Apply;
    assert [e][1..] == [];
  }

  /** After the first lock has ended. */
  function AfterFirst(now: int): Store {
    Store(now + HALF_HOUR, 1, 1, Some(now + HALF_HOUR), Some(now + HALF_HOUR), Some(Counter(1, now + DAY)), 1, 1, now,
          [Lock(now, 1, now + HALF_HOUR)])
  }

  lemma FirstLock(now: int)
    ensures var w := Run(Initial(now, 1),
            [Call(0, GUESS)] + seq(MAX_CALLS, _ => Step(0, GUESS)) + [Tick(now + HALF_HOUR)]);
      w == World(AfterFirst(now), map[0 := Over(LockedNow)])
  {
    hide Run, Advance, Try;
    var w, call, steps := Initial(now, 1), [Call(0, GUESS)], seq(MAX_CALLS, _ => Step(0, GUESS));
    RunAppend(w, call + steps, [Tick(now + HALF_HOUR)]);
    RunAppend(w, call, steps);
    RunOne(w, Call(0, GUESS));
    DriveIsARun(Run(w, call), 0, GUESS, MAX_CALLS);
    TryIsDriven(w.s, GUESS);
    FirstTry(now);
    RunOne(Run(w, call + steps), Tick(now + HALF_HOUR));
  }

  lemma FirstTry(now: int)
    ensures Try(Opened(now, 1), GUESS) == (AfterFirst(now).(now := now), LockedNow)
  {
    var first := [Lock(now, 1, now + HALF_HOUR)];
    assert Opened(now, 1).locks + first == first;
  }

  /** The lock of a day stands for half an hour only. */
  lemma DayIsShortened(now: int)
    ensures var s := Run(Initial(now, 1), Swapped(now)).s;
      && |s.locks| == 3 && s.locks[1] == Lock(s.now, 3, s.now + DAY)
      && s.lock == Some(s.now + HALF_HOUR)
  {
    hide Run;
    var first := [Call(0, GUESS)] + seq(MAX_CALLS, _ => Step(0, GUESS)) + [Tick(now + HALF_HOUR)];
    var a, b := [Call(1, GUESS), Step(1, GUESS)], [Call(2, GUESS), Step(2, GUESS)];
    var c, d := seq(3, _ => Step(1, GUESS)), seq(4, _ => Step(2, GUESS));
    var w := Initial(now, 1);
    RunAppend(w, first + a + b + c + d, [Step(1, GUESS)]);
    RunAppend(w, first + a + b + c, d);
    RunAppend(w, first + a + b, c);
    RunAppend(w, first + a, b);
    RunAppend(w, first, a);
    FirstLock(now);
    var w1 := Run(w, first);
    RunTwo(w1, Call(1, GUESS), Step(1, GUESS));
    var w2 := Run(w, first + a);
    RunTwo(w2, Call(2, GUESS), Step(2, GUESS));
    var w3 := Run(w, first + a + b);
    DriveIsARun(w3, 1, GUESS, 3);
    DriveIsARun(Run(w, first + a + b + c), 2, GUESS, 4);
    RunOne(Run(w, first + a + b + c + d), Step(1, GUESS));
    Numbers(w3.s, Comparing(Verify, 1));
    SetsTheDay(Run(w, first + a + b + c).s, Comparing(Verify, 1));
  }

  /** Compare, count, and number the lock. */
  lemma Numbers(s: Store, q: Phase)
    requires q.Comparing? && s.attempts + 1 >= s.maxAttempts
    ensures Drive(s, q, GUESS, 3) ==
            (s.(fails := s.fails + 1, attempts := s.attempts + 1,
                counter := Some(Counter(LockCount(s) + 1, s.now + DAY))),
             Setting(q.since, LockCount(s) + 1, s.now))
  {
    hide Drive;
    var (t, p) := Advance(s, q, GUESS);
    var (t2, p2) := Advance(t, p, GUESS);
    DriveStep(s, q, GUESS, 3);
    DriveStep(t, p, GUESS, 2);
    DriveStep(t2, p2, GUESS, 1);
    DriveNone(Advance(t2, p2, GUESS).0, Advance(t2, p2, GUESS).1, GUESS);
  }

  lemma DriveNone(s: Store, q: Phase, a: Attempt)
    ensures Drive(s, q, a, 0) == (s, q)
  {}

  lemma SetsTheDay(s: Store, q: Phase)
    requires q.Comparing? && s.attempts + 1 >= s.maxAttempts && LockCount(s) == 2
    ensures var t := Drive(s, q, GUESS, 4).0;
      t.now == s.now && t.locks == s.locks + [Lock(s.now, 3, s.now + DAY)]
  {
    hide Drive;
    Numbers(s, q);
    DriveSplits(s, q, GUESS, 3);
    var (t, p) := Drive(s, q, GUESS, 3);
    DriveStep(t, p, GUESS, 1);
    DriveNone(Advance(t, p, GUESS).0, Advance(t, p, GUESS).1, GUESS);
  }

  lemma {:induction false} DriveSplits(s: Store, q: Phase, a: Attempt, n: nat)
    ensures Drive(s, q, a, n + 1) == Drive(Drive(s, q, a, n).0, Drive(s, q, a, n).1, a, 1)
    decreases n
  {
    hide Advance;
    if n > 0 {
      DriveStep(s, q, a, n + 1);
      DriveStep(s, q, a, n);
      DriveSplits(Advance(s, q, a).0, Advance(s, q, a).1, a, n - 1);
    } else {
      DriveNone(s, q, a);
    }
  }

  // --- The bound is met exactly ---

  function Whole(id: CallId): seq<Event> {
    [Call(id, GUESS)] + seq(MAX_CALLS, _ => Step(id, GUESS))
  }

  /** A call waits the whole delay between numbering its lock and setting it; the next lock is due the
      moment the count has lapsed, and each after that the moment the last has ended. */
  function First(now: int, delay: Delay): seq<Event> {
    [Call(0, GUESS)] + seq(4, _ => Step(0, GUESS)) + ([Tick(now + delay)] + seq(2, _ => Step(0, GUESS)))
  }

  function Tightest(now: int, delay: Delay): seq<Event> {
    First(now, delay)
    + ([Tick(now + DAY)] + Whole(1))
    + ([Tick(now + DAY + HALF_HOUR)] + Whole(2))
    + ([Tick(now + DAY + 2 * HALF_HOUR)] + Whole(3))
  }

  /** The store after a call alone has locked. */
  function AfterLock(s: Store): Store {
    var n := LockCount(s) + 1;
    var until := s.now + Duration(n);
    s.(fails := s.fails + 1, attempts := s.attempts + 1, counter := Some(Counter(n, s.now + DAY)), lock := Some(until),
       started := s.started + 1, locks := s.locks + [Lock(s.now, n, until)], lockedRow := Some(until))
  }

  lemma TryLocks(s: Store)
    requires !Locked(s) && s.attempts + 1 >= s.maxAttempts
    ensures Try(s, GUESS) == (AfterLock(s), LockedNow)
  {}

  lemma {:induction false} StepsAreAlone(w: World, id: CallId, n: nat, delay: Delay)
    ensures AloneRun(w, seq(n, _ => Step(id, GUESS)), id, delay)
    decreases n
  {
    var events := seq(n, _ => Step(id, GUESS));
    if n > 0 {
      assert events[1..] == seq(n - 1, _ => Step(id, GUESS));
      StepsAreAlone(Apply(w, events[0]), id, n - 1, delay);
    }
  }

  lemma OneIsOrderly(w: World, e: Event, delay: Delay)
    requires Orderly(w, delay) && (e.Call? || e.Tick?)
    ensures OrderlyRun(w, [e], delay) && Orderly(Run(w, [e]), delay) && Run(w, [e]) == Apply(w, e)
  {
    hide Orderly, Apply;
    RunOne(w, e);
    OrderStep(w, e, delay);
  }

  /** After a lock has ended, a call that nobody comes between locks again, in order. */
  lemma LocksAgain(w: World, t: int, id: CallId, delay: Delay)
    requires Orderly(w, delay) && id !in w.calls && w.s.now <= t && w.s.attempts + 1 >= w.s.maxAttempts
    requires w.s.lock.Some? ==> w.s.lock.value <= t
    ensures var events := [Tick(t)] + Whole(id);
      && OrderlyRun(w, events, delay) && Orderly(Run(w, events), delay)
      && Run(w, events) == World(AfterLock(w.s.(now := t)), w.calls[id := Over(LockedNow)])
  {
    hide Orderly, Run, OrderlyRun, Try, Drive, Advance, AfterLock;
    var tick, call, steps := [Tick(t)], [Call(id, GUESS)], seq(MAX_CALLS, _ => Step(id, GUESS));
    OneIsOrderly(w, Tick(t), delay);
    var w1 := Run(w, tick);
    OneIsOrderly(w1, Call(id, GUESS), delay);
    var w2 := Run(w1, call);
    StepsAreAlone(w2, id, MAX_CALLS, delay);
    AloneIsOrderly(w2, steps, id, delay);
    OrderlyAppend(w1, call, steps, delay);
    OrderlyAppend(w, tick, Whole(id), delay);
    RunAppend(w1, call, steps);
    RunAppend(w, tick, Whole(id));
    DriveIsARun(w2, id, GUESS, MAX_CALLS);
    TryIsDriven(w1.s, GUESS);
    TryLocks(w1.s);
    assert w.calls[id := w2.calls[id]][id := Over(LockedNow)] == w.calls[id := Over(LockedNow)];
  }

  function FirstLocked(now: int, delay: Delay): Store {
    var until := now + delay + HALF_HOUR;
    Store(now + delay, 1, 1, Some(until), Some(until), Some(Counter(1, now + DAY)), 1, 1, now,
          [Lock(now + delay, 1, until)])
  }

  lemma FirstIsOrderly(now: int, delay: Delay)
    ensures var w := Initial(now, 1);
      && OrderlyRun(w, First(now, delay), delay) && Orderly(Run(w, First(now, delay)), delay)
      && Run(w, First(now, delay)) == World(FirstLocked(now, delay), map[0 := Over(LockedNow)])
  {
    hide Run, OrderlyRun, Drive, Orderly;
    var w := Initial(now, 1);
    var call, number := [Call(0, GUESS)], seq(4, _ => Step(0, GUESS));
    var tick, last := [Tick(now + delay)], seq(2, _ => Step(0, GUESS));
    StartsOrderly(now, delay);
    OneIsOrderly(w, Call(0, GUESS), delay);
    var w1 := Run(w, call);
    StepsAreAlone(w1, 0, 4, delay);
    AloneIsOrderly(w1, number, 0, delay);
    DriveIsARun(w1, 0, GUESS, 4);
    NumbersFirst(now);
    var w2 := Run(w1, number);
    RunOne(w2, Tick(now + delay));
    var w3 := Run(w2, tick);
    StepsAreAlone(w3, 0, 2, delay);
    assert (tick + last)[1..] == last;
    assert AloneRun(w2, tick + last, 0, delay);
    AloneIsOrderly(w2, tick + last, 0, delay);
    DriveIsARun(w3, 0, GUESS, 2);
    SetsFirst(now, delay);
    RunAppend(w2, tick, last);
    RunAppend(w, call, number);
    RunAppend(w, call + number, tick + last);
    OrderlyAppend(w, call, number, delay);
    OrderlyAppend(w, call + number, tick + last, delay);
  }

  lemma StartsOrderly(now: int, delay: Delay)
    ensures Orderly(Initial(now, 1), delay)
  {}

  function Numbered1(now: int): Store {
    Opened(now, 1).(fails := 1, attempts := 1, counter := Some(Counter(1, now + DAY)))
  }

  lemma NumbersFirst(now: int)
    ensures Drive(Opened(now, 1), Looking(Verify, None), GUESS, 4) == (Numbered1(now), Setting(0, 1, now))
  {
    hide Drive;
    DriveStep(Opened(now, 1), Looking(Verify, None), GUESS, 4);
    Numbers(Opened(now, 1), Comparing(Verify, 0));
  }

  lemma SetsFirst(now: int, delay: Delay)
    ensures Drive(Numbered1(now).(now := now + delay), Setting(0, 1, now), GUESS, 2) ==
            (FirstLocked(now, delay), Over(LockedNow))
  {
    hide Drive;
    var s, q := Numbered1(now).(now := now + delay), Setting(0, 1, now);
    DriveStep(s, q, GUESS, 2);
    var (t, p) := Advance(s, q, GUESS);
    DriveStep(t, p, GUESS, 1);
    DriveNone(Advance(t, p, GUESS).0, Advance(t, p, GUESS).1, GUESS);
    assert s.locks + [Lock(now + delay, 1, now + delay + HALF_HOUR)] == FirstLocked(now, delay).locks;
  }

  /** An orderly run whose four lock periods take exactly twenty-five hours less the delay. */
  lemma BoundIsMet(now: int, delay: Delay)
    requires delay + HALF_HOUR <= DAY
    ensures var w, events := Initial(now, 1), Tightest(now, delay);
      && OrderlyRun(w, events, delay)
      && var s := Run(w, events).s;
         |s.locks| == 4 && s.locks[3].at - s.locks[0].at == Span(delay) + 2 * HALF_HOUR
  {
    hide Run, OrderlyRun, Orderly, First, Whole;
    var w := Initial(now, 1);
    var a := First(now, delay);
    var b, c := [Tick(now + DAY)] + Whole(1), [Tick(now + DAY + HALF_HOUR)] + Whole(2);
    var d := [Tick(now + DAY + 2 * HALF_HOUR)] + Whole(3);
    FirstIsOrderly(now, delay);
    LocksAgain(Run(w, a), now + DAY, 1, delay);
    RunAppend(w, a, b);
    OrderlyAppend(w, a, b, delay);
    LocksAgain(Run(w, a + b), now + DAY + HALF_HOUR, 2, delay);
    RunAppend(w, a + b, c);
    OrderlyAppend(w, a + b, c, delay);
    LocksAgain(Run(w, a + b + c), now + DAY + 2 * HALF_HOUR, 3, delay);
    RunAppend(w, a + b + c, d);
    OrderlyAppend(w, a + b + c, d, delay);
  }
}
