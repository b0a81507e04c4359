/** What every interleaving of PIN calls keeps: failures against lock periods, how far apart lock
    periods are, and exactly which steps spoil either. */
module PinSafety {
  import opened Basics
  import opened PinLockout

  // --- Failed comparisons against lock periods ---

  /** The failures a user has before the first lock. */
  function Allowance(s: Store): nat { if s.maxAttempts > 1 then s.maxAttempts - 1 else 0 }

  /** Calls whose comparison failed and that have yet to count it. */
  function Uncounted(w: World): set<CallId> {
    set id | id in w.calls && w.calls[id].Counting?
  }

  /** Calls whose count has reached the maximum and that have yet to lock. */
  function Due(w: World): set<CallId> {
    set id | id in w.calls && (w.calls[id].Locking? || w.calls[id].Setting?)
  }

  function UnderWay(w: World): nat { |Uncounted(w)| + |Due(w)| }

  function Past(s: Store): nat { if s.attempts > Allowance(s) then s.attempts - Allowance(s) else 0 }

  /** Every failed comparison is counted or about to be, and each count past the allowance has
      started a lock or is about to. */
  predicate Tally(w: World) {
    w.s.fails == w.s.attempts + |Uncounted(w)| && w.s.started + |Due(w)| == Past(w.s)
  }

  /** At least that, whatever a reset has forgotten about calls under way. */
  predicate Bounded(w: World) {
    w.s.fails <= w.s.attempts + |Uncounted(w)| && Past(w.s) <= w.s.started + |Due(w)|
  }

  lemma MoveCounts(w: World, v: World, id: CallId)
    requires id in v.calls && v.calls == w.calls[id := v.calls[id]]
    ensures |Uncounted(v)| == |Uncounted(w)| + (if v.calls[id].Counting? then 1 else 0)
                              - (if id in w.calls && w.calls[id].Counting? then 1 else 0)
    ensures |Due(v)| == |Due(w)| + (if v.calls[id].Locking? || v.calls[id].Setting? then 1 else 0)
                        - (if id in w.calls && (w.calls[id].Locking? || w.calls[id].Setting?) then 1 else 0)
  {
    assert Uncounted(v) - {id} == Uncounted(w) - {id};
    assert Due(v) - {id} == Due(w) - {id};
    Without(Uncounted(v), id);
    Without(Uncounted(w), id);
    Without(Due(v), id);
    Without(Due(w), id);
  }

  lemma Without(ids: set<CallId>, id: CallId)
    ensures |ids - {id}| == |ids| - if id in ids then 1 else 0
  {
    if id in ids {
      assert ids == (ids - {id}) + {id};
    } else {
      assert ids - {id} == ids;
    }
  }

  /** A failed comparison is counted and, past the allowance, locks. */
  predicate Counts(w: World, e: Event) {
    if !e.Step? || e.id !in w.calls then true
    else
      match w.calls[e.id]
      case Counting(_, _) =>
        e.attempt.increment != Refused && (w.s.attempts + 1 >= w.s.maxAttempts ==> e.attempt.increment == Done)
      case Locking(_) => e.attempt.pipeline == Done
      case Setting(_, _, _) => e.attempt.set_ != Refused
      case _ => true
  }

  /** A reset finds no failure under way. */
  predicate ResetsAlone(w: World, e: Event) {
    e.Step? && e.id in w.calls && w.calls[e.id].Resetting? && e.attempt.reset != Refused ==>
      Uncounted(w) == {} && Due(w) == {}
  }

  lemma SameCalls(w: World, v: World)
    requires v.calls == w.calls
    ensures Uncounted(v) == Uncounted(w) && Due(v) == Due(w)
  {}

  /** However calls overlap, a step keeps the tally if and only if its failure counts, locks when
      due, and its reset finds no failure under way. */
  lemma TallyStep(w: World, e: Event)
    requires Tally(w)
    ensures Tally(Apply(w, e)) <==> Counts(w, e) && ResetsAlone(w, e)
  {
    hide Uncounted, Due;
    var v := Apply(w, e);
    if (e.Call? && e.id !in w.calls) || (e.Step? && e.id in w.calls) {
      MoveCounts(w, v, e.id);
    } else {
      SameCalls(w, v);
    }
  }

  lemma BoundedStep(w: World, e: Event)
    requires Bounded(w) && Counts(w, e)
    ensures Bounded(Apply(w, e))
  {
    hide Uncounted, Due;
    var v := Apply(w, e);
    if (e.Call? && e.id !in w.calls) || (e.Step? && e.id in w.calls) {
      MoveCounts(w, v, e.id);
    } else {
      SameCalls(w, v);
    }
  }

  predicate CountingRun(w: World, events: seq<Event>)
    decreases |events|
  {
    events == [] || (Counts(w, events[0]) && CountingRun(Apply(w, events[0]), events[1..]))
  }

  lemma {:induction false} CountingRunKeeps(w: World, events: seq<Event>)
    requires Bounded(w) && CountingRun(w, events)
    ensures Bounded(Run(w, events))
    decreases |events|
  {
    hide Bounded, Counts, Apply;
    if events != [] {
      BoundedStep(w, events[0]);
      CountingRunKeeps(Apply(w, events[0]), events[1..]);
    }
  }

  /** However calls overlap, and whatever the cache evicts: when failures are counted and lock
      when due, the failed comparisons since the last reset are at most the allowance, the lock
      periods started since, and the calls under way. */
  lemma FailuresAreLocked(now: int, maxAttempts: int, events: seq<Event>)
    requires CountingRun(Initial(now, maxAttempts), events)
    ensures var w := Run(Initial(now, maxAttempts), events);
      w.s.fails <= Allowance(w.s) + w.s.started + UnderWay(w)
  {
    CountingRunKeeps(Initial(now, maxAttempts), events);
  }

  ghost predicate AlwaysTallied(w: World, events: seq<Event>)
    decreases |events|
  {
    Tally(w) && (events == [] || AlwaysTallied(Apply(w, events[0]), events[1..]))
  }

  predicate TallyingRun(w: World, events: seq<Event>)
    decreases |events|
  {
    events == [] ||
    (Counts(w, events[0]) && ResetsAlone(w, events[0]) && TallyingRun(Apply(w, events[0]), events[1..]))
  }

  /** Throughout a run every failed comparison is accounted for, and exactly that many locks have
      started or are about to, if and only if every step counts and every reset comes alone. */
  lemma {:induction false} TalliedExactly(w: World, events: seq<Event>)
    requires Tally(w)
    ensures AlwaysTallied(w, events) <==> TallyingRun(w, events)
    decreases |events|
  {
    hide Tally, Counts, ResetsAlone, Apply;
    if events != [] {
      TallyStep(w, events[0]);
      if Counts(w, events[0]) && ResetsAlone(w, events[0]) {
        TalliedExactly(Apply(w, events[0]), events[1..]);
      }
    }
  }

  lemma {:induction false} TallyingRunKeeps(w: World, events: seq<Event>)
    requires Tally(w) && TallyingRun(w, events)
    ensures Tally(Run(w, events))
    decreases |events|
  {
    hide Tally, Counts, ResetsAlone, Apply;
    if events != [] {
      TallyStep(w, events[0]);
      TallyingRunKeeps(Apply(w, events[0]), events[1..]);
    }
  }

  /** And then the bound of FailuresAreLocked is met: once a lock has started or is due, the failures
      since the last reset are exactly the allowance, the locks and the calls under way. */
  lemma FailuresAreLockedExactly(now: int, maxAttempts: int, events: seq<Event>)
    requires TallyingRun(Initial(now, maxAttempts), events)
    ensures var w := Run(Initial(now, maxAttempts), events);
      w.s.started + |Due(w)| > 0 ==> w.s.fails == Allowance(w.s) + w.s.started + UnderWay(w)
  {
    TallyingRunKeeps(Initial(now, maxAttempts), events);
  }

  // --- How far apart lock periods are ---

  // Numbering a lock and setting it are two round trips. `delay` is the longest time between them that
  // a result allows for; every result holds for every delay.

  type Delay = d: int | 0 <= d < DAY

  /** How long a lock's count is sure to be remembered after the lock has started. */
  function Span(delay: Delay): int { DAY - delay }

  predicate LockOk(l: Lock) { l.count >= 1 && l.until == l.at + Duration(l.count) }

  /** The next lock starts after the last has ended, and has a higher count within the span. */
  predicate Follows(l: Lock, m: Lock, delay: Delay) {
    && l.until <= m.at
    && (m.at < l.at + Span(delay) ==> l.count < m.count)
  }

  predicate FollowedAt(s: Store, i: nat, delay: Delay)
    requires i + 1 < |s.locks|
  {
    Follows(s.locks[i], s.locks[i + 1], delay)
  }

  function Last(s: Store): Lock
    requires s.locks != []
  {
    s.locks[|s.locks| - 1]
  }

  /** The cache still knows the last lock while it stands, and a count no lower than its own for the
      span. */
  predicate Known(s: Store, delay: Delay) {
    if s.locks == [] then s.lock.None?
    else
      var l := Last(s);
      && (s.now < l.until ==> s.lock == Some(l.until)) && (s.lock.Some? ==> s.lock.value <= l.until)
      && (s.now < l.at + Span(delay) ==>
            s.counter.Some? && l.at + Span(delay) <= s.counter.value.until && l.count <= s.counter.value.n)
  }

  /** A call past its look at the lock: no lock period older than the look still stands. */
  predicate SinceOk(s: Store, since: nat) {
    since <= |s.locks| && forall i {:trigger s.locks[i]} :: 0 <= i < since ==> s.locks[i].until <= s.now
  }

  predicate CallOk(s: Store, q: Phase) {
    && (q.Comparing? || q.Counting? || q.Locking? || q.Setting? ==> SinceOk(s, q.since))
    && (q.Setting? ==> q.n >= 1)
  }

  predicate Spaced(s: Store, delay: Delay) {
    && (forall i {:trigger s.locks[i]} :: 0 <= i < |s.locks| ==> LockOk(s.locks[i]) && s.locks[i].at <= s.now)
    && (forall i: nat {:trigger FollowedAt(s, i, delay)} :: i + 1 < |s.locks| ==> FollowedAt(s, i, delay))
    && Known(s, delay)
    && s.resetAt <= s.now
    && s.started <= |s.locks|
    && (forall i {:trigger s.locks[i]} :: |s.locks| - s.started <= i < |s.locks| ==> s.resetAt <= s.locks[i].at)
    && (s.counter.Some? ==> s.counter.value.until <= s.now + DAY)
  }

  predicate Orderly(w: World, delay: Delay) {
    Spaced(w.s, delay) && forall id {:trigger w.calls[id]} :: id in w.calls ==> CallOk(w.s, w.calls[id])
  }

  /** A lock is set while none stands, with a count refreshed within the delay that is its own or
      later, and higher than that of a lock started within the span. */
  predicate SetsWell(s: Store, n: nat, delay: Delay) {
    && !Locked(s)
    && s.counter.Some? && s.now + Span(delay) <= s.counter.value.until && n <= s.counter.value.n
    && (s.locks != [] && s.now < Last(s).at + Span(delay) ==> Last(s).count < n)
  }

  /** Locks are set well, and the cache loses no lock that stands and no count within the span. */
  predicate KeepsOrder(w: World, e: Event, delay: Delay) {
    match e
    case Step(id, a) =>
      id in w.calls && w.calls[id].Setting? && a.set_ != Refused ==> SetsWell(w.s, w.calls[id].n, delay)
    case LoseLock => !Locked(w.s)
    case LoseCounter => w.s.locks == [] || Last(w.s).at + Span(delay) <= w.s.now
    case _ => true
  }

  lemma {:induction false} EarlierEnded(s: Store, i: nat, delay: Delay)
    requires Spaced(s, delay) && i < |s.locks|
    ensures s.locks[i].until <= Last(s).until
    decreases |s.locks| - i
  {
    if i + 1 < |s.locks| {
      assert FollowedAt(s, i, delay) && LockOk(s.locks[i + 1]);
      EarlierEnded(s, i + 1, delay);
    }
  }

  /** While the cache is in order, it holds a lock exactly while the last lock period stands. */
  lemma LockedExactly(s: Store, delay: Delay)
    requires Spaced(s, delay)
    ensures Locked(s) <==> s.locks != [] && s.now < Last(s).until
    ensures !Locked(s) ==> forall i {:trigger s.locks[i]} :: 0 <= i < |s.locks| ==> s.locks[i].until <= s.now
  {
    if !Locked(s) {
      forall i | 0 <= i < |s.locks| ensures s.locks[i].until <= s.now {
        EarlierEnded(s, i, delay);
      }
    }
  }

  lemma SameLocks(s: Store, t: Store, delay: Delay)
    requires Spaced(s, delay) && Known(t, delay) && t.locks == s.locks && s.now <= t.now
    requires (t.started == s.started && t.resetAt == s.resetAt) || (t.started == 0 && t.resetAt == t.now)
    requires t.counter.Some? ==> t.counter.value.until <= t.now + DAY
    ensures Spaced(t, delay)
  {
    forall i: nat | i + 1 < |t.locks| ensures FollowedAt(t, i, delay) {
      assert FollowedAt(s, i, delay);
    }
  }

  lemma SetKeepsSpaced(s: Store, n: nat, o: Outcome, delay: Delay)
    requires Spaced(s, delay) && n >= 1 && o != Refused
    ensures Spaced(LockSet(s, n, o), delay) <==> SetsWell(s, n, delay)
  {
    var t, k := LockSet(s, n, o), |s.locks|;
    LockedExactly(s, delay);
    assert LockOk(t.locks[k]);
    if SetsWell(s, n, delay) {
      forall i: nat | i + 1 < |t.locks| ensures FollowedAt(t, i, delay) {
        if i + 1 < k {
          assert FollowedAt(s, i, delay);
        }
      }
    } else if k > 0 && !Follows(Last(s), t.locks[k], delay) {
      assert !FollowedAt(t, k - 1, delay);
    }
  }

  lemma StoreStep(s: Store, q: Phase, a: Attempt, delay: Delay)
    requires Spaced(s, delay) && CallOk(s, q)
    ensures Spaced(Advance(s, q, a).0, delay) <==> (q.Setting? && a.set_ != Refused ==> SetsWell(s, q.n, delay))
  {
    if q.Setting? && a.set_ != Refused {
      SetKeepsSpaced(s, q.n, a.set_, delay);
    } else {
      SameLocks(s, Advance(s, q, a).0, delay);
    }
  }

  predicate Grows(s: Store, t: Store) { s.now <= t.now && s.locks <= t.locks }

  lemma CallStays(s: Store, t: Store, q: Phase)
    requires CallOk(s, q) && Grows(s, t)
    ensures CallOk(t, q)
  {}

  lemma AdvanceGrows(s: Store, q: Phase, a: Attempt, delay: Delay)
    requires Spaced(s, delay) && CallOk(s, q)
    ensures var (t, p) := Advance(s, q, a); Grows(s, t) && CallOk(t, p)
  {
    if q.Looking? {
      LockedExactly(s, delay);
    }
  }

  lemma StepOrder(w: World, id: CallId, a: Attempt, delay: Delay)
    requires Orderly(w, delay) && id in w.calls
    ensures Orderly(Apply(w, Step(id, a)), delay) <==> KeepsOrder(w, Step(id, a), delay)
  {
    hide Spaced, CallOk, Grows, Advance, SetsWell;
    var v := Apply(w, Step(id, a));
    StoreStep(w.s, w.calls[id], a, delay);
    AdvanceGrows(w.s, w.calls[id], a, delay);
    forall x | x in v.calls ensures CallOk(v.s, v.calls[x]) {
      if x != id {
        CallStays(w.s, v.s, w.calls[x]);
      }
    }
  }

  lemma QuietOrder(w: World, e: Event, delay: Delay)
    requires Orderly(w, delay) && !e.Step?
    ensures Orderly(Apply(w, e), delay) <==> KeepsOrder(w, e, delay)
  {
    var v := Apply(w, e);
    LockedExactly(w.s, delay);
    if KeepsOrder(w, e, delay) {
      SameLocks(w.s, v.s, delay);
      forall x | x in v.calls ensures CallOk(v.s, v.calls[x]) {
        assert x in w.calls ==> CallOk(w.s, w.calls[x]);
      }
    }
  }

  /** A step keeps lock periods apart, and known to the cache, if and only if it sets its lock well
      and evicts nothing that is needed. */
  lemma OrderStep(w: World, e: Event, delay: Delay)
    requires Orderly(w, delay)
    ensures Orderly(Apply(w, e), delay) <==> KeepsOrder(w, e, delay)
  {
    hide Orderly, Apply, Advance;
    if e.Step? && e.id in w.calls {
      StepOrder(w, e.id, e.attempt, delay);
    } else if e.Step? {
      Stutters(w, e, delay);
    } else {
      QuietOrder(w, e, delay);
    }
  }

  lemma Stutters(w: World, e: Event, delay: Delay)
    requires e.Step? && e.id !in w.calls
    ensures Apply(w, e) == w && KeepsOrder(w, e, delay)
  {}

  /** A lock period overlaps the one before exactly when, at its start, a lock still stands that was
      set since its own call looked for one. */
  lemma OverlapsExactly(w: World, id: CallId, a: Attempt, delay: Delay)
    requires Orderly(w, delay) && id in w.calls && w.calls[id].Setting? && a.set_ != Refused
    ensures var t, k := Apply(w, Step(id, a)).s, |w.s.locks|;
      && |t.locks| == k + 1
      && (k > 0 && t.locks[k].at < t.locks[k - 1].until <==>
          exists i :: w.calls[id].since <= i < k && w.s.now < w.s.locks[i].until)
  {
    var k := |w.s.locks|;
    assert CallOk(w.s, w.calls[id]);
    LockedExactly(w.s, delay);
    if Locked(w.s) {
      assert w.s.now < w.s.locks[k - 1].until;
    }
  }

  /** A call that nobody has come between since it looked, and that has waited no longer than the delay
      since it numbered its lock. */
  predicate Undisturbed(s: Store, q: Phase, delay: Delay) {
    && (q.Comparing? || q.Counting? || q.Locking? || q.Setting? ==> !Locked(s))
    && (q.Setting? ==>
          && s.counter == Some(Counter(q.n, q.at + DAY)) && s.now <= q.at + delay
          && (s.locks != [] && s.now < Last(s).at + Span(delay) ==> Last(s).count < q.n))
  }

  lemma AdvanceUndisturbed(s: Store, q: Phase, a: Attempt, delay: Delay)
    requires Spaced(s, delay) && Undisturbed(s, q, delay)
    ensures Undisturbed(Advance(s, q, a).0, Advance(s, q, a).1, delay)
    ensures q.Setting? ==> SetsWell(s, q.n, delay)
  {}

  predicate OrderlyRun(w: World, events: seq<Event>, delay: Delay)
    decreases |events|
  {
    events == [] || (KeepsOrder(w, events[0], delay) && OrderlyRun(Apply(w, events[0]), events[1..], delay))
  }

  predicate IsAlone(w: World, e: Event, id: CallId, delay: Delay) {
    match e
    case Step(x, _) => x == id
    case Tick(now) => id in w.calls && w.calls[id].Setting? ==> now <= w.calls[id].at + delay
    case _ => false
  }

  /** One call alone: only its own steps and the clock, which moves no further than the delay between the
      numbering of its lock and the setting. */
  predicate AloneRun(w: World, events: seq<Event>, id: CallId, delay: Delay)
    decreases |events|
  {
    events == [] || (IsAlone(w, events[0], id, delay) && AloneRun(Apply(w, events[0]), events[1..], id, delay))
  }

  /** Such a call keeps the order, however long its other steps take. */
  lemma {:induction false} AloneIsOrderly(w: World, events: seq<Event>, id: CallId, delay: Delay)
    requires Orderly(w, delay) && id in w.calls && Undisturbed(w.s, w.calls[id], delay)
    requires AloneRun(w, events, id, delay)
    ensures OrderlyRun(w, events, delay) && Orderly(Run(w, events), delay)
    decreases |events|
  {
    if events != [] {
      hide Orderly, Spaced, Advance, SetsWell;
      OrderlyIsSpaced(w, delay);
      if events[0].Step? {
        AdvanceUndisturbed(w.s, w.calls[id], events[0].attempt, delay);
      }
      OrderStep(w, events[0], delay);
      AloneIsOrderly(Apply(w, events[0]), events[1..], id, delay);
    }
  }

  lemma OrderlyIsSpaced(w: World, delay: Delay)
    requires Orderly(w, delay)
    ensures Spaced(w.s, delay)
  {}

  lemma {:induction false} OrderlyAppend(w: World, first: seq<Event>, rest: seq<Event>, delay: Delay)
    requires OrderlyRun(w, first, delay) && OrderlyRun(Run(w, first), rest, delay)
    ensures OrderlyRun(w, first + rest, delay)
    decreases |first|
  {
    hide KeepsOrder, Apply;
    if first == [] {
      assert first + rest == rest;
    } else {
      assert (first + rest)[1..] == first[1..] + rest;
      OrderlyAppend(Apply(w, first[0]), first[1..], rest, delay);
    }
  }

  ghost predicate AlwaysOrderly(w: World, events: seq<Event>, delay: Delay)
    decreases |events|
  {
    Orderly(w, delay) && (events == [] || AlwaysOrderly(Apply(w, events[0]), events[1..], delay))
  }

  /** Throughout a run lock periods are apart and known to the cache if and only if every step keeps
      them so. */
  lemma {:induction false} OrderlyExactly(w: World, events: seq<Event>, delay: Delay)
    requires Orderly(w, delay)
    ensures AlwaysOrderly(w, events, delay) <==> OrderlyRun(w, events, delay)
    decreases |events|
  {
    hide Orderly, KeepsOrder, Apply;
    if events != [] {
      OrderStep(w, events[0], delay);
      if KeepsOrder(w, events[0], delay) {
        OrderlyExactly(Apply(w, events[0]), events[1..], delay);
      }
    }
  }

  lemma {:induction false} OrderlyRunKeeps(w: World, events: seq<Event>, delay: Delay)
    requires Orderly(w, delay) && OrderlyRun(w, events, delay)
    ensures Orderly(Run(w, events), delay)
    decreases |events|
  {
    hide Orderly, KeepsOrder, Apply;
    if events != [] {
      OrderStep(w, events[0], delay);
      OrderlyRunKeeps(Apply(w, events[0]), events[1..], delay);
    }
  }

  /** Any four consecutive lock periods take twenty-five hours less the delay: of three that follow
      within the span, the third has a count of three or more and lasts a day. */
  lemma FourLocksSpan(s: Store, k: nat, delay: Delay)
    requires Spaced(s, delay) && k + 3 < |s.locks|
    ensures s.locks[k + 3].at - s.locks[k].at >= Span(delay) + 2 * HALF_HOUR
  {
    var a, b, c, d := s.locks[k], s.locks[k + 1], s.locks[k + 2], s.locks[k + 3];
    assert FollowedAt(s, k, delay) && FollowedAt(s, k + 1, delay) && FollowedAt(s, k + 2, delay);
  }

  /** What `k` further lock periods take: every three of them a span and two half hours. */
  function Cost(k: nat, delay: Delay): int {
    k / 3 * (Span(delay) + 2 * HALF_HOUR)
  }

  lemma CostSteps(k: nat, delay: Delay)
    requires k >= 3
    ensures Cost(k, delay) == Cost(k - 3, delay) + Span(delay) + 2 * HALF_HOUR
  {
    var c := Span(delay) + 2 * HALF_HOUR;
    assert k / 3 == (k - 3) / 3 + 1;
    assert ((k - 3) / 3 + 1) * c == (k - 3) / 3 * c + c;
  }

  lemma CostStarts(k: nat, delay: Delay)
    requires k < 3
    ensures Cost(k, delay) == 0
  {}

  lemma CostGrows(a: nat, b: nat, delay: Delay)
    requires a <= b
    ensures Cost(a, delay) <= Cost(b, delay)
  {
    var c, m, n := Span(delay) + 2 * HALF_HOUR, a / 3, b / 3;
    assert (n - m) * c == n * c - m * c;
    assert n - m >= 0 && c >= 0 ==> (n - m) * c >= 0;
  }

  lemma {:induction false} LocksTakeTime(s: Store, i: nat, k: nat, delay: Delay)
    requires Spaced(s, delay) && i + k < |s.locks|
    ensures s.locks[i + k].at - s.locks[i].at >= Cost(k, delay)
    decreases k
  {
    hide Cost;
    if k < 3 {
      CostStarts(k, delay);
    }
    if 0 < k < 3 {
      CostStarts(k - 1, delay);
      LocksTakeTime(s, i, k - 1, delay);
      assert FollowedAt(s, i + k - 1, delay) && LockOk(s.locks[i + k - 1]);
    } else if k >= 3 {
      LocksTakeTime(s, i, k - 3, delay);
      FourLocksSpan(s, i + k - 3, delay);
      CostSteps(k, delay);
    }
  }

  /** Over every orderly run each three lock periods after the first take twenty-five hours less the
      delay. */
  lemma GuessingIsSlow(now: int, maxAttempts: int, events: seq<Event>, delay: Delay)
    requires OrderlyRun(Initial(now, maxAttempts), events, delay)
    ensures var s := Run(Initial(now, maxAttempts), events).s;
      s.locks != [] ==> s.now - s.locks[0].at >= Cost(|s.locks| - 1, delay)
  {
    OrderlyRunKeeps(Initial(now, maxAttempts), events, delay);
    var s := Run(Initial(now, maxAttempts), events).s;
    if s.locks != [] {
      LocksTakeTime(s, 0, |s.locks| - 1, delay);
    }
  }

  /** The two halves together. Over every run that counts its failures and keeps its locks in order,
      failed comparisons since the last reset cost time: beyond the allowance, the calls under way
      and the first one after them, every three take twenty-five hours less the delay. */
  lemma FailuresTakeTime(now: int, maxAttempts: int, events: seq<Event>, delay: Delay)
    requires CountingRun(Initial(now, maxAttempts), events) && OrderlyRun(Initial(now, maxAttempts), events, delay)
    ensures var w := Run(Initial(now, maxAttempts), events);
      var beyond := w.s.fails - Allowance(w.s) - UnderWay(w);
      beyond > 0 ==> w.s.now - w.s.resetAt >= Cost(beyond - 1, delay)
  {
    hide Run, UnderWay, Cost;
    FailuresAreLocked(now, maxAttempts, events);
    OrderlyRunKeeps(Initial(now, maxAttempts), events, delay);
    var w := Run(Initial(now, maxAttempts), events);
    var beyond := w.s.fails - Allowance(w.s) - UnderWay(w);
    if beyond > 0 {
      var n := w.s.started;
      LocksTakeTime(w.s, |w.s.locks| - n, n - 1, delay);
      CostGrows(beyond - 1, n - 1, delay);
    }
  }
}
