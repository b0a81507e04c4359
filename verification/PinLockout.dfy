/** The PIN lockout of one user: the failure counter on the user row, the lock and the count of
    locks in the cache, and any number of overlapping calls that compare a PIN, one store call at a
    time. Times are milliseconds. */
module PinLockout {
  import opened Basics

  type CallId = int

  const HALF_HOUR := 30 * 60 * 1000
  const DAY := 24 * 60 * 60 * 1000
  const ESCALATE_AFTER := 3

  /** A lock period: when it started, the count of locks it was given, and when it ends. */
  datatype Lock = Lock(at: int, count: nat, until: int)

  datatype Counter = Counter(n: nat, until: int)

  /** `attempts` and `lockedRow` are on the user row, `lock` and `counter` in the cache. `fails`
      and `started` count failed comparisons and lock periods since the last reset, at `resetAt`,
      and `locks` remembers every lock period; the code keeps none of these four. */
  datatype Store = Store(now: int, maxAttempts: int, attempts: nat, lockedRow: Option<int>, lock: Option<int>,
                         counter: Option<Counter>, fails: nat, started: nat, resetAt: int, locks: seq<Lock>)

  predicate Locked(s: Store) { s.lock.Some? && s.now < s.lock.value }

  function LockCount(s: Store): nat {
    if s.counter.Some? && s.now < s.counter.value.until then s.counter.value.n else 0
  }

  function Duration(count: nat): int { if count >= ESCALATE_AFTER then DAY else HALF_HOUR }

  datatype Kind = Login | Verify | Change

  datatype Answer = Blocked | Error | Invalid | Mismatch | Wrong(remaining: int) | LockedNow | Right

  /** How everything goes for one call. `ready`: key id, rate limits and user lookup passed.
      `usable`: the PIN decrypts, is recent and its nonce is new. `accepted`: a change's new PIN is
      valid and stored. */
  datatype Attempt = Attempt(kind: Kind, ready: bool, lockRead: bool, usable: bool, compared: bool, right: bool,
                             accepted: bool, increment: Outcome, pipeline: Outcome, set_: Outcome, row: Outcome,
                             reset: Outcome)

  /** Where a call stands. `since` is the number of lock periods there had been when it found no
      lock, and `at` when it numbered its own; the code knows neither. */
  datatype Phase =
    | Looking(kind: Kind, rowUntil: Option<int>)
    | Comparing(kind: Kind, since: nat)
    | Counting(kind: Kind, since: nat)
    | Locking(since: nat)
    | Setting(since: nat, n: nat, at: int)
    | Copying(until: int)
    | Resetting(kind: Kind)
    | Over(answer: Answer)

  // --- Store calls ---

  /** A change answers every failure short of a lock alike. */
  function Told(kind: Kind, answer: Answer): Answer {
    if kind == Change && answer != LockedNow then Mismatch else answer
  }

  function Counted(s: Store, o: Outcome): Store {
    if o == Refused then s else s.(attempts := s.attempts + 1)
  }

  /** INCR of the count of locks, whose day starts again. */
  function Numbered(s: Store, o: Outcome): Store {
    if o == Refused then s else s.(counter := Some(Counter(LockCount(s) + 1, s.now + DAY)))
  }

  function LockSet(s: Store, n: nat, o: Outcome): Store {
    if o == Refused then s
    else
      var until := s.now + Duration(n);
      s.(lock := Some(until), started := s.started + 1, locks := s.locks + [Lock(s.now, n, until)])
  }

  function Reset(s: Store, o: Outcome): Store {
    if o == Refused then s else s.(attempts := 0, fails := 0, started := 0, resetAt := s.now)
  }

  /** The user row is read first; only a login will look at the lock on it. */
  function Arrive(s: Store, a: Attempt): Phase {
    if !a.ready then Over(Error) else Looking(a.kind, s.lockedRow)
  }

  function Advance(s: Store, q: Phase, a: Attempt): (Store, Phase) {
    match q
    case Looking(kind, rowUntil) =>
      (s, if !a.lockRead then Over(Error)
          else if Locked(s) || (kind == Login && rowUntil.Some? && s.now < rowUntil.value) then Over(Blocked)
          else Comparing(kind, |s.locks|))
    case Comparing(kind, since) =>
      if !a.usable then (s, Over(Told(kind, Invalid)))
      else if !a.compared then (s, Over(Error))
      else if !a.right then (s.(fails := s.fails + 1), Counting(kind, since))
      else
        (s, match kind
            case Login => Resetting(Login)
            case Verify => Over(Right)
            case Change => if a.accepted then Resetting(Change) else Over(Error))
    case Counting(kind, since) =>
      var t := Counted(s, a.increment);
      (t, if a.increment != Done then Over(Told(kind, Error))
          else if t.attempts >= t.maxAttempts then Locking(since)
          else Over(Told(kind, Wrong(t.maxAttempts - t.attempts))))
    case Locking(since) =>
      (Numbered(s, a.pipeline), if a.pipeline == Done then Setting(since, LockCount(s) + 1, s.now) else Over(LockedNow))
    case Setting(_, n, _) =>
      (LockSet(s, n, a.set_), if a.set_ == Done then Copying(s.now + Duration(n)) else Over(LockedNow))
    case Copying(until) => (if a.row == Refused then s else s.(lockedRow := Some(until)), Over(LockedNow))
    case Resetting(kind) => (Reset(s, a.reset), Over(if kind == Login && a.reset != Done then Error else Right))
    case Over(_) => (s, q)
  }

  // --- Runs ---

  datatype World = World(s: Store, calls: map<CallId, Phase>)

  datatype Event =
    | Call(id: CallId, attempt: Attempt)
    | Step(id: CallId, attempt: Attempt)
    | LoseLock
    | LoseCounter
    | Tick(now: int)

  function Apply(w: World, e: Event): World {
    match e
    case Call(id, a) => if id in w.calls then w else w.(calls := w.calls[id := Arrive(w.s, a)])
    case Step(id, a) =>
      if id !in w.calls then w
      else var (t, q) := Advance(w.s, w.calls[id], a); World(t, w.calls[id := q])
    case LoseLock => w.(s := w.s.(lock := None))
    case LoseCounter => w.(s := w.s.(counter := None))
    case Tick(now) => w.(s := w.s.(now := if now > w.s.now then now else w.s.now))
  }

  function Run(w: World, events: seq<Event>): World
    decreases |events|
  {
    if events == [] then w else Run(Apply(w, events[0]), events[1..])
  }

  function Opened(now: int, maxAttempts: int): Store {
    Store(now, maxAttempts, 0, None, None, None, 0, 0, now, [])
  }

  function Initial(now: int, maxAttempts: int): World {
    World(Opened(now, maxAttempts), map[])
  }

  lemma {:induction false} RunAppend(w: World, first: seq<Event>, rest: seq<Event>)
    ensures Run(w, first + rest) == Run(Run(w, first), rest)
    decreases |first|
  {
    hide Apply;
    if first == [] {
      assert first + rest == rest;
    } else {
      assert (first + rest)[1..] == first[1..] + rest;
      RunAppend(Apply(w, first[0]), first[1..], rest);
    }
  }

  // --- One call with nobody else moving ---

  /** The calls after a failed comparison, in one piece. */
  function FailedPin(s: Store, a: Attempt): (Store, Answer) {
    var t := Counted(s.(fails := s.fails + 1), a.increment);
    if a.increment != Done then (t, Error)
    else if t.attempts < t.maxAttempts then (t, Wrong(t.maxAttempts - t.attempts))
    else
      var u := Numbered(t, a.pipeline);
      if a.pipeline != Done then (u, LockedNow)
      else
        var n := LockCount(s) + 1;
        var v := LockSet(u, n, a.set_);
        (if a.set_ == Done && a.row != Refused then v.(lockedRow := Some(s.now + Duration(n))) else v, LockedNow)
  }

  /** One call that compares a PIN. Only a login looks at the lock on the row, and only a login
      or a change resets the counter. */
  function Try(s: Store, a: Attempt): (Store, Answer) {
    if !a.ready || !a.lockRead then (s, Error)
    else if Locked(s) || (a.kind == Login && s.lockedRow.Some? && s.now < s.lockedRow.value) then (s, Blocked)
    else if !a.usable then (s, Told(a.kind, Invalid))
    else if !a.compared then (s, Error)
    else if !a.right then var (t, answer) := FailedPin(s, a); (t, Told(a.kind, answer))
    else
      match a.kind
      case Login => (Reset(s, a.reset), if a.reset == Done then Right else Error)
      case Verify => (s, Right)
      case Change => if a.accepted then (Reset(s, a.reset), Right) else (s, Error)
  }

  /** The call gets as far as the comparison, and the comparison answers. */
  predicate Compares(s: Store, a: Attempt) {
    && a.ready && a.lockRead && !Locked(s)
    && !(a.kind == Login && s.lockedRow.Some? && s.now < s.lockedRow.value) && a.usable && a.compared
  }

  function Drive(s: Store, q: Phase, a: Attempt, n: nat): (Store, Phase)
    decreases n
  {
    if n == 0 then (s, q) else var (t, p) := Advance(s, q, a); Drive(t, p, a, n - 1)
  }

  /** No call makes more than six store calls after it has read the row. */
  const MAX_CALLS: nat := 6

  lemma {:induction false} DriveOver(s: Store, q: Phase, a: Attempt, n: nat)
    requires q.Over?
    ensures Drive(s, q, a, n) == (s, q)
    decreases n
  {
    if n > 0 {
      DriveOver(s, q, a, n - 1);
    }
  }

  lemma DriveStep(s: Store, q: Phase, a: Attempt, n: nat)
    requires n > 0
    ensures Drive(s, q, a, n) == Drive(Advance(s, q, a).0, Advance(s, q, a).1, a, n - 1)
  {}

  lemma FailureIsDriven(s: Store, q: Phase, a: Attempt)
    requires q.Counting?
    ensures var (t, answer) := FailedPin(s, a);
      Drive(s.(fails := s.fails + 1), q, a, 4) == (t, Over(Told(q.kind, answer)))
  {
    hide Drive;
    var s1 := s.(fails := s.fails + 1);
    var (s2, q2) := Advance(s1, q, a);
    DriveStep(s1, q, a, 4);
    var (s3, q3) := Advance(s2, q2, a);
    DriveStep(s2, q2, a, 3);
    var (s4, q4) := Advance(s3, q3, a);
    DriveStep(s3, q3, a, 2);
    var (s5, q5) := Advance(s4, q4, a);
    DriveStep(s4, q4, a, 1);
    DriveOver(s5, q5, a, 0);
  }

  /** The compact call is the machine's call with nobody else moving. */
  lemma TryIsDriven(s: Store, a: Attempt)
    ensures Drive(s, Arrive(s, a), a, MAX_CALLS) == (Try(s, a).0, Over(Try(s, a).1))
  {
    hide Drive, FailedPin;
    var q := Arrive(s, a);
    DriveStep(s, q, a, 6);
    var (s1, q1) := Advance(s, q, a);
    DriveStep(s1, q1, a, 5);
    var (s2, q2) := Advance(s1, q1, a);
    if q2.Counting? {
      FailureIsDriven(s, q2, a);
    } else {
      DriveStep(s2, q2, a, 4);
      var (s3, q3) := Advance(s2, q2, a);
      DriveOver(s3, q3, a, 3);
    }
  }

  /** A call alone is a run of the interleaved machine. */
  lemma {:induction false} DriveIsARun(w: World, id: CallId, a: Attempt, n: nat)
    requires id in w.calls
    ensures var (t, q) := Drive(w.s, w.calls[id], a, n);
      Run(w, seq(n, _ => Step(id, a))) == World(t, w.calls[id := q])
    decreases n
  {
    hide Advance;
    var events := seq(n, _ => Step(id, a));
    if n == 0 {
      assert w.calls[id := w.calls[id]] == w.calls;
    } else {
      var v := Apply(w, Step(id, a));
      DriveIsARun(v, id, a, n - 1);
      assert events[1..] == seq(n - 1, _ => Step(id, a));
    }
  }
}
