/** The calls that compare a PIN as the auth service runs them, over mutable stores. */
module PinService {
  import opened Basics
  import opened PinLockout

  class Service {
    var now: int
    const maxAttempts: int
    var attempts: nat
    var lockedRow: Option<int>
    var lock: Option<int>
    var counter: Option<Counter>
    ghost var fails: nat
    ghost var started: nat
    ghost var resetAt: int
    ghost var locks: seq<Lock>

    constructor (now: int, maxAttempts: int)
      ensures View() == Opened(now, maxAttempts)
    {
      this.now, this.maxAttempts, attempts, lockedRow, lock, counter := now, maxAttempts, 0, None, None, None;
      fails, started, resetAt, locks := 0, 0, now, [];
    }

    ghost function View(): Store
      reads this
    {
      Store(now, maxAttempts, attempts, lockedRow, lock, counter, fails, started, resetAt, locks)
    }

    method IncrementFailedAttempts(o: Outcome) returns (count: Option<nat>)
      modifies this`attempts
      ensures View() == Counted(old(View()), o)
      ensures count == if o == Done then Some(attempts) else None
    {
      if o != Refused {
        attempts := attempts + 1;
      }
      return if o == Done then Some(attempts) else None;
    }

    /** Counts the lock, refreshes the counter's day, and sets the lock; None is an error. */
    method LockUser(a: Attempt) returns (until: Option<int>)
      modifies this`lock, this`counter, this`started, this`locks
      ensures var s := old(View());
        if a.pipeline != Done then View() == Numbered(s, a.pipeline) && until == None
        else
          && View() == LockSet(Numbered(s, Done), LockCount(s) + 1, a.set_)
          && until == if a.set_ == Done then Some(s.now + Duration(LockCount(s) + 1)) else None
    {
      if a.pipeline == Refused {
        return None;
      }
      var n := 1;
      if counter.Some? && now < counter.value.until {
        n := counter.value.n + 1;
      }
      counter := Some(Counter(n, now + DAY));
      if a.pipeline == LostReply {
        return None;
      }
      var duration := HALF_HOUR;
      if n >= ESCALATE_AFTER {
        duration := DAY;
      }
      if a.set_ != Refused {
        lock := Some(now + duration);
        started, locks := started + 1, locks + [Lock(now, n, now + duration)];
      }
      return if a.set_ == Done then Some(now + duration) else None;
    }

    /** Branches on the count the row returned, not on the one read before. */
    method HandleFailedPin(a: Attempt) returns (answer: Answer)
      modifies this`attempts, this`lockedRow, this`lock, this`counter, this`fails, this`started, this`locks
      ensures (View(), answer) == FailedPin(old(View()), a)
    {
      fails := fails + 1;
      var count := IncrementFailedAttempts(a.increment);
      if count.None? {
        return Error;
      }
      if count.value >= maxAttempts {
        var until := LockUser(a);
        if until.Some? && a.row != Refused {
          lockedRow := until;
        }
        return LockedNow;
      }
      return Wrong(maxAttempts - count.value);
    }

    method ResetFailedAttempts(o: Outcome)
      modifies this`attempts, this`fails, this`started, this`resetAt
      ensures View() == Reset(old(View()), o)
    {
      if o != Refused {
        attempts, fails, started, resetAt := 0, 0, 0, now;
      }
    }

    /** The steps from the row to the comparison; Right means the PIN is. */
    method Compare(a: Attempt) returns (answer: Answer)
      modifies this
      ensures answer == Right <==> Compares(old(View()), a) && a.right
      ensures answer == Right ==> View() == old(View())
      ensures answer != Right ==> (View(), answer) == Try(old(View()), a)
    {
      if !a.ready || !a.lockRead {
        return Error;
      }
      if lock.Some? && now < lock.value {
        return Blocked;
      }
      if a.kind == Login && lockedRow.Some? && now < lockedRow.value {
        return Blocked;
      }
      if !a.usable {
        return if a.kind == Change then Mismatch else Invalid;
      }
      if !a.compared {
        return Error;
      }
      if !a.right {
        answer := HandleFailedPin(a);
        if a.kind == Change && answer != LockedNow {
          answer := Mismatch;
        }
        return;
      }
      return Right;
    }

    method LoginByPin(a: Attempt) returns (answer: Answer)
      requires a.kind == Login
      modifies this
      ensures answer == Right <==> Compares(old(View()), a) && a.right && a.reset == Done
      ensures answer == Right ==> attempts == 0
      ensures (View(), answer) == Try(old(View()), a)
    {
      answer := Compare(a);
      if answer == Right {
        ResetFailedAttempts(a.reset);
        answer := if a.reset == Done then Right else Error;
      }
    }

    method VerifyPin(a: Attempt) returns (answer: Answer)
      requires a.kind == Verify
      modifies this
      ensures answer == Right <==> Compares(old(View()), a) && a.right
      ensures answer == Right ==> attempts == old(attempts)
      ensures (View(), answer) == Try(old(View()), a)
    {
      answer := Compare(a);
    }

    /** ChangePIN and ChangeAccessCode. */
    method ChangeCredential(a: Attempt) returns (answer: Answer)
      requires a.kind == Change
      modifies this
      ensures answer == Right <==> Compares(old(View()), a) && a.right && a.accepted
      ensures answer == Right && a.reset != Refused ==> attempts == 0
      ensures (View(), answer) == Try(old(View()), a)
    {
      answer := Compare(a);
      if answer == Right {
        if !a.accepted {
          return Error;
        }
        ResetFailedAttempts(a.reset);
      }
    }
  }
}
