/** The random order of a liveness challenge: Fisher-Yates over a source of random draws, and
    the selection of actions built on it. */
module LivenessActions {
  import opened Basics

  // --- Fisher-Yates ---

  /** The draws one shuffle of `n` items consumes: the k-th is below `n - k`. A shorter list is
      a random source that failed on the way. */
  predicate Draws(d: seq<nat>, n: nat) {
    |d| < (if n == 0 then 1 else n) && forall k :: 0 <= k < |d| ==> d[k] < n - k
  }

  predicate AllDraws(d: seq<nat>, n: nat) {
    Draws(d, n) && |d| == (if n == 0 then 0 else n - 1)
  }

  function Swap<T>(s: seq<T>, i: nat, j: nat): (r: seq<T>)
    requires i < |s| && j < |s|
    ensures |r| == |s| && r[i] == s[j] && r[j] == s[i]
    ensures forall k :: 0 <= k < |s| && k != i && k != j ==> r[k] == s[k]
  {
    s[i := s[j]][j := s[i]]
  }

  /** Positions `n` and above are settled; each draw settles the next lower one. */
  function Shuffled<T>(s: seq<T>, d: seq<nat>, n: nat): (r: seq<T>)
    requires n <= |s| && Draws(d, n)
    ensures |r| == |s| && r[n..] == s[n..]
    decreases |d|
  {
    if d == [] then s
    else
      var t := Swap(s, n - 1, d[0]);
      var r := Shuffled(t, d[1..], n - 1);
      assert r[n..] == r[n - 1..][1..] && t[n..] == t[n - 1..][1..] && t[n..] == s[n..];
      r
  }

  ghost predicate Distinct<T>(s: seq<T>) {
    forall i, j :: 0 <= i < j < |s| ==> s[i] != s[j]
  }

  /** Two orders of the same distinct items. */
  ghost predicate Arranges<T(!new)>(s: seq<T>, r: seq<T>) {
    |s| == |r| && Distinct(s) && Distinct(r) && forall x :: x in s <==> x in r
  }

  lemma SwapArranges<T(!new)>(s: seq<T>, i: nat, j: nat, r: seq<T>)
    requires Arranges(s, r) && i < |s| && j < |s|
    ensures Arranges(Swap(s, i, j), r)
  {
    var t := Swap(s, i, j);
    forall x ensures x in s <==> x in t {
      if x in s {
        var k :| 0 <= k < |s| && s[k] == x;
        assert t[if k == i then j else if k == j then i else k] == x;
      }
      if x in t {
        var k :| 0 <= k < |t| && t[k] == x;
        assert s[if k == i then j else if k == j then i else k] == x;
      }
    }
  }

  lemma {:induction false} ShuffleArranges<T(!new)>(s: seq<T>, d: seq<nat>, n: nat)
    requires Distinct(s) && n <= |s| && Draws(d, n)
    ensures Arranges(s, Shuffled(s, d, n))
    decreases |d|
  {
    if d != [] {
      SwapArranges(s, n - 1, d[0], s);
      ShuffleArranges(Swap(s, n - 1, d[0]), d[1..], n - 1);
    }
  }

  function IndexOf<T(==)>(s: seq<T>, x: T): (i: nat)
    requires x in s
    ensures i < |s| && s[i] == x
  {
    if s[0] == x then 0 else 1 + IndexOf(s[1..], x)
  }

  /** An item not settled above `n` is still below it. */
  lemma Unsettled<T(!new)>(s: seq<T>, r: seq<T>, n: nat)
    requires Arranges(s, r) && 1 <= n <= |s| && s[n..] == r[n..]
    ensures r[n - 1] in s && IndexOf(s, r[n - 1]) < n
  {
    forall k | n <= k < |s| ensures s[k] == r[k] {
      assert s[n..][k - n] == r[n..][k - n];
    }
  }

  /** The draws that carry `s` to the arrangement `r`, where both agree from `n` on. */
  ghost function DrawsFor<T(!new)>(s: seq<T>, r: seq<T>, n: nat): (d: seq<nat>)
    requires Arranges(s, r) && n <= |s| && s[n..] == r[n..]
    ensures AllDraws(d, n)
    decreases n
  {
    if n <= 1 then []
    else
      Unsettled(s, r, n);
      var j := IndexOf(s, r[n - 1]);
      SwapArranges(s, n - 1, j, r);
      [j] + DrawsFor(Swap(s, n - 1, j), r, n - 1)
  }

  lemma {:induction false} ShuffleReaches<T(!new)>(s: seq<T>, r: seq<T>, n: nat)
    requires Arranges(s, r) && n <= |s| && s[n..] == r[n..]
    ensures Shuffled(s, DrawsFor(s, r, n), n) == r
    decreases n
  {
    if n == 0 {
      assert s == s[0..] && r == r[0..];
    } else if n == 1 {
      Unsettled(s, r, 1);
      assert s == [s[0]] + s[1..] && r == [r[0]] + r[1..];
    } else {
      Unsettled(s, r, n);
      var j := IndexOf(s, r[n - 1]);
      SwapArranges(s, n - 1, j, r);
      ShuffleReaches(Swap(s, n - 1, j), r, n - 1);
      assert DrawsFor(s, r, n)[1..] == DrawsFor(Swap(s, n - 1, j), r, n - 1);
    }
  }

  lemma {:induction false} ShuffleDetermines<T(!new)>(s: seq<T>, d: seq<nat>, n: nat)
    requires Distinct(s) && n <= |s| && AllDraws(d, n)
    ensures Arranges(s, Shuffled(s, d, n)) && DrawsFor(s, Shuffled(s, d, n), n) == d
    decreases n
  {
    ShuffleArranges(s, d, n);
    if n > 1 {
      var t := Swap(s, n - 1, d[0]);
      var r := Shuffled(s, d, n);
      SwapArranges(s, n - 1, d[0], s);
      ShuffleDetermines(t, d[1..], n - 1);
      assert r[n - 1] == r[n - 1..][0] == t[n - 1..][0] == s[d[0]];
      Unsettled(s, r, n);
      assert IndexOf(s, r[n - 1]) == d[0];
      assert d == [d[0]] + d[1..];
    }
  }

  /** One draw vector for each arrangement and one arrangement for each draw vector: the shuffle
      is a bijection from draw vectors to permutations, so uniform draws give uniform orders. */
  lemma ShuffleIsABijection<T(!new)>(s: seq<T>, r: seq<T>, d: seq<nat>)
    requires Arranges(s, r) && AllDraws(d, |s|)
    ensures Arranges(s, Shuffled(s, d, |s|))
    ensures Shuffled(s, d, |s|) == r <==> d == DrawsFor(s, r, |s|)
  {
    ShuffleReaches(s, r, |s|);
    ShuffleDetermines(s, d, |s|);
  }

  /** The source's loop. It stops with an error at the first failed draw. */
  method SecureShuffle<T>(a: array<T>, d: seq<nat>) returns (ok: bool)
    requires Draws(d, a.Length)
    modifies a
    ensures ok <==> AllDraws(d, a.Length)
    ensures a[..] == Shuffled(old(a[..]), d, a.Length)
  {
    var i, rest := a.Length - 1, d;
    while i > 0
      invariant -1 <= i < a.Length && (i < 0 ==> a.Length == 0) && Draws(rest, i + 1)
      invariant AllDraws(rest, i + 1) <==> AllDraws(d, a.Length)
      invariant Shuffled(a[..], rest, i + 1) == Shuffled(old(a[..]), d, a.Length)
    {
      if rest == [] {
        return false;
      }
      var j := rest[0];
      ghost var s := a[..];
      a[i], a[j] := a[j], a[i];
      assert a[..] == Swap(s, i, j);
      rest, i := rest[1..], i - 1;
    }
    return true;
  }

  // --- The selection ---

  datatype Action = TurnLeft | TurnRight | LookUp | LookDown | Blink

  const HEAD_ACTIONS := [TurnLeft, TurnRight, LookUp, LookDown]

  predicate IsHeadPose(a: Action) { a != Blink }

  function Clamp(count: int): (head: nat)
    ensures 1 <= head <= |HEAD_ACTIONS|
    ensures head + 1 == (if count < 2 then 2 else if count > 5 then 5 else count)
  {
    var c := if count < 2 then 2 else count;
    if c - 1 > |HEAD_ACTIONS| then |HEAD_ACTIONS| else c - 1
  }

  function Picked(count: int, first: seq<nat>, second: seq<nat>): seq<Action>
    requires AllDraws(first, |HEAD_ACTIONS|) && AllDraws(second, Clamp(count) + 1)
  {
    Shuffled([Blink] + Pool(first)[..Clamp(count)], second, Clamp(count) + 1)
  }

  method CopyOf(s: seq<Action>) returns (a: array<Action>)
    ensures fresh(a) && a[..] == s
  {
    a := new Action[|s|](i requires 0 <= i < |s| => s[i]);
  }

  /** Two lists of draws, one for each shuffle; a failed draw fails the selection. */
  method PickActions(count: int, first: seq<nat>, second: seq<nat>) returns (actions: Option<seq<Action>>)
    requires Draws(first, |HEAD_ACTIONS|) && Draws(second, Clamp(count) + 1)
    ensures actions.Some? <==> AllDraws(first, |HEAD_ACTIONS|) && AllDraws(second, Clamp(count) + 1)
    ensures actions.Some? ==> actions.value == Picked(count, first, second)
  {
    var c := count;
    if c < 2 {
      c := 2;
    }
    var headCount := c - 1;
    if headCount > |HEAD_ACTIONS| {
      headCount := |HEAD_ACTIONS|;
    }
    var pool := CopyOf(HEAD_ACTIONS);
    var ok := SecureShuffle(pool, first);
    if !ok {
      return None;
    }
    var chosen := [Blink] + pool[..headCount];
    var list := CopyOf(chosen);
    ok := SecureShuffle(list, second);
    if !ok {
      return None;
    }
    return Some(list[..]);
  }

  /** What a challenge asks for: exactly one blink among distinct head poses. */
  ghost predicate IsChallenge(count: int, actions: seq<Action>) {
    |actions| == Clamp(count) + 1 && Distinct(actions) && Blink in actions
  }

  function Pool(first: seq<nat>): seq<Action>
    requires AllDraws(first, |HEAD_ACTIONS|)
  {
    Shuffled(HEAD_ACTIONS, first, |HEAD_ACTIONS|)
  }

  lemma PoolIsDistinct(first: seq<nat>)
    requires AllDraws(first, |HEAD_ACTIONS|)
    ensures Distinct(Pool(first)) && Blink !in Pool(first)
  {
    ShuffleArranges(HEAD_ACTIONS, first, |HEAD_ACTIONS|);
  }

  /** Every draw gives a challenge. */
  lemma PickedIsAChallenge(count: int, first: seq<nat>, second: seq<nat>)
    requires AllDraws(first, |HEAD_ACTIONS|) && AllDraws(second, Clamp(count) + 1)
    ensures IsChallenge(count, Picked(count, first, second))
  {
    PoolIsDistinct(first);
    var chosen := [Blink] + Pool(first)[..Clamp(count)];
    assert Distinct(chosen) by {
      assert forall k :: 0 <= k < Clamp(count) ==> chosen[k + 1] == Pool(first)[k];
    }
    ShuffleArranges(chosen, second, Clamp(count) + 1);
    assert chosen[0] == Blink;
  }

  /** The items of `all` that `s` does not use, in order. */
  ghost function Rest(all: seq<Action>, s: seq<Action>): (r: seq<Action>)
    ensures forall a :: a in r <==> a in all && a !in s
  {
    if all == [] then []
    else if all[0] in s then Rest(all[1..], s)
    else [all[0]] + Rest(all[1..], s)
  }

  lemma {:induction false} RestIsDistinct(all: seq<Action>, s: seq<Action>)
    requires Distinct(all)
    ensures Distinct(Rest(all, s))
    decreases |all|
  {
    if all != [] {
      RestIsDistinct(all[1..], s);
      if all[0] !in s {
        assert all[0] !in all[1..];
      }
    }
  }

  lemma {:induction false} DistinctLength(s: seq<Action>, r: seq<Action>)
    requires Distinct(s) && Distinct(r) && forall a :: a in s <==> a in r
    ensures |s| == |r|
    decreases |s|
  {
    assert r == [] || r[0] in r;
    if s != [] {
      assert s[0] in s && s[0] in r;
      var k :| 0 <= k < |r| && r[k] == s[0];
      var r' := r[..k] + r[k + 1..];
      forall a ensures a in s[1..] <==> a in r' {
        assert a in s[1..] ==> a in s && a != s[0];
        assert a in r' ==> a in r && a != r[k];
        assert a in s <==> a in s[1..] || a == s[0];
        assert a in r <==> a in r' || a == r[k];
      }
      DistinctLength(s[1..], r');
    }
  }

  /** The head poses of a challenge, and the order of the pool that begins with them. */
  lemma PoolFor(count: int, actions: seq<Action>) returns (b: nat, pool: seq<Action>)
    requires IsChallenge(count, actions)
    ensures b < |actions| && actions[b] == Blink
    ensures Arranges(HEAD_ACTIONS, pool) && pool[..Clamp(count)] == actions[..b] + actions[b + 1..]
  {
    b := IndexOf(actions, Blink);
    var heads := actions[..b] + actions[b + 1..];
    forall k | 0 <= k < |heads| ensures heads[k] in HEAD_ACTIONS {
      assert heads[k] == actions[if k < b then k else k + 1];
    }
    var rest := Rest(HEAD_ACTIONS, heads);
    RestIsDistinct(HEAD_ACTIONS, heads);
    pool := heads + rest;
    forall i, j | 0 <= i < j < |pool| ensures pool[i] != pool[j] {
      if i < |heads| <= j {
        assert pool[i] in heads && pool[j] in rest;
      }
    }
    DistinctLength(HEAD_ACTIONS, pool);
  }

  /** Every challenge is drawn: no order, and no choice of head poses, is left out. */
  lemma EveryChallengeIsDrawn(count: int, actions: seq<Action>) returns (first: seq<nat>, second: seq<nat>)
    requires IsChallenge(count, actions)
    ensures AllDraws(first, |HEAD_ACTIONS|) && AllDraws(second, Clamp(count) + 1)
    ensures Picked(count, first, second) == actions
  {
    var b, pool := PoolFor(count, actions);
    first := DrawsFor(HEAD_ACTIONS, pool, |HEAD_ACTIONS|);
    ShuffleReaches(HEAD_ACTIONS, pool, |HEAD_ACTIONS|);
    PoolIsDistinct(first);
    var heads := actions[..b] + actions[b + 1..];
    var chosen := [Blink] + heads;
    second := DrawsFor(chosen, actions, Clamp(count) + 1);
    ShuffleReaches(chosen, actions, Clamp(count) + 1);
  }
}
