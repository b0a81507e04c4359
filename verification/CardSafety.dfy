/** What every interleaving of catalogue readers and writers keeps, exactly which steps make the
    marker or an entry wrong, and runs that take one. */
module CardSafety {
  import opened Basics
  import opened CardCatalog
  import opened CardMachine

  // --- Facts of every run ---

  predicate NotAfter(a: Version, b: Version) { a == b || Before(a, b) }

  /** The tables had this version once, and it is no later than theirs. */
  predicate Past(s: Store, v: Version) {
    NotAfter(v, s.version) && v in s.contents
  }

  /** What a request knows was so when it found out. */
  predicate PhaseOk(s: Store, q: Phase) {
    match q
    case Looking(_, r, v) => r != NATIONWIDE && Past(s, v)
    case Listing(_, r, known) => r != NATIONWIDE && (known.Some? ==> Past(s, known.value))
    case Versioning(p, r, cards, at) => r != NATIONWIDE && Past(s, at) && cards == List(s.contents[at], p, r) != []
    case Marking(p, r, cards, at, v) =>
      r != NATIONWIDE && Past(s, at) && Past(s, v) && cards == List(s.contents[at], p, r) != []
    case Storing(p, r, cards, at, v) =>
      r != NATIONWIDE && Past(s, at) && Past(s, v) && cards == List(s.contents[at], p, r) != []
    case Refreshing(v) => Past(s, v)
    case _ => true
  }

  predicate EntryKept(s: Store, k: Key)
    requires k in s.entries
  {
    Past(s, k.version) && s.entries[k].version == k.version && s.entries[k].cards != []
  }

  /** The cache never runs ahead of the tables. */
  predicate StoreOk(s: Store) {
    && s.version.date <= s.today && s.version in s.contents && s.contents[s.version] == s.db
    && (s.marker.Some? ==> Past(s, s.marker.value))
    && (forall k {:trigger EntryKept(s, k)} :: k in s.entries ==> EntryKept(s, k))
    && (forall v {:trigger v in s.contents} :: v in s.contents ==> NotAfter(v, s.version))
  }

  predicate Base(s: State) {
    && StoreOk(s.store)
    && forall id {:trigger s.requests[id]} :: id in s.requests ==> PhaseOk(s.store, s.requests[id])
  }

  /** The tables only ever gain versions. */
  predicate Grows(s: Store, t: Store) {
    && NotAfter(s.version, t.version)
    && forall v {:trigger v in s.contents} :: v in s.contents ==> v in t.contents && t.contents[v] == s.contents[v]
  }

  lemma PhaseStaysOk(s: Store, t: Store, q: Phase)
    requires PhaseOk(s, q) && Grows(s, t)
    ensures PhaseOk(t, q)
  {
    hide List;
  }

  lemma CommitGrows(s: Store, db: Cards, o: Outcome)
    requires StoreOk(s)
    ensures StoreOk(Commit(s, db, o)) && Grows(s, Commit(s, db, o))
    ensures PhaseOk(Commit(s, db, o), AfterCommit(s, o))
  {
    var t := Commit(s, db, o);
    assert o != Refused ==> t.version !in s.contents;
    forall k | k in t.entries ensures EntryKept(t, k) {
      assert EntryKept(s, k);
    }
  }

  lemma AdvanceKeeps(s: Store, q: Phase, o: Outcome)
    requires StoreOk(s) && PhaseOk(s, q)
    ensures var (t, p) := Advance(s, q, o); StoreOk(t) && PhaseOk(t, p) && Grows(s, t)
  {
    hide List, Currency, DefaultCard;
    var t := Advance(s, q, o).0;
    forall k | k in t.entries ensures EntryKept(t, k) {
      assert k in s.entries ==> EntryKept(s, k);
    }
  }

  lemma StepKeepsBase(s: State, e: Event)
    requires Base(s)
    ensures Base(Apply(s, e))
  {
    hide PhaseOk, StoreOk, Grows, Advance, Commit, Begin;
    var t := Apply(s, e);
    assert StoreOk(t.store) && Grows(s.store, t.store) by {
      EventGrows(s, e);
    }
    forall id | id in t.requests ensures PhaseOk(t.store, t.requests[id]) {
      if id in s.requests && t.requests[id] == s.requests[id] {
        PhaseStaysOk(s.store, t.store, s.requests[id]);
      } else {
        NewPhaseOk(s, e, id);
      }
    }
  }

  lemma EventGrows(s: State, e: Event)
    requires Base(s)
    ensures var t := Apply(s, e); StoreOk(t.store) && Grows(s.store, t.store)
  {
    hide PhaseOk, Advance, Commit, Begin;
    match e
    case WriteEvent(id, db, o) => CommitGrows(s.store, db, o);
    case Step(id, o) => if id in s.requests { AdvanceKeeps(s.store, s.requests[id], o); }
    case _ =>
      var t := Apply(s, e).store;
      forall k | k in t.entries ensures EntryKept(t, k) {
        assert EntryKept(s.store, k);
      }
  }

  lemma NewPhaseOk(s: State, e: Event, id: RequestId)
    requires Base(s) && id in Apply(s, e).requests
    requires id !in s.requests || Apply(s, e).requests[id] != s.requests[id]
    ensures PhaseOk(Apply(s, e).store, Apply(s, e).requests[id])
  {
    hide Advance, Commit;
    match e
    case WriteEvent(_, db, o) => CommitGrows(s.store, db, o);
    case Step(_, o) => AdvanceKeeps(s.store, s.requests[id], o);
    case _ =>
  }

  lemma {:induction false} RunKeepsBase(s: State, events: seq<Event>)
    requires Base(s)
    ensures Base(Run(s, events))
    decreases |events|
  {
    if events != [] {
      StepKeepsBase(s, events[0]);
      RunKeepsBase(Apply(s, events[0]), events[1..]);
    }
  }

  // --- The marker ---

  predicate MarkerCurrent(s: Store) { s.marker.Some? ==> s.marker.value == s.version }

  /** The marker a step leaves, if it is a step that reaches the marker. */
  function Sets(s: State, e: Event): Option<Option<Version>> {
    match e
    case LoseMarker => Some(None)
    case Step(id, o) =>
      if id !in s.requests || o == Refused then None
      else if s.requests[id].Dropping? then Some(None)
      else if s.requests[id].Refreshing? || s.requests[id].Marking? then Some(Some(s.requests[id].version))
      else None
    case _ => None
  }

  predicate Commits(s: State, e: Event) { e.WriteEvent? && e.id !in s.requests && e.outcome != Refused }

  /** From any reachable state: a step that reaches the marker leaves it current if and only if
      it deletes it or carries the tables' version; a commit leaves a marker stale if there is
      one; and no other step changes whether it is current. */
  lemma MarkerStep(s: State, e: Event)
    requires Base(s)
    ensures MarkerCurrent(Apply(s, e).store) <==>
            match Sets(s, e)
            case Some(Some(v)) => v == s.store.version
            case Some(None) => true
            case None => if Commits(s, e) then s.store.marker.None? else MarkerCurrent(s.store)
  {
    hide List, Build, KeyOf;
  }

  // --- Writers that have yet to refresh the marker ---

  /** A request that will replace a stale marker, or try to delete it. */
  predicate Owes(s: Store, q: Phase) { q.Dropping? || q == Refreshing(s.version) }

  ghost predicate Owed(s: State) {
    exists id {:trigger s.requests[id]} :: id in s.requests && Owes(s.store, s.requests[id])
  }

  ghost predicate OwedByOther(s: State, me: RequestId) {
    exists id {:trigger s.requests[id]} :: id in s.requests && id != me && Owes(s.store, s.requests[id])
  }

  ghost predicate DropPending(s: State) {
    exists id {:trigger s.requests[id]} :: id in s.requests && s.requests[id].Dropping?
  }

  ghost predicate Settled(s: State) { MarkerCurrent(s.store) || Owed(s) }

  /** The marker is not made wrong, or left wrong, with nobody left to correct it: a commit whose
      reply is lost finds no marker, or one about to be deleted; a marker set to an older
      version, or a stale one that could not be deleted, is owed a refresh by another request. */
  ghost predicate Settles(s: State, e: Event) {
    match e
    case WriteEvent(id, _, o) => id !in s.requests && o == LostReply ==> s.store.marker.None? || DropPending(s)
    case Step(id, o) =>
      if id !in s.requests then true
      else
        (match s.requests[id]
         case Marking(_, _, _, _, v) => o != Refused ==> v == s.store.version || Owed(s)
         case Refreshing(v) => o == Done ==> v == s.store.version || OwedByOther(s, id)
         case Dropping => o == Refused ==> MarkerCurrent(s.store) || OwedByOther(s, id)
         case _ => true)
    case _ => true
  }

  /** A step that leaves the stores' version and the owing requests alone. */
  lemma OthersOwe(s: State, t: State, me: RequestId)
    requires t.store.version == s.store.version
    requires t.requests - {me} == s.requests - {me}
    ensures Owed(t) <==> OwedByOther(s, me) || (me in t.requests && Owes(t.store, t.requests[me]))
    ensures Owed(s) <==> OwedByOther(s, me) || (me in s.requests && Owes(s.store, s.requests[me]))
  {
    forall id | id != me
      ensures id in t.requests <==> id in s.requests
      ensures id in s.requests ==> t.requests[id] == s.requests[id]
    {
      assert id in t.requests <==> id in t.requests - {me};
      assert id in t.requests ==> (t.requests - {me})[id] == (s.requests - {me})[id];
    }
  }

  lemma StepSettles(s: State, id: RequestId, o: Outcome)
    requires Base(s) && Settled(s) && id in s.requests
    ensures Settled(Apply(s, Step(id, o))) <==> Settles(s, Step(id, o))
  {
    hide Owed, OwedByOther, DropPending, List, Build, KeyOf;
    var t := Apply(s, Step(id, o));
    OthersOwe(s, t, id);
  }

  lemma CommitSettles(s: State, id: RequestId, db: Cards, o: Outcome)
    requires Base(s) && Settled(s) && id !in s.requests && o != Refused
    ensures Settled(Apply(s, WriteEvent(id, db, o))) <==> Settles(s, WriteEvent(id, db, o))
  {
    var t := Apply(s, WriteEvent(id, db, o));
    CommitGrows(s.store, db, o);
    assert t.requests[id] == AfterCommit(s.store, o);
    if o == LostReply {
      if DropPending(s) {
        var x :| x in s.requests && s.requests[x].Dropping?;
        assert t.requests[x].Dropping?;
      }
      if Owed(t) {
        var x :| x in t.requests && Owes(t.store, t.requests[x]);
        assert s.requests[x] == t.requests[x] && PhaseOk(s.store, s.requests[x]);
        assert s.requests[x].Dropping?;
      }
    }
  }

  lemma ReadSettles(s: State, id: RequestId, p: Product, r: Region, o: Outcome)
    requires Settled(s)
    ensures Settled(Apply(s, ReadEvent(id, p, r, o)))
  {
    if id !in s.requests && r != NATIONWIDE {
      OthersOwe(s, Apply(s, ReadEvent(id, p, r, o)), id);
    }
  }

  /** A step keeps the marker current or owed if and only if it settles. */
  lemma SettledStep(s: State, e: Event)
    requires Base(s) && Settled(s)
    ensures Settled(Apply(s, e)) <==> Settles(s, e)
  {
    hide Base, Settled, Advance, Commit, Begin;
    match e
    case ReadEvent(id, p, r, o) => ReadSettles(s, id, p, r, o);
    case WriteEvent(id, db, o) =>
      if id !in s.requests && o != Refused {
        CommitSettles(s, id, db, o);
      } else {
        QuietSettles(s, e);
      }
    case Step(id, o) => if id in s.requests { StepSettles(s, id, o); }
    case _ => QuietSettles(s, e);
  }

  lemma QuietSettles(s: State, e: Event)
    requires Settled(s)
    requires e.LoseMarker? || e.LoseEntry? || e.NextDay?
             || (e.WriteEvent? && (e.id in s.requests || e.outcome == Refused))
    ensures Settled(Apply(s, e))
  {
    var t := Apply(s, e);
    if Owed(s) {
      var id :| id in s.requests && Owes(s.store, s.requests[id]);
      assert t.requests[id] == s.requests[id];
    }
  }

  // --- The entries ---

  predicate EntryOk(s: Store, k: Key)
    requires k in s.entries
  {
    && k.version in s.contents
    && s.entries[k] == Build(k.version, k.product, List(s.contents[k.version], k.product, RegionOf(k)))
  }

  /** Each cached catalogue is what the tables held at its version. */
  predicate EntriesOk(s: Store) {
    forall k {:trigger EntryOk(s, k)} :: k in s.entries ==> EntryOk(s, k)
  }

  /** The same for those at the tables' version: the others are not looked at while the marker
      is current. */
  predicate CurrentOk(s: Store) {
    forall k {:trigger EntryOk(s, k)} :: k in s.entries && k.version == s.version ==> EntryOk(s, k)
  }

  /** A read files the cards it listed under the version it knows. */
  predicate Files(s: State, e: Event) {
    e.Step? && e.id in s.requests && s.requests[e.id].Storing? && e.outcome != Refused
  }

  /** The cards of that product and region did not change between the version the tables had when
      they were listed and the version they are filed under. */
  predicate FilesTruly(s: State, e: Event)
    requires Base(s) && Files(s, e)
  {
    var q := s.requests[e.id];
    List(s.store.contents[q.at], q.product, q.region) == List(s.store.contents[q.version], q.product, q.region)
  }

  lemma StoredEntry(s: Store, q: Phase)
    requires StoreOk(s) && PhaseOk(s, q) && q.Storing?
    ensures var k := KeyOf(q.product, q.region, q.version);
      var t := Stored(s, k, Build(q.version, q.product, q.cards), Done);
      && (EntryOk(t, k) <==> q.cards == List(s.contents[q.version], q.product, q.region))
      && forall x {:trigger EntryOk(t, x)} :: x in s.entries && x != k ==> (EntryOk(t, x) <==> EntryOk(s, x))
  {
    hide List, DefaultCard, Currency;
  }

  /** Whether a step keeps the entries is decided by whether it files truly. */
  lemma EntriesStep(s: State, e: Event)
    requires Base(s) && EntriesOk(s.store)
    ensures EntriesOk(Apply(s, e).store) <==> (Files(s, e) ==> FilesTruly(s, e))
  {
    hide List, Build, KeyOf, Currency, DefaultCard;
    var t := Apply(s, e).store;
    if Files(s, e) {
      var q := s.requests[e.id];
      StoredEntry(s.store, q);
      var k := KeyOf(q.product, q.region, q.version);
      assert k in t.entries;
      forall x | x in t.entries && x != k ensures EntryOk(t, x) {
        assert EntryOk(s.store, x);
      }
      assert EntryOk(t, k) <==> FilesTruly(s, e);
    } else {
      EventGrows(s, e);
      forall x | x in t.entries ensures EntryOk(t, x) {
        assert EntryOk(s.store, x);
      }
    }
  }

  /** The same for the entries at the tables' version: only a catalogue filed under that version
      can be wrong there, and a commit leaves none. */
  lemma CurrentStep(s: State, e: Event)
    requires Base(s) && CurrentOk(s.store)
    ensures CurrentOk(Apply(s, e).store) <==>
            (Files(s, e) && s.requests[e.id].version == s.store.version ==> FilesTruly(s, e))
  {
    hide List, Build, Currency, DefaultCard;
    var t := Apply(s, e).store;
    if Files(s, e) {
      var q := s.requests[e.id];
      StoredEntry(s.store, q);
      var k := KeyOf(q.product, q.region, q.version);
      assert k in t.entries;
      forall x | x in t.entries && x != k && x.version == t.version ensures EntryOk(t, x) {
        assert EntryOk(s.store, x);
      }
      assert EntryOk(t, k) <==> FilesTruly(s, e);
    } else {
      EventGrows(s, e);
      forall x | x in t.entries && x.version == t.version ensures EntryOk(t, x) {
        assert EntryKept(s.store, x);
        assert x.version == s.store.version && EntryOk(s.store, x);
      }
    }
  }

  /** A read that files under the version it listed files truly. */
  lemma UnchangedTablesFileTruly(s: State, e: Event)
    requires Base(s) && Files(s, e) && s.requests[e.id].at == s.requests[e.id].version
    ensures FilesTruly(s, e)
  {}

  // --- Reads that overlap nothing ---

  /** What a read answers when the cache is not consulted. */
  function Uncached(s: Store, p: Product, r: Region): Answer {
    var cards := List(s.db, p, r);
    if cards == [] then Empty else Found(Build(s.version, p, cards))
  }

  /** A read alone answers what the tables hold, or fails because they cannot be read, exactly
      when the marker it trusts is current, or leads it nowhere. */
  lemma ReadsAreFresh(s: Store, p: Product, r: Region, c: Calls)
    requires StoreOk(s) && CurrentOk(s) && r != NATIONWIDE
    ensures var a := Get(s, p, r, c).1;
      a == Uncached(s, p, r) || a == Failed <==>
      MarkerCurrent(s) || c.marker != Done
      || (!(c.entry == Done && KeyOf(p, r, s.marker.value) in s.entries) && (c.list != Done || List(s.db, p, r) == []))
    ensures c.list == Done && c.version == Done ==> Get(s, p, r, c).1 != Failed
  {
    hide List, Currency, DefaultCard;
    if s.marker.Some? && KeyOf(p, r, s.marker.value) in s.entries {
      assert EntryKept(s, KeyOf(p, r, s.marker.value));
      if s.marker.value == s.version {
        assert EntryOk(s, KeyOf(p, r, s.version));
      }
    }
  }

  /** Every step settles, and files no wrong catalogue under the tables' version. */
  ghost predicate Orderly(s: State, e: Event)
    requires Base(s)
  {
    Settles(s, e) && (Files(s, e) && s.requests[e.id].version == s.store.version ==> FilesTruly(s, e))
  }

  ghost predicate OrderlyRun(s: State, events: seq<Event>)
    requires Base(s)
    decreases |events|
  {
    if events == [] then true
    else StepKeepsBase(s, events[0]); Orderly(s, events[0]) && OrderlyRun(Apply(s, events[0]), events[1..])
  }

  /** In every orderly run, whenever no writer has a refresh outstanding, a read that overlaps
      nothing answers what the tables hold, whatever cache calls fail. */
  lemma {:induction false} RunsStayFresh(s: State, events: seq<Event>, p: Product, r: Region, c: Calls)
    requires Base(s) && Settled(s) && CurrentOk(s.store) && OrderlyRun(s, events) && r != NATIONWIDE
    ensures var t := Run(s, events);
      && Base(t) && Settled(t) && CurrentOk(t.store)
      && (Owed(t) || Get(t.store, p, r, c).1 == Failed || Get(t.store, p, r, c).1 == Uncached(t.store, p, r))
    decreases |events|
  {
    hide Base, Settled, Owed, CurrentOk, Get, Uncached, Apply, Orderly;
    if events == [] {
      FreshWhenSettled(s, p, r, c);
    } else {
      OrderlyStep(s, events[0]);
      RunsStayFresh(Apply(s, events[0]), events[1..], p, r, c);
    }
  }

  lemma FreshWhenSettled(s: State, p: Product, r: Region, c: Calls)
    requires Base(s) && Settled(s) && CurrentOk(s.store) && r != NATIONWIDE
    ensures Owed(s) || Get(s.store, p, r, c).1 == Failed || Get(s.store, p, r, c).1 == Uncached(s.store, p, r)
  {
    hide Get, Uncached, CurrentOk, Owed;
    ReadsAreFresh(s.store, p, r, c);
  }

  /** A step keeps a state in which reads are fresh, or about to be, if and only if it is
      orderly. */
  lemma OrderlyStep(s: State, e: Event)
    requires Base(s) && Settled(s) && CurrentOk(s.store)
    ensures Base(Apply(s, e))
    ensures Settled(Apply(s, e)) && CurrentOk(Apply(s, e).store) <==> Orderly(s, e)
  {
    hide Base, Settled, CurrentOk, Apply, Settles, FilesTruly;
    StepKeepsBase(s, e);
    SettledStep(s, e);
    CurrentStep(s, e);
  }

  lemma StartsFresh(today: int, db: Cards, version: Version)
    requires version.date <= today
    ensures var s := Initial(today, db, version); Base(s) && Settled(s) && EntriesOk(s.store) && CurrentOk(s.store)
  {}

  ghost predicate TrueRun(s: State, events: seq<Event>)
    requires Base(s)
    decreases |events|
  {
    if events == [] then true
    else
      StepKeepsBase(s, events[0]);
      (Files(s, events[0]) ==> FilesTruly(s, events[0])) && TrueRun(Apply(s, events[0]), events[1..])
  }

  /** In every run whose reads file truly, each cached catalogue is the tables' at its version,
      whatever becomes of the marker. */
  lemma {:induction false} EntriesAreTrue(s: State, events: seq<Event>)
    requires Base(s) && EntriesOk(s.store) && TrueRun(s, events)
    ensures EntriesOk(Run(s, events).store)
    decreases |events|
  {
    if events != [] {
      StepKeepsBase(s, events[0]);
      EntriesStep(s, events[0]);
      EntriesAreTrue(Apply(s, events[0]), events[1..]);
    }
  }

  /** Recovery from anything: after a write alone whose refresh took, a read alone answers what
      the tables hold, however wrong the cache was, and whoever else is under way. */
  lemma RefreshRecovers(s: Store, db: Cards, w: Calls, p: Product, r: Region, c: Calls)
    requires StoreOk(s) && (w.mark == Done || w.drop != Refused) && r != NATIONWIDE
    ensures var t := Write(s, db, Done, w).0;
      Get(t, p, r, c).1 == Failed || Get(t, p, r, c).1 == Uncached(t, p, r)
  {
    hide Get, Uncached;
    var t := Write(s, db, Done, w).0;
    CommitGrows(s, db, Done);
    assert Before(s.version, t.version);
    forall k | k in t.entries ensures k.version != t.version {
      assert EntryKept(s, k);
    }
    assert StoreOk(t) by {
      var u := Commit(s, db, Done);
      assert forall k :: k in t.entries ==> EntryKept(u, k) && (EntryKept(t, k) <==> EntryKept(u, k));
    }
    ReadsAreFresh(t, p, r, c);
  }
}
