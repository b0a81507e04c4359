/** Runs in which writes overlap neither reads nor each other: what has to be true of the events for
    the catalogue to be right throughout. */
module CardSerial {
  import opened Basics
  import opened CardCatalog
  import opened CardMachine
  import opened CardSafety

  predicate IsReading(q: Phase) {
    q.Looking? || q.Listing? || q.Versioning? || q.Marking? || q.Storing?
  }

  predicate IsWriting(q: Phase) { q.Refreshing? || q.Dropping? }

  predicate NoneReading(s: State) {
    forall id {:trigger s.requests[id]} :: id in s.requests ==> !IsReading(s.requests[id])
  }

  predicate NoneWriting(s: State) {
    forall id {:trigger s.requests[id]} :: id in s.requests ==> !IsWriting(s.requests[id])
  }

  /** A write takes effect while no other request is under way, and its reply arrives unless there is
      no marker; a read begins while no write is under way; and a marker that could not be set is
      deleted. Reads overlap each other freely, and any cache call may fail. */
  predicate Serial(s: State, e: Event) {
    match e
    case WriteEvent(id, _, o) =>
      id !in s.requests && o != Refused ==>
        NoneReading(s) && NoneWriting(s) && (o == Done || s.store.marker.None?)
    case ReadEvent(id, _, _, _) => id !in s.requests ==> NoneWriting(s)
    case Step(id, o) => id in s.requests && s.requests[id].Dropping? ==> o != Refused
    case _ => true
  }

  /** Everything a read knows is of the tables' version. */
  predicate AsOfNow(s: Store, q: Phase) {
    match q
    case Looking(_, _, v) => v == s.version
    case Listing(_, _, known) => known.Some? ==> known.value == s.version
    case Versioning(_, _, _, at) => at == s.version
    case Marking(_, _, _, at, v) => at == s.version && v == s.version
    case Storing(_, _, _, at, v) => at == s.version && v == s.version
    case Refreshing(v) => v == s.version
    case _ => true
  }

  predicate OneWriter(s: State) {
    forall i, j {:trigger s.requests[i], s.requests[j]} ::
      i in s.requests && j in s.requests && IsWriting(s.requests[i]) && IsWriting(s.requests[j]) ==> i == j
  }

  predicate Calm(s: State) {
    && (forall id {:trigger s.requests[id]} :: id in s.requests ==> AsOfNow(s.store, s.requests[id]))
    && (NoneReading(s) || NoneWriting(s)) && OneWriter(s)
    && (NoneWriting(s) ==> MarkerCurrent(s.store))
  }

  lemma CommitCalm(s: State, e: Event)
    requires Base(s) && Calm(s) && Serial(s, e) && Commits(s, e)
    ensures Calm(Apply(s, e))
  {
    CommitGrows(s.store, e.cards, e.outcome);
    var t := Apply(s, e);
    forall id | id in t.requests && id != e.id ensures t.requests[id] == s.requests[id] {
    }
    if e.outcome == LostReply {
      assert NoneWriting(t);
    } else {
      assert IsWriting(t.requests[e.id]);
    }
  }

  lemma ReadCalm(s: State, e: Event)
    requires Base(s) && Calm(s) && Serial(s, e) && e.ReadEvent?
    ensures Calm(Apply(s, e))
  {
    var t := Apply(s, e);
    if t != s {
      assert NoneWriting(t);
    }
  }

  /** One step of a read, while nobody writes. */
  lemma ReadStepCalm(s: State, id: RequestId, o: Outcome)
    requires Base(s) && Calm(s) && id in s.requests && IsReading(s.requests[id])
    ensures Calm(Apply(s, Step(id, o)))
  {
    hide List, Build, KeyOf;
    var t := Apply(s, Step(id, o));
    assert !NoneReading(s);
    assert NoneWriting(t);
  }

  /** One step of the only writer, while nobody reads. */
  lemma WriteStepCalm(s: State, id: RequestId, o: Outcome)
    requires Base(s) && Calm(s) && Serial(s, Step(id, o)) && id in s.requests && !IsReading(s.requests[id])
    ensures Calm(Apply(s, Step(id, o)))
  {
    var t := Apply(s, Step(id, o));
    if IsWriting(s.requests[id]) {
      assert NoneReading(s) && NoneReading(t);
      if IsWriting(t.requests[id]) {
        assert !NoneWriting(t);
      } else {
        assert NoneWriting(t);
      }
    } else {
      assert t.requests == s.requests && t.store == s.store;
    }
  }

  lemma CalmStep(s: State, e: Event)
    requires Base(s) && Calm(s) && Serial(s, e)
    ensures Calm(Apply(s, e))
  {
    hide Base, Calm, Serial, Advance, Commit, Begin;
    if Commits(s, e) {
      CommitCalm(s, e);
    } else if e.ReadEvent? {
      ReadCalm(s, e);
    } else if e.Step? && e.id in s.requests {
      if IsReading(s.requests[e.id]) { ReadStepCalm(s, e.id, e.outcome); } else { WriteStepCalm(s, e.id, e.outcome); }
    } else {
      QuietCalm(s, e);
    }
  }

  lemma QuietCalm(s: State, e: Event)
    requires Calm(s) && !Commits(s, e) && !e.ReadEvent? && !(e.Step? && e.id in s.requests)
    ensures Calm(Apply(s, e))
  {
    var t := Apply(s, e);
    if e.WriteEvent? && e.id !in s.requests {
      assert t.store == s.store && t.requests[e.id] == Written(false);
      assert NoneReading(s) ==> NoneReading(t);
      assert NoneWriting(s) ==> NoneWriting(t);
      if NoneWriting(t) {
        forall id | id in s.requests ensures !IsWriting(s.requests[id]) {
          assert t.requests[id] == s.requests[id];
        }
      }
    } else {
      assert t.requests == s.requests;
    }
  }

  /** A serial step of a calm state is orderly, and files truly. */
  lemma SerialIsOrderly(s: State, e: Event)
    requires Base(s) && Calm(s) && Serial(s, e)
    ensures Settles(s, e) && (Files(s, e) ==> FilesTruly(s, e))
  {
    if Files(s, e) {
      assert AsOfNow(s.store, s.requests[e.id]);
      UnchangedTablesFileTruly(s, e);
    }
    if e.Step? && e.id in s.requests {
      assert AsOfNow(s.store, s.requests[e.id]);
    }
  }

  predicate SerialRun(s: State, events: seq<Event>)
    decreases |events|
  {
    events == [] || (Serial(s, events[0]) && SerialRun(Apply(s, events[0]), events[1..]))
  }

  lemma {:induction false} SerialRunsAreOrderly(s: State, events: seq<Event>)
    requires Base(s) && Calm(s) && SerialRun(s, events)
    ensures OrderlyRun(s, events) && TrueRun(s, events)
    ensures Base(Run(s, events)) && Calm(Run(s, events))
    decreases |events|
  {
    hide Base, Calm, Serial, Apply, Settles, Files, FilesTruly;
    if events != [] {
      StepKeepsBase(s, events[0]);
      CalmStep(s, events[0]);
      SerialIsOrderly(s, events[0]);
      SerialRunsAreOrderly(Apply(s, events[0]), events[1..]);
    }
  }

  /** From the first start: if writes overlap neither reads nor each other and each refresh takes, then,
      whatever other cache calls fail and whatever is evicted, every cached catalogue is always the
      tables' at its version, and whenever no write is under way a read answers what they hold. */
  lemma SerialWritesStayFresh(today: int, db: Cards, version: Version, events: seq<Event>,
                              p: Product, r: Region, c: Calls)
    requires version.date <= today && SerialRun(Initial(today, db, version), events) && r != NATIONWIDE
    ensures var t := Run(Initial(today, db, version), events);
      && EntriesOk(t.store)
      && (NoneWriting(t) ==> Get(t.store, p, r, c).1 == Failed || Get(t.store, p, r, c).1 == Uncached(t.store, p, r))
  {
    hide Run, Get, Uncached, SerialRun;
    var s := Initial(today, db, version);
    StartsFresh(today, db, version);
    SerialRunsAreOrderly(s, events);
    EntriesAreTrue(s, events);
    RunsStayFresh(s, events, p, r, c);
    var t := Run(s, events);
    if NoneWriting(t) {
      NobodyOwes(t);
    }
  }

  lemma NobodyOwes(s: State)
    requires NoneWriting(s)
    ensures !Owed(s)
  {}
}
