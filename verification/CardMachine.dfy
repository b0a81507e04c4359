/** Readers and writers of the card catalogue, one store call at a time. The catalogue is cached
    under keys that carry its version; a short-lived marker says which version is current. */
module CardMachine {
  import opened Basics
  import opened CardCatalog

  type RequestId = int

  /** The tables and the cache. `contents` remembers what the tables held at each version; the
      code does not. */
  datatype Store = Store(today: int, db: Cards, version: Version, marker: Option<Version>,
                         entries: map<Key, Catalog>, contents: map<Version, Cards>)

  datatype Answer = Found(catalog: Catalog) | Empty | Failed

  /** Where a request stands: which store call it makes next, and what it knows. `at` is the
      version the tables had when the cards were listed; the code does not know it. */
  datatype Phase =
    | Looking(product: Product, region: Region, version: Version)
    | Listing(product: Product, region: Region, known: Option<Version>)
    | Versioning(product: Product, region: Region, cards: seq<Card>, at: Version)
    | Marking(product: Product, region: Region, cards: seq<Card>, at: Version, version: Version)
    | Storing(product: Product, region: Region, cards: seq<Card>, at: Version, version: Version)
    | Answered(answer: Answer)
    | Refreshing(version: Version)
    | Dropping
    | Written(ok: bool)

  datatype State = State(store: Store, requests: map<RequestId, Phase>)

  // --- Store calls ---

  function Marked(s: Store, v: Option<Version>, o: Outcome): Store {
    if o == Refused then s else s.(marker := v)
  }

  function Stored(s: Store, k: Key, catalog: Catalog, o: Outcome): Store {
    if o == Refused then s else s.(entries := s.entries[k := catalog])
  }

  /** A read starts with the marker; without an answer it does without. */
  function Begin(s: Store, p: Product, r: Region, o: Outcome): Phase {
    if o == Done && s.marker.Some? then Looking(p, r, s.marker.value) else Listing(p, r, None)
  }

  /** One transaction writes the cards and the next version; a bump leaves the cards alone. */
  function Commit(s: Store, db: Cards, o: Outcome): Store {
    if o == Refused then s
    else
      var v := Bumped(s.version, s.today);
      s.(db := db, version := v, contents := s.contents[v := db])
  }

  function AfterCommit(s: Store, o: Outcome): Phase {
    if o == Done then Refreshing(Bumped(s.version, s.today)) else Written(false)
  }

  /** The next store call of a request: its effect, and where the request stands after it. */
  function Advance(s: Store, q: Phase, o: Outcome): (Store, Phase) {
    match q
    case Looking(p, r, v) =>
      (s, if o == Done && KeyOf(p, r, v) in s.entries then Answered(Found(s.entries[KeyOf(p, r, v)]))
          else Listing(p, r, Some(v)))
    case Listing(p, r, known) =>
      var cards := List(s.db, p, r);
      (s, if o != Done then Answered(Failed)
          else if cards == [] then Answered(Empty)
          else if known.Some? then Storing(p, r, cards, s.version, known.value)
          else Versioning(p, r, cards, s.version))
    case Versioning(p, r, cards, at) =>
      (s, if o != Done then Answered(Failed) else Marking(p, r, cards, at, s.version))
    case Marking(p, r, cards, at, v) => (Marked(s, Some(v), o), Storing(p, r, cards, at, v))
    case Storing(p, r, cards, at, v) =>
      (Stored(s, KeyOf(p, r, v), Build(v, p, cards), o), Answered(Found(Build(v, p, cards))))
    case Refreshing(v) => (Marked(s, Some(v), o), if o == Done then Written(true) else Dropping)
    case Dropping => (Marked(s, None, o), Written(true))
    case _ => (s, q)
  }

  // --- Runs ---

  datatype Event =
    | ReadEvent(id: RequestId, product: Product, region: Region, outcome: Outcome)
    | WriteEvent(id: RequestId, cards: Cards, outcome: Outcome)
    | Step(id: RequestId, outcome: Outcome)
    | LoseMarker
    | LoseEntry(key: Key)
    | NextDay(today: int)

  function Apply(s: State, e: Event): State {
    match e
    case ReadEvent(id, p, r, o) =>
      if id in s.requests || r == NATIONWIDE then s else s.(requests := s.requests[id := Begin(s.store, p, r, o)])
    case WriteEvent(id, db, o) =>
      if id in s.requests then s else State(Commit(s.store, db, o), s.requests[id := AfterCommit(s.store, o)])
    case Step(id, o) =>
      if id !in s.requests then s
      else var (t, q) := Advance(s.store, s.requests[id], o); State(t, s.requests[id := q])
    case LoseMarker => s.(store := s.store.(marker := None))
    case LoseEntry(k) => s.(store := s.store.(entries := s.store.entries - {k}))
    case NextDay(today) => s.(store := s.store.(today := if today > s.store.today then today else s.store.today))
  }

  function Run(s: State, events: seq<Event>): State
    decreases |events|
  {
    if events == [] then s else Run(Apply(s, events[0]), events[1..])
  }

  function Opened(today: int, db: Cards, version: Version): Store {
    Store(today, db, version, None, map[], map[version := db])
  }

  function Initial(today: int, db: Cards, version: Version): State {
    State(Opened(today, db, version), map[])
  }

  lemma {:induction false} RunAppend(s: State, first: seq<Event>, rest: seq<Event>)
    ensures Run(s, first + rest) == Run(Run(s, first), rest)
    decreases |first|
  {
    hide Apply;
    if first == [] {
      assert first + rest == rest;
    } else {
      assert (first + rest)[1..] == first[1..] + rest;
      RunAppend(Apply(s, first[0]), first[1..], rest);
    }
  }

  // --- One call with nobody else moving ---

  /** How the store calls of one request go. */
  datatype Calls = Calls(marker: Outcome, entry: Outcome, list: Outcome, version: Outcome, mark: Outcome,
                         store: Outcome, drop: Outcome)

  const FINE := Calls(Done, Done, Done, Done, Done, Done, Done)

  function Pick(q: Phase, c: Calls): Outcome {
    match q
    case Looking(_, _, _) => c.entry
    case Listing(_, _, _) => c.list
    case Versioning(_, _, _, _) => c.version
    case Marking(_, _, _, _, _) => c.mark
    case Storing(_, _, _, _, _) => c.store
    case Refreshing(_) => c.mark
    case Dropping => c.drop
    case _ => Done
  }

  /** Store calls still to make, at most. */
  function Rank(q: Phase): nat {
    match q
    case Looking(_, _, _) => 5
    case Listing(_, _, _) => 4
    case Versioning(_, _, _, _) => 3
    case Marking(_, _, _, _, _) => 2
    case Storing(_, _, _, _, _) => 1
    case Refreshing(_) => 2
    case Dropping => 1
    case _ => 0
  }

  function Drive(s: Store, q: Phase, c: Calls): (Store, Phase)
    decreases Rank(q)
  {
    if Rank(q) == 0 then (s, q) else var (t, p) := Advance(s, q, Pick(q, c)); Drive(t, p, c)
  }

  /** A read alone, and a write alone, in one piece. */
  function Get(s: Store, p: Product, r: Region, c: Calls): (Store, Answer) {
    var known := if c.marker == Done then s.marker else None;
    var cards := List(s.db, p, r);
    if known.Some? && c.entry == Done && KeyOf(p, r, known.value) in s.entries
    then (s, Found(s.entries[KeyOf(p, r, known.value)]))
    else if c.list != Done then (s, Failed)
    else if cards == [] then (s, Empty)
    else if known.None? && c.version != Done then (s, Failed)
    else
      var v := if known.Some? then known.value else s.version;
      var t := if known.None? then Marked(s, Some(v), c.mark) else s;
      (Stored(t, KeyOf(p, r, v), Build(v, p, cards), c.store), Found(Build(v, p, cards)))
  }

  function Write(s: Store, db: Cards, commit: Outcome, c: Calls): (Store, bool) {
    var t := Commit(s, db, commit);
    if commit != Done then (t, false)
    else
      var u := Marked(t, Some(t.version), c.mark);
      (if c.mark == Done then u else Marked(u, None, c.drop), true)
  }

  lemma DriveStep(s: Store, q: Phase, c: Calls)
    ensures Drive(s, q, c) ==
            if Rank(q) == 0 then (s, q) else var (t, p) := Advance(s, q, Pick(q, c)); Drive(t, p, c)
  {}

  lemma StoringIsDriven(s: Store, q: Phase, c: Calls)
    requires q.Storing?
    ensures Drive(s, q, c) ==
            (Stored(s, KeyOf(q.product, q.region, q.version), Build(q.version, q.product, q.cards), c.store),
             Answered(Found(Build(q.version, q.product, q.cards))))
  {
    hide Stored, Build, KeyOf;
    DriveStep(s, q, c);
  }

  lemma ListingIsDriven(s: Store, p: Product, r: Region, known: Option<Version>, c: Calls)
    requires known.Some? ==> !(c.entry == Done && KeyOf(p, r, known.value) in s.entries)
    requires known == if c.marker == Done then s.marker else None
    ensures Drive(s, Listing(p, r, known), c) == (Get(s, p, r, c).0, Answered(Get(s, p, r, c).1))
  {
    hide Stored, Build, KeyOf, List, Drive;
    var cards := List(s.db, p, r);
    DriveStep(s, Listing(p, r, known), c);
    var q := Advance(s, Listing(p, r, known), c.list).1;
    DriveStep(s, q, c);
    if q.Storing? {
      StoringIsDriven(s, q, c);
    } else if q.Versioning? {
      var m := Advance(s, q, c.version).1;
      DriveStep(s, m, c);
      if m.Marking? {
        StoringIsDriven(Marked(s, Some(m.version), c.mark), Advance(s, m, c.mark).1, c);
      }
    }
  }

  /** The compact read is the machine's read with nobody else moving. */
  lemma GetIsDriven(s: Store, p: Product, r: Region, c: Calls)
    ensures Drive(s, Begin(s, p, r, c.marker), c) == (Get(s, p, r, c).0, Answered(Get(s, p, r, c).1))
  {
    hide Stored, Build, KeyOf, List, Drive;
    var q := Begin(s, p, r, c.marker);
    if q.Looking? {
      DriveStep(s, q, c);
      if c.entry == Done && KeyOf(p, r, q.version) in s.entries {
        DriveStep(s, Advance(s, q, c.entry).1, c);
      } else {
        ListingIsDriven(s, p, r, Some(q.version), c);
      }
    } else {
      ListingIsDriven(s, p, r, None, c);
    }
  }

  lemma WriteIsDriven(s: Store, db: Cards, commit: Outcome, c: Calls)
    ensures Drive(Commit(s, db, commit), AfterCommit(s, commit), c) ==
            (Write(s, db, commit, c).0, Written(Write(s, db, commit, c).1))
  {
    hide Drive;
    var t, q := Commit(s, db, commit), AfterCommit(s, commit);
    DriveStep(t, q, c);
    if q.Refreshing? {
      var u, p := Advance(t, q, c.mark).0, Advance(t, q, c.mark).1;
      DriveStep(u, p, c);
      if p.Dropping? {
        DriveStep(Marked(u, None, c.drop), Written(true), c);
      }
    }
  }

  /** The steps one request takes when nobody else moves. */
  function Schedule(s: Store, id: RequestId, q: Phase, c: Calls): seq<Event>
    decreases Rank(q)
  {
    if Rank(q) == 0 then []
    else
      var (t, p) := Advance(s, q, Pick(q, c));
      [Step(id, Pick(q, c))] + Schedule(t, id, p, c)
  }

  /** A call alone is a run of the interleaved machine. */
  lemma {:induction false} DriveIsARun(s: State, id: RequestId, c: Calls)
    requires id in s.requests
    ensures var (t, q) := Drive(s.store, s.requests[id], c);
      Run(s, Schedule(s.store, id, s.requests[id], c)) == State(t, s.requests[id := q])
    decreases Rank(s.requests[id])
  {
    hide Advance;
    var q := s.requests[id];
    if Rank(q) == 0 {
      assert s.requests == s.requests[id := q];
    } else {
      var e := Step(id, Pick(q, c));
      var t := Apply(s, e);
      var rest := Schedule(t.store, id, t.requests[id], c);
      AdvanceRanks(s.store, q, Pick(q, c));
      DriveIsARun(t, id, c);
      assert Schedule(s.store, id, q, c) == [e] + rest && ([e] + rest)[1..] == rest;
    }
  }

  lemma AdvanceRanks(s: Store, q: Phase, o: Outcome)
    ensures Rank(q) > 0 ==> Rank(Advance(s, q, o).1) < Rank(q)
  {}
}
