/** Runs of the catalogue from its first start after which a read that overlaps nothing is wrong.
    In the first three every store call succeeds. */
module CardRuns {
  import opened Basics
  import opened CardCatalog
  import opened CardMachine
  import opened CardSafety

  /** The first steps of a read that finds no marker: it lists the cards, reads the version,
      marks it, and files the catalogue. */
  function Reading(id: RequestId, p: Product, r: Region): (events: seq<Event>)
    ensures |events| == 5
  {
    [ReadEvent(id, p, r, Done), Step(id, Done), Step(id, Done), Step(id, Done), Step(id, Done)]
  }

  /** Two writes commit in one order and refresh the marker in the other; the first one's cards
      were cached in between. */
  function Crossed(db1: Cards, db2: Cards, p: Product, r: Region): seq<Event> {
    [WriteEvent(1, db1, Done)] + Reading(3, p, r) + [WriteEvent(2, db2, Done), Step(2, Done), Step(1, Done)]
  }

  /** A read that has read the version marks it after a write has marked the next one. */
  function LateMark(db: Cards, p: Product, r: Region): seq<Event> {
    Reading(1, p, r)[..3] + [WriteEvent(2, db, Done), Step(2, Done)] + Reading(1, p, r)[3..]
  }

  /** A read that has listed the cards reads the version after a write. */
  function LateVersion(db: Cards, p: Product, r: Region): seq<Event> {
    Reading(1, p, r)[..2] + [WriteEvent(2, db, Done), Step(2, Done)] + Reading(1, p, r)[2..]
  }

  /** A write can neither set nor delete the marker, and the next read misses. */
  function Unrefreshed(db: Cards, p: Product, r: Region): seq<Event> {
    Reading(1, p, r)[..4] + [WriteEvent(2, db, Done), Step(2, Refused), Step(2, Refused)]
    + [ReadEvent(3, p, r, Done), Step(3, Done), Step(3, Done), Step(3, Done)]
  }

  lemma RunThree(s: State, events: seq<Event>)
    ensures |events| == 1 ==> Run(s, events) == Apply(s, events[0])
    ensures |events| == 2 ==> Run(s, events) == Apply(Apply(s, events[0]), events[1])
    ensures |events| == 3 ==> Run(s, events) == Apply(Apply(Apply(s, events[0]), events[1]), events[2])
  {
    hide Apply;
    if |events| > 0 {
      RunAppend(s, events[..1], events[1..]);
      assert events == events[..1] + events[1..];
    }
    if |events| > 1 {
      RunAppend(Apply(s, events[0]), events[1..2], events[2..]);
      assert events[1..] == events[1..2] + events[2..];
    }
    if |events| > 2 {
      RunAppend(Apply(Apply(s, events[0]), events[1]), events[2..3], events[3..]);
      assert events[2..] == events[2..3] + events[3..];
    }
  }

  function Listed(s: State, id: RequestId, p: Product, r: Region): State {
    s.(requests := s.requests[id := Versioning(p, r, List(s.store.db, p, r), s.store.version)])
  }

  function Versioned(s: State, id: RequestId, q: Phase): State
    requires q.Versioning?
  {
    s.(requests := s.requests[id := Marking(q.product, q.region, q.cards, q.at, s.store.version)])
  }

  /** The read's marker and entry are written. */
  function Filed(s: State, id: RequestId, q: Phase): State
    requires q.Marking?
  {
    var catalog := Build(q.version, q.product, q.cards);
    State(s.store.(marker := Some(q.version),
        entries := s.store.entries[KeyOf(q.product, q.region, q.version) := catalog]),
          s.requests[id := Answered(Found(catalog))])
  }

  lemma ReadingLists(s: State, id: RequestId, p: Product, r: Region)
    requires id !in s.requests && r != NATIONWIDE && s.store.marker.None? && List(s.store.db, p, r) != []
    ensures Run(s, Reading(id, p, r)[..2]) == Listed(s, id, p, r)
  {
    hide List;
    RunThree(s, Reading(id, p, r)[..2]);
  }

  lemma ReadingVersions(s: State, id: RequestId, p: Product, r: Region)
    requires id in s.requests && s.requests[id].Versioning?
    ensures Run(s, Reading(id, p, r)[2..3]) == Versioned(s, id, s.requests[id])
  {
    RunThree(s, Reading(id, p, r)[2..3]);
  }

  lemma ReadingFiles(s: State, id: RequestId, p: Product, r: Region)
    requires id in s.requests && s.requests[id].Marking?
    ensures Run(s, Reading(id, p, r)[3..]) == Filed(s, id, s.requests[id])
  {
    hide Build, KeyOf;
    RunThree(s, Reading(id, p, r)[3..]);
  }

  lemma ReadingWhole(s: State, id: RequestId, p: Product, r: Region)
    requires id !in s.requests && r != NATIONWIDE && s.store.marker.None? && List(s.store.db, p, r) != []
    ensures Run(s, Reading(id, p, r)) ==
            Filed(s, id, Marking(p, r, List(s.store.db, p, r), s.store.version, s.store.version))
    ensures Run(s, Reading(id, p, r)[..3]) ==
            s.(requests := s.requests[id := Marking(p, r, List(s.store.db, p, r), s.store.version, s.store.version)])
  {
    hide List, Build, KeyOf, Run;
    var es := Reading(id, p, r);
    assert es[..2] + es[2..3] == es[..3] && es[..3] + es[3..] == es;
    RunAppend(s, es[..2], es[2..3]);
    RunAppend(s, es[..3], es[3..]);
    ReadingLists(s, id, p, r);
    ReadingVersions(Listed(s, id, p, r), id, p, r);
    ReadingFiles(Run(s, es[..3]), id, p, r);
  }

  function WrittenBy(s: State, id: RequestId, db: Cards): State {
    var v := Bumped(s.store.version, s.store.today);
    State(Commit(s.store, db, Done).(marker := Some(v)), s.requests[id := Written(true)])
  }

  lemma Writing(s: State, id: RequestId, db: Cards)
    requires id !in s.requests
    ensures Run(s, [WriteEvent(id, db, Done), Step(id, Done)]) == WrittenBy(s, id, db)
  {
    RunThree(s, [WriteEvent(id, db, Done), Step(id, Done)]);
  }

  /** The first write's refresh lands last: the marker stays at its version, and reads answer its
      cards, not those of the second. */
  lemma CrossedRefreshes(today: int, db: Cards, v0: Version, db1: Cards, db2: Cards, p: Product, r: Region)
    requires v0.date <= today && r != NATIONWIDE
    requires List(db1, p, r) != [] && List(db1, p, r) != List(db2, p, r)
    ensures var t := Run(Initial(today, db, v0), Crossed(db1, db2, p, r)).store;
      && Get(t, p, r, FINE).1 == Found(Build(Bumped(v0, today), p, List(db1, p, r)))
      && Uncached(t, p, r) != Get(t, p, r, FINE).1
  {
    hide List, KeyOf, Run, Reading, Currency, DefaultCard;
    var s := Initial(today, db, v0);
    var first, last := [WriteEvent(1, db1, Done)], [WriteEvent(2, db2, Done), Step(2, Done), Step(1, Done)];
    RunAppend(s, first + Reading(3, p, r), last);
    RunAppend(s, first, Reading(3, p, r));
    RunThree(s, first);
    var s1 := Apply(s, first[0]);
    ReadingWhole(s1, 3, p, r);
    RunThree(Run(s1, Reading(3, p, r)), last);
  }

  /** A read's own write of the marker lands after a refresh. */
  lemma LateMarkStays(today: int, db0: Cards, v0: Version, db: Cards, p: Product, r: Region)
    requires v0.date <= today && r != NATIONWIDE
    requires List(db0, p, r) != [] && List(db, p, r) != List(db0, p, r)
    ensures var t := Run(Initial(today, db0, v0), LateMark(db, p, r)).store;
      && Get(t, p, r, FINE).1 == Found(Build(v0, p, List(db0, p, r)))
      && Uncached(t, p, r) != Get(t, p, r, FINE).1
  {
    hide List, KeyOf, Run, Reading, Currency, DefaultCard;
    var s, es := Initial(today, db0, v0), Reading(1, p, r);
    var write := [WriteEvent(2, db, Done), Step(2, Done)];
    RunAppend(s, es[..3] + write, es[3..]);
    RunAppend(s, es[..3], write);
    ReadingWhole(s, 1, p, r);
    var s3 := Run(s, es[..3]);
    Writing(s3, 2, db);
    ReadingFiles(WrittenBy(s3, 2, db), 1, p, r);
  }

  /** A read stores the old cards under the new version, for everyone to find under a current
      marker. */
  lemma OverlapPoisons(today: int, db0: Cards, v0: Version, db: Cards, p: Product, r: Region)
    requires v0.date <= today && r != NATIONWIDE
    requires List(db0, p, r) != [] && List(db, p, r) != List(db0, p, r)
    ensures var t := Run(Initial(today, db0, v0), LateVersion(db, p, r)).store;
      && MarkerCurrent(t) && !CurrentOk(t)
      && Get(t, p, r, FINE).1 == Found(Build(t.version, p, List(db0, p, r)))
      && Uncached(t, p, r) != Get(t, p, r, FINE).1
  {
    hide List, KeyOf, Run, Reading, Currency, DefaultCard;
    var s, es := Initial(today, db0, v0), Reading(1, p, r);
    var write := [WriteEvent(2, db, Done), Step(2, Done)];
    RunAppend(s, es[..2] + write, es[2..]);
    RunAppend(s, es[..2], write);
    ReadingLists(s, 1, p, r);
    var s2 := Listed(s, 1, p, r);
    Writing(s2, 2, db);
    var s4 := WrittenBy(s2, 2, db);
    assert es[2..] == es[2..3] + es[3..];
    RunAppend(s4, es[2..3], es[3..]);
    ReadingVersions(s4, 1, p, r);
    ReadingFiles(Versioned(s4, 1, s4.requests[1]), 1, p, r);
    FiledWrongly(Filed(Versioned(s4, 1, s4.requests[1]), 1, Marking(p, r, List(db0, p, r), v0, s4.store.version)).store,
                 p, r, s4.store.version, List(db0, p, r));
  }

  lemma FiledWrongly(s: Store, p: Product, r: Region, v: Version, cards: seq<Card>)
    requires r != NATIONWIDE && KeyOf(p, r, v) in s.entries && s.entries[KeyOf(p, r, v)] == Build(v, p, cards)
    requires v in s.contents && List(s.contents[v], p, r) != cards
    ensures !EntryOk(s, KeyOf(p, r, v)) && !EntriesOk(s) && (v == s.version ==> !CurrentOk(s))
  {
    hide List, DefaultCard, Currency;
    assert !EntryOk(s, KeyOf(p, r, v));
  }

  lemma Missing(s: State, id: RequestId, p: Product, r: Region, v: Version)
    requires id !in s.requests && r != NATIONWIDE && s.store.marker == Some(v) && KeyOf(p, r, v) !in s.store.entries
    requires List(s.store.db, p, r) != []
    ensures Run(s, [ReadEvent(id, p, r, Done), Step(id, Done), Step(id, Done), Step(id, Done)]).store ==
            s.store.(entries := s.store.entries[KeyOf(p, r, v) := Build(v, p, List(s.store.db, p, r))])
  {
    hide List, Build, KeyOf;
    var es := [ReadEvent(id, p, r, Done), Step(id, Done), Step(id, Done), Step(id, Done)];
    assert es == es[..3] + es[3..];
    RunAppend(s, es[..3], es[3..]);
    RunThree(s, es[..3]);
    RunThree(Run(s, es[..3]), es[3..]);
  }

  /** The marker keeps the old version, and the next miss files the new cards under it. */
  lemma StaleMarkerMislabels(today: int, db0: Cards, v0: Version, db: Cards, p: Product, r: Region)
    requires v0.date <= today && r != NATIONWIDE
    requires List(db0, p, r) != [] && List(db, p, r) != [] && List(db, p, r) != List(db0, p, r)
    ensures var t := Run(Initial(today, db0, v0), Unrefreshed(db, p, r)).store;
      && !EntriesOk(t)
      && Get(t, p, r, FINE).1 == Found(Build(v0, p, List(db, p, r)))
      && Uncached(t, p, r) != Get(t, p, r, FINE).1
  {
    hide List, KeyOf, Run, Reading, Currency, DefaultCard;
    var s, es := Initial(today, db0, v0), Reading(1, p, r);
    var write := [WriteEvent(2, db, Done), Step(2, Refused), Step(2, Refused)];
    var last := [ReadEvent(3, p, r, Done), Step(3, Done), Step(3, Done), Step(3, Done)];
    RunAppend(s, es[..4] + write, last);
    RunAppend(s, es[..4], write);
    assert es[..4] == es[..3] + es[3..4];
    RunAppend(s, es[..3], es[3..4]);
    ReadingWhole(s, 1, p, r);
    var s3 := Run(s, es[..3]);
    assert es[3..4] == [Step(1, Done)] by { StepAt(1, p, r); }
    RunThree(s3, [Step(1, Done)]);
    var s4 := Apply(s3, Step(1, Done));
    RunThree(s4, write);
    var s5 := Run(s4, write);
    Missing(s5, 3, p, r, v0);
    FiledWrongly(Run(s5, last).store, p, r, v0, List(db, p, r));
  }

  lemma StepAt(id: RequestId, p: Product, r: Region)
    ensures Reading(id, p, r)[3..4] == [Step(id, Done)]
  {}
}
