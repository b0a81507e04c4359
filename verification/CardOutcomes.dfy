/** What one read and one write of the catalogue answer and leave behind, read off the tables and the
    cache they find. */
module CardOutcomes {
  import opened Basics
  import opened CardCatalog
  import opened CardMachine
  import opened CardSafety

  /** The marker is read and names a version. */
  predicate Knows(s: Store, c: Calls) { c.marker.Done? && s.marker.Some? }

  /** And the catalogue is cached under it. */
  predicate Hits(s: Store, p: Product, r: Region, c: Calls) {
    Knows(s, c) && c.entry.Done? && KeyOf(p, r, s.marker.value) in s.entries
  }

  /** A read fails if and only if the cache does not answer it and the tables do not either; it is empty
      if they list nothing; otherwise it answers the cached catalogue, or the one the tables hold. */
  lemma ReadAnswersExactly(s: Store, p: Product, r: Region, c: Calls)
    ensures var answer := Get(s, p, r, c).1;
      && (answer == Failed <==>
          !Hits(s, p, r, c) && (!c.list.Done? || (List(s.db, p, r) != [] && !Knows(s, c) && !c.version.Done?)))
      && (answer == Empty <==> !Hits(s, p, r, c) && c.list.Done? && List(s.db, p, r) == [])
      && (Hits(s, p, r, c) ==> answer == Found(s.entries[KeyOf(p, r, s.marker.value)]))
      && (answer.Found? && !Hits(s, p, r, c) ==>
            && answer.catalog.cards == List(s.db, p, r) && answer.catalog.product == p
            && answer.catalog.version == if Knows(s, c) then s.marker.value else s.version)
  {
    hide DefaultCard, Currency;
  }

  /** A read that had to ask the tables leaves its answer for the next: with the cache writes taking, every
      read after it is answered alike without the tables, until something else is written or lost. */
  lemma ReadsAreRemembered(s: Store, p: Product, r: Region, c: Calls, d: Calls)
    requires Get(s, p, r, c).1.Found? && !Hits(s, p, r, c) && !c.store.Refused?
    requires Knows(s, c) || !c.mark.Refused?
    requires d.marker.Done? && d.entry.Done?
    ensures var (t, answer) := Get(s, p, r, c);
      Hits(t, p, r, d) && Get(t, p, r, d) == (t, answer)
  {
    hide DefaultCard, Currency, List;
  }

  /** And that is all it leaves: the tables stay, and no other key is touched. */
  lemma ReadLeaves(s: Store, p: Product, r: Region, c: Calls)
    ensures var t := Get(s, p, r, c).0;
      && (t.db, t.version, t.contents, t.today) == (s.db, s.version, s.contents, s.today)
      && (t.marker != s.marker ==> !Knows(s, c) && t.marker == Some(s.version) && !c.mark.Refused?)
      && (forall k :: k in s.entries ==> k in t.entries)
      && (forall k :: k in t.entries && (k !in s.entries || t.entries[k] != s.entries[k]) ==>
            && Get(s, p, r, c).1 == Found(t.entries[k]) && !Hits(s, p, r, c) && !c.store.Refused?
            && k == KeyOf(p, r, if Knows(s, c) then s.marker.value else s.version))
  {
    hide DefaultCard, Currency, List;
  }

  /** A write succeeds if and only if its transaction does, whatever becomes of the marker. Then the tables
      hold the new cards at a later version, and a refresh that took, or a deletion, leaves no marker
      to an earlier one. */
  lemma WriteLeaves(s: Store, db: Cards, commit: Outcome, c: Calls)
    requires s.version.date <= s.today
    ensures var (t, ok) := Write(s, db, commit, c);
      && (ok <==> commit.Done?)
      && t.entries == s.entries && t.today == s.today
      && (commit.Refused? ==> t == s)
      && (!commit.Refused? ==>
            t.db == db && Before(s.version, t.version) && t.contents == s.contents[t.version := db])
      && (t.marker == Some(t.version) || t.marker == None || t.marker == s.marker)
      && (ok && c.mark.Done? ==> t.marker == Some(t.version))
      && (ok && !c.mark.Done? && !c.drop.Refused? ==> t.marker == None)
      && (ok && c.mark.Refused? && c.drop.Refused? ==> t.marker == s.marker)
      && (!ok ==> t.marker == s.marker)
  {}

  /** So after a write alone whose marker was set, a read alone with the tables answering gives the cards
      just written. */
  lemma WriteIsRead(s: Store, db: Cards, w: Calls, p: Product, r: Region, c: Calls)
    requires StoreOk(s) && w.mark.Done? && r != NATIONWIDE && c.list.Done? && c.version.Done?
    ensures var t := Write(s, db, Done, w).0;
      var answer := Get(t, p, r, c).1;
      if List(db, p, r) == [] then answer == Empty
      else answer.Found? && answer.catalog.cards == List(db, p, r) && answer.catalog.version == t.version
  {
    hide Get, List, DefaultCard, Currency;
    var t := Write(s, db, Done, w).0;
    RefreshRecovers(s, db, w, p, r, c);
    WriteLeaves(s, db, Done, w);
    ReadAnswersExactly(t, p, r, c);
    if Hits(t, p, r, c) {
      NothingCachedYet(s, db, w, KeyOf(p, r, t.version));
    }
  }

  lemma NothingCachedYet(s: Store, db: Cards, w: Calls, k: Key)
    requires StoreOk(s) && k.version == Write(s, db, Done, w).0.version
    ensures k !in Write(s, db, Done, w).0.entries
  {
    CommitGrows(s, db, Done);
    forall x | x in s.entries ensures x.version != Bumped(s.version, s.today) {
      assert EntryKept(s, x);
    }
  }
}
