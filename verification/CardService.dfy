/** The catalogue's calls as the service runs them, over mutable tables and cache. */
module CardService {
  import opened Basics
  import opened CardCatalog
  import opened CardMachine

  class Service {
    var today: int
    var db: Cards
    var version: Version
    var marker: Option<Version>
    var entries: map<Key, Catalog>
    ghost var contents: map<Version, Cards>

    constructor (today: int, db: Cards, version: Version)
      ensures View() == Opened(today, db, version)
    {
      this.today, this.db, this.version, marker, entries, contents := today, db, version, None, map[],
          map[version := db];
    }

    ghost function View(): Store
      reads this
    {
      Store(today, db, version, marker, entries, contents)
    }

    /** `enabled`: the product is known and the feature is on. */
    method GetCatalog(enabled: bool, p: Product, r: Region, c: Calls) returns (answer: Answer)
      modifies this`marker, this`entries
      ensures if enabled then (View(), answer) == Get(old(View()), p, r, c)
              else View() == old(View()) && answer == Empty
    {
      if !enabled {
        return Empty;
      }
      var known := None;
      if c.marker == Done {
        known := marker;
      }
      if known.Some? && c.entry == Done && KeyOf(p, r, known.value) in entries {
        return Found(entries[KeyOf(p, r, known.value)]);
      }
      if c.list != Done {
        return Failed;
      }
      var cards := List(db, p, r);
      if cards == [] {
        return Empty;
      }
      if known.None? {
        if c.version != Done {
          return Failed;
        }
        known := Some(version);
        if c.mark != Refused {
          marker := known;
        }
      }
      var defaultCard := ResolveDefaultCard(cards);
      var currency := CatalogCurrency(cards);
      var catalog := Catalog(known.value, p, defaultCard, currency, cards);
      if c.store != Refused {
        entries := entries[KeyOf(p, r, known.value) := catalog];
      }
      return Found(catalog);
    }

    /** Overwrites the marker, or, if that reports an error, deletes it. */
    method RefreshVersion(v: Version, c: Calls)
      modifies this`marker
      ensures var t := Marked(old(View()), Some(v), c.mark);
        View() == if c.mark == Done then t else Marked(t, None, c.drop)
    {
      if c.mark != Refused {
        marker := Some(v);
      }
      if c.mark != Done && c.drop != Refused {
        marker := None;
      }
    }

    /** An administrator's write, or, with the cards unchanged, a bump. */
    method WriteCards(cards: Cards, commit: Outcome, c: Calls) returns (ok: bool)
      modifies this
      ensures (View(), ok) == Write(old(View()), cards, commit, c)
    {
      if commit != Refused {
        version := Bumped(version, today);
        db, contents := cards, contents[version := cards];
      }
      if commit != Done {
        return false;
      }
      RefreshVersion(version, c);
      return true;
    }
  }
}
