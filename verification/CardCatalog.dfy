/** The card catalogue of a product: its version, its cards, and the card offered by default. */
module CardCatalog {
  import opened Basics

  type Product = string
  type Region = string

  datatype Card = Card(kind: string, isDefault: bool, selectable: bool, currency: string)

  /** The day of the last change and a counter within the day. */
  datatype Version = Version(date: int, counter: nat)

  predicate Before(a: Version, b: Version) {
    a.date < b.date || (a.date == b.date && a.counter < b.counter)
  }

  function Bumped(v: Version, today: int): (w: Version)
    ensures v.date <= today ==> Before(v, w) && w.date == today
  {
    if v.date == today then Version(today, v.counter + 1) else Version(today, 1)
  }

  datatype Catalog = Catalog(version: Version, product: Product, defaultCard: string, currency: string,
      cards: seq<Card>)

  type Cards = map<(Product, Region), seq<Card>>

  function List(db: Cards, p: Product, r: Region): seq<Card> {
    if (p, r) in db then db[(p, r)] else []
  }

  /** The nationwide catalogue has a name of its own in the cache key. Region codes are upper
      case, so no region takes it. */
  datatype Key = Key(product: Product, region: Region, version: Version)

  const NATIONWIDE := "nat"

  function KeyOf(p: Product, r: Region, v: Version): Key {
    Key(p, if r == "" then NATIONWIDE else r, v)
  }

  function RegionOf(k: Key): Region { if k.region == NATIONWIDE then "" else k.region }

  // --- The default card ---

  /** The first selectable default, or the first selectable card. */
  predicate IsDefaultCard(cards: seq<Card>, i: nat)
    requires i < |cards|
  {
    && cards[i].selectable
    && (cards[i].isDefault || forall j :: 0 <= j < |cards| ==> !(cards[j].isDefault && cards[j].selectable))
    && forall j :: 0 <= j < i ==> !(cards[j].selectable && (cards[j].isDefault || !cards[i].isDefault))
  }

  function FirstWhere(cards: seq<Card>, defaultsOnly: bool): string {
    if cards == [] then ""
    else if cards[0].selectable && (!defaultsOnly || cards[0].isDefault) then cards[0].kind
    else FirstWhere(cards[1..], defaultsOnly)
  }

  predicate HasDefault(cards: seq<Card>) {
    exists i :: 0 <= i < |cards| && cards[i].isDefault && cards[i].selectable
  }

  function DefaultCard(cards: seq<Card>): string {
    FirstWhere(cards, HasDefault(cards))
  }

  lemma {:induction false} FirstWhereIs(cards: seq<Card>, defaultsOnly: bool, i: nat)
    requires i < |cards| && cards[i].selectable && (!defaultsOnly || cards[i].isDefault)
    requires forall j :: 0 <= j < i ==> !(cards[j].selectable && (!defaultsOnly || cards[j].isDefault))
    ensures FirstWhere(cards, defaultsOnly) == cards[i].kind
    decreases i
  {
    if i > 0 {
      FirstWhereIs(cards[1..], defaultsOnly, i - 1);
    }
  }

  lemma {:induction false} FirstWhereNone(cards: seq<Card>, defaultsOnly: bool)
    requires forall j :: 0 <= j < |cards| ==> !(cards[j].selectable && (!defaultsOnly || cards[j].isDefault))
    ensures FirstWhere(cards, defaultsOnly) == ""
    decreases |cards|
  {
    if cards != [] {
      FirstWhereNone(cards[1..], defaultsOnly);
    }
  }

  /** Two passes, as the source does it: an unavailable default gives way to the first card that
      can be chosen. */
  method ResolveDefaultCard(cards: seq<Card>) returns (kind: string)
    ensures kind == DefaultCard(cards)
    ensures (exists i :: 0 <= i < |cards| && IsDefaultCard(cards, i) && kind == cards[i].kind)
            || (kind == "" && forall i :: 0 <= i < |cards| ==> !cards[i].selectable)
  {
    for i := 0 to |cards|
      invariant forall j :: 0 <= j < i ==> !(cards[j].isDefault && cards[j].selectable)
    {
      if cards[i].isDefault && cards[i].selectable {
        FirstWhereIs(cards, true, i);
        assert IsDefaultCard(cards, i);
        return cards[i].kind;
      }
    }
    for i := 0 to |cards|
      invariant forall j :: 0 <= j < i ==> !cards[j].selectable
    {
      if cards[i].selectable {
        FirstWhereIs(cards, false, i);
        assert IsDefaultCard(cards, i);
        return cards[i].kind;
      }
    }
    FirstWhereNone(cards, false);
    return "";
  }

  function Currency(cards: seq<Card>): string {
    if cards == [] then "IDR" else if cards[0].currency != "" then cards[0].currency else Currency(cards[1..])
  }

  method CatalogCurrency(cards: seq<Card>) returns (currency: string)
    ensures currency == Currency(cards) && currency != ""
    ensures (exists i :: 0 <= i < |cards| && cards[i].currency == currency
                         && forall j :: 0 <= j < i ==> cards[j].currency == "")
            || (currency == "IDR" && forall i :: 0 <= i < |cards| ==> cards[i].currency == "")
  {
    for i := 0 to |cards|
      invariant Currency(cards) == Currency(cards[i..])
      invariant forall j :: 0 <= j < i ==> cards[j].currency == ""
    {
      if cards[i].currency != "" {
        return cards[i].currency;
      }
      assert cards[i..][1..] == cards[i + 1..];
    }
    return "IDR";
  }

  function Build(v: Version, p: Product, cards: seq<Card>): Catalog {
    Catalog(v, p, DefaultCard(cards), Currency(cards), cards)
  }
}
