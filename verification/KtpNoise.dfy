/** Cards as they are scanned: with the labels nobody asks for, stray text between the lines, and the
    gender missing. */
module KtpNoise {
  import opened Basics
  import opened Text
  import opened KtpNik
  import opened KtpText

  // --- Lines that say nothing ---

  function Digits(s: string): nat {
    if s == "" then 0 else (if IsDigit(s[0]) then 1 else 0) + Digits(s[1..])
  }

  /** A blank line, a label that is none of the card's fields, or text without a colon that begins with no
      header and has fewer digits than an identity number. */
  predicate Silent(raw: string) {
    var line := Trim(raw);
    line == "" ||
    match AroundFirst(line, ':')
    case Some(cut) => FieldOf(Trim(Upper(cut.head))) == NoField
    case None =>
      && !("PROVINSI" <= Upper(line)) && !("KOTA" <= Upper(line)) && !("KABUPATEN" <= Upper(line))
      && Digits(line) < 16
  }

  lemma {:induction false} DigitsOfSlice(s: string, k: nat)
    requires k <= |s|
    ensures Digits(s[..k]) <= Digits(s)
    decreases k
  {
    if k > 0 {
      assert s[..k][1..] == s[1..][..k - 1];
      DigitsOfSlice(s[1..], k - 1);
    }
  }

  lemma {:induction false} DigitsOfDigits(s: string)
    requires AllDigits(s)
    ensures Digits(s) == |s|
  {
    if s != "" {
      DigitsOfDigits(s[1..]);
    }
  }

  lemma {:induction false} FirstRunHasDigits(s: string)
    requires Digits(s) < 16
    ensures FirstRun(s) == ""
    decreases |s|
  {
    if |s| >= 16 {
      DigitsOfSlice(s, 16);
      if AllDigits(s[..16]) {
        DigitsOfDigits(s[..16]);
      }
      FirstRunHasDigits(s[1..]);
    }
  }

  lemma {:induction false} DroppingKeepsDigits(s: string, drop: set<char>)
    requires forall c :: c in drop ==> !IsDigit(c)
    ensures Digits(Without(s, drop)) == Digits(s)
  {
    if s != "" {
      DroppingKeepsDigits(s[1..], drop);
      if s[0] !in drop {
        assert ([s[0]] + Without(s[1..], drop))[1..] == Without(s[1..], drop);
      } else {
        assert "" + Without(s[1..], drop) == Without(s[1..], drop);
      }
    }
  }

  lemma FewDigitsNoNik(s: string)
    requires Digits(s) < 16
    ensures ExtractNik(s) == ""
  {
    DroppingKeepsDigits(s, {' '});
    DroppingKeepsDigits(Without(s, {' '}), {'.'});
    var cleaned := Without(Without(s, {' '}), {'.'});
    FirstRunHasDigits(cleaned);
    if IsNik(cleaned) {
      DigitsOfDigits(cleaned);
      assert false;
    }
  }

  lemma SilentChangesNothing(d: Ktp, line: string)
    requires Silent(line)
    ensures ParseLine(d, line) == d
  {
    hide Trim, Upper, ExtractNik, FieldOf, Digits;
    if Digits(Trim(line)) < 16 {
      FewDigitsNoNik(Trim(line));
    }
  }

  // --- The labels that are not fields ---

  /** Most key words have one of five letters. */
  lemma NoneWithTheseLetters(s: string)
    requires 'T' !in s && 'M' !in s && 'C' !in s && 'V' !in s && 'S' !in s
    ensures !Contains(s, "NAMA") && !Contains(s, "TEMPAT") && !Contains(s, "JENIS KELAMIN") && !Contains(s, "ALAMAT")
    ensures !Contains(s, "RT") && !Contains(s, "KEC") && !Contains(s, "KOTA") && !Contains(s, "KABUPATEN")
    ensures !Contains(s, "PROVINSI") && !Contains(s, "AGAMA") && !Contains(s, "STATUS PERKAWINAN")
  {
    hide Contains;
    LacksChar(s, "NAMA", 'M');
    LacksChar(s, "TEMPAT", 'T');
    LacksChar(s, "JENIS KELAMIN", 'M');
    LacksChar(s, "ALAMAT", 'T');
    LacksChar(s, "RT", 'T');
    LacksChar(s, "KEC", 'C');
    LacksChar(s, "KOTA", 'T');
    LacksChar(s, "KABUPATEN", 'T');
    LacksChar(s, "PROVINSI", 'V');
    LacksChar(s, "AGAMA", 'M');
    LacksChar(s, "STATUS PERKAWINAN", 'S');
  }

  lemma BloodKey(s: string)
    requires s == "GOL. DARAH"
    ensures FieldOf(s) == NoField
  {
    hide Contains;
    NoneWithTheseLetters(s);
    LacksChar(s, "NIK", 'N');
    LacksChar(s, "JK", 'J');
    LacksChar(s, "KEL", 'K');
    LacksChar(s, "KAWIN", 'K');
  }

  lemma WorkKey(s: string)
    requires s == "PEKERJAAN"
    ensures FieldOf(s) == NoField
  {
    hide Contains;
    NoneWithTheseLetters(s);
    LacksChar(s, "NIK", 'I');
    LacksPair(s, "JK", 0);
    LacksChar(s, "KEL", 'L');
    LacksChar(s, "KAWIN", 'W');
  }

  lemma NationKey(s: string)
    requires s == "KEWARGANEGARAAN"
    ensures FieldOf(s) == NoField
  {
    hide Contains;
    NoneWithTheseLetters(s);
    LacksChar(s, "NIK", 'I');
    LacksChar(s, "JK", 'J');
    LacksChar(s, "KEL", 'L');
    LacksChar(s, "KAWIN", 'I');
  }

  lemma ValidityKey(s: string)
    requires s == "BERLAKU HINGGA"
    ensures FieldOf(s) == NoField
  {
    hide Contains;
    NoneWithTheseLetters(s);
    LacksPair(s, "NIK", 0);
    LacksChar(s, "JK", 'J');
    LacksPair(s, "KEL", 0);
    LacksChar(s, "KAWIN", 'W');
  }

  /** The blood group, the occupation, the citizenship and the validity printed on every card say nothing. */
  lemma OtherLabelsAreSilent(word: string, value: string)
    requires Trimmed(value)
    requires Upper(word) == "GOL. DARAH" || Upper(word) == "PEKERJAAN" || Upper(word) == "KEWARGANEGARAAN"
             || Upper(word) == "BERLAKU HINGGA"
    ensures Silent(Labelled(word, value))
  {
    hide FieldOf, Labelled, Trim, Upper, AroundFirst;
    var key := Upper(word);
    assert Trimmed(key) && key != "" && ':' !in key;
    if key == "GOL. DARAH" { BloodKey(key); }
    else if key == "PEKERJAAN" { WorkKey(key); }
    else if key == "KEWARGANEGARAAN" { NationKey(key); }
    else { ValidityKey(key); }
    UpperKeeps(word, key);
    LabelledCuts(word, value);
  }

  // --- Cards with noise ---

  /** The first lines are the second with silent ones put in anywhere. */
  predicate Mixed(lines: seq<string>, card: seq<string>)
    decreases |lines|
  {
    if lines == [] then card == []
    else
      || (Silent(lines[0]) && Mixed(lines[1..], card))
      || (card != [] && lines[0] == card[0] && Mixed(lines[1..], card[1..]))
  }

  lemma {:induction false} NoiseChangesNothing(d: Ktp, lines: seq<string>, card: seq<string>)
    requires Mixed(lines, card)
    ensures ParseLines(d, lines) == ParseLines(d, card)
    decreases |lines|
  {
    hide ParseLine, Silent;
    if lines != [] {
      if Silent(lines[0]) && Mixed(lines[1..], card) {
        SilentChangesNothing(d, lines[0]);
        NoiseChangesNothing(d, lines[1..], card);
      } else {
        NoiseChangesNothing(ParseLine(d, lines[0]), lines[1..], card[1..]);
      }
    }
  }

  lemma {:induction false} ParsesAppend(d: Ktp, a: seq<string>, b: seq<string>)
    ensures ParseLines(d, a + b) == ParseLines(ParseLines(d, a), b)
    decreases |a|
  {
    hide ParseLine;
    if a == [] {
      assert a + b == b;
    } else {
      assert (a + b)[1..] == a[1..] + b;
      ParsesAppend(ParseLine(d, a[0]), a[1..], b);
    }
  }

  /** The text of some lines parses as its lines do. */
  lemma ParseOfLines(lines: seq<string>)
    requires forall i :: 0 <= i < |lines| ==> NL !in lines[i]
    ensures Parse(Join(lines)) == InferGender(ParseLines(BLANK, lines))
  {
    hide ParseLine, Split, Join;
    SplitOfJoin(lines);
    ParsesAppend(BLANK, lines, [""]);
    var d := ParseLines(BLANK, lines);
    BlankLine(d);
    assert [""][1..] == [];
  }

  /** A card reads back also when silent lines stand anywhere between its own. */
  lemma NoisyCardReadsBack(d: Ktp, l: Labels, lines: seq<string>)
    requires Printable(d) && Spelled(l) && Mixed(lines, Printed(d, l))
    requires forall i :: 0 <= i < |lines| ==> NL !in lines[i]
    ensures Parse(Join(lines)) == d
  {
    hide ParseLines, Printed, Join, Spelled, Printable, Mixed, Split;
    forall k | 0 <= k < |Printed(d, l)| ensures NL !in Printed(d, l)[k] {
      PrintedLines(d, l, k);
    }
    CardReadsBack(d, l);
    ParseOfLines(Printed(d, l));
    ParseOfLines(lines);
    NoiseChangesNothing(BLANK, lines, Printed(d, l));
  }

  // --- Cards without the gender ---

  /** The parser does not look at the gender it has, and a line that is not the gender's leaves it alone. */
  lemma GenderApart(d: Ktp, line: string, g: string)
    requires var cut := AroundFirst(Trim(line), ':');
      cut.Some? ==> FieldOf(Trim(Upper(cut.value.head))) != Kelamin
    ensures ParseLine(d.(kelamin := g), line) == ParseLine(d, line).(kelamin := g)
  {
    hide Trim, Upper, ExtractNik, FieldOf, AroundFirst, NormalizeDate, Contains;
  }

  lemma {:induction false} RestApart(d: Ktp, card: Ktp, l: Labels, k: nat)
    requires Printable(card) && Spelled(l) && 6 <= k <= 2 + |KEYS|
    ensures ParseLines(d.(kelamin := ""), Printed(card, l)[k..]) ==
            ParseLines(d, Printed(card, l)[k..]).(kelamin := "")
    decreases 2 + |KEYS| - k
  {
    var lines := Printed(card, l)[k..];
    if k < 2 + |KEYS| {
      hide ParseLine, Printed;
      assert lines[0] == Printed(card, l)[k] && lines[1..] == Printed(card, l)[k + 1..];
      PrintedKey(card, l, k);
      GenderApart(d, lines[0], "");
      RestApart(ParseLine(d, lines[0]), card, l, k + 1);
    }
  }

  lemma PrintedKey(card: Ktp, l: Labels, k: nat)
    requires Printable(card) && Spelled(l) && 6 <= k < 2 + |KEYS|
    ensures var cut := AroundFirst(Trim(Printed(card, l)[k]), ':');
      cut.Some? && FieldOf(Trim(Upper(cut.value.head))) == FIELDS[k - 2] != Kelamin
  {
    hide FieldOf, Labelled, Trim, Upper, AroundFirst, Values;
    var i := k - 2;
    var key := KEYS[i];
    assert key in KEYS;
    KeyIsPlain(key);
    UpperKeeps(l.keys[i], key);
    ValuesAreTrimmed(card, l.separator, i);
    LabelledCuts(l.keys[i], Values(card, l.separator)[i]);
    FieldsOfKeys(i);
  }

  /** The lines before the gender, and those after it. */
  function WithoutGender(card: Ktp, l: Labels): (lines: seq<string>)
    requires Printable(card) && Spelled(l)
  {
    Printed(card, l)[..5] + Printed(card, l)[6..]
  }

  lemma {:induction false} ReadsTo(d: Ktp, l: Labels, k: nat)
    requires Printable(d) && Spelled(l) && k <= 2 + |KEYS|
    ensures ParseLines(BLANK, Printed(d, l)[..k]) == Partial(d, k)
  {
    hide ParseLine, Printed, Printable, Spelled, Partial;
    PartialEnds(d);
    if k > 0 {
      ReadsTo(d, l, k - 1);
      LineStep(d, l, k - 1);
      assert Printed(d, l)[..k] == Printed(d, l)[..k - 1] + [Printed(d, l)[k - 1]];
      ParsesAppend(BLANK, Printed(d, l)[..k - 1], [Printed(d, l)[k - 1]]);
      ParsesOne(Partial(d, k - 1), Printed(d, l)[k - 1]);
    }
  }

  lemma ParsesOne(d: Ktp, line: string)
    ensures ParseLines(d, [line]) == ParseLine(d, line)
  {
    assert [line][1..] == [];
  }

  lemma {:induction false} ReadsFrom(d: Ktp, l: Labels, k: nat)
    requires Printable(d) && Spelled(l) && k <= 2 + |KEYS|
    ensures ParseLines(Partial(d, k), Printed(d, l)[k..]) == d
  {
    hide ParseLine, Printed, Printable, Spelled, Partial;
    ReadsTo(d, l, k);
    ReadsTo(d, l, 2 + |KEYS|);
    PartialEnds(d);
    assert Printed(d, l) == Printed(d, l)[..k] + Printed(d, l)[k..];
    assert Printed(d, l)[..2 + |KEYS|] == Printed(d, l);
    ParsesAppend(BLANK, Printed(d, l)[..k], Printed(d, l)[k..]);
  }

  lemma GenderIsAllThatIsMissing(d: Ktp)
    ensures Partial(d, 5) == Partial(d, 6).(kelamin := "")
  {}

  /** A card whose gender line was not read, with silent lines anywhere, gives everything else as printed,
      and the gender its identity number tells. */
  lemma GenderFromTheNumber(d: Ktp, l: Labels, lines: seq<string>)
    requires Printable(d) && Spelled(l) && Mixed(lines, WithoutGender(d, l))
    requires forall i :: 0 <= i < |lines| ==> NL !in lines[i]
    ensures Parse(Join(lines)) == d.(kelamin := GenderFromNik(d.nik))
  {
    hide ParseLines, Printed, Join, Spelled, Mixed, Split, Partial, GenderFromNik;
    NoiseChangesNothing(BLANK, lines, WithoutGender(d, l));
    ParseOfLines(lines);
    ParsesAppend(BLANK, Printed(d, l)[..5], Printed(d, l)[6..]);
    ReadsTo(d, l, 5);
    GenderIsAllThatIsMissing(d);
    RestApart(Partial(d, 6), d, l, 6);
    ReadsFrom(d, l, 6);
  }

  // --- Cards whose identity number has lost its label ---

  /** The number stands alone on its line. */
  function WithBareNumber(card: Ktp, l: Labels): (lines: seq<string>)
    requires Printable(card) && Spelled(l)
  {
    Printed(card, l)[..2] + [card.nik] + Printed(card, l)[3..]
  }

  lemma BareNumberReads(d: Ktp, nik: string)
    requires IsNik(nik) && d.nik == ""
    ensures ParseLine(d, nik) == d.(nik := nik)
  {
    hide FieldOf, SetField, FirstRun;
    DigitsAreTrimmed(nik);
    TrimOfTrimmed(nik);
    NoColon(nik);
    DropNone(nik, {' '});
    DropNone(nik, {'.'});
    UpperOfUpper(nik);
    assert !("PROVINSI" <= nik) && !("KOTA" <= nik) && !("KABUPATEN" <= nik) by {
      assert IsDigit(nik[0]);
    }
  }

  /** Such a card reads back as well, with silent lines anywhere. */
  lemma BareNumberCardReadsBack(d: Ktp, l: Labels, lines: seq<string>)
    requires Printable(d) && Spelled(l) && Mixed(lines, WithBareNumber(d, l))
    requires forall i :: 0 <= i < |lines| ==> NL !in lines[i]
    ensures Parse(Join(lines)) == d
  {
    hide ParseLine, ParseLines, Printed, Join, Spelled, Mixed, Split;
    NoiseChangesNothing(BLANK, lines, WithBareNumber(d, l));
    ParseOfLines(lines);
    var head, tail := Printed(d, l)[..2], Printed(d, l)[3..];
    ParsesAppend(BLANK, head + [d.nik], tail);
    ParsesAppend(BLANK, head, [d.nik]);
    ReadsTo(d, l, 2);
    BareNumberReads(Partial(d, 2), d.nik);
    ParsesOne(Partial(d, 2), d.nik);
    assert Partial(d, 2).(nik := d.nik) == Partial(d, 3);
    ReadsFrom(d, l, 3);
    assert d.kelamin != "" by {
      assert "PEREMPUAN" != "" && "LAKI_LAKI" != "";
    }
  }
}
