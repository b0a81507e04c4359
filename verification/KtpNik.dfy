/** The national identity number (NIK): what its sixteen digits encode, and how they are checked
    against the card they were read from. `now` is the current year. */
module KtpNik {
  import opened Basics
  import opened Text

  // --- Calendar ---

  datatype Date = Date(year: int, month: int, day: int)

  predicate Leap(y: int) { y % 4 == 0 && (y % 100 != 0 || y % 400 == 0) }

  function DaysIn(y: int, m: int): int {
    if m == 2 then if Leap(y) then 29 else 28
    else if m == 4 || m == 6 || m == 9 || m == 11 then 30
    else 31
  }

  predicate Real(d: Date) { 1 <= d.month <= 12 && 1 <= d.day <= DaysIn(d.year, d.month) }

  /** The date library rolls a day past the end of its month over into the next. */
  function Rolled(y: int, m: int, d: int): (r: Date)
    requires 1 <= m <= 12 && 1 <= d <= 31
    ensures Real(r)
    ensures r.day == d && r.month == m <==> Real(Date(y, m, d))
  {
    var n := DaysIn(y, m);
    if d <= n then Date(y, m, d)
    else if m == 12 then Date(y + 1, 1, d - n)
    else Date(y, m + 1, d - n)
  }

  // --- The six birth digits ---

  /** Day, month and year of birth, two digits each; a woman's day is 40 higher. */
  function BirthDigits(d: Date, female: bool): (s: string)
    requires Real(d)
    ensures |s| == 6 && AllDigits(s)
  {
    TwoDigits(if female then d.day + 40 else d.day) + TwoDigits(d.month) + TwoDigits(d.year % 100)
  }

  predicate Recent(d: Date, now: nat) { now - 99 <= d.year <= now }

  /** BirthDateFromNIK. The century is the latest that does not put the birth in the future. */
  method ReadBirthDate(nik: string, now: nat) returns (date: Option<Date>)
    ensures date == BirthDate(nik, now)
  {
    if |nik| < 12 {
      return None;
    }
    var day, month, short := Atoi(nik[6..8]), Atoi(nik[8..10]), Atoi(nik[10..12]);
    if day.None? || month.None? || short.None? {
      return None;
    }
    var dd, mm := day.value, month.value;
    if dd > 40 {
      dd := dd - 40;
    }
    if dd < 1 || dd > 31 || mm < 1 || mm > 12 {
      return None;
    }
    var year := now / 100 * 100 + short.value;
    if year > now {
      year := year - 100;
    }
    var rolled := Rolled(year, mm, dd);
    if rolled.day != dd || rolled.month != mm {
      return None;
    }
    return Some(rolled);
  }

  function Year(short: int, now: nat): int {
    var year := now / 100 * 100 + short;
    if year > now then year - 100 else year
  }

  function BirthDate(nik: string, now: nat): Option<Date> {
    if |nik| < 12 then None
    else
      var day, month, short := Atoi(nik[6..8]), Atoi(nik[8..10]), Atoi(nik[10..12]);
      if day.None? || month.None? || short.None? then None
      else
        var d := Date(Year(short.value, now), month.value, if day.value > 40 then day.value - 40 else day.value);
        if Real(d) then Some(d) else None
  }

  lemma YearExactly(short: nat, now: nat, y: int)
    requires short < 100
    ensures Year(short, now) == y <==> now - 99 <= y <= now && y % 100 == short
  {
    var base := now / 100 * 100;
    assert base % 100 == 0 && base <= now < base + 100;
    var r := Year(short, now);
    assert r % 100 == short && now - 99 <= r <= now;
    if now - 99 <= y <= now && y % 100 == short {
      assert (y - r) % 100 == 0;
    }
  }

  /** The decoder inverts the encoding of every real date of the last hundred years, and
      accepts nothing else: impossible days, and only they, are rejected. */
  lemma BirthDateExactly(nik: string, now: nat, d: Date)
    requires |nik| >= 12 && AllDigits(nik)
    ensures BirthDate(nik, now) == Some(d) <==>
            Real(d) && Recent(d, now) && (nik[6..12] == BirthDigits(d, false) || nik[6..12] == BirthDigits(d, true))
  {
    var a, b, c := nik[6..8], nik[8..10], nik[10..12];
    TwoDigitsValue(a);
    TwoDigitsValue(b);
    TwoDigitsValue(c);
    YearExactly(Value(c), now, d.year);
    assert nik[6..12] == a + b + c;
    if Real(d) {
      forall female: bool
        ensures nik[6..12] == BirthDigits(d, female) <==>
                Value(a) == (if female then d.day + 40 else d.day) && Value(b) == d.month && Value(c) == d.year % 100
      {
        SixDigits(a, b, c, if female then d.day + 40 else d.day, d.month, d.year % 100);
      }
    }
  }

  lemma SixDigits(a: string, b: string, c: string, x: nat, y: nat, z: nat)
    requires |a| == |b| == |c| == 2 && AllDigits(a) && AllDigits(b) && AllDigits(c)
    requires x < 100 && y < 100 && z < 100
    ensures a + b + c == TwoDigits(x) + TwoDigits(y) + TwoDigits(z) <==> Value(a) == x && Value(b) == y && Value(c) == z
  {
    TwoDigitsValue(a);
    TwoDigitsValue(b);
    TwoDigitsValue(c);
    ValueOfTwoDigits(x);
    ValueOfTwoDigits(y);
    ValueOfTwoDigits(z);
    var s, t := a + b + c, TwoDigits(x) + TwoDigits(y) + TwoDigits(z);
    assert s[..2] == a && s[2..4] == b && s[4..] == c;
    assert t[..2] == TwoDigits(x) && t[2..4] == TwoDigits(y) && t[4..] == TwoDigits(z);
  }

  // --- Structure ---

  predicate IsNik(s: string) { |s| == 16 && AllDigits(s) }

  const PROVINCES: map<string, string> := map[
    "11" := "ACEH", "12" := "SUMATERA UTARA", "13" := "SUMATERA BARAT", "14" := "RIAU", "15" := "JAMBI",
    "16" := "SUMATERA SELATAN", "17" := "BENGKULU", "18" := "LAMPUNG", "19" := "KEPULAUAN BANGKA BELITUNG",
    "21" := "KEPULAUAN RIAU", "31" := "DKI JAKARTA", "32" := "JAWA BARAT", "33" := "JAWA TENGAH",
    "34" := "DI YOGYAKARTA", "35" := "JAWA TIMUR", "36" := "BANTEN", "51" := "BALI",
    "52" := "NUSA TENGGARA BARAT", "53" := "NUSA TENGGARA TIMUR", "61" := "KALIMANTAN BARAT",
    "62" := "KALIMANTAN TENGAH", "63" := "KALIMANTAN SELATAN", "64" := "KALIMANTAN TIMUR",
    "65" := "KALIMANTAN UTARA", "71" := "SULAWESI UTARA", "72" := "SULAWESI TENGAH", "73" := "SULAWESI SELATAN",
    "74" := "SULAWESI TENGGARA", "75" := "GORONTALO", "76" := "SULAWESI BARAT", "81" := "MALUKU",
    "82" := "MALUKU UTARA", "91" := "PAPUA", "92" := "PAPUA BARAT", "93" := "PAPUA SELATAN",
    "94" := "PAPUA TENGAH", "95" := "PAPUA PEGUNUNGAN", "96" := "PAPUA BARAT DAYA"]

  /** ValidateNIK: the day and the month are only bounded, not matched to a calendar. */
  predicate ValidNik(nik: string) {
    && IsNik(nik) && 11 <= Value(nik[..2]) <= 94
    && (1 <= Value(nik[6..8]) <= 31 || 41 <= Value(nik[6..8]) <= 71) && 1 <= Value(nik[8..10]) <= 12
  }

  method ValidateNik(nik: string) returns (ok: bool)
    ensures ok <==> ValidNik(nik)
  {
    if |nik| != 16 || !AllDigits(nik) {
      return false;
    }
    TwoDigitsValue(nik[..2]);
    TwoDigitsValue(nik[6..8]);
    TwoDigitsValue(nik[8..10]);
    var provinceCode := Atoi(nik[..2]).value;
    if provinceCode < 11 || provinceCode > 94 {
      return false;
    }
    var dd := Atoi(nik[6..8]).value;
    if dd == 0 || (dd > 31 && dd < 41) || dd > 71 {
      return false;
    }
    var mm := Atoi(nik[8..10]).value;
    if mm < 1 || mm > 12 {
      return false;
    }
    return true;
  }

  predicate ValidStructure(nik: string, now: nat) {
    && ValidNik(nik) && nik[..2] in PROVINCES && nik[12..] != "0000" && BirthDate(nik, now).Some?
  }

  /** The calendar check subsumes the bounds of ValidateNIK: a number is well structured exactly
      when its province is listed and below 95, its serial is not zero, and its birth digits are
      those of some real date of the last hundred years. */
  lemma StructureExactly(nik: string, now: nat)
    requires IsNik(nik)
    ensures ValidStructure(nik, now) <==>
            && nik[..2] in PROVINCES && 11 <= Value(nik[..2]) < 95 && nik[12..] != "0000"
            && exists d :: Real(d) && Recent(d, now)
                           && (nik[6..12] == BirthDigits(d, false) || nik[6..12] == BirthDigits(d, true))
  {
    TwoDigitsValue(nik[6..8]);
    TwoDigitsValue(nik[8..10]);
    TwoDigitsValue(nik[10..12]);
    if BirthDate(nik, now).Some? {
      BirthDateExactly(nik, now, BirthDate(nik, now).value);
    }
    if d :| Real(d) && Recent(d, now) && (nik[6..12] == BirthDigits(d, false) || nik[6..12] == BirthDigits(d, true)) {
      BirthDateExactly(nik, now, d);
    }
  }

  // --- Against the card ---

  function GenderFromNik(nik: string): string {
    if |nik| < 8 then ""
    else
      var day := Atoi(nik[6..8]);
      if day.None? then "" else if day.value > 40 then "PEREMPUAN" else "LAKI_LAKI"
  }

  function Without(s: string, drop: set<char>): string {
    if s == "" then "" else (if s[0] in drop then "" else [s[0]]) + Without(s[1..], drop)
  }

  function GenderWord(s: string): string {
    Stem(Without(Upper(Trim(s)), SEPARATORS))
  }

  predicate SameGender(a: string, b: string) { GenderWord(a) == GenderWord(b) }

  /** Year-month-day with dashes, and a real date. */
  function ParseIso(s: string): Option<Date> {
    if |s| == 10 && s[4] == '-' && s[7] == '-' && AllDigits(s[..4]) && AllDigits(s[5..7]) && AllDigits(s[8..]) then
      var d := Date(Value(s[..4]), Value(s[5..7]), Value(s[8..]));
      if Real(d) then Some(d) else None
    else None
  }

  /** The fields of the card that the check reads; empty means not read off the card. */
  datatype Card = Card(nik: string, birth: string, gender: string, province: string)

  predicate ProvinceAgrees(nik: string, province: string)
    requires |nik| >= 2
  {
    var expected := if nik[..2] in PROVINCES then PROVINCES[nik[..2]] else "";
    var got := Upper(Trim(province));
    expected == "" || Contains(expected, got) || Contains(got, expected)
  }

  predicate Consistent(c: Card, now: nat) {
    && ValidStructure(c.nik, now)
    && (c.birth != "" ==> ParseIso(c.birth).Some? && BirthDate(c.nik, now) == ParseIso(c.birth))
    && (c.gender != "" ==> SameGender(c.gender, GenderFromNik(c.nik)))
    && (c.province != "" ==> ProvinceAgrees(c.nik, c.province))
  }

  const SEPARATORS := {'-', '_', ' '}

  lemma UpperOfUpper(s: string)
    requires forall i :: 0 <= i < |s| ==> !('a' <= s[i] <= 'z')
    ensures Upper(s) == s
  {}

  function Stem(w: string): string {
    if "LAKI" <= w then "LAKILAKI"
    else if "PEREMPUAN" <= w || "WANITA" <= w then "PEREMPUAN"
    else w
  }

  lemma MaleWord(s: string, laki: string)
    requires s == "LAKI_LAKI" && laki == "LAKI"
    ensures GenderWord(s) == "LAKILAKI"
  {
    hide Without, Trim, Upper;
    TrimOfTrimmed(s);
    UpperOfUpper(s);
    var rest := "_LAKI";
    assert s == laki + rest;
    DropNone(laki, SEPARATORS);
    WithoutSplits(laki, rest, SEPARATORS);
  }

  lemma FemaleWord(s: string)
    requires s == "PEREMPUAN"
    ensures GenderWord(s) == s
  {
    hide Without, Trim, Upper;
    TrimOfTrimmed(s);
    UpperOfUpper(s);
    DropNone(s, SEPARATORS);
    assert s[0] != "LAKI"[0];
  }

  lemma GenderWordTells(s: string)
    requires s == "LAKI_LAKI" || s == "PEREMPUAN"
    ensures GenderWord(s) == "PEREMPUAN" <==> s == "PEREMPUAN"
  {
    hide GenderWord;
    assert "LAKILAKI"[0] != "PEREMPUAN"[0] && "LAKI_LAKI"[0] != "PEREMPUAN"[0];
    if s == "LAKI_LAKI" {
      MaleWord(s, "LAKI");
    } else {
      FemaleWord(s);
    }
  }

  lemma {:induction false} DropNone(s: string, drop: set<char>)
    requires forall i :: 0 <= i < |s| ==> s[i] !in drop
    ensures Without(s, drop) == s
    decreases |s|
  {
    if s != "" {
      DropNone(s[1..], drop);
    }
  }

  lemma {:induction false} WithoutSplits(a: string, b: string, drop: set<char>)
    ensures Without(a + b, drop) == Without(a, drop) + Without(b, drop)
    decreases |a|
  {
    if a == "" {
      assert a + b == b;
    } else {
      assert (a + b)[1..] == a[1..] + b;
      WithoutSplits(a[1..], b, drop);
    }
  }

  /** The sex of an accepted number is the one of its birth digits. */
  lemma BirthDigitsOf(nik: string, now: nat)
    requires ValidStructure(nik, now)
    ensures var d := BirthDate(nik, now).value;
      Real(d) && nik[6..12] == BirthDigits(d, GenderFromNik(nik) == "PEREMPUAN")
      && (GenderFromNik(nik) == "PEREMPUAN" || GenderFromNik(nik) == "LAKI_LAKI")
  {
    var d := BirthDate(nik, now).value;
    BirthDateExactly(nik, now, d);
    TwoDigitsValue(nik[6..8]);
    var female := nik[6..12] == BirthDigits(d, true);
    ValueOfTwoDigits(if female then d.day + 40 else d.day);
    assert nik[6..12][..2] == nik[6..8];
    assert BirthDigits(d, female)[..2] == TwoDigits(if female then d.day + 40 else d.day);
    assert "PEREMPUAN"[0] != "LAKI_LAKI"[0];
  }

  /** A card that states the date and the sex fixes all six birth digits: two numbers accepted
      against it, even in different years, agree on them. */
  lemma CardFixesTheBirthDigits(a: Card, b: Card, now1: nat, now2: nat)
    requires a.birth == b.birth != "" && a.gender == b.gender != ""
    requires Consistent(a, now1) && Consistent(b, now2)
    ensures a.nik[6..12] == b.nik[6..12]
  {
    hide GenderWord, ParseIso, BirthDate, BirthDigits, GenderFromNik, ProvinceAgrees;
    BirthDigitsOf(a.nik, now1);
    BirthDigitsOf(b.nik, now2);
    GenderWordTells(GenderFromNik(a.nik));
    GenderWordTells(GenderFromNik(b.nik));
  }

  /** So one misread digit among the six is always caught. */
  lemma MisreadIsCaught(c: Card, k: nat, wrong: char, now: nat)
    requires Consistent(c, now) && c.birth != "" && c.gender != ""
    requires 6 <= k < 12 && wrong != c.nik[k]
    ensures !Consistent(c.(nik := c.nik[k := wrong]), now)
  {
    assert |c.nik| == 16;
    hide Consistent;
    var m := c.(nik := c.nik[k := wrong]);
    if Consistent(m, now) {
      CardFixesTheBirthDigits(c, m, now, now);
      DiffersInside(c.nik, m.nik, k);
    }
  }

  lemma DiffersInside(a: string, b: string, k: nat)
    requires |a| == |b| && 6 <= k < 12 <= |a| && a[k] != b[k]
    ensures a[6..12] != b[6..12]
  {
    assert a[6..12][k - 6] == a[k] && b[6..12][k - 6] == b[k];
  }
}
