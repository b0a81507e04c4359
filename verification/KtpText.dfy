/** Reading the text of an identity card (e-KTP): a line parser, the card layout it is meant
    for, and the test that a text is a card at all. ASCII text. */
module KtpText {
  import opened Basics
  import opened Text
  import opened KtpNik

  datatype Ktp = Ktp(nik: string, nama: string, tempat: string, tanggal: string, kelamin: string, alamat: string,
                     rtrw: string, kelurahan: string, kecamatan: string, kota: string, provinsi: string,
                     agama: string, status: string)

  const BLANK := Ktp("", "", "", "", "", "", "", "", "", "", "", "", "")

  // --- The parser ---

  function FirstRun(s: string): string {
    if |s| < 16 then "" else if AllDigits(s[..16]) then s[..16] else FirstRun(s[1..])
  }

  function ExtractNik(s: string): string {
    var cleaned := Without(Without(s, {' '}), {'.'});
    if IsNik(cleaned) then cleaned else FirstRun(cleaned)
  }

  /** Day first with one of three separators becomes year first; anything else is kept. */
  function NormalizeDate(raw: string): string {
    var s := Trim(raw);
    if |s| == 10 && s[4] == '-' then s
    else if |s| == 10 && (s[2] == '-' || s[2] == '/' || s[2] == '.') && s[2] == s[5]
    then s[6..10] + "-" + s[3..5] + "-" + s[0..2]
    else s
  }

  /** A line without a colon: a header, or a stray number. */
  function ParseHeader(d: Ktp, line: string): Ktp {
    var upper := Upper(line);
    if d.provinsi == "" && "PROVINSI" <= upper then d.(provinsi := Trim(line[8..]))
    else if d.kota == "" && "KOTA" <= upper then d.(kota := Trim(line[4..]))
    else if d.kota == "" && "KABUPATEN" <= upper then d.(kota := Trim(line[9..]))
    else if d.nik == "" && ExtractNik(line) != "" then d.(nik := ExtractNik(line))
    else d
  }

  datatype Field = Nik | Nama | TempatLahir | Kelamin | Alamat | RtRw | Kelurahan | Kecamatan | Kota | Provinsi
                 | Agama | Status | NoField

  /** The first key word that occurs decides. */
  function FieldOf(key: string): Field {
    if Contains(key, "NIK") then Nik
    else if Contains(key, "NAMA") then Nama
    else if Contains(key, "TEMPAT") && Contains(key, "LAHIR") then TempatLahir
    else if Contains(key, "JENIS KELAMIN") || Contains(key, "JK") then Kelamin
    else if Contains(key, "ALAMAT") then Alamat
    else if Contains(key, "RT") && Contains(key, "RW") then RtRw
    else if Contains(key, "KEL") && !Contains(key, "KEC") then Kelurahan
    else if Contains(key, "KEC") then Kecamatan
    else if Contains(key, "KOTA") || Contains(key, "KABUPATEN") then Kota
    else if Contains(key, "PROVINSI") then Provinsi
    else if Contains(key, "AGAMA") then Agama
    else if Contains(key, "STATUS PERKAWINAN") || Contains(key, "KAWIN") then Status
    else NoField
  }

  function SetField(d: Ktp, f: Field, val: string, upper: string): Ktp {
    match f
    case Nik => if ExtractNik(val) != "" then d.(nik := ExtractNik(val)) else d
    case Nama => d.(nama := val)
    case TempatLahir =>
      var cut := AroundFirst(val, ',');
      if cut.None? then d.(tempat := Trim(val))
      else d.(tempat := Trim(cut.value.head), tanggal := NormalizeDate(Trim(cut.value.tail)))
    case Kelamin => d.(kelamin := if Contains(upper, "PEREMPUAN") then "PEREMPUAN" else "LAKI_LAKI")
    case Alamat => d.(alamat := val)
    case RtRw => d.(rtrw := val)
    case Kelurahan => d.(kelurahan := val)
    case Kecamatan => d.(kecamatan := val)
    case Kota => d.(kota := val)
    case Provinsi => d.(provinsi := val)
    case Agama => d.(agama := val)
    case Status => d.(status := val)
    case NoField => d
  }

  function ParseLine(d: Ktp, raw: string): Ktp {
    var line := Trim(raw);
    if line == "" then d
    else
      var cut := AroundFirst(line, ':');
      if cut.None? then ParseHeader(d, line)
      else SetField(d, FieldOf(Trim(Upper(cut.value.head))), Trim(cut.value.tail), Upper(line))
  }

  function ParseLines(d: Ktp, lines: seq<string>): Ktp
    decreases |lines|
  {
    if lines == [] then d else ParseLines(ParseLine(d, lines[0]), lines[1..])
  }

  /** Every piece between newlines, also an empty last one. */
  function Split(s: string): (lines: seq<string>)
    ensures lines != []
    decreases |s|
  {
    var i := First(s, NL);
    if i == |s| then [s] else [s[..i]] + Split(s[i + 1..])
  }

  function InferGender(d: Ktp): Ktp {
    if d.kelamin == "" && d.nik != "" then d.(kelamin := GenderFromNik(d.nik)) else d
  }

  function Parse(raw: string): Ktp {
    InferGender(ParseLines(BLANK, Split(raw)))
  }

  /** The source's loop over the lines. */
  method ParseKtp(raw: string) returns (d: Ktp)
    ensures d == Parse(raw)
  {
    hide ParseLine, Split;
    var lines := Split(raw);
    d := BLANK;
    for i := 0 to |lines|
      invariant ParseLines(d, lines[i..]) == ParseLines(BLANK, lines)
    {
      assert lines[i..][1..] == lines[i + 1..];
      d := ParseLine(d, lines[i]);
    }
    if d.kelamin == "" && d.nik != "" {
      d := d.(kelamin := GenderFromNik(d.nik));
    }
  }

  // --- The layout ---

  const KEYS := ["NIK", "NAMA", "TEMPAT/TGL LAHIR", "JENIS KELAMIN", "ALAMAT", "RT/RW", "KEL/DESA", "KECAMATAN",
      "AGAMA",
                 "STATUS PERKAWINAN"]

  /** The printed words, in whatever capitals: the headers of the province and of the city or regency,
      and the ten labels; and what separates the parts of a date. */
  datatype Labels = Labels(provinsi: string, kota: string, keys: seq<string>, separator: char)

  predicate IsSeparator(c: char) { c == '-' || c == '/' || c == '.' }

  predicate Spelled(l: Labels) {
    && Upper(l.provinsi) == "PROVINSI" && (Upper(l.kota) == "KOTA" || Upper(l.kota) == "KABUPATEN")
    && IsSeparator(l.separator) && |l.keys| == |KEYS|
    && forall i :: 0 <= i < |KEYS| ==> Upper(l.keys[i]) == KEYS[i]
  }

  predicate Plain(s: string) { Trimmed(s) && NL !in s }

  predicate IsoShape(s: string) {
    |s| == 10 && s[4] == '-' && s[7] == '-' && AllDigits(s[..4]) && AllDigits(s[5..7]) && AllDigits(s[8..])
  }

  /** What a card can state: trimmed one-line values, no comma in the birthplace, no colon in
      the header values. */
  predicate Printable(d: Ktp) {
    && IsNik(d.nik) && IsoShape(d.tanggal) && (d.kelamin == "PEREMPUAN" || d.kelamin == "LAKI_LAKI")
    && Plain(d.nama) && Plain(d.tempat) && Plain(d.alamat) && Plain(d.rtrw) && Plain(d.kelurahan) && Plain(d.kecamatan)
    && Plain(d.kota) && Plain(d.provinsi) && Plain(d.agama) && Plain(d.status)
    && ',' !in d.tempat && ':' !in d.kota && ':' !in d.provinsi
  }

  function DayFirst(iso: string, sep: char): string
    requires |iso| == 10
  {
    iso[8..] + [sep] + iso[5..7] + [sep] + iso[..4]
  }

  function GenderPrinted(g: string): string {
    if g == "PEREMPUAN" then g else "LAKI-LAKI"
  }

  function Header(word: string, value: string): string { word + " " + value }

  function Labelled(word: string, value: string): string { word + " : " + value }

  function Values(d: Ktp, sep: char): (v: seq<string>)
    requires Printable(d)
    ensures |v| == |KEYS|
  {
    [d.nik, d.nama, d.tempat + ", " + DayFirst(d.tanggal, sep), GenderPrinted(d.kelamin), d.alamat, d.rtrw, d.kelurahan,
     d.kecamatan, d.agama, d.status]
  }

  function Printed(d: Ktp, l: Labels): (lines: seq<string>)
    requires Printable(d) && Spelled(l)
    ensures |lines| == 2 + |KEYS|
  {
    [Header(l.provinsi, d.provinsi), Header(l.kota, d.kota)]
    + seq(|KEYS|, i requires 0 <= i < |KEYS| => Labelled(l.keys[i], Values(d, l.separator)[i]))
  }

  function Print(d: Ktp, l: Labels): string
    requires Printable(d) && Spelled(l)
  {
    Join(Printed(d, l))
  }

  // --- Occurrence of key words ---

  lemma {:induction false} LacksChar(s: string, t: string, c: char)
    requires c in t && c !in s
    ensures !Contains(s, t)
    decreases |s|
  {
    if s != "" {
      LacksChar(s[1..], t, c);
    }
  }

  lemma {:induction false} LacksPair(s: string, t: string, k: nat)
    requires k + 1 < |t| && forall i :: 0 <= i < |s| - 1 ==> !(s[i] == t[k] && s[i + 1] == t[k + 1])
    ensures !Contains(s, t)
    decreases |s|
  {
    var a, b := t[k], t[k + 1];
    if s != "" {
      forall i | 0 <= i < |s[1..]| - 1 ensures !(s[1..][i] == t[k] && s[1..][i + 1] == t[k + 1]) {
        assert s[1..][i] == s[i + 1] && s[1..][i + 1] == s[i + 2];
      }
      LacksPair(s[1..], t, k);
    }
  }

  lemma Occurs(s: string, p: string, t: string, q: string)
    requires s == p + t + q
    ensures Contains(s, t)
  {
    ContainsAt(p, t, q);
  }

  lemma NikKey(s: string)
    requires s == "NIK"
    ensures FieldOf(s) == Nik
  {
    Occurs(s, "", s, "");
  }

  lemma NamaKey(s: string)
    requires s == "NAMA"
    ensures FieldOf(s) == Nama
  {
    hide Contains;
    LacksChar(s, "NIK", 'I');
    Occurs(s, "", s, "");
  }

  lemma TempatKey(s: string)
    requires s == "TEMPAT/TGL LAHIR"
    ensures FieldOf(s) == TempatLahir
  {
    hide Contains;
    LacksChar(s, "NIK", 'N');
    LacksChar(s, "NAMA", 'N');
    Occurs(s, "", "TEMPAT", "/TGL LAHIR");
    Occurs(s, "TEMPAT/TGL ", "LAHIR", "");
  }

  lemma KelaminKey(s: string)
    requires s == "JENIS KELAMIN"
    ensures FieldOf(s) == Kelamin
  {
    hide Contains;
    LacksPair(s, "NIK", 1);
    LacksPair(s, "NAMA", 0);
    LacksChar(s, "TEMPAT", 'T');
    Occurs(s, "", s, "");
  }

  lemma AlamatKey(s: string)
    requires s == "ALAMAT"
    ensures FieldOf(s) == Alamat
  {
    hide Contains;
    LacksChar(s, "NIK", 'N');
    LacksChar(s, "NAMA", 'N');
    LacksChar(s, "TEMPAT", 'E');
    LacksChar(s, "JENIS KELAMIN", 'J');
    LacksChar(s, "JK", 'J');
    Occurs(s, "", s, "");
  }

  lemma RtRwKey(s: string)
    requires s == "RT/RW"
    ensures FieldOf(s) == RtRw
  {
    hide Contains;
    LacksChar(s, "NIK", 'N');
    LacksChar(s, "NAMA", 'N');
    LacksChar(s, "TEMPAT", 'E');
    LacksChar(s, "JENIS KELAMIN", 'J');
    LacksChar(s, "JK", 'J');
    LacksChar(s, "ALAMAT", 'A');
    Occurs(s, "", "RT", "/RW");
    Occurs(s, "RT/", "RW", "");
  }

  lemma KelurahanKey(s: string)
    requires s == "KEL/DESA"
    ensures FieldOf(s) == Kelurahan
  {
    hide Contains;
    LacksChar(s, "NIK", 'N');
    LacksChar(s, "NAMA", 'N');
    LacksChar(s, "TEMPAT", 'T');
    LacksChar(s, "JENIS KELAMIN", 'J');
    LacksChar(s, "JK", 'J');
    LacksChar(s, "ALAMAT", 'M');
    LacksChar(s, "RT", 'R');
    LacksChar(s, "KEC", 'C');
    Occurs(s, "", "KEL", "/DESA");
  }

  lemma KecamatanKey(s: string)
    requires s == "KECAMATAN"
    ensures FieldOf(s) == Kecamatan
  {
    hide Contains;
    LacksChar(s, "NIK", 'I');
    LacksPair(s, "NAMA", 0);
    LacksChar(s, "TEMPAT", 'P');
    LacksChar(s, "JENIS KELAMIN", 'J');
    LacksChar(s, "JK", 'J');
    LacksChar(s, "ALAMAT", 'L');
    LacksChar(s, "RT", 'R');
    LacksChar(s, "KEL", 'L');
    Occurs(s, "", "KEC", "AMATAN");
  }

  lemma AgamaKey(s: string)
    requires s == "AGAMA"
    ensures FieldOf(s) == Agama
  {
    hide Contains;
    LacksChar(s, "NIK", 'N');
    LacksChar(s, "NAMA", 'N');
    LacksChar(s, "TEMPAT", 'T');
    LacksChar(s, "JENIS KELAMIN", 'J');
    LacksChar(s, "JK", 'J');
    LacksChar(s, "ALAMAT", 'L');
    LacksChar(s, "RT", 'R');
    LacksChar(s, "KEL", 'K');
    LacksChar(s, "KEC", 'K');
    LacksChar(s, "KOTA", 'K');
    LacksChar(s, "KABUPATEN", 'K');
    LacksChar(s, "PROVINSI", 'P');
    Occurs(s, "", s, "");
  }

  lemma StatusPairs(s: string)
    requires s == "STATUS PERKAWINAN"
    ensures !Contains(s, "NIK") && !Contains(s, "RT")
  {
    hide Contains;
    LacksPair(s, "NIK", 1);
    LacksPair(s, "RT", 0);
  }

  lemma StatusKey(s: string)
    requires s == "STATUS PERKAWINAN"
    ensures FieldOf(s) == Status
  {
    hide Contains;
    StatusPairs(s);
    LacksChar(s, "NAMA", 'M');
    LacksChar(s, "TEMPAT", 'M');
    LacksChar(s, "JENIS KELAMIN", 'J');
    LacksChar(s, "JK", 'J');
    LacksChar(s, "ALAMAT", 'L');
    LacksChar(s, "KEL", 'L');
    LacksChar(s, "KEC", 'C');
    LacksChar(s, "KOTA", 'O');
    LacksChar(s, "KABUPATEN", 'B');
    LacksChar(s, "PROVINSI", 'O');
    LacksChar(s, "AGAMA", 'G');
    Occurs(s, "", s, "");
  }

  // --- One printed line ---

  lemma PadLeft(c: char, v: string)
    requires Trimmed(v) && IsSpace(c)
    ensures Trim([c] + v) == v
  {
    hide LeadingSpaces, TextEnd;
    var s := [c] + v;
    var n := LeadingSpaces(s);
    assert forall i :: 0 <= i < |v| ==> s[i + 1] == v[i];
    assert s[1..] == v;
    assert n == 1;
  }

  lemma PadRight(v: string, c: char)
    requires Trimmed(v) && IsSpace(c)
    ensures Trim(v + [c]) == v
  {
    hide LeadingSpaces, TextEnd;
    var s := v + [c];
    var t := s[LeadingSpaces(s)..];
    assert v != "" ==> s[0] == v[0] && s[|v| - 1] == v[|v| - 1];
    assert s[|v|] == c;
    assert t[..TextEnd(t)] == v;
  }

  lemma UpperKeepsChars(word: string, key: string)
    requires Upper(word) == key && Trimmed(key) && key != "" && ':' !in key
    ensures Trimmed(word) && word != "" && ':' !in word
  {
    forall i | 0 <= i < |word| ensures word[i] != ':' && (IsSpace(word[i]) ==> IsSpace(key[i])) {
      assert key[i] == UpperChar(word[i]);
      assert key[i] in key;
    }
  }

  lemma UpperKeeps(word: string, key: string)
    requires Upper(word) == key && Trimmed(key) && key != "" && ':' !in key
    ensures Trimmed(word) && word != "" && ':' !in word && Trim(Upper(word + " ")) == key
  {
    hide Upper, Trim, Trimmed;
    UpperKeepsChars(word, key);
    var space := " ";
    UpperSplits(word, space);
    UpperOfUpper(space);
    PadRight(key, ' ');
  }

  lemma LabelledCuts(word: string, value: string)
    requires Trimmed(word) && word != "" && ':' !in word && Trimmed(value)
    ensures var line := Trim(Labelled(word, value));
      && line == (if value == "" then word + " :" else Labelled(word, value))
      && AroundFirst(line, ':') == Some(Cut(word + " ", if value == "" then "" else " " + value))
  {
    var tail := if value == "" then "" else " " + value;
    var line := word + " " + [':'] + tail;
    if value == "" {
      assert line == word + " :" && Labelled(word, value) == line + " ";
      PadRight(line, ' ');
    } else {
      assert line == Labelled(word, value);
      TrimOfTrimmed(line);
    }
    AroundFirstIs(word + " ", ':', tail);
  }

  /** A printed label sends its value to the field of its key. */
  lemma ParsesLabelled(d: Ktp, word: string, value: string, key: string)
    requires Upper(word) == key && Trimmed(key) && key != "" && ':' !in key && Trimmed(value)
    ensures ParseLine(d, Labelled(word, value)) ==
            SetField(d, FieldOf(key), value, Upper(Trim(Labelled(word, value))))
  {
    hide SetField, FieldOf, Upper, Trim, ParseHeader, AroundFirst;
    UpperKeeps(word, key);
    LabelledCuts(word, value);
    PadLeft(' ', value);
    assert value == "" ==> Trim("") == "" by { TrimOfTrimmed(""); }
  }

  predicate IsHeader(key: string) { key == "PROVINSI" || key == "KOTA" || key == "KABUPATEN" }

  lemma ParsesHeader(d: Ktp, word: string, value: string, key: string)
    requires Upper(word) == key && IsHeader(key) && Plain(value) && ':' !in value
    requires if key == "PROVINSI" then d.provinsi == "" else d.kota == ""
    ensures ParseLine(d, Header(word, value)) ==
            if key == "PROVINSI" then d.(provinsi := value) else d.(kota := value)
  {
    hide Trim, Upper, ParseHeader, AroundFirst, Trimmed, Header;
    HeaderKey(key);
    UpperKeeps(word, key);
    var line := if value == "" then word else word + " " + value;
    HeaderTrims(word, value);
    NoColon(line);
    HeaderParses(d, line, word, value, key);
  }

  lemma HeaderKey(key: string)
    requires IsHeader(key)
    ensures Trimmed(key) && key != "" && ':' !in key
  {}

  lemma HeaderTrims(word: string, value: string)
    requires Trimmed(word) && word != "" && Trimmed(value)
    ensures Trim(Header(word, value)) == if value == "" then word else word + " " + value
  {
    if value == "" {
      assert Header(word, value) == word + " ";
      PadRight(word, ' ');
    } else {
      TrimOfTrimmed(word + " " + value);
    }
  }

  lemma NoColon(line: string)
    requires ':' !in line
    ensures AroundFirst(line, ':').None?
  {}

  lemma HeaderParses(d: Ktp, line: string, word: string, value: string, key: string)
    requires Upper(word) == key && IsHeader(key) && Trimmed(value)
    requires line == if value == "" then word else word + " " + value
    requires if key == "PROVINSI" then d.provinsi == "" else d.kota == ""
    ensures ParseHeader(d, line) == if key == "PROVINSI" then d.(provinsi := value) else d.(kota := value)
  {
    hide Trim, ParseHeader, Upper, Trimmed;
    var rest := if value == "" then "" else " " + value;
    assert line == word + rest;
    UpperSplits(word, rest);
    assert line[|word|..] == rest;
    assert Trim(rest) == value by {
      PadLeft(' ', value);
      if value == "" {
        TrimOfTrimmed(rest);
      }
    }
    HeaderBranch(d, line, key);
  }

  lemma HeaderBranch(d: Ktp, line: string, key: string)
    requires IsHeader(key) && key <= Upper(line)
    requires if key == "PROVINSI" then d.provinsi == "" else d.kota == ""
    ensures var value := Trim(line[|key|..]);
      ParseHeader(d, line) == if key == "PROVINSI" then d.(provinsi := value) else d.(kota := value)
  {
    hide Trim, ExtractNik, Upper;
    OnePrefix(key, Upper(line));
    assert |"PROVINSI"| == 8 && |"KOTA"| == 4 && |"KABUPATEN"| == 9;
  }

  lemma OnePrefix(key: string, s: string)
    requires IsHeader(key) && key <= s
    ensures "PROVINSI" <= s <==> key == "PROVINSI"
    ensures "KOTA" <= s <==> key == "KOTA"
  {
    assert key[0] == s[0] && "PROVINSI"[0] == 'P' && "KOTA"[0] == "KABUPATEN"[0] == 'K';
    assert key[1] == s[1] && "KOTA"[1] == 'O' && "KABUPATEN"[1] == 'A';
  }

  // --- The fields ---

  lemma NikReads(d: Ktp, nik: string, upper: string)
    requires IsNik(nik)
    ensures SetField(d, Nik, nik, upper) == d.(nik := nik)
  {
    DropNone(nik, {' '});
    DropNone(nik, {'.'});
  }

  lemma DayFirstParts(a: string, b: string, c: string, sep: char, s: string)
    requires |a| == 2 && |b| == 2 && |c| == 4 && s == a + [sep] + b + [sep] + c
    ensures |s| == 10 && s[2] == sep && s[5] == sep && s[4] == b[1] && s[0] == a[0] && s[9] == c[3]
    ensures s[6..10] == c && s[3..5] == b && s[0..2] == a
  {
    assert s == (a + [sep]) + b + [sep] + c;
  }

  lemma NormalizesTo(s: string, a: string, b: string, c: string)
    requires Trimmed(s) && |s| == 10 && s[4] != '-' && IsSeparator(s[2]) && s[5] == s[2]
    requires s[6..10] == c && s[3..5] == b && s[0..2] == a
    ensures NormalizeDate(s) == c + "-" + b + "-" + a
  {
    hide Trim;
    TrimOfTrimmed(s);
  }

  lemma IsoParts(iso: string)
    requires |iso| == 10 && iso[4] == '-' && iso[7] == '-'
    ensures iso == iso[..4] + "-" + iso[5..7] + "-" + iso[8..]
  {}

  lemma EndsInDigits(s: string)
    requires |s| == 10 && IsDigit(s[0]) && IsDigit(s[9])
    ensures Trimmed(s)
  {}

  lemma DateReads(iso: string, sep: char)
    requires IsoShape(iso) && IsSeparator(sep)
    ensures NormalizeDate(DayFirst(iso, sep)) == iso && Trimmed(DayFirst(iso, sep)) && DayFirst(iso, sep) != ""
  {
    hide Trim, NormalizeDate, Trimmed;
    var a, b, c, s := iso[8..], iso[5..7], iso[..4], DayFirst(iso, sep);
    DayFirstParts(a, b, c, sep, s);
    assert IsDigit(a[0]) && IsDigit(b[1]) && IsDigit(c[3]);
    EndsInDigits(s);
    NormalizesTo(s, a, b, c);
    IsoParts(iso);
  }

  lemma DateIsOneLine(iso: string, sep: char)
    requires IsoShape(iso) && IsSeparator(sep)
    ensures NL !in DayFirst(iso, sep)
  {
    var a, b, c := iso[8..], iso[5..7], iso[..4];
    assert NL !in a && NL !in b && NL !in c;
  }

  lemma BirthReads(d: Ktp, tempat: string, iso: string, sep: char, upper: string)
    requires IsoShape(iso) && IsSeparator(sep) && Trimmed(tempat) && ',' !in tempat
    ensures SetField(d, TempatLahir, tempat + ", " + DayFirst(iso, sep), upper) == d.(tempat := tempat, tanggal := iso)
  {
    hide DayFirst, NormalizeDate, Trim, AroundFirst;
    var date := DayFirst(iso, sep);
    DateReads(iso, sep);
    assert tempat + ", " + date == tempat + [','] + (" " + date);
    AroundFirstIs(tempat, ',', " " + date);
    TrimOfTrimmed(tempat);
    PadLeft(' ', date);
  }

  lemma GenderLine(word: string, key: string, v: string)
    requires Upper(word) == key && key in KEYS && v != "" && Trimmed(v) && Upper(v) == v
    ensures Upper(Trim(Labelled(word, v))) == key + " : " + v
  {
    hide Upper, Trim, AroundFirst;
    KeyIsPlain(key);
    UpperKeeps(word, key);
    LabelledCuts(word, v);
  }

  lemma GenderReads(d: Ktp, word: string, g: string)
    requires Upper(word) == "JENIS KELAMIN" && (g == "PEREMPUAN" || g == "LAKI_LAKI")
    ensures SetField(d, Kelamin, GenderPrinted(g), Upper(Trim(Labelled(word, GenderPrinted(g))))) == d.(kelamin := g)
  {
    hide Contains, Trim, Upper, Labelled;
    var key, v := Upper(word), GenderPrinted(g);
    assert key == KEYS[3];
    UpperOfUpper(v);
    GenderLine(word, key, v);
    GenderTells(key + " : " + v, key + " : ", v);
  }

  lemma GenderTells(line: string, head: string, v: string)
    requires line == head + v && head == "JENIS KELAMIN" + " : " && (v == "PEREMPUAN" || v == "LAKI-LAKI")
    ensures Contains(line, "PEREMPUAN") <==> v == "PEREMPUAN"
  {
    hide Contains;
    assert "PEREMPUAN"[0] != "LAKI-LAKI"[0];
    if v == "PEREMPUAN" {
      Occurs(line, head, v, "");
    } else {
      assert 'R' !in head && 'R' !in v;
      LacksChar(line, "PEREMPUAN", 'R');
    }
  }

  lemma KeyIsPlain(key: string)
    requires key in KEYS
    ensures Trimmed(key) && key != "" && ':' !in key && NL !in key
  {}

  lemma FieldsOfKeys(i: nat)
    requires i < |KEYS|
    ensures KEYS[i] in KEYS
    ensures FieldOf(KEYS[i]) == FIELDS[i]
  {
    hide FieldOf;
    var key := KEYS[i];
    if i == 0 { NikKey(key); }
    else if i == 1 { NamaKey(key); }
    else if i == 2 { TempatKey(key); }
    else if i == 3 { KelaminKey(key); }
    else if i == 4 { AlamatKey(key); }
    else if i == 5 { RtRwKey(key); }
    else if i == 6 { KelurahanKey(key); }
    else if i == 7 { KecamatanKey(key); }
    else if i == 8 { AgamaKey(key); }
    else { StatusKey(key); }
  }

  // --- The whole card ---

  /** What has been read after `k` lines. */
  function Partial(d: Ktp, k: nat): Ktp {
    Ktp(if k > 2 then d.nik else "", if k > 3 then d.nama else "", if k > 4 then d.tempat else "",
        if k > 4 then d.tanggal else "", if k > 5 then d.kelamin else "", if k > 6 then d.alamat else "",
        if k > 7 then d.rtrw else "", if k > 8 then d.kelurahan else "", if k > 9 then d.kecamatan else "",
        if k > 1 then d.kota else "", if k > 0 then d.provinsi else "", if k > 10 then d.agama else "",
        if k > 11 then d.status else "")
  }

  lemma ValuesAreTrimmed(d: Ktp, sep: char, i: nat)
    requires Printable(d) && IsSeparator(sep) && i < |KEYS|
    ensures Trimmed(Values(d, sep)[i]) && NL !in Values(d, sep)[i]
  {
    hide DayFirst, Trimmed, GenderPrinted;
    if i == 0 {
      DigitsAreTrimmed(d.nik);
    } else if i == 2 {
      BirthIsTrimmed(d.tempat, d.tanggal, sep);
    } else if i == 3 {
      GenderIsTrimmed(d.kelamin);
    }
  }

  lemma DigitsAreTrimmed(nik: string)
    requires IsNik(nik)
    ensures Trimmed(nik) && NL !in nik
  {}

  lemma GenderIsTrimmed(g: string)
    requires g == "PEREMPUAN" || g == "LAKI_LAKI"
    ensures Trimmed(GenderPrinted(g)) && NL !in GenderPrinted(g)
  {}

  lemma BirthIsTrimmed(tempat: string, iso: string, sep: char)
    requires IsSeparator(sep) && Plain(tempat) && IsoShape(iso)
    ensures Trimmed(tempat + ", " + DayFirst(iso, sep)) && NL !in tempat + ", " + DayFirst(iso, sep)
  {
    assert |iso| == 10;
    hide DayFirst, Trimmed, IsoShape;
    DateReads(iso, sep);
    DateIsOneLine(iso, sep);
    var comma := ", ";
    assert NL !in comma && !IsSpace(comma[0]);
  }

  const FIELDS := [Nik, Nama, TempatLahir, Kelamin, Alamat, RtRw, Kelurahan, Kecamatan, Agama, Status]

  lemma PlainFieldStep(d: Ktp, sep: char, i: nat, upper: string)
    requires Printable(d) && i < |KEYS| && i != 0 && i != 2 && i != 3
    ensures SetField(Partial(d, i + 2), FIELDS[i], Values(d, sep)[i], upper) == Partial(d, i + 3)
  {
    hide DayFirst, GenderPrinted, NormalizeDate, ExtractNik, AroundFirst, Contains, Trim, Plain, IsoShape, IsNik;
  }

  lemma FieldStep(d: Ktp, sep: char, i: nat, word: string)
    requires Printable(d) && IsSeparator(sep) && i < |KEYS| && Upper(word) == KEYS[i]
    ensures SetField(Partial(d, i + 2), FIELDS[i], Values(d, sep)[i], Upper(Trim(Labelled(word, Values(d, sep)[i])))) ==
            Partial(d, i + 3)
  {
    hide SetField, Upper, Trim, Labelled, DayFirst, GenderPrinted;
    var p, upper := Partial(d, i + 2), Upper(Trim(Labelled(word, Values(d, sep)[i])));
    if i == 0 {
      NikReads(p, d.nik, upper);
    } else if i == 2 {
      BirthReads(p, d.tempat, d.tanggal, sep, upper);
    } else if i == 3 {
      GenderReads(p, word, d.kelamin);
    } else {
      PlainFieldStep(d, sep, i, upper);
    }
  }

  lemma LineStep(d: Ktp, l: Labels, k: nat)
    requires Printable(d) && Spelled(l) && k < 2 + |KEYS|
    ensures ParseLine(Partial(d, k), Printed(d, l)[k]) == Partial(d, k + 1)
  {
    hide ParseLine, SetField, FieldOf, Labelled, Header, Upper, Trim;
    if k == 0 {
      ParsesHeader(Partial(d, 0), l.provinsi, d.provinsi, "PROVINSI");
    } else if k == 1 {
      ParsesHeader(Partial(d, 1), l.kota, d.kota, Upper(l.kota));
    } else {
      var i := k - 2;
      assert KEYS[i] in KEYS;
      KeyIsPlain(KEYS[i]);
      ValuesAreTrimmed(d, l.separator, i);
      ParsesLabelled(Partial(d, k), l.keys[i], Values(d, l.separator)[i], KEYS[i]);
      FieldsOfKeys(i);
      FieldStep(d, l.separator, i, l.keys[i]);
    }
  }

  lemma {:induction false} LinesFrom(d: Ktp, l: Labels, k: nat)
    requires Printable(d) && Spelled(l) && k <= 2 + |KEYS|
    ensures ParseLines(Partial(d, k), Printed(d, l)[k..] + [""]) == d
    decreases 2 + |KEYS| - k
  {
    hide ParseLine, Printed, Partial, Printable, Spelled;
    var lines := Printed(d, l)[k..] + [""];
    if k == 2 + |KEYS| {
      assert lines == [""] && lines[1..] == [];
      BlankLine(Partial(d, k));
      PartialEnds(d);
    } else {
      assert lines[0] == Printed(d, l)[k] && lines[1..] == Printed(d, l)[k + 1..] + [""];
      LineStep(d, l, k);
      LinesFrom(d, l, k + 1);
    }
  }

  lemma BlankLine(d: Ktp)
    ensures ParseLine(d, "") == d
  {
    TrimOfTrimmed("");
  }

  lemma PartialEnds(d: Ktp)
    ensures Partial(d, 0) == BLANK && Partial(d, 2 + |KEYS|) == d
  {}

  lemma {:induction false} SplitOfJoin(lines: seq<string>)
    requires forall i :: 0 <= i < |lines| ==> NL !in lines[i]
    ensures Split(Join(lines)) == lines + [""]
    decreases |lines|
  {
    if lines != [] {
      JoinFromFront(lines);
      var s, rest := Join(lines), Join(lines[1..]);
      FirstIs(lines[0], NL, rest);
      assert s[..|lines[0]|] == lines[0] && s[|lines[0]| + 1..] == rest;
      SplitOfJoin(lines[1..]);
      assert lines + [""] == [lines[0]] + (lines[1..] + [""]);
    }
  }

  lemma PrintedLines(d: Ktp, l: Labels, k: nat)
    requires Printable(d) && Spelled(l) && k < 2 + |KEYS|
    ensures NL !in Printed(d, l)[k]
  {
    hide Upper, DayFirst;
    if k == 0 {
    } else if k == 1 {
    } else {
      assert KEYS[k - 2] in KEYS;
      KeyIsPlain(KEYS[k - 2]);
      ValuesAreTrimmed(d, l.separator, k - 2);
    }
  }

  /** Printing a card and reading it back gives the same record, however its labels are
      capitalised. */
  lemma CardReadsBack(d: Ktp, l: Labels)
    requires Printable(d) && Spelled(l)
    ensures Parse(Print(d, l)) == d
  {
    hide Split, ParseLines, Printed, Join, Spelled;
    forall k | 0 <= k < |Printed(d, l)| ensures NL !in Printed(d, l)[k] {
      PrintedLines(d, l, k);
    }
    SplitOfJoin(Printed(d, l));
    LinesFrom(d, l, 0);
    PartialEnds(d);
    assert Printed(d, l)[0..] == Printed(d, l);
    assert d.kelamin != "" by {
      assert "PEREMPUAN" != "" && "LAKI_LAKI" != "";
    }
  }

  // --- Is it a card at all ---

  const MARKERS := [
    ["NIK"], ["NAMA"], ["TEMPAT/TGL LAHIR", "TEMPAT/TGLLAHIR", "TGL LAHIR", "TEMPAT TGL LAHIR"],
    ["JENIS KELAMIN", "JENISKELAMIN"], ["ALAMAT"], ["RT/RW", "RTRW"],
    ["KEL/DESA", "KEL / DESA", "KELURAHAN", "KEL/DESA"], ["KECAMATAN"], ["AGAMA"],
    ["STATUS PERKAWINAN", "STATUSPERKAWINAN"], ["KEWARGANEGARAAN", "KEWARGANEGARAN"],
    ["BERLAKU HINGGA", "BERLAKUHINGGA"], ["PEKERJAAN"], ["GOL. DARAH", "GOL DARAH", "GOLDARAH"], ["PROVINSI"],
    ["NEGARA REPUBLIK INDONESIA", "REPUBLIK INDONESIA"]]

  const MIN_MARKERS := 5

  function WordLength(s: string): (n: nat)
    ensures n <= |s| && (forall i :: 0 <= i < n ==> !IsSpace(s[i])) && (n < |s| ==> IsSpace(s[n]))
  {
    if s == "" || IsSpace(s[0]) then 0 else 1 + WordLength(s[1..])
  }

  /** The words between white space. */
  function Fields(s: string): seq<string>
    decreases |s|
  {
    if s == "" then []
    else if IsSpace(s[0]) then Fields(s[1..])
    else [s[..WordLength(s)]] + Fields(s[WordLength(s)..])
  }

  function Spaced(words: seq<string>): string {
    if words == [] then "" else if |words| == 1 then words[0] else words[0] + " " + Spaced(words[1..])
  }

  function Haystack(raw: string): string { Upper(Spaced(Fields(raw))) }

  predicate Shows(haystack: string, variants: seq<string>) {
    exists i :: 0 <= i < |variants| && Contains(haystack, variants[i])
  }

  /** How many of the first `n` markers occur. */
  function Shown(haystack: string, markers: seq<seq<string>>, n: nat): nat
    requires n <= |markers|
  {
    if n == 0 then 0 else Shown(haystack, markers, n - 1) + (if Shows(haystack, markers[n - 1]) then 1 else 0)
  }

  method Assess(raw: string) returns (found: nat, isKtp: bool)
    ensures found == Shown(Haystack(raw), MARKERS, |MARKERS|)
    ensures isKtp <==> found >= MIN_MARKERS
  {
    hide Haystack;
    var haystack := Haystack(raw);
    found := 0;
    for i := 0 to |MARKERS|
      invariant found == Shown(haystack, MARKERS, i)
    {
      var variants := MARKERS[i];
      var hit := false;
      for j := 0 to |variants|
        invariant !hit && forall k :: 0 <= k < j ==> !Contains(haystack, variants[k])
      {
        if Contains(haystack, variants[j]) {
          hit := true;
          break;
        }
      }
      if hit {
        found := found + 1;
      }
    }
    isKtp := found >= MIN_MARKERS;
  }

  /** A run of letters stays whole when white space is squeezed. */
  lemma {:induction false} SomeFieldHas(p: string, w: string, q: string) returns (k: nat)
    requires w != "" && forall i :: 0 <= i < |w| ==> !IsSpace(w[i])
    ensures k < |Fields(p + w + q)| && Contains(Fields(p + w + q)[k], w)
    decreases |p|
  {
    var s := p + w + q;
    var n := WordLength(s);
    if p == "" {
      assert forall i :: 0 <= i < |w| ==> s[i] == w[i];
      assert n >= |w| && s[..n] == w + s[|w|..n];
      ContainsAt("", w, s[|w|..n]);
      assert "" + w + s[|w|..n] == s[..n];
      k := 0;
    } else if IsSpace(p[0]) {
      assert s[1..] == p[1..] + w + q;
      k := SomeFieldHas(p[1..], w, q);
    } else if n <= |p| {
      assert s[n..] == p[n..] + w + q;
      k := SomeFieldHas(p[n..], w, q);
      k := k + 1;
    } else {
      assert forall i :: |p| <= i < |p| + |w| ==> s[i] == w[i - |p|];
      assert n >= |p| + |w| && s[..n] == p + w + s[|p| + |w|..n];
      ContainsAt(p, w, s[|p| + |w|..n]);
      k := 0;
    }
  }

  lemma {:induction false} SpacedHas(words: seq<string>, k: nat, w: string)
    requires k < |words| && Contains(words[k], w)
    ensures Contains(Spaced(words), w)
    decreases |words|
  {
    var p, q := ContainsSplits(words[k], w);
    if |words| > 1 {
      var rest := " " + Spaced(words[1..]);
      if k == 0 {
        assert Spaced(words) == p + w + (q + rest);
        ContainsAt(p, w, q + rest);
      } else {
        SpacedHas(words[1..], k - 1, w);
        p, q := ContainsSplits(Spaced(words[1..]), w);
        assert Spaced(words) == (words[0] + " " + p) + w + q;
        ContainsAt(words[0] + " " + p, w, q);
      }
    }
  }

  lemma HaystackHas(raw: string, p: string, w: string, q: string)
    requires raw == p + w + q && w != "" && forall i :: 0 <= i < |w| ==> !IsSpace(w[i])
    ensures Contains(Haystack(raw), Upper(w))
  {
    hide Contains, Upper, Fields, Spaced;
    var k := SomeFieldHas(p, w, q);
    SpacedHas(Fields(raw), k, w);
    var a, b := ContainsSplits(Spaced(Fields(raw)), w);
    UpperSplits(a + w, b);
    UpperSplits(a, w);
    ContainsAt(Upper(a), Upper(w), Upper(b));
  }

  lemma {:induction false} ShownAtLeast(haystack: string, markers: seq<seq<string>>, n: nat, hits: seq<nat>)
    requires n <= |markers| && forall i :: 0 <= i < |hits| ==> hits[i] < n && Shows(haystack, markers[hits[i]])
    requires forall i, j :: 0 <= i < j < |hits| ==> hits[i] < hits[j]
    ensures Shown(haystack, markers, n) >= |hits|
    decreases n
  {
    assert |hits| == 0 || hits[0] < n;
    if n > 0 {
      var m := |hits| - 1;
      if m >= 0 && hits[m] == n - 1 {
        ShownAtLeast(haystack, markers, n - 1, hits[..m]);
      } else {
        forall i | 0 <= i < |hits| ensures hits[i] < n - 1 {
          assert hits[i] <= hits[m];
        }
        ShownAtLeast(haystack, markers, n - 1, hits);
      }
    }
  }

  lemma LineInside(lines: seq<string>, k: nat) returns (p: string, q: string)
    requires k < |lines|
    ensures Join(lines) == p + lines[k] + q
  {
    assert lines == lines[..k] + ([lines[k]] + lines[k + 1..]);
    JoinSplits(lines[..k], [lines[k]] + lines[k + 1..]);
    JoinFromFront([lines[k]] + lines[k + 1..]);
    assert ([lines[k]] + lines[k + 1..])[1..] == lines[k + 1..];
    p, q := Join(lines[..k]), [NL] + Join(lines[k + 1..]);
  }

  /** A label without spaces shows in the printed card. */
  lemma LabelShows(d: Ktp, l: Labels, i: nat)
    requires Printable(d) && Spelled(l) && i < |KEYS| && ' ' !in KEYS[i]
    ensures Contains(Haystack(Print(d, l)), KEYS[i])
  {
    hide Join, Haystack, Contains, Printable;
    var lines, word := Printed(d, l), l.keys[i];
    var p, q := LineInside(lines, i + 2);
    var tail := " : " + Values(d, l.separator)[i];
    assert lines[i + 2] == word + tail;
    assert Join(lines) == p + word + (tail + q);
    forall j | 0 <= j < |word| ensures !IsSpace(word[j]) {
      assert KEYS[i][j] == UpperChar(word[j]);
    }
    HaystackHas(Join(lines), p, word, tail + q);
  }

  /** Every printed card passes as a card. */
  lemma PrintedCardPasses(d: Ktp, l: Labels)
    requires Printable(d) && Spelled(l)
    ensures Shown(Haystack(Print(d, l)), MARKERS, |MARKERS|) >= MIN_MARKERS
  {
    hide Printable, Spelled, Print, Haystack, Contains, Shown;
    var h := Haystack(Print(d, l));
    LabelShows(d, l, 0);
    LabelShows(d, l, 1);
    LabelShows(d, l, 4);
    LabelShows(d, l, 5);
    LabelShows(d, l, 6);
    assert KEYS[0] == MARKERS[0][0] && KEYS[1] == MARKERS[1][0] && KEYS[4] == MARKERS[4][0];
    assert KEYS[5] == MARKERS[5][0] && KEYS[6] == MARKERS[6][0];
    assert Shows(h, MARKERS[0]) && Shows(h, MARKERS[1]) && Shows(h, MARKERS[4]);
    assert Shows(h, MARKERS[5]) && Shows(h, MARKERS[6]);
    ShownAtLeast(h, MARKERS, |MARKERS|, [0, 1, 4, 5, 6]);
  }
}
