/** The `Date and Time:` extraction of `create_file_based_on_datetime`:
    the search, `strptime('%m/%d/%Y %I:%M:%S %p')`,
    `strftime('%Y%m%d_%H%M%S')` and the marker file name. */
module Timestamp {
  import opened Wrappers
  import opened Strings
  import opened Paths
  import FileInfo

  const Label: string := "Date and Time:"

  /** The fields of group 1 of
      `Date and Time:\s+(\d{2}/\d{2}/\d{4}\s+\d{2}:\d{2}:\d{2}\s+[APM]{2})`. */
  datatype RawStamp = RawStamp(month: nat, day: nat, year: nat,
                               hour: nat, minute: nat, second: nat, meridiem: string)

  /** Length of the leading white space of `s`. */
  function SpaceSpan(s: string): (n: nat)
    ensures n <= |s|
    ensures forall i :: 0 <= i < n ==> IsSpace(s[i])
    ensures n < |s| ==> !IsSpace(s[n])
  {
    if s != [] && IsSpace(s[0]) then 1 + SpaceSpan(s[1..]) else 0
  }

  /** `\s+`: the rest after the (greedy, non-empty) white space. A `\s+`
      followed by a digit or by `[APM]` can only take all of it. */
  function Spaces(s: string): Option<string>
  {
    var n := SpaceSpan(s);
    if n == 0 then None else Some(s[n..])
  }

  /** `\d{w}`: the value of the digits and the rest. */
  function Digits(s: string, w: nat): (r: Option<(nat, string)>)
    ensures r.Some? ==> |s| >= w && r.value.0 < Pow10(w) && r.value.1 == s[w..]
  {
    if |s| >= w && AllDigits(s[..w]) then
      ValueBound(s[..w]);
      Some((DigitsValue(s[..w]), s[w..]))
    else None
  }

  /** One literal character. */
  function Char(s: string, c: char): Option<string>
  {
    if s != [] && s[0] == c then Some(s[1..]) else None
  }

  predicate IsMeridiemChar(c: char)
  {
    c == 'A' || c == 'P' || c == 'M'
  }

  /** The pattern matched at the very start of `s`. */
  function MatchAt(s: string): Option<RawStamp>
  {
    if !(Label <= s) then None
    else
      var s1 :- Spaces(s[|Label|..]);
      MatchDate(s1)
  }

  /** `\d{2}/\d{2}/\d{4}\s+` and the time after it. */
  function MatchDate(s: string): Option<RawStamp>
  {
    var month :- Digits(s, 2);
    var s3 :- Char(month.1, '/');
    var day :- Digits(s3, 2);
    var s5 :- Char(day.1, '/');
    var year :- Digits(s5, 4);
    var s7 :- Spaces(year.1);
    var t :- MatchTime(s7);
    Some(RawStamp(month.0, day.0, year.0, t.hour, t.minute, t.second, t.meridiem))
  }

  /** `\d{2}:\d{2}:\d{2}\s+[APM]{2}`; the date fields are filled in by the caller. */
  function MatchTime(s: string): Option<RawStamp>
  {
    var hour :- Digits(s, 2);
    var s9 :- Char(hour.1, ':');
    var minute :- Digits(s9, 2);
    var s11 :- Char(minute.1, ':');
    var second :- Digits(s11, 2);
    var s13 :- Spaces(second.1);
    MatchMeridiem(s13, hour.0, minute.0, second.0)
  }

  /** `[APM]{2}`. */
  function MatchMeridiem(s: string, hour: nat, minute: nat, second: nat): Option<RawStamp>
  {
    if |s| >= 2 && IsMeridiemChar(s[0]) && IsMeridiemChar(s[1])
    then Some(RawStamp(0, 0, 0, hour, minute, second, s[..2]))
    else None
  }

  /** `re.search`: the match at the leftmost position where there is one. */
  function SearchDateTime(content: string): Option<RawStamp>
  {
    if content == [] then None
    else if MatchAt(content).Some? then MatchAt(content)
    else SearchDateTime(content[1..])
  }

  /** The search finds the first position at which the pattern matches,
      and finds nothing exactly when it matches nowhere. */
  lemma {:induction false} SearchIsLeftmost(content: string)
    ensures SearchDateTime(content).Some? ==>
      exists i :: 0 <= i < |content| && MatchAt(content[i..]) == SearchDateTime(content)
        && forall j :: 0 <= j < i ==> MatchAt(content[j..]).None?
    ensures SearchDateTime(content).None? ==>
      forall i :: 0 <= i < |content| ==> MatchAt(content[i..]).None?
  {
    if content != [] && MatchAt(content).None? {
      var tail := content[1..];
      SearchIsLeftmost(tail);
      if SearchDateTime(tail).Some? {
        var i :| 0 <= i < |tail| && MatchAt(tail[i..]) == SearchDateTime(tail)
          && forall j :: 0 <= j < i ==> MatchAt(tail[j..]).None?;
        assert tail[i..] == content[i + 1..];
        forall j | 0 <= j < i + 1 ensures MatchAt(content[j..]).None? {
          if j > 0 {
            assert content[j..] == tail[j - 1..];
          }
        }
      } else {
        forall i | 0 <= i < |content| ensures MatchAt(content[i..]).None? {
          if i > 0 {
            assert content[i..] == tail[i - 1..];
          }
        }
      }
    } else if content != [] {
      assert content[0..] == content;
    }
  }

  /** The stamp written out the way the tool writes it, single-spaced. */
  function Render(raw: RawStamp): string
  {
    Label + " " + RenderDate(raw)
  }

  function RenderDate(raw: RawStamp): string
  {
    Pad(raw.month, 2) + "/" + Pad(raw.day, 2) + "/" + Pad(raw.year, 4) + " " + RenderTime(raw)
  }

  function RenderTime(raw: RawStamp): string
  {
    Pad(raw.hour, 2) + ":" + Pad(raw.minute, 2) + ":" + Pad(raw.second, 2) + " " + raw.meridiem
  }

  predicate Renderable(raw: RawStamp)
  {
    raw.month < 100 && raw.day < 100 && raw.year < 10000 && raw.hour < 100
    && raw.minute < 100 && raw.second < 100
    && |raw.meridiem| == 2 && IsMeridiemChar(raw.meridiem[0]) && IsMeridiemChar(raw.meridiem[1])
  }

  lemma DigitsOfPad(n: nat, w: nat, rest: string)
    requires n < Pow10(w)
    ensures Digits(Pad(n, w) + rest, w) == Some((n, rest))
  {
    var s := Pad(n, w) + rest;
    assert s[..w] == Pad(n, w);
    assert s[w..] == rest;
    PadValue(n, w);
  }

  lemma SpacesOfOne(rest: string)
    requires rest != [] && !IsSpace(rest[0])
    ensures Spaces(" " + rest) == Some(rest)
  {
    assert (" " + rest)[1..] == rest;
  }

  lemma CharOf(c: char, rest: string)
    ensures Char([c] + rest, c) == Some(rest)
  {
    assert ([c] + rest)[1..] == rest;
  }

  lemma MatchTimeRender(raw: RawStamp, rest: string)
    requires Renderable(raw)
    ensures MatchTime(RenderTime(raw) + rest)
         == Some(RawStamp(0, 0, 0, raw.hour, raw.minute, raw.second, raw.meridiem))
  {
    var m := raw.meridiem + rest;
    var t6 := Pad(raw.second, 2) + ([' '] + m);
    var t5 := Pad(raw.minute, 2) + ([':'] + t6);
    var s := Pad(raw.hour, 2) + ([':'] + t5);
    assert RenderTime(raw) + rest == s;
    DigitsOfPad(raw.hour, 2, [':'] + t5);
    CharOf(':', t5);
    DigitsOfPad(raw.minute, 2, [':'] + t6);
    CharOf(':', t6);
    DigitsOfPad(raw.second, 2, [' '] + m);
    assert !IsSpace(m[0]);
    SpacesOfOne(m);
    assert m[..2] == raw.meridiem;
  }

  /** The date fields read back, and the time is matched on what follows. */
  lemma MatchDateOf(month: nat, day: nat, year: nat, t4: string)
    requires month < 100 && day < 100 && year < 10000
    requires t4 != [] && !IsSpace(t4[0])
    ensures MatchDate(Pad(month, 2) + (['/'] + (Pad(day, 2) + (['/'] + (Pad(year, 4) + ([' '] + t4))))))
         == (match MatchTime(t4)
             case None => None
             case Some(t) => Some(RawStamp(month, day, year, t.hour, t.minute, t.second, t.meridiem)))
  {
    var t3 := Pad(year, 4) + ([' '] + t4);
    var t2 := Pad(day, 2) + (['/'] + t3);
    DigitsOfPad(month, 2, ['/'] + t2);
    CharOf('/', t2);
    DigitsOfPad(day, 2, ['/'] + t3);
    CharOf('/', t3);
    DigitsOfPad(year, 4, [' '] + t4);
    SpacesOfOne(t4);
  }

  lemma MatchDateRender(raw: RawStamp, rest: string)
    requires Renderable(raw)
    ensures MatchDate(RenderDate(raw) + rest) == Some(raw)
  {
    var t4 := RenderTime(raw) + rest;
    assert RenderDate(raw) + rest
        == Pad(raw.month, 2) + (['/'] + (Pad(raw.day, 2) + (['/'] + (Pad(raw.year, 4) + ([' '] + t4)))));
    assert t4[0] == Pad(raw.hour, 2)[0];
    MatchDateOf(raw.month, raw.day, raw.year, t4);
    MatchTimeRender(raw, rest);
  }

  /** Parsing a rendered stamp gives the stamp back, whatever follows it. */
  lemma MatchAtRender(raw: RawStamp, rest: string)
    requires Renderable(raw)
    ensures MatchAt(Render(raw) + rest) == Some(raw)
  {
    var t1 := RenderDate(raw) + rest;
    assert Render(raw) + rest == Label + (" " + t1);
    assert Label <= Label + (" " + t1);
    assert (Label + (" " + t1))[|Label|..] == " " + t1;
    SpacesOfOne(t1);
    MatchDateRender(raw, rest);
  }

  /** A date and 24-hour time, as a `datetime` holds it. */
  datatype DateTime = DateTime(year: nat, month: nat, day: nat, hour: nat, minute: nat, second: nat)

  predicate IsLeap(y: nat)
  {
    y % 4 == 0 && (y % 100 != 0 || y % 400 == 0)
  }

  function DaysInMonth(y: nat, m: nat): nat
    requires 1 <= m <= 12
  {
    if m == 2 then (if IsLeap(y) then 29 else 28)
    else if m == 4 || m == 6 || m == 9 || m == 11 then 30
    else 31
  }

  predicate ValidDateTime(dt: DateTime)
  {
    1 <= dt.year <= 9999 && 1 <= dt.month <= 12 && 1 <= dt.day <= DaysInMonth(dt.year, dt.month)
    && dt.hour < 24 && dt.minute < 60 && dt.second < 60
  }

  /** `%I` with `%p`: 12 AM is hour 0, 12 PM is hour 12. */
  function Hour24(h: nat, pm: bool): nat
  {
    h % 12 + (if pm then 12 else 0)
  }

  /** The 12-hour clock reading of a 24-hour hour. */
  function Hour12(h: nat): (nat, bool)
  {
    (if h % 12 == 0 then 12 else h % 12, h >= 12)
  }

  /** The conversion to 24 hours lands in 0..23, and is undone by `Hour12`,
      so no two readings share an hour; every hour of the day is reached. */
  lemma Hour24RoundTrip(h: nat, pm: bool, h24: nat)
    requires 1 <= h <= 12
    requires h24 < 24
    ensures Hour24(h, pm) < 24
    ensures Hour12(Hour24(h, pm)) == (h, pm)
    ensures var (h', pm') := Hour12(h24); 1 <= h' <= 12 && Hour24(h', pm') == h24
  {
  }

  lemma MidnightAndNoon()
    ensures Hour24(12, false) == 0 && Hour24(12, true) == 12
    ensures Hour24(1, false) == 1 && Hour24(1, true) == 13
  {
  }

  /** `datetime.strptime(group, '%m/%d/%Y %I:%M:%S %p')`: `None` where it
      raises `ValueError`. Its pattern admits months 01-12, days 01-31,
      hours 01-12, minutes 00-59, seconds 00-61 and `AM`/`PM`; the
      `datetime` it builds then refuses year 0, a day past the end of the
      month and seconds 60 and 61. */
  function Strptime(raw: RawStamp): Option<DateTime>
  {
    if 1 <= raw.month <= 12 && 1 <= raw.day <= 31 && 1 <= raw.hour <= 12
       && raw.minute <= 59 && raw.second <= 61 && (raw.meridiem == "AM" || raw.meridiem == "PM")
       && 1 <= raw.year && raw.day <= DaysInMonth(raw.year, raw.month) && raw.second <= 59
    then Some(DateTime(raw.year, raw.month, raw.day, Hour24(raw.hour, raw.meridiem == "PM"),
                       raw.minute, raw.second))
    else None
  }

  /** What `strptime` accepts is a valid date and time. */
  lemma StrptimeValid(raw: RawStamp)
    requires raw.year < 10000
    requires Strptime(raw).Some?
    ensures ValidDateTime(Strptime(raw).value)
  {
  }

  /** `strftime('%Y%m%d_%H%M%S')`. */
  function FormatStamp(dt: DateTime): string
  {
    FormatDate(dt) + "_" + FormatTime(dt)
  }

  function FormatDate(dt: DateTime): string
  {
    Pad(dt.year, 4) + Pad(dt.month, 2) + Pad(dt.day, 2)
  }

  function FormatTime(dt: DateTime): string
  {
    Pad(dt.hour, 2) + Pad(dt.minute, 2) + Pad(dt.second, 2)
  }

  /** Three digit fields of widths `a`, `b` and `c`, read back. */
  function Fields(s: string, a: nat, b: nat): (nat, nat, nat)
    requires AllDigits(s) && a + b <= |s|
  {
    assert AllDigits(s[..a]) && AllDigits(s[a..a + b]) && AllDigits(s[a + b..]);
    (DigitsValue(s[..a]), DigitsValue(s[a..a + b]), DigitsValue(s[a + b..]))
  }

  /** Reading a `YYYYMMDD_HHMMSS` stamp back. */
  function ParseStamp(s: string): Option<DateTime>
  {
    if FileInfo.IsStampToken(s) then
      var (y, mo, d) := Fields(s[..8], 4, 2);
      var (h, mi, se) := Fields(s[9..], 2, 2);
      Some(DateTime(y, mo, d, h, mi, se))
    else None
  }

  lemma FieldsOfPads(x: nat, a: nat, y: nat, b: nat, z: nat, c: nat)
    requires x < Pow10(a) && y < Pow10(b) && z < Pow10(c)
    ensures AllDigits(Pad(x, a) + Pad(y, b) + Pad(z, c))
    ensures Fields(Pad(x, a) + Pad(y, b) + Pad(z, c), a, b) == (x, y, z)
  {
    var s := Pad(x, a) + Pad(y, b) + Pad(z, c);
    assert s[..a] == Pad(x, a);
    assert s[a..a + b] == Pad(y, b);
    assert s[a + b..] == Pad(z, c);
    PadValue(x, a);
    PadValue(y, b);
    PadValue(z, c);
  }

  /** A formatted stamp has the `\d{8}_\d{6}` shape that `extract_file_info`
      expects, and reads back as the same date and time. */
  lemma FormatStampRoundTrip(dt: DateTime)
    requires ValidDateTime(dt)
    ensures FileInfo.IsStampToken(FormatStamp(dt))
    ensures ParseStamp(FormatStamp(dt)) == Some(dt)
  {
    var s := FormatStamp(dt);
    assert s[..8] == FormatDate(dt);
    assert s[8] == '_';
    assert s[9..] == FormatTime(dt);
    FieldsOfPads(dt.year, 4, dt.month, 2, dt.day, 2);
    FieldsOfPads(dt.hour, 2, dt.minute, 2, dt.second, 2);
  }

  /** Index of the last `.` in `s`. */
  function LastDot(s: string): (r: Option<nat>)
    ensures r.Some? ==> r.value < |s| && s[r.value] == '.' && '.' !in s[r.value + 1..]
    ensures r.None? ==> '.' !in s
  {
    if s == [] then None
    else if s[|s| - 1] == '.' then Some(|s| - 1)
    else
      var r := LastDot(s[..|s| - 1]);
      assert r.Some? ==> s[r.value + 1..] == s[..|s| - 1][r.value + 1..] + [s[|s| - 1]];
      r
  }

  /** `name.rsplit('.', 1)[0]`: the name without its last extension. */
  function Stem(name: string): string
  {
    match LastDot(name)
    case None => name
    case Some(i) => name[..i]
  }

  /** What `Stem` removed: the text after the last `.`. */
  function Extension(name: string): string
  {
    match LastDot(name)
    case None => []
    case Some(i) => name[i + 1..]
  }

  /** Only the last extension goes: the name is the stem, or the stem, a dot
      and an extension without dots. */
  lemma StemSplitsAtLastDot(name: string)
    ensures Stem(name) <= name
    ensures '.' !in name ==> Stem(name) == name
    ensures '.' in name ==> name == Stem(name) + "." + Extension(name) && '.' !in Extension(name)
  {
    match LastDot(name)
    case None =>
    case Some(i) =>
      assert name == name[..i] + "." + name[i + 1..];
  }

  /** `f"{datetime_str}_{file_name.rsplit('.', 1)[0]}.na"`. */
  function MarkerName(stamp: string, fileName: string): string
  {
    stamp + "_" + Stem(fileName) + ".na"
  }

  /** `os.path.join(save_to_folder, 'wf_info')`. */
  function MarkerDir(saveTo: Path): Path
  {
    Join(saveTo, "wf_info")
  }

  /** The outcome of the search and the time conversion for one file. */
  datatype Derivation =
    | NoStamp                        // no `Date and Time:` match: returns False
    | BadStamp                       // `strptime` raises ValueError
    | Marker(dir: Path, name: string) // the empty marker to create

  function Derive(content: string, filePath: Path, saveTo: Path): Derivation
  {
    match SearchDateTime(content)
    case None => NoStamp
    case Some(raw) =>
      match Strptime(raw)
      case None => BadStamp
      case Some(dt) => Marker(MarkerDir(saveTo), MarkerName(FormatStamp(dt), BaseName(filePath)))
  }

  lemma {:induction false} ValueBound(s: string)
    requires AllDigits(s)
    ensures DigitsValue(s) < Pow10(|s|)
  {
    if s != [] {
      ValueBound(s[..|s| - 1]);
    }
  }

  /** A matched year has four digits. */
  lemma MatchYear(s: string)
    requires MatchAt(s).Some?
    ensures MatchAt(s).value.year < 10000
  {
    var s1 := Spaces(s[|Label|..]).value;
    assert MatchDate(s1).Some?;
  }

  /** So does the year the search finds. */
  lemma {:induction false} SearchYear(content: string)
    requires SearchDateTime(content).Some?
    ensures SearchDateTime(content).value.year < 10000
  {
    if MatchAt(content).Some? {
      MatchYear(content);
    } else {
      SearchYear(content[1..]);
    }
  }

  /** The marker named after a converted stamp starts with a valid stamp
      token, then `_`, the stem and `.na`. */
  lemma MarkerNameShape(raw: RawStamp, fileName: string)
    requires raw.year < 10000 && Strptime(raw).Some?
    ensures var name := MarkerName(FormatStamp(Strptime(raw).value), fileName);
      && |name| >= 16
      && ParseStamp(name[..15]).Some? && ValidDateTime(ParseStamp(name[..15]).value)
      && name == name[..15] + "_" + Stem(fileName) + ".na"
  {
    var dt := Strptime(raw).value;
    StrptimeValid(raw);
    FormatStampRoundTrip(dt);
    var name := MarkerName(FormatStamp(dt), fileName);
    assert |FormatStamp(dt)| == 15;
    assert name[..15] == FormatStamp(dt);
  }

  /** A marker is made exactly when the first match converts; it lies in
      `<save_to_folder>/wf_info`, its name is `YYYYMMDD_HHMMSS_<stem>.na`
      with a valid date and time, and it starts with the stamp
      `extract_file_info` looks for. */
  lemma DeriveSpec(content: string, filePath: Path, saveTo: Path)
    ensures Derive(content, filePath, saveTo).Marker? <==>
      SearchDateTime(content).Some? && Strptime(SearchDateTime(content).value).Some?
    ensures Derive(content, filePath, saveTo).NoStamp? <==>
      forall i :: 0 <= i < |content| ==> MatchAt(content[i..]).None?
    ensures Derive(content, filePath, saveTo).Marker? ==>
      var m := Derive(content, filePath, saveTo);
      && m.dir == Join(saveTo, "wf_info")
      && |m.name| >= 16
      && ParseStamp(m.name[..15]).Some? && ValidDateTime(ParseStamp(m.name[..15]).value)
      && m.name == m.name[..15] + "_" + Stem(BaseName(filePath)) + ".na"
  {
    SearchIsLeftmost(content);
    if SearchDateTime(content).Some? {
      var raw := SearchDateTime(content).value;
      SearchYear(content);
      if Strptime(raw).Some? {
        MarkerNameShape(raw, BaseName(filePath));
      }
    }
  }

  /** A text that starts with a stamp in the tool's layout yields the
      marker named after that stamp's converted time. */
  lemma DeriveOfRender(raw: RawStamp, rest: string, filePath: Path, saveTo: Path)
    requires Renderable(raw) && Strptime(raw).Some?
    ensures Derive(Render(raw) + rest, filePath, saveTo)
         == Marker(Join(saveTo, "wf_info"), MarkerName(FormatStamp(Strptime(raw).value), BaseName(filePath)))
  {
    var c := Render(raw) + rest;
    MatchAtRender(raw, rest);
    assert |c| >= |Label|;
    DeriveOfMatch(c, filePath, saveTo);
  }

  /** Text at whose start the pattern matches and converts yields the
      marker named after that match. */
  lemma DeriveOfMatch(c: string, filePath: Path, saveTo: Path)
    requires c != [] && MatchAt(c).Some? && Strptime(MatchAt(c).value).Some?
    ensures Derive(c, filePath, saveTo)
         == Marker(Join(saveTo, "wf_info"), MarkerName(FormatStamp(Strptime(MatchAt(c).value).value), BaseName(filePath)))
  {
    assert SearchDateTime(c) == MatchAt(c);
  }

  lemma ExampleConversion()
    ensures Strptime(RawStamp(1, 2, 2024, 3, 4, 5, "PM")) == Some(DateTime(2024, 1, 2, 15, 4, 5))
  {
  }

  /** The worked example: the text `Date and Time: 01/02/2024 03:04:05 PM`
      yields a marker stamped 2 January 2024, 15:04:05, since a PM time
      gains twelve hours. */
  lemma DeriveExample(filePath: Path, saveTo: Path)
    ensures Derive(Render(RawStamp(1, 2, 2024, 3, 4, 5, "PM")), filePath, saveTo)
         == Marker(Join(saveTo, "wf_info"), MarkerName(FormatStamp(DateTime(2024, 1, 2, 15, 4, 5)), BaseName(filePath)))
  {
    var raw := RawStamp(1, 2, 2024, 3, 4, 5, "PM");
    ExampleConversion();
    assert Render(raw) + [] == Render(raw);
    DeriveOfRender(raw, [], filePath, saveTo);
  }
}
