/** `extract_file_info` and the per-file decision of `replace_text_in_files`
    (identical in file_monitor/event_processor.py and file_monitor.py). */
module FileInfo {
  import opened Wrappers
  import opened Strings

  /** The three groups of `(\d{8}_\d{6})_([A-Z0-9.]+)_([A-Z0-9]+)_`. */
  datatype FileInfo = FileInfo(datetime: string, compare: string, extract: string)

  predicate IsCompareChar(c: char)
  {
    ('A' <= c <= 'Z') || IsDigit(c) || c == '.'
  }

  predicate IsExtractChar(c: char)
  {
    ('A' <= c <= 'Z') || IsDigit(c)
  }

  /** `\d{8}_\d{6}`. */
  predicate IsStampToken(s: string)
  {
    |s| == 15 && AllDigits(s[..8]) && s[8] == '_' && AllDigits(s[9..])
  }

  predicate AllCompare(s: string)
  {
    forall i :: 0 <= i < |s| ==> IsCompareChar(s[i])
  }

  predicate AllExtract(s: string)
  {
    forall i :: 0 <= i < |s| ==> IsExtractChar(s[i])
  }

  /** Length of the longest prefix of `s` made of compare-tag characters. */
  function CompareSpan(s: string): (n: nat)
    ensures n <= |s| && AllCompare(s[..n])
    ensures n < |s| ==> !IsCompareChar(s[n])
  {
    if s != [] && IsCompareChar(s[0]) then
      var n := 1 + CompareSpan(s[1..]);
      assert s[..n] == [s[0]] + s[1..][..n - 1];
      n
    else 0
  }

  /** Length of the longest prefix of `s` made of extract-tag characters. */
  function ExtractSpan(s: string): (n: nat)
    ensures n <= |s| && AllExtract(s[..n])
    ensures n < |s| ==> !IsExtractChar(s[n])
  {
    if s != [] && IsExtractChar(s[0]) then
      var n := 1 + ExtractSpan(s[1..]);
      assert s[..n] == [s[0]] + s[1..][..n - 1];
      n
    else 0
  }

  /** What `re.match` with the pattern above accepts: the name starts with
      the three groups, each followed by `_`. */
  ghost predicate HasShape(name: string, info: FileInfo)
  {
    && IsStampToken(info.datetime)
    && info.compare != [] && AllCompare(info.compare)
    && info.extract != [] && AllExtract(info.extract)
    && info.datetime + "_" + info.compare + "_" + info.extract + "_" <= name
  }

  /** `extract_file_info(filename)`; `None` stands for `(None, None, None)`.
      The character classes exclude `_`, so each run is the maximal one and
      no backtracking can give another split. */
  function ExtractFileInfo(name: string): (r: Option<FileInfo>)
    ensures r.Some? ==> HasShape(name, r.value)
    ensures r.None? ==> forall info :: !HasShape(name, info)
  {
    if |name| < 16 || !IsStampToken(name[..15]) || name[15] != '_' then
      NoShapeWithoutStamp(name);
      None
    else
      var rest := name[16..];
      var c := CompareSpan(rest);
      if c == 0 || c == |rest| || rest[c] != '_' then
        NoShapeWithoutCompare(name);
        None
      else
        var rest2 := rest[c + 1..];
        var e := ExtractSpan(rest2);
        if e == 0 || e == |rest2| || rest2[e] != '_' then
          NoShapeWithoutExtract(name);
          None
        else
          ShapeOfSpans(name, c, e);
          Some(FileInfo(name[..15], rest[..c], rest2[..e]))
  }

  /** The three runs found by the spans, each followed by `_`, are a match. */
  lemma ShapeOfSpans(name: string, c: nat, e: nat)
    requires |name| >= 16 && IsStampToken(name[..15]) && name[15] == '_'
    requires var rest := name[16..];
      0 < c < |rest| && AllCompare(rest[..c]) && rest[c] == '_'
    requires var rest2 := name[16..][c + 1..];
      0 < e < |rest2| && AllExtract(rest2[..e]) && rest2[e] == '_'
    ensures HasShape(name, FileInfo(name[..15], name[16..][..c], name[16..][c + 1..][..e]))
  {
    var rest := name[16..];
    var rest2 := rest[c + 1..];
    var info := FileInfo(name[..15], rest[..c], rest2[..e]);
    assert rest2[..e + 1] == info.extract + "_";
    assert rest[..c + 1 + e + 1] == info.compare + "_" + (info.extract + "_");
    assert name[..16 + c + 1 + e + 1] == info.datetime + "_" + (info.compare + "_" + (info.extract + "_"));
  }

  lemma ShapePrefix(name: string, info: FileInfo)
    requires HasShape(name, info)
    ensures |name| >= 16 + |info.compare| + 1 + |info.extract| + 1
    ensures name[..15] == info.datetime && name[15] == '_'
    ensures name[16..16 + |info.compare|] == info.compare
    ensures name[16 + |info.compare|] == '_'
    ensures name[17 + |info.compare|..17 + |info.compare| + |info.extract|] == info.extract
    ensures name[17 + |info.compare| + |info.extract|] == '_'
  {
    var p := info.datetime + "_" + info.compare + "_" + info.extract + "_";
    assert name[..|p|] == p;
  }

  lemma NoShapeWithoutStamp(name: string)
    requires |name| < 16 || !IsStampToken(name[..15]) || name[15] != '_'
    ensures forall info :: !HasShape(name, info)
  {
    forall info | HasShape(name, info) ensures false {
      ShapePrefix(name, info);
    }
  }

  lemma NoShapeWithoutCompare(name: string)
    requires |name| >= 16
    requires var c := CompareSpan(name[16..]); c == 0 || c == |name[16..]| || name[16..][c] != '_'
    ensures forall info :: !HasShape(name, info)
  {
    forall info | HasShape(name, info) ensures false {
      ShapePrefix(name, info);
      CompareRunIsMaximal(name[16..], info.compare);
    }
  }

  lemma NoShapeWithoutExtract(name: string)
    requires |name| >= 16
    requires var rest := name[16..]; var c := CompareSpan(rest);
      c > 0 && c < |rest| && rest[c] == '_' &&
      var e := ExtractSpan(rest[c + 1..]); e == 0 || e == |rest[c + 1..]| || rest[c + 1..][e] != '_'
    ensures forall info :: !HasShape(name, info)
  {
    forall info | HasShape(name, info) ensures false {
      RunsOfShape(name, info);
    }
  }

  /** In a name of that shape, the spans find exactly the shape's runs. */
  lemma RunsOfShape(name: string, info: FileInfo)
    requires HasShape(name, info)
    ensures var rest := name[16..]; var c := |info.compare|; var e := |info.extract|;
      && |name| >= 16 && name[..15] == info.datetime && name[15] == '_'
      && CompareSpan(rest) == c && c < |rest| && rest[..c] == info.compare && rest[c] == '_'
      && ExtractSpan(rest[c + 1..]) == e && e < |rest[c + 1..]|
      && rest[c + 1..][..e] == info.extract && rest[c + 1..][e] == '_'
  {
    ShapePrefix(name, info);
    CompareRunOfShape(name, info);
    ExtractRunOfShape(name, info);
  }

  lemma CompareRunOfShape(name: string, info: FileInfo)
    requires HasShape(name, info)
    ensures var rest := name[16..]; var c := |info.compare|;
      c < |rest| && rest[..c] == info.compare && rest[c] == '_' && CompareSpan(rest) == c
  {
    ShapePrefix(name, info);
    var rest := name[16..];
    var c := |info.compare|;
    assert rest[..c] == name[16..16 + c];
    assert rest[c] == name[16 + c];
    CompareRunIsMaximal(rest, info.compare);
  }

  lemma ExtractRunOfShape(name: string, info: FileInfo)
    requires HasShape(name, info)
    ensures var rest2 := name[16..][|info.compare| + 1..]; var e := |info.extract|;
      e < |rest2| && rest2[..e] == info.extract && rest2[e] == '_' && ExtractSpan(rest2) == e
  {
    ShapePrefix(name, info);
    var c := |info.compare|;
    var e := |info.extract|;
    var rest2 := name[16..][c + 1..];
    assert rest2 == name[17 + c..];
    assert rest2[..e] == name[17 + c..17 + c + e];
    assert rest2[e] == name[17 + c + e];
    ExtractRunIsMaximal(rest2, info.extract);
  }

  /** A compare run followed by `_` is exactly the longest compare run. */
  lemma CompareRunIsMaximal(s: string, run: string)
    requires AllCompare(run) && |run| < |s| && s[..|run|] == run && s[|run|] == '_'
    ensures CompareSpan(s) == |run|
  {
    var n := CompareSpan(s);
    if n < |run| {
      assert false;
    } else if n > |run| {
      assert false;
    }
  }

  /** An extract run followed by `_` is exactly the longest extract run. */
  lemma ExtractRunIsMaximal(s: string, run: string)
    requires AllExtract(run) && |run| < |s| && s[..|run|] == run && s[|run|] == '_'
    ensures ExtractSpan(s) == |run|
  {
    var n := ExtractSpan(s);
    if n < |run| {
      assert false;
    } else if n > |run| {
      assert false;
    }
  }

  /** A name has at most one such decomposition, so `ExtractFileInfo`
      returns a triple exactly when the name has that shape. */
  lemma ExtractFileInfoExact(name: string, info: FileInfo)
    ensures ExtractFileInfo(name) == Some(info) <==> HasShape(name, info)
  {
    if HasShape(name, info) {
      RunsOfShape(name, info);
      var rest := name[16..];
      var c := |info.compare|;
      assert ExtractFileInfo(name) == Some(FileInfo(name[..15], rest[..c], rest[c + 1..][..|info.extract|]));
    }
  }

  lemma ExampleStampToken(d: string)
    requires d == "20230825_123456"
    ensures IsStampToken(d)
  {
    assert d[..8] == "20230825";
    assert d[9..] == "123456";
  }

  lemma ExampleName(name: string, d: string, c: string, x: string)
    requires name == "20230825_123456_A12345_B67890_"
    requires d == "20230825_123456" && c == "A12345" && x == "B67890"
    ensures d + "_" + c + "_" + x + "_" <= name
  {
  }

  /** The example in the source's own comment. */
  lemma ExtractFileInfoExample(name: string)
    requires name == "20230825_123456_A12345_B67890_"
    ensures ExtractFileInfo(name) == Some(FileInfo("20230825_123456", "A12345", "B67890"))
  {
    var info := FileInfo("20230825_123456", "A12345", "B67890");
    ExampleStampToken(info.datetime);
    assert AllCompare(info.compare);
    assert AllExtract(info.extract);
    ExampleName(name, info.datetime, info.compare, info.extract);
    assert HasShape(name, info);
    ExtractFileInfoExact(name, info);
  }

  /** The name `replace_text_in_files` gives a file: every `#1` replaced by
      the extract tag, but only when the name holds the datetime, the
      compare tag and `#1`; any other name is kept. */
  function RenamedName(info: FileInfo, name: string): string
  {
    if Contains(name, info.datetime) && Contains(name, info.compare) && Contains(name, "#1")
    then ReplaceAll(name, "#1", info.extract)
    else name
  }

  /** The renaming touches only names holding `#1` and both tags; a renamed
      name has strictly fewer `#` characters, since the extract tag holds none. */
  lemma {:induction false} RenamedNameSpec(info: FileInfo, name: string)
    requires AllExtract(info.extract)
    ensures RenamedName(info, name) != name ==>
      Contains(name, info.datetime) && Contains(name, info.compare) && Contains(name, "#1")
    ensures Contains(name, info.datetime) && Contains(name, info.compare) && Contains(name, "#1") ==>
      Count(RenamedName(info, name), '#') < Count(name, '#')
    ensures !Contains(name, "#1") ==> RenamedName(info, name) == name
  {
    ReplaceAllRemovesLead(name, "#1", info.extract);
  }

  /** A leading part free of `#` (such as `<datetime>_<compare>_`) survives
      the renaming, so a renamed file still carries both tags at its start. */
  lemma RenamedKeepsPrefix(info: FileInfo, p: string, t: string)
    requires '#' !in p
    requires Contains(p + t, info.datetime) && Contains(p + t, info.compare) && Contains(p + t, "#1")
    ensures RenamedName(info, p + t) == p + ReplaceAll(t, "#1", info.extract)
  {
    ReplaceAllKeepsPrefix(p, t, "#1", info.extract);
  }
}
