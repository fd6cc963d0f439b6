/** `upload/wafer_flat_data.py`: parsing a flatness log into rows and the
    handler that processes each file of its folder once. */
module WaferFlat {
  import opened Wrappers
  import opened Strings
  import opened Paths
  import opened CommonName

  // ------------------------------------------------------------ key/values

  /** `key, value = line.split(':', 1)`, both stripped. */
  function KeyOf(line: string): string
    requires ':' in line
  {
    Strip(line[..IndexOf(line, ':').value])
  }

  function ValueOf(line: string): string
    requires ':' in line
  {
    Strip(line[IndexOf(line, ':').value + 1..])
  }

  /** The dictionary the `for line in lines` loop builds: later lines
      overwrite earlier ones with the same key. */
  function KeyValuesOf(lines: seq<string>): map<string, string>
  {
    if lines == [] then map[]
    else
      var data := KeyValuesOf(lines[..|lines| - 1]);
      var line := lines[|lines| - 1];
      if ':' in line then data[KeyOf(line) := ValueOf(line)] else data
  }

  /** `line` is a `key: value` line for key `k`. */
  predicate HasKey(line: string, k: string)
  {
    ':' in line && KeyOf(line) == k
  }

  /** One more line adds its key, if it has one. */
  lemma KeyValuesStep(lines: seq<string>, k: string)
    requires lines != []
    ensures k in KeyValuesOf(lines) <==>
      k in KeyValuesOf(lines[..|lines| - 1]) || HasKey(lines[|lines| - 1], k)
  {
  }

  /** A key is present exactly when some line with a colon has it. */
  lemma {:induction false} KeyValuesKeys(lines: seq<string>, k: string)
    ensures k in KeyValuesOf(lines) <==> exists i :: 0 <= i < |lines| && HasKey(lines[i], k)
  {
    if lines != [] {
      var init := lines[..|lines| - 1];
      KeyValuesKeys(init, k);
      KeyValuesStep(lines, k);
      if k in KeyValuesOf(lines) {
        if k in KeyValuesOf(init) {
          var i :| 0 <= i < |init| && HasKey(init[i], k);
          assert lines[i] == init[i];
        } else {
          assert HasKey(lines[|lines| - 1], k);
        }
      } else {
        forall i | 0 <= i < |lines|
          ensures !HasKey(lines[i], k)
        {
          if i < |init| {
            assert lines[i] == init[i];
          }
        }
      }
    }
  }

  /** The value of a key comes from the last line that has it. */
  lemma {:induction false} KeyValuesLastWins(lines: seq<string>, k: string, i: nat)
    requires i < |lines| && HasKey(lines[i], k)
    requires forall j :: i < j < |lines| ==> !HasKey(lines[j], k)
    ensures k in KeyValuesOf(lines) && KeyValuesOf(lines)[k] == ValueOf(lines[i])
  {
    var init := lines[..|lines| - 1];
    if i < |init| {
      assert init[i] == lines[i];
      forall j | i < j < |init|
        ensures !HasKey(init[j], k)
      {
        assert init[j] == lines[j];
      }
      KeyValuesLastWins(init, k, i);
      assert !HasKey(lines[|lines| - 1], k);
    }
  }

  /** The `for line in lines` loop filling `data`. */
  method ParseKeyValues(lines: seq<string>) returns (data: map<string, string>)
    ensures data == KeyValuesOf(lines)
  {
    data := map[];
    for i := 0 to |lines|
      invariant data == KeyValuesOf(lines[..i])
    {
      var line := lines[i];
      if ':' in line {
        data := data[KeyOf(line) := ValueOf(line)];
      }
      assert lines[..i + 1][..i] == lines[..i];
    }
    assert lines[..|lines|] == lines;
  }

  /** `data.get(key)`. */
  function Get(data: map<string, string>, key: string): Option<string>
  {
    if key in data then Some(data[key]) else None
  }

  // ---------------------------------------------------------- wafer number

  /** A `W` at `i` followed by a digit: where `W(\d+)` can match. */
  predicate WaferMark(s: string, i: int)
  {
    0 <= i && i + 1 < |s| && s[i] == 'W' && IsDigit(s[i + 1])
  }

  /** The leftmost position from `k` on where `W(\d+)` matches. */
  function WaferMarkFrom(s: string, k: nat): (r: Option<nat>)
    requires k <= |s|
    ensures r.Some? ==> k <= r.value && WaferMark(s, r.value)
                        && forall j :: k <= j < r.value ==> !WaferMark(s, j)
    ensures r.None? ==> forall j :: k <= j < |s| ==> !WaferMark(s, j)
    decreases |s| - k
  {
    if k == |s| then None
    else if WaferMark(s, k) then Some(k)
    else WaferMarkFrom(s, k + 1)
  }

  /** `re.search(r'W(\d+)', s).group(1)`: the greedy digit run after the
      leftmost `W` that is followed by a digit. */
  function SearchWafer(s: string): Option<string>
  {
    match WaferMarkFrom(s, 0)
    case None => None
    case Some(i) => Some(s[i + 1..][..DigitRun(s[i + 1..])])
  }

  /** A match is a non-empty, maximal run of digits right after the
      leftmost `W` followed by a digit; there is none exactly when no `W`
      is followed by a digit. */
  lemma SearchWaferSpec(s: string)
    ensures SearchWafer(s).None? <==> forall i :: 0 <= i < |s| ==> !WaferMark(s, i)
    ensures SearchWafer(s).Some? ==>
      var i := WaferMarkFrom(s, 0).value;
      var d := SearchWafer(s).value;
      && WaferMark(s, i) && (forall j :: 0 <= j < i ==> !WaferMark(s, j))
      && d != [] && AllDigits(d) && d <= s[i + 1..]
      && (i + 1 + |d| < |s| ==> !IsDigit(s[i + 1 + |d|]))
  {
    if WaferMarkFrom(s, 0).Some? {
      var i := WaferMarkFrom(s, 0).value;
      var t := s[i + 1..];
      assert t[0] == s[i + 1];
      var n := DigitRun(t);
      if i + 1 + n < |s| {
        assert t[n] == s[i + 1 + n];
      }
    }
  }

  /** `int(re.search(...).group(1)) if wafer_id else None`: an absent or
      empty id gives None; a non-empty id without a match raises. */
  function WaferNumber(id: Option<string>): Attempt<Option<nat>>
  {
    if id.None? || id.value == [] then Returned(None)
    else
      match SearchWafer(id.value)
      case None => Raised
      case Some(d) =>
        SearchWaferDigits(id.value);
        Returned(Some(DigitsValue(d)))
  }

  lemma SearchWaferDigits(s: string)
    ensures SearchWafer(s).Some? ==> AllDigits(SearchWafer(s).value)
  {
    SearchWaferSpec(s);
  }

  /** The number is the value of the digits after the first `W`-digit
      pair; the whole id raises only when it holds no such pair. */
  lemma WaferNumberSpec(id: string)
    requires id != []
    ensures WaferNumber(Some(id)).Raised? <==> forall i :: 0 <= i < |id| ==> !WaferMark(id, i)
    ensures WaferNumber(Some(id)).Returned? ==>
      SearchWafer(id).Some? && AllDigits(SearchWafer(id).value)
      && WaferNumber(Some(id)).value == Some(DigitsValue(SearchWafer(id).value))
  {
    SearchWaferSpec(id);
  }

  // ---------------------------------------------------------------- header

  /** The first line starting with `Point#`. */
  function FirstHeader(lines: seq<string>, k: nat): (r: Option<nat>)
    requires k <= |lines|
    ensures r.Some? ==> k <= r.value < |lines| && "Point#" <= lines[r.value]
                        && forall j :: k <= j < r.value ==> !("Point#" <= lines[j])
    ensures r.None? ==> forall j :: k <= j < |lines| ==> !("Point#" <= lines[j])
    decreases |lines| - k
  {
    if k == |lines| then None
    else if "Point#" <= lines[k] then Some(k)
    else FirstHeader(lines, k + 1)
  }

  /** The `for idx, line in enumerate(lines)` loop with its `break`. */
  method FindHeaderLine(lines: seq<string>) returns (headerIdx: Option<nat>)
    ensures headerIdx == FirstHeader(lines, 0)
  {
    headerIdx := None;
    var idx := 0;
    while idx < |lines|
      invariant 0 <= idx <= |lines|
      invariant FirstHeader(lines, 0) == FirstHeader(lines, idx)
    {
      if "Point#" <= lines[idx] {
        headerIdx := Some(idx);
        break;
      }
      idx := idx + 1;
    }
  }

  /** The unit marker of the thickness columns. */
  const Micron: string := "(" + [0xD0C6 as char] + ")"

  /** `clean_header`: unit markers removed, `(no Cal)` and the die
      coordinates folded into the column name. */
  function CleanHeader(h: string): string
  {
    var h1 := ReplaceAll(h, "(no Cal)", "_noCal");
    var h2 := Strip(ReplaceAll(h1, "(mm)", ""));
    var h3 := Strip(ReplaceAll(h2, Micron, ""));
    ReplaceAll(ReplaceAll(h3, "(Die X)", "DieX"), "(Die Y)", "DieY")
  }

  lemma NoParenKept(s: string, pat: string, rep: string)
    requires pat != [] && pat[0] == '(' && '(' !in s
    ensures ReplaceAll(s, pat, rep) == s
  {
    ReplaceAllKeepsPrefix(s, [], pat, rep);
    assert s + [] == s;
  }

  lemma StripKeepsAbsent(s: string, c: char)
    requires c !in s
    ensures c !in Strip(s)
  {
    StripShape(s);
  }

  /** A header without a parenthesis is only stripped. */
  lemma CleanHeaderPlain(h: string)
    requires '(' !in h
    ensures CleanHeader(h) == Strip(h)
  {
    NoParenKept(h, "(no Cal)", "_noCal");
    NoParenKept(h, "(mm)", "");
    var h2 := Strip(h);
    StripKeepsAbsent(h, '(');
    NoParenKept(h2, Micron, "");
    StripShape(h);
    var h3 := Strip(h2);
    StripKeepsAbsent(h2, '(');
    NoParenKept(h3, "(Die X)", "DieX");
    NoParenKept(h3, "(Die Y)", "DieY");
  }

  /** `T1(no Cal)` becomes `T1_noCal`: a plain name followed by
      `(no Cal)` gets the `_noCal` suffix. */
  lemma CleanHeaderNoCal(stem: string)
    requires '(' !in stem && stem != [] && !IsSpace(stem[0])
    ensures CleanHeader(stem + "(no Cal)") == stem + "_noCal"
  {
    ReplaceAllOnce(stem, "(no Cal)", "_noCal", []);
    assert stem + "(no Cal)" + [] == stem + "(no Cal)";
    var h := stem + "_noCal";
    assert h[|h| - 1] == 'l';
    assert h[0] == stem[0];
    assert '(' !in h;
    PlainHeaderKept(h);
    assert ReplaceAll(stem + "(no Cal)", "(no Cal)", "_noCal") == h;
    assert Strip(ReplaceAll(h, "(mm)", "")) == h;
    assert Strip(ReplaceAll(h, Micron, "")) == h;
  }

  /** `X(mm)` becomes `X`: the millimetre unit is dropped. */
  lemma CleanHeaderMm(stem: string)
    requires '(' !in stem && stem != [] && !IsSpace(stem[0]) && !IsSpace(stem[|stem| - 1])
    ensures CleanHeader(stem + "(mm)") == stem
  {
    MmSurvivesNoCal(stem);
    MmDropped(stem);
    PlainHeaderKept(stem);
  }

  /** The `(no Cal)` step leaves `X(mm)` alone. */
  lemma MmSurvivesNoCal(stem: string)
    requires '(' !in stem
    ensures ReplaceAll(stem + "(mm)", "(no Cal)", "_noCal") == stem + "(mm)"
  {
    var u := "(mm)";
    assert '(' !in u[1..] && u[1] != "(no Cal)"[1];
    UnitAfterStemKept(stem, u, "(no Cal)", "_noCal");
  }

  /** The `(mm)` step removes the unit, and the strip keeps the rest. */
  lemma MmDropped(stem: string)
    requires '(' !in stem && stem != [] && !IsSpace(stem[0]) && !IsSpace(stem[|stem| - 1])
    ensures Strip(ReplaceAll(stem + "(mm)", "(mm)", "")) == stem
  {
    var u := "(mm)";
    ReplaceAllOnce(stem, u, "", []);
    assert stem + u + [] == stem + u;
    assert stem + "" + ReplaceAll([], u, "") == stem;
    TrimStartKeepsNonSpaceStart(stem);
    TrimEndKeepsNonSpaceEnd(stem);
  }

  /** `X(탆)` becomes `X`: the micron unit is dropped. */
  lemma CleanHeaderMicron(stem: string)
    requires '(' !in stem && stem != [] && !IsSpace(stem[0]) && !IsSpace(stem[|stem| - 1])
    ensures CleanHeader(stem + Micron) == stem
  {
    var u := Micron;
    assert u[1..] == [0xD0C6 as char, ')'];
    UnitPassesEarlySteps(stem, u);
    ReplaceAllOnce(stem, u, "", []);
    assert stem + u + [] == stem + u;
    assert stem + "" + ReplaceAll([], u, "") == stem;
    TrimStartKeepsNonSpaceStart(stem);
    TrimEndKeepsNonSpaceEnd(stem);
    PlainHeaderKept(stem);
  }

  /** `X(Die X)` becomes `XDieX`: the die coordinate joins the name. */
  lemma CleanHeaderDieX(stem: string)
    requires '(' !in stem && (stem != [] ==> !IsSpace(stem[0]))
    ensures CleanHeader(stem + "(Die X)") == stem + "DieX"
  {
    var u := "(Die X)";
    assert '(' !in u[1..];
    UnitPassesEarlySteps(stem, u);
    UnitPassesMicron(stem, u);
    ReplaceAllOnce(stem, u, "DieX", []);
    assert stem + u + [] == stem + u;
    assert stem + "DieX" + ReplaceAll([], u, "DieX") == stem + "DieX";
    assert '(' !in stem + "DieX";
    NoParenKept(stem + "DieX", "(Die Y)", "DieY");
  }

  /** `X(Die Y)` becomes `XDieY`. */
  lemma CleanHeaderDieY(stem: string)
    requires '(' !in stem && (stem != [] ==> !IsSpace(stem[0]))
    ensures CleanHeader(stem + "(Die Y)") == stem + "DieY"
  {
    var u := "(Die Y)";
    assert '(' !in u[1..];
    UnitPassesEarlySteps(stem, u);
    UnitPassesMicron(stem, u);
    assert u[5] != "(Die X)"[5];
    UnitAfterStemKept(stem, u, "(Die X)", "DieX");
    ReplaceAllOnce(stem, u, "DieY", []);
    assert stem + u + [] == stem + u;
    assert stem + "DieY" + ReplaceAll([], u, "DieY") == stem + "DieY";
  }

  /** A parenthesised unit that the pattern does not start is kept. */
  lemma UnitAfterStemKept(stem: string, u: string, pat: string, rep: string)
    requires '(' !in stem && u != [] && u[0] == '(' && '(' !in u[1..]
    requires pat != [] && pat[0] == '(' && !(pat <= u)
    ensures ReplaceAll(stem + u, pat, rep) == stem + u
  {
    ReplaceAllKeepsPrefix(stem, u, pat, rep);
    NoParenKept(u[1..], pat, rep);
    assert u == [u[0]] + u[1..];
  }

  /** A unit other than `(no Cal)` and `(mm)` after a plain name survives
      the first two steps, and the strip keeps it. */
  lemma UnitPassesEarlySteps(stem: string, u: string)
    requires '(' !in stem && (stem != [] ==> !IsSpace(stem[0]))
    requires |u| >= 2 && u[0] == '(' && '(' !in u[1..] && u[1] != 'n' && u[1] != 'm'
    requires !IsSpace(u[|u| - 1])
    ensures Strip(ReplaceAll(ReplaceAll(stem + u, "(no Cal)", "_noCal"), "(mm)", "")) == stem + u
  {
    UnitAfterStemKept(stem, u, "(no Cal)", "_noCal");
    UnitAfterStemKept(stem, u, "(mm)", "");
    StripKeepsUnit(stem, u);
  }

  /** A plain name followed by a unit ending in a non-space is its own strip. */
  lemma StripKeepsUnit(stem: string, u: string)
    requires '(' !in stem && (stem != [] ==> !IsSpace(stem[0]))
    requires u != [] && u[0] == '(' && !IsSpace(u[|u| - 1])
    ensures Strip(stem + u) == stem + u
  {
    var h := stem + u;
    assert h[0] == if stem == [] then u[0] else stem[0];
    assert h[|h| - 1] == u[|u| - 1];
    TrimStartKeepsNonSpaceStart(h);
    TrimEndKeepsNonSpaceEnd(h);
  }

  /** A die unit survives the micron step. */
  lemma UnitPassesMicron(stem: string, u: string)
    requires '(' !in stem && (stem != [] ==> !IsSpace(stem[0]))
    requires |u| >= 2 && u[0] == '(' && '(' !in u[1..] && u[1] == 'D' && u[|u| - 1] == ')'
    ensures Strip(ReplaceAll(stem + u, Micron, "")) == stem + u
  {
    assert Micron[1] != 'D';
    UnitAfterStemKept(stem, u, Micron, "");
    StripKeepsUnit(stem, u);
  }

  /** A stripped header without a parenthesis passes every later step. */
  lemma PlainHeaderKept(h: string)
    requires '(' !in h && h != [] && !IsSpace(h[0]) && !IsSpace(h[|h| - 1])
    ensures Strip(ReplaceAll(h, "(mm)", "")) == h
    ensures Strip(ReplaceAll(h, Micron, "")) == h
    ensures ReplaceAll(ReplaceAll(h, "(Die X)", "DieX"), "(Die Y)", "DieY") == h
  {
    NoParenKept(h, "(mm)", "");
    NoParenKept(h, Micron, "");
    NoParenKept(h, "(Die X)", "DieX");
    NoParenKept(h, "(Die Y)", "DieY");
    TrimStartKeepsNonSpaceStart(h);
    TrimEndKeepsNonSpaceEnd(h);
  }

  /** The header cells: split at commas, each stripped and cleaned. */
  function Headers(line: string): (r: seq<string>)
    ensures |r| == |Split(line, ',')|
  {
    var cells := Split(line, ',');
    seq(|cells|, i requires 0 <= i < |cells| => CleanHeader(Strip(cells[i])))
  }

  /** A row's cells: split at commas, each stripped. */
  function Values(line: string): (r: seq<string>)
    ensures |r| == |Split(line, ',')| && |r| >= 1
  {
    var cells := Split(line, ',');
    seq(|cells|, i requires 0 <= i < |cells| => Strip(cells[i]))
  }

  // ------------------------------------------------------------------ rows

  const ExpectedHeader: seq<string> := [
    "Point#", "MSE", "T1", "GOF", "HPL", "X", "Y", "DieX", "DieY", "DieRow", "DieCol", "DieNum",
    "DiePointTag", "Z", "SRVISZ", "T1_noCal", "CU_HT_noCal", "T1_CAL", "x1", "RgnHeight11",
    "RgnHeight16", "RgnHeight17", "RgnBWidth17"]

  /** The measurement columns every row carries. */
  const Columns: seq<string> := ExpectedHeader[2..]

  /** The columns converted with `int`; the others use `float`. */
  const IntColumns: seq<string> := ["DieRow", "DieCol", "DieNum", "DiePointTag"]

  /** `int(...)` and `float(...)` on a cell's text: None where Python raises. */
  datatype Conversions = Conversions(toInt: string -> Option<int>, toReal: string -> Option<real>)

  datatype Cell = Missing | IntCell(i: int) | RealCell(r: real)

  /** The file-level fields repeated in every row. */
  datatype Meta = Meta(
    cassetteRecipe: Option<string>, stageRecipe: Option<string>, stageGroup: Option<string>,
    lotId: Option<string>, waferId: Option<nat>, dateTime: Option<string>, film: Option<string>)

  datatype Row = Row(meta: Meta, point: int, mse: Option<real>, cells: seq<Cell>)

  /** `headers.index(header)`: the first position. */
  function FirstIndex(xs: seq<string>, x: string): (r: Option<nat>)
    ensures r.Some? ==> r.value < |xs| && xs[r.value] == x && x !in xs[..r.value]
    ensures r.None? ==> x !in xs
  {
    if xs == [] then None
    else if xs[0] == x then Some(0)
    else
      match FirstIndex(xs[1..], x)
      case None => None
      case Some(k) =>
        assert xs[..k + 1] == [xs[0]] + xs[1..][..k];
        Some(k + 1)
  }

  /** One measurement column of a row. */
  function CellOf(column: string, headers: seq<string>, values: seq<string>, conv: Conversions): Attempt<Cell>
  {
    match FirstIndex(headers, column)
    case None => Returned(Missing)
    case Some(k) =>
      if k >= |values| || values[k] == [] then Returned(Missing)
      else if column in IntColumns then
        match conv.toInt(values[k])
        case None => Raised
        case Some(n) => Returned(IntCell(n))
      else
        match conv.toReal(values[k])
        case None => Raised
        case Some(x) => Returned(RealCell(x))
  }

  /** The `for header in expected_header[2:]` loop over `columns`. */
  function CellsOf(columns: seq<string>, headers: seq<string>, values: seq<string>, conv: Conversions): Attempt<seq<Cell>>
  {
    if columns == [] then Returned([])
    else
      match CellsOf(columns[..|columns| - 1], headers, values, conv)
      case Raised => Raised
      case Returned(cells) =>
        match CellOf(columns[|columns| - 1], headers, values, conv)
        case Raised => Raised
        case Returned(c) => Returned(cells + [c])
  }

  /** Every column gets a cell, in order; a cell is Missing exactly when
      its header is absent, the row is too short for it or its text is
      empty; and the row raises exactly when some cell's text does not
      convert. */
  lemma {:induction false} CellsOfSpec(columns: seq<string>, headers: seq<string>, values: seq<string>, conv: Conversions)
    ensures CellsOf(columns, headers, values, conv).Raised? <==>
      exists j :: 0 <= j < |columns| && CellOf(columns[j], headers, values, conv).Raised?
    ensures CellsOf(columns, headers, values, conv).Returned? ==>
      var cells := CellsOf(columns, headers, values, conv).value;
      && |cells| == |columns|
      && forall j :: 0 <= j < |columns| ==> Returned(cells[j]) == CellOf(columns[j], headers, values, conv)
  {
    if columns != [] {
      var init := columns[..|columns| - 1];
      CellsOfSpec(init, headers, values, conv);
      forall j | 0 <= j < |init|
        ensures init[j] == columns[j]
      {
      }
    }
  }

  lemma CellOfSpec(column: string, headers: seq<string>, values: seq<string>, conv: Conversions)
    ensures CellOf(column, headers, values, conv) == Returned(Missing) <==>
      column !in headers
      || (var k := FirstIndex(headers, column).value; k >= |values| || values[k] == [])
  {
  }

  /** One data line: `Point` is the first cell (which always exists, so a
      bad value raises), `MSE` the second when present. */
  function RowOf(meta: Meta, headers: seq<string>, line: string, conv: Conversions): Attempt<Row>
  {
    var values := Values(line);
    match conv.toInt(values[0])
    case None => Raised
    case Some(point) =>
      var mse := if |values| > 1 then conv.toReal(values[1]) else None;
      if |values| > 1 && mse.None? then Raised
      else
        match CellsOf(Columns, headers, values, conv)
        case Raised => Raised
        case Returned(cells) => Returned(Row(meta, point, mse, cells))
  }

  /** The `for line in additional_lines` loop. */
  function RowsOf(meta: Meta, headers: seq<string>, lines: seq<string>, conv: Conversions): Attempt<seq<Row>>
  {
    if lines == [] then Returned([])
    else
      match RowsOf(meta, headers, lines[..|lines| - 1], conv)
      case Raised => Raised
      case Returned(rows) =>
        match RowOf(meta, headers, lines[|lines| - 1], conv)
        case Raised => Raised
        case Returned(r) => Returned(rows + [r])
  }

  /** One row per data line, each with the file's fields and one cell per
      measurement column, its point the first cell's value. */
  lemma {:induction false} RowsOfSpec(meta: Meta, headers: seq<string>, lines: seq<string>, conv: Conversions)
    ensures RowsOf(meta, headers, lines, conv).Returned? ==>
      var rows := RowsOf(meta, headers, lines, conv).value;
      && |rows| == |lines|
      && forall i :: 0 <= i < |rows| ==>
           && rows[i].meta == meta && |rows[i].cells| == |Columns|
           && conv.toInt(Values(lines[i])[0]) == Some(rows[i].point)
  {
    if lines != [] {
      var init := lines[..|lines| - 1];
      RowsOfSpec(meta, headers, init, conv);
      var last := lines[|lines| - 1];
      if RowOf(meta, headers, last, conv).Returned? {
        CellsOfSpec(Columns, headers, Values(last), conv);
      }
      forall i | 0 <= i < |init|
        ensures init[i] == lines[i]
      {
      }
    }
  }

  /** The rows loop of `process_file`. */
  method BuildRows(meta: Meta, headers: seq<string>, lines: seq<string>, conv: Conversions)
    returns (rows: Attempt<seq<Row>>)
    ensures rows == RowsOf(meta, headers, lines, conv)
  {
    var acc: seq<Row> := [];
    var i := 0;
    while i < |lines|
      invariant 0 <= i <= |lines|
      invariant RowsOf(meta, headers, lines[..i], conv) == Returned(acc)
    {
      assert lines[..i + 1][..i] == lines[..i];
      var row := RowOf(meta, headers, lines[i], conv);
      if row.Raised? {
        assert lines[..i + 1][i] == lines[i];
        RowsRaisedExtends(meta, headers, lines, conv, i + 1);
        return Raised;
      }
      acc := acc + [row.value];
      i := i + 1;
    }
    assert lines[..i] == lines;
    return Returned(acc);
  }

  /** Once a prefix raises, the whole loop does. */
  lemma {:induction false} RowsRaisedExtends(meta: Meta, headers: seq<string>, lines: seq<string>, conv: Conversions, n: nat)
    requires n <= |lines| && RowsOf(meta, headers, lines[..n], conv).Raised?
    ensures RowsOf(meta, headers, lines, conv).Raised?
    decreases |lines| - n
  {
    if n < |lines| {
      assert lines[..n + 1][..n] == lines[..n];
      RowsRaisedExtends(meta, headers, lines, conv, n + 1);
    } else {
      assert lines[..n] == lines;
    }
  }

  // ------------------------------------------------------------------ file

  /** The lines of the file: the whole text stripped, then split at `\n`. */
  function LinesOf(text: string): seq<string>
  {
    Split(Strip(text), '\n')
  }

  function MetaOf(data: map<string, string>, wafer: Option<nat>): Meta
  {
    Meta(Get(data, "Cassette Recipe Name"), Get(data, "Stage Recipe Name"), Get(data, "Stage Group Name"),
         Get(data, "Lot ID"), wafer, Get(data, "Date and Time"), Get(data, "Film Name"))
  }

  /** `process_file` on the file's text (None where the cp949 read raises):
      the rows to upload, None when there is no header line, Raised when
      something raises. */
  function ProcessFileEffect(text: Option<string>, conv: Conversions): Attempt<Option<seq<Row>>>
  {
    match text
    case None => Raised
    case Some(t) =>
      var lines := LinesOf(t);
      var data := KeyValuesOf(lines);
      match WaferNumber(Get(data, "Wafer ID"))
      case Raised => Raised
      case Returned(wafer) =>
        match FirstHeader(lines, 0)
        case None => Returned(None)
        case Some(h) =>
          match RowsOf(MetaOf(data, wafer), Headers(lines[h]), lines[h + 1..], conv)
          case Raised => Raised
          case Returned(rows) => Returned(Some(rows))
  }

  /** `process_file` follows the steps in order. */
  method ProcessFile(text: Option<string>, conv: Conversions) returns (r: Attempt<Option<seq<Row>>>)
    ensures r == ProcessFileEffect(text, conv)
  {
    if text.None? {
      return Raised;
    }
    var lines := LinesOf(text.value);
    var data := ParseKeyValues(lines);
    var wafer := WaferNumber(Get(data, "Wafer ID"));
    if wafer.Raised? {
      return Raised;
    }
    var headerIdx := FindHeaderLine(lines);
    if headerIdx.None? {
      return Returned(None);
    }
    var h := headerIdx.value;
    var rows := BuildRows(MetaOf(data, wafer.value), Headers(lines[h]), lines[h + 1..], conv);
    if rows.Raised? {
      return Raised;
    }
    return Returned(Some(rows.value));
  }

  /** A file's rows all come from the lines after its first `Point#` line,
      one per line, and all carry the file's own fields. */
  lemma ProcessFileSpec(text: string, conv: Conversions)
    requires ProcessFileEffect(Some(text), conv).Returned?
    ensures var lines := LinesOf(text);
      var r := ProcessFileEffect(Some(text), conv).value;
      && (r.None? <==> forall j :: 0 <= j < |lines| ==> !("Point#" <= lines[j]))
      && (r.Some? ==>
            var h := FirstHeader(lines, 0).value;
            var data := KeyValuesOf(lines);
            && |r.value| == |lines| - h - 1
            && forall i :: 0 <= i < |r.value| ==>
                 r.value[i].meta.lotId == Get(data, "Lot ID") && |r.value[i].cells| == |Columns|)
  {
    var lines := LinesOf(text);
    var data := KeyValuesOf(lines);
    var h := FirstHeader(lines, 0);
    if h.Some? {
      var wafer := WaferNumber(Get(data, "Wafer ID")).value;
      RowsOfSpec(MetaOf(data, wafer), Headers(lines[h.value]), lines[h.value + 1..], conv);
    }
  }

  // --------------------------------------------------------------- handler

  /** One `to_sql` append and the file it came from. */
  datatype Upload = Upload(path: Path, rows: seq<Row>)

  /** Each upload names a processed file, and no file is uploaded twice. */
  predicate AtMostOnce(processed: set<Path>, uploads: seq<Upload>)
  {
    && (forall i :: 0 <= i < |uploads| ==> uploads[i].path in processed)
    && (forall i, j :: 0 <= i < j < |uploads| ==> uploads[i].path != uploads[j].path)
  }

  datatype ScanState = ScanState(processed: set<Path>, uploads: seq<Upload>, removed: seq<Path>)

  /** What `process_file` does to each path: its effect on the text a
      cp949 read yields. */
  function Outcomes(read: Path -> Option<string>, conv: Conversions): Path -> Attempt<Option<seq<Row>>>
  {
    p => ProcessFileEffect(read(p), conv)
  }

  /** `on_modified`: every listed regular file not yet processed goes
      through `process_file` and is then marked; an exception leaves the
      file unmarked and ends the scan. The bool is whether it ended so. */
  function Scan(s: ScanState, folder: Path, names: seq<string>, isFile: Path -> bool,
                outcome: Path -> Attempt<Option<seq<Row>>>): (ScanState, bool)
    decreases |names|
  {
    if names == [] then (s, false)
    else
      var p := Join(folder, names[0]);
      if !isFile(p) || p in s.processed then Scan(s, folder, names[1..], isFile, outcome)
      else
        match outcome(p)
        case Raised => (s, true)
        case Returned(None) => Scan(s.(processed := s.processed + {p}), folder, names[1..], isFile, outcome)
        case Returned(Some(rows)) =>
          Scan(ScanState(s.processed + {p}, s.uploads + [Upload(p, rows)], s.removed + [p]),
               folder, names[1..], isFile, outcome)
  }

  /** The scan keeps the at-most-once invariant, never forgets a processed
      file, and removes exactly the files it uploads. */
  lemma {:induction false} ScanKeepsAtMostOnce(s: ScanState, folder: Path, names: seq<string>, isFile: Path -> bool,
                                 outcome: Path -> Attempt<Option<seq<Row>>>)
    requires AtMostOnce(s.processed, s.uploads)
    requires |s.removed| == |s.uploads| && forall i :: 0 <= i < |s.uploads| ==> s.removed[i] == s.uploads[i].path
    ensures var r := Scan(s, folder, names, isFile, outcome).0;
      && AtMostOnce(r.processed, r.uploads)
      && s.processed <= r.processed && s.uploads <= r.uploads
      && |r.removed| == |r.uploads| && forall i :: 0 <= i < |r.uploads| ==> r.removed[i] == r.uploads[i].path
    decreases |names|
  {
    if names != [] {
      var p := Join(folder, names[0]);
      if !isFile(p) || p in s.processed {
        ScanKeepsAtMostOnce(s, folder, names[1..], isFile, outcome);
      } else {
        match outcome(p)
        case Raised =>
        case Returned(None) =>
          ScanKeepsAtMostOnce(s.(processed := s.processed + {p}), folder, names[1..], isFile, outcome);
        case Returned(Some(rows)) =>
          var s' := ScanState(s.processed + {p}, s.uploads + [Upload(p, rows)], s.removed + [p]);
          ScanKeepsAtMostOnce(s', folder, names[1..], isFile, outcome);
      }
    }
  }

  /** A file already processed is never uploaded again by a later scan. */
  lemma {:induction false} ScanSkipsProcessed(s: ScanState, folder: Path, names: seq<string>, isFile: Path -> bool,
                                 outcome: Path -> Attempt<Option<seq<Row>>>, p: Path)
    requires p in s.processed
    ensures var r := Scan(s, folder, names, isFile, outcome).0;
      forall i :: |s.uploads| <= i < |r.uploads| ==> r.uploads[i].path != p
    decreases |names|
  {
    if names != [] {
      var q := Join(folder, names[0]);
      if !isFile(q) || q in s.processed {
        assert Scan(s, folder, names, isFile, outcome) == Scan(s, folder, names[1..], isFile, outcome);
        ScanSkipsProcessed(s, folder, names[1..], isFile, outcome, p);
        var r1 := Scan(s, folder, names[1..], isFile, outcome).0;
        assert forall i :: |s.uploads| <= i < |r1.uploads| ==> r1.uploads[i].path != p;
        var r := Scan(s, folder, names, isFile, outcome).0;
        assert r == r1;
      } else {
        match outcome(q)
        case Raised =>
        case Returned(None) =>
          var s' := s.(processed := s.processed + {q});
          assert Scan(s, folder, names, isFile, outcome) == Scan(s', folder, names[1..], isFile, outcome);
          ScanSkipsProcessed(s', folder, names[1..], isFile, outcome, p);
          var r1 := Scan(s', folder, names[1..], isFile, outcome).0;
          assert forall i :: |s.uploads| <= i < |r1.uploads| ==> r1.uploads[i].path != p;
          assert Scan(s, folder, names, isFile, outcome).0 == r1;
        case Returned(Some(rows)) =>
          var s' := ScanState(s.processed + {q}, s.uploads + [Upload(q, rows)], s.removed + [q]);
          assert Scan(s, folder, names, isFile, outcome) == Scan(s', folder, names[1..], isFile, outcome);
          ScanSkipsProcessed(s', folder, names[1..], isFile, outcome, p);
          ScanPrefix(s', folder, names[1..], isFile, outcome);
      }
    }
  }

  lemma {:induction false} ScanPrefix(s: ScanState, folder: Path, names: seq<string>, isFile: Path -> bool,
                                 outcome: Path -> Attempt<Option<seq<Row>>>)
    ensures s.uploads <= Scan(s, folder, names, isFile, outcome).0.uploads
    decreases |names|
  {
    if names != [] {
      var p := Join(folder, names[0]);
      if !isFile(p) || p in s.processed {
        ScanPrefix(s, folder, names[1..], isFile, outcome);
      } else {
        match outcome(p)
        case Raised =>
        case Returned(None) =>
          ScanPrefix(s.(processed := s.processed + {p}), folder, names[1..], isFile, outcome);
        case Returned(Some(rows)) =>
          ScanPrefix(ScanState(s.processed + {p}, s.uploads + [Upload(p, rows)], s.removed + [p]),
                     folder, names[1..], isFile, outcome);
      }
    }
  }

  /** `WaferFlatHandler`: the tracked folder and the set of files already
      handled; the uploads and removals are what the database and the
      folder receive. */
  class WaferFlatHandler {
    const folder: Path
    var processed: set<Path>
    var uploads: seq<Upload>
    var removed: seq<Path>

    constructor (folder: Path)
      ensures this.folder == folder && processed == {} && uploads == [] && removed == []
    {
      this.folder := folder;
      processed := {};
      uploads := [];
      removed := [];
    }

    function State(): ScanState
      reads this
    {
      ScanState(processed, uploads, removed)
    }

    /** `on_modified`, given the folder's listing, which paths are regular
        files and what reading each yields. */
    method OnModified(names: seq<string>, isFile: Path -> bool, read: Path -> Option<string>, conv: Conversions)
      returns (raised: bool)
      modifies this
      ensures (State(), raised) == Scan(old(State()), folder, names, isFile, Outcomes(read, conv))
    {
      raised := false;
      var i := 0;
      while i < |names|
        invariant 0 <= i <= |names|
        invariant Scan(State(), folder, names[i..], isFile, Outcomes(read, conv)) == Scan(old(State()), folder, names, isFile, Outcomes(read, conv))
      {
        assert names[i..][1..] == names[i + 1..];
        var p := Join(folder, names[i]);
        if isFile(p) && p !in processed {
          var r := ProcessFile(read(p), conv);
          assert r == Outcomes(read, conv)(p);
          if r.Raised? {
            return true;
          }
          if r.value.Some? {
            uploads := uploads + [Upload(p, r.value.value)];
            removed := removed + [p];
          }
          processed := processed + {p};
        }
        i := i + 1;
      }
    }
  }
}
