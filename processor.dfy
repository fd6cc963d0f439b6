/** `event_processor` of the current revision: it takes each queued tuple
    and copies, logs, writes a marker or builds an image PDF, with one
    exception boundary per tuple. */
module Processor {
  import opened Wrappers
  import opened Strings
  import opened Paths
  import opened Events
  import opened Timestamp
  import opened CommonName
  import opened Workspace
  import opened Handlers

  /** One entry of `regex_folders`, in dictionary order. */
  datatype Rule = Rule(pattern: string, subfolder: Path)

  datatype Encoding = Cp949 | Utf8 | Latin1

  /** The order in which `create_file_based_on_datetime` tries encodings. */
  const Encodings: seq<Encoding> := [Cp949, Utf8, Latin1]

  /** The consumer's arguments, and the outside behaviour it relies on:
      `normalize_path`, `re.search` on user patterns, reading a file in an
      encoding (None where `open`/`read` raises), whether `shutil.copy2`
      succeeds, and the directories `os.walk` visits from a folder. */
  datatype Config = Config(
    destFolder: Path,
    rules: seq<Rule>,
    saveToFolder: Path,
    norm: Path -> Path,
    search: (string, string) -> bool,
    read: (Path, Encoding) -> Option<string>,
    copyOk: (Path, Path) -> bool,
    walk: Path -> seq<Path>)

  /** `event_type` as the log receives it. */
  function TagName(t: Tag): string
  {
    match t
    case Created => "created"
    case Modified => "modified"
    case Deleted => "deleted"
    case Moved => "moved"
    case BaseDateCreated => "base_date_created"
    case BaseDateModified => "base_date_modified"
    case WfInfoCreated => "wf_info_created"
    case WfInfoModified => "wf_info_modified"
  }

  function ItemTag(item: Item): Tag
  {
    match item
    case Plain(t, _) => t
    case Move(_, _) => Moved
    case Trigger(t, _, _, _) => t
    case TriggerWithSave(t, _, _, _, _) => t
  }

  function ItemPath(item: Item): Path
  {
    match item
    case Plain(_, p) => p
    case Move(s, _) => s
    case Trigger(_, p, _, _) => p
    case TriggerWithSave(_, p, _, _, _) => p
  }

  /** `extra[0]`, `extra[1]` when present, and `extra[2]` defaulting to
      `save_to_folder`. */
  datatype Extras = Extras(first: Option<Path>, wait: Option<int>, saveFolder: Path)

  function ExtrasOf(item: Item, saveToFolder: Path): Extras
  {
    match item
    case Plain(_, _) => Extras(None, None, saveToFolder)
    case Move(_, d) => Extras(Some(d), None, saveToFolder)
    case Trigger(_, _, f, w) => Extras(Some(f), Some(w), saveToFolder)
    case TriggerWithSave(_, _, f, w, s) => Extras(Some(f), Some(w), s)
  }

  /** `target_image_folder and wait_time and image_save_folder`. */
  predicate Gate(x: Extras)
  {
    x.first.Some? && x.first.value != [] && x.wait.Some? && x.wait.value != 0 && x.saveFolder != []
  }

  // ---------------------------------------------------------------- routing

  /** Index of the first rule whose pattern is found in `name`, from `k` on. */
  function FirstMatchFrom(rules: seq<Rule>, search: (string, string) -> bool, name: string, k: nat): (r: Option<nat>)
    requires k <= |rules|
    ensures r.Some? ==> k <= r.value < |rules| && search(rules[r.value].pattern, name)
                        && forall j :: k <= j < r.value ==> !search(rules[j].pattern, name)
    ensures r.None? ==> forall j :: k <= j < |rules| ==> !search(rules[j].pattern, name)
    decreases |rules| - k
  {
    if k == |rules| then None
    else if search(rules[k].pattern, name) then Some(k)
    else FirstMatchFrom(rules, search, name, k + 1)
  }

  function FirstMatch(cfg: Config, name: string): Option<nat>
  {
    FirstMatchFrom(cfg.rules, cfg.search, name, 0)
  }

  /** `normalize_path(os.path.join(dest_folder, subfolder, basename))`. */
  function CopyDest(cfg: Config, rule: Rule, src: Path): Path
  {
    cfg.norm(Join(Join(cfg.destFolder, rule.subfolder), BaseName(src)))
  }

  /** A created or modified tuple: copy into the first matching rule's
      folder (unless it is the file itself), or log it without a destination. */
  function RouteEffect(w: World, cfg: Config, kind: string, src: Path): World
  {
    match FirstMatch(cfg, BaseName(src))
    case None => w.(log := w.log + [LogEntry(kind, Some(src), None)])
    case Some(i) =>
      var dest := CopyDest(cfg, cfg.rules[i], src);
      var w1 := w.(dirs := MakeDirs(w.dirs, DirName(dest)));
      if cfg.norm(src) != cfg.norm(dest) && cfg.copyOk(src, dest)
      then w1.(dirs := WithFile(w1.dirs, DirName(dest), BaseName(dest)),
               log := w1.log + [LogEntry(kind, Some(src), Some(dest))])
      else w1
  }

  /** The first rule whose pattern is found wins; later rules are not
      consulted, and the file is copied only when it is not its own
      destination. */
  lemma RouteFirstMatchWins(w: World, cfg: Config, kind: string, src: Path, i: nat)
    requires i < |cfg.rules| && cfg.search(cfg.rules[i].pattern, BaseName(src))
    requires forall j :: 0 <= j < i ==> !cfg.search(cfg.rules[j].pattern, BaseName(src))
    ensures var dest := CopyDest(cfg, cfg.rules[i], src);
      && (cfg.norm(src) == cfg.norm(dest) ==>
            RouteEffect(w, cfg, kind, src) == w.(dirs := MakeDirs(w.dirs, DirName(dest))))
      && (cfg.norm(src) != cfg.norm(dest) && cfg.copyOk(src, dest) ==>
            RouteEffect(w, cfg, kind, src).log == w.log + [LogEntry(kind, Some(src), Some(dest))]
            && BaseName(dest) in Listing(RouteEffect(w, cfg, kind, src).dirs, DirName(dest)))
  {
    var r := FirstMatch(cfg, BaseName(src));
    assert r == Some(i) by {
      if r.Some? && r.value != i {
        assert false;
      }
    }
  }

  /** With no rule matching, the event is logged without a destination and
      nothing is copied. */
  lemma RouteNoMatch(w: World, cfg: Config, kind: string, src: Path)
    requires forall j :: 0 <= j < |cfg.rules| ==> !cfg.search(cfg.rules[j].pattern, BaseName(src))
    ensures RouteEffect(w, cfg, kind, src) == w.(log := w.log + [LogEntry(kind, Some(src), None)])
  {
  }

  // --------------------------------------------------------------- decoding

  /** The first encoding in `encs` that reads the file. */
  function FirstDecoded(read: (Path, Encoding) -> Option<string>, path: Path, encs: seq<Encoding>): Option<string>
  {
    if encs == [] then None
    else if read(path, encs[0]).Some? then read(path, encs[0])
    else FirstDecoded(read, path, encs[1..])
  }

  /** The content comes from the first encoding that works; there is none
      exactly when all three fail. */
  lemma FirstDecodedSpec(read: (Path, Encoding) -> Option<string>, path: Path)
    ensures var c := FirstDecoded(read, path, Encodings);
      && (read(path, Cp949).Some? ==> c == read(path, Cp949))
      && (read(path, Cp949).None? && read(path, Utf8).Some? ==> c == read(path, Utf8))
      && (read(path, Cp949).None? && read(path, Utf8).None? ==> c == read(path, Latin1))
      && (c.None? <==> forall e :: e in Encodings ==> read(path, e).None?)
  {
    assert Encodings[1..] == [Utf8, Latin1];
    assert Encodings[1..][1..] == [Latin1];
    assert Encodings[1..][1..][1..] == [];
    assert FirstDecoded(read, path, []) == None;
    assert FirstDecoded(read, path, [Latin1]) == read(path, Latin1);
  }

  /** The `for encoding in encodings` loop, stopping at the first success. */
  method ReadFirstDecodable(read: (Path, Encoding) -> Option<string>, path: Path) returns (content: Option<string>)
    ensures content == FirstDecoded(read, path, Encodings)
  {
    content := None;
    var i := 0;
    while i < |Encodings|
      invariant 0 <= i <= |Encodings|
      invariant FirstDecoded(read, path, Encodings) == FirstDecoded(read, path, Encodings[i..])
    {
      var r := read(path, Encodings[i]);
      if r.Some? {
        content := r;
        break;
      }
      assert Encodings[i..][1..] == Encodings[i + 1..];
      i := i + 1;
    }
  }

  // ----------------------------------------------------------------- marker

  datatype Outcome = Outcome(world: World, created: bool)

  /** `create_file_based_on_datetime` (current revision): False when no
      encoding reads the file or nothing matches; a `strptime` failure is
      not caught and propagates. */
  function CreateMarkerEffect(w: World, cfg: Config, path: Path): Attempt<Outcome>
  {
    match FirstDecoded(cfg.read, path, Encodings)
    case None => Returned(Outcome(w, false))
    case Some(content) =>
      match Derive(content, path, cfg.saveToFolder)
      case NoStamp => Returned(Outcome(w, false))
      case BadStamp => Raised
      case Marker(dir, name) =>
        Returned(Outcome(w.(dirs := WithFile(MakeDirs(w.dirs, dir), dir, name),
                            log := w.log + [LogEntry("File Created", Some(Join(dir, name)), None)]), true))
  }

  /** A marker is created exactly when some encoding reads the file and its
      first `Date and Time:` converts; then the marker file exists in
      `<save_to_folder>/wf_info` and is logged. With no match nothing changes. */
  lemma CreateMarkerSpec(w: World, cfg: Config, path: Path)
    ensures var r := CreateMarkerEffect(w, cfg, path);
      var c := FirstDecoded(cfg.read, path, Encodings);
      && (r == Returned(Outcome(w, false)) <==>
            c.None? || Derive(c.value, path, cfg.saveToFolder).NoStamp?)
      && (r.Raised? <==> c.Some? && Derive(c.value, path, cfg.saveToFolder).BadStamp?)
      && (r.Returned? && r.value.created ==>
            var m := Derive(c.value, path, cfg.saveToFolder);
            && m.Marker? && m.dir == Join(cfg.saveToFolder, "wf_info")
            && m.name in Listing(r.value.world.dirs, m.dir)
            && r.value.world.log == w.log + [LogEntry("File Created", Some(Join(m.dir, m.name)), None)])
  {
    var c := FirstDecoded(cfg.read, path, Encodings);
    if c.Some? {
      var m := Derive(c.value, path, cfg.saveToFolder);
      if m.Marker? {
        WithFileSpec(MakeDirs(w.dirs, m.dir), m.dir, m.name, m.dir);
      }
    }
  }

  // ----------------------------------------------------------------- images

  /** `filename.split('_')[:2]`, unpacked into two names: fails when the
      name has no `_`. */
  function ImageTokens(name: string): Option<(string, string)>
  {
    var pieces := Split(name, '_');
    if |pieces| >= 2 then Some((pieces[0], pieces[1])) else None
  }

  lemma {:induction false} SplitLength(s: string, c: char)
    ensures |Split(s, c)| == Count(s, c) + 1
    decreases |s|
  {
    if s != [] {
      SplitLength(s[1..], c);
      assert s == [s[0]] + s[1..];
      CountConcat([s[0]], s[1..], c);
    }
  }

  lemma {:induction false} CountPresent(s: string, c: char)
    requires c in s
    ensures Count(s, c) >= 1
    decreases |s|
  {
    if s[0] != c {
      CountPresent(s[1..], c);
    }
  }

  lemma {:induction false} SplitPieces(s: string, c: char)
    ensures forall i :: 0 <= i < |Split(s, c)| ==> c !in Split(s, c)[i]
    decreases |s|
  {
    if s != [] {
      SplitPieces(s[1..], c);
    }
  }

  /** The tokens are the first two `_`-separated fields: the name starts
      with `token1_token2`, neither holds `_`; unpacking fails exactly when
      the name has no `_`. */
  lemma ImageTokensSpec(name: string)
    ensures ImageTokens(name).None? <==> '_' !in name
    ensures ImageTokens(name).Some? ==>
      var (a, b) := ImageTokens(name).value;
      '_' !in a && '_' !in b && a + "_" + b <= name
  {
    var pieces := Split(name, '_');
    SplitLength(name, '_');
    if '_' !in name {
      CountAbsent(name, '_');
    } else {
      CountPresent(name, '_');
    }
    SplitPieces(name, '_');
    SplitJoin(name, '_');
    if |pieces| >= 2 {
      JoinWithHead(pieces, '_');
    }
  }

  lemma {:induction false} JoinWithHead(pieces: seq<string>, c: char)
    requires |pieces| >= 2
    ensures pieces[0] + [c] + pieces[1] <= JoinWith(pieces, c)
  {
    var rest := JoinWith(pieces[1..], c);
    if |pieces| > 2 {
      assert rest == pieces[1] + [c] + JoinWith(pieces[2..], c) by {
        assert pieces[1..][1..] == pieces[2..];
      }
    }
    assert pieces[1] <= rest;
    assert JoinWith(pieces, c) == pieces[0] + [c] + rest;
  }

  /** `specific_pattern in file and datetime_str in file`. */
  predicate Wanted(name: Name, t1: string, t2: string)
  {
    Contains(name, t2) && Contains(name, t1)
  }

  /** The wanted files of one directory, as joined paths, in listing order. */
  function MatchesIn(root: Path, names: seq<Name>, t1: string, t2: string): seq<Path>
  {
    if names == [] then []
    else
      MatchesIn(root, names[..|names| - 1], t1, t2)
      + (if Wanted(names[|names| - 1], t1, t2) then [Join(root, names[|names| - 1])] else [])
  }

  /** `matching_images` over every directory `os.walk` visits. */
  function MatchingImages(dirs: map<Path, seq<Name>>, roots: seq<Path>, t1: string, t2: string): seq<Path>
  {
    if roots == [] then []
    else MatchingImages(dirs, roots[..|roots| - 1], t1, t2)
         + MatchesIn(roots[|roots| - 1], Listing(dirs, roots[|roots| - 1]), t1, t2)
  }

  lemma {:induction false} MatchesInSpec(root: Path, names: seq<Name>, t1: string, t2: string, p: Path)
    ensures p in MatchesIn(root, names, t1, t2) <==> exists n :: n in names && Wanted(n, t1, t2) && p == Join(root, n)
  {
    if names != [] {
      var init := names[..|names| - 1];
      MatchesInSpec(root, init, t1, t2, p);
      assert names == init + [names[|names| - 1]];
    }
  }

  /** The batch holds exactly the joined paths of the files, in the visited
      directories, whose names contain both tokens. */
  lemma {:induction false} MatchingImagesSpec(dirs: map<Path, seq<Name>>, roots: seq<Path>, t1: string, t2: string, p: Path)
    ensures p in MatchingImages(dirs, roots, t1, t2) <==>
      exists r, n :: r in roots && n in Listing(dirs, r) && Wanted(n, t1, t2) && p == Join(r, n)
  {
    if roots != [] {
      var init := roots[..|roots| - 1];
      var last := roots[|roots| - 1];
      MatchingImagesSpec(dirs, init, t1, t2, p);
      MatchesInSpec(last, Listing(dirs, last), t1, t2, p);
      assert roots == init + [last];
    }
  }

  /** The two nested `for` loops that fill `matching_images`. */
  method CollectMatching(dirs: map<Path, seq<Name>>, roots: seq<Path>, t1: string, t2: string)
    returns (batch: seq<Path>)
    ensures batch == MatchingImages(dirs, roots, t1, t2)
  {
    batch := [];
    var i := 0;
    while i < |roots|
      invariant 0 <= i <= |roots|
      invariant batch == MatchingImages(dirs, roots[..i], t1, t2)
    {
      var found := CollectIn(roots[i], Listing(dirs, roots[i]), t1, t2);
      batch := batch + found;
      assert roots[..i + 1][..i] == roots[..i];
      i := i + 1;
    }
    assert roots[..i] == roots;
  }

  /** The inner loop over one directory's files. */
  method CollectIn(root: Path, files: seq<Name>, t1: string, t2: string) returns (found: seq<Path>)
    ensures found == MatchesIn(root, files, t1, t2)
  {
    found := [];
    var j := 0;
    while j < |files|
      invariant 0 <= j <= |files|
      invariant found == MatchesIn(root, files[..j], t1, t2)
    {
      var file := files[j];
      if Contains(file, t2) && Contains(file, t1) {
        found := found + [Join(root, file)];
      }
      assert files[..j + 1][..j] == files[..j];
      j := j + 1;
    }
    assert files[..j] == files;
  }

  /** `process_images` (current revision): the unpack of the name fails
      without a `_`, `time.sleep` refuses a negative wait; an empty batch
      writes nothing, otherwise one PDF named by `extract_common_name`. */
  function ProcessImagesEffect(w: World, cfg: Config, src: Path, folder: Path, wait: int, saveFolder: Path): Attempt<World>
  {
    match ImageTokens(BaseName(src))
    case None => Raised
    case Some((t1, t2)) =>
      if wait < 0 then Raised
      else
        var batch := MatchingImages(w.dirs, cfg.walk(folder), t1, t2);
        if batch == [] then Returned(w)
        else
          var base := ExtractCommonName(batch);
          Returned(w.(dirs := WithFile(MakeDirs(w.dirs, saveFolder), saveFolder, base + ".pdf"),
                      pdfs := w.pdfs + [Pdf(saveFolder, base, batch)]))
  }

  /** A PDF is written exactly when the batch is non-empty; its pages are
      the batch and its name is a prefix of the first page's file name. */
  lemma ProcessImagesSpec(w: World, cfg: Config, src: Path, folder: Path, wait: int, saveFolder: Path)
    requires ImageTokens(BaseName(src)).Some? && wait >= 0
    ensures var (t1, t2) := ImageTokens(BaseName(src)).value;
      var batch := MatchingImages(w.dirs, cfg.walk(folder), t1, t2);
      var r := ProcessImagesEffect(w, cfg, src, folder, wait, saveFolder);
      && r.Returned?
      && (batch == [] ==> r.value == w)
      && (batch != [] ==> r.value.pdfs == w.pdfs + [Pdf(saveFolder, ExtractCommonName(batch), batch)]
                          && ExtractCommonName(batch) <= BaseName(batch[0]))
  {
    var (t1, t2) := ImageTokens(BaseName(src)).value;
    ExtractCommonNameSpec(MatchingImages(w.dirs, cfg.walk(folder), t1, t2));
  }

  /** What survives an exception: the state reached before it. */
  function Settle(before: World, r: Attempt<World>): World
  {
    match r
    case Raised => before
    case Returned(w) => w
  }

  // --------------------------------------------------------------- dispatch

  /** One tuple, inside its `try`/`except`. */
  function Step(w: World, cfg: Config, item: Item): World
  {
    var src := ItemPath(item);
    var x := ExtrasOf(item, cfg.saveToFolder);
    match ItemTag(item)
    case Created => RouteEffect(w, cfg, "created", src)
    case Modified => RouteEffect(w, cfg, "modified", src)
    case Deleted => w.(log := w.log + [LogEntry("deleted", Some(src), None)])
    case Moved => w.(log := w.log + [LogEntry("moved", Some(src), x.first)])
    case BaseDateCreated => BaseDateEffect(w, cfg, src, x)
    case BaseDateModified => BaseDateEffect(w, cfg, src, x)
    case WfInfoCreated => WfInfoEffect(w, cfg, src, x)
    case WfInfoModified => WfInfoEffect(w, cfg, src, x)
  }

  /** The marker is always attempted; the images follow only when the
      marker step did not raise and the gate holds. */
  function BaseDateEffect(w: World, cfg: Config, src: Path, x: Extras): World
  {
    match CreateMarkerEffect(w, cfg, src)
    case Raised => w
    case Returned(o) =>
      if Gate(x) then Settle(o.world, ProcessImagesEffect(o.world, cfg, src, x.first.value, x.wait.value, x.saveFolder))
      else o.world
  }

  function WfInfoEffect(w: World, cfg: Config, src: Path, x: Extras): World
  {
    if Gate(x) then Settle(w, ProcessImagesEffect(w, cfg, src, x.first.value, x.wait.value, x.saveFolder))
    else w
  }

  /** The consumer applied to a queue, tuple by tuple. */
  function Run(w: World, cfg: Config, items: seq<Item>): World
    decreases |items|
  {
    if items == [] then w else Run(Step(w, cfg, items[0]), cfg, items[1..])
  }

  /** Tuples are handled one after another and independently: handling a
      queue in two parts is handling the whole. */
  lemma {:induction false} RunConcat(w: World, cfg: Config, a: seq<Item>, b: seq<Item>)
    ensures Run(w, cfg, a + b) == Run(Run(w, cfg, a), cfg, b)
    decreases |a|
  {
    if a != [] {
      assert (a + b)[0] == a[0];
      assert (a + b)[1..] == a[1..] + b;
      RunConcat(Step(w, cfg, a[0]), cfg, a[1..], b);
    } else {
      assert a + b == b;
    }
  }

  /** Deleted and moved tuples are only logged. */
  lemma DeletedAndMovedOnlyLog(w: World, cfg: Config, p: Path, s: Path, d: Path)
    ensures Step(w, cfg, Plain(Deleted, p)) == w.(log := w.log + [LogEntry("deleted", Some(p), None)])
    ensures Step(w, cfg, Move(s, d)) == w.(log := w.log + [LogEntry("moved", Some(s), Some(d))])
  {
  }

  /** The wf_info handler queues two-element tuples, so the image gate
      (which needs a folder and a wait time) never opens for them: they
      change nothing. */
  lemma WfInfoTuplesAreInert(w: World, cfg: Config, p: Path)
    ensures Step(w, cfg, Plain(WfInfoCreated, p)) == w
    ensures Step(w, cfg, Plain(WfInfoModified, p)) == w
  {
  }

  /** A base-date tuple from the handler uses `save_to_folder` for the PDF;
      a `strptime` failure skips the images, and a zero wait or an empty
      image folder keeps them closed. */
  lemma BaseDateGate(w: World, cfg: Config, t: Tag, p: Path, folder: Path, wait: int)
    requires t == BaseDateCreated || t == BaseDateModified
    ensures var x := ExtrasOf(Trigger(t, p, folder, wait), cfg.saveToFolder);
      && x.saveFolder == cfg.saveToFolder
      && (Gate(x) <==> folder != [] && wait != 0 && cfg.saveToFolder != [])
    ensures CreateMarkerEffect(w, cfg, p).Raised? ==> Step(w, cfg, Trigger(t, p, folder, wait)) == w
    ensures (folder == [] || wait == 0) && CreateMarkerEffect(w, cfg, p).Returned? ==>
      Step(w, cfg, Trigger(t, p, folder, wait)) == CreateMarkerEffect(w, cfg, p).value.world
  {
  }

  /** `event_processor`'s loop, run until the queue is empty. */
  method EventProcessor(hub: Hub, ws: Workspace, cfg: Config)
    modifies hub, ws
    ensures hub.queue == [] && hub.processed == old(hub.processed)
    ensures ws.State() == Run(old(ws.State()), cfg, old(hub.queue))
  {
    while hub.queue != []
      invariant hub.processed == old(hub.processed)
      invariant Run(ws.State(), cfg, hub.queue) == Run(old(ws.State()), cfg, old(hub.queue))
      decreases |hub.queue|
    {
      var next := hub.Take();
      ProcessItem(ws, cfg, next.value);
    }
  }

  /** The body of the loop for one tuple. */
  method ProcessItem(ws: Workspace, cfg: Config, item: Item)
    modifies ws
    ensures ws.State() == Step(old(ws.State()), cfg, item)
  {
    var src := ItemPath(item);
    var x := ExtrasOf(item, cfg.saveToFolder);
    match ItemTag(item)
    case Created =>
      Route(ws, cfg, "created", src);
    case Modified =>
      Route(ws, cfg, "modified", src);
    case Deleted =>
      ws.Log("deleted", Some(src), None);
    case Moved =>
      ws.Log("moved", Some(src), x.first);
    case BaseDateCreated =>
      BaseDate(ws, cfg, src, x);
    case BaseDateModified =>
      BaseDate(ws, cfg, src, x);
    case WfInfoCreated =>
      if Gate(x) {
        var _ := ProcessImages(ws, cfg, src, x.first.value, x.wait.value, x.saveFolder);
      }
    case WfInfoModified =>
      if Gate(x) {
        var _ := ProcessImages(ws, cfg, src, x.first.value, x.wait.value, x.saveFolder);
      }
  }

  method BaseDate(ws: Workspace, cfg: Config, src: Path, x: Extras)
    modifies ws
    ensures ws.State() == BaseDateEffect(old(ws.State()), cfg, src, x)
  {
    var r := CreateFileBasedOnDatetime(ws, cfg, src);
    if r.Returned? && Gate(x) {
      var _ := ProcessImages(ws, cfg, src, x.first.value, x.wait.value, x.saveFolder);
    }
  }

  /** The `for pattern, subfolder in regex_folders.items()` loop with its
      `matched` flag. */
  method Route(ws: Workspace, cfg: Config, kind: string, src: Path)
    modifies ws
    ensures ws.State() == RouteEffect(old(ws.State()), cfg, kind, src)
  {
    var name := BaseName(src);
    var matched := false;
    var i := 0;
    while i < |cfg.rules|
      invariant 0 <= i <= |cfg.rules|
      invariant FirstMatch(cfg, name) == FirstMatchFrom(cfg.rules, cfg.search, name, i)
      invariant ws.State() == old(ws.State())
    {
      if cfg.search(cfg.rules[i].pattern, name) {
        var dest := CopyDest(cfg, cfg.rules[i], src);
        ws.MakeDir(DirName(dest));
        if cfg.norm(src) != cfg.norm(dest) {
          if cfg.copyOk(src, dest) {
            ws.CreateFile(DirName(dest), BaseName(dest));
            ws.Log(kind, Some(src), Some(dest));
          }
        }
        matched := true;
        break;
      }
      i := i + 1;
    }
    if !matched {
      ws.Log(kind, Some(src), None);
    }
  }

  /** `create_file_based_on_datetime` on the workspace. */
  method CreateFileBasedOnDatetime(ws: Workspace, cfg: Config, path: Path) returns (r: Attempt<bool>)
    modifies ws
    ensures var e := CreateMarkerEffect(old(ws.State()), cfg, path);
      && (e.Raised? ==> r.Raised? && ws.State() == old(ws.State()))
      && (e.Returned? ==> r == Returned(e.value.created) && ws.State() == e.value.world)
  {
    var content := ReadFirstDecodable(cfg.read, path);
    if content.None? {
      return Returned(false);
    }
    match Derive(content.value, path, cfg.saveToFolder)
    case NoStamp =>
      return Returned(false);
    case BadStamp =>
      return Raised;
    case Marker(dir, name) =>
      ws.MakeDir(dir);
      ws.CreateFile(dir, name);
      ws.Log("File Created", Some(Join(dir, name)), None);
      return Returned(true);
  }

  /** `process_images` on the workspace. */
  method ProcessImages(ws: Workspace, cfg: Config, src: Path, folder: Path, wait: int, saveFolder: Path)
    returns (raised: bool)
    modifies ws
    ensures var e := ProcessImagesEffect(old(ws.State()), cfg, src, folder, wait, saveFolder);
      raised == e.Raised? && ws.State() == Settle(old(ws.State()), e)
  {
    var tokens := ImageTokens(BaseName(src));
    if tokens.None? {
      return true;
    }
    var (t1, t2) := tokens.value;
    if wait < 0 {
      return true;
    }
    var batch := CollectMatching(ws.dirs, cfg.walk(folder), t1, t2);
    if batch != [] {
      var base := ExtractCommonName(batch);
      ws.MakeDir(saveFolder);
      ws.CreateFile(saveFolder, base + ".pdf");
      ws.AddPdf(Pdf(saveFolder, base, batch));
    }
    return false;
  }
}
