/** The one-file revision, `file_monitor.py`: its consumer, its marker and
    image steps, and the two handlers that differ from the current ones
    (its `TargetFoldersHandler` is the one in `Handlers`). */
module Legacy {
  import opened Wrappers
  import opened Strings
  import opened Paths
  import opened FileInfo
  import opened Events
  import opened Timestamp
  import opened Workspace
  import opened Handlers
  import opened Processor
  import opened CommonName

  /** `extra[0] if extra else None`, and likewise for `extra[1]` and
      `extra[2]`: a non-empty `extra` with fewer than three elements
      raises `IndexError`. */
  datatype LegacyExtras = LegacyExtras(first: Option<Path>, wait: Option<int>, saveFolder: Option<Path>)

  function LegacyExtrasOf(item: Item): Attempt<LegacyExtras>
  {
    match item
    case Plain(_, _) => Returned(LegacyExtras(None, None, None))
    case Move(_, _) => Raised
    case Trigger(_, _, _, _) => Raised
    case TriggerWithSave(_, _, f, w, s) => Returned(LegacyExtras(Some(f), Some(w), Some(s)))
  }

  /** Unpacking raises exactly for tuples with one or two extra elements. */
  lemma LegacyExtrasRaise(item: Item)
    ensures LegacyExtrasOf(item).Raised? <==> item.Move? || item.Trigger?
  {
  }

  predicate LegacyGate(x: LegacyExtras)
  {
    && x.first.Some? && x.first.value != []
    && x.wait.Some? && x.wait.value != 0
    && x.saveFolder.Some? && x.saveFolder.value != []
  }

  /** The consumer's state across tuples: the world, and the local
      `dest_path`, which keeps the value of the last matched copy. */
  datatype LegacyState = LegacyState(world: World, lastDest: Option<Path>)

  /** `create_file_based_on_datetime` (legacy): cp949 only, and every
      exception, a failed `strptime` included, becomes False. */
  function LegacyMarkerEffect(w: World, cfg: Config, path: Path): Outcome
  {
    match cfg.read(path, Cp949)
    case None => Outcome(w, false)
    case Some(content) =>
      match Derive(content, path, cfg.saveToFolder)
      case NoStamp => Outcome(w, false)
      case BadStamp => Outcome(w, false)
      case Marker(dir, name) =>
        Outcome(w.(dirs := WithFile(MakeDirs(w.dirs, dir), dir, name),
                   log := w.log + [LogEntry("File Created", Some(Join(dir, name)), None)]), true)
  }

  /** The legacy marker step never raises; on a file cp949 can read it
      behaves as the current one, except that a bad stamp yields False
      with nothing changed where the current one raises. */
  lemma LegacyMarkerAgrees(w: World, cfg: Config, path: Path)
    requires cfg.read(path, Cp949).Some?
    ensures var current := CreateMarkerEffect(w, cfg, path);
      && (current.Returned? ==> LegacyMarkerEffect(w, cfg, path) == current.value)
      && (current.Raised? ==> LegacyMarkerEffect(w, cfg, path) == Outcome(w, false))
  {
    FirstDecodedSpec(cfg.read, path);
  }

  /** What `process_images` (legacy) does when the thread pool runs a job:
      the PDF is named `<token1>_<token2>`. */
  function LegacyImageJobEffect(w: World, cfg: Config, job: ImageJob): Attempt<World>
  {
    match ImageTokens(BaseName(job.src))
    case None => Raised
    case Some((t1, t2)) =>
      if job.wait < 0 then Raised
      else
        var batch := MatchingImages(w.dirs, cfg.walk(job.imageFolder), t1, t2);
        if batch == [] then Returned(w)
        else
          var base := t1 + "_" + t2;
          Returned(w.(dirs := WithFile(MakeDirs(w.dirs, job.saveFolder), job.saveFolder, base + ".pdf"),
                      pdfs := w.pdfs + [Pdf(job.saveFolder, base, batch)]))
  }

  /** A legacy PDF is named by the trigger file's first two `_` fields,
      which its file name starts with; its pages are the batch the current
      revision would collect, which names the PDF by their common stem. */
  lemma LegacyPdfName(w: World, cfg: Config, job: ImageJob)
    requires ImageTokens(BaseName(job.src)).Some? && job.wait >= 0
    ensures var (t1, t2) := ImageTokens(BaseName(job.src)).value;
      var batch := MatchingImages(w.dirs, cfg.walk(job.imageFolder), t1, t2);
      var r := LegacyImageJobEffect(w, cfg, job);
      && t1 + "_" + t2 <= BaseName(job.src)
      && r.Returned?
      && (batch == [] ==> r.value == w)
      && (batch != [] ==>
            && r.value.pdfs == w.pdfs + [Pdf(job.saveFolder, t1 + "_" + t2, batch)]
            && ProcessImagesEffect(w, cfg, job.src, job.imageFolder, job.wait, job.saveFolder).value.pdfs
               == w.pdfs + [Pdf(job.saveFolder, ExtractCommonName(batch), batch)])
  {
    ImageTokensSpec(BaseName(job.src));
  }

  /** The destination a created or modified tuple assigns to `dest_path`:
      set whenever a rule matches, whether or not the copy happens. */
  function RouteDest(cfg: Config, src: Path, lastDest: Option<Path>): Option<Path>
  {
    match FirstMatch(cfg, BaseName(src))
    case None => lastDest
    case Some(i) => Some(CopyDest(cfg, cfg.rules[i], src))
  }

  /** One tuple of the legacy consumer, inside its `try`/`except`. */
  function LegacyStep(s: LegacyState, cfg: Config, item: Item): LegacyState
  {
    match LegacyExtrasOf(item)
    case Raised => s
    case Returned(x) =>
      var w := s.world;
      var src := ItemPath(item);
      match ItemTag(item)
      case Created => LegacyState(RouteEffect(w, cfg, "created", src), RouteDest(cfg, src, s.lastDest))
      case Modified => LegacyState(RouteEffect(w, cfg, "modified", src), RouteDest(cfg, src, s.lastDest))
      case Deleted => s.(world := w.(log := w.log + [LogEntry("deleted", Some(src), None)]))
      case Moved =>
        // `dest_path` is unbound (a NameError) until some copy matched
        if s.lastDest.None? then s
        else s.(world := w.(log := w.log + [LogEntry("moved", Some(src), s.lastDest)]))
      case BaseDateCreated => s.(world := LegacyBaseDate(w, cfg, item, x))
      case BaseDateModified => s.(world := LegacyBaseDate(w, cfg, item, x))
      case WfInfoCreated => s
      case WfInfoModified => s
  }

  /** The marker, then, when the gate holds, one image job for the pool. */
  function LegacyBaseDate(w: World, cfg: Config, item: Item, x: LegacyExtras): World
  {
    var w1 := LegacyMarkerEffect(w, cfg, ItemPath(item)).world;
    if LegacyGate(x)
    then w1.(jobs := w1.jobs + [ImageJob(ItemTag(item), ItemPath(item), x.first.value, x.wait.value, x.saveFolder.value)])
    else w1
  }

  function LegacyRun(s: LegacyState, cfg: Config, items: seq<Item>): LegacyState
    decreases |items|
  {
    if items == [] then s else LegacyRun(LegacyStep(s, cfg, items[0]), cfg, items[1..])
  }

  /** A moved tuple, as every handler queues it, has one extra element, so
      the unpacking of `extra[1]` raises before the `moved` branch: the
      legacy consumer never logs a move. */
  lemma LegacyMoveNeverLogged(s: LegacyState, cfg: Config, src: Path, dest: Path)
    ensures LegacyStep(s, cfg, Move(src, dest)) == s
  {
  }

  /** The same holds for a whole queue: every `moved` entry the legacy
      consumer logs comes from somewhere other than a moved tuple, and a
      queue of moves leaves the state as it was. */
  lemma {:induction false} LegacyMovesInert(s: LegacyState, cfg: Config, items: seq<Item>)
    requires forall i :: 0 <= i < |items| ==> items[i].Move?
    ensures LegacyRun(s, cfg, items) == s
    decreases |items|
  {
    if items != [] {
      LegacyMoveNeverLogged(s, cfg, items[0].src, items[0].dest);
      LegacyMovesInert(s, cfg, items[1..]);
    }
  }

  /** A base-date tuple from the legacy handler submits its image job only
      after the marker step, and only when the gate holds; the job carries
      the handler's folders and wait time unchanged. */
  lemma LegacyBaseDateSubmits(s: LegacyState, cfg: Config, t: Tag, p: Path, f: Path, wait: int, isf: Path)
    requires t == BaseDateCreated || t == BaseDateModified
    ensures var r := LegacyStep(s, cfg, TriggerWithSave(t, p, f, wait, isf));
      var m := LegacyMarkerEffect(s.world, cfg, p).world;
      && r.lastDest == s.lastDest
      && (f != [] && wait != 0 && isf != [] ==> r.world == m.(jobs := m.jobs + [ImageJob(t, p, f, wait, isf)]))
      && (f == [] || wait == 0 || isf == [] ==> r.world == m)
  {
  }

  /** The legacy `event_processor` loop, draining the queue. */
  method LegacyEventProcessor(hub: Hub, ws: Workspace, cfg: Config)
    modifies hub, ws
    ensures hub.queue == [] && hub.processed == old(hub.processed)
    ensures ws.State() == LegacyRun(LegacyState(old(ws.State()), None), cfg, old(hub.queue)).world
  {
    var destPath: Option<Path> := None;
    while hub.queue != []
      invariant hub.processed == old(hub.processed)
      invariant LegacyRun(LegacyState(ws.State(), destPath), cfg, hub.queue)
             == LegacyRun(LegacyState(old(ws.State()), None), cfg, old(hub.queue))
      decreases |hub.queue|
    {
      var next := hub.Take();
      destPath := LegacyProcessItem(ws, cfg, next.value, destPath);
    }
  }

  method LegacyProcessItem(ws: Workspace, cfg: Config, item: Item, destPath: Option<Path>)
    returns (newDest: Option<Path>)
    modifies ws
    ensures LegacyState(ws.State(), newDest) == LegacyStep(LegacyState(old(ws.State()), destPath), cfg, item)
  {
    newDest := destPath;
    var extras := LegacyExtrasOf(item);
    if extras.Raised? {
      return;
    }
    var x := extras.value;
    var src := ItemPath(item);
    match ItemTag(item)
    case Created =>
      Route(ws, cfg, "created", src);
      newDest := RouteDest(cfg, src, destPath);
    case Modified =>
      Route(ws, cfg, "modified", src);
      newDest := RouteDest(cfg, src, destPath);
    case Deleted =>
      ws.Log("deleted", Some(src), None);
    case Moved =>
      if destPath.Some? {
        ws.Log("moved", Some(src), destPath);
      }
    case BaseDateCreated =>
      LegacyBaseDateStep(ws, cfg, item, x);
    case BaseDateModified =>
      LegacyBaseDateStep(ws, cfg, item, x);
    case WfInfoCreated =>
    case WfInfoModified =>
  }

  method LegacyBaseDateStep(ws: Workspace, cfg: Config, item: Item, x: LegacyExtras)
    modifies ws
    ensures ws.State() == LegacyBaseDate(old(ws.State()), cfg, item, x)
  {
    var _ := LegacyCreateFile(ws, cfg, ItemPath(item));
    if LegacyGate(x) {
      ws.Submit(ImageJob(ItemTag(item), ItemPath(item), x.first.value, x.wait.value, x.saveFolder.value));
    }
  }

  /** `create_file_based_on_datetime` (legacy) on the workspace. */
  method LegacyCreateFile(ws: Workspace, cfg: Config, path: Path) returns (created: bool)
    modifies ws
    ensures Outcome(ws.State(), created) == LegacyMarkerEffect(old(ws.State()), cfg, path)
  {
    var content := cfg.read(path, Cp949);
    if content.None? {
      return false;
    }
    match Derive(content.value, path, cfg.saveToFolder)
    case NoStamp =>
      return false;
    case BadStamp =>
      return false;
    case Marker(dir, name) =>
      ws.MakeDir(dir);
      ws.CreateFile(dir, name);
      ws.Log("File Created", Some(Join(dir, name)), None);
      return true;
  }

  // --------------------------------------------------------------- handlers

  /** The legacy `BaseDateFolderHandler`: five-element tuples carrying the
      normalised image folder, wait time and image save folder. */
  class LegacyBaseDateFolderHandler {
    const hub: Hub
    const norm: Path -> Path
    const targetImageFolder: Path
    const waitTime: int
    const imageSaveFolder: Path
    var creationTimes: map<Path, int>

    constructor (hub: Hub, norm: Path -> Path, targetImageFolder: Path, waitTime: int, imageSaveFolder: Path)
      ensures this.hub == hub && this.norm == norm
      ensures this.targetImageFolder == norm(targetImageFolder) && this.waitTime == waitTime
      ensures this.imageSaveFolder == norm(imageSaveFolder)
      ensures creationTimes == map[]
    {
      this.hub := hub;
      this.norm := norm;
      this.targetImageFolder := norm(targetImageFolder);
      this.waitTime := waitTime;
      this.imageSaveFolder := norm(imageSaveFolder);
      creationTimes := map[];
    }

    function TriggerFor(t: Tag, p: Path): Item
      reads this
    {
      TriggerWithSave(t, p, targetImageFolder, waitTime, imageSaveFolder)
    }

    method OnCreated(path: Path, isDirectory: bool, now: int)
      modifies this, hub
      ensures isDirectory ==>
        creationTimes == old(creationTimes) && hub.processed == old(hub.processed) && hub.queue == old(hub.queue)
      ensures !isDirectory ==>
        var p := norm(path);
        && creationTimes == old(creationTimes)[p := now]
        && AdmitStep(old(hub.processed), old(hub.queue), hub.processed, hub.queue,
                     PathKey(CreatedKey, p), now, DebounceWindow, TriggerFor(BaseDateCreated, p))
    {
      if !isDirectory {
        var p := norm(path);
        creationTimes := creationTimes[p := now];
        var _ := hub.Admit(PathKey(CreatedKey, p), now, DebounceWindow, TriggerFor(BaseDateCreated, p));
      }
    }

    method OnModified(path: Path, isDirectory: bool, now: int)
      modifies hub
      ensures isDirectory || Shadowed(creationTimes, norm(path), now) ==>
        hub.processed == old(hub.processed) && hub.queue == old(hub.queue)
      ensures !isDirectory && !Shadowed(creationTimes, norm(path), now) ==>
        var p := norm(path);
        AdmitStep(old(hub.processed), old(hub.queue), hub.processed, hub.queue,
                  PathKey(ModifiedKey, p), now, DebounceWindow, TriggerFor(BaseDateModified, p))
    {
      if !isDirectory {
        var p := norm(path);
        if Shadowed(creationTimes, p, now) {
          return;
        }
        var _ := hub.Admit(PathKey(ModifiedKey, p), now, DebounceWindow, TriggerFor(BaseDateModified, p));
      }
    }

    method OnDeleted(path: Path, isDirectory: bool, now: int)
      modifies hub
      ensures isDirectory ==> hub.processed == old(hub.processed) && hub.queue == old(hub.queue)
      ensures !isDirectory ==>
        var p := norm(path);
        AdmitStep(old(hub.processed), old(hub.queue), hub.processed, hub.queue,
                  PathKey(DeletedKey, p), now, DebounceWindow, Plain(Deleted, p))
    {
      if !isDirectory {
        var p := norm(path);
        var _ := hub.Admit(PathKey(DeletedKey, p), now, DebounceWindow, Plain(Deleted, p));
      }
    }

    method OnMoved(src: Path, dest: Path, isDirectory: bool, now: int)
      modifies hub
      ensures isDirectory ==> hub.processed == old(hub.processed) && hub.queue == old(hub.queue)
      ensures !isDirectory ==>
        var s := norm(src);
        var d := norm(dest);
        AdmitStep(old(hub.processed), old(hub.queue), hub.processed, hub.queue,
                  MoveKey(s, d), now, DebounceWindow, Move(s, d))
    {
      if !isDirectory {
        var s := norm(src);
        var d := norm(dest);
        var _ := hub.Admit(MoveKey(s, d), now, DebounceWindow, Move(s, d));
      }
    }
  }

  /** `"Processed file: {path} with target folder: {folder}"`. */
  function ComparisonEntry(p: Path, folder: Path): LogEntry
  {
    LogEntry("File Comparison and Replacement", Some("Processed file: " + p + " with target folder: " + folder), None)
  }

  /** The renaming pass over every compare folder, each followed by its
      log entry. */
  function CompareAll(w: World, info: FileInfo, p: Path, folders: seq<Path>, walk: Path -> seq<Path>): World
  {
    if folders == [] then w
    else
      var w1 := ReplaceInRoots(CompareAll(w, info, p, folders[..|folders| - 1], walk), info, walk(folders[|folders| - 1]));
      w1.(log := w1.log + [ComparisonEntry(p, folders[|folders| - 1])])
  }

  /** The pass only renames: the directories stay the same, no PDF or job
      appears, and the log only grows, by at least one entry per folder. */
  lemma {:induction false} CompareAllFrame(w: World, info: FileInfo, p: Path, folders: seq<Path>, walk: Path -> seq<Path>)
    ensures var r := CompareAll(w, info, p, folders, walk);
      && r.dirs.Keys == w.dirs.Keys && r.pdfs == w.pdfs && r.jobs == w.jobs
      && w.log <= r.log && |r.log| >= |w.log| + |folders|
  {
    if folders != [] {
      var init := folders[..|folders| - 1];
      CompareAllFrame(w, info, p, init, walk);
      ReplaceInRootsFrame(CompareAll(w, info, p, init, walk), info, walk(folders[|folders| - 1]), p);
    }
  }

  /** The legacy `WfInfoFolderHandler`: no folder filter, a one-second
      window, the creation shadow, plain `created`/`modified` tuples, and
      the renaming pass run inside the callback on an accepted creation. */
  class LegacyWfInfoFolderHandler {
    const hub: Hub
    const ws: Workspace
    const norm: Path -> Path
    const walk: Path -> seq<Path>
    const targetCompareFolders: seq<Path>
    var creationTimes: map<Path, int>

    constructor (hub: Hub, ws: Workspace, norm: Path -> Path, walk: Path -> seq<Path>, targetCompareFolders: seq<Path>)
      ensures this.hub == hub && this.ws == ws && this.norm == norm && this.walk == walk
      ensures this.targetCompareFolders == NormalizeAll(norm, targetCompareFolders)
      ensures creationTimes == map[]
    {
      this.hub := hub;
      this.ws := ws;
      this.norm := norm;
      this.walk := walk;
      this.targetCompareFolders := NormalizeAll(norm, targetCompareFolders);
      creationTimes := map[];
    }

    method OnCreated(path: Path, isDirectory: bool, now: int)
      modifies this, hub, ws
      ensures isDirectory ==>
        && creationTimes == old(creationTimes) && hub.processed == old(hub.processed) && hub.queue == old(hub.queue)
        && ws.State() == old(ws.State())
      ensures !isDirectory ==>
        var p := norm(path);
        var key := PathKey(CreatedKey, p);
        var info := ExtractFileInfo(BaseName(p));
        && creationTimes == old(creationTimes)[p := now]
        && AdmitStep(old(hub.processed), old(hub.queue), hub.processed, hub.queue,
                     key, now, DebounceWindow, Plain(Created, p))
        && (Admits(old(hub.processed), key, now, DebounceWindow) && info.Some? ==>
              ws.State() == CompareAll(old(ws.State()), info.value, p, targetCompareFolders, walk))
        && (!Admits(old(hub.processed), key, now, DebounceWindow) || info.None? ==>
              ws.State() == old(ws.State()))
    {
      if !isDirectory {
        var p := norm(path);
        creationTimes := creationTimes[p := now];
        var accepted := hub.Admit(PathKey(CreatedKey, p), now, DebounceWindow, Plain(Created, p));
        if accepted {
          var info := ExtractFileInfo(BaseName(p));
          if info.Some? {
            CompareFolders(info.value, p);
          }
        }
      }
    }

    /** The `for target_folder in self.target_compare_folders` loop. */
    method CompareFolders(info: FileInfo, p: Path)
      modifies ws
      ensures ws.State() == CompareAll(old(ws.State()), info, p, targetCompareFolders, walk)
    {
      var i := 0;
      while i < |targetCompareFolders|
        invariant 0 <= i <= |targetCompareFolders|
        invariant ws.State() == CompareAll(old(ws.State()), info, p, targetCompareFolders[..i], walk)
      {
        var folder := targetCompareFolders[i];
        ws.ReplaceTextInFiles(info, walk(folder));
        ws.Log("File Comparison and Replacement", Some("Processed file: " + p + " with target folder: " + folder), None);
        assert targetCompareFolders[..i + 1][..i] == targetCompareFolders[..i];
        i := i + 1;
      }
      assert targetCompareFolders[..i] == targetCompareFolders;
    }

    method OnModified(path: Path, isDirectory: bool, now: int)
      modifies hub
      ensures isDirectory || Shadowed(creationTimes, norm(path), now) ==>
        hub.processed == old(hub.processed) && hub.queue == old(hub.queue)
      ensures !isDirectory && !Shadowed(creationTimes, norm(path), now) ==>
        var p := norm(path);
        AdmitStep(old(hub.processed), old(hub.queue), hub.processed, hub.queue,
                  PathKey(ModifiedKey, p), now, DebounceWindow, Plain(Modified, p))
    {
      if !isDirectory {
        var p := norm(path);
        if Shadowed(creationTimes, p, now) {
          return;
        }
        var _ := hub.Admit(PathKey(ModifiedKey, p), now, DebounceWindow, Plain(Modified, p));
      }
    }

    method OnDeleted(path: Path, isDirectory: bool, now: int)
      modifies hub
      ensures isDirectory ==> hub.processed == old(hub.processed) && hub.queue == old(hub.queue)
      ensures !isDirectory ==>
        var p := norm(path);
        AdmitStep(old(hub.processed), old(hub.queue), hub.processed, hub.queue,
                  PathKey(DeletedKey, p), now, DebounceWindow, Plain(Deleted, p))
    {
      if !isDirectory {
        var p := norm(path);
        var _ := hub.Admit(PathKey(DeletedKey, p), now, DebounceWindow, Plain(Deleted, p));
      }
    }

    method OnMoved(src: Path, dest: Path, isDirectory: bool, now: int)
      modifies hub
      ensures isDirectory ==> hub.processed == old(hub.processed) && hub.queue == old(hub.queue)
      ensures !isDirectory ==>
        var s := norm(src);
        var d := norm(dest);
        AdmitStep(old(hub.processed), old(hub.queue), hub.processed, hub.queue,
                  MoveKey(s, d), now, DebounceWindow, Move(s, d))
    {
      if !isDirectory {
        var s := norm(src);
        var d := norm(dest);
        var _ := hub.Admit(MoveKey(s, d), now, DebounceWindow, Move(s, d));
      }
    }
  }
}
