/** The watchdog handlers: each callback filters the event, consults the
    shared ledger and puts at most one tuple on the shared queue. */
module Handlers {
  import opened Wrappers
  import opened Paths
  import opened Events

  /** The state every handler shares: `processed_events` (one dict passed to
      all handlers) and the `event_queue`. */
  class Hub {
    var processed: Ledger
    var queue: seq<Item>

    constructor ()
      ensures processed == map[] && queue == []
    {
      processed := map[];
      queue := [];
    }

    /** The debounce test and, on acceptance, the ledger write and the `put`. */
    method Admit(key: EventKey, now: int, window: int, item: Item) returns (accepted: bool)
      modifies this
      ensures accepted == Admits(old(processed), key, now, window)
      ensures AdmitStep(old(processed), old(queue), processed, queue, key, now, window, item)
    {
      accepted := Admits(processed, key, now, window);
      if accepted {
        processed := processed[key := now];
        queue := queue + [item];
      }
    }

    /** `event_queue.get()`: the oldest tuple, or nothing when empty. */
    method Take() returns (item: Option<Item>)
      modifies this
      ensures processed == old(processed)
      ensures old(queue) == [] ==> item.None? && queue == []
      ensures old(queue) != [] ==> item == Some(old(queue)[0]) && queue == old(queue)[1..]
    {
      if queue == [] {
        item := None;
      } else {
        item := Some(queue[0]);
        queue := queue[1..];
      }
    }
  }

  /** `any(path.startswith(folder) for folder in folders)`. */
  predicate StartsWithAny(path: Path, folders: seq<Path>)
  {
    folders != [] && (folders[0] <= path || StartsWithAny(path, folders[1..]))
  }

  /** The test is a plain string-prefix test against some folder. */
  lemma {:induction false} StartsWithAnySpec(path: Path, folders: seq<Path>)
    ensures StartsWithAny(path, folders) <==> exists i :: 0 <= i < |folders| && folders[i] <= path
  {
    if folders != [] {
      StartsWithAnySpec(path, folders[1..]);
      if exists i :: 0 <= i < |folders| && folders[i] <= path {
        var i :| 0 <= i < |folders| && folders[i] <= path;
        if i > 0 {
          assert folders[1..][i - 1] == folders[i];
        }
      }
    }
  }

  /** `[normalize_path(folder) for folder in folders]`. */
  function NormalizeAll(norm: Path -> Path, folders: seq<Path>): (r: seq<Path>)
    ensures |r| == |folders| && forall i :: 0 <= i < |r| ==> r[i] == norm(folders[i])
  {
    seq(|folders|, i requires 0 <= i < |folders| => norm(folders[i]))
  }

  /** `TargetFoldersHandler` (both revisions): watched folders, minus the
      excluded ones, with the creation shadow. */
  class TargetFoldersHandler {
    const hub: Hub
    const norm: Path -> Path
    const excludeFolders: seq<Path>
    var creationTimes: map<Path, int>

    constructor (hub: Hub, norm: Path -> Path, excludeFolders: seq<Path>)
      ensures this.hub == hub && this.norm == norm
      ensures this.excludeFolders == NormalizeAll(norm, excludeFolders)
      ensures creationTimes == map[]
    {
      this.hub := hub;
      this.norm := norm;
      this.excludeFolders := NormalizeAll(norm, excludeFolders);
      creationTimes := map[];
    }

    /** `is_excluded`: the normalised path starts with an excluded folder. */
    predicate IsExcluded(path: Path)
    {
      StartsWithAny(norm(path), excludeFolders)
    }

    method OnCreated(path: Path, isDirectory: bool, now: int)
      modifies this, hub
      ensures isDirectory || IsExcluded(path) ==>
        creationTimes == old(creationTimes) && hub.processed == old(hub.processed) && hub.queue == old(hub.queue)
      ensures !isDirectory && !IsExcluded(path) ==>
        var p := norm(path);
        && creationTimes == old(creationTimes)[p := now]
        && AdmitStep(old(hub.processed), old(hub.queue), hub.processed, hub.queue,
                     PathKey(CreatedKey, p), now, DebounceWindow, Plain(Created, p))
    {
      if !isDirectory && !IsExcluded(path) {
        var p := norm(path);
        creationTimes := creationTimes[p := now];
        var _ := hub.Admit(PathKey(CreatedKey, p), now, DebounceWindow, Plain(Created, p));
      }
    }

    method OnModified(path: Path, isDirectory: bool, now: int)
      modifies hub
      ensures isDirectory || IsExcluded(path) || Shadowed(creationTimes, norm(path), now) ==>
        hub.processed == old(hub.processed) && hub.queue == old(hub.queue)
      ensures !isDirectory && !IsExcluded(path) && !Shadowed(creationTimes, norm(path), now) ==>
        var p := norm(path);
        AdmitStep(old(hub.processed), old(hub.queue), hub.processed, hub.queue,
                  PathKey(ModifiedKey, p), now, DebounceWindow, Plain(Modified, p))
    {
      if !isDirectory && !IsExcluded(path) {
        var p := norm(path);
        if Shadowed(creationTimes, p, now) {
          return;
        }
        var _ := hub.Admit(PathKey(ModifiedKey, p), now, DebounceWindow, Plain(Modified, p));
      }
    }

    method OnDeleted(path: Path, isDirectory: bool, now: int)
      modifies hub
      ensures isDirectory || IsExcluded(path) ==>
        hub.processed == old(hub.processed) && hub.queue == old(hub.queue)
      ensures !isDirectory && !IsExcluded(path) ==>
        var p := norm(path);
        AdmitStep(old(hub.processed), old(hub.queue), hub.processed, hub.queue,
                  PathKey(DeletedKey, p), now, DebounceWindow, Plain(Deleted, p))
    {
      if !isDirectory && !IsExcluded(path) {
        var p := norm(path);
        var _ := hub.Admit(PathKey(DeletedKey, p), now, DebounceWindow, Plain(Deleted, p));
      }
    }

    /** Only the source path is tested for exclusion. */
    method OnMoved(src: Path, dest: Path, isDirectory: bool, now: int)
      modifies hub
      ensures isDirectory || IsExcluded(src) ==>
        hub.processed == old(hub.processed) && hub.queue == old(hub.queue)
      ensures !isDirectory && !IsExcluded(src) ==>
        var s := norm(src);
        var d := norm(dest);
        AdmitStep(old(hub.processed), old(hub.queue), hub.processed, hub.queue,
                  MoveKey(s, d), now, DebounceWindow, Move(s, d))
    {
      if !isDirectory && !IsExcluded(src) {
        var s := norm(src);
        var d := norm(dest);
        var _ := hub.Admit(MoveKey(s, d), now, DebounceWindow, Move(s, d));
      }
    }
  }

  /** `BaseDateFolderHandler` (current revision): no exclusion; created and
      modified events carry the image folder and wait time captured at
      construction. */
  class BaseDateFolderHandler {
    const hub: Hub
    const norm: Path -> Path
    const targetImageFolder: Path
    const waitTime: int
    var creationTimes: map<Path, int>

    constructor (hub: Hub, norm: Path -> Path, targetImageFolder: Path, waitTime: int)
      ensures this.hub == hub && this.norm == norm
      ensures this.targetImageFolder == norm(targetImageFolder) && this.waitTime == waitTime
      ensures creationTimes == map[]
    {
      this.hub := hub;
      this.norm := norm;
      this.targetImageFolder := norm(targetImageFolder);
      this.waitTime := waitTime;
      creationTimes := map[];
    }

    method OnCreated(path: Path, isDirectory: bool, now: int)
      modifies this, hub
      ensures isDirectory ==>
        creationTimes == old(creationTimes) && hub.processed == old(hub.processed) && hub.queue == old(hub.queue)
      ensures !isDirectory ==>
        var p := norm(path);
        && creationTimes == old(creationTimes)[p := now]
        && AdmitStep(old(hub.processed), old(hub.queue), hub.processed, hub.queue,
                     PathKey(CreatedKey, p), now, DebounceWindow,
                     Trigger(BaseDateCreated, p, targetImageFolder, waitTime))
    {
      if !isDirectory {
        var p := norm(path);
        creationTimes := creationTimes[p := now];
        var _ := hub.Admit(PathKey(CreatedKey, p), now, DebounceWindow,
                           Trigger(BaseDateCreated, p, targetImageFolder, waitTime));
      }
    }

    method OnModified(path: Path, isDirectory: bool, now: int)
      modifies hub
      ensures isDirectory || Shadowed(creationTimes, norm(path), now) ==>
        hub.processed == old(hub.processed) && hub.queue == old(hub.queue)
      ensures !isDirectory && !Shadowed(creationTimes, norm(path), now) ==>
        var p := norm(path);
        AdmitStep(old(hub.processed), old(hub.queue), hub.processed, hub.queue,
                  PathKey(ModifiedKey, p), now, DebounceWindow,
                  Trigger(BaseDateModified, p, targetImageFolder, waitTime))
    {
      if !isDirectory {
        var p := norm(path);
        if Shadowed(creationTimes, p, now) {
          return;
        }
        var _ := hub.Admit(PathKey(ModifiedKey, p), now, DebounceWindow,
                           Trigger(BaseDateModified, p, targetImageFolder, waitTime));
      }
    }

    method OnDeleted(path: Path, isDirectory: bool, now: int)
      modifies hub
      ensures isDirectory ==> hub.processed == old(hub.processed) && hub.queue == old(hub.queue)
      ensures !isDirectory ==>
        var p := norm(path);
        AdmitStep(old(hub.processed), old(hub.queue), hub.processed, hub.queue,
                  PathKey(DeletedKey, p), now, DebounceWindow, Plain(Deleted, p))
    {
      if !isDirectory {
        var p := norm(path);
        var _ := hub.Admit(PathKey(DeletedKey, p), now, DebounceWindow, Plain(Deleted, p));
      }
    }

    method OnMoved(src: Path, dest: Path, isDirectory: bool, now: int)
      modifies hub
      ensures isDirectory ==> hub.processed == old(hub.processed) && hub.queue == old(hub.queue)
      ensures !isDirectory ==>
        var s := norm(src);
        var d := norm(dest);
        AdmitStep(old(hub.processed), old(hub.queue), hub.processed, hub.queue,
                  MoveKey(s, d), now, DebounceWindow, Move(s, d))
    {
      if !isDirectory {
        var s := norm(src);
        var d := norm(dest);
        var _ := hub.Admit(MoveKey(s, d), now, DebounceWindow, Move(s, d));
      }
    }
  }

  /** `WfInfoFolderHandler` (current revision): only paths under a compare
      folder, a five-second window and no creation shadow. */
  class WfInfoFolderHandler {
    const hub: Hub
    const norm: Path -> Path
    const targetCompareFolders: seq<Path>

    constructor (hub: Hub, norm: Path -> Path, targetCompareFolders: seq<Path>)
      ensures this.hub == hub && this.norm == norm
      ensures this.targetCompareFolders == NormalizeAll(norm, targetCompareFolders)
    {
      this.hub := hub;
      this.norm := norm;
      this.targetCompareFolders := NormalizeAll(norm, targetCompareFolders);
    }

    /** `is_wf_info_folder`. */
    predicate IsWfInfoFolder(path: Path)
    {
      StartsWithAny(norm(path), targetCompareFolders)
    }

    method OnCreated(path: Path, isDirectory: bool, now: int)
      modifies hub
      ensures isDirectory || !IsWfInfoFolder(path) ==>
        hub.processed == old(hub.processed) && hub.queue == old(hub.queue)
      ensures !isDirectory && IsWfInfoFolder(path) ==>
        var p := norm(path);
        AdmitStep(old(hub.processed), old(hub.queue), hub.processed, hub.queue,
                  PathKey(CreatedKey, p), now, WfInfoDebounceWindow, Plain(WfInfoCreated, p))
    {
      if !isDirectory && IsWfInfoFolder(path) {
        var p := norm(path);
        var _ := hub.Admit(PathKey(CreatedKey, p), now, WfInfoDebounceWindow, Plain(WfInfoCreated, p));
      }
    }

    method OnModified(path: Path, isDirectory: bool, now: int)
      modifies hub
      ensures isDirectory || !IsWfInfoFolder(path) ==>
        hub.processed == old(hub.processed) && hub.queue == old(hub.queue)
      ensures !isDirectory && IsWfInfoFolder(path) ==>
        var p := norm(path);
        AdmitStep(old(hub.processed), old(hub.queue), hub.processed, hub.queue,
                  PathKey(ModifiedKey, p), now, WfInfoDebounceWindow, Plain(WfInfoModified, p))
    {
      if !isDirectory && IsWfInfoFolder(path) {
        var p := norm(path);
        var _ := hub.Admit(PathKey(ModifiedKey, p), now, WfInfoDebounceWindow, Plain(WfInfoModified, p));
      }
    }

    method OnDeleted(path: Path, isDirectory: bool, now: int)
      modifies hub
      ensures isDirectory || !IsWfInfoFolder(path) ==>
        hub.processed == old(hub.processed) && hub.queue == old(hub.queue)
      ensures !isDirectory && IsWfInfoFolder(path) ==>
        var p := norm(path);
        AdmitStep(old(hub.processed), old(hub.queue), hub.processed, hub.queue,
                  PathKey(DeletedKey, p), now, WfInfoDebounceWindow, Plain(Deleted, p))
    {
      if !isDirectory && IsWfInfoFolder(path) {
        var p := norm(path);
        var _ := hub.Admit(PathKey(DeletedKey, p), now, WfInfoDebounceWindow, Plain(Deleted, p));
      }
    }

    method OnMoved(src: Path, dest: Path, isDirectory: bool, now: int)
      modifies hub
      ensures isDirectory || !IsWfInfoFolder(src) ==>
        hub.processed == old(hub.processed) && hub.queue == old(hub.queue)
      ensures !isDirectory && IsWfInfoFolder(src) ==>
        var s := norm(src);
        var d := norm(dest);
        AdmitStep(old(hub.processed), old(hub.queue), hub.processed, hub.queue,
                  MoveKey(s, d), now, WfInfoDebounceWindow, Move(s, d))
    {
      if !isDirectory && IsWfInfoFolder(src) {
        var s := norm(src);
        var d := norm(dest);
        var _ := hub.Admit(MoveKey(s, d), now, WfInfoDebounceWindow, Move(s, d));
      }
    }
  }

  /** Because the ledger is shared and keyed by kind and path only, a file
      created in a folder watched by two handlers is queued by whichever
      handler sees it first; the other's event within the window is
      dropped, whatever tuple it would have queued. */
  lemma SharedLedgerSuppresses(ledger: Ledger, queue: seq<Item>, p: Path, t: int, now: int,
                               first: Item, second: Item)
    requires t <= now <= t + DebounceWindow
    ensures var key := PathKey(CreatedKey, p);
      AdmitStep(ledger, queue, ledger[key := t], queue + [first], key, t, DebounceWindow, first) ==>
      AdmitStep(ledger[key := t], queue + [first], ledger[key := t], queue + [first], key, now, DebounceWindow, second)
  {
  }
}
