/** The tuples the handlers put on the queue, the keys of the shared
    `processed_events` ledger, and the debounce rule they all apply. */
module Events {
  import opened Wrappers
  import opened Paths

  /** Clock readings are microseconds (`datetime` resolution). */
  const Second: int := 1_000_000

  /** `timedelta(seconds=1)`: the window of the target-folder and base-date
      handlers, and of every handler in the one-file revision. */
  const DebounceWindow: int := Second

  /** `self.debounce_time = timedelta(seconds=5)` of the wf_info handler. */
  const WfInfoDebounceWindow: int := 5 * Second

  /** The first field of a queued tuple. */
  datatype Tag =
    | Created | Modified | Deleted | Moved
    | BaseDateCreated | BaseDateModified
    | WfInfoCreated | WfInfoModified

  /** One constructor per tuple shape. */
  datatype Item =
    | Plain(tag: Tag, path: Path)                        // (type, path)
    | Move(src: Path, dest: Path)                         // ('moved', src, dest)
    | Trigger(tag: Tag, path: Path, imageFolder: Path, wait: int)
                                                          // (type, path, target_image_folder, wait_time)
    | TriggerWithSave(tag: Tag, path: Path, imageFolder: Path, wait: int, saveFolder: Path)
                                                          // the same plus image_save_folder

  /** The first element of the ledger keys. */
  datatype KeyKind = CreatedKey | ModifiedKey | DeletedKey

  /** `(kind, path)` or `('moved', src, dest)`. */
  datatype EventKey = PathKey(kind: KeyKind, path: Path) | MoveKey(src: Path, dest: Path)

  /** `processed_events`: when each key was last accepted. */
  type Ledger = map<EventKey, int>

  /** `event_id not in processed_events or now - processed_events[event_id] > window`. */
  predicate Admits(ledger: Ledger, key: EventKey, now: int, window: int)
  {
    key !in ledger || now - ledger[key] > window
  }

  /** `now - creation_times[path] < timedelta(seconds=1)`: a modified event
      this soon after the file was created is dropped. */
  predicate Shadowed(creationTimes: map<Path, int>, path: Path, now: int)
  {
    path in creationTimes && now - creationTimes[path] < Second
  }

  /** What one debounced callback does to the ledger and the queue: on
      acceptance the key is stamped and exactly the one tuple is queued;
      otherwise neither changes. */
  predicate AdmitStep(ledger: Ledger, queue: seq<Item>, ledger': Ledger, queue': seq<Item>,
                      key: EventKey, now: int, window: int, item: Item)
  {
    if Admits(ledger, key, now, window)
    then ledger' == ledger[key := now] && queue' == queue + [item]
    else ledger' == ledger && queue' == queue
  }

  /** The window is strict on both sides: a repeat exactly one window after
      the accepted event is still dropped, and a modified event exactly one
      second after creation is no longer shadowed. */
  lemma WindowEdges(ledger: Ledger, key: EventKey, t: int, window: int, times: map<Path, int>, p: Path)
    ensures !Admits(ledger[key := t], key, t + window, window)
    ensures Admits(ledger[key := t], key, t + window + 1, window)
    ensures Shadowed(times[p := t], p, t + Second - 1)
    ensures !Shadowed(times[p := t], p, t + Second)
  {
  }

  /** Acceptance stamps one key only: other kinds on the same path, and
      other paths, are judged as before. */
  lemma AdmitIsolated(ledger: Ledger, key: EventKey, other: EventKey, t: int, now: int, window: int)
    requires other != key
    ensures Admits(ledger[key := t], other, now, window) == Admits(ledger, other, now, window)
  {
  }

  /** The times at which a stream of events with one key is accepted, for
      non-decreasing clock readings, given when the key was last accepted. */
  function Debounce(last: Option<int>, times: seq<int>, window: int): seq<int>
    decreases |times|
  {
    if times == [] then []
    else if last.None? || times[0] - last.value > window then
      [times[0]] + Debounce(Some(times[0]), times[1..], window)
    else Debounce(last, times[1..], window)
  }

  /** `Debounce` is the ledger rule applied call after call. */
  lemma DebounceIsAdmits(ledger: Ledger, key: EventKey, times: seq<int>, window: int)
    requires times != []
    ensures var last := if key in ledger then Some(ledger[key]) else None;
      && (Admits(ledger, key, times[0], window) ==>
            Debounce(last, times, window) == [times[0]] + Debounce(Some(times[0]), times[1..], window))
      && (!Admits(ledger, key, times[0], window) ==>
            Debounce(last, times, window) == Debounce(last, times[1..], window))
  {
  }

  /** Accepted events are drawn from the stream, each more than one window
      after the previous accepted one (and after `last`). The wall clock may
      step back, so the stream need not be sorted. */
  lemma {:induction false} DebounceSpaced(last: Option<int>, times: seq<int>, window: int)
    decreases |times|
    ensures var acc := Debounce(last, times, window);
      && (forall i :: 0 <= i < |acc| ==> acc[i] in times)
      && (forall i :: 0 < i < |acc| ==> acc[i] - acc[i - 1] > window)
      && (last.Some? && acc != [] ==> acc[0] - last.value > window)
  {
    if times != [] {
      var tail := times[1..];
      if last.None? || times[0] - last.value > window {
        DebounceSpaced(Some(times[0]), tail, window);
        var rest := Debounce(Some(times[0]), tail, window);
        var acc := [times[0]] + rest;
        forall i | 0 <= i < |acc| ensures acc[i] in times {
          if i > 0 {
            assert acc[i] == rest[i - 1];
          }
        }
        forall i | 0 < i < |acc| ensures acc[i] - acc[i - 1] > window {
          if i > 1 {
            assert acc[i] == rest[i - 1] && acc[i - 1] == rest[i - 2];
          }
        }
      } else {
        DebounceSpaced(last, tail, window);
        var acc := Debounce(last, tail, window);
        forall i | 0 <= i < |acc| ensures acc[i] in times {
          assert acc[i] in tail;
        }
      }
    }
  }

  /** A burst: every event no later than one window after an accepted one
      is absorbed by it, so a fresh key yields exactly one accepted event. */
  lemma {:induction false} DebounceBurst(t0: int, times: seq<int>, window: int)
    requires forall i :: 0 <= i < |times| ==> times[i] <= t0 + window
    ensures Debounce(Some(t0), times, window) == []
    decreases |times|
  {
    if times != [] {
      DebounceBurst(t0, times[1..], window);
    }
  }

  lemma DebounceFreshBurst(times: seq<int>, window: int)
    requires times != []
    requires forall i :: 0 <= i < |times| ==> times[i] <= times[0] + window
    ensures Debounce(None, times, window) == [times[0]]
  {
    DebounceBurst(times[0], times[1..], window);
  }
}
