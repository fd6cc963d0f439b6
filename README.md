# LFA file-event pipeline in Dafny

This project models the file-event pipeline of LFA, a folder-monitoring tool.

**The handlers.** Watchdog handlers see file events in watched folders. Each handler:
- drops directory events;
- filters by folder prefix;
- consults a ledger of recently accepted events, which all handlers share (`processed_events`);
- puts at most one typed tuple on a queue.

**The consumer.** A single consumer, `event_processor`, takes tuples off the queue. Depending on the tuple, it:
- copies the file into the folder of the first matching routing rule, or
- logs the event, or
- writes an empty marker file, `<YYYYMMDD_HHMMSS>_<stem>.na`, derived from the `Date and Time:` line the file contains, or
- collects the images whose names share the trigger file's first two `_` fields into one PDF.

**Two revisions.** Both are modelled side by side:
- the current package `file_monitor/` (modules `Handlers` and `Processor`);
- the earlier one-file revision `file_monitor.py` (module `Legacy`).

**The parser.** A separate vendor-log parser, `upload/wafer_flat_data.py` (module `WaferFlat`), turns a flatness log into rows. Its handler uploads each file of its folder at most once; a file whose processing raised is processed again on the next event.

**Shared helpers.** The string helpers the pipeline relies on are written out as functions with their own proofs:
- `Strings`, `Paths`: Python's `str.replace`, `split`, `strip`, `os.path.basename`/`dirname`/`join` on `/` paths;
- `FileInfo`: `extract_file_info` and the `#1` renaming;
- `CommonName`: `extract_common_name`, with the regex `(.+)_\d+\.\w+$` and its backtracking written out;
- `Timestamp`: the `Date and Time:` search, `strptime('%m/%d/%Y %I:%M:%S %p')` and `strftime('%Y%m%d_%H%M%S')`.

**What is not modelled concretely.** Everything outside the program is a parameter:
- the clock: each callback gets one reading, `now`, in microseconds;
- `normalize_path`;
- matching of user-supplied regexes;
- reading a file in an encoding, which gives None where Python raises;
- whether `shutil.copy2` succeeds;
- the directories `os.walk` visits.

The filesystem is a map from directory to its list of file names. The events log, the PDFs written and the jobs submitted to the thread pool are sequences in `Workspace.World`.

**Exceptions.** An exception is the `Raised` case of `Attempt`. The consumer's per-tuple `try`/`except` keeps the state reached before the raise (`Processor.Settle`).

**Where the code and its description differ, the model follows the code:**
- Image batches are not sorted. They are in `os.walk` order.
- `process_images` does not check that the trigger lies under a `wf_info` folder.
- The comment on `extract_common_name` promises `file_` for `file_01.txt`. The regex group is `file` (`CommonName.StemMatchExample`).
- The current `WfInfoFolderHandler` queues two-element tuples, so the image gate in `event_processor` never opens for them (`Processor.WfInfoTuplesAreInert`).
- The current `create_file_based_on_datetime` lets a `strptime` failure propagate. The image step of that tuple is then skipped (`Processor.BaseDateGate`). The earlier revision catches every exception and returns False instead (`Legacy.LegacyMarkerAgrees`).

## Model

| member | source | states |
|---|---|---|
| Handlers.Hub.Admit | file_monitor/target_folders_handler.py:31-36 | an event is accepted exactly when its key is absent or the last acceptance is more than one window old; then the key is stamped with `now` and one tuple is appended, otherwise ledger and queue are unchanged |
| Handlers.Hub.Take | file_monitor/event_processor.py:162 | the consumer takes the oldest tuple (FIFO) and leaves the ledger alone |
| Handlers.StartsWithAnySpec | file_monitor/target_folders_handler.py:20-22 | exclusion is a plain string-prefix test against some normalised exclude folder |
| Handlers.NormalizeAll | file_monitor/target_folders_handler.py:12 | exclude folders are normalised one by one, in order |
| Handlers.TargetFoldersHandler.constructor | file_monitor/target_folders_handler.py:8-17 | the exclude folders are stored normalised; no creation time is recorded yet |
| Handlers.TargetFoldersHandler.OnCreated | file_monitor/target_folders_handler.py:25-37 | directory and excluded events change nothing; otherwise the creation time is recorded even when the event is debounced, and the `created` tuple is admitted by the 1 s rule |
| Handlers.TargetFoldersHandler.OnModified | file_monitor/target_folders_handler.py:39-57 | a modification less than 1 s after the recorded creation is dropped before the ledger is consulted; otherwise the 1 s rule admits a `modified` tuple |
| Handlers.TargetFoldersHandler.OnDeleted | file_monitor/target_folders_handler.py:59-70 | a `deleted` tuple under its own key, after the exclusion test |
| Handlers.TargetFoldersHandler.OnMoved | file_monitor/target_folders_handler.py:72-83 | exclusion is tested on the source only; the key and the tuple carry both paths |
| Handlers.BaseDateFolderHandler.constructor | file_monitor/base_date_folder_handler.py:7-16 | the image folder is normalised and the wait time fixed once, at construction |
| Handlers.BaseDateFolderHandler.OnCreated | file_monitor/base_date_folder_handler.py:18-26 | no exclusion; the creation time is recorded first; an accepted event queues `base_date_created` with the captured folder and wait time |
| Handlers.BaseDateFolderHandler.OnModified | file_monitor/base_date_folder_handler.py:28-40 | the creation shadow, then `base_date_modified` with the same captured values |
| Handlers.BaseDateFolderHandler.OnDeleted | file_monitor/base_date_folder_handler.py:42-49 | a plain `deleted` tuple with no extras |
| Handlers.BaseDateFolderHandler.OnMoved | file_monitor/base_date_folder_handler.py:51-59 | a plain `moved` tuple with both paths |
| Handlers.WfInfoFolderHandler.constructor | file_monitor/wf_info_folder_handler.py:7-13 | the compare folders are stored normalised |
| Handlers.WfInfoFolderHandler.OnCreated | file_monitor/wf_info_folder_handler.py:15-24 | only paths under a compare folder; a 5 s window; queues `wf_info_created` with no extras |
| Handlers.WfInfoFolderHandler.OnModified | file_monitor/wf_info_folder_handler.py:26-35 | no creation shadow: the ledger alone decides; queues `wf_info_modified` |
| Handlers.WfInfoFolderHandler.OnDeleted | file_monitor/wf_info_folder_handler.py:37-46 | a plain `deleted` tuple under the 5 s window |
| Handlers.WfInfoFolderHandler.OnMoved | file_monitor/wf_info_folder_handler.py:48-61 | the folder test is on the source; a plain `moved` tuple |
| Handlers.SharedLedgerSuppresses | file_monitor/start_monitoring.py:23 | because the one ledger is keyed by kind and path, a second handler's event for the same key within the window is dropped |
| Events.WindowEdges | file_monitor/target_folders_handler.py:31-47 | the debounce is strict `>` (a repeat exactly one window later is dropped) and the shadow strict `<` (exactly one second later passes) |
| Events.AdmitIsolated | file_monitor/target_folders_handler.py:29-33 | stamping one key leaves every other key, such as another kind on the same path, judged as before |
| Events.DebounceIsAdmits | file_monitor/target_folders_handler.py:31-36 | the stream-level rule is the ledger rule applied call after call |
| Events.DebounceSpaced | file_monitor/target_folders_handler.py:31-36 | for any stream of clock readings, sorted or not, the accepted times come from the stream and are more than one window apart |
| Events.DebounceBurst | file_monitor/target_folders_handler.py:31-36 | every event stamped no later than one window after the last acceptance is dropped, including one the clock stamps earlier |
| Events.DebounceFreshBurst | file_monitor/wf_info_folder_handler.py:19-24 | a burst on a fresh key whose events are stamped no later than one window after the first yields exactly one accepted event |
| FileInfo.ExtractFileInfo | file_monitor/event_processor.py:15-23 | a triple exactly of the shape `<8 digits>_<6 digits>_<[A-Z0-9.]+>_<[A-Z0-9]+>_` at the start of the name |
| FileInfo.ExtractFileInfoExact | file_monitor/event_processor.py:15-23 | a triple is returned exactly when the name has that shape with those parts, so the parts are unique |
| FileInfo.ExtractFileInfoExample | file_monitor/event_processor.py:13 | `20230825_123456_A12345_B67890_` gives (`20230825_123456`, `A12345`, `B67890`) |
| FileInfo.RenamedNameSpec | file_monitor/event_processor.py:34-42 | a name changes only if it holds the datetime, the compare tag and `#1`; such a name always changes; a name without `#1` is kept |
| FileInfo.RenamedKeepsPrefix | file_monitor/event_processor.py:36 | every `#1` is replaced, and a `#`-free leading part survives |
| Workspace.WithFileSpec | file_monitor/event_processor.py:103-104 | creating a file makes it listed in its directory and leaves other directories alone |
| Workspace.RenamedNamesAt | file_monitor/event_processor.py:32-42 | the renamed listing keeps each file at its position |
| Workspace.ReplaceInRootsFrame | file_monitor/event_processor.py:31-42 | directories outside the walk keep their listing; no directory changes size; PDFs and jobs are untouched; the log only grows |
| Workspace.RenameInRootSpec | file_monitor/event_processor.py:34-41 | in a visited directory, a file is renamed (all `#1` replaced by the extract tag) exactly when it holds both tags and `#1` |
| Workspace.Workspace.ReplaceTextInFiles | file_monitor/event_processor.py:27-42 | the nested `os.walk` loops rename and log exactly as `ReplaceInRoots` |
| Workspace.Workspace.RenameInDir | file_monitor/event_processor.py:32-42 | one directory's loop renames in place and logs `File Renamed` entries |
| CommonName.StemMatchSpec | file_monitor/event_processor.py:52 | the `(.+)` group is the longest one that `_\d+\.\w+$` can follow; no match exactly when none can |
| CommonName.ExtractCommonNameSpec | file_monitor/event_processor.py:46-64 | `""` for no paths; always a prefix of the first file name; the group itself when every name matches and starts with it |
| CommonName.ExtractCommonNameCut | file_monitor/event_processor.py:58-62 | the first later name that does not match or does not start with the group gives `commonprefix` of the two |
| CommonName.ExtractCommonNameNoMatch | file_monitor/event_processor.py:53-54 | a first name that does not match is returned whole |
| CommonName.StemMatchOfParts | file_monitor/event_processor.py:52 | a name `<stem>_<digits>.<word>` with a one-line stem and no `_` in the word has exactly `<stem>` as its group |
| CommonName.StemMatchExample | file_monitor/event_processor.py:45 | `file_01.txt` has group `file` |
| Timestamp.SearchIsLeftmost | file_monitor/event_processor.py:87 | the search returns the match at the leftmost matching position, and none only when no position matches |
| Timestamp.MatchYear | file_monitor/event_processor.py:87 | a matched year has at most four digits |
| Timestamp.MatchAtRender | file_monitor/event_processor.py:87 | a rendered `Date and Time:` line parses back to its fields, whatever follows |
| Timestamp.Hour24RoundTrip | file_monitor/event_processor.py:90 | `%I %p` to 24-hour is a bijection between 1..12 with AM/PM and 0..23 |
| Timestamp.MidnightAndNoon | file_monitor/event_processor.py:90 | 12 AM is hour 0, 12 PM is 12, 1 PM is 13 |
| Timestamp.StrptimeValid | file_monitor/event_processor.py:90 | a successful conversion is a real calendar date and time |
| Timestamp.FormatStampRoundTrip | file_monitor/event_processor.py:90 | `YYYYMMDD_HHMMSS` is a stamp token `extract_file_info` accepts and reads back to the same date and time |
| Timestamp.StemSplitsAtLastDot | file_monitor/event_processor.py:100 | `rsplit('.', 1)[0]` removes only the last extension |
| Timestamp.MarkerNameShape | file_monitor/event_processor.py:90-101 | the marker name starts with a valid 15-character stamp, then `_`, the stem and `.na` |
| Timestamp.DeriveSpec | file_monitor/event_processor.py:87-101 | a marker exactly when a match converts; no stamp exactly when no position matches; the marker lies in `<save_to_folder>/wf_info` and is named `<valid stamp>_<stem>.na` |
| Timestamp.DeriveExample | file_monitor/event_processor.py:87-101 | a file whose content is `Date and Time: 01/02/2024 03:04:05 PM` gets the marker `<save_to_folder>/wf_info/20240102_150405_<stem>.na` |
| Processor.FirstMatchFrom | file_monitor/event_processor.py:183-184 | the index of the first rule, in order, whose pattern is found in the name; none only when no rule matches |
| Processor.RouteFirstMatchWins | file_monitor/event_processor.py:183-198 | the first matching rule decides; when source and destination normalise equal nothing is copied; a successful copy lists the file in its destination and logs both paths |
| Processor.RouteNoMatch | file_monitor/event_processor.py:199-201 | with no matching rule, the event is logged without a destination and nothing else happens |
| Processor.Route | file_monitor/event_processor.py:180-201 | the loop with its `matched` flag and `break` does exactly the routing effect |
| Processor.FirstDecodedSpec | file_monitor/event_processor.py:69-84 | cp949, then utf-8, then latin1; the first success wins; no content exactly when all three fail |
| Processor.ReadFirstDecodable | file_monitor/event_processor.py:72-80 | the encoding loop with its `break` yields the first success |
| Processor.CreateMarkerSpec | file_monitor/event_processor.py:67-111 | False with nothing changed when no encoding reads the file or no match is found; raises exactly on a bad stamp; on True the marker exists in `<save_to_folder>/wf_info` and `File Created` is logged |
| Processor.CreateFileBasedOnDatetime | file_monitor/event_processor.py:67-111 | the method does exactly the marker effect, raising where it raises |
| Processor.ImageTokensSpec | file_monitor/event_processor.py:138-139 | unpacking fails exactly when the name has no `_`; otherwise the name starts with `token1_token2`, neither holding `_` |
| Processor.MatchingImagesSpec | file_monitor/event_processor.py:144-148 | the batch is exactly the joined paths of files, in the visited directories, whose names hold both tokens |
| Processor.CollectMatching | file_monitor/event_processor.py:144-148 | the nested loops build the batch in walk order |
| Processor.CollectIn | file_monitor/event_processor.py:146-148 | the inner loop over one directory appends the joined path of every file holding both tokens, in listing order |
| Processor.ProcessImagesSpec | file_monitor/event_processor.py:150-155 | an empty batch writes nothing; otherwise one PDF of the batch, named by `extract_common_name`, a prefix of the first page's name |
| Processor.ProcessImages | file_monitor/event_processor.py:135-155 | the method raises for a name without `_` or a negative wait, and otherwise does the image effect |
| Processor.RunConcat | file_monitor/event_processor.py:159-230 | each tuple is handled on its own inside its `try`: a queue in two parts is handled as the whole |
| Processor.DeletedAndMovedOnlyLog | file_monitor/event_processor.py:203-211 | deleted and moved tuples are only logged, a move with its destination |
| Processor.WfInfoTuplesAreInert | file_monitor/event_processor.py:222-226 | two-element wf_info tuples never open the image gate |
| Processor.BaseDateGate | file_monitor/event_processor.py:167-171 | the save folder defaults to `save_to_folder`; the gate needs a folder, a non-zero wait and a save folder; a raising marker step skips the images |
| Processor.BaseDate | file_monitor/event_processor.py:213-220 | the marker is always attempted, then the gated image step |
| Processor.ProcessItem | file_monitor/event_processor.py:167-230 | one tuple is dispatched by its type as `Step` states |
| Processor.EventProcessor | file_monitor/event_processor.py:158-230 | draining the queue applies the tuples in FIFO order and leaves the ledger alone |
| Legacy.LegacyExtrasRaise | file_monitor.py:305-308 | unpacking raises exactly for tuples with one or two extra elements |
| Legacy.LegacyMarkerAgrees | file_monitor.py:61-94 | cp949 only and never raising: where the current revision raises on a bad stamp, the earlier one returns False with nothing changed, and otherwise both agree |
| Legacy.LegacyCreateFile | file_monitor.py:61-94 | the method does the legacy marker effect |
| Legacy.LegacyPdfName | file_monitor.py:269-292 | the earlier PDF is named `<token1>_<token2>`, which starts the trigger's name, over the same batch the current revision collects |
| Legacy.LegacyMoveNeverLogged | file_monitor.py:305-308 | a moved tuple raises in the unpacking and changes nothing |
| Legacy.LegacyMovesInert | file_monitor.py:305-338 | a queue of moved tuples leaves the state as it was |
| Legacy.LegacyBaseDateSubmits | file_monitor.py:340-344 | the marker is attempted, then one image job with the handler's values is submitted exactly when all three extras are truthy |
| Legacy.LegacyEventProcessor | file_monitor.py:294-347 | draining the queue applies the tuples in order, keeping `dest_path` across tuples |
| Legacy.LegacyProcessItem | file_monitor.py:304-347 | one tuple of the legacy dispatch, including the stale `dest_path` |
| Legacy.LegacyBaseDateStep | file_monitor.py:340-344 | the marker, then the gated job submission |
| Legacy.LegacyBaseDateFolderHandler.constructor | file_monitor.py:97-107 | both folders are normalised and the wait time fixed once |
| Legacy.LegacyBaseDateFolderHandler.OnCreated | file_monitor.py:109-117 | an accepted creation queues a five-element tuple carrying the image save folder |
| Legacy.LegacyBaseDateFolderHandler.OnModified | file_monitor.py:119-131 | the creation shadow, then the five-element `base_date_modified` tuple |
| Legacy.LegacyBaseDateFolderHandler.OnDeleted | file_monitor.py:133-140 | a plain `deleted` tuple |
| Legacy.LegacyBaseDateFolderHandler.OnMoved | file_monitor.py:142-150 | a plain `moved` tuple with both paths |
| Legacy.CompareAllFrame | file_monitor.py:231-234 | the comparison pass keeps the set of directories, writes no PDF or job, and logs at least one entry per folder |
| Legacy.LegacyWfInfoFolderHandler.constructor | file_monitor.py:211-217 | the compare folders are stored normalised |
| Legacy.LegacyWfInfoFolderHandler.OnCreated | file_monitor.py:219-234 | no folder filter, 1 s window; the renaming pass over every compare folder runs only when the creation is accepted and the name yields all three parts |
| Legacy.LegacyWfInfoFolderHandler.CompareFolders | file_monitor.py:232-234 | the loop renames under each folder and logs one comparison entry per folder |
| Legacy.LegacyWfInfoFolderHandler.OnModified | file_monitor.py:236-248 | this revision has the creation shadow and the 1 s window, and queues a plain `modified` tuple |
| Legacy.LegacyWfInfoFolderHandler.OnDeleted | file_monitor.py:250-257 | a plain `deleted` tuple |
| Legacy.LegacyWfInfoFolderHandler.OnMoved | file_monitor.py:259-267 | a plain `moved` tuple |
| WaferFlat.KeyValuesKeys | upload/wafer_flat_data.py:22-27 | a key is present exactly when some line with a colon has it before its first colon |
| WaferFlat.KeyValuesLastWins | upload/wafer_flat_data.py:24-27 | a key's value comes from the last line with that key |
| WaferFlat.ParseKeyValues | upload/wafer_flat_data.py:23-27 | the loop builds exactly that dictionary |
| WaferFlat.SearchWaferSpec | upload/wafer_flat_data.py:30 | the match is the maximal digit run after the leftmost `W` followed by a digit; none exactly when no such `W` exists |
| WaferFlat.WaferNumberSpec | upload/wafer_flat_data.py:30 | a non-empty id raises exactly when no `W` is followed by a digit, and otherwise gives the value of those digits |
| WaferFlat.FirstHeader | upload/wafer_flat_data.py:38-43 | the first line starting with `Point#`, or none when no line does |
| WaferFlat.FindHeaderLine | upload/wafer_flat_data.py:39-43 | the loop with its `break` finds that line |
| WaferFlat.CleanHeaderPlain | upload/wafer_flat_data.py:45-50 | a header without parentheses is only stripped |
| WaferFlat.CleanHeaderNoCal | upload/wafer_flat_data.py:46 | `<name>(no Cal)` becomes `<name>_noCal` |
| WaferFlat.CleanHeaderMm | upload/wafer_flat_data.py:47 | `<name>(mm)` becomes `<name>` |
| WaferFlat.CleanHeaderMicron | upload/wafer_flat_data.py:48 | `<name>(탆)` becomes `<name>`: the micron unit is removed and the rest stripped |
| WaferFlat.CleanHeaderDieX | upload/wafer_flat_data.py:49 | `<name>(Die X)` becomes `<name>DieX`, surviving the earlier unit steps |
| WaferFlat.CleanHeaderDieY | upload/wafer_flat_data.py:49 | `<name>(Die Y)` becomes `<name>DieY`; the `(Die X)` rewrite leaves it alone |
| WaferFlat.FirstIndex | upload/wafer_flat_data.py:72 | `headers.index`: the first position holding the column |
| WaferFlat.CellOfSpec | upload/wafer_flat_data.py:70-81 | a cell is None exactly when its column is missing from the header, the row is too short or the text is empty |
| WaferFlat.CellsOfSpec | upload/wafer_flat_data.py:70-81 | one cell per expected column in order; the row raises exactly when some cell's text does not convert |
| WaferFlat.RowsOfSpec | upload/wafer_flat_data.py:56-83 | one row per line after the header, each with the file's own fields, one cell per column, and the first value as its point |
| WaferFlat.BuildRows | upload/wafer_flat_data.py:55-83 | the rows loop builds those rows, stopping at the first raise |
| WaferFlat.ProcessFile | upload/wafer_flat_data.py:18-89 | the steps of `process_file` in order |
| WaferFlat.ProcessFileSpec | upload/wafer_flat_data.py:38-65 | nothing is uploaded or removed exactly when no line starts with `Point#`; otherwise one row per line after the first such line, each with every measurement column and the file's lot id |
| WaferFlat.ScanKeepsAtMostOnce | upload/wafer_flat_data.py:12-16 | every upload names a processed file, no file is uploaded twice, and each upload is removed |
| WaferFlat.ScanSkipsProcessed | upload/wafer_flat_data.py:14 | a file already processed is never uploaded again |
| WaferFlat.WaferFlatHandler.OnModified | upload/wafer_flat_data.py:11-16 | the listing loop processes each unprocessed regular file, marks it afterwards, and stops at an exception |

## Left out

- Rendering the PDF (`images_to_pdf`: PIL and reportlab). A PDF is recorded as its folder, base name and pages.
- `time.sleep` is not modelled. Only its refusal of a negative wait is kept, as a raise.
- The earlier revision's `ThreadPoolExecutor` is not modelled. An image job is recorded when it is submitted, and `Legacy.LegacyImageJobEffect` says what running it does; when it runs is not modelled. Its `as_completed` loop comes after a `while True` and is never reached.
- The queue's blocking `get` with a timeout and the endless `while True` are not modelled. The consumer drains the queue it is given.
- Concurrency between watchdog threads and the consumer thread is not modelled. Each callback is one atomic step.
- `datetime.now()` is read up to three times per callback. The model takes a single reading.
- Logging to the debug log (`log_debug`) and `perf_monitor.log_performance` are not modelled.
- `start_monitoring` (observer scheduling and thread start) is not part of this model.
- The unused `event_processor` parameters `base_date_folder` and `target_compare_folders` are not modelled.
- `os.makedirs` and `os.rename` failures are not modelled. Parents created by `makedirs` are not tracked separately.
- Rename collisions are not modelled. A renamed file keeps its place in its directory's listing.
- `normalize_path`, user regex search, file decoding, copy success and the `os.walk` order are parameters. An invalid user pattern is not modelled.
- `\d` and `\w` are their ASCII classes; Python 3 also accepts other Unicode digits and letters in them. `\s` and `strip` use Python's Unicode whitespace set.
- `strptime` accepts only `AM`/`PM`; locale-specific `%p` spellings are not modelled.
- `strftime` pads the year to four digits. This differs from some C libraries for years below 1000.
- `int(wait_time)` on the interface text is taken as already done: the handlers receive an `int`.
- Wafer-flat conversions (`int`, `float`, `pd.to_datetime`) are parameters or kept as the raw text (`Meta.dateTime`).
- Wafer-flat output (`DataFrame`, `to_sql`, `print`, `os.remove`) is not modelled. An upload is recorded as its path and rows, and removal as the path.
- WaferFlat.ScanKeepsAtMostOnce: "no file is uploaded twice" holds because `to_sql` and `os.remove` are taken never to raise. If `os.remove` (upload/wafer_flat_data.py:89) raised after `upload_to_mysql` (line 88, which calls `to_sql`) succeeded, line 16 would be skipped and the same rows would be uploaded again on the next event; that failure is not modelled.
- Processor.ProcessImagesSpec: "one PDF" assumes `Image.open` (file_monitor/event_processor.py:122) succeeds on every matching file. If it fails, the item is aborted with no PDF; that failure is not modelled.
- WaferFlat.ProcessFileSpec: does not state the contents of the metadata fields other than the lot id. `MetaOf` gives them all the same way.
- Legacy.CompareAllFrame: bounds the log's growth from below only. The exact entries are `RenameLog` entries plus one `ComparisonEntry` per folder, as `CompareAll` defines.

## Findings

| source | as written | input that shows it | evidently intended | confidence | as-written member | corrected member |
|---|---|---|---|---|---|---|
| file_monitor.py:305-308, 337-338 | `wait_time = extra[1] if extra else None` reads `extra[1]` whenever `extra` is non-empty | any `('moved', src, dest)` tuple raises `IndexError` before the `moved` branch, so no move is ever logged | log the move with its destination, as the current revision does at file_monitor/event_processor.py:207-211 | not executed | Legacy.LegacyMoveNeverLogged | Processor.DeletedAndMovedOnlyLog |
