/** The part of the outside world the pipeline touches: directory
    listings, the event log, the PDFs it writes, and (in the one-file
    revision) the image jobs handed to the thread pool. */
module Workspace {
  import opened Wrappers
  import opened Strings
  import opened Paths
  import opened FileInfo
  import Events

  type Name = string

  /** One `log_event(event_type, src_path, dest_path)` call. */
  datatype LogEntry = LogEntry(kind: string, src: Option<string>, dest: Option<string>)

  /** `images_to_pdf(image_paths, output_folder, base_name)`: the pages in order. */
  datatype Pdf = Pdf(folder: Path, baseName: string, pages: seq<Path>)

  /** A `process_images` call submitted to the pool. */
  datatype ImageJob = ImageJob(tag: Events.Tag, src: Path, imageFolder: Path, wait: int, saveFolder: Path)

  datatype World = World(dirs: map<Path, seq<Name>>, log: seq<LogEntry>, pdfs: seq<Pdf>, jobs: seq<ImageJob>)

  /** The file names in directory `d`, in listing order. */
  function Listing(dirs: map<Path, seq<Name>>, d: Path): seq<Name>
  {
    if d in dirs then dirs[d] else []
  }

  /** `os.makedirs(d)` when `d` does not exist yet (parents are not tracked). */
  function MakeDirs(dirs: map<Path, seq<Name>>, d: Path): map<Path, seq<Name>>
  {
    if d in dirs then dirs else dirs[d := []]
  }

  /** Creating (or overwriting) file `name` in directory `d`. */
  function WithFile(dirs: map<Path, seq<Name>>, d: Path, name: Name): map<Path, seq<Name>>
  {
    if name in Listing(dirs, d) then dirs else dirs[d := Listing(dirs, d) + [name]]
  }

  lemma WithFileSpec(dirs: map<Path, seq<Name>>, d: Path, name: Name, e: Path)
    ensures name in Listing(WithFile(dirs, d, name), d)
    ensures Listing(dirs, d) <= Listing(WithFile(dirs, d, name), d)
    ensures e != d ==> Listing(WithFile(dirs, d, name), e) == Listing(dirs, e)
  {
  }

  /** The listing of one directory after the renaming pass. */
  function RenamedNames(info: FileInfo, names: seq<Name>): (r: seq<Name>)
    ensures |r| == |names|
  {
    if names == [] then []
    else RenamedNames(info, names[..|names| - 1]) + [RenamedName(info, names[|names| - 1])]
  }

  /** The name is renamed in place, at the same position of its directory. */
  lemma {:induction false} RenamedNamesAt(info: FileInfo, names: seq<Name>, k: nat)
    requires k < |names|
    ensures RenamedNames(info, names)[k] == RenamedName(info, names[k])
  {
    if k < |names| - 1 {
      RenamedNamesAt(info, names[..|names| - 1], k);
    }
  }

  /** Whether `replace_text_in_files` renames a file of this name. */
  predicate RenameTarget(info: FileInfo, name: Name)
  {
    Contains(name, info.datetime) && Contains(name, info.compare) && Contains(name, "#1")
  }

  /** `log_event("File Renamed", f"{old_path} -> {new_filename}")` for each renamed file. */
  function RenameLog(info: FileInfo, root: Path, names: seq<Name>): seq<LogEntry>
  {
    if names == [] then []
    else
      var n := names[|names| - 1];
      RenameLog(info, root, names[..|names| - 1])
      + (if RenameTarget(info, n)
         then [LogEntry("File Renamed", Some(Join(root, n) + " -> " + RenamedName(info, n)), None)]
         else [])
  }

  /** One directory visited by `os.walk`. */
  function RenameInRoot(w: World, info: FileInfo, root: Path): World
  {
    var names := Listing(w.dirs, root);
    w.(dirs := if root in w.dirs then w.dirs[root := RenamedNames(info, names)] else w.dirs,
       log := w.log + RenameLog(info, root, names))
  }

  /** All directories `os.walk(target_folder)` visits, in order. */
  function ReplaceInRoots(w: World, info: FileInfo, roots: seq<Path>): World
  {
    if roots == [] then w
    else RenameInRoot(ReplaceInRoots(w, info, roots[..|roots| - 1]), info, roots[|roots| - 1])
  }

  /** Directories outside the walk keep their listing; the PDFs and jobs
      do not change; a visited directory keeps its size. */
  lemma {:induction false} ReplaceInRootsFrame(w: World, info: FileInfo, roots: seq<Path>, d: Path)
    ensures d !in roots ==> Listing(ReplaceInRoots(w, info, roots).dirs, d) == Listing(w.dirs, d)
    ensures |Listing(ReplaceInRoots(w, info, roots).dirs, d)| == |Listing(w.dirs, d)|
    ensures ReplaceInRoots(w, info, roots).dirs.Keys == w.dirs.Keys
    ensures ReplaceInRoots(w, info, roots).pdfs == w.pdfs && ReplaceInRoots(w, info, roots).jobs == w.jobs
    ensures w.log <= ReplaceInRoots(w, info, roots).log
  {
    if roots != [] {
      var init := roots[..|roots| - 1];
      ReplaceInRootsFrame(w, info, init, d);
      assert d !in roots ==> d !in init;
    }
  }

  /** In a visited directory, the file at each position is renamed exactly
      when it holds both tags and `#1`, by replacing every `#1` with the
      extract tag; all other files keep their name. */
  lemma RenameInRootSpec(w: World, info: FileInfo, root: Path, k: nat)
    requires AllExtract(info.extract)
    requires root in w.dirs && k < |w.dirs[root]|
    ensures var old_ := w.dirs[root][k];
      var new_ := RenameInRoot(w, info, root).dirs[root][k];
      && (RenameTarget(info, old_) ==> new_ == ReplaceAll(old_, "#1", info.extract) && new_ != old_)
      && (!RenameTarget(info, old_) ==> new_ == old_)
  {
    var old_ := w.dirs[root][k];
    RenamedNamesAt(info, w.dirs[root], k);
    RenamedNameSpec(info, old_);
  }

  /** The environment a callback or the consumer acts on. */
  class Workspace {
    var dirs: map<Path, seq<Name>>
    var log: seq<LogEntry>
    var pdfs: seq<Pdf>
    var jobs: seq<ImageJob>

    constructor (dirs: map<Path, seq<Name>>)
      ensures State() == World(dirs, [], [], [])
    {
      this.dirs := dirs;
      log := [];
      pdfs := [];
      jobs := [];
    }

    function State(): World
      reads this
    {
      World(dirs, log, pdfs, jobs)
    }

    method Log(kind: string, src: Option<string>, dest: Option<string>)
      modifies this
      ensures State() == old(State()).(log := old(log) + [LogEntry(kind, src, dest)])
    {
      log := log + [LogEntry(kind, src, dest)];
    }

    method MakeDir(d: Path)
      modifies this
      ensures State() == old(State()).(dirs := MakeDirs(old(dirs), d))
    {
      dirs := MakeDirs(dirs, d);
    }

    method CreateFile(d: Path, name: Name)
      modifies this
      ensures State() == old(State()).(dirs := WithFile(old(dirs), d, name))
    {
      dirs := WithFile(dirs, d, name);
    }

    method AddPdf(pdf: Pdf)
      modifies this
      ensures State() == old(State()).(pdfs := old(pdfs) + [pdf])
    {
      pdfs := pdfs + [pdf];
    }

    method Submit(job: ImageJob)
      modifies this
      ensures State() == old(State()).(jobs := old(jobs) + [job])
    {
      jobs := jobs + [job];
    }

    /** `replace_text_in_files(wf_file_info, target_folder, ...)`, where
        `roots` is what `os.walk(target_folder)` visits. */
    method ReplaceTextInFiles(info: FileInfo, roots: seq<Path>)
      modifies this
      ensures State() == ReplaceInRoots(old(State()), info, roots)
    {
      var i := 0;
      while i < |roots|
        invariant 0 <= i <= |roots|
        invariant State() == ReplaceInRoots(old(State()), info, roots[..i])
      {
        RenameInDir(info, roots[i]);
        assert roots[..i + 1][..i] == roots[..i];
        i := i + 1;
      }
      assert roots[..i] == roots;
    }

    /** The inner loop over one directory: its file list is read once,
        before any of its files is renamed. */
    method RenameInDir(info: FileInfo, root: Path)
      modifies this
      ensures State() == RenameInRoot(old(State()), info, root)
    {
      var files := Listing(dirs, root);
      var current := files;
      ghost var start := State();
      var j := 0;
      RenamedPrefixStart(info, files);
      while j < |files|
        invariant 0 <= j <= |files|
        invariant pdfs == start.pdfs && jobs == start.jobs
        invariant current == RenamedNames(info, files[..j]) + files[j..]
        invariant dirs == if root in start.dirs then start.dirs[root := current] else start.dirs
        invariant log == start.log + RenameLog(info, root, files[..j])
      {
        var filename := files[j];
        RenamedPrefixStep(info, files, j, root);
        if Contains(filename, info.datetime) && Contains(filename, info.compare) {
          var newName := ReplaceAll(filename, "#1", info.extract);
          if Contains(filename, "#1") {
            current := current[j := newName];
            dirs := dirs[root := current];
            log := log + [LogEntry("File Renamed", Some(Join(root, filename) + " -> " + newName), None)];
          }
        }
        j := j + 1;
      }
      assert files[..j] == files;
      assert current == RenamedNames(info, files) + [];
      assert current == RenamedNames(info, files);
      assert start == old(State());
      assert log == old(log) + RenameLog(info, root, files);
      assert dirs == RenameInRoot(old(State()), info, root).dirs;
    }
  }

  lemma RenamedPrefixStart(info: FileInfo, files: seq<Name>)
    ensures RenamedNames(info, files[..0]) + files[0..] == files
    ensures forall root :: RenameLog(info, root, files[..0]) == []
  {
    assert files[..0] == [];
  }

  /** One more file of the captured list has been visited. */
  lemma RenamedPrefixStep(info: FileInfo, files: seq<Name>, j: nat, root: Path)
    requires j < |files|
    ensures RenamedNames(info, files[..j + 1]) + files[j + 1..]
         == (RenamedNames(info, files[..j]) + files[j..])[j := RenamedName(info, files[j])]
    ensures !RenameTarget(info, files[j]) ==>
      RenamedNames(info, files[..j + 1]) + files[j + 1..] == RenamedNames(info, files[..j]) + files[j..]
    ensures RenameLog(info, root, files[..j + 1]) == RenameLog(info, root, files[..j])
      + (if RenameTarget(info, files[j])
         then [LogEntry("File Renamed", Some(Join(root, files[j]) + " -> " + RenamedName(info, files[j])), None)]
         else [])
  {
    assert files[..j + 1][..j] == files[..j];
  }
}
