/** `os.path` on paths with the single separator `/`. */
module Paths {

  type Path = string

  const Sep: char := '/'

  /** `os.path.basename(p)`: everything after the last separator. */
  function BaseName(p: Path): (r: string)
    ensures |r| <= |p| && r == p[|p| - |r|..]
    ensures Sep !in r
  {
    if p == [] || p[|p| - 1] == Sep then []
    else
      var r := BaseName(p[..|p| - 1]) + [p[|p| - 1]];
      assert p[..|p| - 1][|p| - |r|..] + [p[|p| - 1]] == p[|p| - |r|..];
      r
  }

  /** Everything up to and including the last separator. */
  function Head(p: Path): (h: Path)
    ensures p == h + BaseName(p)
  {
    p[..|p| - |BaseName(p)|]
  }

  /** `s.rstrip('/')`. */
  function TrimSeps(s: string): (r: string)
    ensures r <= s
  {
    if s != [] && s[|s| - 1] == Sep then TrimSeps(s[..|s| - 1]) else s
  }

  /** `os.path.dirname(p)`: the head without its trailing separators, unless
      it consists of separators only. */
  function DirName(p: Path): Path
  {
    var h := Head(p);
    if h != [] && TrimSeps(h) != [] then TrimSeps(h) else h
  }

  /** `os.path.join(dir, name)`. */
  function Join(dir: Path, name: string): (r: Path)
    ensures Sep !in name ==> r == dir + [Sep] + name || r == dir + name
  {
    if name != [] && name[0] == Sep then name
    else if dir == [] || dir[|dir| - 1] == Sep then dir + name
    else dir + [Sep] + name
  }

  /** A name joined onto a directory is that path's base name. */
  lemma BaseNameOfJoin(dir: Path, name: string)
    requires Sep !in name
    ensures BaseName(Join(dir, name)) == name
  {
    if dir == [] || dir[|dir| - 1] == Sep {
      BaseNameAfterSep(dir, name);
    } else {
      BaseNameAfterSep(dir + [Sep], name);
      assert dir + [Sep] + name == Join(dir, name);
    }
  }

  lemma {:induction false} BaseNameAfterSep(head: Path, name: string)
    requires head == [] || head[|head| - 1] == Sep
    requires Sep !in name
    ensures BaseName(head + name) == name
  {
    if name == [] {
      assert head + name == head;
    } else {
      var n' := name[..|name| - 1];
      var last := name[|name| - 1];
      assert last in name;
      assert Sep !in n' by {
        assert forall c :: c in n' ==> c in name;
      }
      BaseNameAfterSep(head, n');
      var p := head + name;
      assert p[|p| - 1] == last;
      assert p[..|p| - 1] == head + n';
      assert BaseName(p) == BaseName(head + n') + [last];
      assert name == n' + [last];
    }
  }

  /** A name joined onto a plain directory (non-empty, no trailing separator)
      lives in that directory. */
  lemma DirNameOfJoin(dir: Path, name: string)
    requires Sep !in name
    requires dir != [] && dir[|dir| - 1] != Sep
    ensures DirName(Join(dir, name)) == dir
  {
    var p := Join(dir, name);
    BaseNameOfJoin(dir, name);
    assert Head(p) == dir + [Sep];
    assert TrimSeps(dir + [Sep]) == TrimSeps(dir);
  }
}
