/** `extract_common_name`: the base name a batch of images is saved under. */
module CommonName {
  import opened Wrappers
  import opened Strings
  import opened Paths

  /** `\w` on ASCII text. */
  predicate IsWordChar(c: char)
  {
    ('a' <= c <= 'z') || ('A' <= c <= 'Z') || ('0' <= c <= '9') || c == '_'
  }

  predicate AllWord(s: string)
  {
    forall i :: 0 <= i < |s| ==> IsWordChar(s[i])
  }

  /** Length of the leading run of digits. */
  function DigitRun(s: string): (n: nat)
    ensures n <= |s|
    ensures AllDigits(s[..n])
    ensures n < |s| ==> !IsDigit(s[n])
  {
    if s != [] && IsDigit(s[0]) then
      var n := 1 + DigitRun(s[1..]);
      assert s[..n] == [s[0]] + s[1..][..n - 1];
      n
    else 0
  }

  /** `_\d+\.\w+$` matched against all of `t`; `$` also matches just before
      a final newline. The digits stop at the first non-digit, which must
      be the dot, so the split is forced. */
  predicate SuffixShape(t: string)
  {
    && |t| >= 1 && t[0] == '_'
    && var d := DigitRun(t[1..]);
    && d >= 1 && 1 + d < |t| && t[1 + d] == '.'
    && var w := t[2 + d..];
    || (|w| >= 1 && AllWord(w))
    || (|w| >= 2 && w[|w| - 1] == '\n' && AllWord(w[..|w| - 1]))
  }

  /** Where `.` stops: the first newline, or the end. */
  function LineEnd(s: string): (n: nat)
    ensures n <= |s|
    ensures '\n' !in s[..n]
    ensures n < |s| ==> s[n] == '\n'
  {
    if s == [] || s[0] == '\n' then 0
    else
      var n := 1 + LineEnd(s[1..]);
      assert s[..n] == [s[0]] + s[1..][..n - 1];
      n
  }

  /** Group 1 of `(.+)` may end at `k`. */
  predicate IsStemEnd(name: string, k: nat)
  {
    1 <= k <= LineEnd(name) && SuffixShape(name[k..])
  }

  /** The greedy `(.+)`: try the longest group first, then shorter ones. */
  function StemMatchFrom(name: string, k: nat): Option<string>
    requires k <= |name|
  {
    if k == 0 then None
    else if SuffixShape(name[k..]) then Some(name[..k])
    else StemMatchFrom(name, k - 1)
  }

  /** `re.match(r"(.+)_\d+\.\w+$", name)`: group 1, if it matches. */
  function StemMatch(name: string): Option<string>
  {
    StemMatchFrom(name, LineEnd(name))
  }

  lemma StemMatchFromStep(name: string, k: nat)
    requires 0 < k <= |name|
    ensures SuffixShape(name[k..]) ==> StemMatchFrom(name, k) == Some(name[..k])
    ensures !SuffixShape(name[k..]) ==> StemMatchFrom(name, k) == StemMatchFrom(name, k - 1)
  {
  }

  lemma {:induction false} StemMatchFromSpec(name: string, k: nat)
    requires k <= LineEnd(name)
    ensures var r := StemMatchFrom(name, k);
      && (r.Some? ==> 1 <= |r.value| <= k && r.value == name[..|r.value|] && IsStemEnd(name, |r.value|))
      && (r.Some? ==> forall j :: |r.value| < j <= k ==> !IsStemEnd(name, j))
      && (r.None? ==> forall j :: 1 <= j <= k ==> !IsStemEnd(name, j))
  {
    if k > 0 {
      StemMatchFromStep(name, k);
      if SuffixShape(name[k..]) {
        assert |name[..k]| == k;
        assert IsStemEnd(name, k);
      } else {
        assert !IsStemEnd(name, k);
        StemMatchFromSpec(name, k - 1);
        var r := StemMatchFrom(name, k - 1);
        assert StemMatchFrom(name, k) == r;
        if r.Some? {
          forall j | |r.value| < j <= k
            ensures !IsStemEnd(name, j)
          {
            if j < k {
              assert j <= k - 1;
            }
          }
        } else {
          forall j | 1 <= j <= k
            ensures !IsStemEnd(name, j)
          {
            if j < k {
              assert j <= k - 1;
            }
          }
        }
      }
    }
  }

  /** The match finds the longest group that the rest of the pattern can
      follow, and fails only when no group can be followed. */
  lemma StemMatchSpec(name: string)
    ensures StemMatch(name).Some? ==>
      var g := StemMatch(name).value;
      && g <= name && IsStemEnd(name, |g|)
      && forall j :: |g| < j <= |name| ==> !IsStemEnd(name, j)
    ensures StemMatch(name).None? <==> forall j :: 0 <= j <= |name| ==> !IsStemEnd(name, j)
  {
    StemMatchFromSpec(name, LineEnd(name));
  }

  /** The name of `path` matches the pattern and starts with `stem`. */
  predicate SharesStem(stem: string, path: Path)
  {
    StemMatch(BaseName(path)).Some? && stem <= BaseName(path)
  }

  /** The loop over the names from position `k` on: the first one that
      does not match, or does not start with `common`, ends it. */
  function CommonLoop(common: string, paths: seq<Path>, k: nat): (r: string)
    requires k <= |paths|
    ensures r <= common
    decreases |paths| - k
  {
    if k == |paths| then common
    else if !SharesStem(common, paths[k]) then CommonPrefix(common, BaseName(paths[k]))
    else CommonLoop(common, paths, k + 1)
  }

  /** `extract_common_name(file_paths)`. */
  function ExtractCommonName(paths: seq<Path>): string
  {
    if paths == [] then ""
    else
      var base := BaseName(paths[0]);
      match StemMatch(base)
      case None => base
      case Some(common) => CommonLoop(common, paths, 1)
  }

  /** A name that does not share the group ends the loop. */
  lemma CommonLoopCut(common: string, paths: seq<Path>, k: nat)
    requires k < |paths| && !SharesStem(common, paths[k])
    ensures CommonLoop(common, paths, k) == CommonPrefix(common, BaseName(paths[k]))
  {
  }

  /** A name that shares the group lets the loop go on. */
  lemma CommonLoopPass(common: string, paths: seq<Path>, k: nat)
    requires k < |paths| && SharesStem(common, paths[k])
    ensures CommonLoop(common, paths, k) == CommonLoop(common, paths, k + 1)
  {
  }

  /** Steps that leave the loop's result unchanged chain together. */
  lemma {:induction false} CommonLoopChain(common: string, paths: seq<Path>, k: nat, i: nat)
    requires k <= i <= |paths|
    requires forall j :: k <= j < i ==> CommonLoop(common, paths, j) == CommonLoop(common, paths, j + 1)
    ensures CommonLoop(common, paths, k) == CommonLoop(common, paths, i)
    decreases i - k
  {
    if k < i {
      CommonLoopChain(common, paths, k + 1, i);
    }
  }

  /** Names that share the group are passed over one by one. */
  lemma CommonLoopSkip(common: string, paths: seq<Path>, k: nat, i: nat)
    requires k <= i <= |paths|
    requires forall j :: k <= j < i ==> SharesStem(common, paths[j])
    ensures CommonLoop(common, paths, k) == CommonLoop(common, paths, i)
  {
    forall j | k <= j < i
      ensures CommonLoop(common, paths, j) == CommonLoop(common, paths, j + 1)
    {
      CommonLoopPass(common, paths, j);
    }
    CommonLoopChain(common, paths, k, i);
  }

  lemma CommonLoopAllShare(common: string, paths: seq<Path>, k: nat)
    requires k <= |paths|
    requires forall j :: k <= j < |paths| ==> SharesStem(common, paths[j])
    ensures CommonLoop(common, paths, k) == common
  {
    CommonLoopSkip(common, paths, k, |paths|);
  }

  /** The first name that fails cuts the result down to what it shares
      with the group. */
  lemma CommonLoopFirstFailure(common: string, paths: seq<Path>, k: nat, i: nat)
    requires k <= i < |paths|
    requires forall j :: k <= j < i ==> SharesStem(common, paths[j])
    requires !SharesStem(common, paths[i])
    ensures CommonLoop(common, paths, k) == CommonPrefix(common, BaseName(paths[i]))
  {
    CommonLoopSkip(common, paths, k, i);
    CommonLoopCut(common, paths, i);
  }

  /** The group is a prefix of the name. */
  lemma StemMatchPrefix(name: string)
    requires StemMatch(name).Some?
    ensures StemMatch(name).value <= name
  {
    StemMatchSpec(name);
  }

  /** The base name is "" for no files, is always a prefix of the first
      file's name, and is the first file's group when every name matches
      and starts with that group. */
  lemma ExtractCommonNameSpec(paths: seq<Path>)
    ensures paths == [] ==> ExtractCommonName(paths) == ""
    ensures paths != [] ==> ExtractCommonName(paths) <= BaseName(paths[0])
    ensures paths != [] && StemMatch(BaseName(paths[0])).Some?
            && (forall j :: 0 <= j < |paths| ==> SharesStem(StemMatch(BaseName(paths[0])).value, paths[j]))
            ==> ExtractCommonName(paths) == StemMatch(BaseName(paths[0])).value
  {
    if paths != [] {
      var base := BaseName(paths[0]);
      if StemMatch(base).Some? {
        var common := StemMatch(base).value;
        StemMatchPrefix(base);
        if forall j :: 0 <= j < |paths| ==> SharesStem(common, paths[j]) {
          CommonLoopAllShare(common, paths, 1);
        }
      }
    }
  }

  /** Past the first file, the first name that does not share the group
      decides the result. */
  lemma ExtractCommonNameCut(paths: seq<Path>, stem: string, i: nat)
    requires 1 <= i < |paths| && StemMatch(BaseName(paths[0])) == Some(stem)
    requires forall j :: 1 <= j < i ==> SharesStem(stem, paths[j])
    requires !SharesStem(stem, paths[i])
    ensures ExtractCommonName(paths) == CommonPrefix(stem, BaseName(paths[i]))
  {
    CommonLoopFirstFailure(stem, paths, 1, i);
  }

  /** A name whose first file does not match gives that whole file name. */
  lemma ExtractCommonNameNoMatch(paths: seq<Path>)
    requires paths != [] && StemMatch(BaseName(paths[0])).None?
    ensures ExtractCommonName(paths) == BaseName(paths[0])
  {
  }

  /** Ends at which the suffix cannot start are skipped one by one. */
  lemma {:induction false} StemMatchFromSkip(name: string, lo: nat, hi: nat)
    requires lo <= hi <= |name|
    requires forall k :: lo < k <= hi ==> !SuffixShape(name[k..])
    ensures StemMatchFrom(name, hi) == StemMatchFrom(name, lo)
    decreases hi - lo
  {
    if lo < hi {
      StemMatchFromStep(name, hi);
      StemMatchFromSkip(name, lo, hi - 1);
    }
  }

  /** Without a newline, `.` runs to the end. */
  lemma {:induction false} LineEndWhole(s: string)
    requires '\n' !in s
    ensures LineEnd(s) == |s|
  {
    if s != [] {
      assert s[0] in s;
      assert forall c :: c in s[1..] ==> c in s;
      LineEndWhole(s[1..]);
    }
  }

  /** A run of digits followed by a non-digit is exactly the digit run. */
  lemma {:induction false} DigitRunOf(d: string, rest: string)
    requires AllDigits(d)
    requires rest == [] || !IsDigit(rest[0])
    ensures DigitRun(d + rest) == |d|
  {
    if d != [] {
      assert (d + rest)[1..] == d[1..] + rest;
      DigitRunOf(d[1..], rest);
    } else {
      assert d + rest == rest;
    }
  }

  /** No end past the last underscore can start the suffix. */
  lemma NoSuffixPast(name: string, lo: nat)
    requires lo <= |name|
    requires forall i :: lo < i < |name| ==> name[i] != '_'
    ensures forall k :: lo < k <= |name| ==> !SuffixShape(name[k..])
  {
    forall k | lo < k <= |name|
      ensures !SuffixShape(name[k..])
    {
      if k < |name| {
        assert name[k..][0] == name[k];
      }
    }
  }

  /** `_<digits>.<word>` is the suffix the pattern wants. */
  lemma SuffixOfParts(d: string, w: string)
    requires d != [] && AllDigits(d) && w != [] && AllWord(w)
    ensures SuffixShape("_" + d + "." + w)
  {
    var u := "_" + d + "." + w;
    assert u[1..] == d + ("." + w);
    DigitRunOf(d, "." + w);
    assert u[2 + |d|..] == w;
  }

  /** Past the stem, no end can start the suffix. */
  lemma PartsSkip(stem: string, d: string, w: string)
    requires AllDigits(d) && '_' !in w
    ensures var name := stem + "_" + d + "." + w;
      StemMatchFrom(name, |name|) == StemMatchFrom(name, |stem|)
  {
    var t := d + "." + w;
    var name := stem + "_" + d + "." + w;
    assert name == stem + ("_" + t);
    assert forall i :: |stem| < i < |name| ==> name[i] == t[i - |stem| - 1];
    assert forall i :: 0 <= i < |t| ==> t[i] != '_' by {
      assert forall i :: |d| < i < |t| ==> t[i] == w[i - |d| - 1];
    }
    NoSuffixPast(name, |stem|);
    StemMatchFromSkip(name, |stem|, |name|);
  }

  /** Without a newline in any part, `.` runs to the end of the name. */
  lemma PartsLineEnd(stem: string, d: string, w: string)
    requires '\n' !in stem && AllDigits(d) && AllWord(w)
    ensures var name := stem + "_" + d + "." + w;
      LineEnd(name) == |name|
  {
    var t := d + "." + w;
    var name := stem + "_" + d + "." + w;
    assert name == stem + ("_" + t);
    assert forall i :: |stem| < i < |name| ==> name[i] == t[i - |stem| - 1];
    assert forall i :: 0 <= i < |stem| ==> name[i] == stem[i];
    assert forall i :: 0 <= i < |t| ==> t[i] != '\n' by {
      assert forall i :: |d| < i < |t| ==> t[i] == w[i - |d| - 1];
    }
    assert '\n' !in name;
    LineEndWhole(name);
  }

  /** When nothing after the group's `_` is an underscore, the greedy group
      is everything before that `_`. */
  lemma StemMatchOfParts(stem: string, d: string, w: string)
    requires stem != [] && '\n' !in stem
    requires d != [] && AllDigits(d) && w != [] && AllWord(w) && '_' !in w
    ensures StemMatch(stem + "_" + d + "." + w) == Some(stem)
  {
    var name := stem + "_" + d + "." + w;
    PartsSkip(stem, d, w);
    PartsLineEnd(stem, d, w);
    assert name[|stem|..] == "_" + d + "." + w;
    SuffixOfParts(d, w);
    StemMatchFromStep(name, |stem|);
    assert name[..|stem|] == stem;
  }

  /** `file_01.txt` has group `file` (the underscore belongs to the suffix). */
  lemma StemMatchExample(name: string)
    requires name == "file_01.txt"
    ensures StemMatch(name) == Some("file")
  {
    StemMatchOfParts("file", "01", "txt");
    assert "file" + "_" + "01" + "." + "txt" == name;
  }
}
