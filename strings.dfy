/** Python `str` operations the pipeline relies on, on `seq<char>`. */
module Strings {

  /** `c.isspace()` — also what `\s` matches in a `str` regular expression. */
  predicate IsSpace(c: char)
  {
    c == ' ' || ('\t' <= c <= '\r') || ('\U{1c}' <= c <= '\U{1f}') || c == '\U{85}' || c == '\U{a0}'
    || c == '\U{1680}' || ('\U{2000}' <= c <= '\U{200a}') || c == '\U{2028}' || c == '\U{2029}'
    || c == '\U{202f}' || c == '\U{205f}' || c == '\U{3000}'
  }

  predicate IsDigit(c: char)
  {
    '0' <= c <= '9'
  }

  predicate AllDigits(s: string)
  {
    forall i :: 0 <= i < |s| ==> IsDigit(s[i])
  }

  /** `t in s`. */
  predicate Contains(s: string, t: string)
    decreases |s|
  {
    t <= s || (|s| > 0 && Contains(s[1..], t))
  }

  lemma {:induction false} ContainsIffOccurs(s: string, t: string)
    ensures Contains(s, t) <==> exists i :: 0 <= i <= |s| - |t| && t <= s[i..]
    decreases |s|
  {
    if t <= s {
      assert t <= s[0..];
    } else if |s| > 0 {
      ContainsIffOccurs(s[1..], t);
      if Contains(s[1..], t) {
        var i :| 0 <= i <= |s[1..]| - |t| && t <= s[1..][i..];
        assert s[1..][i..] == s[i + 1..];
        assert t <= s[i + 1..];
      } else {
        forall i | 0 <= i <= |s| - |t|
          ensures !(t <= s[i..])
        {
          if i > 0 {
            assert s[1..][i - 1..] == s[i..];
          }
        }
      }
    }
  }

  /** Number of occurrences of the character `c` in `s`. */
  function Count(s: string, c: char): nat
  {
    if s == [] then 0 else (if s[0] == c then 1 else 0) + Count(s[1..], c)
  }

  lemma {:induction false} CountConcat(a: string, b: string, c: char)
    ensures Count(a + b, c) == Count(a, c) + Count(b, c)
  {
    if a == [] {
      assert a + b == b;
    } else {
      assert (a + b)[0] == a[0];
      assert (a + b)[1..] == a[1..] + b;
      CountConcat(a[1..], b, c);
    }
  }

  /** `s.replace(pat, rep)`: every occurrence, left to right, non-overlapping. */
  function ReplaceAll(s: string, pat: string, rep: string): string
    requires pat != []
    decreases |s|
  {
    if s == [] then []
    else if pat <= s then rep + ReplaceAll(s[|pat|..], pat, rep)
    else [s[0]] + ReplaceAll(s[1..], pat, rep)
  }

  /** A string with no occurrence of the pattern is left as it is. */
  lemma {:induction false} ReplaceAllAbsent(s: string, pat: string, rep: string)
    requires pat != []
    requires !Contains(s, pat)
    ensures ReplaceAll(s, pat, rep) == s
    decreases |s|
  {
    if s != [] {
      ReplaceAllAbsent(s[1..], pat, rep);
    }
  }

  /** A prefix free of the pattern's first character passes through untouched. */
  lemma {:induction false} ReplaceAllKeepsPrefix(p: string, t: string, pat: string, rep: string)
    requires pat != []
    requires pat[0] !in p
    ensures ReplaceAll(p + t, pat, rep) == p + ReplaceAll(t, pat, rep)
    decreases |p|
  {
    if p == [] {
      assert p + t == t;
    } else {
      assert (p + t)[0] == p[0];
      assert !(pat <= p + t);
      assert (p + t)[1..] == p[1..] + t;
      ReplaceAllKeepsPrefix(p[1..], t, pat, rep);
      assert ReplaceAll(p + t, pat, rep) == [p[0]] + ReplaceAll(p[1..] + t, pat, rep);
      assert p == [p[0]] + p[1..];
    }
  }

  /** One occurrence after a prefix free of the pattern's first character
      is replaced, and the rest is processed on. */
  lemma ReplaceAllOnce(p: string, pat: string, rep: string, t: string)
    requires pat != []
    requires pat[0] !in p
    ensures ReplaceAll(p + pat + t, pat, rep) == p + rep + ReplaceAll(t, pat, rep)
  {
    ReplaceAllKeepsPrefix(p, pat + t, pat, rep);
    assert p + pat + t == p + (pat + t);
    assert pat <= pat + t;
    assert (pat + t)[|pat|..] == t;
  }

  /** When the replacement does not contain the pattern's first character,
      every replacement removes one such character: the count never grows,
      and it drops as soon as there was an occurrence. */
  lemma {:induction false} ReplaceAllRemovesLead(s: string, pat: string, rep: string)
    requires pat != []
    requires pat[0] !in rep
    ensures Count(ReplaceAll(s, pat, rep), pat[0]) <= Count(s, pat[0])
    ensures Contains(s, pat) ==> Count(ReplaceAll(s, pat, rep), pat[0]) < Count(s, pat[0])
    decreases |s|
  {
    var c := pat[0];
    if s == [] {
    } else if pat <= s {
      ReplaceAllRemovesLead(s[|pat|..], pat, rep);
      CountConcat(rep, ReplaceAll(s[|pat|..], pat, rep), c);
      CountAbsent(rep, c);
      assert s == pat + s[|pat|..];
      CountConcat(pat, s[|pat|..], c);
      assert pat == [c] + pat[1..];
      CountConcat([c], pat[1..], c);
    } else {
      ReplaceAllRemovesLead(s[1..], pat, rep);
      CountConcat([s[0]], ReplaceAll(s[1..], pat, rep), c);
      assert s == [s[0]] + s[1..];
      CountConcat([s[0]], s[1..], c);
    }
  }

  lemma {:induction false} CountAbsent(s: string, c: char)
    requires c !in s
    ensures Count(s, c) == 0
  {
    if s != [] {
      CountAbsent(s[1..], c);
    }
  }

  /** `s.lstrip()`. */
  function TrimStart(s: string): (r: string)
    ensures |r| <= |s|
  {
    if s != [] && IsSpace(s[0]) then TrimStart(s[1..]) else s
  }

  /** `s.rstrip()`. */
  function TrimEnd(s: string): (r: string)
    ensures |r| <= |s|
  {
    if s != [] && IsSpace(s[|s| - 1]) then TrimEnd(s[..|s| - 1]) else s
  }

  /** `s.strip()`. */
  function Strip(s: string): (r: string)
    ensures |r| <= |s|
  {
    TrimEnd(TrimStart(s))
  }

  /** Where the stripped text starts in `s`. */
  function StripOffset(s: string): nat
  {
    |s| - |TrimStart(s)|
  }

  lemma {:induction false} TrimStartShape(s: string)
    ensures TrimStart(s) == s[|s| - |TrimStart(s)|..]
    ensures forall i :: 0 <= i < |s| - |TrimStart(s)| ==> IsSpace(s[i])
    ensures TrimStart(s) != [] ==> !IsSpace(TrimStart(s)[0])
  {
    if s != [] && IsSpace(s[0]) {
      TrimStartShape(s[1..]);
    }
  }

  lemma {:induction false} TrimEndShape(s: string)
    ensures TrimEnd(s) == s[..|TrimEnd(s)|]
    ensures forall i :: |TrimEnd(s)| <= i < |s| ==> IsSpace(s[i])
    ensures TrimEnd(s) != [] ==> !IsSpace(TrimEnd(s)[|TrimEnd(s)| - 1])
  {
    if s != [] && IsSpace(s[|s| - 1]) {
      TrimEndShape(s[..|s| - 1]);
    }
  }

  /** The stripped string is what lies between the leading and the trailing
      white space, and has none at either end; stripping twice changes nothing. */
  lemma StripShape(s: string)
    ensures StripOffset(s) + |Strip(s)| <= |s|
    ensures Strip(s) == s[StripOffset(s)..StripOffset(s) + |Strip(s)|]
    ensures forall i :: 0 <= i < StripOffset(s) ==> IsSpace(s[i])
    ensures forall i :: StripOffset(s) + |Strip(s)| <= i < |s| ==> IsSpace(s[i])
    ensures Strip(s) != [] ==> !IsSpace(Strip(s)[0]) && !IsSpace(Strip(s)[|Strip(s)| - 1])
    ensures Strip(Strip(s)) == Strip(s)
  {
    StripSlice(s);
    StripEnds(s);
    var r := Strip(s);
    TrimStartKeepsNonSpaceStart(r);
    TrimEndKeepsNonSpaceEnd(r);
  }

  /** Where the stripped text lies in `s`, with white space on both sides. */
  lemma StripSlice(s: string)
    ensures StripOffset(s) + |Strip(s)| <= |s|
    ensures Strip(s) == s[StripOffset(s)..StripOffset(s) + |Strip(s)|]
    ensures forall i :: 0 <= i < StripOffset(s) ==> IsSpace(s[i])
    ensures forall i :: StripOffset(s) + |Strip(s)| <= i < |s| ==> IsSpace(s[i])
  {
    var t := TrimStart(s);
    TrimStartShape(s);
    TrimEndShape(t);
    var r := TrimEnd(t);
    var i := |s| - |t|;
    SliceOfSlice(s, i, |r|);
    TrailOfSlice(s, i, |r|);
  }

  lemma SliceOfSlice(s: string, i: nat, n: nat)
    requires i + n <= |s|
    ensures s[i..][..n] == s[i..i + n]
  {
  }

  /** White space after the stripped part of the tail lies in `s` too. */
  lemma TrailOfSlice(s: string, i: nat, n: nat)
    requires i + n <= |s|
    requires forall j :: n <= j < |s[i..]| ==> IsSpace(s[i..][j])
    ensures forall j :: i + n <= j < |s| ==> IsSpace(s[j])
  {
    forall j | i + n <= j < |s| ensures IsSpace(s[j]) {
      assert s[j] == s[i..][j - i];
    }
  }

  /** The stripped text starts and ends with a non-space. */
  lemma StripEnds(s: string)
    ensures Strip(s) != [] ==> !IsSpace(Strip(s)[0]) && !IsSpace(Strip(s)[|Strip(s)| - 1])
  {
    var t := TrimStart(s);
    TrimStartShape(s);
    TrimEndShape(t);
    var r := TrimEnd(t);
    if r != [] {
      assert r[0] == t[0];
    }
  }

  lemma TrimStartKeepsNonSpaceStart(s: string)
    requires s != [] ==> !IsSpace(s[0])
    ensures TrimStart(s) == s
  {
  }

  lemma TrimEndKeepsNonSpaceEnd(s: string)
    requires s != [] ==> !IsSpace(s[|s| - 1])
    ensures TrimEnd(s) == s
  {
  }

  /** `s.split(c)` for a one-character separator: always at least one piece. */
  function Split(s: string, c: char): (r: seq<string>)
    ensures |r| >= 1
    decreases |s|
  {
    if s == [] then [[]]
    else
      var rest := Split(s[1..], c);
      if s[0] == c then [[]] + rest
      else [[s[0]] + rest[0]] + rest[1..]
  }

  /** `c.join(pieces)`. */
  function JoinWith(pieces: seq<string>, c: char): string
  {
    if pieces == [] then []
    else if |pieces| == 1 then pieces[0]
    else pieces[0] + [c] + JoinWith(pieces[1..], c)
  }

  /** Splitting loses nothing: the pieces hold no separator and joining
      them back gives the original string. */
  lemma {:induction false} SplitJoin(s: string, c: char)
    ensures JoinWith(Split(s, c), c) == s
    ensures forall k :: 0 <= k < |Split(s, c)| ==> c !in Split(s, c)[k]
    decreases |s|
  {
    if s != [] {
      var rest := Split(s[1..], c);
      SplitJoin(s[1..], c);
      if s[0] == c {
        assert Split(s, c)[1..] == rest;
      } else {
        var r := Split(s, c);
        assert r[0] == [s[0]] + rest[0];
        assert r[1..] == rest[1..];
        if |rest| == 1 {
          assert JoinWith(r, c) == r[0];
        } else {
          assert JoinWith(rest, c) == rest[0] + [c] + JoinWith(rest[1..], c);
          assert JoinWith(r, c) == r[0] + [c] + JoinWith(r[1..], c);
        }
        forall k | 0 <= k < |r| ensures c !in r[k] {
          if k > 0 {
            assert r[k] == rest[k];
          }
        }
      }
    }
  }

  /** Index of the first `c` in `s`, if any. */
  function IndexOf(s: string, c: char): (r: Option<nat>)
    ensures r.Some? ==> r.value < |s| && s[r.value] == c && c !in s[..r.value]
    ensures r.None? ==> c !in s
  {
    if s == [] then None
    else if s[0] == c then Some(0)
    else match IndexOf(s[1..], c)
      case None => None
      case Some(i) => assert s[..i + 1] == [s[0]] + s[1..][..i]; Some(i + 1)
  }

  /** `os.path.commonprefix([a, b])`: the longest common prefix. */
  function CommonPrefix(a: string, b: string): (r: string)
    ensures r <= a && r <= b
    ensures |r| < |a| && |r| < |b| ==> a[|r|] != b[|r|]
  {
    if a == [] || b == [] || a[0] != b[0] then []
    else [a[0]] + CommonPrefix(a[1..], b[1..])
  }

  /** Numeric value of a run of decimal digits (`int(s)`). */
  function DigitsValue(s: string): nat
    requires AllDigits(s)
  {
    if s == [] then 0 else DigitsValue(s[..|s| - 1]) * 10 + (s[|s| - 1] - '0') as nat
  }

  function Pow10(w: nat): (r: nat)
    ensures r >= 1
  {
    if w == 0 then 1 else 10 * Pow10(w - 1)
  }

  function DigitChar(d: nat): char
    requires d < 10
  {
    ('0' as int + d) as char
  }

  /** `n` written in exactly `w` digits, zero-padded (strftime's `%m`, `%d`, ...). */
  function Pad(n: nat, w: nat): (r: string)
    ensures |r| == w && AllDigits(r)
  {
    if w == 0 then [] else Pad(n / 10, w - 1) + [DigitChar(n % 10)]
  }

  /** Reading the padded digits back gives the number when it fits the width. */
  lemma {:induction false} PadValue(n: nat, w: nat)
    requires n < Pow10(w)
    ensures DigitsValue(Pad(n, w)) == n
  {
    if w > 0 {
      var p := Pad(n, w);
      assert p[..|p| - 1] == Pad(n / 10, w - 1);
      PadValue(n / 10, w - 1);
    }
  }

  import opened Wrappers
}
