/** Directory names taken from Vim paths (`get_directory`, `get_filedir`): the path is cut with
    `re.split(r"[\\/]", path)` and one segment is picked from the end. */
module Paths {

  predicate IsSep(c: char)
  {
    c == '/' || c == '\\'
  }

  predicate NoSep(s: string)
  {
    forall i :: 0 <= i < |s| ==> !IsSep(s[i])
  }

  function CountSeps(s: string): nat
    decreases |s|
  {
    if s == [] then 0 else CountSeps(s[..|s| - 1]) + (if IsSep(s[|s| - 1]) then 1 else 0)
  }

  /** `re.split(r"[\\/]", s)`: the runs between separators, empty runs included. The last
      segment is the longest separator-free suffix of s. */
  function Split(s: string): (r: seq<string>)
    ensures |r| == CountSeps(s) + 1
    ensures forall k :: 0 <= k < |r| ==> NoSep(r[k])
    decreases |s|
  {
    if s == [] then [[]]
    else
      var init := Split(s[..|s| - 1]);
      var c := s[|s| - 1];
      if IsSep(c) then init + [[]]
      else init[..|init| - 1] + [init[|init| - 1] + [c]]
  }

  /** A path without separators is a single segment. */
  lemma {:induction false} SplitNoSep(s: string)
    requires NoSep(s)
    ensures Split(s) == [s]
    decreases |s|
  {
    if s != [] {
      SplitNoSep(s[..|s| - 1]);
      assert s[..|s| - 1] + [s[|s| - 1]] == s;
    }
  }

  /** Cutting after the last separator: what precedes it splits on its own, the rest is one segment. */
  lemma {:induction false} SplitLastSep(p: string, c: char, d: string)
    requires IsSep(c) && NoSep(d)
    ensures Split(p + [c] + d) == Split(p) + [d]
    decreases |d|
  {
    var s := p + [c] + d;
    if d == [] {
      assert s[..|s| - 1] == p && s[|s| - 1] == c;
      SplitAtSep(s);
    } else {
      var d', x := d[..|d| - 1], d[|d| - 1];
      assert d == d' + [x];
      assert s == (p + [c] + d') + [x];
      assert s[..|s| - 1] == p + [c] + d' && s[|s| - 1] == x;
      assert NoSep(d') by {
        forall i | 0 <= i < |d'| ensures !IsSep(d'[i]) {
          assert d'[i] == d[i];
        }
      }
      SplitLastSep(p, c, d');
      SplitExtend(s);
      SplitGrowLast(Split(p), d', x);
    }
  }

  lemma SplitAtSep(s: string)
    requires s != [] && IsSep(s[|s| - 1])
    ensures Split(s) == Split(s[..|s| - 1]) + [[]]
  {
  }

  lemma SplitExtend(s: string)
    requires s != [] && !IsSep(s[|s| - 1])
    ensures var init := Split(s[..|s| - 1]);
      Split(s) == init[..|init| - 1] + [init[|init| - 1] + [s[|s| - 1]]]
  {
  }

  /** Appending to the last segment of `segs + [d]`. */
  lemma SplitGrowLast(segs: seq<string>, d: string, x: char)
    ensures var init := segs + [d];
      init[..|init| - 1] + [init[|init| - 1] + [x]] == segs + [d + [x]]
  {
    var init := segs + [d];
    assert init[..|init| - 1] == segs;
  }

  /** The last segment is the longest separator-free suffix. */
  lemma {:induction false} LastSegment(s: string)
    ensures var segs := Split(s); var d := segs[|segs| - 1];
      |d| <= |s| && s[|s| - |d|..] == d && (|d| < |s| ==> IsSep(s[|s| - |d| - 1]))
    decreases |s|
  {
    if s != [] {
      var s', c := s[..|s| - 1], s[|s| - 1];
      LastSegment(s');
      var init := Split(s');
      var d0 := init[|init| - 1];
      if !IsSep(c) {
        SplitExtend(s);
        var d := d0 + [c];
        assert Split(s)[|Split(s)| - 1] == d;
        assert s[|s| - |d|..] == s'[|s'| - |d0|..] + [c];
        if |d| < |s| {
          assert s[|s| - |d| - 1] == s'[|s'| - |d0| - 1];
        }
      } else {
        SplitAtSep(s);
        assert Split(s)[|Split(s)| - 1] == [];
      }
    }
  }

  /** `get_directory`: the last segment of the working directory. */
  function GetDirectory(cwd: string): (r: string)
    ensures NoSep(r)
    ensures |r| <= |cwd| && cwd[|cwd| - |r|..] == r
    ensures |r| < |cwd| ==> IsSep(cwd[|cwd| - |r| - 1])
  {
    LastSegment(cwd);
    var segs := Split(cwd);
    segs[|segs| - 1]
  }

  /** `get_filedir`: the second-to-last segment of the file's full path; when the path has no
      separator, indexing [-2] raises and the bare `except` falls back to `get_directory`. */
  function GetFiledir(path: string, cwd: string): string
  {
    var segs := Split(path);
    if |segs| >= 2 then segs[|segs| - 2] else GetDirectory(cwd)
  }

  /** The file directory is the last segment of what precedes the file name's separator. */
  lemma FiledirIsParent(p: string, c: char, d: string, cwd: string)
    requires IsSep(c) && NoSep(d)
    ensures GetFiledir(p + [c] + d, cwd) == GetDirectory(p)
  {
    SplitLastSep(p, c, d);
    var segs := Split(p + [c] + d);
    assert segs[|segs| - 2] == Split(p)[|Split(p)| - 1];
  }

  /** A bare file name (an empty buffer name included) falls back to the working directory. */
  lemma FiledirFallback(path: string, cwd: string)
    requires NoSep(path)
    ensures GetFiledir(path, cwd) == GetDirectory(cwd)
  {
    SplitNoSep(path);
  }

  /** Every path is one of the two cases above. */
  lemma {:induction false} PathCases(s: string)
    ensures NoSep(s) || exists i :: 0 <= i < |s| && IsSep(s[i]) && NoSep(s[i + 1..])
    decreases |s|
  {
    if s != [] && !NoSep(s) {
      LastSegment(s);
      var d := Split(s)[|Split(s)| - 1];
      var i := |s| - |d| - 1;
      assert s[i + 1..] == d;
    }
  }
}
