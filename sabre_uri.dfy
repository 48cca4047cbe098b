/**
 * The part of `Sabre\Uri\split` that the adapter uses: `list(, $name) = split($path)`.
 * The library matches `$path` against `^(?:(?:(.*)(?:\/+))?([^\/]+))(?:\/?)$` and returns the
 * second group as the name, or `null` when the path does not match. For a path without a line
 * feed this is: drop one trailing '/', and the name is the maximal run of non-'/' characters at
 * the end of what is left; there is none when what is left is empty or ends in '/'. Paths with a
 * line feed are outside this model: in the pattern `.` does not match a line feed and `$` also
 * matches before a final one, so the library can differ there (it gives `null` for "a\nb/c").
 */
module SabreUri {
  import opened Wrappers

  /** The maximal suffix of `p` that contains no '/'. */
  function TrailingSegment(p: string): (seg: string)
    ensures '/' !in seg
  {
    if p == [] || p[|p| - 1] == '/' then [] else TrailingSegment(p[..|p| - 1]) + [p[|p| - 1]]
  }

  /** TrailingSegment is a suffix of its argument, and the character before it (if any) is '/'. */
  lemma {:induction false} TrailingSegmentIsMaximalSuffix(p: string)
    ensures |TrailingSegment(p)| <= |p|
    ensures TrailingSegment(p) == p[|p| - |TrailingSegment(p)|..]
    ensures |TrailingSegment(p)| < |p| ==> p[|p| - |TrailingSegment(p)| - 1] == '/'
    decreases |p|
  {
    if p != [] && p[|p| - 1] != '/' {
      var init := p[..|p| - 1];
      TrailingSegmentIsMaximalSuffix(init);
      var n := |TrailingSegment(init)|;
      assert init[|init| - n..] + [p[|p| - 1]] == p[|p| - n - 1..];
    }
  }

  /** The name part of `Sabre\Uri\split(path)`; `None` is the library's `null`. */
  function SplitName(path: string): (name: Option<string>)
    ensures name.Some? ==> name.value != [] && '/' !in name.value
  {
    var p := if path != [] && path[|path| - 1] == '/' then path[..|path| - 1] else path;
    if p == [] || p[|p| - 1] == '/' then None else Some(TrailingSegment(p))
  }

  /** Split finds no name exactly for the empty path, "/" and paths ending in "//". */
  lemma SplitNameNull(path: string)
    ensures SplitName(path).None? <==> path == [] || path == "/" || (|path| >= 2 && path[|path| - 2..] == "//")
  {
  }

  /** A name without '/' is the trailing segment of anything ending in '/' followed by it. */
  lemma {:induction false} TrailingSegmentAfter(dir: string, name: string)
    requires '/' !in name
    requires dir == [] || dir[|dir| - 1] == '/'
    ensures TrailingSegment(dir + name) == name
    decreases |name|
  {
    var p := dir + name;
    if name != [] {
      var init := name[..|name| - 1];
      assert p[..|p| - 1] == dir + init;
      assert name[|name| - 1] != '/' by { assert name[|name| - 1] in name; }
      assert '/' !in init by {
        forall i | 0 <= i < |init| ensures init[i] != '/' { assert init[i] == name[i]; assert name[i] in name; }
      }
      TrailingSegmentAfter(dir, init);
      assert init + [name[|name| - 1]] == name;
    } else {
      assert p == dir;
    }
  }

  /** `split(dir . name)` yields `name`, with or without one trailing '/', when `dir` is empty or ends in '/'. */
  lemma SplitNameOfJoin(dir: string, name: string)
    requires name != [] && '/' !in name
    requires dir == [] || dir[|dir| - 1] == '/'
    ensures SplitName(dir + name) == Some(name)
    ensures SplitName(dir + name + "/") == Some(name)
  {
    var p := dir + name;
    assert p[|p| - 1] == name[|name| - 1];
    assert name[|name| - 1] != '/' by { assert name[|name| - 1] in name; }
    TrailingSegmentAfter(dir, name);
    assert (p + "/")[..|p|] == p;
  }

  /** A path with no '/' at all is its own name. */
  lemma SplitNameOfPlainName(name: string)
    requires name != [] && '/' !in name
    ensures SplitName(name) == Some(name)
  {
    SplitNameOfJoin([], name);
    assert [] + name == name;
  }
}
