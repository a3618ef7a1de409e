/**
 * The POSIX path functions the widgets call (`os.path.join`, `os.path.dirname`,
 * `os.path.splitext`) and `str.endswith`, on paths written as strings.
 */
module Paths {

  /** The message of the `TypeError` that `os.path.join` raises for a None first argument. */
  const NoOrigin: string := "expected str, bytes or os.PathLike object, not NoneType"

  /** True iff `s` begins with `p` (`str.startswith`). */
  predicate StartsWith(s: string, p: string) {
    |p| <= |s| && s[..|p|] == p
  }

  /** True iff `s` finishes with `suffix` (`str.endswith`). */
  predicate EndsWith(s: string, suffix: string) {
    |suffix| <= |s| && s[|s| - |suffix|..] == suffix
  }

  /** The index of the last `c` in `s`, or -1 (`str.rfind`). */
  function LastIndexOf(s: string, c: char): (r: int)
    ensures -1 <= r < |s|
    ensures r >= 0 ==> s[r] == c
    ensures forall k :: r < k < |s| ==> s[k] != c
  {
    if |s| == 0 then -1
    else if s[|s| - 1] == c then |s| - 1
    else LastIndexOf(s[..|s| - 1], c)
  }

  /** `os.path.join(a, b)`: an absolute `b` replaces `a`; otherwise one '/' separates them. */
  function Join(a: string, b: string): string
  {
    if |b| > 0 && b[0] == '/' then b
    else if a == [] || a[|a| - 1] == '/' then a + b
    else a + "/" + b
  }

  predicate AllSlashes(s: string) {
    forall k :: 0 <= k < |s| ==> s[k] == '/'
  }

  /** `s` without its trailing slashes (`str.rstrip('/')`). */
  function StripTrailingSlashes(s: string): (r: string)
    ensures StartsWith(s, r)
    ensures r != [] ==> r[|r| - 1] != '/'
    ensures AllSlashes(s[|r|..])
  {
    if s == [] || s[|s| - 1] != '/' then s
    else StripTrailingSlashes(s[..|s| - 1])
  }

  /**
   * `os.path.dirname(p)`: everything up to the last '/', without trailing slashes
   * unless that part is made of slashes only.
   */
  function Dirname(p: string): string
  {
    var head := p[..LastIndexOf(p, '/') + 1];
    if head != [] && !AllSlashes(head) then StripTrailingSlashes(head) else head
  }

  /** True iff some character of `s[lo..hi]` is not a dot. */
  predicate HasNonDot(s: string, lo: int, hi: int)
    requires 0 <= lo && hi <= |s|
  {
    exists k :: lo <= k < hi && s[k] != '.'
  }

  /**
   * `os.path.splitext(p)`: the extension runs from the last '.' of the last path
   * component, unless everything before that dot in the component is dots.
   */
  function Splitext(p: string): (r: (string, string))
  {
    var sep := LastIndexOf(p, '/');
    var dot := LastIndexOf(p, '.');
    if dot > sep && HasNonDot(p, sep + 1, dot) then (p[..dot], p[dot..]) else (p, "")
  }

  /** The rule of the save widget: append `ext` unless `name` already ends with it. */
  function WithSuffix(name: string, ext: string): (r: string)
  {
    if EndsWith(name, ext) then name else name + ext
  }

  /** The weights file loaded beside a JSON architecture file. */
  function WeightsPath(jsonPath: string): (r: string)
  {
    Splitext(jsonPath).0 + "_weights.h5"
  }

  // ---- Properties ----

  /** A joined path ends with `b`; it is `b` itself when `b` is absolute, else it extends `a`. */
  lemma JoinShape(a: string, b: string)
    ensures EndsWith(Join(a, b), b)
    ensures !StartsWith(b, "/") ==> StartsWith(Join(a, b), a) && |Join(a, b)| >= |a| + |b|
    ensures StartsWith(b, "/") ==> Join(a, b) == b
  {
    if !(|b| > 0 && b[0] == '/') {
      if a == [] || a[|a| - 1] == '/' {
        ConcatEnds(a, b);
      } else {
        ConcatEnds(a + "/", b);
        ConcatEnds(a, "/");
        assert (a + "/" + b)[..|a|] == (a + "/")[..|a|];
      }
    }
  }

  lemma ConcatEnds(x: string, y: string)
    ensures EndsWith(x + y, y) && StartsWith(x + y, x)
  {
    assert (x + y)[|x|..] == y;
    assert (x + y)[..|x|] == x;
  }

  /** Within one directory, distinct relative names give distinct paths. */
  lemma JoinInjective(a: string, b: string, c: string)
    requires !StartsWith(b, "/") && !StartsWith(c, "/")
    requires Join(a, b) == Join(a, c)
    ensures b == c
  {
    var r := Join(a, b);
    if a == [] || a[|a| - 1] == '/' {
      assert b == r[|a|..];
    } else {
      assert b == r[|a| + 1..];
      assert c == Join(a, c)[|a| + 1..];
    }
  }

  /** splitext cuts the path in two; the extension is empty or one dot-led final segment. */
  lemma SplitextParts(p: string)
    ensures Splitext(p).0 + Splitext(p).1 == p
    ensures var ext := Splitext(p).1;
      ext == [] || (ext[0] == '.' && forall k :: 0 < k < |ext| ==> ext[k] != '.' && ext[k] != '/')
    ensures Splitext(p).1 != [] ==> HasNonDot(Splitext(p).0, LastIndexOf(p, '/') + 1, |Splitext(p).0|)
  {
    var sep := LastIndexOf(p, '/');
    var dot := LastIndexOf(p, '.');
    if dot > sep && HasNonDot(p, sep + 1, dot) {
      var ext := p[dot..];
      assert p[..dot] + ext == p;
      forall k | 0 < k < |ext| ensures ext[k] != '.' && ext[k] != '/' {
        assert ext[k] == p[dot + k];
      }
      var w :| sep + 1 <= w < dot && p[w] != '.';
      assert p[..dot][w] == p[w];
    }
  }

  /** The weights path always ends in "_weights.h5" and keeps the whole path up to the extension. */
  lemma WeightsPathShape(jsonPath: string)
    ensures EndsWith(WeightsPath(jsonPath), "_weights.h5")
    ensures StartsWith(jsonPath, WeightsPath(jsonPath)[..|WeightsPath(jsonPath)| - |"_weights.h5"|])
  {
    var root := Splitext(jsonPath).0;
    SplitextParts(jsonPath);
    assert WeightsPath(jsonPath) == root + "_weights.h5";
    assert WeightsPath(jsonPath)[..|root|] == root;
    assert jsonPath[..|root|] == root by { assert jsonPath == root + Splitext(jsonPath).1; }
  }

  /** The last `c` is at `i` when `s[i]` is `c` and nothing after it is. */
  lemma LastIndexOfAt(s: string, c: char, i: int)
    requires 0 <= i < |s| && s[i] == c
    requires forall k :: i < k < |s| ==> s[k] != c
    ensures LastIndexOf(s, c) == i
  {
  }

  /** A worked case: "a/b.json" loads its weights from "a/b_weights.h5". */
  lemma WeightsPathExample()
    ensures WeightsPath("a/b.json") == "a/b_weights.h5"
  {
    var p := "a/b.json";
    LastIndexOfAt(p, '/', 1);
    LastIndexOfAt(p, '.', 3);
    assert p[2] != '.';
    assert HasNonDot(p, 2, 3);
    assert p[..3] == "a/b";
  }

  /** The appended name always carries the extension. */
  lemma WithSuffixEnds(name: string, ext: string)
    ensures EndsWith(WithSuffix(name, ext), ext)
  {
    if !EndsWith(name, ext) {
      assert (name + ext)[|name + ext| - |ext|..] == ext;
    }
  }

  /** The extension is appended exactly when it is missing. */
  lemma WithSuffixAppendsIffMissing(name: string, ext: string)
    ensures WithSuffix(name, ext) == name <==> (EndsWith(name, ext) || ext == [])
    ensures !EndsWith(name, ext) ==> WithSuffix(name, ext) == name + ext
  {
    if !EndsWith(name, ext) && ext != [] {
      assert |name + ext| > |name|;
    }
  }

  /** Applying the rule twice is the same as once. */
  lemma WithSuffixIdempotent(name: string, ext: string)
    ensures WithSuffix(WithSuffix(name, ext), ext) == WithSuffix(name, ext)
  {
    WithSuffixEnds(name, ext);
  }

  /** The directory of a path is a prefix of it, and a path without '/' has none. */
  lemma DirnamePrefix(p: string)
    ensures StartsWith(p, Dirname(p)) && |Dirname(p)| <= |p|
    ensures (forall k :: 0 <= k < |p| ==> p[k] != '/') ==> Dirname(p) == []
  {
    var head := p[..LastIndexOf(p, '/') + 1];
    assert StartsWith(p, head);
    if head != [] && !AllSlashes(head) {
      var r := StripTrailingSlashes(head);
      assert StartsWith(head, r);
      assert p[..|r|] == head[..|r|];
    }
    if forall k :: 0 <= k < |p| ==> p[k] != '/' {
      assert LastIndexOf(p, '/') == -1;
    }
  }

  /** A worked case: the directory of "a/b.json" is "a", and of "/m.h5" is "/". */
  lemma DirnameExamples()
    ensures Dirname("a/b.json") == "a"
    ensures Dirname("/m.h5") == "/"
  {
    LastIndexOfAt("a/b.json", '/', 1);
    assert "a/b.json"[..2] == "a/";
    assert StripTrailingSlashes("a/") == "a";
    LastIndexOfAt("/m.h5", '/', 0);
    assert "/m.h5"[..1] == "/";
    assert AllSlashes("/");
  }
}
