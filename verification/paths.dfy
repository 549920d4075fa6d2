/** POSIX paths as Node's `path` module treats them: a path is absolute or
    relative and a sequence of segments in normal form (no empty or `.`
    segments; `..` only as a leading run of a relative path). `path.join`
    appends segments and normalises; `path.resolve` and every file-system call
    read a relative path against the current working directory. */
module Paths {
  import opened Text

  datatype Path = Path(absolute: bool, segs: seq<string>)

  /** Segments that `path.normalize` keeps unchanged. */
  predicate PlainSegment(seg: string) {
    seg != "" && seg != "." && seg != ".."
  }

  ghost predicate Normal(p: Path) {
    && (forall i :: 0 <= i < |p.segs| ==> p.segs[i] != "" && p.segs[i] != ".")
    && (forall i :: 0 <= i < |p.segs| && p.segs[i] == ".." ==> !p.absolute)
    && (forall i, j :: 0 <= i < j < |p.segs| && p.segs[j] == ".." ==> p.segs[i] == "..")
  }

  const Root := Path(true, [])

  /** One step of normalisation: `""` and `.` vanish, `..` removes the last
      plain segment (or stays at the root of an absolute path, or accumulates
      at the start of a relative one), anything else is appended. */
  function Append(p: Path, seg: string): (r: Path)
    requires Normal(p)
    ensures Normal(r)
    ensures r.absolute == p.absolute
    ensures PlainSegment(seg) ==> r == Path(p.absolute, p.segs + [seg])
    ensures seg == ".." && |p.segs| > 0 && p.segs[|p.segs| - 1] != ".." ==>
              r == Path(p.absolute, p.segs[..|p.segs| - 1])
  {
    if seg == "" || seg == "." then p
    else if seg == ".." then
      if |p.segs| > 0 && p.segs[|p.segs| - 1] != ".." then Path(p.absolute, p.segs[..|p.segs| - 1])
      else if p.absolute then p
      else Path(false, p.segs + [".."])
    else Path(p.absolute, p.segs + [seg])
  }

  /** Append each segment of `segs` in turn. */
  function JoinSegs(p: Path, segs: seq<string>): (r: Path)
    requires Normal(p)
    ensures Normal(r)
    ensures r.absolute == p.absolute
    decreases |segs|
  {
    if |segs| == 0 then p else JoinSegs(Append(p, segs[0]), segs[1..])
  }

  /** Appending plain segments only extends the segment list. */
  lemma {:induction false} JoinPlain(p: Path, segs: seq<string>)
    requires Normal(p)
    requires forall i :: 0 <= i < |segs| ==> PlainSegment(segs[i])
    ensures JoinSegs(p, segs) == Path(p.absolute, p.segs + segs)
    decreases |segs|
  {
    if |segs| > 0 {
      JoinPlain(Append(p, segs[0]), segs[1..]);
      assert p.segs + [segs[0]] + segs[1..] == p.segs + segs;
    }
  }

  /** A path string read the way `path.normalize` reads it. */
  function Parse(s: string): (r: Path)
    ensures Normal(r)
    ensures r.absolute <==> |s| > 0 && s[0] == '/'
  {
    JoinSegs(Path(|s| > 0 && s[0] == '/', []), Split(s, '/'))
  }

  /** `path.join(base, ...parts)`: every part is split on `/` and appended,
      whether or not it starts with `/`. */
  function Join(base: Path, parts: seq<string>): (r: Path)
    requires Normal(base)
    ensures Normal(r)
    ensures r.absolute == base.absolute
    decreases |parts|
  {
    if |parts| == 0 then base else Join(JoinSegs(base, Split(parts[0], '/')), parts[1..])
  }

  /** A relative path read against an absolute working directory; an
      absolute path is left as it is. */
  function Resolve(p: Path, cwd: Path): (r: Path)
    requires Normal(p) && Normal(cwd) && cwd.absolute
    ensures Normal(r) && r.absolute
    ensures p.absolute ==> r == p
  {
    if p.absolute then p else JoinSegs(cwd, p.segs)
  }

  /** `a` is `b` or one of its ancestors. */
  predicate IsPrefix(a: Path, b: Path) {
    a.absolute == b.absolute && a.segs <= b.segs
  }

  /** A string without `/` that is not `.`, `..` or empty parses as one
      relative segment. */
  lemma ParseSingleSegment(s: string)
    requires '/' !in s && PlainSegment(s)
    ensures Parse(s) == Path(false, [s])
  {
    SplitNoSep(s, '/');
    assert s[0] != '/' by { assert s[0] in s; }
    JoinPlain(Path(false, []), [s]);
  }

  /** `/` followed by plain segments joined with `/` parses as the absolute
      path of those segments. */
  lemma ParseAbsolute(segs: seq<string>)
    requires |segs| >= 1
    requires forall i :: 0 <= i < |segs| ==> PlainSegment(segs[i]) && '/' !in segs[i]
    ensures Parse("/" + JoinWith(segs, '/')) == Path(true, segs)
  {
    var s := "/" + JoinWith(segs, '/');
    var parts := [""] + segs;
    SplitAbsolute(segs);
    assert Parse(s) == JoinSegs(Root, parts);
    assert parts[1..] == segs;
    assert JoinSegs(Root, parts) == JoinSegs(Append(Root, parts[0]), parts[1..]);
    JoinPlain(Root, segs);
  }

  /** Splitting `/` followed by joined segments gives an empty first part
      and then the segments. */
  lemma SplitAbsolute(segs: seq<string>)
    requires |segs| >= 1
    requires forall i :: 0 <= i < |segs| ==> '/' !in segs[i]
    ensures Split("/" + JoinWith(segs, '/'), '/') == [""] + segs
  {
    var parts := [""] + segs;
    assert parts[1..] == segs;
    assert JoinWith(parts, '/') == "/" + JoinWith(segs, '/') by {
      assert JoinWith(parts, '/') == parts[0] + ['/'] + JoinWith(parts[1..], '/');
    }
    forall i | 0 <= i < |parts|
      ensures '/' !in parts[i]
    {
      if i > 0 {
        assert parts[i] == segs[i - 1];
      }
    }
    SplitJoin(parts, '/');
  }

  /** `path.join` with parts that contain no `/` appends them as segments. */
  lemma {:induction false} JoinLiteral(base: Path, parts: seq<string>)
    requires Normal(base)
    requires forall i :: 0 <= i < |parts| ==> '/' !in parts[i]
    ensures Join(base, parts) == JoinSegs(base, parts)
    decreases |parts|
  {
    if |parts| > 0 {
      SplitNoSep(parts[0], '/');
      assert JoinSegs(base, [parts[0]]) == Append(base, parts[0]);
      JoinLiteral(JoinSegs(base, [parts[0]]), parts[1..]);
    }
  }

  /** Joining two segment lists one after the other is joining their
      concatenation. */
  lemma {:induction false} JoinSegsAppend(p: Path, a: seq<string>, b: seq<string>)
    requires Normal(p)
    ensures JoinSegs(p, a + b) == JoinSegs(JoinSegs(p, a), b)
    decreases |a|
  {
    if |a| > 0 {
      assert (a + b)[1..] == a[1..] + b;
      JoinSegsAppend(Append(p, a[0]), a[1..], b);
    } else {
      assert a + b == b;
    }
  }
}
