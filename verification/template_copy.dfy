/** The template copy loop shared by `create` and the debug copy script:
    each manifest entry names a flat file in the templates directory and a
    destination inside the project; an entry whose source exists is copied,
    the others are skipped without error. */
module TemplateCopy {
  import opened Paths
  import opened FileSystem

  /** A manifest entry: `src` is a file name in the templates directory,
      `dest` the segments of the destination relative to the project. */
  datatype Entry = Entry(src: string, dest: seq<string>)

  predicate ValidEntry(e: Entry) {
    && PlainSegment(e.src)
    && |e.dest| >= 1
    && forall k :: 0 <= k < |e.dest| ==> PlainSegment(e.dest[k])
  }

  predicate ValidEntries(es: seq<Entry>) {
    forall i :: 0 <= i < |es| ==> ValidEntry(es[i])
  }

  /** Entries `lo` up to `hi` of `es` are well formed. */
  predicate ValidRange(es: seq<Entry>, lo: nat, hi: nat)
    requires lo <= hi <= |es|
  {
    forall i :: lo <= i < hi ==> ValidEntry(es[i])
  }

  /** No two entries share a destination. */
  predicate DistinctDests(es: seq<Entry>) {
    forall i, j :: 0 <= i < j < |es| ==> es[i].dest != es[j].dest
  }

  /** Two destinations that differ in length or in one of their last two
      segments differ. */
  predicate ApartAtEnd(a: seq<string>, b: seq<string>) {
    || |a| != |b|
    || (|a| >= 1 && a[|a| - 1] != b[|b| - 1])
    || (|a| >= 2 && a[|a| - 2] != b[|b| - 2])
  }

  /** `path.join(templateDir, src)`. */
  function SrcPath(templateDir: Path, e: Entry): (r: Path)
    requires Normal(templateDir)
    ensures Normal(r)
  {
    JoinSegs(templateDir, [e.src])
  }

  /** `path.join(projectPath, dest)`. */
  function DestPath(projectPath: Path, e: Entry): (r: Path)
    requires Normal(projectPath)
    ensures Normal(r)
  {
    JoinSegs(projectPath, e.dest)
  }

  /** One pass of the loop: `if (await fs.pathExists(src)) await fs.copy(src, dest)`. */
  function CopyEntries<C>(fs: FS<C>, templateDir: Path, projectPath: Path, es: seq<Entry>): (r: FS<C>)
    requires Normal(templateDir) && Normal(projectPath)
    ensures fs.dirs <= r.dirs
    decreases |es|
  {
    if |es| == 0 then fs
    else
      var src := SrcPath(templateDir, es[0]);
      var next := if Exists(fs, src) then Copy(fs, src, DestPath(projectPath, es[0])) else fs;
      CopyEntries(next, templateDir, projectPath, es[1..])
  }

  /** Running the loop over one list and then another is running it over
      their concatenation, so consecutive loops compose. */
  lemma {:induction false} CopyEntriesAppend<C>(fs: FS<C>, templateDir: Path, projectPath: Path, a: seq<Entry>, b: seq<Entry>)
    requires Normal(templateDir) && Normal(projectPath)
    ensures CopyEntries(CopyEntries(fs, templateDir, projectPath, a), templateDir, projectPath, b)
         == CopyEntries(fs, templateDir, projectPath, a + b)
    decreases |a|
  {
    if |a| == 0 {
      assert a + b == b;
    } else {
      var src := SrcPath(templateDir, a[0]);
      var next := if Exists(fs, src) then Copy(fs, src, DestPath(projectPath, a[0])) else fs;
      assert (a + b)[0] == a[0] && (a + b)[1..] == a[1..] + b;
      CopyEntriesAppend(next, templateDir, projectPath, a[1..], b);
    }
  }

  /** A destination inside a project that is not the templates directory or
      one of its ancestors is never a template source. */
  lemma DestNotSrc(templateDir: Path, projectPath: Path, e: Entry, f: Entry)
    requires Normal(templateDir) && Normal(projectPath)
    requires ValidEntry(e) && ValidEntry(f)
    requires !IsPrefix(projectPath, templateDir)
    ensures DestPath(projectPath, e) != SrcPath(templateDir, f)
  {
    JoinPlain(projectPath, e.dest);
    JoinPlain(templateDir, [f.src]);
    var whole := projectPath.segs + e.dest;
    var other := templateDir.segs + [f.src];
    if |whole| == |other| && projectPath.absolute == templateDir.absolute {
      assert !(projectPath.segs <= templateDir.segs);
      var k :| 0 <= k < |projectPath.segs| && templateDir.segs[k] != projectPath.segs[k];
      assert whole[k] != other[k];
    }
  }

  /** Different destinations give different paths. */
  lemma DestInjective(projectPath: Path, e: Entry, f: Entry)
    requires Normal(projectPath) && ValidEntry(e) && ValidEntry(f)
    requires e.dest != f.dest
    ensures DestPath(projectPath, e) != DestPath(projectPath, f)
  {
    JoinPlain(projectPath, e.dest);
    JoinPlain(projectPath, f.dest);
    assert (projectPath.segs + e.dest)[|projectPath.segs|..] == e.dest;
    assert (projectPath.segs + f.dest)[|projectPath.segs|..] == f.dest;
  }

  /** What the loop does to files: each entry whose source is a file has its
      destination hold that file's content, each other entry leaves its
      destination as it was, and every path that is no destination keeps its
      content. */
  lemma CopyEntriesFiles<C>(fs: FS<C>, templateDir: Path, projectPath: Path, es: seq<Entry>)
    requires Normal(templateDir) && Normal(projectPath)
    requires ValidEntries(es) && DistinctDests(es)
    requires !IsPrefix(projectPath, templateDir)
    ensures var r := CopyEntries(fs, templateDir, projectPath, es);
            forall i :: 0 <= i < |es| ==>
              var src := SrcPath(templateDir, es[i]);
              var dest := DestPath(projectPath, es[i]);
              && (src in fs.files ==> dest in r.files && r.files[dest] == fs.files[src])
              && (src !in fs.files ==> (dest in r.files <==> dest in fs.files))
              && (src !in fs.files && dest in fs.files ==> r.files[dest] == fs.files[dest])
    ensures var r := CopyEntries(fs, templateDir, projectPath, es);
            forall q :: (forall i :: 0 <= i < |es| ==> q != DestPath(projectPath, es[i])) ==>
              (q in r.files <==> q in fs.files) && (q in fs.files ==> r.files[q] == fs.files[q])
  {
    forall i | 0 <= i < |es|
      ensures var r := CopyEntries(fs, templateDir, projectPath, es);
              var src := SrcPath(templateDir, es[i]);
              var dest := DestPath(projectPath, es[i]);
              && (src in fs.files ==> dest in r.files && r.files[dest] == fs.files[src])
              && (src !in fs.files ==> (dest in r.files <==> dest in fs.files))
              && (src !in fs.files && dest in fs.files ==> r.files[dest] == fs.files[dest])
    {
      CopyEntryAt(fs, templateDir, projectPath, es, i);
    }
    forall q | forall i :: 0 <= i < |es| ==> q != DestPath(projectPath, es[i])
      ensures var r := CopyEntries(fs, templateDir, projectPath, es);
              (q in r.files <==> q in fs.files) && (q in fs.files ==> r.files[q] == fs.files[q])
    {
      CopyEntriesElsewhere(fs, templateDir, projectPath, es, q);
    }
  }

  /** A path that is no destination keeps its file, or its absence. */
  lemma {:induction false} CopyEntriesElsewhere<C>(fs: FS<C>, templateDir: Path, projectPath: Path, es: seq<Entry>, q: Path)
    requires Normal(templateDir) && Normal(projectPath)
    requires forall i :: 0 <= i < |es| ==> q != DestPath(projectPath, es[i])
    ensures var r := CopyEntries(fs, templateDir, projectPath, es);
            (q in r.files <==> q in fs.files) && (q in fs.files ==> r.files[q] == fs.files[q])
    decreases |es|
  {
    if |es| > 0 {
      var src := SrcPath(templateDir, es[0]);
      var next := if Exists(fs, src) then Copy(fs, src, DestPath(projectPath, es[0])) else fs;
      assert forall i :: 0 <= i < |es[1..]| ==> es[1..][i] == es[i + 1];
      CopyEntriesElsewhere(next, templateDir, projectPath, es[1..], q);
    }
  }

  /** Entry `i` of the loop: its destination ends up holding its template
      when that exists, and is left as it was otherwise. */
  lemma {:induction false} CopyEntryAt<C>(fs: FS<C>, templateDir: Path, projectPath: Path, es: seq<Entry>, i: nat)
    requires Normal(templateDir) && Normal(projectPath)
    requires ValidEntries(es) && DistinctDests(es)
    requires !IsPrefix(projectPath, templateDir)
    requires i < |es|
    ensures var r := CopyEntries(fs, templateDir, projectPath, es);
            var src := SrcPath(templateDir, es[i]);
            var dest := DestPath(projectPath, es[i]);
            && (src in fs.files ==> dest in r.files && r.files[dest] == fs.files[src])
            && (src !in fs.files ==> (dest in r.files <==> dest in fs.files))
            && (src !in fs.files && dest in fs.files ==> r.files[dest] == fs.files[dest])
    decreases |es|
  {
    var src := SrcPath(templateDir, es[0]);
    var dest := DestPath(projectPath, es[0]);
    var next := if Exists(fs, src) then Copy(fs, src, dest) else fs;
    var rest := es[1..];
    assert forall k :: 0 <= k < |rest| ==> rest[k] == es[k + 1];
    assert ValidEntries(rest) && DistinctDests(rest);
    if i == 0 {
      forall k | 0 <= k < |rest| ensures dest != DestPath(projectPath, rest[k]) {
        DestInjective(projectPath, es[0], rest[k]);
      }
      CopyEntriesElsewhere(next, templateDir, projectPath, rest, dest);
    } else {
      CopyEntryAt(next, templateDir, projectPath, rest, i - 1);
      DestInjective(projectPath, es[0], es[i]);
      DestNotSrc(templateDir, projectPath, es[0], es[i]);
    }
  }

  /** The loop never removes a file or a directory. */
  lemma {:induction false} CopyEntriesKeeps<C>(fs: FS<C>, templateDir: Path, projectPath: Path, es: seq<Entry>)
    requires Normal(templateDir) && Normal(projectPath)
    ensures var r := CopyEntries(fs, templateDir, projectPath, es);
            fs.files.Keys <= r.files.Keys && fs.dirs <= r.dirs
    decreases |es|
  {
    if |es| > 0 {
      var src := SrcPath(templateDir, es[0]);
      var next := if Exists(fs, src) then Copy(fs, src, DestPath(projectPath, es[0])) else fs;
      CopyEntriesKeeps(next, templateDir, projectPath, es[1..]);
    }
  }

  /** Every path the loop adds is a destination or one of its ancestors. */
  lemma {:induction false} CopyEntriesNewPaths<C>(fs: FS<C>, templateDir: Path, projectPath: Path, es: seq<Entry>)
    requires Normal(templateDir) && Normal(projectPath)
    ensures var r := CopyEntries(fs, templateDir, projectPath, es);
            forall q :: Exists(r, q) && !Exists(fs, q) ==>
              exists i :: 0 <= i < |es| && IsPrefix(q, DestPath(projectPath, es[i]))
    decreases |es|
  {
    if |es| > 0 {
      var src := SrcPath(templateDir, es[0]);
      var dest := DestPath(projectPath, es[0]);
      var next := if Exists(fs, src) then Copy(fs, src, dest) else fs;
      var r := CopyEntries(next, templateDir, projectPath, es[1..]);
      CopyEntriesNewPaths(next, templateDir, projectPath, es[1..]);
      forall q | Exists(r, q) && !Exists(fs, q)
        ensures exists i :: 0 <= i < |es| && IsPrefix(q, DestPath(projectPath, es[i]))
      {
        if Exists(next, q) {
          assert IsPrefix(q, dest) by {
            assert q == dest || q in AncestorsAndSelf(Parent(dest)) || q in AncestorsAndSelf(dest);
          }
        } else {
          var i :| 0 <= i < |es[1..]| && IsPrefix(q, DestPath(projectPath, es[1..][i]));
          assert es[1..][i] == es[i + 1];
        }
      }
    }
  }

  /** A template file `templateDir/x` exists after the loop exactly when it
      existed before, as long as neither directory lies inside the other. */
  lemma SourceUnaffected<C>(fs: FS<C>, templateDir: Path, projectPath: Path, es: seq<Entry>, x: string)
    requires Normal(templateDir) && Normal(projectPath) && ValidEntries(es) && PlainSegment(x)
    requires !IsPrefix(projectPath, templateDir) && !IsPrefix(templateDir, projectPath)
    ensures var src := JoinSegs(templateDir, [x]);
            Exists(CopyEntries(fs, templateDir, projectPath, es), src) <==> Exists(fs, src)
  {
    var src := JoinSegs(templateDir, [x]);
    var after := CopyEntries(fs, templateDir, projectPath, es);
    CopyEntriesKeeps(fs, templateDir, projectPath, es);
    if Exists(after, src) && !Exists(fs, src) {
      CopyEntriesNewPaths(fs, templateDir, projectPath, es);
      var i :| 0 <= i < |es| && IsPrefix(src, DestPath(projectPath, es[i]));
      SourceNotOnDestPath(templateDir, projectPath, es[i], x);
      assert false;
    }
  }

  /** A template file is never a destination or one of its directories. */
  lemma SourceNotOnDestPath(templateDir: Path, projectPath: Path, e: Entry, x: string)
    requires Normal(templateDir) && Normal(projectPath) && ValidEntry(e) && PlainSegment(x)
    requires !IsPrefix(projectPath, templateDir) && !IsPrefix(templateDir, projectPath)
    ensures !IsPrefix(JoinSegs(templateDir, [x]), DestPath(projectPath, e))
  {
    if IsPrefix(JoinSegs(templateDir, [x]), DestPath(projectPath, e)) {
      NestedDirs(templateDir, projectPath, [x], e.dest);
      assert false;
    }
  }

  /** When a path inside one directory is a prefix of a path inside another,
      one of the two directories lies inside the other. */
  lemma NestedDirs(a: Path, b: Path, sa: seq<string>, sb: seq<string>)
    requires Normal(a) && Normal(b)
    requires forall k :: 0 <= k < |sa| ==> PlainSegment(sa[k])
    requires forall k :: 0 <= k < |sb| ==> PlainSegment(sb[k])
    requires IsPrefix(JoinSegs(a, sa), JoinSegs(b, sb))
    ensures IsPrefix(a, b) || IsPrefix(b, a)
  {
    JoinPlain(a, sa);
    JoinPlain(b, sb);
    PrefixesCompare(a.segs, sa, b.segs, sb);
  }

  /** A path inside a directory begins another path inside it exactly
      when its segments below the directory begin the other's. */
  lemma JoinsNested(p: Path, a: seq<string>, b: seq<string>)
    requires Normal(p)
    requires forall k :: 0 <= k < |a| ==> PlainSegment(a[k])
    requires forall k :: 0 <= k < |b| ==> PlainSegment(b[k])
    ensures IsPrefix(JoinSegs(p, a), JoinSegs(p, b)) <==> a <= b
  {
    JoinPlain(p, a);
    JoinPlain(p, b);
    if p.segs + a <= p.segs + b {
      assert a == (p.segs + a)[|p.segs|..] == (p.segs + b)[|p.segs|..|p.segs| + |a|] == b[..|a|];
    }
    if a <= b {
      assert p.segs + a == (p.segs + b)[..|p.segs| + |a|];
    }
  }

  /** Two lists that begin two comparable lists are comparable. */
  lemma PrefixesCompare<T>(t: seq<T>, sa: seq<T>, p: seq<T>, sb: seq<T>)
    requires t + sa <= p + sb
    ensures t <= p || p <= t
  {
    if |t| < |p| {
      assert t == (t + sa)[..|t|] == (p + sb)[..|t|] == p[..|t|];
    } else {
      assert p == (p + sb)[..|p|] == (t + sa)[..|p|] == t[..|p|];
    }
  }
}
