/** The file system seen by the command-line tool: the files with their
    contents and the set of directories, all under absolute paths. Only the
    `fs-extra` calls the tool makes are modelled. */
module FileSystem {
  import opened Wrappers
  import opened Paths

  datatype FS<C> = FS(files: map<Path, C>, dirs: set<Path>)

  /** `fs.pathExists`: a file or a directory is there. */
  predicate Exists<C>(fs: FS<C>, p: Path) {
    p in fs.files || p in fs.dirs
  }

  /** `p` and all its ancestors. */
  function AncestorsAndSelf(p: Path): (r: set<Path>)
    ensures p in r
    ensures forall q :: q in r ==> IsPrefix(q, p)
  {
    assert p.segs[..|p.segs|] == p.segs;
    set k | 0 <= k <= |p.segs| :: Path(p.absolute, p.segs[..k])
  }

  /** The ancestors of a path are among the ancestors of any path it
      begins. */
  lemma AncestorsOfPrefix(q: Path, p: Path)
    requires IsPrefix(q, p)
    ensures AncestorsAndSelf(q) <= AncestorsAndSelf(p)
  {
    forall k | 0 <= k <= |q.segs| ensures Path(q.absolute, q.segs[..k]) in AncestorsAndSelf(p) {
      assert q.segs[..k] == p.segs[..k];
    }
  }

  /** Parent directory; the root is its own parent. */
  function Parent(p: Path): (r: Path)
    ensures IsPrefix(r, p)
    ensures |p.segs| > 0 ==> |r.segs| == |p.segs| - 1
  {
    if |p.segs| == 0 then p else Path(p.absolute, p.segs[..|p.segs| - 1])
  }

  /** The effect of `fs.ensureDir` (mkdir -p) once it succeeds: `p` and all
      its ancestors become directories; files are untouched and an existing
      directory is not an error. */
  function EnsureDir<C>(fs: FS<C>, p: Path): (r: FS<C>)
    ensures r.files == fs.files
    ensures r.dirs == fs.dirs + AncestorsAndSelf(p)
    ensures p in r.dirs
  {
    FS(fs.files, fs.dirs + AncestorsAndSelf(p))
  }

  /** Creating a directory twice is the same as creating it once. */
  lemma EnsureDirIdempotent<C>(fs: FS<C>, p: Path)
    ensures EnsureDir(EnsureDir(fs, p), p) == EnsureDir(fs, p)
  {
  }

  /** `fs.copy` of one path: a file's content is written at `dest` (its
      parent directories created), a directory source makes `dest` a
      directory, a missing source changes nothing. */
  function Copy<C>(fs: FS<C>, src: Path, dest: Path): (r: FS<C>)
    ensures src in fs.files ==> dest in r.files && r.files[dest] == fs.files[src]
    ensures src !in fs.files ==> r.files == fs.files
    ensures forall q :: q in fs.files && q != dest ==> q in r.files && r.files[q] == fs.files[q]
    ensures forall q :: q in r.files && q != dest ==> q in fs.files
    ensures fs.dirs <= r.dirs
    ensures !Exists(fs, src) ==> r == fs
  {
    if src in fs.files then FS(fs.files[dest := fs.files[src]], fs.dirs + AncestorsAndSelf(Parent(dest)))
    else if src in fs.dirs then EnsureDir(fs, dest)
    else fs
  }

  /** The errors of the calls modelled: `ENOENT` for a missing parent
      directory, `ENOTDIR` for a file on the way to a directory, `EEXIST` for
      a file where a directory is asked for, `EISDIR` for a write onto a
      directory. */
  datatype FsError = NoSuchDirectory(parent: Path) | NotADirectory(path: Path) | FileExists(path: Path)
                   | IsADirectory(path: Path)

  /** A file lies at `p` or at one of its ancestors, so no directory can be
      made there. */
  predicate Blocked<C>(fs: FS<C>, p: Path) {
    exists q :: q in AncestorsAndSelf(p) && q in fs.files
  }

  /** `fs.ensureDir` with its failures: a file at `p` itself is `EEXIST`, a
      file at an ancestor is `ENOTDIR`, and in both cases nothing is made;
      otherwise it has the effect of `EnsureDir`. */
  function TryEnsureDir<C>(fs: FS<C>, p: Path): (r: Result<FS<C>, FsError>)
    ensures r.Ok? <==> !Blocked(fs, p)
    ensures r.Ok? ==> r.value == EnsureDir(fs, p)
    ensures p in fs.files ==> r == Err(FileExists(p))
    ensures p !in fs.files && r.Err? ==> r == Err(NotADirectory(p))
  {
    if p in fs.files then Err(FileExists(p))
    else if Blocked(fs, p) then Err(NotADirectory(p))
    else Ok(EnsureDir(fs, p))
  }

  /** `fs.writeFile`: fails onto a directory and when the parent directory
      does not exist, otherwise sets the content of `p`. */
  function WriteFile<C>(fs: FS<C>, p: Path, content: C): (r: Result<FS<C>, FsError>)
    ensures r.Ok? <==> Parent(p) in fs.dirs && p !in fs.dirs
    ensures p in fs.dirs ==> r == Err(IsADirectory(p))
    ensures p !in fs.dirs && r.Err? ==> r == Err(NoSuchDirectory(Parent(p)))
    ensures r.Ok? ==> r.value == FS(fs.files[p := content], fs.dirs)
  {
    if p in fs.dirs then Err(IsADirectory(p))
    else if Parent(p) in fs.dirs then Ok(FS(fs.files[p := content], fs.dirs))
    else Err(NoSuchDirectory(Parent(p)))
  }
  /** `fs.remove` (rm -rf): `p` and everything under it is gone, nothing
      else changes, and a missing path is not an error. */
  function Remove<C>(fs: FS<C>, p: Path): (r: FS<C>)
    ensures !Exists(r, p)
    ensures forall q :: q in fs.files && !IsPrefix(p, q) ==> q in r.files && r.files[q] == fs.files[q]
    ensures forall q :: q in fs.dirs && !IsPrefix(p, q) ==> q in r.dirs
    ensures forall q :: q in r.files ==> q in fs.files && !IsPrefix(p, q)
    ensures forall q :: q in r.dirs ==> q in fs.dirs && !IsPrefix(p, q)
  {
    FS(map q | q in fs.files && !IsPrefix(p, q) :: fs.files[q],
       set q | q in fs.dirs && !IsPrefix(p, q))
  }
}
