/**
 * `FilesystemSource` of src/filesystemsource.cpp: the directory walk of the
 * Qt indexer. The file system is an input (a listing per existing
 * directory); the watcher is the list of watched directories; the calls into
 * the indexer are recorded in order.
 */
module FilesystemSources {
  datatype EntryKind = RegularFile | Directory | OtherEntry

  /** One entry of a directory listing, by absolute path. `dot` marks the `.` and `..` entries. */
  datatype Entry = Entry(path: string, kind: EntryKind, symlink: bool, dot: bool)

  /** The existing directories and their listings. */
  type FileSystem = map<string, seq<Entry>>

  /** A call into the indexer. */
  datatype IndexerCall = ProcessFile(file: string) | RemoveFilesForDirectory(dir: string)

  /** The file name of a path: everything after its last '/'. */
  function LastComponent(p: string): string
    decreases |p|
  {
    if p == [] || p[|p| - 1] == '/' then []
    else LastComponent(p[..|p| - 1]) + [p[|p| - 1]]
  }

  /** The file name is the slash-free suffix that follows the last '/' (or the whole path). */
  lemma {:induction false} LastComponentIsName(p: string)
    ensures var r := LastComponent(p);
      && |r| <= |p| && r == p[|p| - |r|..] && '/' !in r
      && (|r| < |p| ==> p[|p| - |r| - 1] == '/')
    decreases |p|
  {
    if p != [] && p[|p| - 1] != '/' {
      var init, c := p[..|p| - 1], p[|p| - 1];
      assert p == init + [c];
      LastComponentIsName(init);
      var r0 := LastComponent(init);
      assert LastComponent(p) == r0 + [c];
      var j := |init| - |r0|;
      assert p[j..] == init[j..] + [c] by {
        assert (init + [c])[j..] == init[j..] + [c];
      }
      if j > 0 {
        assert p[j - 1] == init[j - 1];
      }
    }
  }

  /** The file name of `dir + "/" + n` is `n` when `n` holds no '/'. */
  lemma {:induction false} LastComponentOfChild(dir: string, n: string)
    requires '/' !in n
    ensures LastComponent(dir + "/" + n) == n
    decreases |n|
  {
    var p := dir + "/" + n;
    if n != [] {
      var init := n[..|n| - 1];
      assert p[..|p| - 1] == dir + "/" + init;
      LastComponentOfChild(dir, init);
      assert n == init + [n[|n| - 1]];
    }
  }

  /** Qt's notion of a hidden entry on Unix: its file name starts with '.'. */
  predicate IsHidden(e: Entry) {
    var n := LastComponent(e.path);
    n != [] && n[0] == '.'
  }

  /**
   * `QDir::Files | QDir::NoSymLinks`: without `QDir::Hidden` in the filter,
   * hidden files are not listed.
   */
  predicate IsFile(e: Entry) {
    e.kind == RegularFile && !e.symlink && !IsHidden(e)
  }

  /**
   * `QDir::AllDirs | QDir::NoDotAndDotDot | QDir::NoSymLinks`: without
   * `QDir::Hidden`, hidden directories are not listed either.
   */
  predicate IsChild(e: Entry) {
    e.kind == Directory && !e.symlink && !e.dot && !IsHidden(e)
  }

  /** One `processFile` per listed regular file, in listing order. */
  function FileCalls(es: seq<Entry>): (r: seq<IndexerCall>)
    ensures forall c :: c in r <==> exists i :: 0 <= i < |es| && IsFile(es[i]) && c == ProcessFile(es[i].path)
    decreases |es|
  {
    if es == [] then []
    else
      var last := es[|es| - 1];
      var init := es[..|es| - 1];
      assert forall i :: 0 <= i < |init| ==> init[i] == es[i];
      FileCalls(init) + (if IsFile(last) then [ProcessFile(last.path)] else [])
  }

  /** The subdirectories to scan, in listing order. */
  function Children(es: seq<Entry>): (r: seq<string>)
    ensures forall d :: d in r <==> exists i :: 0 <= i < |es| && IsChild(es[i]) && d == es[i].path
    decreases |es|
  {
    if es == [] then []
    else
      var last := es[|es| - 1];
      var init := es[..|es| - 1];
      assert forall i :: 0 <= i < |init| ==> init[i] == es[i];
      Children(init) + (if IsChild(last) then [last.path] else [])
  }

  /** `QFileSystemWatcher::removePath`. */
  function Unwatch(w: seq<string>, p: string): (r: seq<string>)
    ensures forall q :: q in r <==> q in w && q != p
    ensures |r| <= |w|
    decreases |w|
  {
    if w == [] then []
    else Unwatch(w[..|w| - 1], p) + (if w[|w| - 1] == p then [] else [w[|w| - 1]])
  }

  /** A list without repetitions. */
  predicate NoDuplicates(w: seq<string>) {
    forall i, j :: 0 <= i < j < |w| ==> w[i] != w[j]
  }

  datatype Scan = Scan(calls: seq<IndexerCall>, watched: seq<string>)

  /** `scanDirectory(path, false)`. */
  function ScanOne(fs: FileSystem, w: seq<string>, path: string): Scan {
    if path == "." || path == ".." then Scan([], w)
    else if path !in fs then Scan([RemoveFilesForDirectory(path)], Unwatch(w, path))
    else Scan(FileCalls(fs[path]), if path in w then w else w + [path])
  }

  /** `scanDirectory(child, false)` for each child in turn. */
  function ScanAll(fs: FileSystem, w: seq<string>, children: seq<string>): Scan
    decreases |children|
  {
    if children == [] then Scan([], w)
    else
      var before := ScanAll(fs, w, children[..|children| - 1]);
      var last := ScanOne(fs, before.watched, children[|children| - 1]);
      Scan(before.calls + last.calls, last.watched)
  }

  /** `scanDirectory(path, recursive)`. */
  function ScanDirectory(fs: FileSystem, w: seq<string>, path: string, recursive: bool): Scan {
    var top := ScanOne(fs, w, path);
    if recursive && path != "." && path != ".." && path in fs then
      var rest := ScanAll(fs, top.watched, Children(fs[path]));
      Scan(top.calls + rest.calls, rest.watched)
    else top
  }

  class FilesystemSource {
    const basePath: string
    var watched: seq<string>
    var calls: seq<IndexerCall>

    /** Construction scans the base directory recursively. */
    constructor (basePath: string, fs: FileSystem)
      ensures this.basePath == basePath
      ensures calls == ScanDirectory(fs, [], basePath, true).calls
      ensures watched == ScanDirectory(fs, [], basePath, true).watched
    {
      this.basePath := basePath;
      watched := [];
      calls := [];
      new;
      ScanDirectoryOf(basePath, true, fs);
    }

    /** The watcher's `directoryChanged` signal rescans the directory recursively. */
    method DirectoryChanged(path: string, fs: FileSystem)
      modifies this
      ensures calls == old(calls) + ScanDirectory(fs, old(watched), path, true).calls
      ensures watched == ScanDirectory(fs, old(watched), path, true).watched
    {
      ScanDirectoryOf(path, true, fs);
    }

    method ScanDirectoryOf(path: string, recursive: bool, fs: FileSystem)
      modifies this
      ensures calls == old(calls) + ScanDirectory(fs, old(watched), path, recursive).calls
      ensures watched == ScanDirectory(fs, old(watched), path, recursive).watched
      decreases if recursive then 2 else 0
    {
      if path == "." || path == ".." {
        return;
      }
      if path !in fs {
        watched := Unwatch(watched, path);
        calls := calls + [RemoveFilesForDirectory(path)];
        return;
      }
      if path !in watched {
        watched := watched + [path];
      }
      ProcessFiles(fs[path]);
      if recursive {
        ScanChildren(Children(fs[path]), fs);
      }
    }

    /** The `processFile` loop over a listing. */
    method ProcessFiles(entries: seq<Entry>)
      modifies this
      ensures calls == old(calls) + FileCalls(entries) && watched == old(watched)
    {
      var i := 0;
      while i < |entries|
        invariant 0 <= i <= |entries|
        invariant calls == old(calls) + FileCalls(entries[..i]) && watched == old(watched)
      {
        assert entries[..i + 1][..i] == entries[..i];
        if IsFile(entries[i]) {
          calls := calls + [ProcessFile(entries[i].path)];
        }
        i := i + 1;
      }
      assert entries[..|entries|] == entries;
    }

    /** The loop over the subdirectories, each scanned with `recursive = false`. */
    method ScanChildren(childs: seq<string>, fs: FileSystem)
      modifies this
      ensures calls == old(calls) + ScanAll(fs, old(watched), childs).calls
      ensures watched == ScanAll(fs, old(watched), childs).watched
      decreases 1
    {
      var k := 0;
      while k < |childs|
        invariant 0 <= k <= |childs|
        invariant calls == old(calls) + ScanAll(fs, old(watched), childs[..k]).calls
        invariant watched == ScanAll(fs, old(watched), childs[..k]).watched
      {
        assert childs[..k + 1][..k] == childs[..k];
        ScanDirectoryOf(childs[k], false, fs);
        k := k + 1;
      }
      assert childs[..|childs|] == childs;
    }
  }

  /** `.` and `..` are ignored. */
  lemma DotsIgnored(fs: FileSystem, w: seq<string>, recursive: bool)
    ensures ScanDirectory(fs, w, ".", recursive) == Scan([], w)
    ensures ScanDirectory(fs, w, "..", recursive) == Scan([], w)
  {
  }

  /** A missing directory is unwatched and its files removed; nothing is processed. */
  lemma MissingDirectoryRemoved(fs: FileSystem, w: seq<string>, path: string, recursive: bool)
    requires path != "." && path != ".." && path !in fs
    ensures ScanDirectory(fs, w, path, recursive).calls == [RemoveFilesForDirectory(path)]
    ensures forall q :: q in ScanDirectory(fs, w, path, recursive).watched <==> q in w && q != path
  {
  }

  lemma {:induction false} UnwatchKeepsNoDuplicates(w: seq<string>, p: string)
    requires NoDuplicates(w)
    ensures NoDuplicates(Unwatch(w, p))
    decreases |w|
  {
    if w != [] {
      var init := w[..|w| - 1];
      assert forall i, j :: 0 <= i < j < |init| ==> init[i] == w[i] && init[j] == w[j];
      UnwatchKeepsNoDuplicates(init, p);
      assert w[|w| - 1] !in init;
    }
  }

  lemma ScanOneKeepsNoDuplicates(fs: FileSystem, w: seq<string>, path: string)
    requires NoDuplicates(w)
    ensures NoDuplicates(ScanOne(fs, w, path).watched)
    ensures path != "." && path != ".." && path in fs ==> path in ScanOne(fs, w, path).watched
  {
    if path != "." && path != ".." && path !in fs {
      UnwatchKeepsNoDuplicates(w, path);
    }
  }

  lemma {:induction false} ScanAllKeepsNoDuplicates(fs: FileSystem, w: seq<string>, children: seq<string>)
    requires NoDuplicates(w)
    ensures NoDuplicates(ScanAll(fs, w, children).watched)
    decreases |children|
  {
    if children != [] {
      var init := children[..|children| - 1];
      ScanAllKeepsNoDuplicates(fs, w, init);
      ScanOneKeepsNoDuplicates(fs, ScanAll(fs, w, init).watched, children[|children| - 1]);
    }
  }

  /** A directory is watched only once: the watch list never gains a duplicate. */
  lemma ScanKeepsNoDuplicates(fs: FileSystem, w: seq<string>, path: string, recursive: bool)
    requires NoDuplicates(w)
    ensures NoDuplicates(ScanDirectory(fs, w, path, recursive).watched)
  {
    ScanOneKeepsNoDuplicates(fs, w, path);
    if recursive && path != "." && path != ".." && path in fs {
      ScanAllKeepsNoDuplicates(fs, ScanOne(fs, w, path).watched, Children(fs[path]));
    }
  }

  /**
   * A non-recursive scan of an existing directory calls `processFile`
   * exactly for its regular, non-symlink, non-hidden files.
   */
  lemma ScanProcessesFiles(fs: FileSystem, w: seq<string>, path: string, f: string)
    requires path != "." && path != ".." && path in fs
    ensures ProcessFile(f) in ScanDirectory(fs, w, path, false).calls <==>
              exists i :: 0 <= i < |fs[path]| && IsFile(fs[path][i]) && f == fs[path][i].path
    ensures RemoveFilesForDirectory(path) !in ScanDirectory(fs, w, path, false).calls
  {
  }

  /**
   * Hidden entries are skipped: no scan, recursive or not, calls
   * `processFile` for a path whose file name starts with '.', and no scan
   * descends into such a directory.
   */
  lemma HiddenNeverScanned(fs: FileSystem, w: seq<string>, path: string, f: string, recursive: bool)
    requires var n := LastComponent(f); n != [] && n[0] == '.'
    ensures ProcessFile(f) !in ScanDirectory(fs, w, path, recursive).calls
    ensures path in fs ==> f !in Children(fs[path])
  {
    if recursive && path != "." && path != ".." && path in fs {
      ScanIsOneLevel(fs, w, path, f);
    }
  }

  /** A file is processed by a scan of its children only if some child lists it. */
  lemma {:induction false} ScanAllFiles(fs: FileSystem, w: seq<string>, children: seq<string>, f: string)
    ensures ProcessFile(f) in ScanAll(fs, w, children).calls ==>
              exists k :: 0 <= k < |children| && children[k] in fs && ProcessFile(f) in FileCalls(fs[children[k]])
    decreases |children|
  {
    if children != [] {
      var n := |children| - 1;
      var init := children[..n];
      ScanAllFiles(fs, w, init, f);
      if ProcessFile(f) in ScanAll(fs, w, init).calls {
        var k :| 0 <= k < |init| && init[k] in fs && ProcessFile(f) in FileCalls(fs[init[k]]);
        assert children[k] == init[k];
      } else if ProcessFile(f) in ScanAll(fs, w, children).calls {
        assert ProcessFile(f) in ScanOne(fs, ScanAll(fs, w, init).watched, children[n]).calls;
      }
    }
  }

  /**
   * One level only: a recursive scan processes the directory's own files
   * and those of its immediate subdirectories, and no others.
   */
  lemma ScanIsOneLevel(fs: FileSystem, w: seq<string>, path: string, f: string)
    requires path != "." && path != ".." && path in fs
    ensures ProcessFile(f) in ScanDirectory(fs, w, path, true).calls ==>
              || ProcessFile(f) in FileCalls(fs[path])
              || exists d :: d in Children(fs[path]) && d in fs && ProcessFile(f) in FileCalls(fs[d])
  {
    var top := ScanOne(fs, w, path);
    var cs := Children(fs[path]);
    if ProcessFile(f) in ScanDirectory(fs, w, path, true).calls && ProcessFile(f) !in FileCalls(fs[path]) {
      assert ProcessFile(f) in ScanAll(fs, top.watched, cs).calls;
      ScanAllFiles(fs, top.watched, cs, f);
      var k :| 0 <= k < |cs| && cs[k] in fs && ProcessFile(f) in FileCalls(fs[cs[k]]);
      assert cs[k] in cs;
    }
  }
}
