/**
 * The mount watcher and change filter (src/MediaScanner.cc). The directory
 * scanner (`Scanner::scanFiles`), the per-subtree watchers, inotify and
 * `lstat` are not part of this model: a scan is given as the list of files it
 * detected, each with the inputs `extract` needs and a flag saying whether
 * indexing that file throws; mount events arrive as a list with the `lstat`
 * answer already attached.
 */
module MediaScanners {
  import opened Wrappers
  import opened MediaFiles
  import opened MediaStores
  import opened Extractor

  /** One file a scan detected, with what indexing it will meet. */
  datatype ScannedFile = ScannedFile(file: DetectedFile, now: u64, mtime: Option<u64>,
                                     tags: Option<TagInfo>, indexThrows: bool)

  /** The path and etag `extract` gives the stored record. */
  function IndexedPath(s: ScannedFile, toInt: string -> int): string {
    Extracted(s.file, s.now, s.mtime, s.tags, toInt).path
  }

  function IndexedETag(s: ScannedFile, toInt: string -> int): string {
    Extracted(s.file, s.now, s.mtime, s.tags, toInt).etag
  }

  /** The record extracted from a scanned file keeps its path and etag. */
  lemma IndexedKeepsIdentity(s: ScannedFile, toInt: string -> int)
    ensures IndexedPath(s, toInt) == s.file.path
    ensures IndexedETag(s, toInt) == s.file.etag
  {
    ExtractCopiesIdentity(s.file, s.now, s.mtime, s.tags, toInt);
  }

  /**
   * One iteration of `readFiles`: a file whose etag equals the stored one
   * is skipped; otherwise it is extracted and inserted, unless that throws,
   * in which case the exception is reported and the store is untouched.
   */
  function ReadStep(files: map<string, string>, s: ScannedFile, toInt: string -> int): map<string, string> {
    if s.file.etag == ETagOf(files, s.file.path) then files
    else if s.indexThrows then files
    else files[IndexedPath(s, toInt) := IndexedETag(s, toInt)]
  }

  /** `readFiles` over a whole scan, in scan order. */
  function ReadAll(files: map<string, string>, scan: seq<ScannedFile>, toInt: string -> int): map<string, string>
    decreases |scan|
  {
    if scan == [] then files
    else ReadStep(ReadAll(files, scan[..|scan| - 1], toInt), scan[|scan| - 1], toInt)
  }

  /** A file is skipped exactly when its etag equals the stored one. */
  lemma ReadStepSkips(files: map<string, string>, s: ScannedFile, toInt: string -> int)
    ensures s.file.etag == ETagOf(files, s.file.path) ==> ReadStep(files, s, toInt) == files
    ensures s.file.etag != ETagOf(files, s.file.path) && !s.indexThrows ==>
              ReadStep(files, s, toInt) == files[s.file.path := s.file.etag]
  {
    IndexedKeepsIdentity(s, toInt);
  }

  /**
   * Because a missing path reads as `""`, a file with an empty etag that is
   * not yet stored is never indexed.
   */
  lemma EmptyETagNeverIndexed(files: map<string, string>, s: ScannedFile, toInt: string -> int)
    requires s.file.etag == "" && s.file.path !in files
    ensures ReadStep(files, s, toInt) == files
    ensures s.file.path !in ReadStep(files, s, toInt)
  {
  }

  /** After a step, the file's stored etag is its scanned one, unless indexing threw. */
  lemma ReadStepRecords(files: map<string, string>, s: ScannedFile, toInt: string -> int)
    requires !s.indexThrows
    ensures ETagOf(ReadStep(files, s, toInt), s.file.path) == s.file.etag
  {
    IndexedKeepsIdentity(s, toInt);
  }

  /** A step changes at most the row of its own file. */
  lemma ReadStepOthers(files: map<string, string>, s: ScannedFile, toInt: string -> int, other: string)
    requires other != s.file.path
    ensures ETagOf(ReadStep(files, s, toInt), other) == ETagOf(files, other)
  {
    IndexedKeepsIdentity(s, toInt);
  }

  /** Reading two scans one after the other is reading their concatenation. */
  lemma {:induction false} ReadAllAppend(files: map<string, string>, a: seq<ScannedFile>, b: seq<ScannedFile>,
                                         toInt: string -> int)
    ensures ReadAll(files, a + b, toInt) == ReadAll(ReadAll(files, a, toInt), b, toInt)
    decreases |b|
  {
    if b == [] {
      assert a + b == a;
    } else {
      var b' := b[..|b| - 1];
      assert (a + b)[..|a + b| - 1] == a + b';
      assert (a + b)[|a + b| - 1] == b[|b| - 1];
      ReadAllAppend(files, a, b', toInt);
    }
  }

  /**
   * A file whose indexing throws is as if it had not been scanned: the
   * exception does not stop the files after it.
   */
  lemma ThrowingFileIsSkipped(files: map<string, string>, a: seq<ScannedFile>, s: ScannedFile,
                              b: seq<ScannedFile>, toInt: string -> int)
    requires s.indexThrows
    ensures ReadAll(files, a + [s] + b, toInt) == ReadAll(files, a + b, toInt)
  {
    ReadAllAppend(files, a + [s], b, toInt);
    ReadAllAppend(files, a, b, toInt);
    assert (a + [s])[..|a + [s]| - 1] == a;
  }

  /**
   * After the whole scan, a file that indexed without throwing and is not
   * followed by another file of the same path has its scanned etag stored.
   */
  lemma {:induction false} ReadAllRecords(files: map<string, string>, scan: seq<ScannedFile>, i: nat,
                                          toInt: string -> int)
    requires i < |scan| && !scan[i].indexThrows
    requires forall j :: i < j < |scan| ==> scan[j].file.path != scan[i].file.path
    ensures ETagOf(ReadAll(files, scan, toInt), scan[i].file.path) == scan[i].file.etag
    decreases |scan|
  {
    var init := scan[..|scan| - 1];
    var last := scan[|scan| - 1];
    if i == |scan| - 1 {
      ReadStepRecords(ReadAll(files, init, toInt), last, toInt);
    } else {
      assert init[i] == scan[i];
      ReadAllRecords(files, init, i, toInt);
      ReadStepOthers(ReadAll(files, init, toInt), last, toInt, scan[i].file.path);
    }
  }

  /** Paths no scanned file names keep their rows. */
  lemma {:induction false} ReadAllOthers(files: map<string, string>, scan: seq<ScannedFile>, p: string,
                                         toInt: string -> int)
    requires forall j :: 0 <= j < |scan| ==> scan[j].file.path != p
    ensures ETagOf(ReadAll(files, scan, toInt), p) == ETagOf(files, p)
    decreases |scan|
  {
    if scan != [] {
      var init := scan[..|scan| - 1];
      ReadAllOthers(files, init, p, toInt);
      ReadStepOthers(ReadAll(files, init, toInt), scan[|scan| - 1], toInt, p);
    }
  }

  /** The watched subtrees and the store's rows, as the scanner rules see them. */
  datatype Watch = Watch(subtrees: set<string>, files: map<string, string>)

  /** `addDir`'s effect: nothing for a watched or ignored directory, else scan and watch. */
  function AddDirEffect(w: Watch, ignored: set<string>, dir: string, scan: seq<ScannedFile>,
                        toInt: string -> int): Watch
  {
    if dir in w.subtrees || dir in ignored then w
    else Watch(w.subtrees + {dir}, ReadAll(w.files, scan, toInt))
  }

  /** The ignored check is an exact match: a directory below an ignored one is added. */
  lemma IgnoredIsExact(w: Watch, ignored: set<string>, dir: string, scan: seq<ScannedFile>,
                       toInt: string -> int)
    requires dir !in w.subtrees && dir !in ignored
    ensures dir in AddDirEffect(w, ignored, dir, scan, toInt).subtrees
    ensures AddDirEffect(w, ignored, dir, scan, toInt).subtrees == w.subtrees + {dir}
  {
  }

  /** Adding a directory twice is adding it once. */
  lemma AddDirIdempotent(w: Watch, ignored: set<string>, dir: string, scan: seq<ScannedFile>,
                         scan2: seq<ScannedFile>, toInt: string -> int)
    ensures var w1 := AddDirEffect(w, ignored, dir, scan, toInt);
            AddDirEffect(w1, ignored, dir, scan2, toInt) == w1
  {
  }

  /** `inotify` event kinds the mount watcher asks for. */
  datatype EventKind = Created | Deleted | OtherEvent

  /** One mount event: the entry's name, the event kind and whether `lstat` saw a directory. */
  datatype MountEvent = MountEvent(name: string, kind: EventKind, isDir: bool)

  /** The path `processEvents` builds for an event. */
  function VolumePath(mountDir: string, name: string): string {
    mountDir + "/" + name
  }

  /** `addDir`'s assertion: a non-empty path that starts with `/`. */
  predicate Absolute(dir: string) {
    dir != [] && dir[0] == '/'
  }

  /** Volume paths are absolute whenever the mount directory is empty or absolute. */
  lemma VolumePathAbsolute(mountDir: string, name: string)
    requires mountDir == [] || Absolute(mountDir)
    ensures Absolute(VolumePath(mountDir, name))
  {
  }

  /**
   * `processEvents` over a batch of events: a create on a directory adds
   * it, a delete on a directory removes it, anything else is ignored.
   * `None` is a failed assertion in `addDir` or `removeDir`, which aborts.
   */
  function Dispatch(w: Watch, ignored: set<string>, mountDir: string, events: seq<MountEvent>,
                    scanOf: string -> seq<ScannedFile>, toInt: string -> int): Option<Watch>
    decreases |events|
  {
    if events == [] then Some(w)
    else
      var prior := Dispatch(w, ignored, mountDir, events[..|events| - 1], scanOf, toInt);
      if prior.None? then None
      else DispatchOne(prior.value, ignored, mountDir, events[|events| - 1], scanOf, toInt)
  }

  function DispatchOne(w: Watch, ignored: set<string>, mountDir: string, e: MountEvent,
                       scanOf: string -> seq<ScannedFile>, toInt: string -> int): Option<Watch>
  {
    var dir := VolumePath(mountDir, e.name);
    if !e.isDir || e.kind == OtherEvent then Some(w)
    else if !Absolute(dir) then None
    else if e.kind == Created then Some(AddDirEffect(w, ignored, dir, scanOf(dir), toInt))
    else if dir !in w.subtrees then None
    else Some(w.(subtrees := w.subtrees - {dir}))
  }

  /** Events on entries that are not directories change nothing. */
  lemma NonDirectoryEventsIgnored(w: Watch, ignored: set<string>, mountDir: string, e: MountEvent,
                                  scanOf: string -> seq<ScannedFile>, toInt: string -> int)
    requires !e.isDir
    ensures DispatchOne(w, ignored, mountDir, e, scanOf, toInt) == Some(w)
  {
  }

  /** A directory created and then deleted under an absolute mount directory leaves no watch. */
  lemma MountThenUnmount(w: Watch, ignored: set<string>, mountDir: string, name: string,
                         scanOf: string -> seq<ScannedFile>, toInt: string -> int)
    requires Absolute(mountDir)
    requires VolumePath(mountDir, name) !in ignored
    ensures var r := Dispatch(w, ignored, mountDir, [MountEvent(name, Created, true), MountEvent(name, Deleted, true)], scanOf, toInt);
            r.Some? && r.value.subtrees == w.subtrees - {VolumePath(mountDir, name)}
  {
    var dir := VolumePath(mountDir, name);
    var e1, e2 := MountEvent(name, Created, true), MountEvent(name, Deleted, true);
    VolumePathAbsolute(mountDir, name);
    assert [e1, e2][..1] == [e1];
    assert [e1][..0] == [];
    var w1 := AddDirEffect(w, ignored, dir, scanOf(dir), toInt);
    assert Dispatch(w, ignored, mountDir, [e1], scanOf, toInt) == Some(w1);
    assert dir in w1.subtrees;
  }

  /** Once a batch has aborted, the events after the failure are never dispatched. */
  lemma {:induction false} DispatchAbortSticks(w: Watch, ignored: set<string>, mountDir: string, events: seq<MountEvent>,
                                               i: nat, scanOf: string -> seq<ScannedFile>, toInt: string -> int)
    requires i <= |events|
    requires Dispatch(w, ignored, mountDir, events[..i], scanOf, toInt).None?
    ensures Dispatch(w, ignored, mountDir, events, scanOf, toInt).None?
    decreases |events| - i
  {
    if i < |events| {
      assert events[..i + 1][..i] == events[..i];
      DispatchAbortSticks(w, ignored, mountDir, events, i + 1, scanOf, toInt);
    } else {
      assert events[..i] == events;
    }
  }

  /** The names `addMountedVolumes` adds: directory entries not starting with `.`. */
  function MountedVolumes(mountDir: string, entries: seq<(string, bool)>): (dirs: seq<string>)
    ensures |dirs| <= |entries|
    ensures forall d :: d in dirs ==> exists e :: e in entries && e.1 && !(e.0 != [] && e.0[0] == '.') && d == VolumePath(mountDir, e.0)
    ensures forall e :: e in entries && e.1 && !(e.0 != [] && e.0[0] == '.') ==> VolumePath(mountDir, e.0) in dirs
    decreases |entries|
  {
    if entries == [] then []
    else
      var rest := MountedVolumes(mountDir, entries[1..]);
      var (name, isDir) := entries[0];
      if name != [] && name[0] == '.' then rest
      else if isDir then [VolumePath(mountDir, name)] + rest
      else rest
  }

  /** Under an empty or absolute mount directory every mounted volume passes `addDir`'s assertion. */
  lemma MountedVolumesAbsolute(mountDir: string, entries: seq<(string, bool)>)
    requires mountDir == [] || Absolute(mountDir)
    ensures forall d :: d in MountedVolumes(mountDir, entries) ==> Absolute(d)
  {
    forall d | d in MountedVolumes(mountDir, entries)
      ensures Absolute(d)
    {
      var e :| e in entries && e.1 && !(e.0 != [] && e.0[0] == '.') && d == VolumePath(mountDir, e.0);
      VolumePathAbsolute(mountDir, e.0);
    }
  }

  /** `addDir` of each directory in turn. */
  function AddAll(w: Watch, ignored: set<string>, dirs: seq<string>, scanOf: string -> seq<ScannedFile>,
                  toInt: string -> int): Watch
    decreases |dirs|
  {
    if dirs == [] then w
    else
      var last := dirs[|dirs| - 1];
      AddDirEffect(AddAll(w, ignored, dirs[..|dirs| - 1], scanOf, toInt), ignored, last, scanOf(last), toInt)
  }

  /** Adding a list of directories watches exactly the old subtrees and the listed ones not ignored. */
  lemma {:induction false} AddAllWatches(w: Watch, ignored: set<string>, dirs: seq<string>,
                                         scanOf: string -> seq<ScannedFile>, toInt: string -> int)
    ensures forall d :: d in AddAll(w, ignored, dirs, scanOf, toInt).subtrees <==>
                          d in w.subtrees || (d in dirs && d !in ignored)
    decreases |dirs|
  {
    if dirs != [] {
      var init := dirs[..|dirs| - 1];
      AddAllWatches(w, ignored, init, scanOf, toInt);
      assert dirs == init + [dirs[|dirs| - 1]];
    }
  }

  /** Adding directories that are all already watched or ignored changes nothing. */
  lemma {:induction false} AddAllSkipsKnown(w: Watch, ignored: set<string>, dirs: seq<string>,
                                            scanOf: string -> seq<ScannedFile>, toInt: string -> int)
    requires forall d :: d in dirs ==> d in w.subtrees || d in ignored
    ensures AddAll(w, ignored, dirs, scanOf, toInt) == w
    decreases |dirs|
  {
    if dirs != [] {
      AddAllSkipsKnown(w, ignored, dirs[..|dirs| - 1], scanOf, toInt);
      assert dirs[|dirs| - 1] in dirs;
    }
  }

  /**
   * `MediaScanner`. `subtrees` holds the keys of the source's map of
   * subtree watchers; the watchers themselves are not part of this model.
   */
  class MediaScanner {
    var mountDir: string
    var ignoredDirectories: set<string>
    var subtrees: set<string>
    const store: MediaStore

    constructor (s: MediaStore)
      ensures store == s && subtrees == {} && mountDir == "" && ignoredDirectories == {}
    {
      store := s;
      subtrees := {};
      mountDir := "";
      ignoredDirectories := {};
    }

    /** The state the scanner rules act on. */
    function State(): Watch
      reads this, store
      requires store.tables.files.Some?
    {
      Watch(subtrees, store.tables.files.value)
    }

    /**
     * `readFiles`: the change filter over one scan. `getETag` sits outside
     * the `try`, so a store that is not usable throws out of the loop at the
     * first file (`ok == false`); nothing is written then.
     */
    method ReadFiles(scan: seq<ScannedFile>, toInt: string -> int) returns (ok: bool)
      modifies store
      ensures store.isOpen == old(store.isOpen)
      ensures ok == (scan == [] || Usable(old(store.isOpen), old(store.tables)))
      ensures ok && Usable(old(store.isOpen), old(store.tables)) ==>
                store.tables == old(store.tables).(files := Some(ReadAll(old(store.tables.files.value), scan, toInt)))
      ensures !Usable(old(store.isOpen), old(store.tables)) ==> store.tables == old(store.tables)
    {
      if scan == [] {
        return true;
      }
      if !store.isOpen || store.tables.files.None? {
        var _, _ := store.GetETag(scan[0].file.path);
        return false;
      }
      ghost var files0 := store.tables.files.value;
      var i := 0;
      while i < |scan|
        invariant 0 <= i <= |scan|
        invariant store.isOpen && store.tables.files.Some?
        invariant store.tables == old(store.tables).(files := Some(ReadAll(files0, scan[..i], toInt)))
      {
        var s := scan[i];
        assert scan[..i + 1][..i] == scan[..i];
        var stored, _ := store.GetETag(s.file.path);
        if s.file.etag != stored && !s.indexThrows {
          var mf := Extract(s.file, s.now, s.mtime, s.tags, toInt);
          var _ := store.Insert(mf);
        }
        i := i + 1;
      }
      assert scan[..i] == scan;
      ok := true;
    }

    /**
     * `addDir`. A watched or ignored directory (exact match) is left alone;
     * otherwise the store's no-op restore and prune run, the directory is
     * scanned, and only then is it recorded as watched. `ok == false` is an
     * exception out of `readFiles`, after which nothing is recorded.
     */
    method AddDir(dir: string, scan: seq<ScannedFile>, toInt: string -> int) returns (ok: bool)
      requires Absolute(dir)
      modifies this, store
      ensures mountDir == old(mountDir) && ignoredDirectories == old(ignoredDirectories)
      ensures store.isOpen == old(store.isOpen)
      ensures (old(dir in subtrees) || old(dir in ignoredDirectories)) ==>
                ok && subtrees == old(subtrees) && store.tables == old(store.tables)
      ensures Usable(old(store.isOpen), old(store.tables)) ==>
                (ok && store.tables.files.Some? &&
                 State() == AddDirEffect(old(Watch(subtrees, store.tables.files.value)), ignoredDirectories, dir, scan, toInt))
      ensures !ok ==> subtrees == old(subtrees) && store.tables == old(store.tables)
      ensures ok ==> old(subtrees) <= subtrees && (dir in subtrees || dir in ignoredDirectories)
    {
      if dir in subtrees {
        return true;
      }
      if dir in ignoredDirectories {
        return true;
      }
      store.RestoreItems(dir);
      store.PruneDeleted();
      ok := ReadFiles(scan, toInt);
      if !ok {
        return;
      }
      subtrees := subtrees + {dir};
    }

    /** `removeDir`: erases only that key; the store is not touched. */
    method RemoveDir(dir: string)
      requires Absolute(dir)
      requires dir in subtrees
      modifies this
      ensures subtrees == old(subtrees) - {dir}
      ensures mountDir == old(mountDir) && ignoredDirectories == old(ignoredDirectories)
    {
      subtrees := subtrees - {dir};
    }

    /**
     * `processEvents` over the events one `read` returned (an empty list
     * when `read` returns 0 or -1). With a usable store the result is
     * `Dispatch`; a failed assertion stops the batch (`AssertionFailed`).
     */
    method ProcessEvents(events: seq<MountEvent>, scanOf: string -> seq<ScannedFile>, toInt: string -> int)
      returns (status: Status)
      modifies this, store
      ensures mountDir == old(mountDir) && ignoredDirectories == old(ignoredDirectories)
      ensures store.isOpen == old(store.isOpen)
      ensures Usable(old(store.isOpen), old(store.tables)) ==>
                store.tables.files.Some? &&
                var r := Dispatch(old(Watch(subtrees, store.tables.files.value)), ignoredDirectories, mountDir, events, scanOf, toInt);
                (status == Done <==> r.Some?) && (status == Done ==> State() == r.value) && status != StoreFailed
    {
      ghost var usable := Usable(store.isOpen, store.tables);
      ghost var w0 := if usable then Watch(subtrees, store.tables.files.value) else Watch({}, map[]);
      var i := 0;
      while i < |events|
        invariant 0 <= i <= |events|
        invariant mountDir == old(mountDir) && ignoredDirectories == old(ignoredDirectories)
        invariant store.isOpen == old(store.isOpen)
        invariant usable ==> Usable(store.isOpen, store.tables)
        invariant usable ==> Dispatch(w0, ignoredDirectories, mountDir, events[..i], scanOf, toInt) == Some(State())
      {
        var e := events[i];
        assert events[..i + 1][..i] == events[..i];
        var dir := VolumePath(mountDir, e.name);
        if e.isDir && e.kind != OtherEvent {
          if !Absolute(dir) {
            if usable {
              DispatchAbortSticks(w0, ignoredDirectories, mountDir, events, i + 1, scanOf, toInt);
            }
            return AssertionFailed;
          }
          if e.kind == Created {
            var ok := AddDir(dir, scanOf(dir), toInt);
            if !ok {
              return StoreFailed;
            }
          } else {
            if dir !in subtrees {
              if usable {
                DispatchAbortSticks(w0, ignoredDirectories, mountDir, events, i + 1, scanOf, toInt);
              }
              return AssertionFailed;
            }
            RemoveDir(dir);
          }
        }
        i := i + 1;
      }
      assert events[..i] == events;
      status := Done;
    }

    /**
     * `setup`: records the mount directory and the ignored directories,
     * then adds the mounted volumes. The inotify watch `setupMountWatcher`
     * installs between the two is not part of this model.
     */
    method Setup(path: string, dirsToIgnore: set<string>, listing: Option<seq<(string, bool)>>,
                 scanOf: string -> seq<ScannedFile>, toInt: string -> int) returns (added: seq<string>, ok: bool)
      modifies this, store
      ensures mountDir == path && ignoredDirectories == dirsToIgnore
      ensures listing.None? ==> added == [] && ok && subtrees == old(subtrees) && store.tables == old(store.tables)
      ensures listing.Some? && ok ==> added == MountedVolumes(path, listing.value)
      ensures listing.Some? ==> (|added| <= |MountedVolumes(path, listing.value)| &&
                                 added == MountedVolumes(path, listing.value)[..|added|])
      ensures forall d :: d in added ==> d in subtrees || d in dirsToIgnore
      ensures Usable(old(store.isOpen), old(store.tables)) ==>
                store.tables.files.Some? &&
                State() == AddAll(old(Watch(subtrees, store.tables.files.value)), dirsToIgnore, added, scanOf, toInt)
      ensures Usable(old(store.isOpen), old(store.tables)) && listing.Some? ==>
                (ok <==> forall d :: d in MountedVolumes(path, listing.value) ==> Absolute(d))
    {
      mountDir := path;
      ignoredDirectories := dirsToIgnore;
      added, ok := AddMountedVolumes(listing, scanOf, toInt);
    }

    /**
     * `addMountedVolumes`: every listed directory whose name does not start
     * with `.` is added, in listing order; the listing itself is an input
     * (`None` when `opendir` fails). `ok == false` is a failure from an
     * `addDir` (a failed assertion or an exception out of the store).
     */
    method AddMountedVolumes(listing: Option<seq<(string, bool)>>, scanOf: string -> seq<ScannedFile>,
                             toInt: string -> int) returns (added: seq<string>, ok: bool)
      modifies this, store
      ensures listing.None? ==> added == [] && ok && subtrees == old(subtrees) && store.tables == old(store.tables)
      ensures listing.Some? && ok ==> added == MountedVolumes(mountDir, listing.value)
      ensures listing.Some? ==> (|added| <= |MountedVolumes(mountDir, listing.value)| &&
                                 added == MountedVolumes(mountDir, listing.value)[..|added|])
      ensures mountDir == old(mountDir) && ignoredDirectories == old(ignoredDirectories)
      ensures forall d :: d in added ==> d in subtrees || d in ignoredDirectories
      ensures Usable(old(store.isOpen), old(store.tables)) ==>
                store.tables.files.Some? &&
                State() == AddAll(old(Watch(subtrees, store.tables.files.value)), ignoredDirectories, added, scanOf, toInt)
      ensures Usable(old(store.isOpen), old(store.tables)) && listing.Some? ==>
                (ok <==> forall d :: d in MountedVolumes(mountDir, listing.value) ==> Absolute(d))
    {
      ghost var usable := Usable(store.isOpen, store.tables);
      ghost var w0 := if usable then Watch(subtrees, store.tables.files.value) else Watch({}, map[]);
      added := [];
      ok := true;
      if listing.None? {
        return;
      }
      var entries := listing.value;
      var dirs := MountedVolumes(mountDir, entries);
      var k := 0;
      while k < |dirs|
        invariant 0 <= k <= |dirs|
        invariant mountDir == old(mountDir) && ignoredDirectories == old(ignoredDirectories)
        invariant dirs == MountedVolumes(mountDir, entries)
        invariant added == dirs[..k]
        invariant forall d :: d in added ==> d in subtrees || d in ignoredDirectories
        invariant forall d :: d in added ==> Absolute(d)
        invariant store.isOpen == old(store.isOpen)
        invariant usable ==> Usable(store.isOpen, store.tables) &&
                               State() == AddAll(w0, ignoredDirectories, added, scanOf, toInt)
      {
        var dir := dirs[k];
        if !Absolute(dir) {
          assert dirs[k] in dirs;
          ok := false;
          return;
        }
        var r := AddDir(dir, scanOf(dir), toInt);
        if !r {
          ok := false;
          return;
        }
        assert (added + [dir])[..|added|] == added;
        added := added + [dir];
        k := k + 1;
      }
      assert dirs[..k] == dirs;
    }
  }

  /** How a batch of mount events ended. */
  datatype Status = Done | AssertionFailed | StoreFailed
}
