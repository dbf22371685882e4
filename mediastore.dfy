/**
 * The fingerprint store (src/MediaStore.cc): an SQLite file with a
 * `schemaVersion` table and a `files` table keyed by path that remembers the
 * etag seen for each file. The database file is modelled by its tables, a
 * table by `None` while it does not exist; `files` is a map from path to
 * etag, so a path has at most one row by construction.
 */
module MediaStores {
  import opened Wrappers
  import MediaFiles

  /** The schema version this code writes. */
  const CurrentSchemaVersion: int := 1

  /** The tables of the database file. */
  datatype Tables = Tables(schemaVersion: Option<seq<int>>, files: Option<map<string, string>>)

  /** What a table-level step leaves behind and whether it ran without an SQL error. */
  datatype Outcome = Outcome(tables: Tables, ok: bool)

  /**
   * `getSchemaVersion`: the first stored row, or -1 when the query fails
   * (the table does not exist) or returns no row.
   */
  function SchemaVersion(t: Tables): int {
    if t.schemaVersion.None? || t.schemaVersion.value == [] then -1
    else t.schemaVersion.value[0]
  }

  /**
   * `createTables`: the script creates `schemaVersion`, then `files`, and
   * stops at the first statement that fails because its table exists; only
   * after the script succeeds is the version row inserted.
   */
  function CreateTables(t: Tables): Outcome {
    if t.schemaVersion.Some? then Outcome(t, false)
    else if t.files.Some? then Outcome(t.(schemaVersion := Some([])), false)
    else Outcome(Tables(Some([CurrentSchemaVersion]), Some(map[])), true)
  }

  /** `deleteTables` (present in the source, called nowhere): drops both tables. */
  function DeleteTables(t: Tables): (r: Tables)
    ensures r.schemaVersion.None? && r.files.None?
  {
    Tables(None, None)
  }

  /** The constructor's gate after a successful `sqlite3_open`. */
  function OpenGate(t: Tables): Outcome {
    if SchemaVersion(t) < 0 then CreateTables(t) else Outcome(t, true)
  }

  /** On a file without tables, the gate creates both and records version 1. */
  lemma GateOnNewFile()
    ensures OpenGate(Tables(None, None)).ok
    ensures OpenGate(Tables(None, None)).tables.files == Some(map[])
    ensures SchemaVersion(OpenGate(Tables(None, None)).tables) == CurrentSchemaVersion
  {
  }

  /**
   * Any version at or above 0, including one other than the current one,
   * leaves the file exactly as it is: nothing is rebuilt.
   */
  lemma GateKeepsExistingVersion(t: Tables)
    requires SchemaVersion(t) >= 0
    ensures OpenGate(t) == Outcome(t, true)
  {
  }

  /** The gate creates tables only when the version reads below 0. */
  lemma GateChangesOnlyBelowZero(t: Tables)
    ensures OpenGate(t).tables != t ==> SchemaVersion(t) < 0
  {
  }

  /**
   * An existing but empty `schemaVersion` table reads as version -1, and
   * the creation script then fails on its first statement: the constructor
   * throws and the file is left unchanged.
   */
  lemma GateFailsOnEmptyVersionTable(t: Tables)
    requires t.schemaVersion == Some([])
    ensures SchemaVersion(t) == -1
    ensures OpenGate(t) == Outcome(t, false)
  {
  }

  /**
   * A successful gate leaves a readable version: the one stored before, or
   * the current one when the tables were created.
   */
  lemma GateSucceeds(t: Tables)
    requires OpenGate(t).ok
    ensures SchemaVersion(OpenGate(t).tables) >= 0
    ensures SchemaVersion(t) < 0 ==> OpenGate(t).tables == Tables(Some([CurrentSchemaVersion]), Some(map[]))
  {
  }

  /** After the never-called `deleteTables`, opening would create fresh tables. */
  lemma GateAfterDelete(t: Tables)
    ensures OpenGate(DeleteTables(t)) == Outcome(Tables(Some([CurrentSchemaVersion]), Some(map[])), true)
  {
  }

  /** The `SELECT etag FROM files WHERE path = ?` answer: `""` when there is no row. */
  function ETagOf(files: map<string, string>, path: string): string {
    if path in files then files[path] else ""
  }

  /** Insert-or-replace makes the inserted etag the one read back. */
  lemma ETagAfterInsert(files: map<string, string>, path: string, etag: string, other: string)
    ensures ETagOf(files[path := etag], path) == etag
    ensures other != path ==> ETagOf(files[path := etag], other) == ETagOf(files, other)
  {
  }

  /** Insert-or-replace adds a row only for a new path: each path keeps one row. */
  lemma {:induction false} RowsAfterInsert(files: map<string, string>, path: string, etag: string)
    ensures path in files ==> |files[path := etag].Keys| == |files.Keys|
    ensures path !in files ==> |files[path := etag].Keys| == |files.Keys| + 1
  {
    var after := files[path := etag];
    assert after.Keys == files.Keys + {path};
    if path !in files {
      assert files.Keys * {path} == {};
    } else {
      assert files.Keys + {path} == files.Keys;
    }
  }

  /** Removing a path leaves no row for it and every other row as it was. */
  lemma ETagAfterRemove(files: map<string, string>, path: string, other: string)
    ensures ETagOf(files - {path}, path) == ""
    ensures other != path ==> ETagOf(files - {path}, other) == ETagOf(files, other)
  {
  }

  /** A usable store: the database opened and its `files` table exists. */
  predicate Usable(isOpen: bool, t: Tables) {
    isOpen && t.files.Some?
  }

  /**
   * `MediaStore`. `tables` is the database file as the store sees it;
   * `isOpen` records whether `sqlite3_open` succeeded. Every statement on a
   * store that is not usable fails, which the source reports by throwing:
   * here by `ok == false`.
   */
  class MediaStore {
    var tables: Tables
    var isOpen: bool

    constructor Init(t: Tables, openFlag: bool)
      ensures tables == t && isOpen == openFlag
    {
      tables := t;
      isOpen := openFlag;
    }

    /**
     * The constructor: opening the file (its success is an input), then the
     * version gate. A failing gate makes the constructor throw, which is
     * `Err` carrying the file as the failed script left it.
     */
    static method Open(persisted: Tables, openSucceeds: bool) returns (r: Result<MediaStore, Tables>)
      ensures !openSucceeds ==> r.Ok? && fresh(r.value) && !r.value.isOpen && r.value.tables == persisted
      ensures openSucceeds && OpenGate(persisted).ok ==>
                r.Ok? && fresh(r.value) && r.value.isOpen && r.value.tables == OpenGate(persisted).tables
      ensures openSucceeds && !OpenGate(persisted).ok ==> r == Err(OpenGate(persisted).tables)
    {
      if !openSucceeds {
        var s := new MediaStore.Init(persisted, false);
        return Ok(s);
      }
      var t := persisted;
      if SchemaVersion(t) < 0 {
        var created := CreateTables(t);
        if !created.ok {
          return Err(created.tables);
        }
        t := created.tables;
      }
      var s := new MediaStore.Init(t, true);
      r := Ok(s);
    }

    /** `insert`: insert-or-replace of the file's path and etag. */
    method Insert(m: MediaFiles.MediaFile) returns (ok: bool)
      modifies this
      ensures ok == Usable(old(isOpen), old(tables)) && isOpen == old(isOpen)
      ensures ok ==> tables == old(tables).(files := Some(old(tables.files.value)[m.path := m.etag]))
      ensures !ok ==> tables == old(tables)
    {
      if !isOpen || tables.files.None? {
        return false;
      }
      tables := tables.(files := Some(tables.files.value[m.path := m.etag]));
      ok := true;
    }

    /** `remove`: deletes the row of that path, if there is one. */
    method Remove(path: string) returns (ok: bool)
      modifies this
      ensures ok == Usable(old(isOpen), old(tables)) && isOpen == old(isOpen)
      ensures ok ==> tables == old(tables).(files := Some(old(tables.files.value) - {path}))
      ensures !ok ==> tables == old(tables)
    {
      if !isOpen || tables.files.None? {
        return false;
      }
      tables := tables.(files := Some(tables.files.value - {path}));
      ok := true;
    }

    /** `getETag`: the stored etag of the path, `""` when it has no row. */
    method GetETag(path: string) returns (etag: string, ok: bool)
      ensures ok == Usable(isOpen, tables)
      ensures ok ==> etag == ETagOf(tables.files.value, path)
      ensures ok && path !in tables.files.value ==> etag == ""
    {
      if !isOpen || tables.files.None? {
        return "", false;
      }
      var files := tables.files.value;
      if path in files {
        etag := files[path];
      } else {
        etag := "";
      }
      ok := true;
    }

    /** `size`: always 0, whatever the table holds. */
    method Size() returns (n: nat)
      ensures n == 0
    {
      n := 0;
    }

    /** `pruneDeleted`: empty in the source; changes nothing. */
    method PruneDeleted()
      ensures tables == old(tables) && isOpen == old(isOpen)
    {
    }

    /** `archiveItems`: empty in the source; changes nothing. */
    method ArchiveItems(prefix: string)
      ensures tables == old(tables) && isOpen == old(isOpen)
    {
    }

    /** `restoreItems`: empty in the source; changes nothing. */
    method RestoreItems(prefix: string)
      ensures tables == old(tables) && isOpen == old(isOpen)
    {
    }
  }
}
