/**
 * `MediaIndexDatabase` of src/mediaindexdatabase.cpp, the SQLite index of
 * the Qt indexer: a `files` table keyed by path (UNIQUE ON CONFLICT REPLACE,
 * so one row per path) and an `actions` table the code never writes. The
 * tables are modelled as their presence and, for `files`, a map from path
 * to row.
 */
module IndexDatabases {
  /** One row of `files`: the size and the modification time in whole seconds. */
  datatype Row = Row(size: int, modified: int)

  /** What `QFileInfo` reports for a path. */
  datatype FileInfo = FileInfo(present: bool, size: int, lastModifiedMsecs: int)

  /** `qint64 / 1000`: C++ division truncates toward zero. */
  function Seconds(msecs: int): (s: int)
    ensures msecs >= 0 ==> 0 <= s && s * 1000 <= msecs < (s + 1) * 1000
    ensures msecs < 0 ==> s <= 0 && (s - 1) * 1000 < msecs <= s * 1000
  {
    if msecs >= 0 then msecs / 1000 else -((-msecs) / 1000)
  }

  function RowOf(info: FileInfo): Row {
    Row(info.size, Seconds(info.lastModifiedMsecs))
  }

  /**
   * `processFile`: a stored path whose file is gone is deleted; a new file
   * is inserted; otherwise the row is updated, which changes nothing when
   * there is no row.
   */
  function Processed(rows: map<string, Row>, path: string, info: FileInfo): (r: map<string, Row>)
    ensures path in r <==> info.present
    ensures path in r ==> r[path] == RowOf(info)
    ensures forall p :: p != path ==> (p in r <==> p in rows) && (p in r ==> r[p] == rows[p])
  {
    if path in rows && !info.present then rows - {path}
    else if path !in rows && info.present then rows[path := RowOf(info)]
    else if path in rows then rows[path := RowOf(info)]
    else rows
  }

  /** SQLite's default LIKE folds ASCII letters only. */
  function Fold(c: char): char {
    if 'A' <= c <= 'Z' then (c as int + 32) as char else c
  }

  /**
   * SQLite's `s LIKE pat` with no ESCAPE clause: `%` matches any run of
   * characters, `_` any one character, and every other character itself up
   * to ASCII case.
   */
  function Like(s: string, pat: string): bool
    decreases |s| + |pat|
  {
    if pat == [] then s == []
    else if pat[0] == '%' then Like(s, pat[1..]) || (s != [] && Like(s[1..], pat))
    else s != [] && (pat[0] == '_' || Fold(s[0]) == Fold(pat[0])) && Like(s[1..], pat[1..])
  }

  /** A trailing `%` matches anything. */
  lemma {:induction false} LikeAnyTail(s: string)
    ensures Like(s, "%")
    decreases |s|
  {
    if s != [] {
      LikeAnyTail(s[1..]);
    }
  }

  /** The characters of two strings agree up to ASCII case. */
  predicate FoldEqual(a: string, b: string) {
    |a| == |b| && forall i :: 0 <= i < |a| ==> Fold(a[i]) == Fold(b[i])
  }

  /**
   * For a directory with no wildcard in it, `path LIKE 'dir%'` holds exactly
   * when the path starts with the directory up to ASCII case.
   */
  lemma {:induction false} LikePrefix(s: string, dir: string)
    requires '%' !in dir && '_' !in dir
    ensures Like(s, dir + "%") <==> |dir| <= |s| && FoldEqual(s[..|dir|], dir)
    decreases |dir|
  {
    if dir == [] {
      assert dir + "%" == "%";
      LikeAnyTail(s);
    } else {
      assert (dir + "%")[0] == dir[0] && (dir + "%")[1..] == dir[1..] + "%";
      if s != [] {
        LikePrefix(s[1..], dir[1..]);
        if |dir| <= |s| {
          assert s[..|dir|][1..] == s[1..][..|dir| - 1];
          if FoldEqual(s[1..][..|dir| - 1], dir[1..]) && Fold(s[0]) == Fold(dir[0]) {
            assert forall i :: 1 <= i < |dir| ==> s[..|dir|][i] == s[1..][..|dir| - 1][i - 1];
          }
        }
      }
    }
  }

  /** A path that starts with the directory matches `dir%`, wildcards or not. */
  lemma {:induction false} PrefixIsLike(dir: string, rest: string)
    ensures Like(dir + rest, dir + "%")
    decreases |dir|
  {
    if dir == [] {
      assert dir + rest == rest && dir + "%" == "%";
      LikeAnyTail(rest);
    } else {
      assert (dir + "%")[0] == dir[0] && (dir + "%")[1..] == dir[1..] + "%";
      assert (dir + rest)[0] == dir[0] && (dir + rest)[1..] == dir[1..] + rest;
      PrefixIsLike(dir[1..], rest);
      if dir[0] == '%' {
        PercentSkips(dir[1..] + rest, dir[1..] + "%");
      }
    }
  }

  /** `%` may match the empty run. */
  lemma PercentSkips(s: string, pat: string)
    requires Like(s, pat)
    ensures Like(s, "%" + pat)
  {
    assert ("%" + pat)[1..] == pat;
  }

  /**
   * `removeFilesInDirectory`: `DELETE FROM files WHERE path like 'dir%'`
   * deletes every row whose path matches the pattern.
   */
  function WithoutDirectory(rows: map<string, Row>, dir: string): (r: map<string, Row>)
    ensures forall p :: p in r <==> p in rows && !Like(p, dir + "%")
    ensures forall p :: p in r ==> r[p] == rows[p]
  {
    map p | p in rows && !Like(p, dir + "%") :: rows[p]
  }

  class MediaIndexDatabase {
    var hasFilesTable: bool
    var hasActionsTable: bool
    var files: map<string, Row>

    /** Without a `files` table there are no rows. */
    predicate Valid()
      reads this
    {
      !hasFilesTable ==> files == map[]
    }

    /** The constructor opens the database as found and runs `checkDatabase`. */
    constructor (filesTable: bool, actionsTable: bool, rows: map<string, Row>)
      requires !filesTable ==> rows == map[]
      ensures Valid() && hasFilesTable && hasActionsTable && files == rows
    {
      hasFilesTable := filesTable;
      hasActionsTable := actionsTable;
      files := rows;
      new;
      CheckDatabase();
    }

    /** `checkDatabase`: create the schema when either table is missing. */
    method CheckDatabase()
      requires Valid()
      modifies this
      ensures Valid() && hasFilesTable && hasActionsTable && files == old(files)
    {
      if !hasFilesTable || !hasActionsTable {
        CreateSchema();
      }
    }

    /**
     * `createSchema`: `DELETE TABLE` is not SQL, so both statements fail and
     * nothing is dropped; each `CREATE TABLE` succeeds only for a missing
     * table, which then starts empty.
     */
    method CreateSchema()
      requires Valid()
      modifies this
      ensures Valid() && hasFilesTable && hasActionsTable && files == old(files)
    {
      if !hasActionsTable {
        hasActionsTable := true;
      }
      if !hasFilesTable {
        hasFilesTable := true;
        files := map[];
      }
    }

    method ProcessFile(path: string, info: FileInfo)
      requires Valid() && hasFilesTable
      modifies this
      ensures Valid() && hasFilesTable && hasActionsTable == old(hasActionsTable)
      ensures files == Processed(old(files), path, info)
    {
      if path in files && !info.present {
        files := files - {path};
      } else if path !in files && info.present {
        files := files[path := RowOf(info)];
      } else if path in files {
        files := files[path := RowOf(info)];
      }
    }

    method RemoveFilesInDirectory(dir: string)
      requires Valid() && hasFilesTable
      modifies this
      ensures Valid() && hasFilesTable && hasActionsTable == old(hasActionsTable)
      ensures files == WithoutDirectory(old(files), dir)
    {
      files := map p | p in files && !Like(p, dir + "%") :: files[p];
    }
  }

  /** Processing a path twice with the same file information gives what processing it once gave. */
  lemma ProcessIdempotent(rows: map<string, Row>, path: string, info: FileInfo)
    ensures Processed(Processed(rows, path, info), path, info) == Processed(rows, path, info)
  {
    var once := Processed(rows, path, info);
    var twice := Processed(once, path, info);
    assert forall p :: p in twice <==> p in once;
  }

  /** After removing a directory's files, a path below it is absent whatever `processFile` had stored. */
  lemma RemovedDirectoryIsEmpty(rows: map<string, Row>, dir: string, rest: string)
    ensures dir + rest !in WithoutDirectory(rows, dir)
  {
    PrefixIsLike(dir, rest);
  }

  /**
   * For a wildcard-free directory, exactly the rows whose path starts with
   * it up to ASCII case are deleted: `/media/usb` also removes
   * `/media/USB/a.mp3`.
   */
  lemma RemovesCaseFoldedPrefix(rows: map<string, Row>, dir: string, p: string)
    requires '%' !in dir && '_' !in dir
    ensures p in WithoutDirectory(rows, dir) <==>
              p in rows && !(|dir| <= |p| && FoldEqual(p[..|dir|], dir))
  {
    LikePrefix(p, dir);
  }

  /** An `_` in the directory matches any character: `/media/my_music` also removes `/media/my-music/a.mp3`. */
  lemma UnderscoreMatchesAny(rows: map<string, Row>, a: string, c: char, b: string, rest: string)
    ensures a + [c] + b + rest !in WithoutDirectory(rows, a + "_" + b)
  {
    var dir := a + "_" + b;
    var p := a + [c] + b + rest;
    PrefixIsLike(b, rest);
    UnderscoreStep(a, c, b + rest, b + "%");
    assert p == a + ([c] + (b + rest));
    assert dir + "%" == a + ("_" + (b + "%"));
  }

  /** Matching `a` literally, then `_` against any one character. */
  lemma {:induction false} UnderscoreStep(a: string, c: char, s: string, pat: string)
    requires Like(s, pat)
    ensures Like(a + ([c] + s), a + ("_" + pat))
    decreases |a|
  {
    if a == [] {
      assert a + ([c] + s) == [c] + s && a + ("_" + pat) == "_" + pat;
      assert ("_" + pat)[0] == '_' && ("_" + pat)[1..] == pat && ([c] + s)[1..] == s;
    } else {
      UnderscoreStep(a[1..], c, s, pat);
      assert (a + ([c] + s))[1..] == a[1..] + ([c] + s);
      assert (a + ("_" + pat))[1..] == a[1..] + ("_" + pat);
      if a[0] == '%' {
        PercentSkips(a[1..] + ([c] + s), a[1..] + ("_" + pat));
        assert "%" + (a[1..] + ("_" + pat)) == a + ("_" + pat);
      }
    }
  }
}
