/**
 * What the command state machines of commands.dfy promise: the requests each
 * command issues, how replies are read, what is written, the follow-up
 * commands and their order, and how the recounts relate to the store.
 */
module CommandProperties {
  import opened Wrappers
  import opened CStrings
  import opened MediaFiles
  import opened Json
  import opened Catalog
  import opened Commands
  import Serializer

  /** A successful reply carrying `results`. */
  predicate Found(r: Response) {
    r.err == 0 && r.results.Some?
  }

  // Handlers and errors.

  /**
   * An error code in a reply makes every handler throw, except the one of
   * `AssignImageToAlbumCommand`, which does not look at it, and the opaque
   * thumbnail command.
   */
  lemma ErrorsThrow(c: CommandState, slot: Slot, r: Response, cfg: Config)
    requires r.err != 0
    requires !c.AssignImageToAlbumCommand? && !c.GenerateAlbumThumbnailsCommand?
    ensures Step(c, slot, r, cfg) == Throws(c)
  {
  }

  // Insert, Remove, RemoveAll.

  /** `InsertCommand` looks the path up on the base file kind. */
  lemma InsertIssuesPathQuery(f: MediaRecord, cfg: Config)
    ensures Start(InsertCommand(f), cfg) ==
              Effects(InsertCommand(f), [Send(FindSlot, Find(Query(["_id"], FileKind, [Clause("path", Str(CStr(f.path)), Exact)])))], [], false)
  {
  }

  /** An entry with that path already exists: finish, and put nothing. */
  lemma InsertExistingFinishes(f: MediaRecord, r: Response, cfg: Config)
    requires Found(r) && |r.results.value| > 0
    ensures Step(InsertCommand(f), FindSlot, r, cfg) == Effects(InsertCommand(f), [], [], true)
  {
  }

  /**
   * No entry yet: exactly one object is put, the serialized file, which
   * carries the file's path; the command finishes on the put's reply.
   */
  lemma InsertNewPutsOne(f: MediaRecord, r: Response, r2: Response, cfg: Config)
    requires Found(r) && r.results.value == []
    requires r2.err == 0
    ensures var o := Step(InsertCommand(f), FindSlot, r, cfg);
            && o.sends == [Send(WriteSlot, Put([Serializer.DatabaseObject(f)]))]
            && !o.finish && o.spawns == [] && !o.threw
    ensures Serializer.DatabaseObject(f)["path"] == Str(CStr(f.path))
    ensures Step(InsertCommand(f), WriteSlot, r2, cfg) == Effects(InsertCommand(f), [], [], true)
  {
    Serializer.CommonFieldsCopied(f);
  }

  /** `Ids` succeeds exactly when every result has an `_id`, and then lists them in order. */
  lemma {:induction false} IdsSpec(results: seq<Value>)
    ensures Ids(results).Some? <==> forall i :: 0 <= i < |results| ==> results[i].Obj? && "_id" in results[i].fields
    ensures Ids(results).Some? ==> forall i :: 0 <= i < |results| ==> Ids(results).value[i] == results[i].fields["_id"]
    decreases |results|
  {
    if results != [] {
      IdsSpec(results[1..]);
      assert forall i :: 1 <= i < |results| ==> results[i] == results[1..][i - 1];
    }
  }

  /**
   * The remove commands: nothing found finishes without a delete; otherwise
   * exactly the `_id`s found are deleted (with purge), in result order.
   */
  lemma RemoveDeletesFound(c: CommandState, r: Response, cfg: Config)
    requires c.RemoveCommand? || c.RemoveAllCommand?
    requires Found(r)
    requires forall i :: 0 <= i < |r.results.value| ==> r.results.value[i].Obj? && "_id" in r.results.value[i].fields
    ensures Ids(r.results.value).Some?
    ensures var o := Step(c, FindSlot, r, cfg);
            && (r.results.value == [] ==> o == Effects(c, [], [], true))
            && (r.results.value != [] ==>
                  && o.sends == [Send(WriteSlot, Del(Ids(r.results.value).value, true))] && !o.finish
                  && |Ids(r.results.value).value| == |r.results.value|
                  && forall i :: 0 <= i < |r.results.value| ==>
                       Ids(r.results.value).value[i] == r.results.value[i].fields["_id"])
  {
    IdsSpec(r.results.value);
  }

  /** `RemoveAllCommand` finds every document of the base file kind. */
  lemma RemoveAllFindsAll()
    ensures Start(RemoveAllCommand, Config(map[], map[])).sends == [Send(FindSlot, Find(Query(["_id"], FileKind, [])))]
    ensures forall d, key :: Satisfies(d, AllFilesQuery.where, key)
  {
  }

  // PutKind and RemoveKind.

  /**
   * A missing or empty kind file makes `execute` call `finish` itself,
   * while the wake-up flag is still set (see `CommandQueues.SynchronousFinishStalls`).
   */
  lemma PutKindWithoutFile(k: string, cfg: Config)
    requires k !in cfg.kindFiles
    ensures Start(PutKindCommand(k), cfg) == Effects(PutKindCommand(k), [], [], true)
  {
  }

  /** With a kind file the kind is registered, then its permissions if they have a file. */
  lemma PutKindRegisters(k: string, cfg: Config, r: Response)
    requires k in cfg.kindFiles && r.err == 0
    ensures Start(PutKindCommand(k), cfg).sends == [Send(WriteSlot, PutKind(cfg.kindFiles[k]))]
    ensures k in cfg.permissionFiles ==>
              Step(PutKindCommand(k), WriteSlot, r, cfg).sends ==
                [Send(PermissionsSlot, PutPermissions(map["permissions" := cfg.permissionFiles[k]]))]
    ensures k !in cfg.permissionFiles ==> Step(PutKindCommand(k), WriteSlot, r, cfg) == Effects(PutKindCommand(k), [], [], true)
    ensures Step(PutKindCommand(k), PermissionsSlot, r, cfg) == Effects(PutKindCommand(k), [], [], true)
  {
  }

  /** `RemoveKindCommand` deletes the kind at version 1. */
  lemma RemoveKindDeletesVersionOne(k: string, cfg: Config)
    ensures Start(RemoveKindCommand(k), cfg).sends == [Send(WriteSlot, DelKind(k + ":1"))]
  {
  }

  // The recounts.

  /** A recount whose find reply has no `results` finishes without merging. */
  lemma RecountWithoutResultsFinishes(c: CommandState, slot: Slot, r: Response, cfg: Config)
    requires c.CountAlbumAudiosCommand? || c.CountAlbumImagesCommand? || c.CountAggregateAudiosCommand?
    requires slot == FindSlot || (c.CountAggregateAudiosCommand? && slot == AlbumsSlot)
    requires r.err == 0 && r.results.None?
    ensures Step(c, slot, r, cfg) == Effects(c, [], [], true)
  {
  }

  /** The album recount query selects the audio files that are not ringtones and whose album matches. */
  lemma AlbumTracksClauses(doc: Object, name: Value, key: string -> string)
    ensures Satisfies(doc, AlbumTracksQuery(name).where, key) <==>
              && "isRingtone" in doc && doc["isRingtone"] == Bool(false)
              && "album" in doc && ValueMatches(doc["album"], name, Primary, key)
  {
    var w := AlbumTracksQuery(name).where;
    assert w[0].field == "isRingtone" && w[1].field == "album";
  }

  /**
   * Answered from the store, the album recount merges into the album
   * `total.tracks` equal to the number of non-ringtone audio files whose
   * album matches the name.
   */
  lemma AlbumRecountCountsTracks(store: Store, key: string -> string, id: Value, name: Value, cfg: Config)
    requires AudioFileKind in store
    ensures var c := CountAlbumAudiosCommand(id, name);
            var q := AlbumTracksQuery(name);
            && Start(c, cfg).sends == [Send(FindSlot, Find(q))]
            && Step(c, FindSlot, Answer(store, q, key), cfg).sends ==
                 [Send(WriteSlot, Merge([TotalMerge(id, map["tracks" := Int(|MatchIndices(store[AudioFileKind], q.where, key)|)])]))]
  {
    AnswerCount(store, AlbumTracksQuery(name), key);
  }

  /** The image recount query selects the image files whose `albumId` is the album. */
  lemma AlbumImagesClauses(doc: Object, albumId: Value, key: string -> string)
    ensures Satisfies(doc, AlbumImagesQuery(albumId).where, key) <==> "albumId" in doc && doc["albumId"] == albumId
  {
    assert AlbumImagesQuery(albumId).where[0].field == "albumId";
  }

  /** Answered from the store, the image recount merges `total.images` = the album's image count. */
  lemma AlbumRecountCountsImages(store: Store, key: string -> string, id: Value, cfg: Config)
    requires ImageFileKind in store
    ensures var c := CountAlbumImagesCommand(id);
            var q := AlbumImagesQuery(id);
            && Start(c, cfg).sends == [Send(FindSlot, Find(q))]
            && Step(c, FindSlot, Answer(store, q, key), cfg).sends ==
                 [Send(WriteSlot, Merge([TotalMerge(id, map["images" := Int(|MatchIndices(store[ImageFileKind], q.where, key)|)])]))]
  {
    AnswerCount(store, AlbumImagesQuery(id), key);
  }

  /** The genre/artist recount issues both finds at once. */
  lemma AggregateRecountIssuesTwoFinds(a: Aggregate, id: Value, name: Value, cfg: Config)
    ensures Start(CountAggregateAudiosCommand(a, id, name, -1, -1), cfg).sends ==
              [Send(FindSlot, Find(AggregateTracksQuery(a, name))), Send(AlbumsSlot, Find(AggregateAlbumsQuery(a, name)))]
  {
  }

  /** The merge of a genre/artist recount with both counts. */
  function JoinedMerge(id: Value, tracks: nat, albums: nat): seq<Send> {
    [Send(WriteSlot, Merge([TotalMerge(id, map["tracks" := Int(tracks), "albums" := Int(albums)])]))]
  }

  /**
   * The two-reply join: the first reply, in either order, merges nothing;
   * the second merges both counts together.
   */
  lemma JoinInEitherOrder(a: Aggregate, id: Value, name: Value, files: Response, albums: Response, cfg: Config)
    requires Found(files) && Found(albums)
    ensures var c := CountAggregateAudiosCommand(a, id, name, -1, -1);
            var t, n := |files.results.value|, |albums.results.value|;
            var o1 := Step(c, FindSlot, files, cfg);
            var o2 := Step(o1.state, AlbumsSlot, albums, cfg);
            && o1.sends == [] && !o1.finish && !o1.threw
            && o2.sends == JoinedMerge(id, t, n) && !o2.finish
    ensures var c := CountAggregateAudiosCommand(a, id, name, -1, -1);
            var t, n := |files.results.value|, |albums.results.value|;
            var o1 := Step(c, AlbumsSlot, albums, cfg);
            var o2 := Step(o1.state, FindSlot, files, cfg);
            && o1.sends == [] && !o1.finish && !o1.threw
            && o2.sends == JoinedMerge(id, t, n) && !o2.finish
  {
  }

  /**
   * A reply without `results` finishes the recount while the other find
   * may still be outstanding; if that one also lacks `results`, it calls
   * `finish` a second time.
   */
  lemma JoinFinishesTwice(a: Aggregate, id: Value, name: Value, r1: Response, r2: Response, cfg: Config)
    requires r1.err == 0 && r1.results.None? && r2.err == 0 && r2.results.None?
    ensures var c := CountAggregateAudiosCommand(a, id, name, -1, -1);
            var o1 := Step(c, FindSlot, r1, cfg);
            o1.finish && Step(o1.state, AlbumsSlot, r2, cfg).finish
  {
  }

  // Find-or-create.

  /** The find-or-create lookups: audio albums, genres and artists by name (primary collation), image albums by path. */
  lemma FindOrCreateLookups(f: MediaRecord, id: Value, a: Aggregate, v: Value, cfg: Config)
    ensures Start(AddAlbumForAudioCommand(f, id, v), cfg).sends ==
              [Send(FindSlot, Find(Query(["_id"], AudioAlbumKind, [Clause("name", Str(CStr(f.album)), Primary)])))]
    ensures Start(AddAggregateForAudioCommand(a, f, id, v), cfg).sends ==
              [Send(FindSlot, Find(Query(["_id"], AggregateKind(a), [Clause("name", Str(CStr(AggregateOf(a, f))), Primary)])))]
    ensures Start(AddAlbumForImageCommand(f, id), cfg).sends ==
              [Send(FindSlot, Find(Query(["_id"], ImageAlbumKind, [Clause("path", Str(CStr(f.albumPath)), Exact)])))]
  {
  }

  /** The find-or-create commands. */
  predicate FindOrCreateCommand(c: CommandState) {
    c.AddAlbumForAudioCommand? || c.AddAggregateForAudioCommand? || c.AddAlbumForImageCommand?
  }

  /** The seed each find-or-create command puts. */
  function SeedOf(c: CommandState): Object
    requires FindOrCreateCommand(c)
  {
    match c
    case AddAlbumForAudioCommand(f, _, _) => AudioAlbumSeed(f)
    case AddAggregateForAudioCommand(a, f, _, _) => AggregateSeed(a, f)
    case AddAlbumForImageCommand(f, _) => ImageAlbumSeed(f)
  }

  /** An existing aggregate is used as it is: no new one is put. */
  lemma ExistingAggregateNotPut(c: CommandState, r: Response, cfg: Config)
    requires FindOrCreateCommand(c)
    requires Found(r) && |r.results.value| > 0
    ensures Step(c, FindSlot, r, cfg).sends == []
  {
  }

  /** No aggregate yet: exactly its seed is put, and nothing else happens until the reply. */
  lemma MissingAggregatePutsSeed(c: CommandState, r: Response, cfg: Config)
    requires FindOrCreateCommand(c)
    requires Found(r) && r.results.value == []
    ensures Step(c, FindSlot, r, cfg) == Effects(c, [Send(WriteSlot, Put([SeedOf(c)]))], [], false)
  {
  }

  /** A new audio album: name, artist (the album artist), genre, zero tracks, not serviced, no thumbnails. */
  lemma AudioAlbumSeedFields(f: MediaRecord)
    ensures var s := AudioAlbumSeed(f);
            && s.Keys == {"_kind", "artist", "genre", "hasResizedThumbnails", "name", "serviced", "total", "thumbnails"}
            && s["name"] == Str(CStr(f.album)) && s["artist"] == Str(CStr(f.albumArtist))
            && s["genre"] == Str(CStr(f.genre)) && s["total"] == Obj(map["tracks" := Int(0)])
            && s["serviced"] == Bool(false) && s["thumbnails"] == Arr([])
  {
  }

  /** A new genre or artist: its name, zero tracks and zero albums. */
  lemma AggregateSeedFields(a: Aggregate, f: MediaRecord)
    ensures var s := AggregateSeed(a, f);
            && s["name"] == Str(CStr(AggregateOf(a, f)))
            && s["total"] == Obj(map["tracks" := Int(0), "albums" := Int(0)])
            && s["serviced"] == Bool(false) && s["hasResizedThumbnails"] == Bool(false)
  {
  }

  /**
   * A new image album: name and search key from the album, the album path,
   * modified time from the file's creation time, shown, not to be deleted,
   * zero images.
   */
  lemma ImageAlbumSeedFields(f: MediaRecord)
    ensures var s := ImageAlbumSeed(f);
            && s["name"] == Str(CStr(f.album)) && s["searchKey"] == Str(CStr(f.album))
            && s["path"] == Str(CStr(f.albumPath)) && s["modifiedTime"] == Int(FromUInt64(f.createdTime))
            && s["showAlbum"] == Bool(true) && s["toBeDeleted"] == Bool(false)
            && s["total"] == Obj(map["images" := Int(0)]) && s["accountId"] == Str("") && s["sortKey"] == Str("")
  {
  }

  /** The aggregate id: `id` when present, else `_id`. */
  lemma IdFallsBack(fields: Object)
    ensures "id" in fields ==> IdOf(Obj(fields)) == Some(fields["id"])
    ensures "id" !in fields && "_id" in fields ==> IdOf(Obj(fields)) == Some(fields["_id"])
    ensures "id" !in fields && "_id" !in fields ==> IdOf(Obj(fields)).None?
  {
  }

  /** The follow-ups of a find-or-create command for an aggregate id. */
  function FollowUpsOf(c: CommandState, id: Value): seq<CommandState>
    requires FindOrCreateCommand(c)
  {
    match c
    case AddAlbumForAudioCommand(_, _, name) => [CountAlbumAudiosCommand(id, name), GenerateAlbumThumbnailsCommand(id)]
    case AddAggregateForAudioCommand(a, _, _, name) =>
      [CountAggregateAudiosCommand(a, id, name, -1, -1), GenerateAlbumThumbnailsCommand(id)]
    case AddAlbumForImageCommand(_, idToUpdate) =>
      [AssignImageToAlbumCommand(idToUpdate, id), GenerateAlbumThumbnailsCommand(id)]
  }

  /**
   * `updateAudio`/`updateImage` on the put reply: no first result finishes
   * without enqueuing; otherwise the recount (or, for images, the
   * assignment of the image) and then the thumbnail command are enqueued,
   * and the command finishes.
   */
  lemma CreatedEnqueuesFollowUps(c: CommandState, r: Response, cfg: Config)
    requires FindOrCreateCommand(c)
    requires Found(r)
    ensures r.results.value == [] ==> Step(c, WriteSlot, r, cfg) == Effects(c, [], [], true)
    ensures r.results.value != [] && IdOf(r.results.value[0]).Some? ==>
              Step(c, WriteSlot, r, cfg) == Effects(c, [], FollowUpsOf(c, IdOf(r.results.value[0]).value), true)
  {
  }

  /** The same on the find reply that found the aggregate. */
  lemma FoundEnqueuesFollowUps(c: CommandState, r: Response, cfg: Config)
    requires FindOrCreateCommand(c)
    requires Found(r) && |r.results.value| > 0 && IdOf(r.results.value[0]).Some?
    ensures Step(c, FindSlot, r, cfg) == Effects(c, [], FollowUpsOf(c, IdOf(r.results.value[0]).value), true)
  {
  }

  // Assignment.

  /** Assign merges exactly `{_id: image, albumId: album}` into the image. */
  lemma AssignMergesAlbumId(image: Value, album: Value, cfg: Config)
    ensures var s := Start(AssignImageToAlbumCommand(image, album), cfg).sends;
            && |s| == 1 && s[0].request.Merge? && |s[0].request.objects| == 1
            && s[0].request.objects[0].Keys == {"_id", "albumId"}
            && s[0].request.objects[0]["_id"] == image && s[0].request.objects[0]["albumId"] == album
  {
  }

  /** Whatever the reply, Assign enqueues the album's image recount and finishes. */
  lemma AssignAlwaysRecounts(image: Value, album: Value, slot: Slot, r: Response, cfg: Config)
    ensures Step(AssignImageToAlbumCommand(image, album), slot, r, cfg) ==
              Effects(AssignImageToAlbumCommand(image, album), [], [CountAlbumImagesCommand(album)], true)
  {
  }

  // The rebuild sequence.

  /**
   * `prepareForRebuild(b)`: `RemoveAll`, then, when b holds, the ten
   * `RemoveKind` and then the ten `PutKind` commands in the listed order.
   */
  lemma RebuildSequence(b: bool)
    ensures |RebuildCommands(b)| == if b then 21 else 1
    ensures RebuildCommands(b)[0] == RemoveAllCommand
    ensures b ==> forall i :: 0 <= i < 10 ==>
              RebuildCommands(b)[1 + i] == RemoveKindCommand(RebuildKinds[i]) &&
              RebuildCommands(b)[11 + i] == PutKindCommand(RebuildKinds[i])
    ensures RebuildKinds[0] == "com.palm.media.audio.file" && RebuildKinds[9] == "com.palm.media.file"
  {
  }
}
