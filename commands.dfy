/**
 * The commands of src/MojoMediaDatabase.cc, src/MojoMediaDatabaseAudio.cc and
 * src/MojoMediaDatabaseImage.cc as state machines. Each command issues
 * requests when it is executed (`Start`) and reacts to each reply (`Step`);
 * both give an `Outcome`: the command's new state, the requests it sends, the
 * commands it enqueues, whether it calls `finish`, and whether the handler
 * threw before doing any of these.
 */
module Commands {
  import opened Wrappers
  import opened CStrings
  import opened MediaFiles
  import opened Json
  import opened Catalog
  import Serializer

  const FileKind: string := "com.palm.media.file:1"
  const AudioFileKind: string := "com.palm.media.audio.file:1"
  const AudioAlbumKind: string := "com.palm.media.audio.album:1"
  const ImageFileKind: string := "com.palm.media.image.file:1"
  const ImageAlbumKind: string := "com.palm.media.image.album:1"

  /** The genre and artist commands are the same code over a different field. */
  datatype Aggregate = Genre | Artist

  function AggregateField(a: Aggregate): string {
    match a
    case Genre => "genre"
    case Artist => "artist"
  }

  function AggregateKind(a: Aggregate): string {
    match a
    case Genre => "com.palm.media.audio.genre:1"
    case Artist => "com.palm.media.audio.artist:1"
  }

  function AggregateOf(a: Aggregate, f: MediaRecord): string {
    match a
    case Genre => f.genre
    case Artist => f.artist
  }

  /**
   * Every command with the fields it holds. `albumName` and `aggregateName`
   * are set by `execute`; `totalTracks` and `totalAlbums` start at the
   * sentinel -1 and are set by the two find replies.
   */
  datatype CommandState =
    | InsertCommand(file: MediaRecord)
    | RemoveCommand(path: string)
    | RemoveAllCommand
    | PutKindCommand(kindName: string)
    | RemoveKindCommand(kindName: string)
    | CountAlbumAudiosCommand(albumId: Value, albumName: Value)
    | AddAlbumForAudioCommand(file: MediaRecord, idToUpdate: Value, albumName: Value)
    | CountAggregateAudiosCommand(which: Aggregate, aggregateId: Value, aggregateName: Value,
                                  totalTracks: int, totalAlbums: int)
    | AddAggregateForAudioCommand(which: Aggregate, file: MediaRecord, idToUpdate: Value, aggregateName: Value)
    | CountAlbumImagesCommand(albumId: Value)
    | AssignImageToAlbumCommand(imageId: Value, albumId: Value)
    | AddAlbumForImageCommand(file: MediaRecord, idToUpdate: Value)
    | GenerateAlbumThumbnailsCommand(thumbnailsId: Value)

  /**
   * The reply slots: the first find (or the only request), the write that
   * follows it, the second find of the genre/artist recount, and the
   * permissions request of `PutKindCommand`.
   */
  datatype Slot = FindSlot | WriteSlot | AlbumsSlot | PermissionsSlot

  datatype Send = Send(slot: Slot, request: Request)

  datatype Outcome = Outcome(state: CommandState, sends: seq<Send>, spawns: seq<CommandState>,
                             finish: bool, threw: bool)

  /** A handler that ran to its end. */
  function Effects(state: CommandState, sends: seq<Send>, spawns: seq<CommandState>, finish: bool): Outcome {
    Outcome(state, sends, spawns, finish, false)
  }

  /** A handler that threw before any effect. */
  function Throws(state: CommandState): Outcome {
    Outcome(state, [], [], false, true)
  }

  /** The kind and permission files under /etc/palm/db, by kind name; absent when missing or empty. */
  datatype Config = Config(kindFiles: map<string, Value>, permissionFiles: map<string, Value>)

  // The queries.

  function PathQuery(path: string): Query {
    Query(["_id"], FileKind, [Clause("path", Str(CStr(path)), Exact)])
  }

  const AllFilesQuery: Query := Query(["_id"], FileKind, [])

  function AlbumTracksQuery(albumName: Value): Query {
    Query(["_id"], AudioFileKind, [Clause("isRingtone", Bool(false), Exact), Clause("album", albumName, Primary)])
  }

  function AlbumByNameQuery(albumName: Value): Query {
    Query(["_id"], AudioAlbumKind, [Clause("name", albumName, Primary)])
  }

  function AggregateTracksQuery(a: Aggregate, name: Value): Query {
    Query(["_id"], AudioFileKind, [Clause("isRingtone", Bool(false), Exact), Clause(AggregateField(a), name, Exact)])
  }

  function AggregateAlbumsQuery(a: Aggregate, name: Value): Query {
    Query(["_id"], AudioAlbumKind, [Clause(AggregateField(a), name, Exact)])
  }

  function AggregateByNameQuery(a: Aggregate, name: Value): Query {
    Query(["_id"], AggregateKind(a), [Clause("name", name, Primary)])
  }

  function AlbumImagesQuery(albumId: Value): Query {
    Query(["_id"], ImageFileKind, [Clause("albumId", albumId, Exact)])
  }

  function ImageAlbumByPathQuery(albumPath: Value): Query {
    Query(["_id"], ImageAlbumKind, [Clause("path", albumPath, Exact)])
  }

  // The objects written.

  function TotalMerge(id: Value, total: Object): Object {
    map["_id" := id, "total" := Obj(total)]
  }

  function AudioAlbumSeed(f: MediaRecord): Object {
    map["_kind" := Str(AudioAlbumKind), "artist" := Str(CStr(f.albumArtist)), "genre" := Str(CStr(f.genre)),
        "hasResizedThumbnails" := Bool(false), "name" := Str(CStr(f.album)), "serviced" := Bool(false),
        "total" := Obj(map["tracks" := Int(0)]), "thumbnails" := Arr([])]
  }

  function AggregateSeed(a: Aggregate, f: MediaRecord): Object {
    map["_kind" := Str(AggregateKind(a)), "hasResizedThumbnails" := Bool(false),
        "name" := Str(CStr(AggregateOf(a, f))), "serviced" := Bool(false),
        "total" := Obj(map["tracks" := Int(0), "albums" := Int(0)]), "thumbnails" := Arr([])]
  }

  function ImageAlbumSeed(f: MediaRecord): Object {
    map["_kind" := Str(ImageAlbumKind), "modifiedTime" := Int(FromUInt64(f.createdTime)),
        "accountId" := Str(""), "name" := Str(CStr(f.album)), "path" := Str(CStr(f.albumPath)),
        "searchKey" := Str(CStr(f.album)), "showAlbum" := Bool(true), "sortKey" := Str(""),
        "toBeDeleted" := Bool(false), "total" := Obj(map["images" := Int(0)]), "thumbnails" := Arr([])]
  }

  /** The `_id` of every result, or None when one of them has none (`getRequired` fails). */
  function Ids(results: seq<Value>): (r: Option<seq<Value>>)
    ensures r.Some? ==> |r.value| == |results|
    decreases |results|
  {
    if results == [] then Some([])
    else
      var item := results[0];
      if !(item.Obj? && "_id" in item.fields) then None
      else
        var rest := Ids(results[1..]);
        if rest.None? then None else Some([item.fields["_id"]] + rest.value)
  }

  /** The aggregate id of a result: its `id`, falling back to `_id`. */
  function IdOf(item: Value): Option<Value> {
    if item.Obj? && "id" in item.fields then Some(item.fields["id"])
    else if item.Obj? && "_id" in item.fields then Some(item.fields["_id"])
    else None
  }

  /** What `execute` does: it never creates a command and never throws. */
  function Start(c: CommandState, cfg: Config): (o: Outcome)
    ensures o.spawns == [] && !o.threw
  {
    match c
    case InsertCommand(f) => Effects(c, [Send(FindSlot, Find(PathQuery(f.path)))], [], false)
    case RemoveCommand(p) => Effects(c, [Send(FindSlot, Find(PathQuery(p)))], [], false)
    case RemoveAllCommand => Effects(c, [Send(FindSlot, Find(AllFilesQuery))], [], false)
    case PutKindCommand(k) =>
      if k in cfg.kindFiles then Effects(c, [Send(WriteSlot, PutKind(cfg.kindFiles[k]))], [], false)
      else Effects(c, [], [], true)
    case RemoveKindCommand(k) => Effects(c, [Send(WriteSlot, DelKind(k + ":1"))], [], false)
    case CountAlbumAudiosCommand(_, name) => Effects(c, [Send(FindSlot, Find(AlbumTracksQuery(name)))], [], false)
    case AddAlbumForAudioCommand(f, _, _) =>
      var name := Str(CStr(f.album));
      Effects(c.(albumName := name), [Send(FindSlot, Find(AlbumByNameQuery(name)))], [], false)
    case CountAggregateAudiosCommand(a, _, name, _, _) =>
      Effects(c, [Send(FindSlot, Find(AggregateTracksQuery(a, name))),
                  Send(AlbumsSlot, Find(AggregateAlbumsQuery(a, name)))], [], false)
    case AddAggregateForAudioCommand(a, f, _, _) =>
      var name := Str(CStr(AggregateOf(a, f)));
      Effects(c.(aggregateName := name), [Send(FindSlot, Find(AggregateByNameQuery(a, name)))], [], false)
    case CountAlbumImagesCommand(id) => Effects(c, [Send(FindSlot, Find(AlbumImagesQuery(id)))], [], false)
    case AssignImageToAlbumCommand(image, album) =>
      Effects(c, [Send(WriteSlot, Merge([map["_id" := image, "albumId" := album]]))], [], false)
    case AddAlbumForImageCommand(f, _) =>
      Effects(c, [Send(FindSlot, Find(ImageAlbumByPathQuery(Str(CStr(f.albumPath)))))], [], false)
    case GenerateAlbumThumbnailsCommand(id) => Effects(c, [Send(WriteSlot, GenerateThumbnails(id))], [], false)
  }

  /** A reply that only has to succeed: throw on an error, else `finish`. */
  function FinishOnSuccess(c: CommandState, r: Response): (o: Outcome)
    ensures o.threw ==> o == Throws(c)
  {
    if r.err != 0 then Throws(c) else Effects(c, [], [], true)
  }

  /** The remove commands' find reply: delete every `_id` found, or finish when nothing was found. */
  function RemoveFound(c: CommandState, r: Response): (o: Outcome)
    ensures o.threw ==> o == Throws(c)
  {
    if r.err != 0 || r.results.None? then Throws(c)
    else if r.results.value == [] then Effects(c, [], [], true)
    else
      var ids := Ids(r.results.value);
      if ids.None? then Throws(c) else Effects(c, [Send(WriteSlot, Del(ids.value, true))], [], false)
  }

  /** A recount's find reply: merge the count under `total`, or finish when `results` is missing. */
  function MergeCount(c: CommandState, r: Response, id: Value, counter: string): (o: Outcome)
    ensures o.threw ==> o == Throws(c)
  {
    if r.err != 0 then Throws(c)
    else if r.results.None? then Effects(c, [], [], true)
    else Effects(c, [Send(WriteSlot, Merge([TotalMerge(id, map[counter := Int(|r.results.value|)])]))], [], false)
  }

  /**
   * The find-or-create commands' `updateAudio`/`updateImage`: finish when
   * there is no first result, throw when it has no id, else enqueue the
   * follow-ups made from the id and finish.
   */
  function UpdateAggregate(c: CommandState, r: Response, followUps: Value -> seq<CommandState>): (o: Outcome)
    ensures o.threw ==> o == Throws(c)
  {
    if r.results.None? then Throws(c)
    else if r.results.value == [] then Effects(c, [], [], true)
    else
      var id := IdOf(r.results.value[0]);
      if id.None? then Throws(c) else Effects(c, [], followUps(id.value), true)
  }

  /** A find-or-create command's find reply: use an existing aggregate, or put the seed. */
  function FindOrCreate(c: CommandState, r: Response, seed: Object, followUps: Value -> seq<CommandState>): (o: Outcome)
    ensures o.threw ==> o == Throws(c)
  {
    if r.err != 0 || r.results.None? then Throws(c)
    else if |r.results.value| > 0 then UpdateAggregate(c, r, followUps)
    else Effects(c, [Send(WriteSlot, Put([seed]))], [], false)
  }

  /** A find-or-create command's put reply. */
  function Created(c: CommandState, r: Response, followUps: Value -> seq<CommandState>): (o: Outcome)
    ensures o.threw ==> o == Throws(c)
  {
    if r.err != 0 then Throws(c) else UpdateAggregate(c, r, followUps)
  }

  /** The genre/artist `updateAudio`: merge only once both counters have left -1. */
  function JoinCounts(c: CommandState): (o: Outcome)
    requires c.CountAggregateAudiosCommand?
    ensures !o.threw
  {
    if c.totalTracks == -1 || c.totalAlbums == -1 then Effects(c, [], [], false)
    else
      Effects(c, [Send(WriteSlot, Merge([TotalMerge(c.aggregateId,
                                                       map["tracks" := Int(c.totalTracks), "albums" := Int(c.totalAlbums)])]))],
              [], false)
  }

  function AlbumAudioFollowUps(name: Value): Value -> seq<CommandState> {
    id => [CountAlbumAudiosCommand(id, name), GenerateAlbumThumbnailsCommand(id)]
  }

  function AggregateFollowUps(a: Aggregate, name: Value): Value -> seq<CommandState> {
    id => [CountAggregateAudiosCommand(a, id, name, -1, -1), GenerateAlbumThumbnailsCommand(id)]
  }

  function ImageAlbumFollowUps(idToUpdate: Value): Value -> seq<CommandState> {
    id => [AssignImageToAlbumCommand(idToUpdate, id), GenerateAlbumThumbnailsCommand(id)]
  }

  /** What the handler of a reply does. A slot the command never used is read as its write slot. */
  function Step(c: CommandState, slot: Slot, r: Response, cfg: Config): (o: Outcome)
    ensures o.threw ==> o == Throws(c)
  {
    match c
    case InsertCommand(f) =>
      if slot == FindSlot then
        if r.err != 0 || r.results.None? then Throws(c)
        else if |r.results.value| > 0 then Effects(c, [], [], true)
        else Effects(c, [Send(WriteSlot, Put([Serializer.DatabaseObject(f)]))], [], false)
      else FinishOnSuccess(c, r)
    case RemoveCommand(_) => if slot == FindSlot then RemoveFound(c, r) else FinishOnSuccess(c, r)
    case RemoveAllCommand => if slot == FindSlot then RemoveFound(c, r) else FinishOnSuccess(c, r)
    case PutKindCommand(k) =>
      if slot == PermissionsSlot then FinishOnSuccess(c, r)
      else if r.err != 0 then Throws(c)
      else if k in cfg.permissionFiles then
        Effects(c, [Send(PermissionsSlot, PutPermissions(map["permissions" := cfg.permissionFiles[k]]))], [], false)
      else Effects(c, [], [], true)
    case RemoveKindCommand(_) => FinishOnSuccess(c, r)
    case CountAlbumAudiosCommand(id, _) =>
      if slot == FindSlot then MergeCount(c, r, id, "tracks") else FinishOnSuccess(c, r)
    case AddAlbumForAudioCommand(f, _, name) =>
      if slot == FindSlot then FindOrCreate(c, r, AudioAlbumSeed(f), AlbumAudioFollowUps(name))
      else Created(c, r, AlbumAudioFollowUps(name))
    case CountAggregateAudiosCommand(_, _, _, _, _) =>
      if slot == WriteSlot || slot == PermissionsSlot then FinishOnSuccess(c, r)
      else if r.err != 0 then Throws(c)
      else if r.results.None? then Effects(c, [], [], true)
      else if slot == FindSlot then JoinCounts(c.(totalTracks := |r.results.value|))
      else JoinCounts(c.(totalAlbums := |r.results.value|))
    case AddAggregateForAudioCommand(a, f, _, name) =>
      if slot == FindSlot then FindOrCreate(c, r, AggregateSeed(a, f), AggregateFollowUps(a, name))
      else Created(c, r, AggregateFollowUps(a, name))
    case CountAlbumImagesCommand(id) =>
      if slot == FindSlot then MergeCount(c, r, id, "images") else FinishOnSuccess(c, r)
    case AssignImageToAlbumCommand(_, album) => Effects(c, [], [CountAlbumImagesCommand(album)], true)
    case AddAlbumForImageCommand(f, idToUpdate) =>
      if slot == FindSlot then FindOrCreate(c, r, ImageAlbumSeed(f), ImageAlbumFollowUps(idToUpdate))
      else Created(c, r, ImageAlbumFollowUps(idToUpdate))
    case GenerateAlbumThumbnailsCommand(_) => Effects(c, [], [], true)
  }

  /** The kinds removed and registered again by a schema rebuild, in order. */
  const RebuildKinds: seq<string> := [
    "com.palm.media.audio.file", "com.palm.media.misc.file", "com.palm.media.video.file",
    "com.palm.media.playlist.file", "com.palm.media.image.file", "com.palm.media.audio.album",
    "com.palm.media.audio.genre", "com.palm.media.audio.artist", "com.palm.media.image.album",
    "com.palm.media.file"]

  /** The commands `prepareForRebuild` enqueues. */
  function RebuildCommands(withSchemaRebuild: bool): seq<CommandState> {
    [RemoveAllCommand] +
    (if withSchemaRebuild
     then seq(|RebuildKinds|, i requires 0 <= i < |RebuildKinds| => RemoveKindCommand(RebuildKinds[i])) +
          seq(|RebuildKinds|, i requires 0 <= i < |RebuildKinds| => PutKindCommand(RebuildKinds[i]))
     else [])
  }

  /**
   * `removeIds` as the source builds it: a loop over the results that
   * throws (`None`) at the first item without an `_id`.
   */
  method CollectRemoveIds(results: seq<Value>) returns (ids: Option<seq<Value>>)
    ensures ids == Ids(results)
  {
    var acc: seq<Value> := [];
    var n := 0;
    assert results[n..] == results;
    if Ids(results).Some? {
      assert acc + Ids(results).value == Ids(results).value;
    }
    while n < |results|
      invariant 0 <= n <= |results|
      invariant |acc| == n
      invariant Ids(results) == (if Ids(results[n..]).None? then None else Some(acc + Ids(results[n..]).value))
    {
      var item := results[n];
      if !(item.Obj? && "_id" in item.fields) {
        assert Ids(results[n..]) == None;
        return None;
      }
      assert results[n..][1..] == results[n + 1..];
      var rest := Ids(results[n + 1..]);
      assert Ids(results[n..]) == (if rest.None? then None else Some([item.fields["_id"]] + rest.value));
      if rest.Some? {
        assert acc + ([item.fields["_id"]] + rest.value) == (acc + [item.fields["_id"]]) + rest.value;
      }
      acc := acc + [item.fields["_id"]];
      n := n + 1;
    }
    assert results[n..] == [];
    assert acc + [] == acc;
    ids := Some(acc);
  }
}
