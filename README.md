# mediaindexer in Dafny

A Dafny model of the core of the webOS media indexer. The indexer watches
the media directories and any mounted volumes, and for each file records
its path and the etag the scanner reports in a small
SQLite store. It classifies each file by content type and reads its tags.
It then keeps the palm document database (MojDb) up to date through a
serialized queue of database commands: insert, remove, put or remove a
kind, and recount or find-or-create albums, genres and artists. A second, Qt-based indexer is modelled too. It
keeps its own `files` table and scans directories through a
`FilesystemSource`.

One module per source component:

| module | file | models |
|---|---|---|
| `MediaFiles` | mediafile.dfy | `MediaFile`: the 34 fields as a class, a `MediaRecord` value used wherever the C++ copies a file by value, and the search key |
| `CStrings` | cstrings.dfy | `c_str` truncation, `rfind`, `find`, `substr` clamping, `size_t` wrap-around |
| `Utils` | utils.dfy | `sqlQuote`, `filenameToTitle` |
| `Extractor` | extractor.dfy | `detect`, `get_filename_extension`, `basename`, `extract` |
| `Json` | json.dfy | MojObject values; `putInt` from `uint64_t` |
| `Serializer` | serializer.dfy | `MojoMediaObjectSerializer::SerializeToDatabaseObject` |
| `Catalog` | catalog.dfy | requests, responses and an abstract document store that answers finds |
| `Commands` | commands.dfy | every database command as a state plus pure `Start`/`Step` functions that give its sends, its follow-up commands, whether it finishes, and whether it throws |
| `CommandProperties` | commandprops.dfy | what each command does, stated against the source's handlers |
| `CommandQueues` | queue.dfy | the queue discipline of `MojoMediaDatabase` as a pure state machine, plus lemmas about whole runs |
| `MediaDatabases` | database.dfy | `MojoMediaDatabase` and its commands as classes, each method proved against `CommandQueues` and `Commands` |
| `MediaStores` | mediastore.dfy | `MediaStore`: schema version gate, insert, remove, getETag |
| `MediaScanners` | scanner.dfy | `MediaScanner`: readFiles, addDir, removeDir, the mount watcher's event dispatch, addMountedVolumes |
| `IndexDatabases` | indexdb.dfy | the Qt `MediaIndexDatabase` |
| `FilesystemSources` | fssource.dfy | the Qt `FilesystemSource` directory scan |
| `ServiceApps` | serviceapp.dfy | `MediaScannerServiceApp`: defaults and `configure` |

Inputs the model cannot compute, such as a reply from the database, the
clock, stat results, TagLib's tags, directory listings, TagLib's
`String::toInt` and `MojObject::stringValue`, are parameters.

### How the database commands are modelled

A command object's state is a `CommandState`. `Commands.Start` is a
command's `execute`. `Commands.Step` is the response handler for one reply,
and the reply's slot says which handler it is. Each gives an `Outcome`, where:
- `sends` are requests, each with the slot its reply comes back on;
- `spawns` are commands passed to `enqueue`;
- `finish` says whether it calls `Database::finish`;
- `threw` says whether `CheckErr`/`ResponseToException` throws.

A throwing handler changes nothing. `MojoMediaDatabase` applies an
outcome in this order: sends, then the enqueues, then the finish. The
order matches the source.

### Quirks of the code the model follows

The model follows the code:
- `AddAlbumForAudioCommand`, `AddGenreForAudioCommand`,
  `AddArtistForAudioCommand` and `AddAlbumForImageCommand` are present, but
  nothing in the code enqueues them. `insert` enqueues only
  `InsertCommand`. The model contains them and proves their behaviour.
- In the audio find-or-create commands, `AddAlbumForAudio`'s `idToUpdate`
  (MojoMediaDatabaseAudio.cc lines 81 and 182) is never read again.
- `executeNextCommand` has no try/catch. A throwing `execute` would leave
  the queue stuck. In the model no `execute` throws, because send failures
  are left out.
- `PutKindCommand` finishes synchronously inside `execute` when the kind
  has no file. `finish` then clears the current command. The next
  `executeNextCommand` is never scheduled, so the queue stalls until
  something is enqueued. `CommandQueues.SynchronousFinishStalls` and
  `CommandQueues.EnqueueEndsStall` state this.
- The follow-up enqueues in MojoMediaDatabaseAudio.cc and
  MojoMediaDatabaseImage.cc pass a second argument `false`, but `enqueue`
  takes one parameter. The model treats them as plain enqueues.
- `MediaStore`'s version gate rebuilds only a database with no version.
  Any stored version is kept, including one other than the current 1.
- `createSchema` of the Qt index issues `DELETE TABLE`, which is not SQL.
  Nothing is dropped, and existing rows survive.
- `MojoMediaObjectSerializer.cc:79` calls `.c_str()` on the bool
  `appCacheCompleted`. The model stores the flag as a boolean.
- `MediaStore::insert` calls `getFileName`/`getETag`, which `MediaFile.hh`
  does not declare. They are modelled as the path and the etag.
- `MediaScanner.cc:64` builds the store as `MediaStore(mojoDb)`, and no
  constructor matches. The model uses the SQLite store.
- `CountGenreAudiosCommand` and `CountArtistAudiosCommand` send two finds
  and call `finish` on any reply without `results`
  (MojoMediaDatabaseAudio.cc lines 226-253). If the first reply lacks
  them, the command finishes while its second find is outstanding. When
  that late reply also lacks them, its `finish` retires whichever command
  is current by then. `CommandProperties.JoinFinishesTwice` states the two
  finishes. `MediaDatabases.MojoMediaDatabase.Deliver` accepts the late
  reply. `CommandQueues.StartedAreRetiredOrCurrent` is therefore a count of
  `finish` calls, not a claim that one command at a time is in flight.
- `FilesystemSource` calls `removeFilesForDirectory`, but the declared
  name is `removeFilesInDirectory`. The model treats them as one operation.

## Model

| member | source | states |
|---|---|---|
| `CStrings.WrapSizeT` | src/utils.cc:90 | `suffix_dot-fname_start-1` in `size_t`: stays in range, is unchanged when it is non-negative, and wraps by 2^64 when it is negative |
| `CStrings.CStrIsNulFreePrefix` | src/MetadataExtractor.cc:120-121 | what `c_str()` shows of a string is a NUL-free prefix that stops at the first NUL |
| `CStrings.CStrOfNulFree` | src/MetadataExtractor.cc:120-121 | `c_str()` of a NUL-free string is the string itself |
| `CStrings.LastIndexOf` | src/utils.cc:77-78 | `rfind`: the index of the last occurrence, with nothing equal after it; -1 (npos) exactly when the character is absent |
| `CStrings.Substr` | src/utils.cc:84-90 | `substr(pos, len)`: the length is clamped to the end of the string, and the characters are those from `pos` on |
| `CStrings.FirstIndexOf` | src/MediaFile.cc:64-69 | first occurrence: nothing equal before it; -1 exactly when the character is absent |
| `Json.FromUInt64Wraps` | src/MojoMediaDatabaseImage.cc:158 | `putInt` of a `uint64_t`: the stored value is in the signed 64-bit range and congruent to the argument modulo 2^64; it equals the argument below 2^63 |
| `MediaFiles.MediaFile.constructor` | src/MediaFile.cc:28-60 | every field holds the member initialiser's value: "Unknown Title", "Unknown Genre" and "Unknown Artist" (also as album artist), disc position 1, media type "video", app cache completed, and otherwise empty, zero, `UnknownMedia` or false |
| `MediaFiles.MediaFile.SetEtag` | src/MediaFile.hh:75 | only `etag` changes, to the argument |
| `MediaFiles.MediaFile.SetType` | src/MediaFile.hh:76 | only the media type changes |
| `MediaFiles.MediaFile.SetSize` | src/MediaFile.hh:77 | only `size` changes |
| `MediaFiles.MediaFile.SetPath` | src/MediaFile.hh:78 | only `path` changes |
| `MediaFiles.MediaFile.SetSortKey` | src/MediaFile.hh:79 | only the sort key list changes |
| `MediaFiles.MediaFile.SetCreatedTime` | src/MediaFile.hh:80 | only `createdTime` changes |
| `MediaFiles.MediaFile.SetModifiedTime` | src/MediaFile.hh:81 | only `modifiedTime` changes |
| `MediaFiles.MediaFile.SetSearchKey` | src/MediaFile.hh:82 | only `searchKey` changes |
| `MediaFiles.MediaFile.SetName` | src/MediaFile.hh:83 | only `name` changes |
| `MediaFiles.MediaFile.SetExtension` | src/MediaFile.hh:84 | only `extension` changes |
| `MediaFiles.MediaFile.SetTitle` | src/MediaFile.hh:86 | only `title` changes |
| `MediaFiles.MediaFile.SetTrackPosition` | src/MediaFile.hh:87 | only `trackPosition` changes |
| `MediaFiles.MediaFile.SetTrackTotal` | src/MediaFile.hh:88 | only `trackTotal` changes |
| `MediaFiles.MediaFile.SetDiscPosition` | src/MediaFile.hh:89 | only `discPosition` changes |
| `MediaFiles.MediaFile.SetDiscTotal` | src/MediaFile.hh:90 | only `discTotal` changes |
| `MediaFiles.MediaFile.SetGenre` | src/MediaFile.hh:91 | only `genre` changes |
| `MediaFiles.MediaFile.SetArtist` | src/MediaFile.hh:92 | only `artist` changes |
| `MediaFiles.MediaFile.SetAlbum` | src/MediaFile.hh:93 | only `album` changes |
| `MediaFiles.MediaFile.SetAlbumArtist` | src/MediaFile.hh:94 | only `albumArtist` changes |
| `MediaFiles.MediaFile.SetThumbnails` | src/MediaFile.hh:95 | only the thumbnail list changes |
| `MediaFiles.MediaFile.SetDuration` | src/MediaFile.hh:96 | only `duration` changes |
| `MediaFiles.MediaFile.SetBookmark` | src/MediaFile.hh:97 | only `bookmark` changes |
| `MediaFiles.MediaFile.SetIsRingtone` | src/MediaFile.hh:98 | only `isRingtone` changes |
| `MediaFiles.MediaFile.SetServiced` | src/MediaFile.hh:99 | only `serviced` changes |
| `MediaFiles.MediaFile.SetHasResizedThumbnails` | src/MediaFile.hh:100 | only `hasResizedThumbnails` changes |
| `MediaFiles.MediaFile.SetCapturedOnDevice` | src/MediaFile.hh:102 | only `capturedOnDevice` changes |
| `MediaFiles.MediaFile.SetDescription` | src/MediaFile.hh:103 | only `description` changes |
| `MediaFiles.MediaFile.SetPlaybackPosition` | src/MediaFile.hh:104 | only `playbackPosition` changes |
| `MediaFiles.MediaFile.SetLastPlayTime` | src/MediaFile.hh:105 | only `lastPlayTime` changes |
| `MediaFiles.MediaFile.SetMediaType` | src/MediaFile.hh:106 | only `mediaType` changes |
| `MediaFiles.MediaFile.SetAppCacheCompleted` | src/MediaFile.hh:107 | only `appCacheCompleted` changes |
| `MediaFiles.MediaFile.SetAlbumId` | src/MediaFile.hh:108 | only `albumId` changes |
| `MediaFiles.MediaFile.SetAlbumPath` | src/MediaFile.hh:109 | only `albumPath` changes |
| `MediaFiles.MediaFile.SetYear` | src/MediaFile.hh:111 | only `year` changes |
| `MediaFiles.MediaFile.RebuildSearchKey` | src/MediaFile.cc:62-77 | only the search key changes, to the key of the file's own fields: artist, album and title joined by double tabs for audio, the title for video, the name otherwise |
| `MediaFiles.SplitJoined` | src/MediaFile.cc:64-69 | splitting a double-tab-joined key recovers its three parts when the first two contain no tab |
| `MediaFiles.AudioSearchKeyRecoversFields` | src/MediaFile.cc:64-69 | an audio file's search key determines its artist, album and title when artist and album are tab-free |
| `MediaFiles.SearchKeyIdempotent` | src/MediaFile.cc:62-77 | rebuilding the search key twice gives what rebuilding it once gave |
| `Utils.UndoubledDoubled` | src/utils.cc:57-71 | undoubling the quotes that `sqlQuote` doubles recovers the input |
| `Utils.DoubledLength` | src/utils.cc:57-71 | doubling adds one character per single quote |
| `Utils.SqlQuote` | src/utils.cc:57-71 | the loop fills the buffer that the quoting function specifies, and the result is that buffer read as a C string |
| `Utils.SqlQuoteNulFree` | src/utils.cc:57-71 | for NUL-free input the result is the input in single quotes with each quote doubled; its length is the input's plus 2 plus the quote count; stripping and undoubling recovers the input |
| `Utils.SqlQuoteTruncates` | src/utils.cc:57-71 | an input with a NUL yields only its part before the NUL, doubled, behind an opening quote, with no closing quote |
| `Utils.Blank` | src/utils.cc:93-100 | each of `. _ ( ) [ ] { } \` becomes a space, and every other character is kept |
| `Utils.TitleWithoutSlash` | src/utils.cc:79-85 | with no `/`, the title is the part before the last `.`, or the whole name without one |
| `Utils.TitleDropsSuffix` | src/utils.cc:89-90 | with a `.` after the last `/`, the title is the text between them |
| `Utils.TitleWrapKeepsRest` | src/utils.cc:86-90 | with the last `.` before the last `/`, the `size_t` length wraps, and the title is everything after the `/` |
| `Utils.TitleHasNoSlash` | src/utils.cc:77-92 | the selected title never contains `/` |
| `Utils.FilenameToTitle` | src/utils.cc:76-102 | the result has the selected title's length, each character is that title's, blanked, and no separator remains |
| `Extractor.Classify` | src/MetadataExtractor.cc:92-101 | never unknown; audio exactly for `audio/`; video for `video/` otherwise; image for `image/` otherwise; misc for everything else |
| `Extractor.ClassifyPrefixesExclusive` | src/MetadataExtractor.cc:92-101 | no content type starts with two of the three prefixes |
| `Extractor.Detect` | src/MetadataExtractor.cc:58-104 | a failed query gives the query error; an empty content type gives the unknown-type error; success exactly otherwise, with the path, the etag and the type classified |
| `Extractor.FilenameExtension` | src/MetadataExtractor.cc:106-111 | the text after the last `.` of the C string, or empty when there is no `.` or the `.` is the first character |
| `Extractor.ExtensionIsDotFreeSuffix` | src/MetadataExtractor.cc:106-111 | the extension contains no `.` and is a suffix of the path |
| `Extractor.ExtensionCrossesDirectories` | src/MetadataExtractor.cc:106-111 | `strrchr` sees the whole path, so a directory's `.` yields the rest of the path when the base name has none |
| `Extractor.StripTrailingSlashes` | src/MetadataExtractor.cc:120 | a prefix of the path with no trailing `/` |
| `Extractor.Basename` | src/MetadataExtractor.cc:120 | POSIX `basename`: never empty, and without `/` unless it is `/` |
| `Extractor.Split` | src/MetadataExtractor.cc:152 | TagLib `split` gives at least one part |
| `Extractor.SplitCount` | src/MetadataExtractor.cc:152 | n separators give n + 1 parts |
| `Extractor.TwoParts` | src/MetadataExtractor.cc:153 | two parts exactly when there is one `/`, and then they are the text before and after it |
| `Extractor.ToU32` | src/MetadataExtractor.cc:154-155 | `toInt` stored in an `unsigned int`: wraps modulo 2^32 and is unchanged when in range |
| `Extractor.NumberPairRule` | src/MetadataExtractor.cc:150-166 | the values, joined with spaces, give a position and a total exactly when they contain one `/` |
| `Extractor.ApplyTags` | src/MetadataExtractor.cc:135-166 | tag reading leaves path, etag, type, name, extension and times alone |
| `Extractor.ApplyBasicTags` | src/MetadataExtractor.cc:135-141 | sets the track position from the tag; leaves the track total and the disc fields alone |
| `Extractor.ApplyAlbumArtist` | src/MetadataExtractor.cc:145-148 | touches neither identity, track nor disc fields |
| `Extractor.ApplyTrackNumber` | src/MetadataExtractor.cc:150-157 | an "a/b" TRACKNUMBER sets the position and the total; otherwise the track fields are unchanged; disc fields are never touched |
| `Extractor.ApplyDiscNumber` | src/MetadataExtractor.cc:159-166 | the same for DISCNUMBER and the disc fields |
| `Extractor.WithSearchKey` | src/MetadataExtractor.cc:172 | the search key is the record's own key, and nothing else changes |
| `Extractor.ExtractCopiesIdentity` | src/MetadataExtractor.cc:115-127 | the extracted file has the detected path, etag and type, the `basename` name, the extension, the creation time from the clock, and the stat mtime or 0 |
| `Extractor.ImageMiscSkipTags` | src/MetadataExtractor.cc:129-131 | images and misc files get no tags and keep the default search key |
| `Extractor.AudioVideoSearchKey` | src/MetadataExtractor.cc:172 | audio and video files get the key of their fields, with or without tags |
| `Extractor.TrackFieldsOfExtracted` | src/MetadataExtractor.cc:139-157 | the track fields of the result: from an "a/b" TRACKNUMBER when there is one, else the tag's track and total 0 |
| `Extractor.DiscFieldsOfExtracted` | src/MetadataExtractor.cc:159-166 | the disc fields: from an "a/b" DISCNUMBER, else the defaults, position 1 and total 0 |
| `Extractor.Extract` | src/MetadataExtractor.cc:113-175 | returns a fresh `MediaFile` whose value is the extracted record |
| `Extractor.SetBasicTags` | src/MetadataExtractor.cc:135-141 | the six setter calls leave the record as `ApplyBasicTags` describes |
| `Extractor.SetAlbumArtistTag` | src/MetadataExtractor.cc:145-148 | the ALBUMARTIST branch leaves the record as `ApplyAlbumArtist` describes |
| `Extractor.SetTrackNumberTag` | src/MetadataExtractor.cc:150-157 | the TRACKNUMBER branch leaves the record as `ApplyTrackNumber` describes |
| `Extractor.SetDiscNumberTag` | src/MetadataExtractor.cc:159-166 | the DISCNUMBER branch leaves the record as `ApplyDiscNumber` describes |
| `Serializer.SerializeToDatabaseObject` | src/MojoMediaObjectSerializer.cc:25-91 | the object built by the sequence of `put`s is the given object overlaid with the common fields and the fields of the file's type |
| `Serializer.PutCommon` | src/MojoMediaObjectSerializer.cc:29-35 | adds path, name, extension, modified and created time, size and search key |
| `Serializer.PutAudio` | src/MojoMediaObjectSerializer.cc:37-66 | adds the audio fields |
| `Serializer.PutAudioAlbum` | src/MojoMediaObjectSerializer.cc:38-51 | adds `_kind`, album artist, album, the `track` object and an empty `disc` object |
| `Serializer.PutAudioTags` | src/MojoMediaObjectSerializer.cc:53-62 | adds title, genre, artist, duration, bookmark and the three flags |
| `Serializer.PutVideo` | src/MojoMediaObjectSerializer.cc:67-84 | adds the video fields |
| `Serializer.PutVideoAlbum` | src/MojoMediaObjectSerializer.cc:68-73 | adds `_kind`, album id, album path, last play time and title |
| `Serializer.PutVideoPlayback` | src/MojoMediaObjectSerializer.cc:75-83 | adds captured-on-device, description, playback position, media type, the cache flag and `type` |
| `Serializer.AudioTypeKeys` | src/MojoMediaObjectSerializer.cc:37-66 | the audio branch's key set |
| `Serializer.VideoTypeKeys` | src/MojoMediaObjectSerializer.cc:67-84 | the video branch's key set |
| `Serializer.TypeFieldsKeys` | src/MojoMediaObjectSerializer.cc:37-90 | each branch's key set, none of which is a common key, so no branch overwrites a common field |
| `Serializer.CommonFieldsCopied` | src/MojoMediaObjectSerializer.cc:29-35 | every document holds path, name, extension, modified and created time, size and search key, copied from the file whatever its type |
| `Serializer.KindRoundTrip` | src/MojoMediaObjectSerializer.cc:37-90 | `_kind` is present exactly for the four known types and reads back as the file's type |
| `Serializer.AudioDocumentKeys` | src/MojoMediaObjectSerializer.cc:37-66 | an audio document has exactly the common and the audio keys |
| `Serializer.AudioDiscIsEmpty` | src/MojoMediaObjectSerializer.cc:48-51 | the stored `disc` object is empty: the disc values are put into the local track object after it was stored |
| `Serializer.AudioTrackObject` | src/MojoMediaObjectSerializer.cc:43-46 | the stored `track` object holds the track position and total |
| `Serializer.VideoDocumentKeys` | src/MojoMediaObjectSerializer.cc:67-84 | a video document has exactly the common and the video keys |
| `Serializer.VideoIsLocal` | src/MojoMediaObjectSerializer.cc:83 | the video `type` is "local" |
| `Serializer.VideoCacheFlagCopied` | src/MojoMediaObjectSerializer.cc:79 | `appCacheCompleted` is copied from the file |
| `Serializer.PlainDocument` | src/MojoMediaObjectSerializer.cc:85-90 | image and misc documents have the common fields and `_kind` only |
| `Catalog.Matching` | src/MojoMediaDatabase.cc:109-132 | the documents a find returns are in the store and satisfy every clause |
| `Catalog.SelectAll` | src/MojoMediaDatabaseAudio.cc:29-57 | one result per matching document, holding its selected fields |
| `Catalog.Answer` | src/MojoMediaDatabaseAudio.cc:29-57 | a find answered from the store succeeds and carries results |
| `Catalog.MatchingCount` | src/MojoMediaDatabaseAudio.cc:44 | the number of results is the number of matching documents |
| `Catalog.AnswerCount` | src/MojoMediaDatabaseImage.cc:42 | the answer's `results.size()` is the store's match count |
| `Commands.Ids` | src/MojoMediaDatabase.cc:195-206 | when every result has an `_id`, one id per result |
| `Commands.CollectRemoveIds` | src/MojoMediaDatabase.cc:195-206 | the collection loop gives `Ids(results)` |
| `Commands.Start` | src/MojoMediaDatabase.cc:87-103 | covers every command's `execute`; it never enqueues and never throws |
| `Commands.FinishOnSuccess` | src/MojoMediaDatabase.cc:214-221 | a write reply's handler: throws with no effect on error |
| `Commands.RemoveFound` | src/MojoMediaDatabase.cc:180-212 | the find handler of Remove/RemoveAll: throws with no effect on error or on a result without `_id` |
| `Commands.MergeCount` | src/MojoMediaDatabaseAudio.cc:29-57 | the recount handler: throws with no effect on error |
| `Commands.UpdateAggregate` | src/MojoMediaDatabaseAudio.cc:256-279 | genre/artist half-reply handler: throws with no effect on error |
| `Commands.FindOrCreate` | src/MojoMediaDatabaseAudio.cc:104-141 | find-or-create lookup handler: throws with no effect on error |
| `Commands.Created` | src/MojoMediaDatabaseAudio.cc:143-148 | find-or-create insert handler: throws with no effect on error |
| `Commands.JoinCounts` | src/MojoMediaDatabaseAudio.cc:256-279 | joining the two counts never throws |
| `Commands.Step` | src/MojoMediaDatabase.cc:28-56 | every response handler; a throwing one leaves the command as it was (`CheckErr`) |
| `CommandProperties.ErrorsThrow` | src/MojoMediaDatabase.cc:28-46 | a reply with a nonzero error throws and changes nothing, for every command with a checking handler |
| `CommandProperties.InsertIssuesPathQuery` | src/MojoMediaDatabase.cc:87-103 | insert first finds the base file kind's documents with the path |
| `CommandProperties.InsertExistingFinishes` | src/MojoMediaDatabase.cc:109-132 | when found, it puts nothing and finishes |
| `CommandProperties.InsertNewPutsOne` | src/MojoMediaDatabase.cc:109-141 | when not found, it puts exactly the serialized file (whose path is the file's), and the put's reply finishes |
| `CommandProperties.IdsSpec` | src/MojoMediaDatabase.cc:195-206 | `Ids` succeeds exactly when every result has an `_id`, and then lists them in order |
| `CommandProperties.RemoveDeletesFound` | src/MojoMediaDatabase.cc:180-212 | Remove/RemoveAll delete, with purge, exactly the ids found |
| `CommandProperties.RemoveAllFindsAll` | src/MojoMediaDatabase.cc:237-248 | RemoveAll's query has no clause, so every file document matches |
| `CommandProperties.PutKindWithoutFile` | src/MojoMediaDatabase.cc:309-330 | a kind with no kind file finishes inside `execute`, sending nothing |
| `CommandProperties.PutKindRegisters` | src/MojoMediaDatabase.cc:336-377 | with a file, the kind is put, then its permissions if they have a file, and the last reply finishes |
| `CommandProperties.RemoveKindDeletesVersionOne` | src/MojoMediaDatabase.cc:393-399 | deletes `<kind>:1` |
| `CommandProperties.RecountWithoutResultsFinishes` | src/MojoMediaDatabaseAudio.cc:34-38 | a recount reply without results finishes without merging |
| `CommandProperties.AlbumTracksClauses` | src/MojoMediaDatabaseAudio.cc:13-23 | the album recount matches audio files that are not ringtones and whose album has the name |
| `CommandProperties.AlbumRecountCountsTracks` | src/MojoMediaDatabaseAudio.cc:40-50 | answered from the store, the recount merges `total.tracks` equal to the album's track count |
| `CommandProperties.AlbumImagesClauses` | src/MojoMediaDatabaseImage.cc:12-21 | the image recount matches images whose `albumId` is the album |
| `CommandProperties.AlbumRecountCountsImages` | src/MojoMediaDatabaseImage.cc:38-48 | the merge sets `total.images` to the album's image count |
| `CommandProperties.AggregateRecountIssuesTwoFinds` | src/MojoMediaDatabaseAudio.cc:201-219 | the genre/artist recount sends both finds at once |
| `CommandProperties.JoinInEitherOrder` | src/MojoMediaDatabaseAudio.cc:256-279 | once both replies arrive, in either order, it merges both counts and finishes |
| `CommandProperties.JoinFinishesTwice` | src/MojoMediaDatabaseAudio.cc:226-254 | two replies without results each call `finish` |
| `CommandProperties.FindOrCreateLookups` | src/MojoMediaDatabaseAudio.cc:85-98 | audio albums, genres and artists are looked up by name with primary collation; image albums by path |
| `CommandProperties.ExistingAggregateNotPut` | src/MojoMediaDatabaseAudio.cc:112-114 | a found aggregate is not put again |
| `CommandProperties.MissingAggregatePutsSeed` | src/MojoMediaDatabaseAudio.cc:118-137 | a missing one gets exactly its seed put, and the command waits |
| `CommandProperties.AudioAlbumSeedFields` | src/MojoMediaDatabaseAudio.cc:118-133 | the new album's kind, name, artist (the album artist), genre, zero tracks, not serviced, no thumbnails |
| `CommandProperties.AggregateSeedFields` | src/MojoMediaDatabaseAudio.cc:342-356 | a new genre or artist: its kind and name, zero tracks and zero albums (artists also in src/MojoMediaDatabaseAudio.cc:565-579) |
| `CommandProperties.ImageAlbumSeedFields` | src/MojoMediaDatabaseImage.cc:156-179 | a new image album: kind, name, path and modification time from the image, zero images |
| `CommandProperties.IdFallsBack` | src/MojoMediaDatabaseAudio.cc:163-168 | the aggregate id is `id` when present, else `_id` |
| `CommandProperties.CreatedEnqueuesFollowUps` | src/MojoMediaDatabaseAudio.cc:150-178 | the insert reply enqueues the follow-ups for the new id and finishes; an empty reply only finishes |
| `CommandProperties.FoundEnqueuesFollowUps` | src/MojoMediaDatabaseAudio.cc:170-175 | the same on the find reply when the aggregate exists |
| `CommandProperties.AssignMergesAlbumId` | src/MojoMediaDatabaseImage.cc:81-92 | assign merges exactly `{_id, albumId}` into the image |
| `CommandProperties.AssignAlwaysRecounts` | src/MojoMediaDatabaseImage.cc:97-104 | whatever the reply, assign enqueues the album's image recount and finishes |
| `CommandProperties.RebuildSequence` | src/MojoMediaDatabase.cc:496-525 | a rebuild with schema enqueues RemoveAll, then the ten kinds removed, then the same ten put (21 commands); otherwise RemoveAll alone |
| `CommandQueues.CheckRestarting` | src/MojoMediaDatabase.cc:452-456 | only the wake-up flag can change: the queue and the current and previous commands stay as they were |
| `CommandQueues.Enqueue` | src/MojoMediaDatabase.cc:438-443 | the command is appended at the tail; the current and previous commands stay |
| `CommandQueues.Finish` | src/MojoMediaDatabase.cc:430-436 | the current command becomes the previous one, nothing is current, and the queue is unchanged |
| `CommandQueues.Reset` | src/MojoMediaDatabase.cc:487-494 | every pending command is dropped; the current and previous commands and the flag stay |
| `CommandQueues.EnqueueAllAppends` | src/MojoMediaDatabase.cc:438-443 | enqueueing a sequence appends it in order, and a wake-up is then scheduled exactly when one was or something was enqueued while nothing was current |
| `CommandQueues.EnqueueWhileCurrentSchedulesNothing` | src/MojoMediaDatabaseAudio.cc:170-175 | enqueues made while a command is current schedule no wake-up; the finish after them schedules one exactly when work remains |
| `CommandQueues.ScheduleOnlyWhenIdle` | src/MojoMediaDatabase.cc:452-456 | a wake-up is scheduled only when nothing is current, work is queued and none is scheduled yet; a scheduled one is never doubled |
| `CommandQueues.BeginIsSingleFlight` | src/MojoMediaDatabase.cc:458-471 | the head is popped into the current slot only when nothing is current; otherwise the current command and the queue stay and the flag is cleared; the previous command is always released |
| `CommandQueues.FinishKeepsQueue` | src/MojoMediaDatabase.cc:430-436 | finish removes nothing from the queue and leaves a wake-up scheduled exactly when one was or work remains |
| `CommandQueues.SynchronousFinishStalls` | src/MojoMediaDatabase.cc:309-330 | a `finish` inside `execute` leaves work queued with nothing current and no wake-up |
| `CommandQueues.EnqueueEndsStall` | src/MojoMediaDatabase.cc:438-443 | a later enqueue schedules the wake-up again |
| `CommandQueues.StartsInEnqueueOrder` | src/MojoMediaDatabase.cc:438-475 | over any run of enqueues, finishes and wake-ups without a reset, the commands started followed by those still waiting are those waiting at first followed by those enqueued: FIFO, none lost |
| `CommandQueues.StartedAreRetiredOrCurrent` | src/MojoMediaDatabase.cc:430-475 | from an empty queue, the number of commands started equals the number retired by `finish` plus one if a command is current |
| `CommandQueues.ResetDropsPending` | src/MojoMediaDatabase.cc:487-494 | after `resetQueue` nothing waits, and the current command is untouched |
| `MediaDatabases.Command.constructor` | src/MojoMediaDatabase.cc:87-103 | a new command holds its state and awaits no reply |
| `MediaDatabases.MojoMediaDatabase.constructor` | src/MojoMediaDatabase.cc:417-423 | empty queue, nothing current, no wake-up, nothing sent |
| `MediaDatabases.MojoMediaDatabase.CheckRestarting` | src/MojoMediaDatabase.cc:452-456 | the queue state becomes `CommandQueues.CheckRestarting` of the old state |
| `MediaDatabases.MojoMediaDatabase.Enqueue` | src/MojoMediaDatabase.cc:438-443 | the queue state becomes `CommandQueues.Enqueue` of the old one; nothing is sent |
| `MediaDatabases.MojoMediaDatabase.Finish` | src/MojoMediaDatabase.cc:430-436 | the state becomes `CommandQueues.Finish` of the old one |
| `MediaDatabases.MojoMediaDatabase.Perform` | src/MojoMediaDatabase.cc:48-56 | applies an outcome: the command's new state, its requests sent and awaited, then its follow-ups enqueued as fresh commands |
| `MediaDatabases.MojoMediaDatabase.EnqueueNew` | src/MojoMediaDatabaseAudio.cc:170-175 | enqueues fresh commands with the given states, in order |
| `MediaDatabases.MojoMediaDatabase.ExecuteNextCommand` | src/MojoMediaDatabase.cc:458-475 | with work queued, the head becomes current and its `execute` outcome is applied; otherwise it only clears the wake-up; no other command changes |
| `MediaDatabases.MojoMediaDatabase.Tick` | src/MojoMediaDatabase.cc:445-450 | the restart timeout fires only when scheduled; it then performs `executeNextCommand` and the timeout is cleared |
| `MediaDatabases.MojoMediaDatabase.RunCurrent` | src/MojoMediaDatabase.cc:472-474 | `execute` of the current command, its sends recorded, a synchronous finish applied |
| `MediaDatabases.MojoMediaDatabase.BeginNext` | src/MojoMediaDatabase.cc:465-471 | pops the head into the current slot exactly when the queue is non-empty |
| `MediaDatabases.MojoMediaDatabase.Deliver` | src/MojoMediaDatabase.cc:48-56 | a reply to a command awaiting it, current or late: when the handler throws only the consumed reply slot changes; otherwise the outcome is applied (sends, follow-ups enqueued in order, then `finish`); queued commands keep their states |
| `MediaDatabases.MojoMediaDatabase.Insert` | src/MojoMediaDatabase.cc:477-480 | enqueues one fresh `InsertCommand` carrying the file's value |
| `MediaDatabases.MojoMediaDatabase.Remove` | src/MojoMediaDatabase.cc:482-485 | enqueues one fresh `RemoveCommand` for the path |
| `MediaDatabases.MojoMediaDatabase.ResetQueue` | src/MojoMediaDatabase.cc:487-494 | the state becomes `Reset` of the old one |
| `MediaDatabases.MojoMediaDatabase.PrepareForRebuild` | src/MojoMediaDatabase.cc:496-525 | resets the queue, then enqueues exactly the rebuild sequence as fresh commands |
| `MediaStores.DeleteTables` | src/MediaStore.cc:65-72 | both tables are gone |
| `MediaStores.GateOnNewFile` | src/MediaStore.cc:89-100 | a new database file gets version 1 and an empty `files` table |
| `MediaStores.GateKeepsExistingVersion` | src/MediaStore.cc:98-99 | a stored version, whatever its value, is kept and nothing changes |
| `MediaStores.GateChangesOnlyBelowZero` | src/MediaStore.cc:44-55 | the gate alters the tables only when `getSchemaVersion` reports below zero |
| `MediaStores.GateFailsOnEmptyVersionTable` | src/MediaStore.cc:74-87 | an empty version table reads as -1, `CREATE TABLE` fails on the existing table, and the constructor throws |
| `MediaStores.GateSucceeds` | src/MediaStore.cc:89-100 | after a passing gate the version is non-negative; a rebuilt store is version 1 with no files |
| `MediaStores.GateAfterDelete` | src/MediaStore.cc:65-100 | `deleteTables` followed by the gate yields a fresh version-1 store |
| `MediaStores.ETagAfterInsert` | src/MediaStore.cc:111-119 | `INSERT OR REPLACE` makes `getETag` of the path the new etag and leaves other paths alone |
| `MediaStores.RowsAfterInsert` | src/MediaStore.cc:111-119 | the row count grows by one exactly for a new path |
| `MediaStores.ETagAfterRemove` | src/MediaStore.cc:121-127 | after `remove` the path's etag is "" and other paths are unchanged |
| `MediaStores.MediaStore.Init` | src/MediaStore.cc:89-97 | the store object holds the opened tables and the open flag |
| `MediaStores.MediaStore.Open` | src/MediaStore.cc:89-100 | a failed open gives a store with no open flag; a passing gate gives the gated tables; a failing gate throws with the tables as it left them |
| `MediaStores.MediaStore.Insert` | src/MediaStore.cc:111-119 | on a usable store the path's row becomes the etag; otherwise the statement fails and nothing changes |
| `MediaStores.MediaStore.Remove` | src/MediaStore.cc:121-127 | on a usable store the path's row is deleted; otherwise nothing changes |
| `MediaStores.MediaStore.GetETag` | src/MediaStore.cc:141-152 | the stored etag, or "" for an unknown path |
| `MediaStores.MediaStore.Size` | src/MediaStore.cc:106-109 | always 0 |
| `MediaStores.MediaStore.PruneDeleted` | src/MediaStore.cc:129-131 | changes nothing |
| `MediaStores.MediaStore.ArchiveItems` | src/MediaStore.cc:133-135 | changes nothing |
| `MediaStores.MediaStore.RestoreItems` | src/MediaStore.cc:137-139 | changes nothing |
| `MediaScanners.IndexedKeepsIdentity` | src/MediaScanner.cc:115-128 | the file the indexer stores has the scanned path and etag |
| `MediaScanners.ReadStepSkips` | src/MediaScanner.cc:118-126 | a file whose etag matches the stored one is skipped; otherwise it is stored unless indexing throws |
| `MediaScanners.EmptyETagNeverIndexed` | src/MediaScanner.cc:118-126 | an unknown file with an empty etag compares equal to "" and is never stored |
| `MediaScanners.ReadStepRecords` | src/MediaScanner.cc:118-126 | after a step that does not throw, the store holds the file's etag |
| `MediaScanners.ReadStepOthers` | src/MediaScanner.cc:118-126 | other paths keep their etag |
| `MediaScanners.ThrowingFileIsSkipped` | src/MediaScanner.cc:120-126 | a file whose indexing throws is skipped, and the scan goes on |
| `MediaScanners.ReadAllRecords` | src/MediaScanner.cc:115-128 | after a scan, a path not seen again later holds its scanned etag |
| `MediaScanners.ReadAllOthers` | src/MediaScanner.cc:115-128 | paths not in the scan keep their etag |
| `MediaScanners.IgnoredIsExact` | src/MediaScanner.cc:90-107 | a directory neither watched nor ignored becomes watched, and nothing else does |
| `MediaScanners.AddDirIdempotent` | src/MediaScanner.cc:90-107 | adding a directory twice is adding it once |
| `MediaScanners.VolumePathAbsolute` | src/MediaScanner.cc:176-178 | a volume path under an absolute mount directory is absolute |
| `MediaScanners.NonDirectoryEventsIgnored` | src/MediaScanner.cc:179-181 | events about non-directories change nothing |
| `MediaScanners.MountThenUnmount` | src/MediaScanner.cc:160-194 | mounting then unmounting a volume leaves it unwatched |
| `MediaScanners.DispatchAbortSticks` | src/MediaScanner.cc:160-194 | once event dispatch aborts, the remaining events are not processed |
| `MediaScanners.MountedVolumes` | src/MediaScanner.cc:196-215 | the volume paths of exactly the directory entries whose name does not start with `.`, at most one per entry |
| `MediaScanners.MountedVolumesAbsolute` | src/MediaScanner.cc:91 | under an empty or absolute mount directory every volume path passes `addDir`'s assertion |
| `MediaScanners.AddAllWatches` | src/MediaScanner.cc:204-214 | adding the volumes in turn watches exactly the old subtrees and the volumes that are not ignored |
| `MediaScanners.AddAllSkipsKnown` | src/MediaScanner.cc:92-99 | volumes that are all watched or ignored already change neither the watch list nor the store |
| `MediaScanners.MediaScanner.constructor` | src/MediaScanner.cc:61-67 | nothing watched, no mount directory, no ignored directories |
| `MediaScanners.MediaScanner.ReadFiles` | src/MediaScanner.cc:115-128 | on a usable store, the store becomes the scan applied to it; on an unusable one `getETag`, outside the `try`, throws at the first file and nothing changes |
| `MediaScanners.MediaScanner.AddDir` | src/MediaScanner.cc:90-107 | watches a new directory and reads its files; a watched or ignored directory is left alone |
| `MediaScanners.MediaScanner.RemoveDir` | src/MediaScanner.cc:109-113 | only that directory stops being watched |
| `MediaScanners.MediaScanner.ProcessEvents` | src/MediaScanner.cc:160-194 | on a usable store, it completes exactly when dispatching the events succeeds, and the watch and the store become what the dispatch gives; an unmount of an unwatched volume fails `removeDir`'s assertion |
| `MediaScanners.MediaScanner.Setup` | src/MediaScanner.cc:69-75 | stores the mount directory and the ignored set, then adds the mounted volumes; on a usable store the watch list and rows become `AddAll` of the added volumes, and it succeeds exactly when every volume path is absolute |
| `MediaScanners.MediaScanner.AddMountedVolumes` | src/MediaScanner.cc:196-215 | adds the listed volumes in order, a prefix of them when an `addDir` fails; each added one is watched or ignored; on a usable store the watch list and rows become `AddAll` (each new volume read as `addDir` reads it), and it succeeds exactly when every volume path is absolute; an unreadable mount directory adds nothing |
| `IndexDatabases.Seconds` | src/mediaindexdatabase.cpp:74 | `qint64 / 1000` truncates toward zero |
| `IndexDatabases.Processed` | src/mediaindexdatabase.cpp:55-84 | the path has a row exactly when the file exists, holding its size and mtime in seconds; other paths are untouched |
| `IndexDatabases.WithoutDirectory` | src/mediaindexdatabase.cpp:86-90 | deletes the rows whose path matches `path like 'dir%'`, and keeps the others unchanged |
| `IndexDatabases.LikeAnyTail` | src/mediaindexdatabase.cpp:89 | the pattern's trailing `%` matches anything |
| `IndexDatabases.LikePrefix` | src/mediaindexdatabase.cpp:89 | for a directory without `%` or `_`, a path matches `dir%` exactly when it starts with the directory up to ASCII case |
| `IndexDatabases.PrefixIsLike` | src/mediaindexdatabase.cpp:89 | every path that starts with the directory matches `dir%`, whatever wildcards the directory holds |
| `IndexDatabases.PercentSkips` | src/mediaindexdatabase.cpp:89 | `%` may match the empty run |
| `IndexDatabases.RemovesCaseFoldedPrefix` | src/mediaindexdatabase.cpp:86-90 | for a wildcard-free directory, a row is removed exactly when its path starts with the directory up to ASCII case (so `/media/usb` also removes `/media/USB/a.mp3`) |
| `IndexDatabases.UnderscoreMatchesAny` | src/mediaindexdatabase.cpp:86-90 | an `_` in the directory matches any one character (so `/media/my_music` also removes `/media/my-music/a.mp3`) |
| `IndexDatabases.UnderscoreStep` | src/mediaindexdatabase.cpp:89 | literal characters followed by `_` match the same characters followed by any one character |
| `IndexDatabases.MediaIndexDatabase.constructor` | src/mediaindexdatabase.cpp:30-38 | both tables exist afterwards, and existing rows are kept |
| `IndexDatabases.MediaIndexDatabase.CheckDatabase` | src/mediaindexdatabase.cpp:40-44 | creates the schema when a table is missing, and keeps rows |
| `IndexDatabases.MediaIndexDatabase.CreateSchema` | src/mediaindexdatabase.cpp:46-53 | creates the missing tables; nothing is dropped |
| `IndexDatabases.MediaIndexDatabase.ProcessFile` | src/mediaindexdatabase.cpp:55-84 | the rows become `Processed` of the old ones |
| `IndexDatabases.MediaIndexDatabase.RemoveFilesInDirectory` | src/mediaindexdatabase.cpp:86-90 | the rows become `WithoutDirectory` of the old ones |
| `IndexDatabases.ProcessIdempotent` | src/mediaindexdatabase.cpp:55-84 | processing a file twice is processing it once |
| `IndexDatabases.RemovedDirectoryIsEmpty` | src/mediaindexdatabase.cpp:86-90 | no path under a removed directory remains |
| `FilesystemSources.FileCalls` | src/filesystemsource.cpp:58-60 | one `processFile` per regular, non-symlink, non-hidden entry, in listing order |
| `FilesystemSources.Children` | src/filesystemsource.cpp:62-66 | the subdirectories to descend into are exactly the non-symlink, non-hidden directory entries other than `.` and `..` |
| `FilesystemSources.LastComponentIsName` | src/filesystemsource.cpp:58 | the file name Qt tests for hiddenness is the slash-free suffix after the last `/` |
| `FilesystemSources.LastComponentOfChild` | src/filesystemsource.cpp:65 | the file name of `dir/n` is `n` |
| `FilesystemSources.HiddenNeverScanned` | src/filesystemsource.cpp:58-66 | no scan processes a file, or descends into a directory, whose name starts with `.` |
| `FilesystemSources.Unwatch` | src/filesystemsource.cpp:46-51 | `removePath` takes the path out of the watch list and keeps the rest |
| `FilesystemSources.FilesystemSource.constructor` | src/filesystemsource.cpp:25-37 | scans the base path recursively from an empty watch list |
| `FilesystemSources.FilesystemSource.DirectoryChanged` | src/filesystemsource.cpp:32-34 | a change notification rescans the directory recursively, appending its calls |
| `FilesystemSources.FilesystemSource.ScanDirectoryOf` | src/filesystemsource.cpp:39-67 | the calls and the watch list become what `ScanDirectory` describes |
| `FilesystemSources.FilesystemSource.ProcessFiles` | src/filesystemsource.cpp:58-60 | appends the file calls; the watch list is unchanged |
| `FilesystemSources.FilesystemSource.ScanChildren` | src/filesystemsource.cpp:62-66 | scans each child non-recursively, in order |
| `FilesystemSources.DotsIgnored` | src/filesystemsource.cpp:41-42 | `.` and `..` are ignored |
| `FilesystemSources.MissingDirectoryRemoved` | src/filesystemsource.cpp:46-51 | a missing directory's files are removed and it is unwatched |
| `FilesystemSources.ScanKeepsNoDuplicates` | src/filesystemsource.cpp:55-56 | the watch list never holds a path twice |
| `FilesystemSources.ScanProcessesFiles` | src/filesystemsource.cpp:58-60 | a non-recursive scan processes exactly the directory's regular, non-symlink, non-hidden files and removes nothing |
| `FilesystemSources.ScanAllFiles` | src/filesystemsource.cpp:62-66 | a file processed by the children's scan belongs to some child |
| `FilesystemSources.ScanIsOneLevel` | src/filesystemsource.cpp:62-66 | a recursive scan reaches only the directory's own files and those of its immediate subdirectories |
| `ServiceApps.MediaScannerServiceApp.constructor` | src/MediaScannerServiceApp.cc:30-39 | the default root path and ignored set |
| `ServiceApps.Collected` | src/MediaScannerServiceApp.cc:70-86 | the strings of the array elements whose conversion succeeded (or failed, as written) |
| `ServiceApps.StringsOf` | src/MediaScannerServiceApp.cc:76-84 | the loop collects exactly the converted strings |
| `ServiceApps.ConfiguredAsWritten` | src/MediaScannerServiceApp.cc:65-86 | as written: a converting `rootPath` is ignored, and only failed conversions enter the set |
| `ServiceApps.Configured` | src/MediaScannerServiceApp.cc:59-89 | as intended: `rootPath` changes only to a converting value; an array replaces the set by its converting elements; otherwise the set is kept |
| `ServiceApps.StringRootPathTaken` | src/MediaScannerServiceApp.cc:65-68 | a string `rootPath` is taken |
| `ServiceApps.AsWrittenIgnoresRootPath` | src/MediaScannerServiceApp.cc:65-68 | as written, `rootPath: "/media/usb"` keeps the default; as intended it is taken |
| `ServiceApps.AsWrittenEmptiesIgnoredSet` | src/MediaScannerServiceApp.cc:70-86 | as written, an array of strings empties the set; as intended it becomes those strings |
| `ServiceApps.MediaScannerServiceApp.Configure` | src/MediaScannerServiceApp.cc:59-89 | returns the base error unchanged; on success the settings become `Configured` of the old ones |

## Left out

- File I/O, stat, inotify/glib main loops, QFileSystemWatcher signals, TagLib, the luna bus and MojDb itself: their results are parameters (`DetectedFile`, `TagInfo`, directory listings, responses).
- Send failures of the database client (`ErrorToException` after `find`/`put`/`merge`/`del`, and the three `merge` branches that finish on a send error): every send is taken to succeed.
- The page limit of MojDb finds: a find returns every match.
- Late replies after a command has been freed: the commands are heap objects that stay alive, and retain/release lifetimes are not modelled.
- `IndexDatabases.WithoutDirectory`: the directory is spliced into the SQL unescaped. What an apostrophe in it does to the statement is not modelled; the model reads it as a literal character of the pattern. LIKE's `%`/`_` wildcards and its ASCII case folding are modelled, but SQLite's `case_sensitive_like` pragma and the ICU extension are not.
- `MojObject::stringValue`'s conversion of non-strings is a parameter of `configure`.
- `GenerateAlbumThumbnailsCommand` is enqueued by the find-or-create commands but defined nowhere in the repository's sources; it is modelled as a command that sends one request and finishes on its reply. `GenerateImageThumbnailCommand` (image scaling, src/MojoMediaDatabaseImage.cc lines 229-309) is left out.
- `MediaFile`'s constructor initialises `_albumName`, which `MediaFile.hh` does not declare; the model has no such field.
- `MojoMediaDatabase` uses `restart_timeout`, which its header does not declare; the model keeps it as the flag `restartTimeout`.
- `string_format`, `CheckErr`'s log messages, `getUri`, `getCurrentUser`, `main`, the service's `open`, destructors, `setupMountWatcher`'s glib setup, all logging.
- src/mediaindexer.cpp (the Qt indexer's main) is not part of this model.
- The internals of the file scanner and subtree watcher libraries: a scan is given as the sequence of files it yields.
- `IndexDatabases.Processed`: `processFile` tests `QSqlQuery::size()`, which the SQLite driver does not report (it gives -1, and every file would take the update branch); the model reads it as the row count, one or zero, since the path is unique.
- `IndexDatabases.Processed`: the path is spliced into each statement unescaped (src/mediaindexdatabase.cpp lines 61, 65, 70 and 78). The model applies each statement as if the path held no apostrophe. A path with an apostrophe, such as `Don't Stop.mp3`, can make the statements invalid SQL so that nothing changes, or can be read as more SQL: which one depends on the rest of the path.
- `IndexDatabases.Processed`: the INSERT's chained `QString::arg` calls (lines 70-74) also replace a `%2` or `%3` that occurs in the path, so `/media/a%2b.mp3` would be stored with the size in place of `%2`. The model stores the path as given.
- `MediaScanners.MediaScanner.ProcessEvents`: on an unusable store only the unchanged mount directory, ignored set and open flag are stated, not what happens to the watch list.
- `MediaScanners.MediaScanner.AddMountedVolumes`: on an unusable store only the prefix of added volumes is stated, not the watch list.
- `MediaScanners.MediaScanner.Setup`: on an unusable store only the prefix of added volumes is stated, not the watch list.
- `Commands.Start`: no `execute` throws in the model, because send failures are left out.
- `MediaStores.MediaStore.Insert`: an unusable store is taken to fail the statement and change nothing; SQLite's error codes are not modelled.

## Findings

| source | as written | input that shows it | evidently intended | confidence | as-written member | corrected member |
|---|---|---|---|---|---|---|
| src/MediaScannerServiceApp.cc:65-86 | `MojObject::stringValue` returns an error code (0 = success), but `configure` tests it as a success flag, in `get(...) && stringValue(...)` and in `!stringValue(...)` | `{"rootPath": "/media/usb"}` keeps the default root; `{"ignoredDirectories": ["/media/internal/.cache"]}` makes the ignored set empty | take a converting `rootPath`; fill the ignored set with the converting array elements | not executed | `ServiceApps.ConfiguredAsWritten` (`ServiceApps.AsWrittenIgnoresRootPath`, `ServiceApps.AsWrittenEmptiesIgnoredSet`) | `ServiceApps.Configured` (used by `ServiceApps.MediaScannerServiceApp.Configure`) |
