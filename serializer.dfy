/**
 * `MojoMediaObjectSerializer::SerializeToDatabaseObject`: the document a media
 * file is stored as, chosen by its type.
 */
module Serializer {
  import opened CStrings
  import opened MediaFiles
  import opened Json
  import opened Wrappers

  const AudioFileKind: string := "com.palm.media.audio.file:1"
  const VideoFileKind: string := "com.palm.media.video.file:1"
  const ImageFileKind: string := "com.palm.media.image.file:1"
  const FileKind: string := "com.palm.media.file:1"

  /** The `_kind` a file of each type is stored under; unknown files get none. */
  function KindOf(t: MediaType): (k: Option<string>) {
    match t
    case AudioMedia => Some(AudioFileKind)
    case VideoMedia => Some(VideoFileKind)
    case ImageMedia => Some(ImageFileKind)
    case MiscMedia => Some(FileKind)
    case UnknownMedia => None
  }

  /** Reads a `_kind` back as the media type it was written for. */
  function TypeOfKind(k: string): (t: MediaType) {
    if k == AudioFileKind then AudioMedia
    else if k == VideoFileKind then VideoMedia
    else if k == ImageFileKind then ImageMedia
    else if k == FileKind then MiscMedia
    else UnknownMedia
  }

  /** The keys every serialized file carries. */
  const CommonKeys: set<string> :=
    {"path", "name", "extension", "modifiedTime", "createdTime", "size", "searchKey"}

  const AudioKeys: set<string> :=
    {"albumArtist", "album", "track", "disc", "title", "genre", "artist",
     "duration", "bookmark", "isRingtone", "serviced", "hasResizedThumbnails"}

  const VideoKeys: set<string> :=
    {"albumId", "albumPath", "lastPlayTime", "title", "capturedOnDevice", "description",
     "playbackPosition", "mediaType", "appCacheCompleted", "type"}

  function Common(f: MediaRecord): Object {
    map[
      "path" := Str(CStr(f.path)),
      "name" := Str(CStr(f.name)),
      "extension" := Str(CStr(f.extension)),
      "modifiedTime" := Int(FromUInt64(f.modifiedTime)),
      "createdTime" := Int(FromUInt64(f.createdTime)),
      "size" := Int(FromUInt64(f.size)),
      "searchKey" := Str(CStr(f.searchKey))
    ]
  }

  /**
   * The audio-specific fields. The disc position and total are put into the
   * track object after that object has been stored, so `disc` is stored empty.
   */
  function AudioFields(f: MediaRecord): Object {
    AudioAlbumFields(f) + AudioTagFields(f)
  }

  function AudioAlbumFields(f: MediaRecord): Object {
    map[
      "_kind" := Str(AudioFileKind),
      "albumArtist" := Str(CStr(f.albumArtist)),
      "album" := Str(CStr(f.album)),
      "track" := Obj(TrackObject(f)),
      "disc" := Obj(map[])
    ]
  }

  function TrackObject(f: MediaRecord): Object {
    map["position" := Int(f.trackPosition), "total" := Int(f.trackTotal)]
  }

  function AudioTagFields(f: MediaRecord): Object {
    map[
      "title" := Str(CStr(f.title)),
      "genre" := Str(CStr(f.genre)),
      "artist" := Str(CStr(f.artist)),
      "duration" := Int(f.duration),
      "bookmark" := Int(f.bookmark),
      "isRingtone" := Bool(f.isRingtone),
      "serviced" := Bool(f.serviced),
      "hasResizedThumbnails" := Bool(f.hasResizedThumbnails)
    ]
  }

  function VideoFields(f: MediaRecord): Object {
    VideoAlbumFields(f) + VideoPlaybackFields(f)
  }

  function VideoAlbumFields(f: MediaRecord): Object {
    map[
      "_kind" := Str(VideoFileKind),
      "albumId" := Str(CStr(f.albumId)),
      "albumPath" := Str(CStr(f.albumPath)),
      "lastPlayTime" := Int(f.lastPlayTime),
      "title" := Str(CStr(f.title))
    ]
  }

  /**
   * The source puts `appCacheCompleted` with `putString` of `.c_str()` on a
   * `bool`, which does not compile as C++; it is stored here as the flag.
   */
  function VideoPlaybackFields(f: MediaRecord): Object {
    map[
      "capturedOnDevice" := Bool(f.capturedOnDevice),
      "description" := Str(CStr(f.description)),
      "playbackPosition" := Int(f.playbackPosition),
      "mediaType" := Str(CStr(f.mediaType)),
      "appCacheCompleted" := Bool(f.appCacheCompleted),
      "type" := Str("local")
    ]
  }

  /** Everything the serializer puts, keyed as in the stored document. */
  function DatabaseObject(f: MediaRecord): Object {
    Common(f) + TypeFields(f)
  }

  /** The fields of the branch for the file's type. */
  function TypeFields(f: MediaRecord): Object {
    match f.kind
    case AudioMedia => AudioFields(f)
    case VideoMedia => VideoFields(f)
    case ImageMedia => map["_kind" := Str(ImageFileKind)]
    case MiscMedia => map["_kind" := Str(FileKind)]
    case UnknownMedia => map[]
  }

  /**
   * Fills `obj` by one `put` after another: the common fields, then the
   * branch for the file's type.
   */
  method SerializeToDatabaseObject(file: MediaRecord, obj: Object) returns (o: Object)
    ensures o == obj + DatabaseObject(file)
  {
    o := PutCommon(file, obj);
    ghost var base := o;
    if file.kind == AudioMedia {
      o := PutAudio(file, o);
    } else if file.kind == VideoMedia {
      o := PutVideo(file, o);
    } else if file.kind == ImageMedia {
      o := o["_kind" := Str(ImageFileKind)];
    } else if file.kind == MiscMedia {
      o := o["_kind" := Str(FileKind)];
    }
    assert o == base + TypeFields(file);
    UnionAssociates(obj, Common(file), TypeFields(file));
  }

  method PutCommon(file: MediaRecord, obj: Object) returns (o: Object)
    ensures o == obj + Common(file)
  {
    o := obj;
    o := o["path" := Str(CStr(file.path))];
    o := o["name" := Str(CStr(file.name))];
    o := o["extension" := Str(CStr(file.extension))];
    o := o["modifiedTime" := Int(FromUInt64(file.modifiedTime))];
    o := o["createdTime" := Int(FromUInt64(file.createdTime))];
    o := o["size" := Int(FromUInt64(file.size))];
    o := o["searchKey" := Str(CStr(file.searchKey))];
  }

  method PutAudio(file: MediaRecord, obj: Object) returns (o: Object)
    ensures o == obj + AudioFields(file)
  {
    o := PutAudioAlbum(file, obj);
    o := PutAudioTags(file, o);
    UnionAssociates(obj, AudioAlbumFields(file), AudioTagFields(file));
  }

  method PutAudioAlbum(file: MediaRecord, obj: Object) returns (o: Object)
    ensures o == obj + AudioAlbumFields(file)
  {
    o := obj;
    o := o["_kind" := Str(AudioFileKind)];
    o := o["albumArtist" := Str(CStr(file.albumArtist))];
    o := o["album" := Str(CStr(file.album))];
    var trackObj: Object := map[];
    trackObj := trackObj["position" := Int(file.trackPosition)];
    trackObj := trackObj["total" := Int(file.trackTotal)];
    o := o["track" := Obj(trackObj)];
    var discObj: Object := map[];
    trackObj := trackObj["position" := Int(file.discPosition)];
    trackObj := trackObj["total" := Int(file.discTotal)];
    o := o["disc" := Obj(discObj)];
  }

  method PutAudioTags(file: MediaRecord, obj: Object) returns (o: Object)
    ensures o == obj + AudioTagFields(file)
  {
    o := obj;
    o := o["title" := Str(CStr(file.title))];
    o := o["genre" := Str(CStr(file.genre))];
    o := o["artist" := Str(CStr(file.artist))];
    o := o["duration" := Int(file.duration)];
    o := o["bookmark" := Int(file.bookmark)];
    o := o["isRingtone" := Bool(file.isRingtone)];
    o := o["serviced" := Bool(file.serviced)];
    o := o["hasResizedThumbnails" := Bool(file.hasResizedThumbnails)];
  }

  method PutVideo(file: MediaRecord, obj: Object) returns (o: Object)
    ensures o == obj + VideoFields(file)
  {
    o := PutVideoAlbum(file, obj);
    o := PutVideoPlayback(file, o);
    UnionAssociates(obj, VideoAlbumFields(file), VideoPlaybackFields(file));
  }

  method PutVideoAlbum(file: MediaRecord, obj: Object) returns (o: Object)
    ensures o == obj + VideoAlbumFields(file)
  {
    o := obj;
    o := o["_kind" := Str(VideoFileKind)];
    o := o["albumId" := Str(CStr(file.albumId))];
    o := o["albumPath" := Str(CStr(file.albumPath))];
    o := o["lastPlayTime" := Int(file.lastPlayTime)];
    o := o["title" := Str(CStr(file.title))];
  }

  method PutVideoPlayback(file: MediaRecord, obj: Object) returns (o: Object)
    ensures o == obj + VideoPlaybackFields(file)
  {
    o := obj;
    o := o["capturedOnDevice" := Bool(file.capturedOnDevice)];
    o := o["description" := Str(CStr(file.description))];
    o := o["playbackPosition" := Int(file.playbackPosition)];
    o := o["mediaType" := Str(CStr(file.mediaType))];
    o := o["appCacheCompleted" := Bool(file.appCacheCompleted)];
    o := o["type" := Str("local")];
  }

  lemma UnionAssociates(a: Object, b: Object, c: Object)
    ensures (a + b) + c == a + (b + c)
  {
  }

  lemma CommonKeysOf(f: MediaRecord)
    ensures Common(f).Keys == CommonKeys
  {
  }

  lemma AudioAlbumKeys(f: MediaRecord)
    ensures AudioAlbumFields(f).Keys == {"_kind", "albumArtist", "album", "track", "disc"}
  {
  }

  lemma AudioTagKeys(f: MediaRecord)
    ensures AudioTagFields(f).Keys ==
      {"title", "genre", "artist", "duration", "bookmark", "isRingtone", "serviced", "hasResizedThumbnails"}
  {
  }

  lemma AudioKeySets()
    ensures {"_kind", "albumArtist", "album", "track", "disc"} +
      {"title", "genre", "artist", "duration", "bookmark", "isRingtone", "serviced", "hasResizedThumbnails"}
      == AudioKeys + {"_kind"}
  {
  }

  lemma AudioTypeKeys(f: MediaRecord)
    requires f.kind == AudioMedia
    ensures TypeFields(f).Keys == AudioKeys + {"_kind"}
  {
    AudioKeySets();
    AudioAlbumKeys(f);
    AudioTagKeys(f);
  }

  lemma VideoTypeKeys(f: MediaRecord)
    requires f.kind == VideoMedia
    ensures TypeFields(f).Keys == VideoKeys + {"_kind"}
  {
  }

  /** No key of a type branch is one of the common keys, so no branch overwrites them. */
  lemma CommonKeysApart(k: string)
    requires k in CommonKeys
    ensures k !in AudioKeys && k !in VideoKeys && k != "_kind"
  {
    if k == "path" {
    } else if k == "name" {
    } else if k == "extension" {
    } else if k == "modifiedTime" {
    } else if k == "createdTime" {
    } else if k == "size" {
    } else {
      assert k == "searchKey";
    }
  }

  /** The keys of the type branch, and that they never clash with the common keys. */
  lemma TypeFieldsKeys(f: MediaRecord)
    ensures TypeFields(f).Keys == match f.kind
      case AudioMedia => AudioKeys + {"_kind"}
      case VideoMedia => VideoKeys + {"_kind"}
      case UnknownMedia => {}
      case _ => {"_kind"}
    ensures CommonKeys !! TypeFields(f).Keys
  {
    if f.kind == AudioMedia {
      AudioTypeKeys(f);
    } else if f.kind == VideoMedia {
      VideoTypeKeys(f);
    }
    forall k | k in CommonKeys
      ensures k !in TypeFields(f).Keys
    {
      CommonKeysApart(k);
    }
  }

  /** The common fields are copied from the record whatever its type. */
  lemma CommonFieldsCopied(f: MediaRecord)
    ensures var d := DatabaseObject(f);
      && CommonKeys <= d.Keys
      && d["path"] == Str(CStr(f.path)) && d["name"] == Str(CStr(f.name))
      && d["extension"] == Str(CStr(f.extension)) && d["searchKey"] == Str(CStr(f.searchKey))
      && d["modifiedTime"] == Int(FromUInt64(f.modifiedTime))
      && d["createdTime"] == Int(FromUInt64(f.createdTime))
      && d["size"] == Int(FromUInt64(f.size))
  {
    TypeFieldsKeys(f);
    CommonKeysOf(f);
    forall k | k in CommonKeys
      ensures k in DatabaseObject(f) && DatabaseObject(f)[k] == Common(f)[k]
    {
      CommonLookup(f, k);
    }
  }

  /** A common key is looked up in the common fields. */
  lemma CommonLookup(f: MediaRecord, k: string)
    requires k in CommonKeys && k !in TypeFields(f)
    ensures k in DatabaseObject(f) && DatabaseObject(f)[k] == Common(f)[k]
  {
    CommonKeysOf(f);
  }

  /** A key outside the common ones is looked up in the type branch. */
  lemma BranchLookup(f: MediaRecord, k: string)
    requires k !in CommonKeys
    ensures k in DatabaseObject(f) <==> k in TypeFields(f)
    ensures k in TypeFields(f) ==> DatabaseObject(f)[k] == TypeFields(f)[k]
  {
    CommonKeysOf(f);
  }

  /** An audio key outside the tag half is looked up in the album half. */
  lemma AudioTypeFieldAt(f: MediaRecord, k: string)
    requires f.kind == AudioMedia && k in AudioAlbumFields(f) && k !in AudioTagFields(f)
    ensures k in TypeFields(f) && TypeFields(f)[k] == AudioAlbumFields(f)[k]
  {
  }

  /** A video key of the playback half is looked up there. */
  lemma VideoTypeFieldAt(f: MediaRecord, k: string)
    requires f.kind == VideoMedia && k in VideoPlaybackFields(f)
    ensures k in TypeFields(f) && TypeFields(f)[k] == VideoPlaybackFields(f)[k]
  {
  }

  lemma AudioKindEntry(f: MediaRecord)
    requires f.kind == AudioMedia
    ensures "_kind" in TypeFields(f) && TypeFields(f)["_kind"] == Str(AudioFileKind)
  {
    AudioTagKeys(f);
    AudioTypeFieldAt(f, "_kind");
  }

  lemma VideoKindEntry(f: MediaRecord)
    requires f.kind == VideoMedia
    ensures "_kind" in TypeFields(f) && TypeFields(f)["_kind"] == Str(VideoFileKind)
  {
    assert "_kind" !in VideoPlaybackFields(f);
  }

  /** `_kind` is present exactly for known types and reads back as the record's type. */
  lemma KindRoundTrip(f: MediaRecord)
    ensures var d := DatabaseObject(f);
      && ("_kind" in d <==> f.kind != UnknownMedia)
      && (f.kind != UnknownMedia ==> d["_kind"].Str? && TypeOfKind(d["_kind"].s) == f.kind)
  {
    BranchLookup(f, "_kind");
    if f.kind == AudioMedia {
      AudioKindEntry(f);
    } else if f.kind == VideoMedia {
      VideoKindEntry(f);
    }
  }

  /** Audio documents carry exactly the common keys, the audio keys and `_kind`. */
  lemma AudioDocumentKeys(f: MediaRecord)
    requires f.kind == AudioMedia
    ensures DatabaseObject(f).Keys == CommonKeys + AudioKeys + {"_kind"}
  {
    AudioTypeKeys(f);
    CommonKeysOf(f);
  }

  /**
   * `disc` is stored as an empty object: the disc position and total are
   * written into the track object after it was stored.
   */
  lemma AudioDiscIsEmpty(f: MediaRecord)
    requires f.kind == AudioMedia
    ensures "disc" in DatabaseObject(f) && DatabaseObject(f)["disc"] == Obj(map[])
  {
    AudioTagKeys(f);
    AudioTypeFieldAt(f, "disc");
    BranchLookup(f, "disc");
  }

  /** `track` holds the track position and total. */
  lemma AudioTrackObject(f: MediaRecord)
    requires f.kind == AudioMedia
    ensures "track" in DatabaseObject(f) && DatabaseObject(f)["track"] == Obj(TrackObject(f))
  {
    AudioTrackEntry(f);
    BranchLookup(f, "track");
  }

  lemma AudioTrackEntry(f: MediaRecord)
    requires f.kind == AudioMedia
    ensures "track" in TypeFields(f) && TypeFields(f)["track"] == Obj(TrackObject(f))
  {
    AudioTagKeys(f);
    AudioTypeFieldAt(f, "track");
  }

  /** Video documents carry exactly the common keys, the video keys and `_kind`. */
  lemma VideoDocumentKeys(f: MediaRecord)
    requires f.kind == VideoMedia
    ensures DatabaseObject(f).Keys == CommonKeys + VideoKeys + {"_kind"}
  {
    VideoTypeKeys(f);
    CommonKeysOf(f);
  }

  /** Video documents are marked `type` "local". */
  lemma VideoIsLocal(f: MediaRecord)
    requires f.kind == VideoMedia
    ensures "type" in DatabaseObject(f) && DatabaseObject(f)["type"] == Str("local")
  {
    VideoTypeFieldAt(f, "type");
    BranchLookup(f, "type");
  }

  /** Video documents copy `appCacheCompleted`. */
  lemma VideoCacheFlagCopied(f: MediaRecord)
    requires f.kind == VideoMedia
    ensures "appCacheCompleted" in DatabaseObject(f)
    ensures DatabaseObject(f)["appCacheCompleted"] == Bool(f.appCacheCompleted)
  {
    VideoTypeFieldAt(f, "appCacheCompleted");
    BranchLookup(f, "appCacheCompleted");
  }

  /** Image and misc documents carry only the common fields and `_kind`. */
  lemma PlainDocument(f: MediaRecord)
    requires f.kind == ImageMedia || f.kind == MiscMedia
    ensures DatabaseObject(f).Keys == CommonKeys + {"_kind"}
  {
    CommonKeysOf(f);
  }
}
