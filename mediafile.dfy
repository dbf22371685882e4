/**
 * The media file record (src/MediaFile.hh, src/MediaFile.cc): a value type in the
 * source, filled in field by field through setters. `MediaFile` is the mutable
 * object; `MediaRecord` is the value a copy of it holds, which is what the
 * serializer and the commands receive.
 */
module MediaFiles {
  import opened CStrings

  /** `unsigned int` and `uint64_t` fields. */
  type u32 = x: int | 0 <= x < 0x1_0000_0000
  type u64 = x: int | 0 <= x < 0x1_0000_0000_0000_0000

  datatype MediaType = UnknownMedia | AudioMedia | VideoMedia | ImageMedia | MiscMedia

  /** A copy of every field of a MediaFile (the field `type` is called `kind` here). */
  datatype MediaRecord = MediaRecord(    path: string,
    etag: string,
    kind: MediaType,
    size: u64,
    sortKey: seq<string>,
    createdTime: u64,
    modifiedTime: u64,
    searchKey: string,
    extension: string,
    name: string,
    title: string,
    trackPosition: u32,
    trackTotal: u32,
    discPosition: u32,
    discTotal: u32,
    genre: string,
    artist: string,
    albumArtist: string,
    album: string,
    thumbnails: seq<string>,
    duration: u32,
    bookmark: u32,
    isRingtone: bool,
    serviced: bool,
    hasResizedThumbnails: bool,
    capturedOnDevice: bool,
    description: string,
    playbackPosition: u32,
    mediaType: string,
    appCacheCompleted: bool,
    albumId: string,
    albumPath: string,
    lastPlayTime: u32,
    year: u32  )

  /** The field values a freshly constructed MediaFile holds. */
  const DefaultRecord: MediaRecord := MediaRecord(    "",
    "",
    UnknownMedia,
    0,
    [],
    0,
    0,
    "",
    "",
    "",
    "Unknown Title",
    0,
    0,
    1,
    0,
    "Unknown Genre",
    "Unknown Artist",
    "Unknown Artist",
    "",
    [],
    0,
    0,
    false,
    false,
    false,
    false,
    "",
    0,
    "video",
    true,
    "",
    "",
    0,
    0  )

  /** The search key `rebuildSearchKey` computes from a record's other fields. */
  function SearchKeyOf(r: MediaRecord): string {
    match r.kind
    case AudioMedia => r.artist + "\t\t" + r.album + "\t\t" + r.title
    case VideoMedia => r.title
    case _ => r.name
  }

  /**
   * Reads an audio search key back into artist, album and title, splitting at
   * the first two tab pairs.
   */
  function SplitAudioSearchKey(k: string): (parts: (string, string, string))
  {
    var i := FirstIndexOf(k, '\t');
    if i < 0 || i + 2 > |k| then (k, "", "")
    else
      var rest := k[i + 2..];
      var j := FirstIndexOf(rest, '\t');
      if j < 0 || j + 2 > |rest| then (k[..i], rest, "")
      else (k[..i], rest[..j], rest[j + 2..])
  }

  lemma SplitJoined(a: string, b: string, c: string)
    requires '\t' !in a && '\t' !in b
    ensures SplitAudioSearchKey(a + "\t\t" + b + "\t\t" + c) == (a, b, c)
  {
    var rest := b + ("\t\t" + c);
    var k := a + ("\t\t" + rest);
    assert k == a + "\t\t" + b + "\t\t" + c;
    FirstIndexOfAfterFree(a, "\t\t" + rest, '\t');
    assert FirstIndexOf("\t\t" + rest, '\t') == 0;
    var i := FirstIndexOf(k, '\t');
    assert i == |a|;
    assert k[i + 2..] == rest;
    assert k[..i] == a;
    FirstIndexOfAfterFree(b, "\t\t" + c, '\t');
    assert FirstIndexOf("\t\t" + c, '\t') == 0;
    var j := FirstIndexOf(rest, '\t');
    assert j == |b|;
    assert rest[..j] == b;
    assert rest[j + 2..] == c;
  }

  /** For tab-free artist and album names the audio search key loses nothing. */
  lemma AudioSearchKeyRecoversFields(r: MediaRecord)
    requires r.kind == AudioMedia
    requires '\t' !in r.artist && '\t' !in r.album
    ensures SplitAudioSearchKey(SearchKeyOf(r)) == (r.artist, r.album, r.title)
  {
    SplitJoined(r.artist, r.album, r.title);
  }

  /** Rebuilding twice gives the same key as rebuilding once. */
  lemma SearchKeyIdempotent(r: MediaRecord)
    ensures SearchKeyOf(r.(searchKey := SearchKeyOf(r))) == SearchKeyOf(r)
  {
  }

  class MediaFile {
    var path: string
    var etag: string
    var kind: MediaType
    var size: u64
    var sortKey: seq<string>
    var createdTime: u64
    var modifiedTime: u64
    var searchKey: string
    var extension: string
    var name: string
    var title: string
    var trackPosition: u32
    var trackTotal: u32
    var discPosition: u32
    var discTotal: u32
    var genre: string
    var artist: string
    var albumArtist: string
    var album: string
    var thumbnails: seq<string>
    var duration: u32
    var bookmark: u32
    var isRingtone: bool
    var serviced: bool
    var hasResizedThumbnails: bool
    var capturedOnDevice: bool
    var description: string
    var playbackPosition: u32
    var mediaType: string
    var appCacheCompleted: bool
    var albumId: string
    var albumPath: string
    var lastPlayTime: u32
    var year: u32

    /** The value a copy of this object holds. */
    function Value(): MediaRecord
      reads this
    {
      MediaRecord(path, etag, kind, size, sortKey, createdTime, modifiedTime, searchKey, extension, name, title, trackPosition, trackTotal, discPosition, discTotal, genre, artist, albumArtist, album, thumbnails, duration, bookmark, isRingtone, serviced, hasResizedThumbnails, capturedOnDevice, description, playbackPosition, mediaType, appCacheCompleted, albumId, albumPath, lastPlayTime, year)
    }

    /** The constructor's member initialisers. */
    constructor ()
      ensures Value() == DefaultRecord
    {
      path := "";
      etag := "";
      kind := UnknownMedia;
      size := 0;
      sortKey := [];
      createdTime := 0;
      modifiedTime := 0;
      searchKey := "";
      extension := "";
      name := "";
      title := "Unknown Title";
      trackPosition := 0;
      trackTotal := 0;
      discPosition := 1;
      discTotal := 0;
      genre := "Unknown Genre";
      artist := "Unknown Artist";
      albumArtist := "Unknown Artist";
      album := "";
      thumbnails := [];
      duration := 0;
      bookmark := 0;
      isRingtone := false;
      serviced := false;
      hasResizedThumbnails := false;
      capturedOnDevice := false;
      description := "";
      playbackPosition := 0;
      mediaType := "video";
      appCacheCompleted := true;
      albumId := "";
      albumPath := "";
      lastPlayTime := 0;
      year := 0;
    }

    method SetEtag(v: string)
      modifies this
      ensures Value() == old(Value()).(etag := v)
    {
      etag := v;
    }

    method SetType(v: MediaType)
      modifies this
      ensures Value() == old(Value()).(kind := v)
    {
      kind := v;
    }

    method SetSize(v: u64)
      modifies this
      ensures Value() == old(Value()).(size := v)
    {
      size := v;
    }

    method SetPath(v: string)
      modifies this
      ensures Value() == old(Value()).(path := v)
    {
      path := v;
    }

    method SetSortKey(v: seq<string>)
      modifies this
      ensures Value() == old(Value()).(sortKey := v)
    {
      sortKey := v;
    }

    method SetCreatedTime(v: u64)
      modifies this
      ensures Value() == old(Value()).(createdTime := v)
    {
      createdTime := v;
    }

    method SetModifiedTime(v: u64)
      modifies this
      ensures Value() == old(Value()).(modifiedTime := v)
    {
      modifiedTime := v;
    }

    method SetSearchKey(v: string)
      modifies this
      ensures Value() == old(Value()).(searchKey := v)
    {
      searchKey := v;
    }

    method SetName(v: string)
      modifies this
      ensures Value() == old(Value()).(name := v)
    {
      name := v;
    }

    method SetExtension(v: string)
      modifies this
      ensures Value() == old(Value()).(extension := v)
    {
      extension := v;
    }

    method SetTitle(v: string)
      modifies this
      ensures Value() == old(Value()).(title := v)
    {
      title := v;
    }

    method SetTrackPosition(v: u32)
      modifies this
      ensures Value() == old(Value()).(trackPosition := v)
    {
      trackPosition := v;
    }

    method SetTrackTotal(v: u32)
      modifies this
      ensures Value() == old(Value()).(trackTotal := v)
    {
      trackTotal := v;
    }

    method SetDiscPosition(v: u32)
      modifies this
      ensures Value() == old(Value()).(discPosition := v)
    {
      discPosition := v;
    }

    method SetDiscTotal(v: u32)
      modifies this
      ensures Value() == old(Value()).(discTotal := v)
    {
      discTotal := v;
    }

    method SetGenre(v: string)
      modifies this
      ensures Value() == old(Value()).(genre := v)
    {
      genre := v;
    }

    method SetArtist(v: string)
      modifies this
      ensures Value() == old(Value()).(artist := v)
    {
      artist := v;
    }

    method SetAlbum(v: string)
      modifies this
      ensures Value() == old(Value()).(album := v)
    {
      album := v;
    }

    method SetAlbumArtist(v: string)
      modifies this
      ensures Value() == old(Value()).(albumArtist := v)
    {
      albumArtist := v;
    }

    method SetThumbnails(v: seq<string>)
      modifies this
      ensures Value() == old(Value()).(thumbnails := v)
    {
      thumbnails := v;
    }

    method SetDuration(v: u32)
      modifies this
      ensures Value() == old(Value()).(duration := v)
    {
      duration := v;
    }

    method SetBookmark(v: u32)
      modifies this
      ensures Value() == old(Value()).(bookmark := v)
    {
      bookmark := v;
    }

    method SetIsRingtone(v: bool)
      modifies this
      ensures Value() == old(Value()).(isRingtone := v)
    {
      isRingtone := v;
    }

    method SetServiced(v: bool)
      modifies this
      ensures Value() == old(Value()).(serviced := v)
    {
      serviced := v;
    }

    method SetHasResizedThumbnails(v: bool)
      modifies this
      ensures Value() == old(Value()).(hasResizedThumbnails := v)
    {
      hasResizedThumbnails := v;
    }

    method SetCapturedOnDevice(v: bool)
      modifies this
      ensures Value() == old(Value()).(capturedOnDevice := v)
    {
      capturedOnDevice := v;
    }

    method SetDescription(v: string)
      modifies this
      ensures Value() == old(Value()).(description := v)
    {
      description := v;
    }

    method SetPlaybackPosition(v: u32)
      modifies this
      ensures Value() == old(Value()).(playbackPosition := v)
    {
      playbackPosition := v;
    }

    method SetLastPlayTime(v: u32)
      modifies this
      ensures Value() == old(Value()).(lastPlayTime := v)
    {
      lastPlayTime := v;
    }

    method SetMediaType(v: string)
      modifies this
      ensures Value() == old(Value()).(mediaType := v)
    {
      mediaType := v;
    }

    method SetAppCacheCompleted(v: bool)
      modifies this
      ensures Value() == old(Value()).(appCacheCompleted := v)
    {
      appCacheCompleted := v;
    }

    method SetAlbumId(v: string)
      modifies this
      ensures Value() == old(Value()).(albumId := v)
    {
      albumId := v;
    }

    method SetAlbumPath(v: string)
      modifies this
      ensures Value() == old(Value()).(albumPath := v)
    {
      albumPath := v;
    }

    method SetYear(v: u32)
      modifies this
      ensures Value() == old(Value()).(year := v)
    {
      year := v;
    }

    /**
     * Recomputes the search key from the type, artist, album, title and name;
     * the audio key is built by successive appends.
     */
    method RebuildSearchKey()
      modifies this
      ensures Value() == old(Value()).(searchKey := SearchKeyOf(old(Value())))
    {
      if kind == AudioMedia {
        searchKey := artist;
        searchKey := searchKey + "\t\t";
        searchKey := searchKey + album;
        searchKey := searchKey + "\t\t";
        searchKey := searchKey + title;
      } else if kind == VideoMedia {
        searchKey := title;
      } else {
        searchKey := name;
      }
    }
  }
}
