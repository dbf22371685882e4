/**
 * `MetadataExtractor` (src/MetadataExtractor.cc): classifying a file by its
 * content type, and filling a MediaFile from the path, the clock, `stat` and
 * the tags TagLib reads.
 */
module Extractor {
  import opened Wrappers
  import opened CStrings
  import opened MediaFiles

  /** What the file-info query answers: the entity tag and the fast content type. */
  datatype FileInfo = FileInfo(etag: string, contentType: string)

  datatype DetectedFile = DetectedFile(path: string, etag: string, contentType: string, kind: MediaType)

  /** The runtime errors `detect` throws. */
  datatype DetectError = QueryFailed | UnknownContentType

  /** The media type a content type names, by its prefix. */
  function Classify(contentType: string): (t: MediaType)
    ensures t != UnknownMedia
    ensures t == AudioMedia <==> StartsWith(contentType, "audio/")
    ensures t == VideoMedia <==> StartsWith(contentType, "video/") && !StartsWith(contentType, "audio/")
    ensures t == ImageMedia <==>
      StartsWith(contentType, "image/") && !StartsWith(contentType, "audio/") && !StartsWith(contentType, "video/")
  {
    if StartsWith(contentType, "audio/") then AudioMedia
    else if StartsWith(contentType, "video/") then VideoMedia
    else if StartsWith(contentType, "image/") then ImageMedia
    else MiscMedia
  }

  /** Content types under different top-level families never collide. */
  lemma ClassifyPrefixesExclusive(ct: string)
    ensures !(StartsWith(ct, "audio/") && StartsWith(ct, "video/"))
    ensures !(StartsWith(ct, "audio/") && StartsWith(ct, "image/"))
    ensures !(StartsWith(ct, "video/") && StartsWith(ct, "image/"))
  {
    if StartsWith(ct, "audio/") {
      assert ct[0] == 'a';
    } else if StartsWith(ct, "video/") {
      assert ct[0] == 'v';
    }
  }

  /**
   * `detect`: a failed query and an empty content type are errors; otherwise
   * the path, entity tag and content type come back unchanged with the type.
   */
  function Detect(path: string, info: Option<FileInfo>): (r: Result<DetectedFile, DetectError>)
    ensures info.None? ==> r == Err(QueryFailed)
    ensures info.Some? && info.value.contentType == [] ==> r == Err(UnknownContentType)
    ensures r.Ok? <==> info.Some? && info.value.contentType != []
    ensures r.Ok? ==> && r.value.path == path
                      && r.value.etag == info.value.etag
                      && r.value.contentType == info.value.contentType
                      && r.value.kind == Classify(info.value.contentType)
  {
    match info
    case None => Err(QueryFailed)
    case Some(fi) =>
      if fi.contentType == [] then Err(UnknownContentType)
      else Ok(DetectedFile(path, fi.etag, fi.contentType, Classify(fi.contentType)))
  }

  /**
   * `get_filename_extension` on the whole path: the text after the last dot,
   * or "" when there is no dot or the last dot is the first character.
   */
  function FilenameExtension(path: string): (r: string)
    ensures var s, dot := CStr(path), LastIndexOf(CStr(path), '.');
      && (dot <= 0 ==> r == [])
      && (dot > 0 ==> r == s[dot + 1..])
  {
    var s := CStr(path);
    var dot := LastIndexOf(s, '.');
    if dot == -1 || dot == 0 then [] else s[dot + 1..]
  }

  /** The extension never contains a dot, and is what the path ends with. */
  lemma ExtensionIsDotFreeSuffix(path: string)
    ensures '.' !in FilenameExtension(path)
    ensures var s, e := CStr(path), FilenameExtension(path);
      |e| <= |s| && s[|s| - |e|..] == e
  {
    var s := CStr(path);
    var dot := LastIndexOf(s, '.');
    var e := FilenameExtension(path);
    if dot > 0 {
      assert e == s[dot + 1..];
      assert |s| - |e| == dot + 1;
    } else {
      assert e == [];
      assert s[|s|..] == [];
    }
  }

  lemma {:induction false} LastIndexOfBeforeFree(a: string, c: char, b: string)
    requires c !in b
    ensures LastIndexOf(a + [c] + b, c) == |a|
    decreases |b|
  {
    if b == [] {
      assert a + [c] + b == a + [c];
    } else {
      var s := a + [c] + b;
      assert s[|s| - 1] == b[|b| - 1];
      assert s[..|s| - 1] == a + [c] + b[..|b| - 1];
      assert b[|b| - 1] in b;
      LastIndexOfBeforeFree(a, c, b[..|b| - 1]);
    }
  }

  /**
   * The rule is applied to the whole path, so after a dot in a directory name
   * the extension reaches across the slash.
   */
  lemma ExtensionCrossesDirectories(dir: string, rest: string)
    requires NUL !in dir && NUL !in rest && dir != []
    requires '.' !in rest
    ensures FilenameExtension(dir + "." + rest) == rest
  {
    var s := dir + "." + rest;
    assert NUL !in s;
    CStrOfNulFree(s);
    LastIndexOfBeforeFree(dir, '.', rest);
    assert s[|dir| + 1..] == rest;
  }

  /** `s` without its trailing slashes. */
  function StripTrailingSlashes(s: string): (r: string)
    ensures |r| <= |s| && r == s[..|r|]
    ensures r == [] || r[|r| - 1] != '/'
  {
    if s == [] || s[|s| - 1] != '/' then s else StripTrailingSlashes(s[..|s| - 1])
  }

  /**
   * POSIX `basename` (from libgen.h) of the C string: "." for an empty path,
   * "/" for a path of slashes only, otherwise the last component.
   */
  function Basename(path: string): (r: string)
    ensures r != []
    ensures r != "/" ==> '/' !in r
  {
    var s := CStr(path);
    if s == [] then "."
    else
      var t := StripTrailingSlashes(s);
      if t == [] then "/" else t[LastIndexOf(t, '/') + 1..]
  }

  /** The tag data TagLib reads from an audio or video file. */
  datatype TagInfo = TagInfo(
    album: string,
    artist: string,
    title: string,
    genre: string,
    track: u32,
    year: u32,
    properties: map<string, seq<string>>)

  /** TagLib `String::split`: every separator starts a new part, so n separators give n + 1 parts. */
  function Split(s: string, sep: char): (parts: seq<string>)
    ensures |parts| >= 1
    decreases |s|
  {
    var i := FirstIndexOf(s, sep);
    if i == -1 then [s] else [s[..i]] + Split(s[i + 1..], sep)
  }

  /** The number of times `c` occurs in `s`. */
  function Occurrences(s: string, c: char): nat {
    if s == [] then 0 else (if s[0] == c then 1 else 0) + Occurrences(s[1..], c)
  }

  lemma {:induction false} OccurrencesAppend(a: string, b: string, c: char)
    ensures Occurrences(a + b, c) == Occurrences(a, c) + Occurrences(b, c)
  {
    if a == [] {
      assert a + b == b;
    } else {
      assert (a + b)[1..] == a[1..] + b;
      OccurrencesAppend(a[1..], b, c);
    }
  }

  lemma {:induction false} OccurrencesAbsent(s: string, c: char)
    requires c !in s
    ensures Occurrences(s, c) == 0
  {
    if s != [] {
      OccurrencesAbsent(s[1..], c);
    }
  }

  /** Splitting yields one more part than there are separators. */
  lemma {:induction false} SplitCount(s: string, sep: char)
    ensures |Split(s, sep)| == Occurrences(s, sep) + 1
    decreases |s|
  {
    var i := FirstIndexOf(s, sep);
    if i == -1 {
      OccurrencesAbsent(s, sep);
    } else {
      assert s == s[..i] + ([s[i]] + s[i + 1..]);
      OccurrencesAppend(s[..i], [s[i]] + s[i + 1..], sep);
      OccurrencesAppend([s[i]], s[i + 1..], sep);
      OccurrencesAbsent(s[..i], sep);
      SplitCount(s[i + 1..], sep);
    }
  }

  /** Exactly two parts means exactly one separator, and the parts are what lies either side of it. */
  lemma TwoParts(s: string, sep: char)
    ensures |Split(s, sep)| == 2 <==> Occurrences(s, sep) == 1
    ensures |Split(s, sep)| == 2 ==>
      var i := FirstIndexOf(s, sep);
      0 <= i && Split(s, sep) == [s[..i], s[i + 1..]]
  {
    SplitCount(s, sep);
    var i := FirstIndexOf(s, sep);
    if |Split(s, sep)| == 2 {
      assert i != -1;
      assert |Split(s[i + 1..], sep)| == 1;
      assert FirstIndexOf(s[i + 1..], sep) == -1;
    }
  }

  /** TagLib `StringList::toString(separator)`: the values with the separator between them. */
  function Join(values: seq<string>, sep: string): string {
    if values == [] then []
    else if |values| == 1 then values[0]
    else values[0] + sep + Join(values[1..], sep)
  }

  /** `unsigned int` conversion of the `int` that `String::toInt` returns. */
  function ToU32(x: int): (r: u32)
    ensures 0 <= x < 0x1_0000_0000 ==> r == x
  {
    x % 0x1_0000_0000
  }

  /** The "a/b" rule: a value that splits into exactly two parts gives position and total. */
  function NumberPair(values: seq<string>, toInt: string -> int): (r: Option<(u32, u32)>) {
    var parts := Split(Join(values, " "), '/');
    if |parts| == 2 then Some((ToU32(toInt(parts[0])), ToU32(toInt(parts[1])))) else None
  }

  /** The fields `extract` sets from the tags, in its order. */
  function ApplyTags(r: MediaRecord, tags: TagInfo, toInt: string -> int): (t: MediaRecord)
    ensures SameIdentity(t, r)
  {
    var props := tags.properties;
    ApplyDiscNumber(ApplyTrackNumber(ApplyAlbumArtist(ApplyBasicTags(r, tags), props), props, toInt), props, toInt)
  }

  /** Album, artist, title, genre, track number and year straight from the tag. */
  function ApplyBasicTags(r: MediaRecord, tags: TagInfo): (t: MediaRecord)
    ensures SameIdentity(t, r) && SameDisc(t, r)
    ensures t.trackPosition == tags.track && t.trackTotal == r.trackTotal
  {
    r.(album := CStr(tags.album), artist := CStr(tags.artist), title := CStr(tags.title),
       genre := CStr(tags.genre), trackPosition := tags.track, year := tags.year)
  }

  /** ALBUMARTIST values joined with ", ". */
  function ApplyAlbumArtist(r: MediaRecord, props: map<string, seq<string>>): (t: MediaRecord)
    ensures SameIdentity(t, r) && SameTrack(t, r) && SameDisc(t, r)
  {
    if "ALBUMARTIST" in props then r.(albumArtist := CStr(Join(props["ALBUMARTIST"], ", "))) else r
  }

  function ApplyTrackNumber(r: MediaRecord, props: map<string, seq<string>>, toInt: string -> int): (t: MediaRecord)
    ensures SameIdentity(t, r) && SameDisc(t, r)
    ensures var pair := if "TRACKNUMBER" in props then NumberPair(props["TRACKNUMBER"], toInt) else None;
      && (pair.Some? ==> t.trackPosition == pair.value.0 && t.trackTotal == pair.value.1)
      && (pair.None? ==> SameTrack(t, r))
  {
    var pair := if "TRACKNUMBER" in props then NumberPair(props["TRACKNUMBER"], toInt) else None;
    if pair.Some? then r.(trackPosition := pair.value.0, trackTotal := pair.value.1) else r
  }

  function ApplyDiscNumber(r: MediaRecord, props: map<string, seq<string>>, toInt: string -> int): (t: MediaRecord)
    ensures SameIdentity(t, r) && SameTrack(t, r)
    ensures var pair := if "DISCNUMBER" in props then NumberPair(props["DISCNUMBER"], toInt) else None;
      && (pair.Some? ==> t.discPosition == pair.value.0 && t.discTotal == pair.value.1)
      && (pair.None? ==> SameDisc(t, r))
  {
    var pair := if "DISCNUMBER" in props then NumberPair(props["DISCNUMBER"], toInt) else None;
    if pair.Some? then r.(discPosition := pair.value.0, discTotal := pair.value.1) else r
  }

  /** The record before tag reading: identity, name, extension and times. */
  function BaseRecord(d: DetectedFile, now: u64, mtime: Option<u64>): MediaRecord {
    DefaultRecord.(path := d.path, etag := d.etag, kind := d.kind,
                   name := Basename(d.path), extension := FilenameExtension(d.path),
                   createdTime := now, modifiedTime := if mtime.Some? then mtime.value else 0)
  }

  /**
   * The record `extract` returns, given the clock reading, the `stat`
   * modification time (None when `stat` fails) and TagLib's reading (None for
   * a null file reference).
   */
  function Extracted(d: DetectedFile, now: u64, mtime: Option<u64>, tags: Option<TagInfo>,
                     toInt: string -> int): MediaRecord
  {
    var base := BaseRecord(d, now, mtime);
    if d.kind == ImageMedia || d.kind == MiscMedia then base
    else WithSearchKey(if tags.Some? then ApplyTags(base, tags.value, toInt) else base)
  }

  /** `rebuildSearchKey` on a record value. */
  function WithSearchKey(t: MediaRecord): (r: MediaRecord)
    ensures r.searchKey == SearchKeyOf(r)
    ensures SameIdentity(r, t) && SameTrack(r, t) && SameDisc(r, t)
  {
    t.(searchKey := SearchKeyOf(t))
  }

  /** Two records agree on identity, name, extension and times. */
  predicate SameIdentity(a: MediaRecord, b: MediaRecord) {
    && a.path == b.path && a.etag == b.etag && a.kind == b.kind
    && a.name == b.name && a.extension == b.extension
    && a.createdTime == b.createdTime && a.modifiedTime == b.modifiedTime
  }

  predicate SameTrack(a: MediaRecord, b: MediaRecord) {
    a.trackPosition == b.trackPosition && a.trackTotal == b.trackTotal
  }

  predicate SameDisc(a: MediaRecord, b: MediaRecord) {
    a.discPosition == b.discPosition && a.discTotal == b.discTotal
  }

  /**
   * Path, entity tag and type are copied; name and extension come from the
   * path; the creation time is the clock and the modification time is the
   * `stat` mtime, or the default 0 when `stat` fails.
   */
  lemma ExtractCopiesIdentity(d: DetectedFile, now: u64, mtime: Option<u64>, tags: Option<TagInfo>,
                              toInt: string -> int)
    ensures var r := Extracted(d, now, mtime, tags, toInt);
      && r.path == d.path && r.etag == d.etag && r.kind == d.kind
      && r.name == Basename(d.path) && r.extension == FilenameExtension(d.path)
      && r.createdTime == now
      && r.modifiedTime == (if mtime.Some? then mtime.value else 0)
  {
    var base := BaseRecord(d, now, mtime);
    assert base.path == d.path && base.etag == d.etag && base.kind == d.kind;
    assert base.name == Basename(d.path) && base.extension == FilenameExtension(d.path) && base.createdTime == now;
    assert base.modifiedTime == (if mtime.Some? then mtime.value else 0);
    if d.kind != ImageMedia && d.kind != MiscMedia {
      var tagged := if tags.Some? then ApplyTags(base, tags.value, toInt) else base;
      assert SameIdentity(tagged, base);
      assert Extracted(d, now, mtime, tags, toInt) == WithSearchKey(tagged);
    }
  }

  /** Image and misc files skip tag reading and keep the default search key and tag fields. */
  lemma ImageMiscSkipTags(d: DetectedFile, now: u64, mtime: Option<u64>, tags: Option<TagInfo>,
                          toInt: string -> int)
    requires d.kind == ImageMedia || d.kind == MiscMedia
    ensures var r := Extracted(d, now, mtime, tags, toInt);
      && r.searchKey == DefaultRecord.searchKey
      && r.title == DefaultRecord.title && r.artist == DefaultRecord.artist
      && r.trackPosition == 0 && r.discPosition == 1
  {
  }

  /** Audio and video files end with their search key rebuilt from the final fields. */
  lemma AudioVideoSearchKey(d: DetectedFile, now: u64, mtime: Option<u64>, tags: Option<TagInfo>,
                            toInt: string -> int)
    requires d.kind == AudioMedia || d.kind == VideoMedia
    ensures var r := Extracted(d, now, mtime, tags, toInt);
      r.searchKey == SearchKeyOf(r)
  {
  }

  /** The two numbers a value yields exactly when it holds one '/'. */
  lemma NumberPairRule(values: seq<string>, toInt: string -> int)
    ensures var v := Join(values, " ");
      var i := FirstIndexOf(v, '/');
      && (Occurrences(v, '/') == 1 <==> NumberPair(values, toInt).Some?)
      && (Occurrences(v, '/') == 1 ==>
            0 <= i && NumberPair(values, toInt) == Some((ToU32(toInt(v[..i])), ToU32(toInt(v[i + 1..])))))
  {
    TwoParts(Join(values, " "), '/');
  }

  /** The track fields of an extracted audio or video file with tags. */
  lemma TrackFieldsOfExtracted(d: DetectedFile, now: u64, mtime: Option<u64>, tags: TagInfo,
                               toInt: string -> int)
    requires d.kind == AudioMedia || d.kind == VideoMedia
    ensures var r := Extracted(d, now, mtime, Some(tags), toInt);
      var pair := if "TRACKNUMBER" in tags.properties then NumberPair(tags.properties["TRACKNUMBER"], toInt) else None;
      && (pair.Some? ==> r.trackPosition == pair.value.0 && r.trackTotal == pair.value.1)
      && (pair.None? ==> r.trackPosition == tags.track && r.trackTotal == 0)
  {
    var props := tags.properties;
    var r1 := ApplyBasicTags(BaseRecord(d, now, mtime), tags);
    var r2 := ApplyAlbumArtist(r1, props);
    var r3 := ApplyTrackNumber(r2, props, toInt);
    var r4 := ApplyDiscNumber(r3, props, toInt);
    assert ApplyTags(BaseRecord(d, now, mtime), tags, toInt) == r4;
    assert Extracted(d, now, mtime, Some(tags), toInt) == WithSearchKey(r4);
    assert r2.trackPosition == tags.track && r2.trackTotal == 0;
  }

  /** The disc fields of an extracted audio or video file with tags. */
  lemma DiscFieldsOfExtracted(d: DetectedFile, now: u64, mtime: Option<u64>, tags: TagInfo,
                              toInt: string -> int)
    requires d.kind == AudioMedia || d.kind == VideoMedia
    ensures var r := Extracted(d, now, mtime, Some(tags), toInt);
      var pair := if "DISCNUMBER" in tags.properties then NumberPair(tags.properties["DISCNUMBER"], toInt) else None;
      && (pair.Some? ==> r.discPosition == pair.value.0 && r.discTotal == pair.value.1)
      && (pair.None? ==> r.discPosition == 1 && r.discTotal == 0)
  {
    var props := tags.properties;
    var r1 := ApplyBasicTags(BaseRecord(d, now, mtime), tags);
    var r2 := ApplyAlbumArtist(r1, props);
    var r3 := ApplyTrackNumber(r2, props, toInt);
    var r4 := ApplyDiscNumber(r3, props, toInt);
    assert ApplyTags(BaseRecord(d, now, mtime), tags, toInt) == r4;
    assert Extracted(d, now, mtime, Some(tags), toInt) == WithSearchKey(r4);
    assert r3.discPosition == 1 && r3.discTotal == 0;
  }

  /**
   * `extract`: a fresh MediaFile filled by setter calls in the order of the
   * source; the clock, `stat`, TagLib and `toInt` are inputs.
   */
  method Extract(d: DetectedFile, now: u64, mtime: Option<u64>, tags: Option<TagInfo>,
                 toInt: string -> int) returns (mf: MediaFile)
    ensures fresh(mf)
    ensures mf.Value() == Extracted(d, now, mtime, tags, toInt)
  {
    mf := new MediaFile();
    mf.SetPath(d.path);
    mf.SetEtag(d.etag);
    mf.SetType(d.kind);
    mf.SetName(Basename(d.path));
    mf.SetExtension(FilenameExtension(d.path));
    mf.SetCreatedTime(now);
    if mtime.Some? {
      mf.SetModifiedTime(mtime.value);
    }
    assert mf.Value() == BaseRecord(d, now, mtime);
    if d.kind == ImageMedia || d.kind == MiscMedia {
      return;
    }
    if tags.Some? {
      var tag := tags.value;
      SetBasicTags(mf, tag);
      SetAlbumArtistTag(mf, tag.properties);
      SetTrackNumberTag(mf, tag.properties, toInt);
      SetDiscNumberTag(mf, tag.properties, toInt);
    }
    mf.RebuildSearchKey();
  }

  method SetBasicTags(mf: MediaFile, tag: TagInfo)
    modifies mf
    ensures mf.Value() == ApplyBasicTags(old(mf.Value()), tag)
  {
    mf.SetAlbum(CStr(tag.album));
    mf.SetArtist(CStr(tag.artist));
    mf.SetTitle(CStr(tag.title));
    mf.SetGenre(CStr(tag.genre));
    mf.SetTrackPosition(tag.track);
    mf.SetYear(tag.year);
  }

  method SetAlbumArtistTag(mf: MediaFile, props: map<string, seq<string>>)
    modifies mf
    ensures mf.Value() == ApplyAlbumArtist(old(mf.Value()), props)
  {
    if "ALBUMARTIST" in props {
      var values := props["ALBUMARTIST"];
      mf.SetAlbumArtist(CStr(Join(values, ", ")));
    }
  }

  method SetTrackNumberTag(mf: MediaFile, props: map<string, seq<string>>, toInt: string -> int)
    modifies mf
    ensures mf.Value() == ApplyTrackNumber(old(mf.Value()), props, toInt)
  {
    if "TRACKNUMBER" in props {
      var values := props["TRACKNUMBER"];
      var trackNumberParts := Split(Join(values, " "), '/');
      if |trackNumberParts| == 2 {
        mf.SetTrackPosition(ToU32(toInt(trackNumberParts[0])));
        mf.SetTrackTotal(ToU32(toInt(trackNumberParts[1])));
      }
    }
  }

  method SetDiscNumberTag(mf: MediaFile, props: map<string, seq<string>>, toInt: string -> int)
    modifies mf
    ensures mf.Value() == ApplyDiscNumber(old(mf.Value()), props, toInt)
  {
    if "DISCNUMBER" in props {
      var values := props["DISCNUMBER"];
      var discNumberParts := Split(Join(values, " "), '/');
      if |discNumberParts| == 2 {
        mf.SetDiscPosition(ToU32(toInt(discNumberParts[0])));
        mf.SetDiscTotal(ToU32(toInt(discNumberParts[1])));
      }
    }
  }
}
