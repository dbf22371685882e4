/**
 * `MediaScannerServiceApp` of src/MediaScannerServiceApp.cc: the defaults of
 * the scanner's configuration and `configure`, which reads `rootPath` and
 * `ignoredDirectories` from the service configuration.
 *
 * `MojObject::stringValue` returns an error code, zero on success, and
 * `configure` tests it as if it were a success flag. `ConfiguredAsWritten`
 * models the code as written; `Configured` is the evidently intended
 * reading, which the class uses. How `stringValue` converts a value that is
 * not a string is MojObject's business and a parameter here.
 */
module ServiceApps {
  import opened Wrappers
  import opened Json

  const DefaultRootPath: string := "/media/internal"
  const DefaultIgnoredDirectories: set<string> := {"/media/internal/android/Android"}

  /** What `stringValue` gives: its error code and the string. */
  datatype StringValue = StringValue(err: int, s: string)

  /** A conversion that succeeds on strings and gives them back, as `stringValue` does. */
  ghost predicate ConvertsStrings(stringValue: Value -> StringValue) {
    forall s :: stringValue(Str(s)) == StringValue(0, s)
  }

  /** The scanner settings `configure` fills in. */
  datatype Settings = Settings(rootPath: string, ignoredDirectories: set<string>)

  const Defaults: Settings := Settings(DefaultRootPath, DefaultIgnoredDirectories)

  /** `conf.get(key, obj)`. */
  function Get(conf: Value, key: string): Option<Value> {
    if conf.Obj? && key in conf.fields then Some(conf.fields[key]) else None
  }

  /**
   * The strings of the array elements that get inserted: those whose
   * conversion failed (`acceptFailures`, as written) or succeeded.
   */
  function Collected(items: seq<Value>, stringValue: Value -> StringValue, acceptFailures: bool): (r: set<string>)
    ensures forall x :: x in r <==>
              exists i :: 0 <= i < |items| && (stringValue(items[i]).err != 0) == acceptFailures && stringValue(items[i]).s == x
    decreases |items|
  {
    if items == [] then {}
    else
      var init := items[..|items| - 1];
      var last := stringValue(items[|items| - 1]);
      assert forall i :: 0 <= i < |init| ==> init[i] == items[i];
      Collected(init, stringValue, acceptFailures) + (if (last.err != 0) == acceptFailures then {last.s} else {})
  }

  /** The `ignoredDirectories` entry when it is an array. */
  function DirectoryArray(conf: Value): Option<seq<Value>> {
    var dirs := Get(conf, "ignoredDirectories");
    if dirs.Some? && dirs.value.Arr? then Some(dirs.value.items) else None
  }

  /**
   * `configure` as written: `get(...) && stringValue(...)` holds when the
   * conversion FAILS, and `!stringValue(...)` skips the elements that
   * converted.
   */
  function ConfiguredAsWritten(conf: Value, prior: Settings, stringValue: Value -> StringValue): (r: Settings)
    ensures Get(conf, "rootPath").Some? && stringValue(Get(conf, "rootPath").value).err == 0 ==> r.rootPath == prior.rootPath
    ensures DirectoryArray(conf).Some? ==>
              forall x :: x in r.ignoredDirectories ==>
                exists i :: 0 <= i < |DirectoryArray(conf).value| && stringValue(DirectoryArray(conf).value[i]).err != 0
  {
    var root := Get(conf, "rootPath");
    var rootPath := if root.Some? && stringValue(root.value).err != 0 then stringValue(root.value).s else prior.rootPath;
    var dirs := DirectoryArray(conf);
    var ignored := if dirs.Some? then Collected(dirs.value, stringValue, true) else prior.ignoredDirectories;
    Settings(rootPath, ignored)
  }

  /**
   * `configure` as intended: `rootPath` is replaced only by a value that
   * converts; an `ignoredDirectories` array replaces the set (no merging)
   * by the elements that convert; anything else keeps the prior set.
   */
  function Configured(conf: Value, prior: Settings, stringValue: Value -> StringValue): (r: Settings)
    ensures r.rootPath != prior.rootPath ==>
              Get(conf, "rootPath").Some? && stringValue(Get(conf, "rootPath").value) == StringValue(0, r.rootPath)
    ensures Get(conf, "rootPath").Some? && stringValue(Get(conf, "rootPath").value).err == 0 ==>
              r.rootPath == stringValue(Get(conf, "rootPath").value).s
    ensures DirectoryArray(conf).None? ==> r.ignoredDirectories == prior.ignoredDirectories
    ensures DirectoryArray(conf).Some? ==>
              forall x :: x in r.ignoredDirectories <==>
                exists i :: 0 <= i < |DirectoryArray(conf).value| && stringValue(DirectoryArray(conf).value[i]) == StringValue(0, x)
  {
    var root := Get(conf, "rootPath");
    var rootPath := if root.Some? && stringValue(root.value).err == 0 then stringValue(root.value).s else prior.rootPath;
    var dirs := DirectoryArray(conf);
    var ignored := if dirs.Some? then Collected(dirs.value, stringValue, false) else prior.ignoredDirectories;
    Settings(rootPath, ignored)
  }

  /** A string `rootPath` is taken. */
  lemma StringRootPathTaken(fields: map<string, Value>, prior: Settings, stringValue: Value -> StringValue)
    requires ConvertsStrings(stringValue)
    requires "rootPath" in fields && fields["rootPath"].Str?
    ensures Configured(Obj(fields), prior, stringValue).rootPath == fields["rootPath"].s
  {
    assert stringValue(Str(fields["rootPath"].s)) == StringValue(0, fields["rootPath"].s);
  }

  /** A conversion used by the examples below: strings convert, nothing else does. */
  function StringsOnly(v: Value): StringValue {
    if v.Str? then StringValue(0, v.s) else StringValue(1, "")
  }

  /** As written, a configured `rootPath` is ignored; as intended, it is taken. */
  lemma AsWrittenIgnoresRootPath()
    ensures var conf := Obj(map["rootPath" := Str("/media/usb")]);
            && ConfiguredAsWritten(conf, Defaults, StringsOnly).rootPath == DefaultRootPath
            && Configured(conf, Defaults, StringsOnly).rootPath == "/media/usb"
  {
    var conf := Obj(map["rootPath" := Str("/media/usb")]);
    assert Get(conf, "rootPath") == Some(Str("/media/usb"));
  }

  /** As written, a configured array of strings empties the ignored set. */
  lemma AsWrittenEmptiesIgnoredSet()
    ensures var conf := Obj(map["ignoredDirectories" := Arr([Str("/media/internal/.cache")])]);
            && ConfiguredAsWritten(conf, Defaults, StringsOnly).ignoredDirectories == {}
            && Configured(conf, Defaults, StringsOnly).ignoredDirectories == {"/media/internal/.cache"}
  {
    var conf := Obj(map["ignoredDirectories" := Arr([Str("/media/internal/.cache")])]);
    assert Get(conf, "ignoredDirectories") == Some(Arr([Str("/media/internal/.cache")]));
    var items := [Str("/media/internal/.cache")];
    assert DirectoryArray(conf) == Some(items);
    assert items[..0] == [];
  }

  /** The loop of `configure` over the array: the elements whose conversion succeeds. */
  method StringsOf(items: seq<Value>, stringValue: Value -> StringValue) returns (dirs: set<string>)
    ensures dirs == Collected(items, stringValue, false)
  {
    dirs := {};
    var n := 0;
    while n < |items|
      invariant 0 <= n <= |items|
      invariant dirs == Collected(items[..n], stringValue, false)
    {
      assert items[..n + 1][..n] == items[..n];
      var directory := stringValue(items[n]);
      if directory.err == 0 {
        dirs := dirs + {directory.s};
      }
      n := n + 1;
    }
    assert items[..|items|] == items;
  }

  class MediaScannerServiceApp {
    var rootPath: string
    var ignoredDirectories: set<string>

    function Current(): Settings
      reads this
    {
      Settings(rootPath, ignoredDirectories)
    }

    constructor ()
      ensures Current() == Defaults
    {
      rootPath := DefaultRootPath;
      ignoredDirectories := DefaultIgnoredDirectories;
    }

    /**
     * `configure` after the base class's own configuration, whose error
     * `baseErr` is returned before anything is read.
     */
    method Configure(conf: Value, baseErr: int, stringValue: Value -> StringValue) returns (err: int)
      modifies this
      ensures err == baseErr
      ensures baseErr != 0 ==> Current() == old(Current())
      ensures baseErr == 0 ==> Current() == Configured(conf, old(Current()), stringValue)
    {
      if baseErr != 0 {
        return baseErr;
      }
      var root := Get(conf, "rootPath");
      if root.Some? && stringValue(root.value).err == 0 {
        rootPath := stringValue(root.value).s;
      }
      var dirs := DirectoryArray(conf);
      if dirs.Some? {
        ignoredDirectories := StringsOf(dirs.value, stringValue);
      }
      return 0;
    }
  }
}
