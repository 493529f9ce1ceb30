/** The settings store: a JSON document of settings with a fixed default
    table, backfilled on load and replaced by the defaults when it is missing
    or cannot be read as an object. */
module Config {

  /** A JSON value. `Float` carries the opacity; nothing computes with it. */
  datatype Value =
    | Null
    | Bool(b: bool)
    | Int(i: int)
    | Float(f: real)
    | Str(s: string)
    | List(items: seq<Value>)
    | Object(fields: map<string, Value>)

  /** A settings document: the top-level JSON object. */
  type Settings = map<string, Value>

  /** The durable state of the configuration file. `Corrupt` is content that
      is not JSON, or JSON that is not an object. */
  datatype ConfigFile = Missing | Corrupt | Stored(settings: Settings)

  /** What one `load_settings` call returns and whether it wrote the file. */
  datatype LoadOutcome = LoadOutcome(settings: Settings, written: bool)

  /** `get_default_settings`: the default table. */
  function DefaultSettings(): (d: Settings)
    ensures |d| == 10
    ensures "progress" in d && d["progress"] == Object(map[])
    ensures "lines_per_page" in d && d["lines_per_page"] == Int(10)
    ensures "chars_per_line" in d && d["chars_per_line"] == Int(40)
    ensures "minimize_hotkey" in d && d["minimize_hotkey"] == Str("<ctrl>+m")
    ensures "close_hotkey" in d && d["close_hotkey"] == Str("<alt>+q")
    ensures "paging_hotkey" in d && d["paging_hotkey"] == Str("← 和 →")
  {
    map[
      "font_size" := Int(14),
      "font_color" := Str("#FFFFFF"),
      "background_color" := Str("#000000"),
      "opacity" := Float(0.7),
      "lines_per_page" := Int(10),
      "chars_per_line" := Int(40),
      "minimize_hotkey" := Str("<ctrl>+m"),
      "close_hotkey" := Str("<alt>+q"),
      "paging_hotkey" := Str("← 和 →"),
      "progress" := Object(map[])
    ]
  }

  /** `stored` with every key of `defaults` it lacks added with its default value. */
  function Backfill(stored: Settings, defaults: Settings): (r: Settings)
    ensures r.Keys == stored.Keys + defaults.Keys
    ensures forall k :: k in stored ==> r[k] == stored[k]
    ensures forall k :: k in defaults && k !in stored ==> r[k] == defaults[k]
  {
    map k | k in stored.Keys + defaults.Keys :: if k in stored then stored[k] else defaults[k]
  }

  /** The entries of `m` whose keys are in `keys`. */
  function Restrict(m: Settings, keys: set<string>): Settings
  {
    map k | k in m && k in keys :: m[k]
  }

  /** What `load_settings` returns for a given file, and whether it writes. */
  function Load(file: ConfigFile): (r: LoadOutcome)
    ensures DefaultSettings().Keys <= r.settings.Keys
    ensures !file.Stored? ==> r.settings == DefaultSettings()
    ensures file.Stored? ==> r.settings.Keys == file.settings.Keys + DefaultSettings().Keys
    ensures file.Stored? ==> forall k :: k in file.settings ==> r.settings[k] == file.settings[k]
    ensures forall k :: k in r.settings && (!file.Stored? || k !in file.settings) ==> r.settings[k] == DefaultSettings()[k]
    ensures r.written <==> !(file.Stored? && DefaultSettings().Keys <= file.settings.Keys)
  {
    match file
    case Missing => LoadOutcome(DefaultSettings(), true)
    case Corrupt => LoadOutcome(DefaultSettings(), true)
    case Stored(stored) =>
      LoadOutcome(Backfill(stored, DefaultSettings()), !(DefaultSettings().Keys <= stored.Keys))
  }

  /** The file after a load: written with the returned settings, or untouched. */
  function FileAfterLoad(file: ConfigFile): (after: ConfigFile)
    ensures after == Stored(Load(file).settings)
  {
    var r := Load(file);
    if r.written then Stored(r.settings)
    else
      assert r.settings == file.settings;
      file
  }

  /** Loading twice: the second load writes nothing and returns the same settings. */
  lemma LoadTwiceIsStable(file: ConfigFile)
    ensures Load(FileAfterLoad(file)) == LoadOutcome(Load(file).settings, false)
  {
    var first := Load(file).settings;
    assert Backfill(first, DefaultSettings()) == first;
  }

  /** The loop of `load_settings`: every key of `defaults` missing from
      `stored` is added with its default value, and `isUpdated` records whether
      any was missing. */
  method FillMissing(stored: Settings, defaults: Settings) returns (settings: Settings, isUpdated: bool)
    ensures settings.Keys == stored.Keys + defaults.Keys
    ensures forall k :: k in stored ==> settings[k] == stored[k]
    ensures forall k :: k in defaults && k !in stored ==> settings[k] == defaults[k]
    ensures isUpdated <==> !(defaults.Keys <= stored.Keys)
    ensures settings == Backfill(stored, defaults)
  {
    settings := stored;
    isUpdated := false;
    var remaining := defaults.Keys;
    while remaining != {}
      invariant remaining <= defaults.Keys
      invariant settings == Backfill(stored, Restrict(defaults, defaults.Keys - remaining))
      invariant isUpdated <==> !(defaults.Keys - remaining <= stored.Keys)
      decreases remaining
    {
      var key :| key in remaining;
      if key !in settings {
        settings := settings[key := defaults[key]];
        isUpdated := true;
      }
      remaining := remaining - {key};
    }
    assert Restrict(defaults, defaults.Keys) == defaults;
  }

  /** The configuration file and the handler that reads and writes it. */
  class ConfigHandler {
    var file: ConfigFile
    /** How many times the file has been written. */
    ghost var writes: nat

    constructor (file: ConfigFile)
      ensures this.file == file && writes == 0
    {
      this.file := file;
      writes := 0;
    }

    /** `save_settings`: the file now holds exactly `settings`. */
    method SaveSettings(settings: Settings)
      modifies this
      ensures file == Stored(settings)
      ensures writes == old(writes) + 1
    {
      file := Stored(settings);
      writes := writes + 1;
    }

    /** `load_settings`: defaults for a missing or corrupt file (and saved),
        otherwise the stored settings with missing default keys filled in,
        saved only when something was filled in. */
    method LoadSettings() returns (settings: Settings)
      modifies this
      ensures settings == Load(old(file)).settings
      ensures file == Stored(settings)
      ensures writes == old(writes) + (if Load(old(file)).written then 1 else 0)
    {
      if file.Missing? || file.Corrupt? {
        var defaults := DefaultSettings();
        SaveSettings(defaults);
        return defaults;
      }
      var stored := file.settings;
      var isUpdated;
      settings, isUpdated := FillMissing(stored, DefaultSettings());
      if isUpdated {
        SaveSettings(settings);
      }
    }
  }
}
