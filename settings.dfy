/** The settings store of `core/settings.py`: a user file and a system file
    of JSON objects, with defaults written on first run, a migration that
    adds `model_paths`, and setters that persist on every change. */
module Settings {
  import opened Common

  /** The JSON values the settings hold. */
  datatype Json = JStr(s: string) | JInt(i: int) | JBool(b: bool) | JList(items: seq<Json>) | JNull

  type Config = map<string, Json>

  /** A settings file on disk: absent, present but not a readable JSON object, or stored. */
  datatype ConfigFile = NoFile | Garbled | Saved(config: Config)

  const DefaultUser: Config := map[
    "username" := JStr("User"),
    "theme" := JStr("dark"),
    "persona" := JStr("You are Erika, a helpful and intelligent AI assistant.")]

  /** The system defaults; `modelPaths` holds `~/.ollama/models` when that directory exists. */
  function DefaultSystem(modelPaths: seq<Json>): (c: Config)
    ensures c.Keys == {"ollama_url", "model", "context_window", "model_paths"}
    ensures c["model"] == JStr("llama3") && c["context_window"] == JInt(8192)
  {
    map["ollama_url" := JStr("http://localhost:11434"),
        "model" := JStr("llama3"),
        "context_window" := JInt(8192),
        "model_paths" := JList(modelPaths)]
  }

  /** `[default_path] if os.path.exists(default_path) else []`. */
  function ModelPaths(ollamaModelsDir: Option<string>): (paths: seq<Json>)
    ensures |paths| <= 1
    ensures ollamaModelsDir.Some? <==> |paths| == 1
  {
    match ollamaModelsDir
    case Some(p) => [JStr(p)]
    case None => []
  }

  /** `_ensure_defaults` for one file: only a missing file is written. */
  function EnsureDefaults(f: ConfigFile, defaults: Config): (r: ConfigFile)
    ensures f.NoFile? ==> r == Saved(defaults)
    ensures !f.NoFile? ==> r == f
  {
    if f.NoFile? then Saved(defaults) else f
  }

  /** `_load_file`: any read or parse failure gives the empty config. */
  function LoadFile(f: ConfigFile): (c: Config)
    ensures f.Saved? ==> c == f.config
    ensures !f.Saved? ==> c == map[]
  {
    match f
    case Saved(c) => c
    case _ => map[]
  }

  /** The migration: adds `model_paths` when it is missing, touching nothing else. */
  function Migrate(sys: Config, paths: seq<Json>): (c: Config)
    ensures "model_paths" in c
    ensures "model_paths" in sys ==> c == sys
    ensures "model_paths" !in sys ==> c == sys["model_paths" := JList(paths)]
  {
    if "model_paths" in sys then sys else sys["model_paths" := JList(paths)]
  }

  /** On a first run both default configs are written and loaded back, and the
      migration finds nothing to do. */
  lemma FirstRunLoadsDefaults(paths: seq<Json>)
    ensures LoadFile(EnsureDefaults(NoFile, DefaultUser)) == DefaultUser
    ensures Migrate(LoadFile(EnsureDefaults(NoFile, DefaultSystem(paths))), paths) == DefaultSystem(paths)
  {
  }

  /** A system file that cannot be read loads as `{}` and is then overwritten
      with a config holding only `model_paths`: the other system defaults are lost. */
  lemma GarbledSystemFileLosesDefaults(paths: seq<Json>)
    ensures Migrate(LoadFile(EnsureDefaults(Garbled, DefaultSystem(paths))), paths)
            == map["model_paths" := JList(paths)]
  {
  }

  /** `config.get(key, default)`. */
  function Lookup(c: Config, key: string, default: Json): (v: Json)
    ensures key in c ==> v == c[key]
    ensures key !in c ==> v == default
  {
    if key in c then c[key] else default
  }

  class SettingsManager {
    var userConfig: Config
    var sysConfig: Config
    /** The two files on disk. */
    var userFile: ConfigFile
    var sysFile: ConfigFile

    /** `__init__`: write missing defaults, load both files, migrate the system config. */
    constructor(userOnDisk: ConfigFile, sysOnDisk: ConfigFile, ollamaModelsDir: Option<string>)
      ensures userFile == EnsureDefaults(userOnDisk, DefaultUser)
      ensures userConfig == LoadFile(userFile)
      ensures sysConfig == Migrate(LoadFile(EnsureDefaults(sysOnDisk, DefaultSystem(ModelPaths(ollamaModelsDir)))),
                                   ModelPaths(ollamaModelsDir))
      ensures "model_paths" in sysConfig
      ensures sysFile == if "model_paths" in LoadFile(EnsureDefaults(sysOnDisk, DefaultSystem(ModelPaths(ollamaModelsDir))))
                         then EnsureDefaults(sysOnDisk, DefaultSystem(ModelPaths(ollamaModelsDir)))
                         else Saved(sysConfig)
    {
      var paths := ModelPaths(ollamaModelsDir);
      var user := EnsureDefaults(userOnDisk, DefaultUser);
      var sys := EnsureDefaults(sysOnDisk, DefaultSystem(paths));
      var loaded := LoadFile(sys);
      userFile := user;
      userConfig := LoadFile(user);
      sysFile := sys;
      sysConfig := loaded;
      if "model_paths" !in loaded {
        sysConfig := loaded["model_paths" := JList(paths)];
        sysFile := Saved(loaded["model_paths" := JList(paths)]);
      }
    }

    /** `get_user_setting`. */
    function GetUserSetting(key: string, default: Json): (v: Json)
      reads this
      ensures key in userConfig ==> v == userConfig[key]
      ensures key !in userConfig ==> v == default
    {
      Lookup(userConfig, key, default)
    }

    /** `get_system_setting`. */
    function GetSystemSetting(key: string, default: Json): (v: Json)
      reads this
      ensures key in sysConfig ==> v == sysConfig[key]
      ensures key !in sysConfig ==> v == default
    {
      Lookup(sysConfig, key, default)
    }

    /** `set_user_setting`: the new value is read back, every other key keeps
        its value, and the file holds the in-memory config. `writeFails` is
        `_save_file` raising: the in-memory config is already updated, and the
        file keeps its old content. */
    method SetUserSetting(key: string, value: Json, writeFails: bool) returns (raised: bool)
      modifies this
      ensures forall d :: GetUserSetting(key, d) == value
      ensures forall k :: k != key ==> (k in userConfig <==> k in old(userConfig))
      ensures forall k :: k != key && k in userConfig ==> userConfig[k] == old(userConfig)[k]
      ensures raised == writeFails
      ensures userFile == if writeFails then old(userFile) else Saved(userConfig)
      ensures sysConfig == old(sysConfig) && sysFile == old(sysFile)
    {
      userConfig := userConfig[key := value];
      raised := writeFails;
      if !writeFails {
        userFile := Saved(userConfig);
      }
    }

    /** `set_system_setting`. */
    method SetSystemSetting(key: string, value: Json, writeFails: bool) returns (raised: bool)
      modifies this
      ensures forall d :: GetSystemSetting(key, d) == value
      ensures forall k :: k != key ==> (k in sysConfig <==> k in old(sysConfig))
      ensures forall k :: k != key && k in sysConfig ==> sysConfig[k] == old(sysConfig)[k]
      ensures raised == writeFails
      ensures sysFile == if writeFails then old(sysFile) else Saved(sysConfig)
      ensures userConfig == old(userConfig) && userFile == old(userFile)
    {
      sysConfig := sysConfig[key := value];
      raised := writeFails;
      if !writeFails {
        sysFile := Saved(sysConfig);
      }
    }

    /** `save_user_settings`: `dict.update`, new keys win, absent keys are kept. */
    method SaveUserSettings(newConfig: Config, writeFails: bool) returns (raised: bool)
      modifies this
      ensures userConfig.Keys == old(userConfig).Keys + newConfig.Keys
      ensures forall k :: k in newConfig ==> userConfig[k] == newConfig[k]
      ensures forall k :: k in old(userConfig) && k !in newConfig ==> userConfig[k] == old(userConfig)[k]
      ensures raised == writeFails
      ensures userFile == if writeFails then old(userFile) else Saved(userConfig)
      ensures sysConfig == old(sysConfig) && sysFile == old(sysFile)
    {
      userConfig := userConfig + newConfig;
      raised := writeFails;
      if !writeFails {
        userFile := Saved(userConfig);
      }
    }

    /** `save_system_settings`. */
    method SaveSystemSettings(newConfig: Config, writeFails: bool) returns (raised: bool)
      modifies this
      ensures sysConfig.Keys == old(sysConfig).Keys + newConfig.Keys
      ensures forall k :: k in newConfig ==> sysConfig[k] == newConfig[k]
      ensures forall k :: k in old(sysConfig) && k !in newConfig ==> sysConfig[k] == old(sysConfig)[k]
      ensures raised == writeFails
      ensures sysFile == if writeFails then old(sysFile) else Saved(sysConfig)
      ensures userConfig == old(userConfig) && userFile == old(userFile)
    {
      sysConfig := sysConfig + newConfig;
      raised := writeFails;
      if !writeFails {
        sysFile := Saved(sysConfig);
      }
    }
  }
}
