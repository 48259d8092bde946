/** Configuration records, their defaults, and the steps that load them
    (internal/config/config.go). TOML and JSON decoding are outside the model:
    the decoded document is an input. */
module Config {
  import opened Outcomes

  datatype AIToolSettings = AIToolSettings(generate: bool, path: string, fileName: string)

  datatype AppSettings = AppSettings(language: string)

  datatype Settings = Settings(
    app: AppSettings,
    claude: AIToolSettings,
    cline: AIToolSettings,
    custom: map<string, AIToolSettings>)

  /** `settings` is None for a nil *Settings: the legacy output mode. */
  datatype Config = Config(
    inputDir: string,
    outputFiles: seq<string>,
    excludeFiles: seq<string>,
    header: string,
    footer: string,
    settings: Option<Settings>)

  const ClaudeFileName: string := "CLAUDE.md"
  const ClineFileName: string := ".clinerules"

  /** What the decoder made of a configuration file: the file does not exist,
      it decoded to a value, or it could not be read or decoded. */
  datatype Decoded<T> = Missing | Decoded(value: T) | Undecodable

  /** The fields present in a JSON config document; absent ones are None.
      `Settings` is tagged json:"-" and never decoded. */
  datatype ConfigJson = ConfigJson(
    inputDir: Option<string>,
    outputFiles: Option<seq<string>>,
    excludeFiles: Option<seq<string>>,
    header: Option<string>,
    footer: Option<string>)

  /** DefaultSettings: both built-in tools generate at the working directory
      under their usual file names; no custom tools; no language. */
  function DefaultSettings(): (s: Settings)
    ensures s.claude == AIToolSettings(true, "", ClaudeFileName)
    ensures s.cline == AIToolSettings(true, "", ClineFileName)
    ensures s.custom == map[] && s.app.language == ""
  {
    Settings(
      AppSettings(""),
      AIToolSettings(true, "", "CLAUDE.md"),
      AIToolSettings(true, "", ".clinerules"),
      map[])
  }

  /** DefaultConfig: legacy mode (no Settings) writing the two usual files. */
  function DefaultConfig(): (c: Config)
    ensures c.inputDir == ".system_prompt"
    ensures c.outputFiles == [ClaudeFileName, ClineFileName]
    ensures c.excludeFiles == [] && c.footer == ""
    ensures c.header == "# System Prompt\n\n"
    ensures c.settings == None
  {
    Config(".system_prompt", ["CLAUDE.md", ".clinerules"], [], "# System Prompt\n\n", "", None)
  }

  /** The default-fill LoadSettings applies after decoding: an empty file name
      becomes the tool's default, a given one is kept, and nothing else changes. */
  function WithDefaultFileNames(s: Settings): (r: Settings)
    ensures r.claude.fileName != "" && r.cline.fileName != ""
    ensures s.claude.fileName != "" ==> r.claude.fileName == s.claude.fileName
    ensures s.cline.fileName != "" ==> r.cline.fileName == s.cline.fileName
    ensures s.claude.fileName == "" ==> r.claude.fileName == ClaudeFileName
    ensures s.cline.fileName == "" ==> r.cline.fileName == ClineFileName
    ensures r.claude.generate == s.claude.generate && r.claude.path == s.claude.path
    ensures r.cline.generate == s.cline.generate && r.cline.path == s.cline.path
    ensures r.custom == s.custom && r.app == s.app
  {
    var claude := if s.claude.fileName == "" then s.claude.(fileName := ClaudeFileName) else s.claude;
    var cline := if s.cline.fileName == "" then s.cline.(fileName := ClineFileName) else s.cline;
    s.(claude := claude, cline := cline)
  }

  /** Filling the defaults twice is the same as filling them once. */
  lemma WithDefaultFileNamesIdempotent(s: Settings)
    ensures WithDefaultFileNames(WithDefaultFileNames(s)) == WithDefaultFileNames(s)
  {
  }

  /** The default settings already carry both file names. */
  lemma DefaultSettingsAreFilled()
    ensures WithDefaultFileNames(DefaultSettings()) == DefaultSettings()
  {
  }

  /** LoadSettings: a missing file gives the defaults, an undecodable one an
      error, a decoded one its value with the file names filled in. */
  method LoadSettings(path: string, file: Decoded<Settings>) returns (r: Result<Settings>)
    ensures file.Missing? ==> r == Ok(DefaultSettings())
    ensures file.Undecodable? ==> r == Err(DecodeFailed(path))
    ensures file.Decoded? ==> r == Ok(WithDefaultFileNames(file.value))
    ensures r.Ok? ==> r.value.claude.fileName != "" && r.value.cline.fileName != ""
  {
    if file.Missing? {
      return Ok(DefaultSettings());
    }
    if file.Undecodable? {
      return Err(DecodeFailed(path));
    }
    var settings := file.value;
    if settings.claude.fileName == "" {
      settings := settings.(claude := settings.claude.(fileName := ClaudeFileName));
    }
    if settings.cline.fileName == "" {
      settings := settings.(cline := settings.cline.(fileName := ClineFileName));
    }
    return Ok(settings);
  }

  /** json.Unmarshal into a DefaultConfig(): fields present in the document
      replace the defaults, absent ones keep them. */
  function UnmarshalOver(c: Config, j: ConfigJson): (r: Config)
    ensures j.inputDir.None? ==> r.inputDir == c.inputDir
    ensures j.inputDir.Some? ==> r.inputDir == j.inputDir.value
    ensures j.outputFiles.None? ==> r.outputFiles == c.outputFiles
    ensures j.outputFiles.Some? ==> r.outputFiles == j.outputFiles.value
    ensures j.excludeFiles.None? ==> r.excludeFiles == c.excludeFiles
    ensures j.excludeFiles.Some? ==> r.excludeFiles == j.excludeFiles.value
    ensures j.header.None? ==> r.header == c.header
    ensures j.header.Some? ==> r.header == j.header.value
    ensures j.footer.None? ==> r.footer == c.footer
    ensures j.footer.Some? ==> r.footer == j.footer.value
    ensures j == ConfigJson(None, None, None, None, None) ==> r == c
    ensures r.settings == c.settings
  {
    Config(
      if j.inputDir.Some? then j.inputDir.value else c.inputDir,
      if j.outputFiles.Some? then j.outputFiles.value else c.outputFiles,
      if j.excludeFiles.Some? then j.excludeFiles.value else c.excludeFiles,
      if j.header.Some? then j.header.value else c.header,
      if j.footer.Some? then j.footer.value else c.footer,
      c.settings)
  }

  /** LoadConfig: a missing file gives DefaultConfig(); the result never has
      Settings, since they are not part of the JSON document. */
  function LoadConfig(path: string, file: Decoded<ConfigJson>): (r: Result<Config>)
    ensures file.Missing? ==> r == Ok(DefaultConfig())
    ensures file.Undecodable? ==> r == Err(DecodeFailed(path))
    ensures file.Decoded? ==> r == Ok(UnmarshalOver(DefaultConfig(), file.value))
    ensures r.Ok? ==> r.value.settings == None
  {
    match file
    case Missing => Ok(DefaultConfig())
    case Undecodable => Err(DecodeFailed(path))
    case Decoded(j) => Ok(UnmarshalOver(DefaultConfig(), j))
  }

  /** A decoded document that leaves fields out gets the defaults for them. */
  lemma LoadConfigDefaultsMissingFields(path: string, j: ConfigJson)
    ensures LoadConfig(path, Decoded(j)).Ok?
    ensures j.inputDir.None? ==> LoadConfig(path, Decoded(j)).value.inputDir == ".system_prompt"
    ensures j.outputFiles.None? ==> LoadConfig(path, Decoded(j)).value.outputFiles == [ClaudeFileName, ClineFileName]
    ensures j.excludeFiles.None? ==> LoadConfig(path, Decoded(j)).value.excludeFiles == []
    ensures j.header.None? ==> LoadConfig(path, Decoded(j)).value.header == "# System Prompt\n\n"
    ensures j.footer.None? ==> LoadConfig(path, Decoded(j)).value.footer == ""
  {
  }

  /** LoadConfigWithSettings: fails with the first failing load; otherwise the
      loaded config with Settings set to the loaded settings. */
  method LoadConfigWithSettings(configPath: string, configFile: Decoded<ConfigJson>,
                                settingsPath: string, settingsFile: Decoded<Settings>)
    returns (r: Result<Config>)
    ensures LoadConfig(configPath, configFile).Err? ==> r == LoadConfig(configPath, configFile)
    ensures r.Ok? <==> LoadConfig(configPath, configFile).Ok? && !settingsFile.Undecodable?
    ensures r.Ok? ==>
      && r.value.settings.Some?
      && r.value == LoadConfig(configPath, configFile).value.(settings := r.value.settings)
      && r.value.settings.value.claude.fileName != "" && r.value.settings.value.cline.fileName != ""
    ensures configFile.Undecodable? ==> r == Err(DecodeFailed(configPath))
    ensures !configFile.Undecodable? && settingsFile.Undecodable? ==> r == Err(DecodeFailed(settingsPath))
    ensures r.Ok? && settingsFile.Missing? ==> r.value.settings == Some(DefaultSettings())
    ensures r.Ok? && settingsFile.Decoded? ==> r.value.settings == Some(WithDefaultFileNames(settingsFile.value))
  {
    var config := LoadConfig(configPath, configFile);
    if config.Err? {
      return Err(config.error);
    }
    var settings := LoadSettings(settingsPath, settingsFile);
    if settings.Err? {
      return Err(settings.error);
    }
    var c := config.value;
    c := c.(settings := Some(settings.value));
    return Ok(c);
  }
}
