/**
 * Where the program keeps its files: a home directory under the user's
 * pictures folder, three sub-directories, and the configuration file whose
 * name is kept in step with the chosen name and format. The user's home
 * directory is a parameter; creating directories and files is not modelled.
 */
module PathConfig {
  import opened Wrappers
  import opened ConfigFormat

  /** The crate's package name, from which the home directory's title is made. */
  const PACKAGE_NAME: string := "wallter"
  const DEFAULT_CONFIG_NAME: string := "config"

  function AsciiUpperChar(c: char): (u: char)
    ensures 'a' <= c <= 'z' ==> u == c - 'a' + 'A'
    ensures !('a' <= c <= 'z') ==> u == c
  {
    if 'a' <= c <= 'z' then c - 'a' + 'A' else c
  }

  /** The first character upper-cased, the rest kept. */
  function Capitalize(name: string): (t: string)
    requires |name| > 0
    ensures |t| == |name| && t[0] == AsciiUpperChar(name[0]) && t[1..] == name[1..]
  {
    [AsciiUpperChar(name[0])] + name[1..]
  }

  /** `Path::join` with one more component. */
  function Join(dir: Path, name: string): (p: Path)
    ensures |p| == |dir| + 1 && p[..|dir|] == dir && p[|dir|] == name
  {
    dir + [name]
  }

  /** The home directory: the user's "Pictures" folder, then the capitalised package name. */
  function HomeDir(userHome: Path): (home: Path)
    ensures home == userHome + ["Pictures", "Wallter"]
  {
    assert Capitalize(PACKAGE_NAME) == "Wallter";
    Join(Join(userHome, "Pictures"), Capitalize(PACKAGE_NAME))
  }

  /** The configuration file: `<home>/<name>.<extension>`. */
  function ConfigFilePath(home: Path, name: string, format: Format): (p: Path)
    ensures |p| == |home| + 1 && p[..|home|] == home
    ensures |p[|home|]| > |name| && p[|home|][..|name|] == name && p[|home|][|name|] == '.'
  {
    Join(home, name + "." + Extension(format))
  }

  class Config {
    var homeDir: Path
    var downloadsDir: Path
    var favoritesDir: Path
    var wallpaperDir: Path
    var configName: string
    var configType: Format
    var configFile: Path

    /** The configuration file path matches the name and format. */
    predicate Valid()
      reads this
    {
      configFile == ConfigFilePath(homeDir, configName, configType)
    }

    /** `Default`/`new`, with the user's home directory given. */
    constructor (userHome: Path)
      ensures homeDir == userHome + ["Pictures", "Wallter"]
      ensures downloadsDir == homeDir + ["downloads"]
      ensures favoritesDir == homeDir + ["favorites"]
      ensures wallpaperDir == homeDir + ["wallpaper"]
      ensures configName == DEFAULT_CONFIG_NAME && configType == Toml
      ensures configFile == homeDir + ["config.toml"]
      ensures Valid()
    {
      var home := HomeDir(userHome);
      homeDir := home;
      downloadsDir := Join(home, "downloads");
      favoritesDir := Join(home, "favorites");
      wallpaperDir := Join(home, "wallpaper");
      configName := DEFAULT_CONFIG_NAME;
      configType := DefaultFormat();
      configFile := Join(home, DEFAULT_CONFIG_NAME + "." + Extension(DefaultFormat()));
      assert DEFAULT_CONFIG_NAME + "." + Extension(DefaultFormat()) == "config.toml";
    }

    /** `update_config_file`: recomputes the file path from the name and format. */
    method UpdateConfigFile()
      modifies this
      ensures Valid()
      ensures homeDir == old(homeDir) && downloadsDir == old(downloadsDir)
      ensures favoritesDir == old(favoritesDir) && wallpaperDir == old(wallpaperDir)
      ensures configName == old(configName) && configType == old(configType)
    {
      configFile := Join(homeDir, configName + "." + Extension(configType));
    }

    /** `with_config_name`: a new name, the same format, the file path following. */
    method WithConfigName(name: string)
      modifies this
      ensures configName == name && configType == old(configType)
      ensures Valid()
      ensures homeDir == old(homeDir) && downloadsDir == old(downloadsDir)
      ensures favoritesDir == old(favoritesDir) && wallpaperDir == old(wallpaperDir)
    {
      configName := name;
      UpdateConfigFile();
    }

    /** `with_type`: a new format, the same name, the file path following. */
    method WithType(format: Format)
      modifies this
      ensures configType == format && configName == old(configName)
      ensures Valid()
      ensures homeDir == old(homeDir) && downloadsDir == old(downloadsDir)
      ensures favoritesDir == old(favoritesDir) && wallpaperDir == old(wallpaperDir)
    {
      configType := format;
      UpdateConfigFile();
    }
  }

  /**
   * The configuration file's own extension names its format again, for any
   * name other than "" (an empty name gives the hidden file ".toml",
   * which has no extension).
   */
  lemma ConfigFileNamesItsFormat(home: Path, name: string, format: Format)
    requires name != ""
    ensures FromExtension(ConfigFilePath(home, name, format)) == Success(format)
  {
    FromExtensionRoundTrip(home, name, format);
  }

  /** With an empty name the configuration file is ".toml" or ".json", which has no extension. */
  lemma EmptyNameHasNoFormat(home: Path, format: Format)
    ensures FromExtension(ConfigFilePath(home, "", format)).Failure?
  {
    LastDotOfSuffix("", Extension(format));
  }
}
