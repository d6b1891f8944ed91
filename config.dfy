/** The configuration the pipeline reads (config.py), as one value so that every stage can be
    stated for any settings; DEFAULTS holds the repository's values. */
module Config {
  import opened Files

  datatype Settings = Settings(
    configDir: string,
    layoutConfig: string,
    screenshotsDir: string,
    scrollCount: nat,
    scrollWaitMs: nat,
    mediaTimeoutMs: nat)

  const CONFIG_DIR := "config"

  const DEFAULTS: Settings := Settings(
    CONFIG_DIR,
    Join(CONFIG_DIR, "layout.json"),
    Join(CONFIG_DIR, "screenshots"),
    5,
    1100,
    5000)

  /** The fixed settle wait before the screenshot (not configurable in the source). */
  const SETTLE_MS: nat := 2000

  /** Where the inference result is stored. */
  function SelectorsPath(cfg: Settings): string
  {
    Join(cfg.configDir, "layout_selectors.json")
  }

  /** With the repository's settings the snapshot, the inference result and the screenshot
      directory are three different paths, all directly inside the configuration directory. */
  lemma DefaultPathsDistinct()
    ensures DirPrefix(CONFIG_DIR) == "config/"
    ensures DEFAULTS.layoutConfig == DirPrefix(CONFIG_DIR) + "layout.json"
    ensures SelectorsPath(DEFAULTS) == DirPrefix(CONFIG_DIR) + "layout_selectors.json"
    ensures DEFAULTS.screenshotsDir == DirPrefix(CONFIG_DIR) + "screenshots"
    ensures DEFAULTS.layoutConfig != SelectorsPath(DEFAULTS)
    ensures DEFAULTS.layoutConfig != DEFAULTS.screenshotsDir
    ensures SelectorsPath(DEFAULTS) != DEFAULTS.screenshotsDir
  {
    assert CONFIG_DIR[|CONFIG_DIR| - 1] == 'g';
    JoinRelative(CONFIG_DIR, "layout.json");
    JoinRelative(CONFIG_DIR, "layout_selectors.json");
    JoinRelative(CONFIG_DIR, "screenshots");
    assert (DirPrefix(CONFIG_DIR) + "layout.json")[7] == 'l';
    assert (DirPrefix(CONFIG_DIR) + "screenshots")[7] == 's';
  }

  /** `os.path.join` onto a relative name puts it under the directory. */
  lemma JoinRelative(dir: string, name: string)
    requires |name| > 0 && name[0] != '/'
    ensures Join(dir, name) == DirPrefix(dir) + name
  {
  }
}
