/** The store's configuration as the helper reads it: string values by configuration path. */
module StoreConfig {
  import opened Wrappers

  type Config = map<string, string>

  /** `scopeConfig->getValue(path)`: the configured value, or null when the path is unset. */
  function GetValue(config: Config, path: string): Option<string>
  {
    if path in config then Some(config[path]) else None
  }

  /** PHP truthiness of a configuration value: null, `""` and `"0"` are false. */
  predicate IsSetFlag(config: Config, path: string)
  {
    match GetValue(config, path)
    case None => false
    case Some(v) => v != "" && v != "0"
  }
}
