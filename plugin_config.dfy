/**
 * The plugin's configuration record (PluginConfig.cs): six settings with
 * their default values. The float threshold is an exact real here.
 */
module Configuration {

  datatype PluginConfig = PluginConfig(
    version: int,                            // ConfigVersion
    restartTime: string,                     // daily restart time, "HH:mm"
    notifyPlayersBeforeRestart: bool,        // never consulted by the engine
    minPlayersInstantShutdown: int,
    minPlayerPercentageShutdownAllowed: real,
    shutdownOnMapChangeIfPendingUpdate: bool)

  /** The values a freshly created configuration holds. */
  const Default: PluginConfig := PluginConfig(1, "03:50", true, 1, 0.6, true)
}
