/** The configuration constants the core reads from config/settings.py. */
module Settings {

  const ENABLE_ALERTS: bool := true
  /** Minimum number of seconds between two alerts with the same key. */
  const ALERT_COOLDOWN_SECONDS: real := 300.0

  /** Which notification channels are switched on. */
  datatype ChannelFlags = ChannelFlags(console: bool, email: bool, desktop: bool)
  const ALERT_CHANNELS: ChannelFlags := ChannelFlags(console := true, email := false, desktop := false)

  const ENABLE_ML_PREDICTION: bool := true
  const PREDICTION_CONFIDENCE_THRESHOLD: real := 0.75

  const HEALTH_SCORE_MIN: int := 0
  const HEALTH_SCORE_MAX: int := 100

  const HEALTH_SCORE_WEIGHTS: map<string, real> :=
    map["cpu" := 0.30, "ram" := 0.30, "disk" := 0.25, "network" := 0.10, "temperature" := 0.05]

  const AUTO_SUGGEST_OPTIMIZATION: bool := true
}
