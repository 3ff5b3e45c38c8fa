/**
 * The configuration values the task lifecycle reads at start-up. The
 * environment lookups that produce them are not modelled; a `Config` value
 * stands for one start-up of the service.
 */
module Settings {

  datatype Config = Config(
    redisResultTtl: int,     // seconds; 0 or less keeps results indefinitely
    taskTimeLimitMs: int,    // per-attempt time limit of the worker actor
    taskMaxRetries: int,     // retry count of the worker actor
    taskDefaultShots: int    // shots used when a message does not carry any
  )

  /** The values used when no environment variable overrides them. */
  const Defaults: Config := Config(3600, 300000, 3, 1024)
}
