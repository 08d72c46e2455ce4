/** The tunables the backend takes from the environment. The integers are read once at
    import; the two base URLs are read on every call, and the model takes them as fixed. */
module Settings {

  /** `JOB_TTL_SECONDS`, `RATE_LIMIT_WINDOW_SECONDS`, `RATE_LIMIT_START_MAX`,
      `RATE_LIMIT_NEXT_MAX`, `CDN_BASE_URL` and `API_BASE_URL`. The integers are
      whatever `int(...)` made of the variable, so they are not constrained here. */
  datatype Config = Config(
    jobTtl: int,
    rateWindow: int,
    startMax: int,
    nextMax: int,
    cdnBase: string,
    apiBase: string)

  /** The values used when no variable is set. */
  const Defaults := Config(3600, 60, 10, 20, "https://cdn.tanoshi.app", "https://api.tanoshi.app")
}
