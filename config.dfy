/** The tool's configuration. Each setting is read from an environment
    variable when the configuration is loaded and falls back to a default;
    the environment itself is not part of this model, so the settings are a
    value with `Defaults` as the one the unset environment gives. */
module Config {
  import opened Basics

  datatype Settings = Settings(
    apiBaseUrl: string,          // DOGE_API_BASE_URL
    apiKey: Option<string>,      // DOGE_API_KEY, which has no default
    apiVersion: string,          // DOGE_API_VERSION
    requestTimeout: int,         // DOGE_REQUEST_TIMEOUT
    requestMaxRetries: int,      // DOGE_REQUEST_MAX_RETRIES
    outputDir: string,           // DOGE_OUTPUT_DIR
    excelEngine: string,         // DOGE_EXCEL_ENGINE
    includeTimestamp: bool)      // DOGE_INCLUDE_TIMESTAMP

  /** The settings when none of the variables is set. */
  const Defaults: Settings := Settings(
    "https://api.doge.gov", None, "v0.0.2-beta", 30, 3, "doge_data", "openpyxl", true)
}
