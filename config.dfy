/** The agent's configuration constants. */
module Config {
  /** Lifetime of a cached search, in seconds (one day). */
  const SEARCH_CACHE_TTL: int := 86400
  /** Lifetime of a cached fetch or render, in seconds (seven days). */
  const FETCH_CACHE_TTL: int := 604800
  const DEFAULT_MAX_STEPS: nat := 10
  const DEFAULT_MAX_PAGES_FETCHED: nat := 8
  /** Page text is truncated beyond this many characters. */
  const MAX_PAGE_TEXT_LENGTH: nat := 20000
}
