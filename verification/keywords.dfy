/** The CSS-wide keywords the builders accept next to their own values. */
module Keywords {

  /** `inherit`, `initial`, `unset`, `revert` and `revert-layer`. */
  const Global: set<string> := {"inherit", "initial", "unset", "revert", "revert-layer"}
}
