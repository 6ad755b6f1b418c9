/** String helpers shared by the modules that model `startsWith` checks. */
module Strings {
  /** `s.startsWith(prefix)`. */
  predicate StartsWith(s: string, prefix: string) {
    |prefix| <= |s| && s[..|prefix|] == prefix
  }
}
