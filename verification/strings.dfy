/** Text helpers shared by the parts of the model that look at strings. */
module Strings {
  /** `s.startsWith(p)`: the first `|p|` characters of `s` are `p`. */
  predicate HasPrefix(s: string, p: string) { |p| <= |s| && s[..|p|] == p }
}
