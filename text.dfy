/** String helpers with the behaviour of Rust's `str` methods. */
module Text {

  /** Rust's `str::starts_with` for a string prefix. */
  predicate StartsWith(s: string, prefix: string)
  {
    |prefix| <= |s| && s[..|prefix|] == prefix
  }
}
