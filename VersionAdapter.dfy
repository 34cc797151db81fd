/**
 * Dialect-version dispatch: the closed mapping from the version string of a
 * request to the language version handed to the lexer, parser, linter and
 * formatter factories.
 */
module VersionAdapter {
  import opened Wrappers

  /** The language versions the engines understand. */
  datatype Version = V1 | V2

  /** The one version string that selects `v`. */
  function VersionName(v: Version): (s: string)
    ensures ToVersion(s) == Ok(v)
  {
    match v
    case V1 => "1.0"
    case V2 => "1.1"
  }

  /**
   * `toVersion`: "1.0" and "1.1" are accepted, by exact string equality; every
   * other string fails with "Unsupported version: " followed by the string.
   */
  function ToVersion(version: string): (r: Result<Version>)
    ensures version == "1.0" ==> r == Ok(V1)
    ensures version == "1.1" ==> r == Ok(V2)
    ensures version != "1.0" && version != "1.1" ==> r == Err("Unsupported version: " + version)
  {
    if version == "1.0" then Ok(V1)
    else if version == "1.1" then Ok(V2)
    else Err("Unsupported version: " + version)
  }

  /** An accepted string is the name of the version it selects. */
  lemma ToVersionAcceptsOnlyNames(version: string, v: Version)
    requires ToVersion(version) == Ok(v)
    ensures version == VersionName(v)
  {
  }

  /** The two accepted strings select distinct versions. */
  lemma ToVersionInjective(s1: string, s2: string)
    requires ToVersion(s1).Ok? && ToVersion(s2).Ok?
    requires ToVersion(s1).value == ToVersion(s2).value
    ensures s1 == s2
  {
  }

  /** Matching is exact: near misses are rejected. */
  lemma ToVersionRejectsNearMisses()
    ensures ToVersion("1").Err?
    ensures ToVersion("1.0 ").Err?
    ensures ToVersion("V1").Err?
    ensures ToVersion("1.2").Err?
  {
  }
}
