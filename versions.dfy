/** Node versions as (major, minor, patch) triples, compared the way
    `semver.satisfies(v, '>=' + w)` compares release versions. */
module Versions {

  datatype Version = Version(major: nat, minor: nat, patch: nat)

  /** `v >= w` in lexicographic order of the three components. */
  predicate AtLeast(v: Version, w: Version): (r: bool)
    ensures v.major != w.major ==> (r <==> v.major > w.major)
    ensures v.major == w.major && v.minor != w.minor ==> (r <==> v.minor > w.minor)
    ensures v.major == w.major && v.minor == w.minor ==> (r <==> v.patch >= w.patch)
    ensures v == w ==> r
  {
    || v.major > w.major
    || (v.major == w.major && v.minor > w.minor)
    || (v.major == w.major && v.minor == w.minor && v.patch >= w.patch)
  }
}
