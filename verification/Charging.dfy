/** Unit types, call directions and rate keys (internal/charging). */
module Charging {

  datatype UnitType = SECONDS | OCTETS | UNITS | MONETARY

  datatype CallDirection = MO | MF | MT | ANY

  datatype RateKey = RateKey(
    serviceType: string,
    sourceType: string,
    serviceDirection: CallDirection,
    serviceCategory: string,
    serviceWindow: string)

  /** One field of the match: does it match, and was a wildcard involved? */
  function FieldMatch(value: string, pattern: string): (bool, bool) {
    var wild := pattern == "*" || value == "*";
    (wild || pattern == value, wild)
  }

  /** RateKey.Matches, early exits and all: the score returned on a mismatch is the
      score reached so far. */
  function Matches(k: RateKey, other: RateKey): (bool, int) {
    var (m0, w0) := FieldMatch(k.serviceType, other.serviceType);
    if !m0 then (false, 0) else
    var s0 := if w0 then 0 else 1;
    var (m1, w1) := FieldMatch(k.sourceType, other.sourceType);
    if !m1 then (false, s0) else
    var s1 := if w1 then s0 else s0 + 1;
    if other.serviceDirection != ANY && k.serviceDirection != ANY && k.serviceDirection != other.serviceDirection then
      (false, s1)
    else
      var s2 := if other.serviceDirection != ANY && k.serviceDirection != ANY then s1 + 1 else s1;
      var (m3, w3) := FieldMatch(k.serviceCategory, other.serviceCategory);
      if !m3 then (false, s2) else
      var s3 := if w3 then s2 else s2 + 1;
      if k.serviceWindow == "" && other.serviceWindow == "" then
        (true, s3 + 1)
      else
        var (m4, w4) := FieldMatch(k.serviceWindow, other.serviceWindow);
        (m4, if m4 && !w4 then s3 + 1 else s3)
  }

}
