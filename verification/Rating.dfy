/** Rating: the units a rate line charges for, and the line of a plan that fits a key best. */
module Rating {
  import opened Basics
  import opened Charging
  import opened RateKeys

  // ---- unit normalisation ----

  /** The remainder of Go, which has the sign of the dividend. */
  function Rem(a: int, b: int): int
    requires b > 0
  {
    if a >= 0 then a % b else -((-a) % b)
  }

  /** RateLine.NormaliseUnits, given the minimum and the increment as whole units. */
  function NormaliseUnits(units: int, minimum: int, inc: int): int {
    var clamped := if units < minimum then minimum else units;
    if inc <= 1 || Rem(clamped, inc) == 0 then clamped else clamped + (inc - Rem(clamped, inc))
  }

  /** Every number is a multiple of an increment that does not round. */
  predicate MultipleOf(n: int, inc: int) {
    inc > 1 ==> n % inc == 0
  }

  /** `n` is the least multiple of the increment that is no less than `floor`. */
  ghost predicate LeastMultiple(n: int, floor: int, inc: int) {
    n >= floor && MultipleOf(n, inc) && forall m :: m >= floor && MultipleOf(m, inc) ==> n <= m
  }

  function Clamped(units: int, minimum: int): int {
    if units < minimum then minimum else units
  }

  function RoundUp(a: int, inc: int): int
    requires inc > 1
  {
    if a % inc == 0 then a else (a / inc + 1) * inc
  }

  lemma ModIs(a: int, q: int, r: int, inc: int)
    requires inc > 1 && a == q * inc + r && 0 <= r < inc
    ensures a % inc == r && a / inc == q
  {
    var d := a / inc;
    if q > d { Apart(q, d, inc); }
    if d > q { Apart(d, q, inc); }
  }

  lemma Apart(q: int, d: int, inc: int)
    requires q > d && inc > 1
    ensures q * inc >= d * inc + inc
  {
    var k := q - d - 1;
    assert k * inc >= 0;
    assert q * inc == d * inc + inc + k * inc;
  }

  lemma RoundUpBounds(a: int, inc: int)
    requires inc > 1
    ensures a <= RoundUp(a, inc) < a + inc && MultipleOf(RoundUp(a, inc), inc) && MultipleOf(RoundUp(a, inc) + inc, inc)
    ensures MultipleOf(a, inc) <==> RoundUp(a, inc) == a
  {
    var q := RoundUp(a, inc) / inc;
    if a % inc != 0 { ModIs((a / inc + 1) * inc, a / inc + 1, 0, inc); }
    ModIs(RoundUp(a, inc) + inc, q + 1, 0, inc);
  }

  lemma NothingBetween(a: int, inc: int, m: int)
    requires inc > 1 && MultipleOf(m, inc) && m >= a
    ensures m >= RoundUp(a, inc)
  {
    var k, q := m / inc, a / inc;
    assert m == k * inc;
    if k < q + 1 { assert k * inc <= q * inc; }
    if k >= q + 1 { assert k * inc >= (q + 1) * inc; }
  }

  lemma RemOf(a: int, inc: int)
    requires inc > 1
    ensures a >= 0 ==> Rem(a, inc) == a % inc
    ensures a < 0 ==> Rem(a, inc) == if a % inc == 0 then 0 else a % inc - inc
  {
    var q, r := a / inc, a % inc;
    if a < 0 {
      if r == 0 { ModIs(-a, -q, 0, inc); } else { ModIs(-a, -q - 1, inc - r, inc); }
    }
  }

  /** What normalising comes to. */
  lemma {:induction false} Normalised(units: int, minimum: int, inc: int)
    ensures var a := Clamped(units, minimum);
            NormaliseUnits(units, minimum, inc)
            == if inc <= 1 || MultipleOf(a, inc) then a else if a >= 0 then RoundUp(a, inc) else RoundUp(a, inc) + inc
  {
    var a := Clamped(units, minimum);
    if inc > 1 {
      RemOf(a, inc);
      assert a == (a / inc) * inc + a % inc;
    }
  }

  /** Normalising gives the least multiple of the increment that covers the units and the minimum, exactly
      when what is to be covered is not a negative number that would have to be rounded: such a number is
      rounded one increment too far. */
  lemma {:induction false} NormalisesUp(units: int, minimum: int, inc: int)
    ensures LeastMultiple(NormaliseUnits(units, minimum, inc), Clamped(units, minimum), inc)
            <==> Clamped(units, minimum) >= 0 || MultipleOf(Clamped(units, minimum), inc)
  {
    hide RoundUp, NormaliseUnits;
    var a, n := Clamped(units, minimum), NormaliseUnits(units, minimum, inc);
    Normalised(units, minimum, inc);
    if inc > 1 {
      hide MultipleOf;
      RoundUpBounds(a, inc);
      forall m | m >= a && MultipleOf(m, inc) ensures RoundUp(a, inc) <= m { NothingBetween(a, inc, m); }
    }
  }

  /** Minus five in threes comes to zero, although minus three covers it. */
  lemma NegativeRoundedTooFar()
    ensures NormaliseUnits(-5, -10, 3) == 0 && LeastMultiple(-3, Clamped(-5, -10), 3)
  {
    assert forall m :: m >= -5 && MultipleOf(m, 3) ==> m >= -3;
  }

  /** Normalised units are left alone. */
  lemma {:induction false} NormalisesOnce(units: int, minimum: int, inc: int)
    ensures var n := NormaliseUnits(units, minimum, inc); NormaliseUnits(n, minimum, inc) == n
  {
    hide RoundUp, NormaliseUnits, MultipleOf;
    Normalised(units, minimum, inc);
    Normalised(NormaliseUnits(units, minimum, inc), minimum, inc);
    if inc > 1 { RoundUpBounds(Clamped(units, minimum), inc); }
  }

  /** More units, normalised, are no fewer, where there is nothing negative to be rounded; so usage no
      larger than what was requested stays within a grant of the whole request. */
  lemma {:induction false} NormalisesMonotonically(used: int, requested: int, minimum: int, inc: int)
    requires used <= requested && Clamped(used, minimum) >= 0
    ensures NormaliseUnits(used, minimum, inc) <= NormaliseUnits(requested, minimum, inc)
  {
    hide NormaliseUnits, MultipleOf;
    NormalisesUp(used, minimum, inc);
    NormalisesUp(requested, minimum, inc);
  }

  // ---- the best rate line ----

  /** A rate line: its key, and everything else it carries. */
  datatype RateLine = RateLine(classificationKey: RateKey, unitType: UnitType, baseTariff: real, unitOfMeasure: int,
                               multiplier: real, minimumUnits: int, roundingIncrement: int, barred: bool,
                                   monetaryOnly: bool)

  predicate LineMatches(lines: seq<RateLine>, rateKey: RateKey, i: nat)
    requires i < |lines|
  {
    Matches(rateKey, lines[i].classificationKey).0
  }

  function Score(lines: seq<RateLine>, rateKey: RateKey, i: nat): int
    requires i < |lines|
  {
    Matches(rateKey, lines[i].classificationKey).1
  }

  /** Among the first `n` lines, `i` matches, no line is more specific, and no later one as specific. */
  ghost predicate Best(lines: seq<RateLine>, rateKey: RateKey, n: nat, i: nat)
    requires n <= |lines|
  {
    && i < n && LineMatches(lines, rateKey, i)
    && forall j :: 0 <= j < n && LineMatches(lines, rateKey, j) ==>
         && Score(lines, rateKey, j) <= Score(lines, rateKey, i)
         && (j > i ==> Score(lines, rateKey, j) < Score(lines, rateKey, i))
  }

  lemma BestIsUnique(lines: seq<RateLine>, rateKey: RateKey, i: nat, j: nat)
    requires Best(lines, rateKey, |lines|, i) && Best(lines, rateKey, |lines|, j)
    ensures i == j
  {
    assert LineMatches(lines, rateKey, i) && LineMatches(lines, rateKey, j);
    assert Score(lines, rateKey, i) == Score(lines, rateKey, j);
  }

  /** `found` holds, for each score attained, the last line attaining it. */
  ghost predicate LastByScore(lines: seq<RateLine>, rateKey: RateKey, n: nat, found: map<nat, RateLine>,
                              at: map<nat, nat>)
    requires n <= |lines|
  {
    && at.Keys == found.Keys
    && (forall s :: s in at ==> at[s] < n && LineMatches(lines, rateKey, at[s]) && Score(lines, rateKey, at[s]) == s
                                && found[s] == lines[at[s]])
    && (forall j :: 0 <= j < n && LineMatches(lines, rateKey, j) ==>
          Score(lines, rateKey, j) >= 0 && Score(lines, rateKey, j) in at && j <= at[Score(lines, rateKey, j)])
  }

  /** The first loop of findBestRateLine. */
  method LinesByScore(lines: seq<RateLine>, rateKey: RateKey)
      returns (matchList: map<nat, RateLine>, ghost at: map<nat, nat>)
    ensures LastByScore(lines, rateKey, |lines|, matchList, at)
  {
    hide Matches;
    matchList, at := map[], map[];
    for k := 0 to |lines|
      invariant LastByScore(lines, rateKey, k, matchList, at)
    {
      var (matched, score) := Matches(rateKey, lines[k].classificationKey);
      MatchMeaning(rateKey, lines[k].classificationKey);
      if matched {
        matchList, at := matchList[score := lines[k]], at[score := k];
      }
    }
  }

  /** A map is gone through in no particular order. */
  method AnyScore(left: map<nat, RateLine>) returns (score: nat)
    requires left != map[]
    ensures score in left
  {
    score :| score in left;
  }

  /** The second loop, in whatever order it goes through the map. */
  method GreatestScore(matchList: map<nat, RateLine>) returns (maxVal: Option<RateLine>, maxKey: int)
    ensures maxVal.Some? ==> maxKey in matchList && maxVal.value == matchList[maxKey] && forall s :: s in matchList ==>
              s <= maxKey
    ensures maxVal.None? ==> matchList == map[]
  {
    maxVal, maxKey := None, -1;
    var left := matchList;
    while left != map[]
      invariant forall s :: s in left ==> s in matchList && left[s] == matchList[s]
      invariant forall s :: s in matchList && s !in left ==> s <= maxKey
      invariant maxVal.Some? ==> maxKey in matchList && maxVal.value == matchList[maxKey]
      invariant maxVal.None? ==> maxKey == -1
      decreases |left|
    {
      var score := AnyScore(left);
      if score > maxKey {
        maxKey, maxVal := score, Some(left[score]);
      }
      left := left - {score};
    }
  }

  /** Whatever order the scores are gone through in, the result is the last line attaining the greatest
      specificity; there is none exactly when no line matches. */
  method FindBestRateLine(lines: seq<RateLine>, rateKey: RateKey) returns (best: Option<RateLine>, ghost i: nat)
    ensures best.Some? ==> Best(lines, rateKey, |lines|, i) && best.value == lines[i]
    ensures best.None? <==> forall j :: 0 <= j < |lines| ==> !LineMatches(lines, rateKey, j)
  {
    hide Matches;
    ghost var at;
    var matchList, maxKey;
    matchList, at := LinesByScore(lines, rateKey);
    best, maxKey := GreatestScore(matchList);
    i := if best.Some? then at[maxKey] else 0;
  }
}
