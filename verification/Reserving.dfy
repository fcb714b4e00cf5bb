/** What a reservation takes: greedily by priority from service counters, exactly what the
    grant costs from monetary ones. */
module Reserving {
  import opened Basics
  import opened Charging
  import opened Ledger
  import opened QuotaOps
  import opened Solvency

  /** The reservation id is in use nowhere. */
  ghost predicate Fresh(cs: seq<CounterState>, id: Uuid) {
    forall i :: 0 <= i < |cs| ==> id !in cs[i].reservations
  }

  /** The reservation id is in use on no monetary counter. */
  ghost predicate Unfunded(cs: seq<CounterState>, id: Uuid) {
    forall i :: 0 <= i < |cs| && cs[i].unitType == MONETARY ==> id !in cs[i].reservations
  }

  // ---- service units ----

  ghost function UnitsFree(): CounterState -> real {
    (c: CounterState) => AvailableUnits(c) as real
  }

  /** Units available for a selection, counted only on the counters it matches. */
  ghost function UnitsFreeFor(rateKey: RateKey, unitType: UnitType, reason: Reason): CounterState -> real {
    (c: CounterState) => if Selected(c, rateKey, unitType, reason) then AvailableUnits(c) as real else 0.0
  }

  lemma {:induction false} ReserveUnitsElsewhere(cs: seq<CounterState>, order: seq<nat>, id: Uuid, n: int, terms: Terms)
    requires Positions(order, |cs|)
    ensures forall i :: 0 <= i < |cs| && i !in order ==> ReserveUnitsAlong(cs, order, id, n, terms).counters[i] == cs[i]
    decreases |order|
  {
    if order != [] && n > 0 {
      var (c, got) := ReserveUnits(cs[order[0]], id, n, terms);
      ReserveUnitsElsewhere(cs[order[0] := c], order[1..], id, n - got, terms);
    }
  }

  lemma ScaledByOne(n: int)
    ensures Scaled(1.0, n) == n
  {}

  lemma ScaledUp(multiplier: real, n: int)
    requires multiplier >= 1.0 && n >= 0
    ensures Scaled(multiplier, n) >= n
  {
    MulMono(1.0, multiplier, n as real);
    MulLinear(n as real, 1.0, 1.0);
  }

  lemma {:induction false} UnitsGrantedAlong(cs: seq<CounterState>, order: seq<nat>, id: Uuid, n: int, terms: Terms)
    requires Sound(cs) && Positions(order, |cs|) && Distinct(order) && terms.multiplier == 1.0 && n >= 0
    requires forall k :: 0 <= k < |order| ==> cs[order[k]].unitType != MONETARY
    ensures ReserveUnitsAlong(cs, order, id, n, terms).granted as real
            == MinReal(n as real, SumAlong(Weights(cs, UnitsFree()), order))
    decreases |order|
  {
    if order != [] {
      AvailableAlongNonNegative(cs, order[1..]);
      if n > 0 {
        var (c, got) := ReserveUnits(cs[order[0]], id, n, terms);
        ScaledByOne(n);
        ReserveUnitsSolvent(cs[order[0]], id, n, terms);
        UnitsGrantedAlong(cs[order[0] := c], order[1..], id, n - got, terms);
        SumAfter(cs, order, c, UnitsFree());
      }
    }
  }

  lemma {:induction false} AvailableAlongNonNegative(cs: seq<CounterState>, order: seq<nat>)
    requires Sound(cs) && Positions(order, |cs|)
    ensures SumAlong(Weights(cs, UnitsFree()), order) >= 0.0
    ensures AvailableAlong(cs, order) >= 0.0
  {
    if order != [] { AvailableAlongNonNegative(cs, order[1..]); }
  }

  /** With multiplier one the grant is the smaller of the request and of all that the matching
      counters have available, whatever order equal priorities are visited in. */
  lemma UnitsGranted(cs: seq<CounterState>, order: seq<nat>, id: Uuid, n: int, terms: Terms, rateKey: RateKey,
                     unitType: UnitType)
    requires Sound(cs) && n >= 0 && terms.multiplier == 1.0 && unitType != MONETARY
    requires Picks(cs, order, Selecting(rateKey, unitType, terms.reason))
    ensures ReserveUnitsAlong(cs, order, id, n, terms).granted as real
            == MinReal(n as real, Total(cs, UnitsFreeFor(rateKey, unitType, terms.reason)))
  {
    var ws := Weights(cs, UnitsFreeFor(rateKey, unitType, terms.reason));
    forall k | 0 <= k < |order| ensures Selected(cs[order[k]], rateKey, unitType, terms.reason) {
      assert order[k] in order;
    }
    UnitsGrantedAlong(cs, order, id, n, terms);
    SumAlongAgrees(Weights(cs, UnitsFree()), ws, order);
    SumPicked(ws, order);
  }

  /** With multiplier one ReserveQuota divides by the price with tax exactly when money is asked for, or is allowed
      and the matching counters have fewer units than are asked for. The price is zero exactly when the unit is free
      or tax takes all of it. */
  lemma DivisionReached(cs: seq<CounterState>, v: Visit, id: Uuid, requested: int, unitType: UnitType, terms: Terms,
                        rateKey: RateKey, allowOOB: bool)
    requires Sound(cs) && terms.multiplier == 1.0
    requires Picks(cs, v.service, Selecting(rateKey, unitType, terms.reason))
    ensures AsksMoney(cs, v, id, requested, unitType, terms, allowOOB)
            <==> unitType == MONETARY
                 || (allowOOB && requested > 0
                     && Total(cs, UnitsFreeFor(rateKey, unitType, terms.reason)) < requested as real)
    ensures Price(terms) == 0.0 <==> terms.unitPrice == 0.0 || terms.taxRate == -1.0
  {
    if unitType != MONETARY && requested >= 0 { UnitsGranted(cs, v.service, id, requested, terms, rateKey, unitType); }
    NoProduct(terms.unitPrice, 1.0 + terms.taxRate);
  }

  lemma NoProduct(a: real, b: real)
    ensures Mul(a, b) == 0.0 <==> a == 0.0 || b == 0.0
  {
    if a > 0.0 { MulSign(a, b); }
    if a < 0.0 {
      MulSign(-a, b);
      assert Mul(-a, b) == -Mul(a, b);
    }
  }

  /** The counter visited at `k` is touched only when every counter visited before it is used up. */
  lemma {:induction false} UnitsGreedyAlong(cs: seq<CounterState>, order: seq<nat>, id: Uuid, n: int, terms: Terms,
                                            j: nat, k: nat)
    requires Sound(cs) && Positions(order, |cs|) && Distinct(order) && terms.multiplier >= 1.0
    requires forall k :: 0 <= k < |order| ==> cs[order[k]].unitType != MONETARY && id !in cs[order[k]].reservations
    requires j < k < |order|
    requires ReserveUnitsAlong(cs, order, id, n, terms).counters[order[k]] != cs[order[k]]
    ensures AvailableUnits(ReserveUnitsAlong(cs, order, id, n, terms).counters[order[j]]) == 0
    decreases |order|
  {
    hide Solvent, ReserveUnits, AvailableUnits;
    var (c, got) := ReserveUnits(cs[order[0]], id, n, terms);
    ReserveUnitsSolvent(cs[order[0]], id, n, terms);
    var cs1 := cs[order[0] := c];
    if j > 0 {
      UnitsGreedyAlong(cs1, order[1..], id, n - got, terms, j - 1, k - 1);
    } else {
      ReserveUnitsElsewhere(cs1, order[1..], id, n - got, terms);
      ScaledUp(terms.multiplier, n);
      UsedUp(cs[order[0]], id, n, terms);
    }
  }

  /** With a multiplier of at least one and a fresh id, a matching counter is drawn on only once
      every matching counter of higher priority is used up. */
  lemma {:induction false} UnitsGreedy(cs: seq<CounterState>, order: seq<nat>, id: Uuid, n: int, terms: Terms,
                                       rateKey: RateKey, unitType: UnitType, higher: nat, lower: nat)
    requires Sound(cs) && Fresh(cs, id) && terms.multiplier >= 1.0 && unitType != MONETARY
    requires Picks(cs, order, Selecting(rateKey, unitType, terms.reason))
    requires higher < |cs| && lower < |cs| && cs[higher].priority > cs[lower].priority
    requires Selected(cs[higher], rateKey, unitType, terms.reason)
    ensures var r := ReserveUnitsAlong(cs, order, id, n, terms).counters;
            r[lower] != cs[lower] ==> AvailableUnits(r[higher]) == 0
  {
    if ReserveUnitsAlong(cs, order, id, n, terms).counters[lower] == cs[lower] { return; }
    forall k | 0 <= k < |order| ensures Selected(cs[order[k]], rateKey, unitType, terms.reason) {
      assert order[k] in order;
    }
    ReserveUnitsElsewhere(cs, order, id, n, terms);
    var j :| 0 <= j < |order| && order[j] == higher;
    var k :| 0 <= k < |order| && order[k] == lower;
    UnitsGreedyAlong(cs, order, id, n, terms, j, k);
  }

  /** A counter that could not serve the whole of `n` has nothing left. */
  lemma UsedUp(c: CounterState, id: Uuid, n: int, terms: Terms)
    requires Solvent(c) && c.unitType != MONETARY && id !in c.reservations && Scaled(terms.multiplier, n) >= n
    requires ReserveUnits(c, id, n, terms).1 < n
    ensures AvailableUnits(ReserveUnits(c, id, n, terms).0) == 0
  {
    var got := Min(AvailableUnits(c), Scaled(terms.multiplier, n));
    assert c.reservations - {id} == c.reservations;
    HeldPut(c.reservations, id, Reservation(got, 0.0, terms));
  }

  // ---- money ----

  ghost function ValueUnder(id: Uuid): CounterState -> real {
    (c: CounterState) => if Holding(c, id, MONETARY) then c.reservations[id].value else 0.0
  }

  lemma PricePositive(terms: Terms)
    requires terms.unitPrice > 0.0 && terms.taxRate >= 0.0
    ensures Price(terms) > 0.0
  {
    MulPositive(terms.unitPrice, 1.0 + terms.taxRate);
  }

  lemma CostOf(terms: Terms, units: int)
    ensures Cost(terms, units) == Mul(units as real, Price(terms))
  {
    MulSwap(terms.unitPrice, units as real, 1.0 + terms.taxRate);
  }

  lemma MulSwap(a: real, b: real, c: real)
    ensures Mul(Mul(a, b), c) == Mul(b, Mul(a, c))
  {}

  /** The grant out of `available` is the largest number of whole units that it pays for, up to the request. */
  lemma AffordableMost(available: real, requested: int, terms: Terms)
    requires terms.unitPrice > 0.0 && terms.taxRate >= 0.0 && available >= 0.0
    ensures Price(terms) > 0.0
    ensures var g := Affordable(available, requested, terms);
            && g <= requested
            && Cost(terms, g) <= available
            && (g < requested ==> available < Cost(terms, g + 1))
  {
    PricePositive(terms);
    var g := Affordable(available, requested, terms);
    CostOf(terms, g);
    CostOf(terms, g + 1);
    WholeUnits(available, Price(terms), Quotient(available, Price(terms)), requested);
  }

  lemma WholeUnits(available: real, price: real, q: real, requested: int)
    requires price > 0.0 && Mul(price, q) == available >= 0.0
    ensures var g := Min(IntPart(q), requested);
            Mul(g as real, price) <= available && (g < requested ==> available < Mul((g + 1) as real, price))
  {
    MulSign(price, q);
    MulLinear(price, q, 0.0);
    var n := IntPart(q);
    MulMono(n as real, q, price);
    MulMono(Min(n, requested) as real, n as real, price);
    MulPositive((n + 1) as real - q, price);
    MulLinear(price, (n + 1) as real, q);
  }

  lemma AfterOne(c: CounterState, id: Uuid, amount: real, terms: Terms)
    requires Solvent(c) && c.unitType == MONETARY && id !in c.reservations && terms.multiplier > 0.0 && amount > 0.0
    ensures var (c', got) := ReserveValue(c, id, amount, terms);
            && amount - got >= 0.0
            && Mul(terms.multiplier, got) == MinReal(Mul(terms.multiplier, amount), AvailableValue(c))
            && Mul(terms.multiplier, amount - got) == Mul(terms.multiplier, amount) - Mul(terms.multiplier, got)
            && ValueUnder(id)(c') == Mul(terms.multiplier, got)
            && ValueUnder(id)(c) == 0.0
            && (id in c'.reservations ==> c'.reservations[id].terms == terms)
  {
    var got := ReserveValue(c, id, amount, terms).1;
    MulLinear(terms.multiplier, amount, got);
    MulSign(terms.multiplier, amount);
    MulSign(terms.multiplier, amount - got);
  }

  /** Where ReserveValueAlong may go: monetary counters not yet holding the id. */
  predicate Untouched(cs: seq<CounterState>, order: seq<nat>, id: Uuid) {
    && Positions(order, |cs|) && Distinct(order)
    && forall k :: 0 <= k < |order| ==> cs[order[k]].unitType == MONETARY && id !in cs[order[k]].reservations
  }

  lemma ValueStoredOnce(cs: seq<CounterState>, order: seq<nat>, id: Uuid, amount: real, terms: Terms)
    requires Sound(cs) && order != [] && Untouched(cs, order, id) && SoundTerms(terms, true) && amount > 0.0
    ensures var (c, got) := ReserveValue(cs[order[0]], id, amount, terms);
            var cs1 := cs[order[0] := c];
            && Sound(cs1) && Untouched(cs1, order[1..], id)
            && Total(cs1, ValueUnder(id)) == Total(cs, ValueUnder(id)) + Mul(terms.multiplier, got)
            && AvailableAlong(cs1, order[1..]) == AvailableAlong(cs, order) - AvailableValue(cs[order[0]])
  {
    var (c, got) := ReserveValue(cs[order[0]], id, amount, terms);
    ReserveValueSolvent(cs[order[0]], id, amount, terms);
    AfterOne(cs[order[0]], id, amount, terms);
    TotalUpdate(cs, order[0], c, ValueUnder(id));
    SumAfter(cs, order, c, ValueFree());
  }

  /** The amounts stored under a fresh id total the multiplied amount, or all that is available. */
  lemma {:induction false} ValueStoredAlong(cs: seq<CounterState>, order: seq<nat>, id: Uuid, amount: real,
                                            terms: Terms)
    requires Sound(cs) && Untouched(cs, order, id) && SoundTerms(terms, true) && amount >= 0.0
    ensures Total(ReserveValueAlong(cs, order, id, amount, terms), ValueUnder(id))
            == Total(cs, ValueUnder(id)) + MinReal(Mul(terms.multiplier, amount), AvailableAlong(cs, order))
    decreases |order|
  {
    hide Solvent, ReserveValue;
    AvailableAlongNonNegative(cs, order);
    MulSign(terms.multiplier, amount);
    if order != [] && amount > 0.0 {
      var (c, got) := ReserveValue(cs[order[0]], id, amount, terms);
      var cs1 := cs[order[0] := c];
      AfterOne(cs[order[0]], id, amount, terms);
      ValueStoredOnce(cs, order, id, amount, terms);
      AvailableAlongNonNegative(cs1, order[1..]);
      ValueStoredAlong(cs1, order[1..], id, amount - got, terms);
    }
  }

  ghost function ValueFreeFor(rateKey: RateKey, reason: Reason): CounterState -> real {
    (c: CounterState) => if Selected(c, rateKey, MONETARY, reason) then AvailableValue(c) else 0.0
  }

  lemma CostPositive(terms: Terms, units: int)
    requires terms.unitPrice > 0.0 && terms.taxRate >= 0.0 && units > 0
    ensures Cost(terms, units) > 0.0
  {
    PricePositive(terms);
    CostOf(terms, units);
    MulPositive(units as real, Price(terms));
  }

  /** The value stored for a grant out of `available`: what it costs, multiplied, or all there is. */
  lemma Funding(terms: Terms, requested: int, available: real)
    requires SoundTerms(terms, true) && available >= 0.0
    ensures var g := Affordable(available, requested, terms);
            g > 0 && terms.multiplier <= 1.0 ==> Mul(terms.multiplier, Cost(terms, g)) <= available
  {
    AffordableMost(available, requested, terms);
    var g := Affordable(available, requested, terms);
    if g > 0 && terms.multiplier <= 1.0 {
      CostPositive(terms, g);
      FractionOf(Cost(terms, g), terms.multiplier);
    }
  }

  lemma AvailableIsTotal(cs: seq<CounterState>, order: seq<nat>, rateKey: RateKey, reason: Reason)
    requires Sound(cs) && Picks(cs, order, Selecting(rateKey, MONETARY, reason))
    ensures AvailableAlong(cs, order) == Total(cs, ValueFreeFor(rateKey, reason)) >= 0.0
  {
    var ws := Weights(cs, ValueFreeFor(rateKey, reason));
    forall k | 0 <= k < |order| ensures Selected(cs[order[k]], rateKey, MONETARY, reason) {
      assert order[k] in order;
    }
    SumAlongAgrees(Weights(cs, ValueFree()), ws, order);
    SumPicked(ws, order);
    AvailableAlongNonNegative(cs, order);
  }

  /** A monetary grant of g units stores exactly what g units cost with tax and multiplier, or all
      there is if that is less; g is the largest number of whole units the money buys without the
      multiplier, up to the request; so with a multiplier of at most one it is fully funded. */
  lemma MoneyReserved(cs: seq<CounterState>, order: seq<nat>, id: Uuid, requested: int, terms: Terms, rateKey: RateKey)
    requires Sound(cs) && Unfunded(cs, id) && SoundTerms(terms, true)
    requires Picks(cs, order, Selecting(rateKey, MONETARY, terms.reason))
    ensures var r, available := ReserveMoney(cs, order, id, requested, terms),
            Total(cs, ValueFreeFor(rateKey, terms.reason));
            var stored := Total(r.counters, ValueUnder(id));
            && r.granted <= requested
            && Cost(terms, r.granted) <= available
            && (r.granted < requested ==> available < Cost(terms, r.granted + 1))
            && (r.granted > 0 ==> stored == MinReal(Mul(terms.multiplier, Cost(terms, r.granted)), available))
            && (r.granted > 0 && terms.multiplier <= 1.0 ==> stored == Mul(terms.multiplier, Cost(terms, r.granted)))
  {
    AvailableIsTotal(cs, order, rateKey, terms.reason);
    var available := AvailableAlong(cs, order);
    var g := Affordable(available, requested, terms);
    AffordableMost(available, requested, terms);
    Funding(terms, requested, available);
    if g > 0 {
      CostPositive(terms, g);
      forall k | 0 <= k < |order| ensures Selected(cs[order[k]], rateKey, MONETARY, terms.reason) {
        assert order[k] in order;
      }
      ValueStoredAlong(cs, order, id, Cost(terms, g), terms);
      SumZero(Weights(cs, ValueUnder(id)));
    }
  }
}
