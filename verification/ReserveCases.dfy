/** What a reservation stores, told from the request, the multiplier and what the counters have; and that what is
    stored is enough for a debit of what was asked for. */
module ReserveCases {
  import opened Basics
  import opened Charging
  import opened Ledger
  import opened QuotaOps
  import opened Solvency
  import opened Reserving
  import opened Debiting
  import opened RateKeys
  import opened Expiry
  import opened Attempts
  import opened Grants
  import opened Dwindling

  // ---- service units ----

  /** The units reserved on a counter under an id. */
  function UnitsOn(c: CounterState, id: Uuid): int {
    if id in c.reservations then c.reservations[id].units else 0
  }

  function UnitsBefore(cs: seq<CounterState>, order: seq<nat>, id: Uuid, k: nat): int
    requires Positions(order, |cs|) && k <= |order|
  {
    if k == 0 then 0 else UnitsBefore(cs, order, id, k - 1) + UnitsOn(cs[order[k - 1]], id)
  }

  /** Units with a multiplier, rounded down. */
  function Multiple(multiplier: real, n: int): int {
    (multiplier * n as real).Floor
  }

  /** What a counter stores of `n` units still to be granted: those units with the multiplier, rounded down, as far
      as it has them. */
  ghost predicate Stores(c: CounterState, c': CounterState, id: Uuid, n: int, terms: Terms) {
    var units := if n <= 0 then 0 else Min(Multiple(terms.multiplier, n), AvailableUnits(c));
    if units <= 0 then c' == c else c' == c.(reservations := c.reservations[id := Reservation(units, 0.0, terms)])
  }

  lemma ScaledIsFloor(m: real, n: int)
    requires m > 0.0 && n >= 0
    ensures Scaled(m, n) == Multiple(m, n) >= 0
  {
    assert Mul(m, n as real) == m * n as real;
    MulSign(m, n as real);
  }

  /** One counter: it stores, and gives back, the smaller of what it has and of the request with the multiplier. */
  lemma CounterStores(c: CounterState, id: Uuid, n: int, terms: Terms)
    requires Solvent(c) && c.unitType != MONETARY && id !in c.reservations && terms.multiplier > 0.0 && n > 0
    ensures var (c', got) := ReserveUnits(c, id, n, terms);
            Stores(c, c', id, n, terms) && got == UnitsOn(c', id) && got >= 0
  {
    hide Scaled, Multiple, UnitsHeld;
    ScaledIsFloor(terms.multiplier, n);
  }

  lemma {:induction false} UnitsBeforeShifts(cs: seq<CounterState>, order: seq<nat>, id: Uuid, k: nat)
    requires Positions(order, |cs|) && 0 < k <= |order|
    ensures UnitsBefore(cs, order, id, k) == UnitsOn(cs[order[0]], id) + UnitsBefore(cs, order[1..], id, k - 1)
    decreases k
  {
    if k > 1 { UnitsBeforeShifts(cs, order, id, k - 1); }
  }

  /** The counters visited can be reserved on, and hold nothing under the id yet. */
  predicate Reservable(cs: seq<CounterState>, order: seq<nat>, id: Uuid) {
    && Positions(order, |cs|) && Distinct(order)
    && forall j :: 0 <= j < |order| ==> cs[order[j]].unitType != MONETARY && id !in cs[order[j]].reservations
  }

  lemma FirstStores(cs: seq<CounterState>, order: seq<nat>, id: Uuid, n: int, terms: Terms)
    requires Sound(cs) && Reservable(cs, order, id) && terms.multiplier > 0.0 && order != [] && n > 0
    ensures var (c, got) := ReserveUnits(cs[order[0]], id, n, terms);
            && Stores(cs[order[0]], c, id, n, terms) && got == UnitsOn(c, id)
            && Sound(cs[order[0] := c]) && Reservable(cs[order[0] := c], order[1..], id)
            && ReserveUnitsAlong(cs[order[0] := c], order[1..], id, n - got, terms).counters[order[0]] == c
            && forall j :: 0 < j < |order| ==> cs[order[0] := c][order[j]] == cs[order[j]]
  {
    hide Stores, ReserveUnits;
    var (c, got) := ReserveUnits(cs[order[0]], id, n, terms);
    CounterStores(cs[order[0]], id, n, terms);
    ReserveUnitsSolvent(cs[order[0]], id, n, terms);
    ReserveUnitsElsewhere(cs[order[0] := c], order[1..], id, n - got, terms);
  }

  /** Each counter visited stores the smaller of what it has and of what those before it have left to grant, with the
      multiplier and rounded down; the grant is what they have stored. */
  lemma {:induction false} UnitsStoredExactly(cs: seq<CounterState>, order: seq<nat>, id: Uuid, n: int, terms: Terms,
                                              k: nat)
    requires Sound(cs) && Reservable(cs, order, id) && terms.multiplier > 0.0 && k <= |order|
    ensures var r := ReserveUnitsAlong(cs, order, id, n, terms);
            && (k < |order| ==>
                  Stores(cs[order[k]], r.counters[order[k]], id, n - UnitsBefore(r.counters, order, id, k), terms))
            && r.granted == UnitsBefore(r.counters, order, id, |order|)
    decreases |order|
  {
    hide Stores, ReserveUnits, UnitsBefore, UnitsOn, Sound;
    var r := ReserveUnitsAlong(cs, order, id, n, terms);
    NoneBefore(r.counters, order, id);
    if order != [] && n > 0 {
      var (c, got) := ReserveUnits(cs[order[0]], id, n, terms);
      FirstStores(cs, order, id, n, terms);
      UnitsStoredExactly(cs[order[0] := c], order[1..], id, n - got, terms, if k > 0 then k - 1 else 0);
      UnitsBeforeShifts(r.counters, order, id, |order|);
      if k > 0 { UnitsBeforeShifts(r.counters, order, id, k); }
    } else {
      NothingStored(cs, order, id, k);
      NothingStored(cs, order, id, |order|);
      if k < |order| { StoresNothing(cs[order[k]], id, n, terms); }
    }
  }

  lemma NoneBefore(cs: seq<CounterState>, order: seq<nat>, id: Uuid)
    requires Positions(order, |cs|)
    ensures UnitsBefore(cs, order, id, 0) == 0
  {}

  lemma StoresNothing(c: CounterState, id: Uuid, n: int, terms: Terms)
    requires n <= 0
    ensures Stores(c, c, id, n, terms)
  {}

  lemma {:induction false} NothingStored(cs: seq<CounterState>, order: seq<nat>, id: Uuid, k: nat)
    requires Positions(order, |cs|) && k <= |order|
    requires forall j :: 0 <= j < |order| ==> id !in cs[order[j]].reservations
    ensures UnitsBefore(cs, order, id, k) == 0
  {
    if k > 0 { NothingStored(cs, order, id, k - 1); }
  }

  // ---- reserved and debited ----

  /** With a multiplier of at least one: if the first counter has the units asked for, with the multiplier, they are all
      it stores and no other counter is touched. */
  lemma FirstIsEnough(cs: seq<CounterState>, order: seq<nat>, id: Uuid, n: int, terms: Terms)
    requires Sound(cs) && Reservable(cs, order, id) && order != [] && terms.multiplier >= 1.0 && n > 0
    requires AvailableUnits(cs[order[0]]) >= Multiple(terms.multiplier, n)
    ensures Multiple(terms.multiplier, n) >= n
    ensures var c, r := cs[order[0]], Reservation(Multiple(terms.multiplier, n), 0.0, terms);
            ReserveUnitsAlong(cs, order, id, n, terms).counters
            == cs[order[0] := c.(reservations := c.reservations[id := r])]
  {
    hide Scaled, Multiple, ReserveUnits;
    CounterStores(cs[order[0]], id, n, terms);
    ScaledIsFloor(terms.multiplier, n);
    ScaledUp(terms.multiplier, n);
  }

  /** What is reserved in that way covers a debit of all that was asked for. */
  lemma ReservedIsDebited(cs: seq<CounterState>, order: seq<nat>, id: Uuid, n: int, t: UnitType, terms: Terms, v: Visit,
                          reclaim: bool)
    requires Sound(cs) && Reservable(cs, order, id) && order != [] && terms.multiplier >= 1.0 && n > 0
    requires AvailableUnits(cs[order[0]]) >= Multiple(terms.multiplier, n)
    requires Fresh(cs, id) && cs[order[0]].unitType == t
    requires DebitVisit(ReserveUnitsAlong(cs, order, id, n, terms).counters, v, id, t)
    ensures var cs' := ReserveUnitsAlong(cs, order, id, n, terms).counters;
            && CanDebit(cs', v, id, t)
            && DebitOp(cs', v, id, n, t, reclaim).response == DebitResponse(n, 0.0, 0, 0)
  {
    hide DebitUnitsAlong, ReserveUnitsAlong, Multiple, Scaled, Unscaled, DebitValueAlong;
    var p, cs' := order[0], ReserveUnitsAlong(cs, order, id, n, terms).counters;
    FirstIsEnough(cs, order, id, n, terms);
    ReserveUnitsSound(cs, order, id, n, terms);
    DebitDefined(cs', v, id, t);
    OnlyPicked(cs', v.service, p, id, t);
    ScaledIsFloor(terms.multiplier, n);
    UnscaledNone(terms.multiplier);
    DebitLeaves(cs', v.service, id, n, reclaim);
    assert SlotsAlong(cs', v.service, id)[1..] == [];
    assert SlotsAlong(cs', v.service, id)[0].reservation == cs'[p].reservations[id];
  }

  lemma UnscaledNone(m: real)
    requires m > 0.0
    ensures Unscaled(m, 0) == 0
  {
    MulSign(m, Quotient(0.0, m));
  }

  lemma OnlyPicked(cs: seq<CounterState>, order: seq<nat>, p: nat, id: Uuid, t: UnitType)
    requires Picks(cs, order, HoldingFor(id, t)) && p < |cs|
    requires forall i :: 0 <= i < |cs| ==> (Holding(cs[i], id, t) <==> i == p)
    ensures order == [p]
  {
    assert HoldingFor(id, t)(cs[p]) && p in order;
    forall k | 0 <= k < |order| ensures order[k] == p {
      assert order[k] in order && HoldingFor(id, t)(cs[order[k]]);
    }
    TwoDiffer(order);
  }

  lemma TwoDiffer(order: seq<nat>)
    requires Distinct(order)
    ensures |order| > 1 ==> order[0] != order[1]
  {}

  // ---- money ----

  /** The units bought are the most that the money pays for at the price with tax, up to the request; if it pays for
      none, nothing is reserved. */
  lemma BoughtExactly(cs: seq<CounterState>, order: seq<nat>, id: Uuid, requested: int, terms: Terms)
    requires Sound(cs) && Positions(order, |cs|) && terms.unitPrice > 0.0 && terms.taxRate >= 0.0
    ensures Price(terms) > 0.0
    ensures var granted, has := ReserveMoney(cs, order, id, requested, terms).granted, AvailableAlong(cs, order);
            var price := terms.unitPrice * (1.0 + terms.taxRate);
            && granted <= requested && granted as real * price <= has
            && (granted == requested || (0 <= granted < requested && has < (granted + 1) as real * price))
            && (granted <= 0 ==> ReserveMoney(cs, order, id, requested, terms).counters == cs)
  {
    hide ReserveValueAlong, AvailableAlong, Price, Cost, Quotient;
    PricePositive(terms);
    AvailableAlongNonNegative(cs, order);
    PriceIs(terms);
    BoughtWhole(AvailableAlong(cs, order), terms.unitPrice * (1.0 + terms.taxRate), Price(terms), requested);
  }

  lemma PriceIs(terms: Terms)
    ensures Price(terms) == terms.unitPrice * (1.0 + terms.taxRate)
  {}

  /** The value reserved for units bought is their price with the multiplier and with tax, or all the money there is. */
  lemma ValueStoredExactly(cs: seq<CounterState>, order: seq<nat>, id: Uuid, requested: int, terms: Terms,
                           rateKey: RateKey)
    requires Sound(cs) && Unfunded(cs, id) && SoundTerms(terms, true)
    requires Picks(cs, order, Selecting(rateKey, MONETARY, terms.reason))
    ensures var r := ReserveMoney(cs, order, id, requested, terms);
            var due := terms.unitPrice * terms.multiplier * r.granted as real * (1.0 + terms.taxRate);
            r.granted > 0 ==>
              Total(r.counters, ValueUnder(id)) == MinReal(due, Total(cs, ValueFreeFor(rateKey, terms.reason)))
  {
    hide ReserveMoney;
    MoneyReserved(cs, order, id, requested, terms, rateKey);
    var g := ReserveMoney(cs, order, id, requested, terms).granted;
    DueIs(terms.unitPrice, terms.multiplier, g as real, 1.0 + terms.taxRate);
  }

  lemma DueIs(p: real, m: real, n: real, taxed: real)
    ensures Mul(m, Mul(Mul(p, n), taxed)) == p * m * n * taxed
  {
    calc {
      m * (p * n * taxed);
      (m * (p * n)) * taxed;
      { assert m * (p * n) == p * m * n; }
      p * m * n * taxed;
    }
  }

  lemma BoughtWhole(has: real, price: real, price': real, requested: int)
    requires has >= 0.0 && price' == price > 0.0
    ensures var g := Min(IntPart(Quotient(has, price')), requested);
            && g as real * price <= has
            && (g == requested || (0 <= g < requested && has < (g + 1) as real * price))
  {
    var q := Quotient(has, price);
    WholeUnits(has, price, q, requested);
    MulSign(price, q);
    var g := Min(IntPart(q), requested);
    assert Mul(g as real, price) == g as real * price;
    assert Mul((g + 1) as real, price) == (g + 1) as real * price;
  }

  // ---- what a reservation carries, and where it is made ----

  /** What is reserved under a new id carries the price, the multiplier, the tax rate and the reason of the call, and
      runs out when the validity asked for is over. */
  lemma ReservedAsAsked(cs: seq<CounterState>, c: Commit, taxRate: real)
    requires Sound(cs) && Possible(cs, c, taxRate) && c.call.Reserve? && Fresh(cs, c.call.id)
    ensures forall s :: s in Slots(After(cs, c, taxRate), c.call.id) ==>
              var r := s.reservation.terms;
              && r.unitPrice == c.call.unitPrice && r.multiplier == c.call.multiplier && r.taxRate == taxRate
              && r.reason == c.call.reason && r.expiry == c.now + c.call.validity
  {
    hide Slots, ReserveOp;
    var kept, id, terms := Expire(cs, c.now).kept, c.call.id, TermsOf(c.call, c.now, taxRate);
    ExpirySound(cs, c.now);
    FreshIsEmpty(cs, id);
    ExpireSlots(cs, c.now, id);
    NoneLive(c.now);
    FreshIsEmpty(kept, id);
    var o := Operate(kept, c.call, c.visit, c.now, taxRate);
    OperateSound(kept, c.call, c.visit, c.now, taxRate);
    ReserveSound(kept, c.visit, id, c.call.requested, c.call.unitType, terms, c.call.allowOOB);
    TermsOnly(kept, o.counters, id, terms);
    ExpireSlots(o.counters, c.now, id);
    LiveFrom(Slots(o.counters, id), c.now);
  }

  lemma NoneLive(now: Time)
    ensures Live([], now) == []
  {}

  lemma {:induction false} LiveFrom(slots: seq<Slot>, now: Time)
    ensures forall s :: s in Live(slots, now) ==> s in slots
  {
    if slots != [] { LiveFrom(slots[1..], now); }
  }

  /** The counter is for the unit type, a key of its own agrees with the one asked for in all five fields, and for a
      conversion it may be converted. */
  ghost predicate MayServe(c: CounterState, rateKey: RateKey, unitType: UnitType, reason: Reason) {
    && c.unitType == unitType && (reason == CONVERSION ==> c.canConvert)
    && exists key :: key in c.keys && KeysAgree(key, rateKey)
  }

  predicate KeysAgree(k: RateKey, other: RateKey) {
    && FieldsAgree(k.serviceType, other.serviceType) && FieldsAgree(k.sourceType, other.sourceType)
    && DirectionsAgree(k.serviceDirection, other.serviceDirection)
    && FieldsAgree(k.serviceCategory, other.serviceCategory) && FieldsAgree(k.serviceWindow, other.serviceWindow)
  }

  /** A reservation is made on those counters of the unit type, or of money, that may serve it, and on no others. */
  lemma VisitsServing(cs: seq<CounterState>, order: seq<nat>, rateKey: RateKey, unitType: UnitType, reason: Reason)
    requires Picks(cs, order, Selecting(rateKey, unitType, reason))
    ensures forall i :: 0 <= i < |cs| ==> (i in order <==> MayServe(cs[i], rateKey, unitType, reason))
  {
    hide KeysAgree, Matches;
    forall i | 0 <= i < |cs| ensures i in order <==> MayServe(cs[i], rateKey, unitType, reason) {
      forall key | key in cs[i].keys ensures Matches(key, rateKey).0 <==> KeysAgree(key, rateKey) {
        Agreement(key, rateKey);
      }
      assert Selecting(rateKey, unitType, reason)(cs[i]) == Selected(cs[i], rateKey, unitType, reason);
      if key :| key in cs[i].keys && KeysAgree(key, rateKey) {
        var k :| 0 <= k < |cs[i].keys| && cs[i].keys[k] == key;
      }
      if k :| 0 <= k < |cs[i].keys| && Matches(cs[i].keys[k], rateKey).0 { assert cs[i].keys[k] in cs[i].keys; }
    }
  }

  lemma Agreement(k: RateKey, other: RateKey)
    ensures Matches(k, other).0 <==> KeysAgree(k, other)
  {
    MatchMeaning(k, other);
  }
}
