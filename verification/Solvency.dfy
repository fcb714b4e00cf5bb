/** Every operation keeps every counter solvent and leaves other reservations alone. */
module Solvency {
  import opened Basics
  import opened Charging
  import opened Ledger
  import opened QuotaOps

  /** The maps agree on every reservation except the one under `id`. */
  predicate SameOff(m: map<Uuid, Reservation>, m': map<Uuid, Reservation>, id: Uuid) {
    m - {id} == m' - {id}
  }

  /** Only the reservation under `id` differs. */
  predicate OnlyReserves(c: CounterState, c': CounterState, id: Uuid) {
    c' == c.(reservations := c'.reservations) && SameOff(c.reservations, c'.reservations, id)
  }

  /** Only the balance and the reservation under `id` differ. */
  predicate OnlyDebits(c: CounterState, c': CounterState, id: Uuid) {
    c' == c.(reservations := c'.reservations, balance := c'.balance) && SameOff(c.reservations, c'.reservations, id)
  }

  /** A reservation under `id` keeps the terms it had, or carries the given ones. */
  predicate TermsFrom(c: CounterState, c': CounterState, id: Uuid, terms: Option<Terms>) {
    id in c'.reservations ==>
      || Some(c'.reservations[id].terms) == terms
      || (id in c.reservations && c'.reservations[id].terms == c.reservations[id].terms)
  }

  /** What a reserve request must satisfy: the source divides by the multiplier and, on the
      monetary path, by the price with tax. */
  predicate SoundTerms(terms: Terms, monetary: bool) {
    terms.multiplier > 0.0 && (monetary ==> terms.unitPrice > 0.0 && terms.taxRate >= 0.0)
  }

  // ---- one counter ----

  lemma {:induction false} PutSolvent(c: CounterState, id: Uuid, r: Reservation)
    requires Solvent(c) && SoundReservation(c.unitType, r)
    requires if c.unitType == MONETARY then r.value <= AvailableValue(c) else r.units <= AvailableUnits(c)
    ensures Solvent(Put(c, id, r))
  {
    HeldPut(c.reservations, id, r);
    HeldShrinks(c.reservations, c.reservations - {id});
  }

  lemma ReserveUnitsSolvent(c: CounterState, id: Uuid, n: int, terms: Terms)
    requires Solvent(c) && terms.multiplier > 0.0
    ensures var (c', got) := ReserveUnits(c, id, n, terms);
            Solvent(c') && OnlyReserves(c, c', id) && (n >= 0 ==> got >= 0)
  {
    var got := Min(AvailableUnits(c), Scaled(terms.multiplier, n));
    if c.unitType != MONETARY && got > 0 { PutSolvent(c, id, Reservation(got, 0.0, terms)); }
  }

  lemma TakeValueSolvent(c: CounterState, id: Uuid, wanted: real, terms: Terms)
    requires Solvent(c) && SoundTerms(terms, true) && c.unitType == MONETARY
    ensures var c' := TakeValue(c, id, wanted, terms).0; Solvent(c') && OnlyReserves(c, c', id)
  {
    var taken := MinReal(wanted, AvailableValue(c));
    if taken > 0.0 { PutSolvent(c, id, Reservation(0, taken, terms)); }
  }

  lemma ReserveValueSolvent(c: CounterState, id: Uuid, amount: real, terms: Terms)
    requires Solvent(c) && SoundTerms(terms, true)
    ensures var c' := ReserveValue(c, id, amount, terms).0; Solvent(c') && OnlyReserves(c, c', id)
  {
    if c.unitType == MONETARY { TakeValueSolvent(c, id, Mul(terms.multiplier, amount), terms); }
  }

  /** Taking part of the reservation under `id` off the balance, and keeping or dropping the rest. */
  lemma {:induction false} DrawSolvent(c: CounterState, id: Uuid, r: Reservation, drop: bool, taken: real)
    requires Solvent(c) && id in c.reservations && taken >= 0.0
    requires drop || SoundReservation(c.unitType, r)
    requires if c.unitType == MONETARY then r.value == c.reservations[id].value - taken >= 0.0
             else r.units as real == c.reservations[id].units as real - taken >= 0.0
    ensures DebitedBalance(c.balance, taken) == c.balance - taken
    ensures Solvent(c.(balance := c.balance - taken, reservations := Remaining(c.reservations, id, r, drop)))
  {
    HeldSplit(c.reservations, id);
    HeldShrinks(c.reservations - {id}, c.reservations - {id});
    HeldPut(c.reservations, id, r);
  }

  lemma DebitUnitsSolvent(c: CounterState, id: Uuid, remaining: int, reclaim: bool)
    requires Solvent(c) && id in c.reservations && c.unitType != MONETARY && remaining >= 0
    ensures var d := DebitUnits(c, id, remaining, reclaim);
            && Solvent(d.counter) && OnlyDebits(c, d.counter, id) && d.left >= 0
            && d.entry.adjusted >= 0.0 && d.counter.balance == c.balance - d.entry.adjusted == d.entry.balance
  {
    hide UnitsHeld;
    var r := c.reservations[id];
    var taken := Min(r.units, Scaled(r.terms.multiplier, remaining));
    DrawSolvent(c, id, r.(units := r.units - taken), reclaim || r.units - taken == 0, taken as real);
  }

  lemma DebitValueSolvent(c: CounterState, id: Uuid, remaining: real, reclaim: bool)
    requires Solvent(c) && id in c.reservations && c.unitType == MONETARY
    ensures var d := DebitValue(c, id, remaining, reclaim);
            && Solvent(d.counter) && OnlyDebits(c, d.counter, id) && (remaining >= 0.0 ==> d.left >= 0.0)
            && d.taken >= 0.0 && d.counter.balance == c.balance - d.taken && d.taken + d.left == remaining
  {
    if remaining <= 0.0 {
      ReleasedSolvent(c, id);
    } else {
      var r := c.reservations[id];
      var taken := MinReal(r.value, remaining);
      DrawSolvent(c, id, r.(value := r.value - taken), reclaim || r.value - taken == 0.0, taken);
    }
  }

  lemma {:induction false} ReleasedSolvent(c: CounterState, id: Uuid)
    requires Solvent(c)
    ensures Solvent(Released(c, id)) && OnlyReserves(c, Released(c, id), id)
  {
    HeldShrinks(c.reservations, c.reservations - {id});
  }

  lemma {:induction false} PrunedSolvent(c: CounterState, now: Time)
    requires Solvent(c)
    ensures Solvent(Pruned(c, now))
  {
    HeldShrinks(c.reservations, Pruned(c, now).reservations);
  }

  // ---- a whole quota ----

  lemma {:induction false} ReserveUnitsSound(cs: seq<CounterState>, order: seq<nat>, id: Uuid, n: int, terms: Terms)
    requires Sound(cs) && Positions(order, |cs|) && terms.multiplier > 0.0
    ensures var r := ReserveUnitsAlong(cs, order, id, n, terms);
            && r.granted >= 0 && |r.counters| == |cs| && Sound(r.counters)
            && forall i :: 0 <= i < |cs| ==>
                  OnlyReserves(cs[i], r.counters[i], id) && TermsFrom(cs[i], r.counters[i], id, Some(terms))
    decreases |order|
  {
    hide Solvent, AvailableUnits;
    if order != [] && n > 0 {
      var (c, got) := ReserveUnits(cs[order[0]], id, n, terms);
      ReserveUnitsSolvent(cs[order[0]], id, n, terms);
      ReserveUnitsSound(cs[order[0] := c], order[1..], id, n - got, terms);
    }
  }

  lemma {:induction false} ReserveValueSound(cs: seq<CounterState>, order: seq<nat>, id: Uuid, amount: real,
                                             terms: Terms)
    requires Sound(cs) && Positions(order, |cs|) && SoundTerms(terms, true)
    ensures var cs' := ReserveValueAlong(cs, order, id, amount, terms);
            && |cs'| == |cs| && Sound(cs')
            && forall i :: 0 <= i < |cs| ==>
                  OnlyReserves(cs[i], cs'[i], id) && TermsFrom(cs[i], cs'[i], id, Some(terms))
    decreases |order|
  {
    hide Solvent;
    if order != [] && amount > 0.0 {
      var (c, got) := ReserveValue(cs[order[0]], id, amount, terms);
      ReserveValueSolvent(cs[order[0]], id, amount, terms);
      ReserveValueSound(cs[order[0] := c], order[1..], id, amount - got, terms);
    }
  }

  lemma {:induction false} DebitUnitsSound(cs: seq<CounterState>, order: seq<nat>, id: Uuid, remaining: int,
                                           reclaim: bool)
    requires Sound(cs) && Reserved(cs, order, id) && remaining >= 0
    requires forall k :: 0 <= k < |order| ==> cs[order[k]].unitType != MONETARY
    ensures var d := DebitUnitsAlong(cs, order, id, remaining, reclaim);
            && d.left >= 0 && |d.counters| == |cs| && Sound(d.counters)
            && forall i :: 0 <= i < |cs| ==>
                  OnlyDebits(cs[i], d.counters[i], id) && TermsFrom(cs[i], d.counters[i], id, None)
    decreases |order|
  {
    if order != [] {
      var d := DebitUnits(cs[order[0]], id, remaining, reclaim);
      DebitUnitsSolvent(cs[order[0]], id, remaining, reclaim);
      DebitUnitsSound(cs[order[0] := d.counter], order[1..], id, d.left, reclaim);
    }
  }

  lemma {:induction false} DebitValueSound(cs: seq<CounterState>, order: seq<nat>, id: Uuid, remaining: real,
                                           reclaim: bool)
    requires Sound(cs) && Reserved(cs, order, id)
    requires forall k :: 0 <= k < |order| ==> cs[order[k]].unitType == MONETARY
    ensures var d := DebitValueAlong(cs, order, id, remaining, reclaim);
            && |d.counters| == |cs| && Sound(d.counters)
            && forall i :: 0 <= i < |cs| ==>
                  OnlyDebits(cs[i], d.counters[i], id) && TermsFrom(cs[i], d.counters[i], id, None)
    decreases |order|
  {
    if order != [] {
      var d := DebitValue(cs[order[0]], id, remaining, reclaim);
      DebitValueSolvent(cs[order[0]], id, remaining, reclaim);
      DebitValueSound(cs[order[0] := d.counter], order[1..], id, d.left, reclaim);
    }
  }
}
