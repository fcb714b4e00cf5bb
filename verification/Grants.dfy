/** A grant given is a grant that can be paid for: whatever other calls come in between, the
    first debit of no more than was granted is accounted for in full. */
module Grants {
  import opened Basics
  import opened Charging
  import opened Ledger
  import opened QuotaOps
  import opened Solvency
  import opened Reserving
  import opened Debiting
  import opened Loans
  import opened Expiry
  import opened Attempts

  /** A reservation together with the type and priority of the counter it is on. */
  datatype Slot = Slot(unitType: UnitType, priority: int, reservation: Reservation)

  /** The reservations held under an id, in counter order. */
  function Slots(cs: seq<CounterState>, id: Uuid): seq<Slot> {
    if cs == [] then [] else SlotOf(cs[0], id) + Slots(cs[1..], id)
  }

  function SlotOf(c: CounterState, id: Uuid): seq<Slot> {
    if id in c.reservations then [Slot(c.unitType, c.priority, c.reservations[id])] else []
  }

  /** Those not yet expired. */
  function Live(slots: seq<Slot>, now: Time): seq<Slot> {
    if slots == [] then [] else
    (if slots[0].reservation.terms.expiry > now then [slots[0]] else []) + Live(slots[1..], now)
  }

  lemma {:induction false} SlotsConcat(a: seq<CounterState>, b: seq<CounterState>, id: Uuid)
    ensures Slots(a + b, id) == Slots(a, id) + Slots(b, id)
  {
    hide SlotOf;
    if a == [] {
      assert a + b == b;
    } else {
      SlotsConcat(a[1..], b, id);
      assert (a + b)[0] == a[0] && (a + b)[1..] == a[1..] + b;
      ConcatAssociates(SlotOf(a[0], id), Slots(a[1..], id), Slots(b, id));
    }
  }

  lemma {:induction false} LiveConcat(a: seq<Slot>, b: seq<Slot>, now: Time)
    ensures Live(a + b, now) == Live(a, now) + Live(b, now)
  {
    if a == [] {
      assert a + b == b;
    } else {
      LiveConcat(a[1..], b, now);
      assert (a + b)[1..] == a[1..] + b;
      var head := if a[0].reservation.terms.expiry > now then [a[0]] else [];
      assert head + (Live(a[1..], now) + Live(b, now)) == head + Live(a[1..], now) + Live(b, now);
    }
  }

  lemma {:induction false} AllLive(slots: seq<Slot>, now: Time)
    requires forall s :: s in slots ==> s.reservation.terms.expiry > now
    ensures Live(slots, now) == slots
  {
    if slots != [] { AllLive(slots[1..], now); }
  }

  lemma {:induction false} SlotsSame(cs: seq<CounterState>, cs': seq<CounterState>, id: Uuid)
    requires |cs'| == |cs|
    requires forall i :: 0 <= i < |cs| ==>
               && cs'[i].unitType == cs[i].unitType && cs'[i].priority == cs[i].priority
               && (id in cs[i].reservations <==> id in cs'[i].reservations)
    requires forall i :: 0 <= i < |cs| && id in cs[i].reservations ==> cs'[i].reservations[id] == cs[i].reservations[id]
    ensures Slots(cs', id) == Slots(cs, id)
  {
    if cs != [] { SlotsSame(cs[1..], cs'[1..], id); }
  }

  lemma SlotsOff(cs: seq<CounterState>, cs': seq<CounterState>, other: Uuid, id: Uuid)
    requires |cs'| == |cs| && id != other
    requires forall i :: 0 <= i < |cs| ==>
               && cs'[i].unitType == cs[i].unitType && cs'[i].priority == cs[i].priority
               && SameOff(cs[i].reservations, cs'[i].reservations, other)
    ensures Slots(cs', id) == Slots(cs, id)
  {
    forall i | 0 <= i < |cs|
      ensures id in cs[i].reservations <==> id in cs'[i].reservations
      ensures id in cs[i].reservations ==> cs'[i].reservations[id] == cs[i].reservations[id]
    {
      var m, m' := cs[i].reservations - {other}, cs'[i].reservations - {other};
      assert m == m' && (id in m <==> id in cs[i].reservations) && (id in m' <==> id in cs'[i].reservations);
      if id in m { assert m[id] == m'[id]; }
    }
    SlotsSame(cs, cs', id);
  }

  lemma {:induction false} SlotsCover(cs: seq<CounterState>, i: nat, id: Uuid)
    requires i < |cs| && id in cs[i].reservations
    ensures Slot(cs[i].unitType, cs[i].priority, cs[i].reservations[id]) in Slots(cs, id)
  {
    if i > 0 { SlotsCover(cs[1..], i - 1, id); }
  }

  lemma {:induction false} SlotsFrom(cs: seq<CounterState>, id: Uuid, s: Slot)
    requires s in Slots(cs, id)
    ensures exists i :: 0 <= i < |cs| && Holding(cs[i], id, s.unitType) && cs[i].reservations[id] == s.reservation
  {
    if s in Slots(cs[1..], id) {
      SlotsFrom(cs[1..], id, s);
      var i :| 0 <= i < |cs[1..]| && Holding(cs[1..][i], id, s.unitType)
          && cs[1..][i].reservations[id] == s.reservation;
      assert cs[i + 1] == cs[1..][i];
    } else {
      assert Holding(cs[0], id, s.unitType);
    }
  }

  /** The id is used nowhere exactly when it holds nothing. */
  lemma FreshIsEmpty(cs: seq<CounterState>, id: Uuid)
    ensures Fresh(cs, id) <==> Slots(cs, id) == []
  {
    forall i | 0 <= i < |cs| && id in cs[i].reservations ensures Slots(cs, id) != [] { SlotsCover(cs, i, id); }
    if Slots(cs, id) != [] { SlotsFrom(cs, id, Slots(cs, id)[0]); }
  }

  // ---- expiry drops the expired reservations and no others ----

  lemma ExpireCounterSlots(c: CounterState, now: Time, id: Uuid)
    requires Solvent(c)
    ensures Slots(ExpireCounter(c, now).kept, id) == Live(Slots([c], id), now)
  {
    if c.balance == 0.0 { EmptyHoldsNothing(c); }
    var p := Pruned(c, now);
    assert id in p.reservations ==> id in c.reservations && p.reservations[id] == c.reservations[id];
    assert [c][1..] == [];
    assert Slots([p], id) == Live(Slots([c], id), now) by { assert [p][1..] == []; }
    assert Slots([p.(balance := 0.0)], id) == Slots([p], id) by { SlotsSame([p], [p.(balance := 0.0)], id); }
    assert ExpireCounter(c, now).kept == [] ==> id !in p.reservations;
  }

  /** On a sound quota expiry keeps, under every id, exactly the reservations that have not expired. */
  lemma {:induction false} ExpireSlots(cs: seq<CounterState>, now: Time, id: Uuid)
    requires Sound(cs)
    ensures Slots(Expire(cs, now).kept, id) == Live(Slots(cs, id), now)
  {
    if cs != [] {
      ExpireCounterSlots(cs[0], now, id);
      ExpireSlots(cs[1..], now, id);
      SlotsConcat(ExpireCounter(cs[0], now).kept, Expire(cs[1..], now).kept, id);
      SlotsConcat([cs[0]], cs[1..], id);
      assert [cs[0]] + cs[1..] == cs;
      LiveConcat(Slots([cs[0]], id), Slots(cs[1..], id), now);
    }
  }

  // ---- other calls ----

  /** The call concerns some other reservation, or none. */
  predicate Other(call: Call, id: Uuid) {
    match call
    case Reserve(id', _, _, _, _, _, _, _, _) => id' != id
    case Debit(id', _, _, _) => id' != id
    case Release(id') => id' != id
    case _ => true
  }

  lemma ProvisionSlots(cs: seq<CounterState>, req: ProvisionRequest, id: Uuid)
    requires Sound(cs) && SoundCall(Provision(req), 0.0)
    ensures Slots(ProvisionOp(cs, req).0, id) == Slots(cs, id)
  {
    hide ProvisionOp;
    ProvisionSound(cs, req, false);
    if !Known(cs, req.counterId) {
      var cs1, cs' := cs + [NewCounter(req)], ProvisionOp(cs, req).0;
      SlotsConcat(cs, [NewCounter(req)], id);
      assert [NewCounter(req)][1..] == [];
      forall i | 0 <= i < |cs|
        ensures cs'[i].reservations == cs1[i].reservations && cs'[i].unitType == cs1[i].unitType
        ensures cs'[i].priority == cs1[i].priority
      {
        assert Repays(cs1[i], cs'[i]);
      }
      SlotsSame(cs1, cs', id);
    }
  }

  lemma OperateOther(cs: seq<CounterState>, call: Call, v: Visit, now: Time, taxRate: real, id: Uuid)
    requires Sound(cs) && SoundCall(call, taxRate) && Visits(cs, call, v) && Other(call, id)
    ensures Slots(Operate(cs, call, v, now, taxRate).counters, id) == Slots(cs, id)
  {
    var cs' := Operate(cs, call, v, now, taxRate).counters;
    match call
    case Reserve(id', _, _, unitType, requested, _, _, _, allowOOB) =>
      ReserveSound(cs, v, id', requested, unitType, TermsOf(call, now, taxRate), allowOOB);
      SlotsOff(cs, cs', id', id);
    case Debit(id', used, unitType, reclaim) =>
      DebitDefined(cs, v, id', unitType);
      DebitConserves(cs, v, id', used, unitType, reclaim);
      SlotsOff(cs, cs', id', id);
    case Release(id') =>
      ReleaseSound(cs, id');
      SlotsOff(cs, cs', id', id);
    case Provision(req) => ProvisionSlots(cs, req, id);
    case ProcessExpired =>
  }

  /** An attempt at another call, before the reservation expires, leaves it as it is. */
  lemma AttemptOther(cs: seq<CounterState>, call: Call, v: Visit, now: Time, taxRate: real, id: Uuid)
    requires Sound(cs) && SoundCall(call, taxRate) && Visits(Expire(cs, now).kept, call, v) && Other(call, id)
    requires forall s :: s in Slots(cs, id) ==> s.reservation.terms.expiry > now
    ensures Slots(Attempt(cs, call, v, now, taxRate).counters, id) == Slots(cs, id)
  {
    ExpirySound(cs, now);
    ExpireSlots(cs, now, id);
    AllLive(Slots(cs, id), now);
    var kept := Expire(cs, now).kept;
    OperateOther(kept, call, v, now, taxRate, id);
    OperateSound(kept, call, v, now, taxRate);
    ExpireSlots(Operate(kept, call, v, now, taxRate).counters, now, id);
  }

  // ---- what a grant is worth ----

  /** Service units of type `t` in the slots. */
  function SlotUnits(slots: seq<Slot>, t: UnitType): real {
    if slots == [] then 0.0 else
    (if slots[0].unitType == t then slots[0].reservation.units as real else 0.0) + SlotUnits(slots[1..], t)
  }

  function ServiceUnits(slots: seq<Slot>, t: UnitType): real {
    if t == MONETARY then 0.0 else SlotUnits(slots, t)
  }

  /** Money in the slots. */
  function SlotValue(slots: seq<Slot>): real {
    if slots == [] then 0.0 else
    (if slots[0].unitType == MONETARY then slots[0].reservation.value else 0.0) + SlotValue(slots[1..])
  }

  lemma {:induction false} SlotTotals(cs: seq<CounterState>, id: Uuid, t: UnitType)
    ensures Total(cs, UnitsUnder(id, t)) == SlotUnits(Slots(cs, id), t)
    ensures Total(cs, ValueUnder(id)) == SlotValue(Slots(cs, id))
  {
    if cs != [] {
      SlotTotals(cs[1..], id, t);
      assert Weights(cs, UnitsUnder(id, t))[1..] == Weights(cs[1..], UnitsUnder(id, t));
      assert Weights(cs, ValueUnder(id))[1..] == Weights(cs[1..], ValueUnder(id));
      if id in cs[0].reservations {
        assert Slots(cs, id)[1..] == Slots(cs[1..], id);
      } else {
        assert Slots(cs, id) == Slots(cs[1..], id);
      }
    }
  }

  /** The slots pay for g units: with service units, and with the price of the rest in money. */
  ghost predicate Funds(slots: seq<Slot>, t: UnitType, g: int, terms: Terms) {
    && (forall s :: s in slots ==> s.reservation.terms == terms)
    && (|| g as real <= ServiceUnits(slots, t)
        || (&& terms.unitPrice > 0.0 && terms.taxRate >= 0.0
            && SlotValue(slots) >= Mul(g as real - ServiceUnits(slots, t), Price(terms))))
  }

  // ---- the debit ----

  lemma {:induction false} UnitsLeftOver(cs: seq<CounterState>, v: Visit, id: Uuid, used: int, t: UnitType,
                                         reclaim: bool, terms: Terms)
    requires Sound(cs) && DebitVisit(cs, v, id, t) && CanDebit(cs, v, id, t) && used >= 0 && terms.multiplier == 1.0
    requires forall s :: s in Slots(cs, id) ==> s.reservation.terms == terms
    ensures ServicePart(cs, v, id, used, t, reclaim).left as real
            == Excess(used as real, ServiceUnits(Slots(cs, id), t))
    ensures forall k :: 0 <= k < |v.monetary| ==> cs[v.monetary[k]].reservations[id].terms == terms
  {
    DebitDefined(cs, v, id, t);
    forall k | 0 <= k < |v.monetary| ensures cs[v.monetary[k]].reservations[id].terms == terms {
      SlotsCover(cs, v.monetary[k], id);
    }
    if t != MONETARY {
      forall k | 0 <= k < |v.service| ensures cs[v.service[k]].reservations[id].terms == terms {
        SlotsCover(cs, v.service[k], id);
      }
      ExactAlong(cs, v.service, id, used, reclaim, t);
      SumPicked(Weights(cs, UnitsUnder(id, t)), v.service);
      SlotTotals(cs, id, t);
    }
  }

  lemma {:induction false} ValueLeftOver(cs: seq<CounterState>, v: Visit, id: Uuid, used: int, t: UnitType,
                                         reclaim: bool)
    requires Sound(cs) && DebitVisit(cs, v, id, t) && CanDebit(cs, v, id, t) && used >= 0 && v.monetary != []
    requires ValueDue(cs, v, id, used, t, reclaim) >= 0.0
    ensures MoneyPart(cs, v, id, used, t, reclaim).left
            == Excess(ValueDue(cs, v, id, used, t, reclaim), SlotValue(Slots(cs, id)))
  {
    DebitDefined(cs, v, id, t);
    ServicePartSound(cs, v, id, used, t, reclaim);
    var s := ServicePart(cs, v, id, used, t, reclaim);
    ValueExactAlong(s.counters, v.monetary, id, ValueDue(cs, v, id, used, t, reclaim), reclaim);
    SumAlongAgrees(Weights(cs, ValueUnder(id)), Weights(s.counters, ValueUnder(id)), v.monetary);
    SumPicked(Weights(cs, ValueUnder(id)), v.monetary);
    SlotTotals(cs, id, t);
  }

  lemma NoMoneyNoValue(cs: seq<CounterState>, v: Visit, id: Uuid, t: UnitType)
    requires DebitVisit(cs, v, id, t) && v.monetary == []
    ensures SlotValue(Slots(cs, id)) == 0.0
  {
    SumPicked(Weights(cs, ValueUnder(id)), v.monetary);
    SlotTotals(cs, id, t);
  }

  lemma DueIsCost(terms: Terms, units: int)
    requires terms.multiplier == 1.0
    ensures RemainingValue(terms, units) == Mul(units as real, Price(terms))
  {
    MulLinear(terms.unitPrice, 1.0, 1.0);
    CostOf(terms, units);
  }

  lemma Covered(value: real, short: real, left: real, price: real)
    requires value >= Mul(short, price) && 0.0 < left <= short && price > 0.0
    ensures value >= Mul(left, price) > 0.0
  {
    MulMono(left, short, price);
    MulPositive(left, price);
  }

  /** What the service counters left over, the money in the slots pays for. */
  lemma MoneyEnough(slots: seq<Slot>, t: UnitType, used: int, left: int, g: int, terms: Terms)
    requires 0 < used <= g && terms.multiplier == 1.0 && Funds(slots, t, g, terms) && left > 0
    requires left as real == Excess(used as real, ServiceUnits(slots, t))
    ensures SlotValue(slots) >= RemainingValue(terms, left) > 0.0
  {
    DueIsCost(terms, left);
    PricePositive(terms);
    Covered(SlotValue(slots), g as real - ServiceUnits(slots, t), left as real, Price(terms));
  }

  /** Funds for g units cover a debit of up to g. */
  lemma DebitFunded(cs: seq<CounterState>, v: Visit, id: Uuid, used: int, t: UnitType, reclaim: bool, g: int,
                    terms: Terms)
    requires Sound(cs) && DebitVisit(cs, v, id, t) && CanDebit(cs, v, id, t)
    requires 0 < used <= g && terms.multiplier == 1.0 && Funds(Slots(cs, id), t, g, terms)
    ensures DebitOp(cs, v, id, used, t, reclaim).response.unaccountedUnits == 0
  {
    hide Slots;
    UnitsLeftOver(cs, v, id, used, t, reclaim, terms);
    ServicePartSound(cs, v, id, used, t, reclaim);
    var left := ServicePart(cs, v, id, used, t, reclaim).left;
    if left > 0 {
      MoneyEnough(Slots(cs, id), t, used, left, g, terms);
      if v.monetary == [] {
        NoMoneyNoValue(cs, v, id, t);
      } else {
        ValueLeftOver(cs, v, id, used, t, reclaim);
      }
    }
  }

  // ---- the reservation ----

  lemma UnitsStoredOnce(cs: seq<CounterState>, p: nat, id: Uuid, n: int, terms: Terms, t: UnitType)
    requires Sound(cs) && p < |cs| && n > 0 && terms.multiplier > 0.0 && t != MONETARY
    requires cs[p].unitType == t && id !in cs[p].reservations
    ensures var (c, got) := ReserveUnits(cs[p], id, n, terms);
            && Sound(cs[p := c]) && got >= 0
            && Total(cs[p := c], UnitsUnder(id, t)) == Total(cs, UnitsUnder(id, t)) + got as real
  {
    var (c, got) := ReserveUnits(cs[p], id, n, terms);
    ReserveUnitsSolvent(cs[p], id, n, terms);
    TotalUpdate(cs, p, c, UnitsUnder(id, t));
  }

  /** What a service reservation grants is what it stores. */
  lemma {:induction false} UnitsStoredAlong(cs: seq<CounterState>, order: seq<nat>, id: Uuid, n: int, terms: Terms,
                                            t: UnitType)
    requires Sound(cs) && Positions(order, |cs|) && Distinct(order) && terms.multiplier > 0.0 && t != MONETARY
    requires forall k :: 0 <= k < |order| ==> cs[order[k]].unitType == t && id !in cs[order[k]].reservations
    ensures var r := ReserveUnitsAlong(cs, order, id, n, terms);
            Total(r.counters, UnitsUnder(id, t)) == Total(cs, UnitsUnder(id, t)) + r.granted as real
    decreases |order|
  {
    if order != [] && n > 0 {
      var (c, got) := ReserveUnits(cs[order[0]], id, n, terms);
      UnitsStoredOnce(cs, order[0], id, n, terms, t);
      UnitsStoredAlong(cs[order[0] := c], order[1..], id, n - got, terms, t);
    }
  }

  lemma {:induction false} ReserveValueElsewhere(cs: seq<CounterState>, order: seq<nat>, id: Uuid, amount: real,
                                                 terms: Terms)
    requires Positions(order, |cs|) && SoundTerms(terms, true) && Sound(cs)
    ensures |ReserveValueAlong(cs, order, id, amount, terms)| == |cs|
    ensures forall i :: 0 <= i < |cs| && cs[i].unitType != MONETARY ==>
              ReserveValueAlong(cs, order, id, amount, terms)[i] == cs[i]
    decreases |order|
  {
    if order != [] && amount > 0.0 {
      var (c, got) := ReserveValue(cs[order[0]], id, amount, terms);
      ReserveValueSolvent(cs[order[0]], id, amount, terms);
      ReserveValueElsewhere(cs[order[0] := c], order[1..], id, amount - got, terms);
    }
  }

  /** A selection visits counters of its own unit type only. */
  lemma PickedType(cs: seq<CounterState>, order: seq<nat>, rateKey: RateKey, t: UnitType, reason: Reason)
    requires Picks(cs, order, Selecting(rateKey, t, reason))
    ensures forall k :: 0 <= k < |order| ==> cs[order[k]].unitType == t
    ensures forall i :: 0 <= i < |cs| && cs[i].unitType != t ==> i !in order
  {
    forall k | 0 <= k < |order| ensures cs[order[k]].unitType == t {
      assert order[k] in order && Selected(cs[order[k]], rateKey, t, reason);
    }
  }

  lemma ServiceFunds(cs: seq<CounterState>, order: seq<nat>, id: Uuid, n: int, terms: Terms, rateKey: RateKey,
                     t: UnitType)
    requires Sound(cs) && Fresh(cs, id) && terms.multiplier == 1.0 && t != MONETARY
    requires Picks(cs, order, Selecting(rateKey, t, terms.reason))
    ensures var r := ReserveUnitsAlong(cs, order, id, n, terms);
            && Sound(r.counters) && Unfunded(r.counters, id)
            && SlotUnits(Slots(r.counters, id), t) == r.granted as real
            && Picks(r.counters, order, Selecting(rateKey, t, terms.reason))
            && forall i :: 0 <= i < |cs| ==>
                  OnlyReserves(cs[i], r.counters[i], id) && TermsFrom(cs[i], r.counters[i], id, Some(terms))
  {
    PickedType(cs, order, rateKey, t, terms.reason);
    ReserveUnitsSound(cs, order, id, n, terms);
    ReserveUnitsElsewhere(cs, order, id, n, terms);
    UnitsStoredAlong(cs, order, id, n, terms, t);
    SlotTotals(ReserveUnitsAlong(cs, order, id, n, terms).counters, id, t);
    SlotTotals(cs, id, t);
    FreshIsEmpty(cs, id);
    PicksKept(cs, ReserveUnitsAlong(cs, order, id, n, terms).counters, order, rateKey, t, terms.reason);
  }

  lemma MoneyFunds(cs: seq<CounterState>, order: seq<nat>, id: Uuid, n: int, terms: Terms, rateKey: RateKey,
                   t: UnitType)
    requires Sound(cs) && Unfunded(cs, id) && SoundTerms(terms, true) && terms.multiplier == 1.0
    requires Picks(cs, order, Selecting(rateKey, MONETARY, terms.reason))
    requires Price(terms) != 0.0
    ensures var r := ReserveMoney(cs, order, id, n, terms);
            && (r.granted > 0 ==> SlotValue(Slots(r.counters, id)) == Cost(terms, r.granted))
            && (t != MONETARY ==> SlotUnits(Slots(r.counters, id), t) == SlotUnits(Slots(cs, id), t))
  {
    var r := ReserveMoney(cs, order, id, n, terms);
    MoneyReserved(cs, order, id, n, terms, rateKey);
    ReserveValueElsewhere(cs, order, id, Cost(terms, r.granted), terms);
    SlotTotals(cs, id, t);
    SlotTotals(r.counters, id, t);
    if t != MONETARY {
      ReserveMoneySound(cs, order, id, n, terms);
      assert Weights(r.counters, UnitsUnder(id, t)) == Weights(cs, UnitsUnder(id, t));
    }
  }

  lemma TermsOnly(cs: seq<CounterState>, cs': seq<CounterState>, id: Uuid, terms: Terms)
    requires Fresh(cs, id) && |cs'| == |cs| && forall i :: 0 <= i < |cs| ==> TermsFrom(cs[i], cs'[i], id, Some(terms))
    ensures forall s :: s in Slots(cs', id) ==> s.reservation.terms == terms
  {
    forall s | s in Slots(cs', id) ensures s.reservation.terms == terms { SlotsFrom(cs', id, s); }
  }

  lemma FundsArithmetic(slots: seq<Slot>, t: UnitType, units: int, bought: int, terms: Terms)
    requires forall s :: s in slots ==> s.reservation.terms == terms
    requires terms.unitPrice > 0.0 && terms.taxRate >= 0.0
    requires ServiceUnits(slots, t) == units as real && (bought > 0 ==> SlotValue(slots) == Cost(terms, bought))
    ensures Funds(slots, t, units + bought, terms)
  {
    CostOf(terms, bought);
    MulLinear(Price(terms), 0.0, 0.0);
    if bought <= 0 { assert (units + bought) as real <= units as real; }
  }

  /** Money reserved on top of `units` service units funds both. */
  lemma ToppedUp(cs: seq<CounterState>, order: seq<nat>, id: Uuid, n: int, terms: Terms, rateKey: RateKey, t: UnitType,
                 units: int, g: int)
    requires Sound(cs) && Unfunded(cs, id) && SoundTerms(terms, true) && terms.multiplier == 1.0
    requires Picks(cs, order, Selecting(rateKey, MONETARY, terms.reason))
    requires Price(terms) != 0.0
    requires g == units + ReserveMoney(cs, order, id, n, terms).granted
    requires if t == MONETARY then units == 0 else SlotUnits(Slots(cs, id), t) == units as real
    requires forall s :: s in Slots(ReserveMoney(cs, order, id, n, terms).counters, id) ==> s.reservation.terms == terms
    ensures Funds(Slots(ReserveMoney(cs, order, id, n, terms).counters, id), t, g, terms)
  {
    hide Slots, Unfunded;
    var m := ReserveMoney(cs, order, id, n, terms);
    MoneyFunds(cs, order, id, n, terms, rateKey, t);
    FundsArithmetic(Slots(m.counters, id), t, units, m.granted, terms);
  }

  /** Service units first, then money for what is missing. */
  lemma MixedFunds(cs: seq<CounterState>, v: Visit, id: Uuid, n: int, t: UnitType, terms: Terms, allowOOB: bool,
                   rateKey: RateKey)
    requires Sound(cs) && Fresh(cs, id) && terms.multiplier == 1.0 && SoundTerms(terms, allowOOB) && t != MONETARY
    requires allowOOB ==> Price(terms) != 0.0
    requires Picks(cs, v.service, Selecting(rateKey, t, terms.reason))
    requires Picks(cs, v.monetary, Selecting(rateKey, MONETARY, terms.reason))
    requires forall s :: s in Slots(ReserveOp(cs, v, id, n, t, terms, allowOOB).counters, id) ==>
               s.reservation.terms == terms
    ensures var r := ReserveOp(cs, v, id, n, t, terms, allowOOB); Funds(Slots(r.counters, id), t, r.granted, terms)
  {
    hide Picks, Slots;
    ServiceFunds(cs, v.service, id, n, terms, rateKey, t);
    var s := ReserveUnitsAlong(cs, v.service, id, n, terms);
    if allowOOB && s.granted < n {
      PicksKept(cs, s.counters, v.monetary, rateKey, MONETARY, terms.reason);
      ToppedUp(s.counters, v.monetary, id, n - s.granted, terms, rateKey, t, s.granted,
               ReserveOp(cs, v, id, n, t, terms, allowOOB).granted);
    }
  }

  /** A reservation with multiplier one under a fresh id funds exactly what it grants. */
  lemma ReserveFunds(cs: seq<CounterState>, call: Call, v: Visit, now: Time, taxRate: real)
    requires Sound(cs) && call.Reserve? && SoundCall(call, taxRate) && Visits(cs, call, v)
    requires Fresh(cs, call.id) && call.multiplier == 1.0
    ensures var o := Operate(cs, call, v, now, taxRate);
            Funds(Slots(o.counters, call.id), call.unitType, o.response.units, TermsOf(call, now, taxRate))
  {
    var terms, id, t := TermsOf(call, now, taxRate), call.id, call.unitType;
    var o := Operate(cs, call, v, now, taxRate);
    ReserveSound(cs, v, id, call.requested, t, terms, call.allowOOB);
    TermsOnly(cs, o.counters, id, terms);
    if t == MONETARY {
      ToppedUp(cs, v.monetary, id, call.requested, terms, call.rateKey, t, 0, o.response.units);
    } else {
      MixedFunds(cs, v, id, call.requested, t, terms, call.allowOOB, call.rateKey);
    }
  }

  // ---- the theorem ----

  /** A call as it was carried out: with the visiting orders it met and the instant it was made. */
  datatype Commit = Commit(call: Call, visit: Visit, now: Time)

  /** The call is one its caller may make, with visiting orders it may meet. */
  ghost predicate Possible(cs: seq<CounterState>, c: Commit, taxRate: real) {
    SoundCall(c.call, taxRate) && Visits(Expire(cs, c.now).kept, c.call, c.visit)
  }

  /** The quota after one call. */
  ghost function After(cs: seq<CounterState>, c: Commit, taxRate: real): (cs': seq<CounterState>)
    requires Sound(cs) && Possible(cs, c, taxRate)
    ensures Sound(cs')
  {
    AttemptSound(cs, c.call, c.visit, c.now, taxRate);
    Attempt(cs, c.call, c.visit, c.now, taxRate).counters
  }

  /** Each call, in turn, is one its caller may make. */
  ghost predicate Feasible(cs: seq<CounterState>, log: seq<Commit>, taxRate: real)
    requires Sound(cs)
    decreases |log|
  {
    log != [] ==>
      var c := log[0];
      && SoundCall(c.call, taxRate) && Visits(Expire(cs, c.now).kept, c.call, c.visit)
      && (AttemptSound(cs, c.call, c.visit, c.now, taxRate);
          Feasible(Attempt(cs, c.call, c.visit, c.now, taxRate).counters, log[1..], taxRate))
  }

  /** The quota after a sequence of calls, one after another. */
  ghost function Replay(cs: seq<CounterState>, log: seq<Commit>, taxRate: real): (cs': seq<CounterState>)
    requires Sound(cs) && Feasible(cs, log, taxRate)
    ensures Sound(cs')
    decreases |log|
  {
    if log == [] then cs else
    var c := log[0];
    AttemptSound(cs, c.call, c.visit, c.now, taxRate);
    Replay(Attempt(cs, c.call, c.visit, c.now, taxRate).counters, log[1..], taxRate)
  }

  lemma {:induction false} ReplayOther(cs: seq<CounterState>, log: seq<Commit>, taxRate: real, id: Uuid)
    requires Sound(cs) && Feasible(cs, log, taxRate)
    requires forall c :: c in log ==> Other(c.call, id) && forall s :: s in Slots(cs, id) ==>
               s.reservation.terms.expiry > c.now
    ensures Slots(Replay(cs, log, taxRate), id) == Slots(cs, id)
    decreases |log|
  {
    if log != [] {
      var c := log[0];
      assert c in log;
      AttemptOther(cs, c.call, c.visit, c.now, taxRate, id);
      AttemptSound(cs, c.call, c.visit, c.now, taxRate);
      var cs1 := Attempt(cs, c.call, c.visit, c.now, taxRate).counters;
      ReplayOther(cs1, log[1..], taxRate, id);
    }
  }

  /** The attempt that reserves leaves its grant funded. */
  lemma AttemptFunds(cs: seq<CounterState>, c: Commit, taxRate: real)
    requires Sound(cs) && c.call.Reserve? && SoundCall(c.call, taxRate)
    requires Visits(Expire(cs, c.now).kept, c.call, c.visit)
    requires Fresh(cs, c.call.id) && c.call.multiplier == 1.0 && c.call.validity > 0
    ensures var o := Attempt(cs, c.call, c.visit, c.now, taxRate);
            Funds(Slots(o.counters, c.call.id), c.call.unitType, o.response.units, TermsOf(c.call, c.now, taxRate))
  {
    var id, kept := c.call.id, Expire(cs, c.now).kept;
    ExpirySound(cs, c.now);
    FreshIsEmpty(cs, id);
    ExpireSlots(cs, c.now, id);
    FreshIsEmpty(kept, id);
    ReserveFunds(kept, c.call, c.visit, c.now, taxRate);
    OperateSound(kept, c.call, c.visit, c.now, taxRate);
    var o := Operate(kept, c.call, c.visit, c.now, taxRate);
    AllLive(Slots(o.counters, id), c.now);
    ExpireSlots(o.counters, c.now, id);
  }

  /** The attempt that debits a funded grant accounts for every unit. */
  lemma AttemptDebits(cs: seq<CounterState>, d: Commit, taxRate: real, g: int, terms: Terms)
    requires Sound(cs) && d.call.Debit? && SoundCall(d.call, taxRate) && Visits(Expire(cs, d.now).kept, d.call, d.visit)
    requires terms.multiplier == 1.0 && d.now < terms.expiry && d.call.used <= g
    requires Funds(Slots(cs, d.call.id), d.call.unitType, g, terms)
    ensures var r := Attempt(cs, d.call, d.visit, d.now, taxRate).response.debit;
            r.unaccountedUnits == 0 && r.unitsDebited == d.call.used
  {
    hide Slots, DebitOp;
    var id, kept := d.call.id, Expire(cs, d.now).kept;
    ExpirySound(cs, d.now);
    AllLive(Slots(cs, id), d.now);
    ExpireSlots(cs, d.now, id);
    DebitDefined(kept, d.visit, id, d.call.unitType);
    DebitFunded(kept, d.visit, id, d.call.used, d.call.unitType, d.call.reclaim, g, terms);
    DebitConserves(kept, d.visit, id, d.call.used, d.call.unitType, d.call.reclaim);
  }

  /** A grant is honoured. After a reservation with multiplier one under a fresh id, any calls that
      do not name the id — other reservations and debits, releases, provisioning, expiry — made before
      the reservation expires, leave a quota on which a debit of up to the units granted is accounted
      for in full. */
  lemma {:induction false} GrantHonoured(cs: seq<CounterState>, reserve: Commit, between: seq<Commit>, debit: Commit,
                                         taxRate: real)
    requires Sound(cs) && Possible(cs, reserve, taxRate)
    requires reserve.call.Reserve? && Fresh(cs, reserve.call.id) && reserve.call.multiplier == 1.0
    requires reserve.call.validity > 0
    requires Feasible(After(cs, reserve, taxRate), between, taxRate)
    requires forall c :: c in between ==> Other(c.call, reserve.call.id) && c.now < reserve.now + reserve.call.validity
    requires Possible(Replay(After(cs, reserve, taxRate), between, taxRate), debit, taxRate)
    requires debit.call.Debit? && debit.call.id == reserve.call.id && debit.call.unitType == reserve.call.unitType
    requires debit.now < reserve.now + reserve.call.validity
    requires debit.call.used <= Attempt(cs, reserve.call, reserve.visit, reserve.now, taxRate).response.units
    ensures var cs' := Replay(After(cs, reserve, taxRate), between, taxRate);
            var r := Attempt(cs', debit.call, debit.visit, debit.now, taxRate).response.debit;
            r.unaccountedUnits == 0 && r.unitsDebited == debit.call.used
  {
    var g := Attempt(cs, reserve.call, reserve.visit, reserve.now, taxRate).response.units;
    var cs1 := After(cs, reserve, taxRate);
    AttemptFunds(cs, reserve, taxRate);
    ReplayOther(cs1, between, taxRate, reserve.call.id);
    AttemptDebits(Replay(cs1, between, taxRate), debit, taxRate, g, TermsOf(reserve.call, reserve.now, taxRate));
  }
}
