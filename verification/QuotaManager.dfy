/** The manager's operations on a loaded quota, and the loop that loads, operates and saves. */
module QuotaManager {
  import opened Basics
  import opened Charging
  import opened Ledger
  import opened QuotaOps
  import opened Reserving
  import opened Attempts
  import opened Publication
  import opened Expiry
  import opened Protocol
  import opened QuotaObjects
  import opened QuotaStore
  import opened Retries

  // One turn of each loop below, in terms of the function that specifies it.

  /** `rest`, carried out after `granted` units have been granted, completes `whole`. */
  ghost predicate GrantsOn(rest: UnitsReserve, granted: int, whole: UnitsReserve) {
    whole.counters == rest.counters && whole.granted == granted + rest.granted
  }

  lemma ReserveUnitsTurn(cs: seq<CounterState>, order: seq<nat>, k: nat, id: Uuid, requested: int, granted: int,
                         terms: Terms, whole: UnitsReserve)
    requires Positions(order, |cs|) && k < |order| && granted < requested
    requires GrantsOn(ReserveUnitsAlong(cs, order[k..], id, requested - granted, terms), granted, whole)
    ensures var (c, got) := ReserveUnits(cs[order[k]], id, requested - granted, terms);
            GrantsOn(ReserveUnitsAlong(cs[order[k] := c], order[k + 1..], id, requested - (granted + got), terms),
                     granted + got, whole)
  {
    hide ReserveUnits;
    var got := ReserveUnits(cs[order[k]], id, requested - granted, terms).1;
    assert order[k..][0] == order[k] && order[k..][1..] == order[k + 1..];
    assert requested - granted - got == requested - (granted + got);
  }

  lemma ReserveStarts(cs: seq<CounterState>, order: seq<nat>, id: Uuid, requested: int, terms: Terms)
    requires Positions(order, |cs|)
    ensures var whole := ReserveUnitsAlong(cs, order, id, requested, terms);
            GrantsOn(ReserveUnitsAlong(cs, order[0..], id, requested - 0, terms), 0, whole)
  {
    assert order[0..] == order;
  }

  lemma ReserveEnds(cs: seq<CounterState>, order: seq<nat>, id: Uuid, requested: int, granted: int, terms: Terms,
                    whole: UnitsReserve)
    requires Positions(order, |cs|) && (order == [] || granted >= requested)
    requires GrantsOn(ReserveUnitsAlong(cs, order, id, requested - granted, terms), granted, whole)
    ensures whole == UnitsReserve(cs, granted)
  {}

  lemma PicksPositions(cs: seq<CounterState>, order: seq<nat>, want: CounterState -> bool)
    requires Picks(cs, order, want)
    ensures Positions(order, |cs|)
  {}

  method ReserveValueOn(q: Quota, c: Counter, ghost p: nat, reference: Uuid, amount: real, terms: Terms)
      returns (reserved: real)
    requires q.Valid() && p < |q.counters| && q.counters[p] == c
    modifies c
    ensures q.counters == old(q.counters)
    ensures var r := ReserveValue(old(q.States())[p], reference, amount, terms);
            q.States() == old(q.States())[p := r.0] && reserved == r.1
  {
    reserved := c.ReserveValue(reference, amount, terms);
    OneChanged(q.counters, old(q.States()), p);
  }

  /** Every reservation under the id can be divided by its multiplier, and, where it is monetary, by its
      price: a zero would make the division panic. */
  ghost predicate Divisible(cs: seq<CounterState>, id: Uuid) {
    forall i :: 0 <= i < |cs| && id in cs[i].reservations ==>
      cs[i].reservations[id].terms.multiplier != 0.0
      && (cs[i].unitType == MONETARY ==> cs[i].reservations[id].terms.unitPrice != 0.0)
  }

  lemma PickedReserved(cs: seq<CounterState>, order: seq<nat>, id: Uuid, unitType: UnitType)
    requires Picks(cs, order, HoldingFor(id, unitType)) && Divisible(cs, id)
    ensures Reserved(cs, order, id)
    ensures forall k :: 0 <= k < |order| ==> Holding(cs[order[k]], id, unitType)
  {
    forall k | 0 <= k < |order| ensures Holding(cs[order[k]], id, unitType) {
      assert order[k] in order;
    }
  }

  /** `rest`, carried out after what is already in the journal, completes `whole`. */
  ghost predicate Resumes(rest: ServiceDebit, start: seq<Entry>, journal: seq<Entry>, whole: ServiceDebit) {
    whole.counters == rest.counters && whole.left == rest.left && start + whole.journal == journal + rest.journal
  }

  lemma DebitUnitsTurn(cs: seq<CounterState>, order: seq<nat>, k: nat, id: Uuid, remaining: int, reclaim: bool,
                       start: seq<Entry>, journal: seq<Entry>, whole: ServiceDebit)
    requires k < |order| && Reserved(cs, order[k..], id)
    requires Resumes(DebitUnitsAlong(cs, order[k..], id, remaining, reclaim), start, journal, whole)
    ensures id in cs[order[k]].reservations && cs[order[k]].reservations[id].terms.multiplier != 0.0
    ensures var d := DebitUnits(cs[order[k]], id, remaining, reclaim);
            Reserved(cs[order[k] := d.counter], order[k + 1..], id)
            && Resumes(DebitUnitsAlong(cs[order[k] := d.counter], order[k + 1..], id, d.left, reclaim),
                       start, journal + [d.entry], whole)
  {
    assert order[k..][0] == order[k] && order[k..][1..] == order[k + 1..];
    var d := DebitUnits(cs[order[k]], id, remaining, reclaim);
    var rest := DebitUnitsAlong(cs[order[k] := d.counter], order[k + 1..], id, d.left, reclaim);
    assert journal + ([d.entry] + rest.journal) == journal + [d.entry] + rest.journal;
  }

  ghost predicate Collects(rest: MoneyDebit, start: seq<Entry>, journal: seq<Entry>, debited: real, whole: MoneyDebit) {
    && whole.counters == rest.counters && whole.left == rest.left && whole.debited == debited + rest.debited
    && start + whole.journal == journal + rest.journal
  }

  lemma DebitValueTurn(cs: seq<CounterState>, order: seq<nat>, k: nat, id: Uuid, remaining: real, reclaim: bool,
                       start: seq<Entry>, journal: seq<Entry>, debited: real, whole: MoneyDebit)
    requires k < |order| && Reserved(cs, order[k..], id)
    requires Collects(DebitValueAlong(cs, order[k..], id, remaining, reclaim), start, journal, debited, whole)
    ensures id in cs[order[k]].reservations
    ensures var d := DebitValue(cs[order[k]], id, remaining, reclaim);
            Reserved(cs[order[k] := d.counter], order[k + 1..], id)
            && Collects(DebitValueAlong(cs[order[k] := d.counter], order[k + 1..], id, d.left, reclaim),
                        start, journal + d.journal, debited + d.taken, whole)
  {
    assert order[k..][0] == order[k] && order[k..][1..] == order[k + 1..];
    var d := DebitValue(cs[order[k]], id, remaining, reclaim);
    var rest := DebitValueAlong(cs[order[k] := d.counter], order[k + 1..], id, d.left, reclaim);
    assert journal + (d.journal + rest.journal) == journal + d.journal + rest.journal;
  }

  /** What debitMonetaryReservations does when `used` units are still to be accounted for. */
  ghost predicate PaysMoney(cs: seq<CounterState>, order: seq<nat>, id: Uuid, used: int, reclaim: bool,
                            cs': seq<CounterState>, response: DebitResponse, start: seq<Entry>, journal: seq<Entry>)
  {
    if order == [] then cs' == cs && journal == start && response == DebitResponse(0, 0.0, 0, used) else
    && Reserved(cs, order, id) && cs[order[0]].reservations[id].terms.unitPrice != 0.0
    && var terms := cs[order[0]].reservations[id].terms;
       var m := DebitValueAlong(cs, order, id, RemainingValue(terms, used), reclaim);
       cs' == m.counters && journal == start + m.journal && response == MoneyResponse(terms, used, m.debited, m.left)
  }

  /** A debit of service units keeps every counter's unit type and priority, and the terms of what is left reserved. */
  lemma {:induction false} ServiceKept(cs: seq<CounterState>, order: seq<nat>, id: Uuid, used: int, reclaim: bool)
    requires Reserved(cs, order, id)
    ensures var cs' := DebitUnitsAlong(cs, order, id, used, reclaim).counters;
            |cs'| == |cs| && forall i :: 0 <= i < |cs| ==>
                  KeepsTerms(cs[i], cs'[i], id) && (i !in order ==> cs'[i] == cs[i])
    decreases |order|
  {
    if order != [] {
      var d := DebitUnits(cs[order[0]], id, used, reclaim);
      assert KeepsTerms(cs[order[0]], d.counter, id);
      ServiceKept(cs[order[0] := d.counter], order[1..], id, d.left, reclaim);
    }
  }

  predicate KeepsTerms(c: CounterState, c': CounterState, id: Uuid) {
    && c'.unitType == c.unitType && c'.priority == c.priority
    && (id in c'.reservations ==> id in c.reservations && c'.reservations[id].terms == c.reservations[id].terms)
  }

  /** Between the two parts of a debit: the monetary counters are as they were. */
  lemma BetweenParts(cs: seq<CounterState>, order: seq<nat>, id: Uuid, used: int, unitType: UnitType, reclaim: bool)
    requires Picks(cs, order, HoldingFor(id, unitType)) && Divisible(cs, id) && Reserved(cs, order, id)
    requires unitType != MONETARY
    ensures var cs' := DebitUnitsAlong(cs, order, id, used, reclaim).counters;
            Divisible(cs', id) && forall o :: Picks(cs', o, HoldingFor(id, MONETARY)) ==>
                  Picks(cs, o, HoldingFor(id, MONETARY))
  {
    var cs' := DebitUnitsAlong(cs, order, id, used, reclaim).counters;
    ServiceKept(cs, order, id, used, reclaim);
    PickedReserved(cs, order, id, unitType);
    forall i | 0 <= i < |cs|
      ensures HoldingFor(id, MONETARY)(cs'[i]) == HoldingFor(id, MONETARY)(cs[i]) && KeepsTerms(cs[i], cs'[i], id)
    {
      if i in order { assert HoldingFor(id, unitType)(cs[i]); }
    }
  }

  lemma DebitVisits(cs: seq<CounterState>, service: seq<nat>, monetary: seq<nat>, id: Uuid, unitType: UnitType)
    requires Picks(cs, service, HoldingFor(id, unitType)) && Picks(cs, monetary, HoldingFor(id, MONETARY))
    requires Divisible(cs, id)
    ensures CanDebit(cs, Visit(service, monetary), id, unitType)
  {
    PickedReserved(cs, service, id, unitType);
    PickedReserved(cs, monetary, id, MONETARY);
  }

  ghost predicate Pays(rest: Claw, start: seq<Entry>, journal: seq<Entry>, whole: Claw) {
    whole.counters == rest.counters && start + whole.journal == journal + rest.journal
  }

  lemma PayTurn(cs: seq<CounterState>, order: seq<nat>, k: nat, remaining: real, start: seq<Entry>,
                journal: seq<Entry>, whole: Claw)
    requires k < |order| && Repayable(cs, order[k..]) && remaining > 0.0
    requires Pays(ClawbackAlong(cs, order[k..], remaining), start, journal, whole)
    ensures order[k] < |cs| - 1 && cs[order[k]].loan.Some?
    ensures var w := ClawbackAt(cs, order[k], remaining);
            Repayable(w.counters, order[k + 1..])
            && Pays(ClawbackAlong(w.counters, order[k + 1..], w.remaining), start, journal + w.journal, whole)
  {
    assert order[k..][0] == order[k] && order[k..][1..] == order[k + 1..];
    var w := ClawbackAt(cs, order[k], remaining);
    assert Repayable(w.counters, order[k + 1..]);
    var rest := ClawbackAlong(w.counters, order[k + 1..], w.remaining);
    assert journal + (w.journal + rest.journal) == journal + w.journal + rest.journal;
  }

  /** The loan and the new counter may be changed in either order. */
  lemma TurnOrder(cs: seq<CounterState>, p: nat, remaining: real, cs1: seq<CounterState>, c: CounterState,
                  start: seq<Entry>, journal: seq<Entry>)
    requires p < |cs| - 1 && cs[p].loan.Some?
    requires cs1 == cs[p := cs[p].(loan := Some(Clawback(cs[p].loan.value, remaining).loan))]
    requires var paid := Clawback(cs[p].loan.value, remaining);
             var (c1, j1) := Deduct(cs[|cs| - 1], paid.feePaid, TRANSACTION_FEE);
             var (c2, j2) := Deduct(c1, paid.loanPaid, LOAN_REPAYMENT);
             c == c2 && journal == start + j1 + j2
    ensures var w := ClawbackAt(cs, p, remaining);
            cs1[|cs| - 1 := c] == w.counters && journal == start + w.journal
  {
    hide Clawback;
  }

  /** Calls on one counter of a quota, seen as changes of the quota. */
  method ReserveUnitsOn(q: Quota, c: Counter, ghost p: nat, reference: Uuid, n: int, terms: Terms)
      returns (reserved: int)
    requires q.Valid() && p < |q.counters| && q.counters[p] == c
    modifies c
    ensures q.counters == old(q.counters)
    ensures var r := ReserveUnits(old(q.States())[p], reference, n, terms);
            q.States() == old(q.States())[p := r.0] && reserved == r.1
  {
    reserved := c.ReserveServiceUnits(reference, n, terms);
    OneChanged(q.counters, old(q.States()), p);
  }

  lemma SoundDivisible(cs: seq<CounterState>, id: Uuid)
    requires Sound(cs)
    ensures Divisible(cs, id)
  {
    forall i | 0 <= i < |cs| && id in cs[i].reservations
      ensures cs[i].reservations[id].terms.multiplier != 0.0
      ensures cs[i].unitType == MONETARY ==> cs[i].reservations[id].terms.unitPrice != 0.0
    {
      assert Solvent(cs[i]);
    }
  }

  /** A debit that its service units do not cover is completed by the monetary part. */
  lemma MoneyCompletes(cs: seq<CounterState>, v: Visit, id: Uuid, used: int, unitType: UnitType, reclaim: bool,
                       cs': seq<CounterState>, response: DebitResponse, start: seq<Entry>, journal: seq<Entry>)
    requires CanDebit(cs, v, id, unitType)
    requires var s := ServicePart(cs, v, id, used, unitType, reclaim);
             && s.left > 0
             && PaysMoney(s.counters, v.monetary, id, s.left, reclaim, cs', response, start + s.journal, journal)
    ensures var d, s := DebitOp(cs, v, id, used, unitType, reclaim), ServicePart(cs, v, id, used, unitType, reclaim);
            && cs' == d.counters && journal == start + d.journal
            && d.response == response.(unitsDebited := response.unitsDebited + (used - s.left))
  {
    hide DebitUnitsAlong, DebitValueAlong, Picks;
  }

  class Manager {
    const taxRate: real
    const retryLimit: nat

    /** What has been published on the quota journal, in order of publication. */
    ghost var journal: seq<Entry>

    constructor (taxRate: real, retryLimit: nat)
      ensures this.taxRate == taxRate && journal == []
      ensures this.retryLimit == if retryLimit == 0 then 3 else retryLimit
    {
      this.taxRate := taxRate;
      this.retryLimit := if retryLimit == 0 then 3 else retryLimit;
      journal := [];
    }

    method ReserveServiceUnits(q: Quota, reference: Uuid, rateKey: RateKey, unitType: UnitType, requested: int,
                               terms: Terms)
      returns (granted: int, ghost order: seq<nat>)
      requires q.Valid()
      modifies q.counters
      ensures q.counters == old(q.counters)
      ensures Picks(old(q.States()), order, Selecting(rateKey, unitType, terms.reason))
      ensures ReserveUnitsAlong(old(q.States()), order, reference, requested, terms)
              == UnitsReserve(q.States(), granted)
    {
      hide ReserveUnits, ReserveUnitsAlong, Picks, GrantsOn, Distinct;
      var list;
      list, order := q.FindCounters(rateKey, unitType, terms.reason);
      PicksPositions(q.States(), order, Selecting(rateKey, unitType, terms.reason));
      granted := 0;
      ghost var whole := ReserveUnitsAlong(q.States(), order, reference, requested, terms);
      ReserveStarts(q.States(), order, reference, requested, terms);
      for k := 0 to |list|
        invariant q.counters == old(q.counters)
        invariant GrantsOn(ReserveUnitsAlong(q.States(), order[k..], reference, requested - granted, terms),
                           granted, whole)
      {
        if granted >= requested {
          ReserveEnds(q.States(), order[k..], reference, requested, granted, terms, whole);
          return;
        }
        ReserveUnitsTurn(q.States(), order, k, reference, requested, granted, terms, whole);
        var reserved := ReserveUnitsOn(q, list[k], order[k], reference, requested - granted, terms);
        granted := granted + reserved;
      }
      ReserveEnds(q.States(), order[|list|..], reference, requested, granted, terms, whole);
    }

    method ReserveMonetaryUnits(q: Quota, reference: Uuid, rateKey: RateKey, requested: int, terms: Terms)
      returns (panics: bool, granted: int, ghost order: seq<nat>)
      requires q.Valid()
      modifies q.counters
      ensures q.counters == old(q.counters)
      ensures Picks(old(q.States()), order, Selecting(rateKey, MONETARY, terms.reason))
      ensures panics <==> Price(terms) == 0.0
      ensures !panics ==>
                ReserveMoney(old(q.States()), order, reference, requested, terms) == UnitsReserve(q.States(), granted)
      ensures panics ==> q.States() == old(q.States())
    {
      var list;
      panics := false;
      list, order := q.FindCounters(rateKey, MONETARY, terms.reason);
      var totalAvailable := TotalAvailable(q, list, order);
      if Price(terms) == 0.0 { return true, 0, order; }
      granted := IntPart(Quotient(totalAvailable, Price(terms)));
      if granted > requested { granted := requested; }
      assert granted == Affordable(totalAvailable, requested, terms);
      if granted > 0 {
        ReserveAmount(q, list, order, reference, Cost(terms, granted), terms);
      }
    }

    /** The first loop of reserveMonetaryUnits. */
    method TotalAvailable(q: Quota, list: seq<Counter>, ghost order: seq<nat>) returns (total: real)
      requires Located(list, order, q.counters)
      ensures total == AvailableAlong(q.States(), order)
    {
      total := 0.0;
      for k := 0 to |list|
        invariant total + AvailableAlong(q.States(), order[k..]) == AvailableAlong(q.States(), order)
      {
        var available := list[k].AvailableValue();
        assert order[k..][1..] == order[k + 1..];
        total := total + available;
      }
    }

    /** The second loop of reserveMonetaryUnits. */
    method ReserveAmount(q: Quota, list: seq<Counter>, ghost order: seq<nat>, reference: Uuid, amount: real,
                         terms: Terms)
      requires q.Valid() && Located(list, order, q.counters)
      modifies q.counters
      ensures q.counters == old(q.counters)
      ensures q.States() == ReserveValueAlong(old(q.States()), order, reference, amount, terms)
    {
      hide ReserveValue;
      var reserved := 0.0;
      for k := 0 to |list|
        invariant q.counters == old(q.counters)
        invariant ReserveValueAlong(q.States(), order[k..], reference, amount - reserved, terms)
                  == ReserveValueAlong(old(q.States()), order, reference, amount, terms)
      {
        if reserved >= amount { break; }
        assert order[k..][1..] == order[k + 1..];
        var more := ReserveValueOn(q, list[k], order[k], reference, amount - reserved, terms);
        assert amount - reserved - more == amount - (reserved + more);
        reserved := reserved + more;
      }
    }

    /** The operation of ReserveQuota. It panics exactly when it gets to the monetary counters and the price of a
        unit with tax is zero. */
    method ReserveQuota(q: Quota, reference: Uuid, rateKey: RateKey, unitType: UnitType, requested: int, terms: Terms,
                        allowOOB: bool)
      returns (panics: bool, granted: int, ghost v: Visit)
      requires q.Valid()
      modifies q.counters
      ensures q.counters == old(q.counters)
      ensures Picks(old(q.States()), v.monetary, Selecting(rateKey, MONETARY, terms.reason))
      ensures Picks(old(q.States()), v.service, Selecting(rateKey, unitType, terms.reason))
      ensures panics <==>
                AsksMoney(old(q.States()), v, reference, requested, unitType, terms, allowOOB) && Price(terms) == 0.0
      ensures !panics ==>
                ReserveOp(old(q.States()), v, reference, requested, unitType, terms, allowOOB)
                == UnitsReserve(q.States(), granted)
    {
      hide ReserveMoney, ReserveUnitsAlong, Selected, Price;
      ghost var cs, service, monetary := q.States(), [], [];
      ghost var whole := cs;
      if unitType == MONETARY {
        panics, granted, monetary := ReserveMonetaryUnits(q, reference, rateKey, requested, terms);
        return panics, granted, Visit(monetary, monetary);
      }
      panics := false;
      granted, service := ReserveServiceUnits(q, reference, rateKey, unitType, requested, terms);
      if allowOOB && granted < requested {
        ghost var between := q.States();
        ReserveUnitsKept(cs, service, reference, requested, terms);
        var bought;
        panics, bought, monetary := ReserveMonetaryUnits(q, reference, rateKey, requested - granted, terms);
        PicksKept(between, cs, monetary, rateKey, MONETARY, terms.reason);
        granted := granted + bought;
      } else {
        monetary := PicksExist(cs, Selecting(rateKey, MONETARY, terms.reason));
      }
      v := Visit(service, monetary);
    }

    // ---- debiting ----

    /** PublishJournalEvent: the entry carries the balance the counter has by then. */
    method Publish(c: Counter, reason: Reason, amount: real)
      modifies this`journal
      ensures journal == old(journal) + [Entry(c.counterId, reason, amount, c.balance)]
    {
      journal := journal + [Entry(c.counterId, reason, amount, c.balance)];
    }

    /** One turn of debitServiceReservations. */
    method DebitUnitsOf(c: Counter, id: Uuid, remaining: int, reclaim: bool) returns (left: int)
      requires id in c.reservations && c.reservations[id].terms.multiplier != 0.0
      modifies c, this`journal
      ensures var d := DebitUnits(old(c.State()), id, remaining, reclaim);
              c.State() == d.counter && left == d.left && journal == old(journal) + [d.entry]
    {
      var r := c.reservations[id];
      left := Scaled(r.terms.multiplier, remaining);
      var accountUnits;
      if r.units <= left {
        accountUnits := r.units;
        left := left - accountUnits;
        r := r.(units := 0);
      } else {
        accountUnits := left;
        r := r.(units := r.units - accountUnits);
        left := 0;
      }
      c.reservations := c.reservations[id := r];
      c.DebitBalance(accountUnits as real);
      Publish(c, r.terms.reason, accountUnits as real);
      if reclaim || r.units == 0 {
        c.ReleaseReservation(id);
      }
      left := Unscaled(r.terms.multiplier, left);
    }

    method DebitUnitsOn(q: Quota, c: Counter, ghost p: nat, id: Uuid, remaining: int, reclaim: bool) returns (left: int)
      requires q.Valid() && p < |q.counters| && q.counters[p] == c
      requires id in c.reservations && c.reservations[id].terms.multiplier != 0.0
      modifies c, this`journal
      ensures q.counters == old(q.counters)
      ensures var d := DebitUnits(old(q.States())[p], id, remaining, reclaim);
              q.States() == old(q.States())[p := d.counter] && left == d.left && journal == old(journal) + [d.entry]
    {
      left := DebitUnitsOf(c, id, remaining, reclaim);
      OneChanged(q.counters, old(q.States()), p);
    }

    method DebitServiceReservations(q: Quota, id: Uuid, unitType: UnitType, reclaim: bool, usedUnits: int)
      returns (debited: int, ghost order: seq<nat>)
      requires q.Valid() && Divisible(q.States(), id)
      modifies q.counters, this`journal
      ensures q.counters == old(q.counters)
      ensures Picks(old(q.States()), order, HoldingFor(id, unitType)) && Reserved(old(q.States()), order, id)
      ensures var d := DebitUnitsAlong(old(q.States()), order, id, usedUnits, reclaim);
              q.States() == d.counters && debited == usedUnits - d.left && journal == old(journal) + d.journal
    {
      hide Picks, Reserved, DebitUnits;
      var list;
      list, order := q.FindCountersByReservationAndType(id, unitType);
      PickedReserved(q.States(), order, id, unitType);
      var unitsRemaining := usedUnits;
      ghost var whole := DebitUnitsAlong(q.States(), order, id, usedUnits, reclaim);
      for k := 0 to |list|
        invariant q.counters == old(q.counters) && Reserved(q.States(), order[k..], id)
        invariant Resumes(DebitUnitsAlong(q.States(), order[k..], id, unitsRemaining, reclaim), old(journal), journal,
                  whole)
      {
        DebitUnitsTurn(q.States(), order, k, id, unitsRemaining, reclaim, old(journal), journal, whole);
        unitsRemaining := DebitUnitsOn(q, list[k], order[k], id, unitsRemaining, reclaim);
      }
      debited := usedUnits - unitsRemaining;
    }

    /** One turn of the loop of debitMonetaryReservations. */
    method DebitValueOf(c: Counter, id: Uuid, remaining: real, reclaim: bool) returns (left: real, debited: real)
      requires id in c.reservations
      modifies c, this`journal
      ensures var d := DebitValue(old(c.State()), id, remaining, reclaim);
              c.State() == d.counter && left == d.left && debited == d.taken && journal == old(journal) + d.journal
    {
      if remaining <= 0.0 {
        c.ReleaseReservation(id);
        return remaining, 0.0;
      }
      var r := c.reservations[id];
      if remaining > r.value {
        debited, left := r.value, remaining - r.value;
        r := r.(value := 0.0);
      } else {
        debited, left := remaining, 0.0;
        r := r.(value := r.value - remaining);
      }
      c.reservations := c.reservations[id := r];
      c.DebitBalance(debited);
      Publish(c, r.terms.reason, debited);
      if reclaim || r.value == 0.0 {
        c.ReleaseReservation(id);
      }
    }

    method DebitValueOn(q: Quota, c: Counter, ghost p: nat, id: Uuid, remaining: real, reclaim: bool)
      returns (left: real, debited: real)
      requires q.Valid() && p < |q.counters| && q.counters[p] == c && id in c.reservations
      modifies c, this`journal
      ensures q.counters == old(q.counters)
      ensures var d := DebitValue(old(q.States())[p], id, remaining, reclaim);
              && q.States() == old(q.States())[p := d.counter] && left == d.left && debited == d.taken
              && journal == old(journal) + d.journal
    {
      left, debited := DebitValueOf(c, id, remaining, reclaim);
      OneChanged(q.counters, old(q.States()), p);
    }

    method CollectValue(q: Quota, list: seq<Counter>, ghost order: seq<nat>, id: Uuid, value: real, reclaim: bool)
      returns (left: real, debited: real)
      requires q.Valid() && Located(list, order, q.counters) && Reserved(q.States(), order, id)
      modifies q.counters, this`journal
      ensures q.counters == old(q.counters)
      ensures var d := DebitValueAlong(old(q.States()), order, id, value, reclaim);
              && q.States() == d.counters && left == d.left && debited == d.debited
              && journal == old(journal) + d.journal
    {
      hide Reserved, DebitValue;
      left, debited := value, 0.0;
      ghost var whole := DebitValueAlong(q.States(), order, id, value, reclaim);
      for k := 0 to |list|
        invariant q.counters == old(q.counters) && Reserved(q.States(), order[k..], id)
        invariant Collects(DebitValueAlong(q.States(), order[k..], id, left, reclaim), old(journal), journal, debited,
                  whole)
      {
        DebitValueTurn(q.States(), order, k, id, left, reclaim, old(journal), journal, debited, whole);
        var taken;
        left, taken := DebitValueOn(q, list[k], order[k], id, left, reclaim);
        debited := debited + taken;
      }
    }

    method DebitMonetaryReservations(q: Quota, id: Uuid, reclaim: bool, usedUnits: int)
      returns (response: DebitResponse, ghost order: seq<nat>)
      requires q.Valid() && Divisible(q.States(), id)
      modifies q.counters, this`journal
      ensures q.counters == old(q.counters)
      ensures Picks(old(q.States()), order, HoldingFor(id, MONETARY)) && Reserved(old(q.States()), order, id)
      ensures PaysMoney(old(q.States()), order, id, usedUnits, reclaim, q.States(), response, old(journal), journal)
    {
      hide Picks;
      var list;
      list, order := q.FindCountersByReservationAndType(id, MONETARY);
      PickedReserved(q.States(), order, id, MONETARY);
      if |list| == 0 { return DebitResponse(0, 0.0, 0, usedUnits), order; }
      var first := list[0].reservations[id].terms;
      var left, debited := CollectValue(q, list, order, id, RemainingValue(first, usedUnits), reclaim);
      var unallocated := 0;
      if left > 0.0 { unallocated := IntPart(Quotient(Quotient(left, first.multiplier), first.unitPrice)); }
      response := DebitResponse(usedUnits - unallocated, debited, usedUnits - unallocated, unallocated);
    }

    /** The operation of Debit. `prior` is what an earlier attempt of the same call left in the response. */
    method Debit(q: Quota, id: Uuid, used: int, unitType: UnitType, reclaim: bool, prior: DebitResponse)
      returns (response: DebitResponse, ghost v: Visit)
      requires q.Valid() && Divisible(q.States(), id)
      modifies q.counters, this`journal
      ensures q.counters == old(q.counters)
      ensures CanDebit(old(q.States()), v, id, unitType)
      ensures var d := DebitOp(old(q.States()), v, id, used, unitType, reclaim);
              && q.States() == d.counters && journal == old(journal) + d.journal
              && response == if ServicePart(old(q.States()), v, id, used, unitType, reclaim).left > 0
                             then d.response
                             else d.response.(unitsValue := prior.unitsValue, valueUnits := prior.valueUnits)
    {
      hide Picks, Divisible, Reserved, PaysMoney;
      ghost var cs := q.States();
      ghost var service, monetary;
      var unitsDebited, unitsRemaining := 0, used;
      if unitType != MONETARY {
        unitsDebited, service := DebitServiceReservations(q, id, unitType, reclaim, used);
        unitsRemaining := used - unitsDebited;
        BetweenParts(cs, service, id, used, unitType, reclaim);
      }
      if unitsRemaining > 0 {
        ghost var between := journal;
        response, monetary := DebitMonetaryReservations(q, id, reclaim, unitsRemaining);
        if unitType == MONETARY { service := monetary; }
        DebitVisits(cs, service, monetary, id, unitType);
        assert between == old(journal) + ServicePart(cs, Visit(service, monetary), id, used, unitType, reclaim).journal;
        MoneyCompletes(cs, Visit(service, monetary), id, used, unitType, reclaim, q.States(), response, old(journal),
                       journal);
        response := response.(unitsDebited := response.unitsDebited + unitsDebited);
      } else {
        monetary := PicksExist(cs, HoldingFor(id, MONETARY));
        response := prior.(unitsDebited := unitsDebited, unaccountedUnits := unitsRemaining);
        if unitType == MONETARY { service := monetary; }
        DebitVisits(cs, service, monetary, id, unitType);
      }
      v := Visit(service, monetary);
    }

    // ---- releasing and provisioning ----

    /** The operation of Release. */
    method Release(q: Quota, id: Uuid)
      requires q.Valid()
      modifies q.counters
      ensures q.counters == old(q.counters) && q.States() == ReleaseAll(old(q.States()), id)
    {
      q.ReleaseReservations(id);
    }

    method ApplyProvisioning(q: Quota, req: ProvisionRequest)
      requires q.Valid()
      modifies q, q.counters, this`journal
      ensures q.Valid() && |old(q.counters)| <= |q.counters|
      ensures forall i :: 0 <= i < |q.counters| ==>
                if i < |old(q.counters)| then q.counters[i] == old(q.counters[i]) else fresh(q.counters[i])
      ensures var (cs, j) := ProvisionOp(old(q.States()), req);
              q.States() == cs && journal == old(journal) + j
    {
      hide Distinct, LoanPositions, ClawbackAlong, Repayable;
      var known, _ := q.FindCounterByID(req.counterId);
      if known.Some? { return; }
      var c := new Counter(NewCounter(req));
      q.AddCounter(c);
      Publish(c, req.reason, req.initialBalance);
      if req.canRepayLoan && req.loan.None? {
        LoansRepayable(q.States());
        ConcatAssociates(old(journal), [Entry(req.counterId, req.reason, req.initialBalance, req.initialBalance)],
                         ClawbackAlong(q.States(), LoanPositions(q.States(), 0), req.initialBalance).journal);
        ApplyClawback(q, c, req.initialBalance);
      }
    }

    /** The deductions applyClawback makes for one loan. */
    method DeductFrom(c: Counter, amount: real, reason: Reason, remaining: real) returns (left: real)
      modifies c, this`journal
      ensures var (c', j) := Deduct(old(c.State()), amount, reason);
              && c.State() == c' && journal == old(journal) + j
              && left == if amount > 0.0 then remaining - amount else remaining
    {
      if amount <= 0.0 { return remaining; }
      c.DebitBalance(amount);
      Publish(c, reason, -amount);
      left := remaining - amount;
    }

    method PayLoan(q: Quota, newCounter: Counter, loanCounter: Counter, ghost p: nat, remaining: real)
        returns (left: real)
      requires q.Valid() && p < |q.counters| - 1 && q.counters[p] == loanCounter && loanCounter.loan.Some?
      requires q.counters[|q.counters| - 1] == newCounter
      modifies newCounter, loanCounter, this`journal
      ensures q.counters == old(q.counters)
      ensures var w := ClawbackAt(old(q.States()), p, remaining);
              q.States() == w.counters && left == w.remaining && journal == old(journal) + w.journal
    {
      hide Clawback, Deduct;
      ghost var cs, start := q.States(), journal;
      var loanPaid, feePaid := loanCounter.ClawbackLoan(remaining);
      OneChanged(q.counters, cs, p);
      ghost var cs1 := q.States();
      left := DeductFrom(newCounter, feePaid, TRANSACTION_FEE, remaining);
      left := DeductFrom(newCounter, loanPaid, LOAN_REPAYMENT, left);
      OneChanged(q.counters, cs1, |q.counters| - 1);
      TurnOrder(cs, p, remaining, cs1, newCounter.State(), start, journal);
    }

    method ApplyClawback(q: Quota, newCounter: Counter, initialBalance: real)
      requires q.Valid() && |q.counters| > 0 && q.counters[|q.counters| - 1] == newCounter && newCounter.loan.None?
      modifies q.counters, this`journal
      ensures q.counters == old(q.counters)
      ensures Repayable(old(q.States()), LoanPositions(old(q.States()), 0))
      ensures var w := ClawbackAlong(old(q.States()), LoanPositions(old(q.States()), 0), initialBalance);
              q.States() == w.counters && journal == old(journal) + w.journal
    {
      hide LoanPositions, Repayable, ClawbackAt;
      var list;
      ghost var order;
      list, order := q.FindCountersWithLoans();
      LoansRepayable(q.States());
      var remaining := initialBalance;
      ghost var whole := ClawbackAlong(q.States(), order, initialBalance);
      ghost var rest := whole;
      for k := 0 to |list|
        invariant q.counters == old(q.counters) && Repayable(q.States(), order[k..])
        invariant rest == ClawbackAlong(q.States(), order[k..], remaining)
        invariant Pays(rest, old(journal), journal, whole)
      {
        if remaining <= 0.0 { break; }
        PayTurn(q.States(), order, k, remaining, old(journal), journal, whole);
        remaining := PayLoan(q, newCounter, list[k], order[k], remaining);
        rest := ClawbackAlong(q.States(), order[k + 1..], remaining);
      }
    }

    // ---- executeWithQuota ----

    /** The operation of a call, on the quota loaded for one attempt. */
    method Perform(q: Quota, call: Call, now: Time, prior: Response) returns (response: Response, ghost v: Visit)
      requires q.Valid() && Sound(q.States()) && SoundCall(call, taxRate)
      modifies q, q.counters, this`journal
      ensures q.Valid() && |old(q.counters)| <= |q.counters|
      ensures forall i :: 0 <= i < |q.counters| ==>
                if i < |old(q.counters)| then q.counters[i] == old(q.counters[i]) else fresh(q.counters[i])
      ensures Visits(old(q.States()), call, v)
      ensures var o := Operate(old(q.States()), call, v, now, taxRate);
              && q.States() == o.counters && journal == old(journal) + o.journal
              && response == Carried(o.response, NeedsMoney(old(q.States()), call, v), DebitIn(prior))
    {
      hide ReserveOp, DebitOp, Picks, ProvisionOp, Distinct, Solvent;
      v := Visit([], []);
      match call
      case Reserve(id, _, rateKey, unitType, requested, _, _, _, allowOOB) =>
        var terms := TermsOf(call, now, taxRate);
        if PaysWithMoney(unitType, allowOOB) { PricePositive(terms); }
        var granted;
        var panics;
        panics, granted, v := ReserveQuota(q, id, rateKey, unitType, requested, terms, allowOOB);
        response := Granted(granted);
      case Debit(id, used, unitType, reclaim) =>
        SoundDivisible(q.States(), id);
        var debit;
        debit, v := Debit(q, id, used, unitType, reclaim, DebitIn(prior));
        response := Debited(debit);
      case Release(id) =>
        Release(q, id);
        response := Done;
      case Provision(req) =>
        ApplyProvisioning(q, req);
        response := Done;
      case ProcessExpired =>
        response := Done;
    }

    method PublishExpiry(written: seq<WriteOff>)
      modifies this`journal
      ensures journal == old(journal) + ExpiryEntries(written)
    {
      for i := 0 to |written|
        invariant journal == old(journal) + ExpiryEntries(written[..i])
      {
        journal := journal + [Entry(written[i].counter.id, QUOTA_EXPIRY, written[i].balanceAtExpiry, 0.0)];
        assert ExpiryEntries(written[..i + 1]) == ExpiryEntries(written[..i])
            + [Entry(written[i].counter.id, QUOTA_EXPIRY, written[i].balanceAtExpiry, 0.0)];
      }
      assert written[..|written|] == written;
    }

    /** One attempt on a loaded quota: expire, operate, expire. */
    method AttemptOn(loaded: LoadedQuota, call: Call, now: Time, prior: Response)
      returns (response: Response, before: seq<WriteOff>, after: seq<WriteOff>, ghost v: Visit)
      requires loaded.quota.Valid() && Sound(loaded.quota.States()) && SoundCall(call, taxRate)
      modifies loaded.quota, loaded.quota.counters, this`journal
      ensures var kept := Expire(old(loaded.quota.States()), now).kept; Sound(kept) && Visits(kept, call, v)
      ensures loaded.quota.States() == Attempt(old(loaded.quota.States()), call, v, now, taxRate).counters
      ensures var o := OperationOf(old(loaded.quota.States()), call, v, now, taxRate);
              && journal == old(journal) + o.journal
              && response == Carried(o.response, NeedsMoney(Expire(old(loaded.quota.States()), now).kept, call, v),
                                     DebitIn(prior))
              && before == Expire(old(loaded.quota.States()), now).written && after == Expire(o.counters, now).written
    {
      hide Expire, Operate, Distinct, Sound, SoundCall, Visits, NeedsMoney, StatesOf;
      ExpirySound(loaded.quota.States(), now);
      before := loaded.RemoveExpiredEntries(now);
      response, v := Perform(loaded.quota, call, now, prior);
      after := loaded.RemoveExpiredEntries(now);
    }

    /** One turn of the loop: load, attempt, save, and post the write-offs if that succeeded. */
    method Try(repo: Repository, call: Call, now: Time, m: Moment, prior: Response)
      returns (saved: SaveResult, response: Response, ghost v: Visit)
      requires Sound(m.atLoad.counters) && SoundCall(call, taxRate)
      modifies repo, this`journal
      ensures Visits(Expire(m.atLoad.counters, now).kept, call, v)
      ensures Tried(m, saved, repo.row, repo.reportsConflict, call, v, now, taxRate)
      ensures Sound(Expire(m.atLoad.counters, now).kept)
      ensures var cs := m.atLoad.counters;
              response == Carried(OperationOf(cs, call, v, now, taxRate).response,
                                  NeedsMoney(Expire(cs, now).kept, call, v), DebitIn(prior))
      ensures journal == old(journal) + if saved.Saved? then PublishedBy(m.atLoad.counters, call, v, now, taxRate)
                                        else OperationOf(m.atLoad.counters, call, v, now, taxRate).journal
    {
      hide Sound, SoundCall, Visits, Attempt, OperationOf, Expire, ExpiryEntries, Distinct, StatesOf, NeedsMoney,
           PublishedBy, Carried;
      ExpirySound(m.atLoad.counters, now);
      repo.row := m.atLoad;
      var loaded := repo.Load();
      var before, after;
      response, before, after, v := AttemptOn(loaded, call, now, prior);
      AttemptResponds(m.atLoad.counters, call, v, now, taxRate);
      PublishedParts(m.atLoad.counters, call, v, now, taxRate, old(journal));
      repo.row := m.atSave;
      saved := repo.Save(loaded, now);
      if saved.Saved? {
        PublishExpiry(before);
        PublishExpiry(after);
      }
    }

    /** The loop every call runs in. `others` are the rows other writers have left by the time of each
        load and each save. The loop ends at the first attempt whose version is still stored at its save,
        and stores exactly what that attempt makes of what it loaded; otherwise it leaves the row to the
        others. What attempts that were beaten posted stays posted; write-offs are posted only by the
        attempt that was saved. */
    method ExecuteWithQuota(repo: Repository, call: Call, now: Time, others: seq<Moment>)
      returns (result: Result, ghost visits: seq<Visit>)
      requires |others| == retryLimit > 0 && SoundCall(call, taxRate)
      requires forall m :: m in others ==> Sound(m.atLoad.counters)
      modifies repo, this`journal
      ensures 0 < |visits| <= |others| && Attempted(others, call, visits, now, taxRate)
      ensures forall k :: 0 <= k < |visits| - 1 ==> Beaten(others[k])
      ensures result.Completed? <==> !Beaten(others[|visits| - 1])
      ensures result.RetryLimitExceeded? ==> |visits| == retryLimit && repo.reportsConflict
      ensures result.LockError? ==> |visits| == 1 && !repo.reportsConflict
      ensures var n, cs := |visits| - 1, others[|visits| - 1].atLoad.counters;
              var o := Attempt(cs, call, visits[n], now, taxRate);
              if result.Completed? then
                && repo.row == Row(o.counters, now)
                && journal == old(journal) + Posts(others, call, visits, n, now, taxRate)
                    + PublishedBy(cs, call, visits[n], now, taxRate)
                && result.response == ReportAfter(others, call, visits, n + 1, now, taxRate)
              else
                && repo.row == others[n].atSave
                && journal == old(journal) + Posts(others, call, visits, n + 1, now, taxRate)
    {
      hide Sound, SoundCall, Visits, Attempt, OperationOf, Expire, Attempted, Posts, PublishedBy;
      visits := [];
      PostsNone(others, call, now, taxRate);
      var response := Debited(NoDebit());
      for tries := 0 to retryLimit
        invariant |visits| == tries && Attempted(others, call, visits, now, taxRate)
        invariant forall k :: 0 <= k < tries ==> Beaten(others[k])
        invariant tries > 0 ==> repo.reportsConflict && repo.row == others[tries - 1].atSave
        invariant response == ReportAfter(others, call, visits, tries, now, taxRate)
        invariant journal == old(journal) + Posts(others, call, visits, tries, now, taxRate)
      {
        assert others[tries] in others;
        var saved;
        ghost var v;
        saved, response, v := Try(repo, call, now, others[tries], response);
        PostsMore(others, call, visits, v, now, taxRate);
        ReportMore(others, call, visits, v, now, taxRate);
        visits := visits + [v];
        if saved.Saved? { return Completed(response), visits; }
        if !saved.ErrConflict? { return LockError, visits; }
      }
      result := RetryLimitExceeded;
    }
  }
}
