/** The calls of the quota manager, and one attempt at a call on a loaded quota: expire,
    operate, expire again. Every attempt keeps the quota sound and explains it in the journal. */
module Attempts {
  import opened Basics
  import opened Charging
  import opened Ledger
  import opened QuotaOps
  import opened Solvency
  import opened Journal
  import opened Reserving
  import opened Debiting
  import opened Loans
  import opened Expiry

  datatype Call =
    | Reserve(id: Uuid, reason: Reason, rateKey: RateKey, unitType: UnitType, requested: int, unitPrice: real,
              multiplier: real, validity: Time, allowOOB: bool)
    | Debit(id: Uuid, used: int, unitType: UnitType, reclaim: bool)
    | Release(id: Uuid)
    | Provision(req: ProvisionRequest)
    | ProcessExpired

  datatype Response = Granted(units: int) | Debited(debit: DebitResponse) | Done

  function TermsOf(call: Call, now: Time, taxRate: real): Terms
    requires call.Reserve?
  {
    Terms(call.unitPrice, call.multiplier, taxRate, call.reason, now + call.validity)
  }

  /** What the callers of the manager guarantee: used units are positive, balances, fees and
      repayments are not negative, a clawback percentage is a fraction, multipliers are positive,
      and there is a price wherever money may be reserved. */
  predicate SoundCall(call: Call, taxRate: real) {
    match call
    case Reserve(_, _, _, unitType, _, unitPrice, multiplier, _, allowOOB) =>
      multiplier > 0.0 && taxRate >= 0.0 && (PaysWithMoney(unitType, allowOOB) ==> unitPrice > 0.0)
    case Debit(_, used, _, _) => used > 0
    case Provision(req) =>
      req.initialBalance >= 0.0 && (req.loan.Some? ==> SoundLoan(NewCounter(req).loan.value))
    case _ => true
  }

  /** Reservations are made for a reason that spends, counters provisioned for one that adds. */
  predicate SoundReason(call: Call) {
    match call
    case Reserve(_, reason, _, _, _, _, _, _, _) => IsUsage(reason)
    case Provision(req) => IsProvision(req.reason)
    case _ => true
  }

  /** The visiting orders sort.Slice may produce for a call. */
  ghost predicate Visits(cs: seq<CounterState>, call: Call, v: Visit) {
    match call
    case Reserve(_, reason, rateKey, unitType, _, _, _, _, _) =>
      && Picks(cs, v.service, Selecting(rateKey, unitType, reason))
      && Picks(cs, v.monetary, Selecting(rateKey, MONETARY, reason))
    case Debit(id, _, unitType, _) => DebitVisit(cs, v, id, unitType)
    case _ => true
  }

  datatype Outcome = Outcome(counters: seq<CounterState>, response: Response, journal: seq<Entry>)

  /** The operation itself. */
  ghost function Operate(cs: seq<CounterState>, call: Call, v: Visit, now: Time, taxRate: real): Outcome
    requires Sound(cs) && SoundCall(call, taxRate) && Visits(cs, call, v)
  {
    match call
    case Reserve(id, _, _, unitType, requested, _, _, _, allowOOB) =>
      var terms := TermsOf(call, now, taxRate);
      assert PaysWithMoney(unitType, allowOOB) ==> Price(terms) > 0.0 by {
        if PaysWithMoney(unitType, allowOOB) { PricePositive(terms); }
      }
      var r := ReserveOp(cs, v, id, requested, unitType, terms, allowOOB);
      Outcome(r.counters, Granted(r.granted), [])
    case Debit(id, used, unitType, reclaim) =>
      DebitDefined(cs, v, id, unitType);
      var d := DebitOp(cs, v, id, used, unitType, reclaim);
      Outcome(d.counters, Debited(d.response), d.journal)
    case Release(id) => Outcome(ReleaseAll(cs, id), Done, [])
    case Provision(req) =>
      var (cs', j) := ProvisionOp(cs, req);
      Outcome(cs', Done, j)
    case ProcessExpired => Outcome(cs, Done, [])
  }

  // ---- every operation keeps the quota sound ----

  lemma ReserveMoneySound(cs: seq<CounterState>, order: seq<nat>, id: Uuid, requested: int, terms: Terms)
    requires Sound(cs) && Positions(order, |cs|) && SoundTerms(terms, true)
    ensures Price(terms) != 0.0
    ensures var cs' := ReserveMoney(cs, order, id, requested, terms).counters;
            && |cs'| == |cs| && Sound(cs') && forall i :: 0 <= i < |cs| ==>
                  OnlyReserves(cs[i], cs'[i], id) && TermsFrom(cs[i], cs'[i], id, Some(terms))
  {
    PricePositive(terms);
    var granted := Affordable(AvailableAlong(cs, order), requested, terms);
    ReserveValueSound(cs, order, id, Cost(terms, granted), terms);
  }

  lemma ReserveSound(cs: seq<CounterState>, v: Visit, id: Uuid, requested: int, unitType: UnitType, terms: Terms,
                     allowOOB: bool)
    requires Sound(cs) && Positions(v.service, |cs|) && Positions(v.monetary, |cs|)
    requires SoundTerms(terms, PaysWithMoney(unitType, allowOOB))
    ensures PaysWithMoney(unitType, allowOOB) ==> Price(terms) != 0.0
    ensures var cs' := ReserveOp(cs, v, id, requested, unitType, terms, allowOOB).counters;
            && |cs'| == |cs| && Sound(cs') && forall i :: 0 <= i < |cs| ==>
                  OnlyReserves(cs[i], cs'[i], id) && TermsFrom(cs[i], cs'[i], id, Some(terms))
  {
    hide ReserveMoney, ReserveUnitsAlong, Solvent;
    if unitType == MONETARY {
      ReserveMoneySound(cs, v.monetary, id, requested, terms);
    } else {
      ReserveUnitsSound(cs, v.service, id, requested, terms);
      var s := ReserveUnitsAlong(cs, v.service, id, requested, terms);
      if allowOOB { ReserveMoneySound(s.counters, v.monetary, id, requested - s.granted, terms); }
    }
  }

  lemma ReleaseSound(cs: seq<CounterState>, id: Uuid)
    requires Sound(cs)
    ensures var cs' := ReleaseAll(cs, id);
            && |cs'| == |cs| && Sound(cs') && forall i :: 0 <= i < |cs| ==> OnlyReserves(cs[i], cs'[i], id)
  {
    forall i | 0 <= i < |cs|
      ensures Solvent(ReleaseAll(cs, id)[i]) && OnlyReserves(cs[i], ReleaseAll(cs, id)[i], id)
    {
      ReleasedSolvent(cs[i], id);
    }
  }

  /** Adding a counter no one has yet. */
  lemma AddedSound(cs: seq<CounterState>, c: CounterState, e: Entry)
    requires Sound(cs) && Solvent(c) && !Known(cs, c.id)
    requires e.counter == c.id && Signed(e) == c.balance == e.balance
    ensures Sound(cs + [c])
    ensures Explains(cs, [e], cs + [c])
  {
    var cs' := cs + [c];
    forall i | 0 <= i < |cs| ensures cs[i].id != c.id { assert !Known(cs, c.id); }
    forall id ensures Stored(cs', id) == Stored(cs, id) + Posted([e], id) {
      TotalAppend(cs, c, BalanceIf(id));
      PostedOne(e, id);
    }
    StoredElsewhere(cs, c.id);
    assert [e][..0 + 1] == [e];
  }

  /** What a provisioning did, step by step: the counter added, and what it paid on loans. */
  lemma ProvisionSound(cs: seq<CounterState>, req: ProvisionRequest, reasonable: bool)
    requires Sound(cs) && SoundCall(Provision(req), 0.0) && (reasonable ==> IsProvision(req.reason))
    ensures var (cs', j) := ProvisionOp(cs, req);
            && Sound(cs') && (reasonable ==> Explains(cs, j, cs'))
            && (Known(cs, req.counterId) ==> cs' == cs && j == [])
            && (!Known(cs, req.counterId) ==>
                  && |cs'| == |cs| + 1 && cs'[|cs|].balance <= req.initialBalance
                  && PaysLoans(cs + [NewCounter(req)], cs', cs'[|cs|].balance))
  {
    if Known(cs, req.counterId) {
      ExplainsQuiet(cs, cs);
    } else {
      var c := NewCounter(req);
      var opening := Entry(c.id, req.reason, req.initialBalance, c.balance);
      AddedSound(cs, c, opening.(reason := QUOTA_PROVISIONED));
      if reasonable { AddedSound(cs, c, opening); }
      var cs1 := cs + [c];
      forall i | 0 <= i < |cs| ensures cs1[i].loan.Some? ==> SoundLoan(cs1[i].loan.value) { assert Solvent(cs[i]); }
      if req.canRepayLoan && req.loan.None? {
        var order := LoanPositions(cs1, 0);
        forall k | 0 <= k < |order| ensures order[k] < |cs| && Owes(cs1[order[k]]) { assert order[k] in order; }
        ClawbackConserves(cs1, order, req.initialBalance);
        var w := ClawbackAlong(cs1, order, req.initialBalance);
        PaidSound(cs1, w.counters, w.remaining);
        if reasonable { ExplainsTrans(cs, [opening], cs1, w.journal, w.counters); }
      }
    }
  }

  lemma PaidSound(cs: seq<CounterState>, cs': seq<CounterState>, remaining: real)
    requires Sound(cs) && PaysLoans(cs, cs', remaining) && remaining >= 0.0 && cs[|cs| - 1].reservations == map[]
    ensures Sound(cs')
  {
    forall i | 0 <= i < |cs| - 1 ensures Solvent(cs'[i]) { assert Repays(cs[i], cs'[i]) && Solvent(cs[i]); }
  }

  lemma OperateSound(cs: seq<CounterState>, call: Call, v: Visit, now: Time, taxRate: real)
    requires Sound(cs) && SoundCall(call, taxRate) && Visits(cs, call, v)
    ensures Sound(Operate(cs, call, v, now, taxRate).counters)
  {
    match call
    case Reserve(id, _, _, unitType, requested, _, _, _, allowOOB) =>
      ReserveSound(cs, v, id, requested, unitType, TermsOf(call, now, taxRate), allowOOB);
    case Debit(id, used, unitType, reclaim) =>
      DebitDefined(cs, v, id, unitType);
      DebitConserves(cs, v, id, used, unitType, reclaim);
    case Release(id) => ReleaseSound(cs, id);
    case Provision(req) => ProvisionSound(cs, req, false);
    case ProcessExpired =>
  }

  lemma OperateExplained(cs: seq<CounterState>, call: Call, v: Visit, now: Time, taxRate: real)
    requires Sound(cs) && SoundCall(call, taxRate) && Visits(cs, call, v) && UsageReasons(cs) && SoundReason(call)
    ensures var o := Operate(cs, call, v, now, taxRate); Explains(cs, o.journal, o.counters) && UsageReasons(o.counters)
  {
    hide Explains, Sound, ProvisionOp, CanDebit;
    var o := Operate(cs, call, v, now, taxRate);
    match call
    case Reserve(id, _, _, unitType, requested, _, _, _, allowOOB) =>
      ReserveSound(cs, v, id, requested, unitType, TermsOf(call, now, taxRate), allowOOB);
      ExplainsQuiet(cs, o.counters);
      UsageKept(cs, o.counters, id, Some(TermsOf(call, now, taxRate)));
    case Debit(id, used, unitType, reclaim) =>
      DebitDefined(cs, v, id, unitType);
      DebitConserves(cs, v, id, used, unitType, reclaim);
      DebitExplained(cs, v, id, used, unitType, reclaim);
      UsageKept(cs, o.counters, id, None);
    case Release(id) =>
      ReleaseSound(cs, id);
      ExplainsQuiet(cs, o.counters);
    case Provision(req) => ProvisionSound(cs, req, true);
    case ProcessExpired => ExplainsQuiet(cs, cs);
  }

  lemma UsageKept(cs: seq<CounterState>, cs': seq<CounterState>, id: Uuid, terms: Option<Terms>)
    requires UsageReasons(cs) && |cs'| == |cs| && (terms.Some? ==> IsUsage(terms.value.reason))
    requires forall i :: 0 <= i < |cs| ==>
               SameOff(cs[i].reservations, cs'[i].reservations, id) && TermsFrom(cs[i], cs'[i], id, terms)
    ensures UsageReasons(cs')
  {
    forall i, k | 0 <= i < |cs'| && k in cs'[i].reservations ensures IsUsage(cs'[i].reservations[k].terms.reason) {
      if k != id { assert k in cs'[i].reservations - {id}; assert k in cs[i].reservations - {id}; }
    }
  }

  // ---- one attempt: expire, operate, expire ----

  ghost function Attempt(cs: seq<CounterState>, call: Call, v: Visit, now: Time, taxRate: real): Outcome
    requires Sound(cs) && SoundCall(call, taxRate) && Visits(Expire(cs, now).kept, call, v)
  {
    ExpirySound(cs, now);
    var before := Expire(cs, now);
    var o := Operate(before.kept, call, v, now, taxRate);
    var after := Expire(o.counters, now);
    Outcome(after.kept, o.response, ExpiryEntries(before.written) + o.journal + ExpiryEntries(after.written))
  }

  /** Solvency survives every attempt. */
  lemma AttemptSound(cs: seq<CounterState>, call: Call, v: Visit, now: Time, taxRate: real)
    requires Sound(cs) && SoundCall(call, taxRate) && Visits(Expire(cs, now).kept, call, v)
    ensures Sound(Attempt(cs, call, v, now, taxRate).counters)
  {
    ExpirySound(cs, now);
    OperateSound(Expire(cs, now).kept, call, v, now, taxRate);
    ExpirySound(Operate(Expire(cs, now).kept, call, v, now, taxRate).counters, now);
  }

  lemma {:induction false} UsageExpired(cs: seq<CounterState>, now: Time)
    requires UsageReasons(cs)
    ensures UsageReasons(Expire(cs, now).kept)
  {
    if cs != [] {
      UsageExpired(cs[1..], now);
      assert UsageReasons(ExpireCounter(cs[0], now).kept);
    }
  }

  /** The entries of an attempt account for every balance it changed, and each carries the running
      balance of its counter. */
  lemma AttemptExplained(cs: seq<CounterState>, call: Call, v: Visit, now: Time, taxRate: real)
    requires Sound(cs) && SoundCall(call, taxRate) && Visits(Expire(cs, now).kept, call, v)
    requires UsageReasons(cs) && SoundReason(call)
    ensures var o := Attempt(cs, call, v, now, taxRate); Explains(cs, o.journal, o.counters) && UsageReasons(o.counters)
  {
    ExpirySound(cs, now);
    UsageExpired(cs, now);
    var before := Expire(cs, now);
    OperateSound(before.kept, call, v, now, taxRate);
    OperateExplained(before.kept, call, v, now, taxRate);
    var o := Operate(before.kept, call, v, now, taxRate);
    ExpirySound(o.counters, now);
    UsageExpired(o.counters, now);
    var after := Expire(o.counters, now);
    ExplainsTrans(cs, ExpiryEntries(before.written), before.kept, o.journal, o.counters);
    ExplainsTrans(cs, ExpiryEntries(before.written) + o.journal, o.counters, ExpiryEntries(after.written), after.kept);
  }
}
