/** Loans over whole runs: a loan that is repaid has no fee left unpaid. */
module Repayment {
  import opened Basics
  import opened Ledger
  import opened QuotaOps
  import opened Debiting
  import opened Loans
  import opened Expiry
  import opened Attempts
  import opened Protocol

  predicate AllSettled(cs: seq<CounterState>) {
    forall c :: c in cs ==> Settled(c)
  }

  /** Settled, or about to be dropped: a counter provisioned with nothing. */
  predicate Settling(c: CounterState) {
    Settled(c) || (c.balance == 0.0 && c.reservations == map[])
  }

  /** A new counter starts settled unless it is lent nothing for a fee. */
  lemma StartsSettled(req: ProvisionRequest)
    requires req.loan.Some?
    ensures Settled(NewCounter(req)) <==> req.initialBalance != 0.0 || req.loan.value.transactionFee == 0.0
  {}

  /** Expiry drops the counters that are not settled and holds on to no others. */
  lemma {:induction false} ExpirySettles(cs: seq<CounterState>, now: Time)
    requires forall c :: c in cs ==> Settling(c)
    ensures AllSettled(Expire(cs, now).kept)
  {
    if cs != [] {
      ExpirySettles(cs[1..], now);
      assert AllSettled(ExpireCounter(cs[0], now).kept) by { CounterSettles(cs[0], now); }
    }
  }

  lemma CounterSettles(c: CounterState, now: Time)
    requires Settling(c)
    ensures AllSettled(ExpireCounter(c, now).kept)
  {
    assert c.reservations == map[] ==> Pruned(c, now).reservations == map[];
  }

  lemma LoansKept(cs: seq<CounterState>, cs': seq<CounterState>)
    requires AllSettled(cs) && |cs'| == |cs| && forall i :: 0 <= i < |cs| ==> cs'[i].loan == cs[i].loan
    ensures AllSettled(cs')
  {
    forall c | c in cs' ensures Settled(c) {
      var i :| 0 <= i < |cs'| && cs'[i] == c;
      assert cs[i] in cs;
    }
  }

  lemma ProvisionSettles(cs: seq<CounterState>, req: ProvisionRequest)
    requires Sound(cs) && SoundCall(Provision(req), 0.0) && AllSettled(cs)
    ensures forall c :: c in ProvisionOp(cs, req).0 ==> Settling(c)
  {
    ProvisionSound(cs, req, false);
    var cs' := ProvisionOp(cs, req).0;
    if !Known(cs, req.counterId) {
      var cs1 := cs + [NewCounter(req)];
      forall i | 0 <= i < |cs| ensures Settled(cs'[i]) {
        assert cs[i] in cs && Repays(cs1[i], cs'[i]);
      }
      assert Settling(cs'[|cs|]);
    }
  }

  lemma OperateSettles(cs: seq<CounterState>, call: Call, v: Visit, now: Time, taxRate: real)
    requires Sound(cs) && SoundCall(call, taxRate) && Visits(cs, call, v) && AllSettled(cs)
    ensures forall c :: c in Operate(cs, call, v, now, taxRate).counters ==> Settling(c)
  {
    hide Sound;
    var cs' := Operate(cs, call, v, now, taxRate).counters;
    match call
    case Reserve(id, _, _, unitType, requested, _, _, _, allowOOB) =>
      ReserveSound(cs, v, id, requested, unitType, TermsOf(call, now, taxRate), allowOOB);
      LoansKept(cs, cs');
    case Debit(id, used, unitType, reclaim) =>
      DebitDefined(cs, v, id, unitType);
      DebitConserves(cs, v, id, used, unitType, reclaim);
      LoansKept(cs, cs');
    case Release(id) =>
      LoansKept(cs, cs');
    case Provision(req) => ProvisionSettles(cs, req);
    case ProcessExpired =>
  }

  lemma AttemptSettled(cs: seq<CounterState>, call: Call, v: Visit, now: Time, taxRate: real)
    requires Sound(cs) && SoundCall(call, taxRate) && Visits(Expire(cs, now).kept, call, v) && AllSettled(cs)
    ensures AllSettled(Attempt(cs, call, v, now, taxRate).counters)
  {
    hide Operate, Visits, Expire;
    ExpirySound(cs, now);
    assert forall c :: c in cs ==> Settling(c);
    ExpirySettles(cs, now);
    OperateSettles(Expire(cs, now).kept, call, v, now, taxRate);
    ExpirySettles(Operate(Expire(cs, now).kept, call, v, now, taxRate).counters, now);
  }

  /** The stored loans are settled, and so are those every worker has loaded. */
  ghost predicate SystemSettled(s: System) {
    && AllSettled(s.row.counters)
    && forall w :: 0 <= w < |s.workers| && s.workers[w].phase.Loaded? ==>
          AllSettled(s.workers[w].phase.snapshot.counters)
  }

  lemma StepSettled(s: System, step: Step, cfg: Config)
    requires Inv(s, cfg) && Enabled(s, step, cfg) && SystemSettled(s)
    ensures SystemSettled(Do(s, step, cfg))
  {
    hide Attempt, AllSettled;
    var k := s.workers[step.w];
    if step.Save? { AttemptSettled(k.phase.snapshot.counters, k.call, step.visit, k.now, cfg.taxRate); }
  }

  lemma {:induction false} RunSettled(s: System, steps: seq<Step>, cfg: Config)
    requires Inv(s, cfg) && CanRun(s, steps, cfg) && SystemSettled(s)
    ensures SystemSettled(Run(s, steps, cfg))
    decreases |steps|
  {
    hide Do;
    if steps != [] {
      StepSettled(s, steps[0], cfg);
      RunSettled(Do(s, steps[0], cfg), steps[1..], cfg);
    }
  }

  /** In every reachable state, a stored loan whose balance is zero has no fee left unpaid, whatever calls
      were made, in whatever order, by whatever number of workers, under whatever versions. */
  lemma {:induction false} RepaidLoansOweNoFee(s: System, steps: seq<Step>, cfg: Config)
    requires Start(s, cfg) && CanRun(s, steps, cfg) && AllSettled(s.row.counters)
    ensures AllSettled(Run(s, steps, cfg).row.counters)
  {
    RunSettled(s, steps, cfg);
  }
}
