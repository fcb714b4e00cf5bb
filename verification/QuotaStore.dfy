/** The stored row and the quota loaded from it: loading, expiring and saving on condition. */
module QuotaStore {
  import opened Basics
  import opened Ledger
  import opened QuotaOps
  import opened Protocol
  import opened QuotaObjects

  function Join(a: Expired, b: Expired): Expired {
    Expired(a.kept + b.kept, a.written + b.written)
  }

  lemma EachTurn(step: CounterState -> Expired, cs: seq<CounterState>, i: nat, done: Expired)
    requires i < |cs|
    ensures Join(done, Each(step, cs[i..])) == Join(Join(done, step(cs[i])), Each(step, cs[i + 1..]))
  {
    assert cs[i..][1..] == cs[i + 1..];
  }

  lemma ExpireStart(step: CounterState -> Expired, cs: seq<CounterState>)
    ensures Distinct<Counter>([]) && Join(Expired([], []), Each(step, cs[0..])) == Each(step, cs)
  {
    assert cs[0..] == cs;
  }

  lemma ExpireEnd(step: CounterState -> Expired, cs: seq<CounterState>, done: Expired)
    ensures Join(done, Each(step, cs[|cs|..])) == done
  {}

  /** The counters kept so far come from the first `i`, so the next one may be added. */
  lemma KeepNext(kept: seq<Counter>, all: seq<Counter>, i: nat)
    requires Distinct(all) && Distinct(kept) && i < |all| && forall c :: c in kept ==> c in all[..i]
    ensures all[i] !in kept && Distinct(kept + [all[i]])
    ensures forall k :: i < k < |all| ==> all[k] != all[i]
    ensures forall c :: c in kept + [all[i]] ==> c in all[..i + 1]
    ensures forall c :: c in kept ==> c in all[..i + 1]
  {
    assert forall c :: c in all[..i] ==> c != all[i];
  }

  class LoadedQuota {
    const quota: Quota
    var version: Time

    constructor (row: Row)
      ensures quota.Valid() && quota.States() == row.counters && version == row.version
      ensures fresh(quota) && fresh(quota.counters)
    {
      quota := new Quota(row.counters);
      version := row.version;
    }

    /** One turn of RemoveExpiredEntries. */
    static method ExpireOne(c: Counter, now: Time) returns (keep: bool, written: seq<WriteOff>)
      modifies c
      ensures Expired(if keep then [c.State()] else [], written) == ExpireCounter(old(c.State()), now)
    {
      PruneReservations(c, now);
      var isExpired := c.expiry.Some? && c.expiry.value <= now;
      if !isExpired {
        return c.balance != 0.0 || (c.loan.Some? && c.loan.value.loanBalance != 0.0), [];
      }
      if c.reservations != map[] { return true, []; }
      var hasOutstandingLoan := c.loan.Some? && c.loan.value.loanBalance > 0.0;
      var balanceAtExpiry := c.balance;
      if hasOutstandingLoan {
        written := [];
        if balanceAtExpiry != 0.0 {
          written := [WriteOff(c.State().(balance := 0.0), balanceAtExpiry)];
          c.balance := 0.0;
        }
        return true, written;
      }
      if balanceAtExpiry != 0.0 {
        return false, [WriteOff(c.State().(balance := 0.0), balanceAtExpiry)];
      }
      return false, [];
    }

    static method PruneReservations(c: Counter, now: Time)
      modifies c
      ensures c.State() == Pruned(old(c.State()), now)
    {
      var unexpired, left := map[], c.reservations;
      while left != map[]
        invariant forall k :: k in left ==> k in c.reservations && left[k] == c.reservations[k]
        invariant forall k :: k in unexpired <==>
                    k in c.reservations && k !in left && c.reservations[k].terms.expiry > now
        invariant forall k :: k in unexpired ==> unexpired[k] == c.reservations[k]
        decreases |left|
      {
        var k :| k in left;
        if left[k].terms.expiry > now { unexpired := unexpired[k := left[k]]; }
        left := left - {k};
      }
      c.reservations := unexpired;
    }

    /** One turn, with the results of the earlier ones. */
    static method ExpireNext(counters: seq<Counter>, expired: seq<WriteOff>, c: Counter, now: Time)
      returns (counters': seq<Counter>, expired': seq<WriteOff>)
      requires c !in counters
      modifies c
      ensures counters' == counters || counters' == counters + [c]
      ensures Expired(StatesOf(counters'), expired')
              == Join(Expired(old(StatesOf(counters)), expired), ExpireCounter(old(c.State()), now))
    {
      ghost var before := StatesOf(counters);
      var keep, written := ExpireOne(c, now);
      StatesSame(counters, before);
      StatesSame(counters + [c], before + [c.State()]);
      counters', expired' := if keep then counters + [c] else counters, expired + written;
    }

    method RemoveExpiredEntries(now: Time) returns (expired: seq<WriteOff>)
      requires quota.Valid()
      modifies quota, quota.counters
      ensures quota.Valid() && forall i :: 0 <= i < |quota.counters| ==> quota.counters[i] in old(quota.counters)
      ensures Expired(quota.States(), expired) == Expire(old(quota.States()), now)
    {
      hide Distinct, ExpireCounter, Join, Each;
      ghost var cs, step, all := quota.States(), ExpireAt(now), quota.counters;
      var counters: seq<Counter> := [];
      expired := [];
      ExpireStart(step, cs);
      for i := 0 to |quota.counters|
        invariant quota.counters == all && Distinct(counters) && forall c :: c in counters ==> c in all[..i]
        invariant forall k :: i <= k < |all| ==> all[k].State() == cs[k]
        invariant Join(Expired(StatesOf(counters), expired), Each(step, cs[i..])) == Expire(cs, now)
      {
        KeepNext(counters, all, i);
        EachTurn(step, cs, i, Expired(StatesOf(counters), expired));
        counters, expired := ExpireNext(counters, expired, quota.counters[i], now);
      }
      ExpireEnd(step, cs, Expired(StatesOf(counters), expired));
      quota.counters := counters;
      forall i | 0 <= i < |counters| ensures counters[i] in all { assert counters[i] in all[..|all|]; }
    }
  }

  datatype SaveResult = Saved | ErrConflict | PessimisticLockError

  class Repository {
    var row: Row

    /** Whether the store reports a version mismatch as a conflict; QuotaRepository does not. */
    const reportsConflict: bool

    constructor (row: Row, reportsConflict: bool)
      ensures this.row == row && this.reportsConflict == reportsConflict
    {
      this.row, this.reportsConflict := row, reportsConflict;
    }

    method Load() returns (loaded: LoadedQuota)
      ensures fresh(loaded) && fresh(loaded.quota) && fresh(loaded.quota.counters)
      ensures loaded.quota.Valid() && loaded.quota.States() == row.counters && loaded.version == row.version
    {
      loaded := new LoadedQuota(row);
    }

    /** Overwrites the row if its version is the one that was loaded, and says so if not. */
    method Save(loaded: LoadedQuota, now: Time) returns (result: SaveResult)
      modifies this, loaded
      ensures result.Saved? <==> old(row.version) == old(loaded.version)
      ensures result.Saved? ==> row == Row(loaded.quota.States(), now) && loaded.version == now
      ensures !result.Saved? ==> row == old(row) && loaded.version == old(loaded.version)
      ensures result.ErrConflict? ==> reportsConflict
      ensures result.PessimisticLockError? ==> !reportsConflict
    {
      if row.version != loaded.version {
        return if reportsConflict then ErrConflict else PessimisticLockError;
      }
      row := Row(loaded.quota.States(), now);
      loaded.version := now;
      result := Saved;
    }
  }
}
