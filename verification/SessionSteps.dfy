/** The accounting and rating steps: usage reports worked off a session's grants, one debit of the ledger a
    grant, and new grants, one reservation each, while others write to the ledger too. */
module SessionSteps {
  import opened Basics
  import opened Charging
  import opened Ledger
  import opened QuotaOps
  import opened Reserving
  import opened Expiry
  import opened Attempts
  import opened Grants
  import opened Protocol
  import opened Rating
  import opened Sessions
  import opened Retries
  import opened QuotaStore
  import opened QuotaManager

  // ---- the ledger, with others at it ----

  /** What other writers do to the row before an attempt loads it, and before it saves. */
  datatype Meddling = Meddling(beforeLoad: Row -> Row, beforeSave: Row -> Row)

  /** The same reservations under these ids. */
  ghost predicate Same(cs: seq<CounterState>, cs': seq<CounterState>, ids: set<Uuid>) {
    Sound(cs') && forall id :: id in ids ==> Slots(cs', id) == Slots(cs, id)
  }

  /** Whatever the others do, it does not concern these reservations. */
  ghost predicate Sparing(change: Row -> Row, ids: set<Uuid>) {
    forall row: Row :: Sound(row.counters) ==> Same(row.counters, change(row).counters, ids)
  }

  ghost predicate SparesAll(others: nat -> Meddling, ids: set<Uuid>) {
    forall k: nat :: Sparing(others(k).beforeLoad, ids) && Sparing(others(k).beforeSave, ids)
  }

  /** No one else saves between a load and the save that follows. */
  ghost predicate Quiet(others: nat -> Meddling) {
    forall k: nat, row: Row :: others(k).beforeSave(row).version == row.version
  }

  lemma SameAsOnce(cs: seq<CounterState>, row: Row, change: Row -> Row, ids: set<Uuid>)
    requires Same(cs, row.counters, ids) && Sparing(change, ids)
    ensures Same(cs, change(row).counters, ids)
  {
    assert Same(row.counters, change(row).counters, ids);
  }

  /** What one attempt meets. */
  lemma MeetOne(cs: seq<CounterState>, row: Row, others: nat -> Meddling, k: nat, ids: set<Uuid>)
    requires Same(cs, row.counters, ids) && SparesAll(others, ids)
    ensures var atLoad := others(k).beforeLoad(row);
            var m := Moment(atLoad, others(k).beforeSave(atLoad));
            Same(cs, m.atLoad.counters, ids) && Same(cs, m.atSave.counters, ids) && (Quiet(others) ==> !Beaten(m))
  {
    hide Same;
    assert Sparing(others(k).beforeLoad, ids) && Sparing(others(k).beforeSave, ids);
    SameAsOnce(cs, row, others(k).beforeLoad, ids);
    SameAsOnce(cs, others(k).beforeLoad(row), others(k).beforeSave, ids);
  }

  /** The rows that a call made next will meet. */
  method Meet(row: Row, others: nat -> Meddling, turn: nat, n: nat, ghost ids: set<Uuid>) returns (moments: seq<Moment>)
    requires Sound(row.counters) && SparesAll(others, ids)
    ensures |moments| == n && (Quiet(others) ==> forall m :: m in moments ==> !Beaten(m))
    ensures forall m :: m in moments ==>
              Same(row.counters, m.atLoad.counters, ids) && Same(row.counters, m.atSave.counters, ids)
  {
    hide Same, SparesAll, Quiet, Beaten;
    moments := [];
    var current := row;
    SameAtFirst(row, ids);
    for k := 0 to n
      invariant |moments| == k && Same(row.counters, current.counters, ids)
      invariant Quiet(others) ==> forall m :: m in moments ==> !Beaten(m)
      invariant forall m :: m in moments ==>
                  Same(row.counters, m.atLoad.counters, ids) && Same(row.counters, m.atSave.counters, ids)
    {
      MeetOne(row.counters, current, others, turn + k, ids);
      var atLoad := others(turn + k).beforeLoad(current);
      current := others(turn + k).beforeSave(atLoad);
      moments := moments + [Moment(atLoad, current)];
    }
  }

  lemma SameAtFirst(row: Row, ids: set<Uuid>)
    requires Sound(row.counters)
    ensures Same(row.counters, row.counters, ids)
  {}

  /** A call of the manager as the steps make it. It either commits on what it loaded, `seen`, and reports what it
      found there up to the value of a debit, or leaves the row to the others. */
  method CallLedger(manager: Manager, repo: Repository, call: Call, now: Time, others: nat -> Meddling, turn: nat,
                    ghost ids: set<Uuid>)
    returns (response: Option<Response>, ghost seen: seq<CounterState>, ghost v: Visit)
    requires manager.retryLimit > 0 && Sound(repo.row.counters) && SoundCall(call, manager.taxRate)
    requires SparesAll(others, ids)
    modifies repo, manager`journal
    ensures Sound(repo.row.counters) && (Quiet(others) ==> response.Some?)
    ensures response.None? ==> Same(old(repo.row.counters), repo.row.counters, ids)
    ensures response.Some? ==> Same(old(repo.row.counters), seen, ids) && Visits(Expire(seen, now).kept, call, v)
    ensures response.Some? ==>
              var o := Attempt(seen, call, v, now, manager.taxRate);
              repo.row == Row(o.counters, now) && Agreeing(response.value, o.response)
  {
    hide Attempt, Visits, Expire, Posts, Sound, SoundCall;
    var moments := Meet(repo.row, others, turn, manager.retryLimit, ids);
    ghost var visits;
    var result;
    assert forall m :: m in moments ==> Sound(m.atLoad.counters);
    result, visits := manager.ExecuteWithQuota(repo, call, now, moments);
    var n := |moments|;
    assert moments[|visits| - 1] in moments;
    seen, v := moments[|visits| - 1].atLoad.counters, visits[|visits| - 1];
    if !result.Completed? { return None, seen, v; }
    AttemptSound(seen, call, v, now, manager.taxRate);
    ReportExactly(moments, call, visits, |visits| - 1, now, manager.taxRate);
    AttemptResponds(seen, call, v, now, manager.taxRate);
    response := Some(result.response);
  }

  /** The same, the value of a debit excepted. */
  predicate Agreeing(reported: Response, found: Response) {
    reported == found
    || (&& reported.Debited? && found.Debited? && reported.debit.unitsDebited == found.debit.unitsDebited
        && reported.debit.unaccountedUnits == found.debit.unaccountedUnits)
  }

  // ---- what a report leaves of the grants ----

  /** `g` is what is left of `whole`. */
  predicate Reduced(g: Grant, whole: Grant) {
    Alike(g, whole) && g.unitsGranted <= whole.unitsGranted
  }

  /** The grant covers the usage. */
  predicate Fits(g: Grant, used: int) {
    AfterUse(g, used).unitsGranted >= 0
  }

  /** The grants left after usage of `used` units: each reduced, and dropped once reclaimed or used up. */
  function LeftOf(grants: seq<Grant>, used: int, reclaim: bool): seq<Grant> {
    if grants == [] then [] else LeftOfOne(grants[0], used, reclaim) + LeftOf(grants[1..], used, reclaim)
  }

  function LeftOfOne(g: Grant, used: int, reclaim: bool): seq<Grant> {
    if reclaim || AfterUse(g, used).unitsGranted == 0 then [] else [AfterUse(g, used)]
  }

  lemma {:induction false} LeftOfMore(grants: seq<Grant>, i: nat, used: int, reclaim: bool)
    requires i < |grants|
    ensures LeftOf(grants[..i + 1], used, reclaim) == LeftOf(grants[..i], used, reclaim)
            + LeftOfOne(grants[i], used, reclaim)
    decreases i
  {
    hide LeftOfOne;
    assert grants[..i + 1][0] == grants[0];
    if i == 0 {
      assert grants[..1][1..] == [] && grants[..0] == [];
    } else {
      LeftOfMore(grants[1..], i - 1, used, reclaim);
      assert grants[..i + 1][1..] == grants[1..][..i] && grants[..i][1..] == grants[1..][..i - 1];
      ConcatAssociates(LeftOfOne(grants[0], used, reclaim), LeftOf(grants[1..][..i - 1], used, reclaim),
                       LeftOfOne(grants[i], used, reclaim));
    }
  }

  lemma {:induction false} LeftOfFrom(grants: seq<Grant>, used: int, reclaim: bool)
    requires DistinctGrants(grants)
    ensures var left := LeftOf(grants, used, reclaim);
            && DistinctGrants(left)
            && forall g' :: g' in left ==> exists k :: 0 <= k < |grants| && g' in LeftOfOne(grants[k], used, reclaim)
  {
    if grants != [] {
      var rest := LeftOf(grants[1..], used, reclaim);
      LeftOfFrom(grants[1..], used, reclaim);
      forall g' | g' in rest
        ensures g'.id != grants[0].id && exists k :: 0 <= k < |grants| && g' in LeftOfOne(grants[k], used, reclaim)
      {
        var k :| 0 <= k < |grants[1..]| && g' in LeftOfOne(grants[1..][k], used, reclaim);
        assert grants[k + 1] == grants[1..][k];
      }
      assert forall k :: 0 <= k < |rest| ==> rest[k] in rest;
    }
  }

  /** A grant is left exactly if nothing is reclaimed and it is not used up, with the units the usage has left of it. */
  lemma LeftExactly(grants: seq<Grant>, used: int, reclaim: bool, left: Grant)
    requires DistinctGrants(grants)
    ensures left in LeftOf(grants, used, reclaim)
            <==> !reclaim && left.unitsGranted != 0
                 && exists g :: g in grants && left == g.(unitsGranted := g.unitsGranted - UnitsFor(g, used))
  {
    hide UnitsFor;
    LeftOfFrom(grants, used, reclaim);
    if left in LeftOf(grants, used, reclaim) {
      var k :| 0 <= k < |grants| && left in LeftOfOne(grants[k], used, reclaim);
      assert grants[k] in grants;
    }
    if !reclaim && left.unitsGranted != 0 {
      if g :| g in grants && left == g.(unitsGranted := g.unitsGranted - UnitsFor(g, used)) {
        var k :| 0 <= k < |grants| && grants[k] == g;
        LeftOfTo(grants, k, used, reclaim);
        assert left in LeftOfOne(g, used, reclaim);
      }
    }
  }

  lemma {:induction false} LeftOfTo(grants: seq<Grant>, k: nat, used: int, reclaim: bool)
    requires k < |grants|
    ensures forall g' :: g' in LeftOfOne(grants[k], used, reclaim) ==> g' in LeftOf(grants, used, reclaim)
  {
    if k > 0 { LeftOfTo(grants[1..], k - 1, used, reclaim); }
  }

  // ---- one container ----

  /** What the ledger holds for a grant once usage has been worked off it. */
  ghost predicate WorkedOff(cs: seq<CounterState>, g: Grant, used: int, reclaim: bool) {
    Charged(g) ==>
      if reclaim || AfterUse(g, used).unitsGranted == 0 then Fresh(cs, g.id) else Backed(cs, AfterUse(g, used))
  }

  /** A grant that is free, or charged and backed and still valid. */
  ghost predicate Usable(cs: seq<CounterState>, g: Grant, now: Time) {
    Charged(g) ==> Backed(cs, g) && StillValid(g, now)
  }

  /** The first `i` grants worked off, the others as they were. */
  ghost predicate Progress(cs: seq<CounterState>, grants: seq<Grant>, i: nat, now: Time, used: int, reclaim: bool) {
    && i <= |grants|
    && (forall k :: 0 <= k < i ==> WorkedOff(cs, grants[k], used, reclaim))
    && (forall k :: i <= k < |grants| ==> Usable(cs, grants[k], now))
  }

  ghost predicate AllValid(grants: seq<Grant>, ids: set<Uuid>, now: Time) {
    DistinctGrants(grants) && forall g :: g in grants ==> g.id in ids && (Charged(g) ==> StillValid(g, now))
  }

  lemma SameProgress(cs: seq<CounterState>, cs': seq<CounterState>, ids: set<Uuid>, grants: seq<Grant>, i: nat,
                     now: Time, used: int, reclaim: bool)
    requires Same(cs, cs', ids) && Progress(cs, grants, i, now, used, reclaim)
    requires forall g :: g in grants ==> g.id in ids
    ensures Progress(cs', grants, i, now, used, reclaim)
    ensures forall id :: id in ids ==> (Fresh(cs', id) <==> Fresh(cs, id))
  {
    hide Fresh;
    forall id | id in ids ensures Fresh(cs', id) <==> Fresh(cs, id) {
      FreshIsEmpty(cs, id);
      FreshIsEmpty(cs', id);
    }
    assert forall k :: 0 <= k < |grants| ==> grants[k] in grants;
  }

  lemma ProgressMore(cs: seq<CounterState>, grants: seq<Grant>, i: nat, c: Commit, taxRate: real, used: int,
                     reclaim: bool, ids: set<Uuid>)
    requires Sound(cs) && Progress(cs, grants, i, c.now, used, reclaim) && AllValid(grants, ids, c.now)
    requires i < |grants| && Charged(grants[i]) && used > 0 && Fits(grants[i], used)
    requires c.call == UseCall(grants[i], used, reclaim) && SoundCall(c.call, taxRate)
    requires Visits(Expire(cs, c.now).kept, c.call, c.visit)
    ensures var o := Attempt(cs, c.call, c.visit, c.now, taxRate);
            && Progress(o.counters, grants, i + 1, c.now, used, reclaim) && Sound(o.counters)
            && o.response.debit.unaccountedUnits == 0 && o.response.debit.unitsDebited == c.call.used
            && forall id :: Fresh(cs, id) ==> Fresh(o.counters, id)
  {
    hide Attempt, Visits, Backed, Fresh, NormaliseUnits;
    var g, cs' := grants[i], Attempt(cs, c.call, c.visit, c.now, taxRate).counters;
    AttemptSound(cs, c.call, c.visit, c.now, taxRate);
    NormalisedPositive(used, g.minimumUnits, g.roundingIncrement);
    UseBacked(cs, c, taxRate, g, used, reclaim);
    forall k | 0 <= k < |grants| && k != i
      ensures if k < i then WorkedOff(cs', grants[k], used, reclaim) else Usable(cs', grants[k], c.now)
    {
      assert grants[k] in grants && grants[k].id != g.id;
      if Charged(grants[k]) {
        OtherKept(cs, c, taxRate, grants[k]);
        OtherKept(cs, c, taxRate, AfterUse(grants[k], used));
      }
    }
    forall id | Fresh(cs, id) ensures Fresh(cs', id) {
      BackedNotFresh(cs, g);
      FreshIsEmpty(cs, id);
      FreshIsEmpty(cs', id);
      AttemptOther(cs, c.call, c.visit, c.now, taxRate, id);
    }
  }

  lemma BackedNotFresh(cs: seq<CounterState>, g: Grant)
    requires Backed(cs, g) && g.unitsGranted > 0
    ensures !Fresh(cs, g.id)
  {
    FreshIsEmpty(cs, g.id);
  }

  datatype Outcome = Worked | TooSmall | NotSaved

  /** One turn of the inner loop, for a charged grant that covers the usage: its debit commits, or another
      writer beats it. */
  method ProcessGrant(manager: Manager, repo: Repository, now: Time, grants: seq<Grant>, i: nat, used: int,
                      reclaim: bool, others: nat -> Meddling, turn: nat, ghost ids: set<Uuid>)
    returns (saved: bool, debit: DebitResponse)
    requires manager.retryLimit > 0 && Sound(repo.row.counters) && used > 0 && SparesAll(others, ids)
    requires i < |grants| && AllValid(grants, ids, now) && Progress(repo.row.counters, grants, i, now, used, reclaim)
    requires Charged(grants[i]) && Fits(grants[i], used)
    modifies repo, manager`journal
    ensures Sound(repo.row.counters) && (Quiet(others) ==> saved)
    ensures Progress(repo.row.counters, grants, if saved then i + 1 else i, now, used, reclaim)
    ensures saved ==> debit.unitsDebited == UnitsFor(grants[i], used) && debit.unaccountedUnits == 0
    ensures forall id :: id in ids && Fresh(old(repo.row.counters), id) ==> Fresh(repo.row.counters, id)
  {
    hide Progress, Sound, Same, SparesAll, Quiet, Attempt, Visits, Fresh, NormaliseUnits, AllValid;
    var g := grants[i];
    NormalisedPositive(used, g.minimumUnits, g.roundingIncrement);
    ghost var cs := repo.row.counters;
    var response;
    ghost var seen, v;
    response, seen, v := CallLedger(manager, repo, UseCall(g, used, reclaim), now, others, turn, ids);
    InIds(grants, ids, now);
    if response.None? {
      SameProgress(cs, repo.row.counters, ids, grants, i, now, used, reclaim);
      return false, NoDebit();
    }
    SameProgress(cs, seen, ids, grants, i, now, used, reclaim);
    SameSound(cs, seen, ids);
    AttemptDebitsKind(seen, Commit(UseCall(g, used, reclaim), v, now), manager.taxRate);
    ProgressMore(seen, grants, i, Commit(UseCall(g, used, reclaim), v, now), manager.taxRate, used, reclaim, ids);
    saved, debit := true, response.value.debit;
  }

  lemma InIds(grants: seq<Grant>, ids: set<Uuid>, now: Time)
    requires AllValid(grants, ids, now)
    ensures forall g :: g in grants ==> g.id in ids
  {}

  lemma SameSound(cs: seq<CounterState>, cs': seq<CounterState>, ids: set<Uuid>)
    requires Same(cs, cs', ids)
    ensures Sound(cs')
  {}

  lemma AttemptDebitsKind(cs: seq<CounterState>, c: Commit, taxRate: real)
    requires Sound(cs) && SoundCall(c.call, taxRate) && Visits(Expire(cs, c.now).kept, c.call, c.visit)
    ensures c.call.Debit? ==> Attempt(cs, c.call, c.visit, c.now, taxRate).response.Debited?
    ensures c.call.Reserve? ==> Attempt(cs, c.call, c.visit, c.now, taxRate).response.Granted?
  {}

  lemma ProgressStarts(cs: seq<CounterState>, grants: seq<Grant>, now: Time, used: int, reclaim: bool)
    requires forall g :: g in grants ==> Usable(cs, g, now)
    ensures Progress(cs, grants, 0, now, used, reclaim) && LeftOf(grants[..0], used, reclaim) == []
    ensures grants[..|grants|] == grants
  {}

  lemma ProgressFree(cs: seq<CounterState>, grants: seq<Grant>, i: nat, now: Time, used: int, reclaim: bool)
    requires Progress(cs, grants, i, now, used, reclaim) && i < |grants| && !Charged(grants[i])
    ensures Progress(cs, grants, i + 1, now, used, reclaim)
  {}

  /** One used-units container against the grants of a rating group, while others write too. It stops at the first
      grant that does not cover the usage, or whose debit another writer beats; then the grants are as they were,
      although those before it have been debited. If it does not stop, every debit is accounted for in full, the
      grants are reduced, the ledger agrees with them, and nothing is reserved for those dropped. */
  method ProcessUsed(manager: Manager, repo: Repository, now: Time, grants: seq<Grant>, used: int, reclaim: bool,
                     others: nat -> Meddling, turn: nat, ghost ids: set<Uuid>)
    returns (outcome: Outcome, left: seq<Grant>, debits: seq<DebitResponse>)
    requires manager.retryLimit > 0 && Sound(repo.row.counters) && used > 0 && SparesAll(others, ids)
    requires AllValid(grants, ids, now) && forall g :: g in grants ==> Usable(repo.row.counters, g, now)
    modifies repo, manager`journal
    ensures Sound(repo.row.counters) && Progress(repo.row.counters, grants, |debits|, now, used, reclaim)
    ensures forall id :: id in ids && Fresh(old(repo.row.counters), id) ==> Fresh(repo.row.counters, id)
    ensures forall k :: 0 <= k < |debits| ==>
              && Fits(grants[k], used)
              && debits[k].unitsDebited == UnitsFor(grants[k], used) && debits[k].unaccountedUnits == 0
    ensures outcome.Worked? ==> |debits| == |grants| && left == LeftOf(grants, used, reclaim)
    ensures !outcome.Worked? ==>
              |debits| < |grants| && left == grants && (outcome.TooSmall? <==> !Fits(grants[|debits|], used))
    ensures outcome.NotSaved? ==> Charged(grants[|debits|]) && !Quiet(others)
  {
    hide Progress, Sound, SparesAll, Quiet, Fresh, UnitsFor, LeftOf, Usable, AllValid;
    ProgressStarts(repo.row.counters, grants, now, used, reclaim);
    left, debits := [], [];
    for i := 0 to |grants|
      invariant Sound(repo.row.counters) && Progress(repo.row.counters, grants, i, now, used, reclaim)
      invariant forall id :: id in ids && Fresh(old(repo.row.counters), id) ==> Fresh(repo.row.counters, id)
      invariant left == LeftOf(grants[..i], used, reclaim) && |debits| == i
      invariant forall k :: 0 <= k < i ==>
                  && Fits(grants[k], used)
                  && debits[k].unitsDebited == UnitsFor(grants[k], used) && debits[k].unaccountedUnits == 0
    {
      var g := grants[i];
      var remaining := g.unitsGranted - UnitsFor(g, used);
      if remaining < 0 { return TooSmall, grants, debits; }
      var debit := NoDebit();
      if Charged(g) {
        var saved;
        saved, debit := ProcessGrant(manager, repo, now, grants, i, used, reclaim, others,
                                     turn + i * manager.retryLimit, ids);
        if !saved { return NotSaved, grants, debits; }
      } else {
        ProgressFree(repo.row.counters, grants, i, now, used, reclaim);
        FreeTakesNothing(g, used);
      }
      LeftOfMore(grants, i, used, reclaim);
      if !(reclaim || remaining == 0) { left := left + [g.(unitsGranted := remaining)]; }
      debits := debits + [debit];
    }
    outcome := Worked;
  }

  lemma FreeTakesNothing(g: Grant, used: int)
    requires !Charged(g)
    ensures UnitsFor(g, used) == 0
  {}

  // ---- a whole report ----

  /** One container of a usage report. */
  datatype Usage = Usage(used: int, reclaim: bool)

  function LeftOfUsage(grants: seq<Grant>, u: Usage): seq<Grant> {
    if u.used > 0 then LeftOf(grants, u.used, u.reclaim) else grants
  }

  function LeftOfAll(grants: seq<Grant>, report: seq<Usage>): seq<Grant>
    decreases |report|
  {
    if report == [] then grants else LeftOfAll(LeftOfUsage(grants, report[0]), report[1..])
  }

  /** Every grant covers every container, as they are worked off one after another. */
  predicate Accepts(grants: seq<Grant>, report: seq<Usage>)
    decreases |report|
  {
    report != [] ==>
      && (report[0].used > 0 ==> forall g :: g in grants ==> Fits(g, report[0].used))
      && Accepts(LeftOfUsage(grants, report[0]), report[1..])
  }

  lemma {:induction false} ReportMoreUsage(grants: seq<Grant>, report: seq<Usage>, i: nat)
    requires i < |report|
    ensures LeftOfAll(grants, report[..i + 1]) == LeftOfUsage(LeftOfAll(grants, report[..i]), report[i])
    ensures Accepts(grants, report[..i]) ==>
              (Accepts(grants, report[..i + 1]) <==>
                 (report[i].used > 0 ==> forall g :: g in LeftOfAll(grants, report[..i]) ==> Fits(g, report[i].used)))
    decreases i
  {
    assert report[..i + 1][0] == report[0];
    if i == 0 {
      assert report[..1][1..] == [] && report[..0] == [];
    } else {
      ReportMoreUsage(LeftOfUsage(grants, report[0]), report[1..], i - 1);
      assert report[..i + 1][1..] == report[1..][..i] && report[..i][1..] == report[1..][..i - 1];
    }
  }

  lemma {:induction false} AcceptsPrefix(grants: seq<Grant>, report: seq<Usage>, i: nat)
    requires i <= |report| && Accepts(grants, report)
    ensures Accepts(grants, report[..i])
    decreases i
  {
    if i > 0 {
      AcceptsPrefix(LeftOfUsage(grants, report[0]), report[1..], i - 1);
      assert report[..i][0] == report[0] && report[..i][1..] == report[1..][..i - 1];
    }
  }

  /** Some charged grant was debited before the report stopped at grant `k` of container `m`: any container of
      units debits them all. */
  predicate DebitedBefore(grants: seq<Grant>, report: seq<Usage>, m: nat, k: nat)
    requires m <= |report|
  {
    || (UnitsBefore(report, m) && exists g :: g in grants && Charged(g))
    || exists i :: 0 <= i < k && i < |grants| && Charged(grants[i])
  }

  predicate UnitsBefore(report: seq<Usage>, m: nat)
    requires m <= |report|
  {
    exists j :: 0 <= j < m && report[j].used > 0
  }

  /** A grant from which usage has been taken is followed by what is left of it, which is backed, or by nothing. */
  ghost predicate Followed(cs: seq<CounterState>, g: Grant, left: seq<Grant>) {
    || (exists h :: h in left && Reduced(h, g) && h.unitsGranted < g.unitsGranted)
    || (Fresh(cs, g.id) && g.unitsGranted > 0)
  }

  /** What the grants of the session are, when the request under way has worked off containers of units or not. */
  ghost predicate Tracked(cs: seq<CounterState>, grants: seq<Grant>, left: seq<Grant>, spent: bool) {
    if spent then forall g :: g in grants && Charged(g) ==> Followed(cs, g, left) else left == grants
  }

  /** A grant a reservation can back. */
  predicate Backable(g: Grant) {
    g.multiplier == 1.0 && g.unitType != MONETARY
  }

  lemma FollowedShort(cs: seq<CounterState>, g: Grant, left: seq<Grant>, h: Grant)
    requires Backable(g) && g.unitsGranted > 0
    requires Fresh(cs, g.id) || (Reduced(h, g) && h.unitsGranted < g.unitsGranted && Backed(cs, h))
    ensures Short(cs, g)
  {
    if Fresh(cs, g.id) {
      FreshIsEmpty(cs, g.id);
      assert Kept(Slots(cs, g.id), g, Terms(1.0, 1.0, 0.0, SERVICE_USAGE, Ends(g)));
    } else {
      var terms :| Kept(Slots(cs, h.id), h, terms);
      assert Kept(Slots(cs, g.id), g, terms);
    }
  }

  /** A grant worked off is followed. */
  lemma WorkedOffFollowed(cs: seq<CounterState>, g: Grant, h: Grant, left: seq<Grant>, used: int, reclaim: bool)
    requires Reduced(h, g) && Charged(h) && WorkedOff(cs, h, used, reclaim) && Fits(h, used) && used > 0
    requires forall h' :: h' in LeftOfOne(h, used, reclaim) ==> h' in left
    ensures Followed(cs, g, left)
  {
    hide Backed, Fresh, NormaliseUnits;
    NormalisedPositive(used, h.minimumUnits, h.roundingIncrement);
    if !(reclaim || AfterUse(h, used).unitsGranted == 0) { assert AfterUse(h, used) in LeftOfOne(h, used, reclaim); }
  }

  lemma TrackedMore(cs: seq<CounterState>, cs': seq<CounterState>, grants: seq<Grant>, left: seq<Grant>, spent: bool,
                    now: Time, used: int, reclaim: bool, ids: set<Uuid>)
    requires Tracked(cs, grants, left, spent) && used > 0 && AllValid(grants, ids, now)
    requires Progress(cs', left, |left|, now, used, reclaim) && forall h :: h in left ==> Fits(h, used)
    requires forall id :: id in ids && Fresh(cs, id) ==> Fresh(cs', id)
    ensures Tracked(cs', grants, LeftOf(left, used, reclaim), true)
  {
    hide WorkedOff, Fresh, UnitsFor;
    var left' := LeftOf(left, used, reclaim);
    forall g | g in grants && Charged(g) ensures Followed(cs', g, left') {
      if !spent || exists h :: h in left && Reduced(h, g) && h.unitsGranted < g.unitsGranted {
        var h :| h in left && Reduced(h, g);
        var k :| 0 <= k < |left| && left[k] == h;
        LeftOfTo(left, k, used, reclaim);
        WorkedOffFollowed(cs', g, h, left', used, reclaim);
      }
    }
  }

  /** Where a report stops, the session as it was is short of a charged grant exactly if one has been debited. */
  lemma TrackedStops(cs: seq<CounterState>, cs': seq<CounterState>, grants: seq<Grant>, left: seq<Grant>,
                     report: seq<Usage>, m: nat, k: nat, now: Time, used: int, reclaim: bool, ids: set<Uuid>)
    requires m <= |report| && k <= |left| && used > 0 && AllValid(grants, ids, now) && Sound(cs')
    requires Tracked(cs, grants, left, UnitsBefore(report, m)) && Progress(cs', left, k, now, used, reclaim)
    requires forall i :: 0 <= i < k ==> Fits(left[i], used)
    requires forall id :: id in ids && Fresh(cs, id) ==> Fresh(cs', id)
    requires forall g :: g in grants && Charged(g) ==> Backable(g)
    ensures if DebitedBefore(grants, report, m, k) then exists g :: g in grants && Charged(g) && Short(cs', g)
            else forall g :: g in grants ==> Usable(cs', g, now)
  {
    hide Fresh, Backed, Short, NormaliseUnits;
    if UnitsBefore(report, m) && exists g :: g in grants && Charged(g) {
      var g :| g in grants && Charged(g);
      assert Followed(cs, g, left);
      if h :| h in left && Reduced(h, g) && h.unitsGranted < g.unitsGranted {
        var i :| 0 <= i < |left| && left[i] == h;
        if i < k { ShortOnceWorkedOff(cs', g, h, used, reclaim); } else { ShortIfLess(cs', g, h, now); }
      } else {
        FollowedShort(cs', g, left, g);
      }
      assert Short(cs', g);
    } else if i :| 0 <= i < k && i < |grants| && Charged(grants[i]) {
      if !UnitsBefore(report, m) {
        ShortOnceWorkedOff(cs', grants[i], left[i], used, reclaim);
        assert grants[i] in grants;
      }
    }
  }

  lemma ShortOnceWorkedOff(cs: seq<CounterState>, g: Grant, h: Grant, used: int, reclaim: bool)
    requires Reduced(h, g) && Charged(h) && Backable(g) && WorkedOff(cs, h, used, reclaim) && Fits(h, used) && used > 0
    ensures Short(cs, g)
  {
    hide Backed, Fresh, NormaliseUnits;
    NormalisedPositive(used, h.minimumUnits, h.roundingIncrement);
    FollowedShort(cs, g, [], AfterUse(h, used));
  }

  lemma ShortIfLess(cs: seq<CounterState>, g: Grant, h: Grant, now: Time)
    requires Reduced(h, g) && h.unitsGranted < g.unitsGranted && Charged(h) && Backable(g) && Usable(cs, h, now)
    requires Sound(cs)
    ensures Short(cs, g)
  {
    SlotsNonNegative(cs, h);
    FollowedShort(cs, g, [], h);
  }

  lemma SlotsNonNegative(cs: seq<CounterState>, g: Grant)
    requires Sound(cs) && Backed(cs, g)
    ensures g.unitsGranted >= 0
  {
    SlotsPositive(cs, g.id, g.unitType);
  }

  lemma {:induction false} UsableAgain(cs: seq<CounterState>, grants: seq<Grant>, ids: set<Uuid>, now: Time, used: int,
                                       reclaim: bool)
    requires AllValid(grants, ids, now) && Progress(cs, grants, |grants|, now, used, reclaim)
    ensures var left := LeftOf(grants, used, reclaim);
            AllValid(left, ids, now) && forall g :: g in left ==> Usable(cs, g, now)
  {
    hide Backed;
    LeftOfFrom(grants, used, reclaim);
    forall g' | g' in LeftOf(grants, used, reclaim)
      ensures Usable(cs, g', now) && g'.id in ids && (Charged(g') ==> StillValid(g', now))
    {
      var k :| 0 <= k < |grants| && g' in LeftOfOne(grants[k], used, reclaim);
      assert grants[k] in grants && WorkedOff(cs, grants[k], used, reclaim);
    }
  }

  /** The state of the outer loop before container `i`. */
  ghost predicate Reporting(cs: seq<CounterState>, grants: seq<Grant>, left: seq<Grant>, report: seq<Usage>, i: nat,
                            ids: set<Uuid>, now: Time)
    requires i <= |report|
  {
    && Sound(cs) && AllValid(left, ids, now) && (forall g :: g in left ==> Usable(cs, g, now))
    && left == LeftOfAll(grants, report[..i]) && Accepts(grants, report[..i])
    && Tracked(cs, grants, left, UnitsBefore(report, i))
  }

  lemma ReportingMore(cs: seq<CounterState>, cs': seq<CounterState>, grants: seq<Grant>, left: seq<Grant>,
                      report: seq<Usage>, i: nat, ids: set<Uuid>, now: Time)
    requires i < |report| && report[i].used > 0 && AllValid(grants, ids, now)
    requires Reporting(cs, grants, left, report, i, ids, now)
    requires Sound(cs') && Progress(cs', left, |left|, now, report[i].used, report[i].reclaim)
    requires forall k :: 0 <= k < |left| ==> Fits(left[k], report[i].used)
    requires forall id :: id in ids && Fresh(cs, id) ==> Fresh(cs', id)
    ensures Reporting(cs', grants, LeftOf(left, report[i].used, report[i].reclaim), report, i + 1, ids, now)
  {
    hide Progress, Usable, Tracked, Fits, AllValid, Fresh, LeftOf;
    assert forall h :: h in left ==> Fits(h, report[i].used);
    UsableAgain(cs', left, ids, now, report[i].used, report[i].reclaim);
    TrackedMore(cs, cs', grants, left, UnitsBefore(report, i), now, report[i].used, report[i].reclaim, ids);
    ReportMoreUsage(grants, report, i);
    assert UnitsBefore(report, i + 1);
  }

  lemma ReportingOver(cs: seq<CounterState>, grants: seq<Grant>, left: seq<Grant>, report: seq<Usage>, i: nat,
                      ids: set<Uuid>, now: Time)
    requires i < |report| && report[i].used <= 0 && Reporting(cs, grants, left, report, i, ids, now)
    ensures Reporting(cs, grants, left, report, i + 1, ids, now)
  {
    hide Usable, Tracked, Fits, AllValid, LeftOf;
    ReportMoreUsage(grants, report, i);
    assert UnitsBefore(report, i + 1) <==> UnitsBefore(report, i);
  }

  lemma ReportingStarts(cs: seq<CounterState>, grants: seq<Grant>, report: seq<Usage>, ids: set<Uuid>, now: Time)
    requires Sound(cs) && AllValid(grants, ids, now) && forall g :: g in grants ==> Usable(cs, g, now)
    ensures Reporting(cs, grants, grants, report, 0, ids, now) && report[..|report|] == report
    ensures forall g :: g in grants && Charged(g) ==> Backable(g)
  {}

  /** The outer loop of processUnitsUsed: containers of no units are passed over. If none stops the report, session
      and ledger agree on what is left. If one does, at grant `k` of container `m`, the grants of the session as it
      was before are still backed, or one of them is short, exactly as no charged grant or one had been debited. */
  method ProcessUnitsUsed(manager: Manager, repo: Repository, now: Time, grants: seq<Grant>, report: seq<Usage>,
                          others: nat -> Meddling, ghost ids: set<Uuid>)
    returns (outcome: Outcome, left: seq<Grant>, m: nat, k: nat)
    requires manager.retryLimit > 0 && Sound(repo.row.counters) && SparesAll(others, ids)
    requires AllValid(grants, ids, now) && forall g :: g in grants ==> Usable(repo.row.counters, g, now)
    modifies repo, manager`journal
    ensures Sound(repo.row.counters) && AllValid(left, ids, now)
    ensures outcome.Worked? ==>
              && left == LeftOfAll(grants, report) && Accepts(grants, report)
              && forall g :: g in left ==> Usable(repo.row.counters, g, now)
    ensures !outcome.Worked? ==>
              && m < |report| && report[m].used > 0 && Accepts(grants, report[..m])
              && left == LeftOfAll(grants, report[..m])
              && k < |left| && (forall i :: 0 <= i < k ==> Fits(left[i], report[m].used))
              && (outcome.TooSmall? <==> !Fits(left[k], report[m].used))
              && Progress(repo.row.counters, left, k, now, report[m].used, report[m].reclaim)
              && (if DebitedBefore(grants, report, m, k) then
                    exists g :: g in grants && Charged(g) && Short(repo.row.counters, g)
                  else forall g :: g in grants ==> Usable(repo.row.counters, g, now))
    ensures outcome.NotSaved? ==> !Quiet(others)
  {
    hide Reporting, Usable, Sound, AllValid, Tracked, LeftOf, LeftOfAll, Accepts, Progress, Fits, Short, SparesAll,
         Quiet, DebitedBefore;
    left, m, k := grants, 0, 0;
    ReportingStarts(repo.row.counters, grants, report, ids, now);
    var turn: nat := 0;
    for i := 0 to |report|
      invariant Reporting(repo.row.counters, grants, left, report, i, ids, now)
    {
      if report[i].used > 0 {
        ghost var cs, current := repo.row.counters, left;
        ReportingParts(cs, grants, left, report, i, ids, now);
        var debits;
        outcome, left, debits :=
          ProcessUsed(manager, repo, now, left, report[i].used, report[i].reclaim, others, turn, ids);
        if !outcome.Worked? {
          TrackedStops(cs, repo.row.counters, grants, current, report, i, |debits|, now, report[i].used,
                       report[i].reclaim, ids);
          return outcome, left, i, |debits|;
        }
        ReportingMore(cs, repo.row.counters, grants, current, report, i, ids, now);
        turn := turn + |debits| * manager.retryLimit;
      } else {
        ReportingOver(repo.row.counters, grants, left, report, i, ids, now);
      }
    }
    ReportingParts(repo.row.counters, grants, left, report, |report|, ids, now);
    outcome := Worked;
  }

  lemma ReportingParts(cs: seq<CounterState>, grants: seq<Grant>, left: seq<Grant>, report: seq<Usage>, i: nat,
                       ids: set<Uuid>, now: Time)
    requires i <= |report| && Reporting(cs, grants, left, report, i, ids, now)
    ensures Sound(cs) && AllValid(left, ids, now) && forall g :: g in left ==> Usable(cs, g, now)
    ensures left == LeftOfAll(grants, report[..i]) && Accepts(grants, report[..i])
    ensures Tracked(cs, grants, left, UnitsBefore(report, i))
  {}

  lemma StopsShort(grants: seq<Grant>, report: seq<Usage>, m: nat, left: seq<Grant>, k: nat)
    requires m < |report| && report[m].used > 0 && left == LeftOfAll(grants, report[..m])
    requires k < |left| && !Fits(left[k], report[m].used)
    ensures !Accepts(grants, report)
  {
    if Accepts(grants, report) {
      AcceptsPrefix(grants, report, m);
      AcceptsPrefix(grants, report, m + 1);
      ReportMoreUsage(grants, report, m);
    }
  }

  /** The validity filter of the accounting step. */
  function ValidGrants(grants: seq<Grant>, now: Time): (valid: seq<Grant>)
    ensures forall g :: g in valid <==> g in grants && StillValid(g, now)
    ensures DistinctGrants(grants) ==> DistinctGrants(valid)
  {
    if grants == [] then [] else
    var rest := ValidGrants(grants[1..], now);
    assert forall g :: g in rest ==> g in grants[1..];
    assert forall k :: 0 <= k < |rest| ==> rest[k] in rest;
    if StillValid(grants[0], now) then [grants[0]] + rest else rest
  }

  lemma FilterMore(valid: seq<Grant>, grants: seq<Grant>, i: nat, now: Time)
    requires i < |grants|
    ensures valid + ValidGrants(grants[i..], now)
            == (if StillValid(grants[i], now) then valid + [grants[i]] else valid) + ValidGrants(grants[i + 1..], now)
  {
    assert grants[i..][0] == grants[i] && grants[i..][1..] == grants[i + 1..];
    ConcatAssociates(valid, [grants[i]], ValidGrants(grants[i + 1..], now));
  }

  method FilterValid(grants: seq<Grant>, now: Time) returns (valid: seq<Grant>)
    ensures valid == ValidGrants(grants, now)
  {
    hide ValidGrants;
    valid := [];
    assert grants[0..] == grants;
    for i := 0 to |grants|
      invariant valid + ValidGrants(grants[i..], now) == ValidGrants(grants, now)
    {
      FilterMore(valid, grants, i, now);
      if StillValid(grants[i], now) { valid := valid + [grants[i]]; }
    }
    assert ValidGrants(grants[|grants|..], now) == [] by { NoneValid(now); }
  }

  lemma NoneValid(now: Time)
    ensures ValidGrants([], now) == []
  {}

  /** The accounting step for one rating group, of a session that agrees with the ledger: drop the grants that are
      no longer valid, then work the report off the others. If no one else saves in between, it succeeds exactly
      when every grant covers every container. If it succeeds, session and ledger still agree. If it does not, the
      session stays as it was, and agrees with the ledger exactly when no charged grant was debited before. */
  method AccountUnit(manager: Manager, repo: Repository, now: Time, grants: seq<Grant>, report: seq<Usage>,
                     others: nat -> Meddling, ghost ids: set<Uuid>)
    returns (outcome: Outcome, left: seq<Grant>, m: nat, k: nat)
    requires manager.retryLimit > 0 && Agrees(repo.row.counters, grants, now)
    requires SparesAll(others, ids) && forall g :: g in grants ==> g.id in ids
    modifies repo, manager`journal
    ensures Sound(repo.row.counters)
    ensures outcome.Worked? ==> Accepts(ValidGrants(grants, now), report)
    ensures outcome.TooSmall? ==> !Accepts(ValidGrants(grants, now), report)
    ensures outcome.NotSaved? ==> !Quiet(others)
    ensures outcome.Worked? ==>
              left == LeftOfAll(ValidGrants(grants, now), report) && Agrees(repo.row.counters, left, now)
    ensures !outcome.Worked? ==>
              && m < |report| && report[m].used > 0 && Accepts(ValidGrants(grants, now), report[..m])
              && left == LeftOfAll(ValidGrants(grants, now), report[..m])
              && k < |left| && (forall i :: 0 <= i < k ==> Fits(left[i], report[m].used))
              && (outcome.TooSmall? <==> !Fits(left[k], report[m].used))
              && Progress(repo.row.counters, left, k, now, report[m].used, report[m].reclaim)
              && (Agrees(repo.row.counters, grants, now) <==> !DebitedBefore(ValidGrants(grants, now), report, m, k))
  {
    hide Accepts, LeftOfAll, DebitedBefore, Sound, Short, Backed, Quiet, SparesAll, Fits;
    var valid := FilterValid(grants, now);
    outcome, left, m, k := ProcessUnitsUsed(manager, repo, now, valid, report, others, ids);
    if outcome.TooSmall? { StopsShort(valid, report, m, left, k); }
    if !outcome.Worked? && DebitedBefore(valid, report, m, k) {
      ghost var g :| g in valid && Charged(g) && Short(repo.row.counters, g);
      ShortNotBacked(repo.row.counters, g);
    }
  }

  /** Ten units, all reserved for a grant. */
  function TenUnits(g: Grant): CounterState {
    CounterState(1, g.unitType, 0, 10.0, None,
                 map[g.id := Reservation(10, 0.0, Terms(1.0, 1.0, 0.0, SERVICE_USAGE, Ends(g)))], false, [], None)
  }

  lemma TenBacked(g: Grant, now: Time)
    requires Backable(g) && StillValid(g, now) && g.unitsGranted == 10
    ensures var cs := [TenUnits(g)]; Agrees(cs, [g], now) && Backed(cs, g) && Expire(cs, now).kept == cs
  {
    var c := TenUnits(g);
    HeldSplit(c.reservations, g.id);
    assert c.reservations - {g.id} == map[] && IntPart(10.0) == 10;
    assert Pruned(c, now) == c;
    ExpireSingle(c, now);
    assert [c][1..] == [];
    var slots := [Slot(g.unitType, 0, c.reservations[g.id])];
    assert Slots([c], g.id) == slots && slots[1..] == [];
    assert Kept(slots, g, c.reservations[g.id].terms) && SlotUnits(slots, g.unitType) == 10.0;
    assert Backed([c], g);
    assert forall h :: h in [g] ==> h == g;
  }

  /** A ledger that holds ten units for a grant of ten, and a report of six and six: the first container is debited,
      the second stops the report, and the session keeps ten units of which four are reserved. */
  lemma SixAndSix(g: Grant, now: Time, taxRate: real)
    requires Backable(g) && StillValid(g, now) && g.unitsGranted == 10 && g.minimumUnits == 0
    requires g.roundingIncrement == 1
    ensures var report, four := [Usage(6, false), Usage(6, false)], g.(unitsGranted := 4);
            && ValidGrants([g], now) == [g] && !Accepts([g], report)
            && Accepts([g], report[..1]) && LeftOfAll([g], report[..1]) == [four]
            && !Fits(four, 6) && DebitedBefore([g], report, 1, 0)
    ensures var cs, call, v := [TenUnits(g)], UseCall(g, 6, false), Visit([0], []);
            && Agrees(cs, [g], now) && SoundCall(call, taxRate) && Visits(Expire(cs, now).kept, call, v)
            && var o := Attempt(cs, call, v, now, taxRate);
               && o.response.debit.unitsDebited == 6 && o.response.debit.unaccountedUnits == 0
               && Backed(o.counters, g.(unitsGranted := 4)) && !Agrees(o.counters, [g], now)
  {
    hide Attempt, Agrees, Backed, Expire, Visits;
    var report, four := [Usage(6, false), Usage(6, false)], g.(unitsGranted := 4);
    assert [g][1..] == [] && report[..1] == [report[0]] && report[..1][1..] == [];
    assert LeftOf([g], 6, false) == [four] by { assert LeftOf([], 6, false) == []; }
    assert LeftOfAll([four], []) == [four] && Accepts([four], []);
    assert report[0].used > 0 && g in [g];
    StopsShort([g], report, 1, [four], 0);
    TenDebited(g, now, taxRate);
  }

  lemma TenDebited(g: Grant, now: Time, taxRate: real)
    requires Backable(g) && StillValid(g, now) && g.unitsGranted == 10 && g.minimumUnits == 0
    requires g.roundingIncrement == 1
    ensures var cs, call, v := [TenUnits(g)], UseCall(g, 6, false), Visit([0], []);
            && Agrees(cs, [g], now) && SoundCall(call, taxRate) && Visits(Expire(cs, now).kept, call, v)
            && var o := Attempt(cs, call, v, now, taxRate);
               && o.response.Debited? && o.response.debit.unitsDebited == 6 && o.response.debit.unaccountedUnits == 0
               && Backed(o.counters, g.(unitsGranted := 4)) && !Agrees(o.counters, [g], now)
  {
    hide Attempt, Backed, Sound, Expire;
    var cs, c := [TenUnits(g)], Commit(UseCall(g, 6, false), Visit([0], []), now);
    TenBacked(g, now);
    AttemptDebitsKind(cs, c, taxRate);
    UseBacked(cs, c, taxRate, g, 6, false);
    var cs' := Attempt(cs, c.call, c.visit, now, taxRate).counters;
    FollowedShort(cs', g, [], AfterUse(g, 6));
    ShortNotBacked(cs', g);
    assert g in [g];
  }

  // ---- the rating step ----

  /** rateUnit, from the request on: a free line grants the normalised request, any other what the ledger reserves
      for it, unless other writers beat the reservation. The grant is final exactly when it is less than was asked
      for. The session's other grants stay backed; with multiplier one what is reserved pays for the new grant,
      in units, money or both, and if it is service units only the session agrees with the ledger again. */
  method RateUnit(manager: Manager, repo: Repository, now: Time, ghost grants: seq<Grant>, call: Call,
                  minimumUnits: int, roundingIncrement: int, others: nat -> Meddling, ghost ids: set<Uuid>)
    returns (grant: Option<Grant>, finalUnits: bool, ghost seen: seq<CounterState>, ghost v: Visit)
    requires manager.retryLimit > 0 && Agrees(repo.row.counters, grants, now) && SparesAll(others, ids)
    requires call.Reserve? && call.validity > 0 && call.id in ids
    requires (forall g :: g in grants ==> g.id in ids && g.id != call.id)
    requires call.multiplier == 0.0 || (SoundCall(call, manager.taxRate) && Fresh(repo.row.counters, call.id))
    modifies repo, manager`journal
    ensures Agrees(repo.row.counters, grants, now)
    ensures grant.None? ==> call.multiplier != 0.0 && !Quiet(others)
    ensures grant.Some? ==>
              var g := grant.value;
              && g.id == call.id && g.unitType == call.unitType && g.grantedTime == now
              && g.validityTime == call.validity / SECOND && g.multiplier == call.multiplier
              && g.minimumUnits == minimumUnits && g.roundingIncrement == roundingIncrement
    ensures grant.Some? ==>
              var n := NormaliseUnits(call.requested, minimumUnits, roundingIncrement);
              && grant.value == GrantOf(call, now, grant.value.unitsGranted, minimumUnits, roundingIncrement)
              && (finalUnits <==> grant.value.unitsGranted < n)
              && if call.multiplier == 0.0 then grant.value.unitsGranted == n && repo.row == old(repo.row)
                 else
                   var reserve := call.(requested := n);
                   && Same(old(repo.row.counters), seen, ids) && Visits(Expire(seen, now).kept, reserve, v)
                   && var o := Attempt(seen, reserve, v, now, manager.taxRate);
                      repo.row == Row(o.counters, now) && o.response == Granted(grant.value.unitsGranted)
    ensures grant.Some? && call.multiplier == 1.0 ==>
              Funds(Slots(repo.row.counters, call.id), call.unitType, grant.value.unitsGranted,
                    TermsOf(call, now, manager.taxRate))
    ensures grant.Some?
            && (call.multiplier == 0.0 || (call.multiplier == 1.0 && call.unitType != MONETARY && !call.allowOOB)) ==>
              Agrees(repo.row.counters, grants + [grant.value], now)
  {
    hide Attempt, Visits, Expire, NormaliseUnits, Fresh, Same, SparesAll, Quiet, Backed, Funds;
    var normalised := NormaliseUnits(call.requested, minimumUnits, roundingIncrement);
    seen, v := repo.row.counters, Visit([], []);
    if call.multiplier == 0.0 {
      return Some(GrantOf(call, now, normalised, minimumUnits, roundingIncrement)), false, seen, v;
    }
    ghost var cs := repo.row.counters;
    var reserve, response := call.(requested := normalised), None;
    response, seen, v := CallLedger(manager, repo, reserve, now, others, 0, ids);
    if response.None? {
      SameAgrees(cs, repo.row.counters, ids, grants, now);
      return None, false, seen, v;
    }
    SameAgrees(cs, seen, ids, grants, now);
    SameFresh(cs, seen, ids, call.id);
    ghost var c := Commit(reserve, v, now);
    AttemptDebitsKind(seen, c, manager.taxRate);
    RatedAgrees(seen, c, manager.taxRate, grants, minimumUnits, roundingIncrement);
    grant := Some(GrantOf(call, now, response.value.units, minimumUnits, roundingIncrement));
    finalUnits := normalised > response.value.units;
  }

  lemma SameAgrees(cs: seq<CounterState>, cs': seq<CounterState>, ids: set<Uuid>, grants: seq<Grant>, now: Time)
    requires Agrees(cs, grants, now) && Same(cs, cs', ids) && forall g :: g in grants ==> g.id in ids
    ensures Agrees(cs', grants, now)
  {}

  lemma SameFresh(cs: seq<CounterState>, cs': seq<CounterState>, ids: set<Uuid>, id: Uuid)
    requires Same(cs, cs', ids) && id in ids && Fresh(cs, id)
    ensures Fresh(cs', id)
  {
    FreshIsEmpty(cs, id);
    FreshIsEmpty(cs', id);
  }

  lemma RatedAgrees(cs: seq<CounterState>, c: Commit, taxRate: real, grants: seq<Grant>, minimumUnits: int,
                    roundingIncrement: int)
    requires c.call.Reserve? && c.call.validity > 0 && SoundCall(c.call, taxRate) && Agrees(cs, grants, c.now)
    requires Visits(Expire(cs, c.now).kept, c.call, c.visit) && Fresh(cs, c.call.id)
    requires forall g :: g in grants ==> g.id != c.call.id
    ensures var o := Attempt(cs, c.call, c.visit, c.now, taxRate);
            && o.response.Granted? && Agrees(o.counters, grants, c.now)
            && (c.call.multiplier == 1.0 ==>
                  Funds(Slots(o.counters, c.call.id), c.call.unitType, o.response.units,
                        TermsOf(c.call, c.now, taxRate)))
            && (c.call.multiplier == 1.0 && c.call.unitType != MONETARY && !c.call.allowOOB ==>
                  var grant := GrantOf(c.call, c.now, o.response.units, minimumUnits, roundingIncrement);
                  Agrees(o.counters, grants + [grant], c.now))
  {
    hide Attempt, Visits, Expire, Fresh, Backed, Funds;
    AttemptSound(cs, c.call, c.visit, c.now, taxRate);
    AttemptDebitsKind(cs, c, taxRate);
    forall g | g in grants && Charged(g) && StillValid(g, c.now)
      ensures Backed(Attempt(cs, c.call, c.visit, c.now, taxRate).counters, g)
    {
      OtherKept(cs, c, taxRate, g);
    }
    if c.call.multiplier == 1.0 {
      AttemptFunds(cs, c, taxRate);
      if c.call.unitType != MONETARY && !c.call.allowOOB {
        GrantBacked(cs, c, taxRate, minimumUnits, roundingIncrement);
      }
    }
  }
}
