/** The attempts of one call: the rows other writers leave around them, what they post, and what the call
    reports in the end. */
module Retries {
  import opened Basics
  import opened Charging
  import opened Ledger
  import opened QuotaOps
  import opened Journal
  import opened Debiting
  import opened Expiry
  import opened Attempts
  import opened Grants
  import opened Dwindling
  import opened Publication
  import opened Protocol
  import opened QuotaStore

  /** The rows that other writers have left by the time of one attempt's load and of its save. */
  datatype Moment = Moment(atLoad: Row, atSave: Row)

  /** Another writer has saved under a new version in between. */
  predicate Beaten(m: Moment) {
    m.atSave.version != m.atLoad.version
  }

  datatype Result = Completed(response: Response) | RetryLimitExceeded | LockError

  /** Each attempt visits the counters it loaded in an order sort.Slice may produce. */
  ghost predicate Attempted(others: seq<Moment>, call: Call, visits: seq<Visit>, now: Time, taxRate: real) {
    && SoundCall(call, taxRate) && |visits| <= |others|
    && forall k :: 0 <= k < |visits| ==>
         Sound(others[k].atLoad.counters) && Visits(Expire(others[k].atLoad.counters, now).kept, call, visits[k])
  }

  /** What the operations of the first `n` attempts post. */
  ghost function Posts(others: seq<Moment>, call: Call, visits: seq<Visit>, n: nat, now: Time,
                       taxRate: real): seq<Entry>
    requires Attempted(others, call, visits, now, taxRate) && n <= |visits|
  {
    if n == 0 then [] else
    Posts(others, call, visits, n - 1, now, taxRate)
    + OperationOf(others[n - 1].atLoad.counters, call, visits[n - 1], now, taxRate).journal
  }

  lemma {:induction false} PostsPrefix(others: seq<Moment>, call: Call, visits: seq<Visit>, v: Visit, n: nat,
                                       now: Time, taxRate: real)
    requires Attempted(others, call, visits + [v], now, taxRate) && n <= |visits|
    requires Attempted(others, call, visits, now, taxRate)
    ensures Posts(others, call, visits + [v], n, now, taxRate) == Posts(others, call, visits, n, now, taxRate)
  {
    hide Visits, Sound, Expire, OperationOf;
    if n > 0 {
      PostsPrefix(others, call, visits, v, n - 1, now, taxRate);
      assert (visits + [v])[n - 1] == visits[n - 1];
    }
  }

  lemma PostsMore(others: seq<Moment>, call: Call, visits: seq<Visit>, v: Visit, now: Time, taxRate: real)
    requires Attempted(others, call, visits, now, taxRate) && |visits| < |others|
    requires var cs := others[|visits|].atLoad.counters; Sound(cs) && Visits(Expire(cs, now).kept, call, v)
    ensures Attempted(others, call, visits + [v], now, taxRate)
    ensures Posts(others, call, visits + [v], |visits|, now, taxRate)
            == Posts(others, call, visits, |visits|, now, taxRate)
    ensures Posts(others, call, visits + [v], |visits| + 1, now, taxRate)
            == Posts(others, call, visits, |visits|, now, taxRate)
               + OperationOf(others[|visits|].atLoad.counters, call, v, now, taxRate).journal
  {
    assert forall k :: 0 <= k < |visits| ==> (visits + [v])[k] == visits[k];
    PostsPrefix(others, call, visits, v, |visits|, now, taxRate);
  }

  lemma PostsNone(others: seq<Moment>, call: Call, now: Time, taxRate: real)
    requires SoundCall(call, taxRate)
    ensures Attempted(others, call, [], now, taxRate) && Posts(others, call, [], 0, now, taxRate) == []
  {}

  lemma AttemptResponds(cs: seq<CounterState>, call: Call, v: Visit, now: Time, taxRate: real)
    requires Sound(cs) && SoundCall(call, taxRate) && Visits(Expire(cs, now).kept, call, v)
    ensures Attempt(cs, call, v, now, taxRate).response == OperationOf(cs, call, v, now, taxRate).response
  {}

  // ---- what is reported ----

  function NoDebit(): DebitResponse {
    DebitResponse(0, 0.0, 0, 0)
  }

  /** The debit in a response; nothing if it holds none. */
  function DebitIn(r: Response): DebitResponse {
    if r.Debited? then r.debit else NoDebit()
  }

  /** The attempt debits more than the service units cover. */
  ghost predicate NeedsMoney(cs: seq<CounterState>, call: Call, v: Visit)
    requires Sound(cs) && Visits(cs, call, v)
  {
    call.Debit? && (DebitDefined(cs, v, call.id, call.unitType);
                    ServicePart(cs, v, call.id, call.used, call.unitType, call.reclaim).left > 0)
  }

  /** What is reported when an attempt finds `found` and an earlier attempt of the call left `prior`: a debit that
      needs no money does not touch the value. */
  function Carried(found: Response, needed: bool, prior: DebitResponse): Response {
    if found.Debited? && !needed then
      Debited(found.debit.(unitsValue := prior.unitsValue, valueUnits := prior.valueUnits))
    else found
  }

  /** Whether one of the attempts needed money. */
  ghost predicate MoneyAt(others: seq<Moment>, call: Call, visits: seq<Visit>, k: nat, now: Time, taxRate: real)
    requires Attempted(others, call, visits, now, taxRate) && k < |visits|
  {
    ExpirySound(others[k].atLoad.counters, now);
    NeedsMoney(Expire(others[k].atLoad.counters, now).kept, call, visits[k])
  }

  /** What one of the attempts found. */
  ghost function FoundAt(others: seq<Moment>, call: Call, visits: seq<Visit>, k: nat, now: Time,
                         taxRate: real): Response
    requires Attempted(others, call, visits, now, taxRate) && k < |visits|
  {
    OperationOf(others[k].atLoad.counters, call, visits[k], now, taxRate).response
  }

  /** What the call holds to report after `n` attempts. */
  ghost function ReportAfter(others: seq<Moment>, call: Call, visits: seq<Visit>, n: nat, now: Time,
                             taxRate: real): Response
    requires Attempted(others, call, visits, now, taxRate) && n <= |visits|
  {
    if n == 0 then Debited(NoDebit()) else
    Carried(FoundAt(others, call, visits, n - 1, now, taxRate), MoneyAt(others, call, visits, n - 1, now, taxRate),
            DebitIn(ReportAfter(others, call, visits, n - 1, now, taxRate)))
  }

  lemma {:induction false} ReportPrefix(others: seq<Moment>, call: Call, visits: seq<Visit>, v: Visit, n: nat,
                                        now: Time, taxRate: real)
    requires Attempted(others, call, visits + [v], now, taxRate) && n <= |visits|
    requires Attempted(others, call, visits, now, taxRate)
    ensures ReportAfter(others, call, visits + [v], n, now, taxRate)
            == ReportAfter(others, call, visits, n, now, taxRate)
  {
    hide Visits, Sound, Expire, OperationOf, NeedsMoney;
    if n > 0 {
      ReportPrefix(others, call, visits, v, n - 1, now, taxRate);
      assert (visits + [v])[n - 1] == visits[n - 1];
    }
  }

  lemma ReportMore(others: seq<Moment>, call: Call, visits: seq<Visit>, v: Visit, now: Time, taxRate: real)
    requires Attempted(others, call, visits, now, taxRate) && |visits| < |others|
    requires Attempted(others, call, visits + [v], now, taxRate)
    ensures var n := |visits|;
            ReportAfter(others, call, visits + [v], n + 1, now, taxRate)
            == Carried(FoundAt(others, call, visits + [v], n, now, taxRate),
                       MoneyAt(others, call, visits + [v], n, now, taxRate),
                       DebitIn(ReportAfter(others, call, visits, n, now, taxRate)))
  {
    hide Visits, Sound, Expire, OperationOf, NeedsMoney;
    ReportPrefix(others, call, visits, v, |visits|, now, taxRate);
  }

  /** The value left by the last of `n` attempts that needed money; zero if none did. */
  ghost function MoneyLeft(others: seq<Moment>, call: Call, visits: seq<Visit>, n: nat, now: Time,
                           taxRate: real): (real, int)
    requires Attempted(others, call, visits, now, taxRate) && n <= |visits|
  {
    if n == 0 then (0.0, 0)
    else if MoneyAt(others, call, visits, n - 1, now, taxRate) then
      var d := DebitIn(FoundAt(others, call, visits, n - 1, now, taxRate));
      (d.unitsValue, d.valueUnits)
    else MoneyLeft(others, call, visits, n - 1, now, taxRate)
  }

  lemma FoundKind(others: seq<Moment>, call: Call, visits: seq<Visit>, k: nat, now: Time, taxRate: real)
    requires Attempted(others, call, visits, now, taxRate) && k < |visits|
    ensures call.Debit? <==> FoundAt(others, call, visits, k, now, taxRate).Debited?
    ensures MoneyAt(others, call, visits, k, now, taxRate) ==> call.Debit?
    ensures call.Debit? && !MoneyAt(others, call, visits, k, now, taxRate) ==>
              var d := FoundAt(others, call, visits, k, now, taxRate).debit; d.unitsValue == 0.0 && d.valueUnits == 0
  {
    ExpirySound(others[k].atLoad.counters, now);
    if call.Debit? {
      DebitDefined(Expire(others[k].atLoad.counters, now).kept, visits[k], call.id, call.unitType);
    }
  }

  lemma {:induction false} ReportHolds(others: seq<Moment>, call: Call, visits: seq<Visit>, n: nat, now: Time,
                                       taxRate: real)
    requires Attempted(others, call, visits, now, taxRate) && n <= |visits| && call.Debit?
    ensures var r := ReportAfter(others, call, visits, n, now, taxRate);
            r.Debited? && (r.debit.unitsValue, r.debit.valueUnits) == MoneyLeft(others, call, visits, n, now, taxRate)
  {
    hide Visits, Sound, Expire, OperationOf, NeedsMoney, MoneyAt, FoundAt;
    if n > 0 {
      FoundKind(others, call, visits, n - 1, now, taxRate);
      ReportHolds(others, call, visits, n - 1, now, taxRate);
    }
  }

  /** After `n + 1` attempts a call reports what the last of them found, the value of a debit excepted. That value
      is what the last attempt found exactly when it needed money, or when what the attempts before it left is
      zero too: an earlier attempt that needed money leaves its own. */
  lemma {:induction false} ReportExactly(others: seq<Moment>, call: Call, visits: seq<Visit>, n: nat, now: Time,
                                         taxRate: real)
    requires Attempted(others, call, visits, now, taxRate) && n < |visits|
    ensures var report, found := ReportAfter(others, call, visits, n + 1, now, taxRate),
            FoundAt(others, call, visits, n, now, taxRate);
            && (!call.Debit? ==> report == found)
            && (call.Debit? ==>
                  && report.Debited? && found.Debited? && report.debit.unitsDebited == found.debit.unitsDebited
                  && report.debit.unaccountedUnits == found.debit.unaccountedUnits
                  && (report == found <==>
                        || MoneyAt(others, call, visits, n, now, taxRate)
                        || MoneyLeft(others, call, visits, n, now, taxRate) == (0.0, 0)))
  {
    hide Visits, Sound, Expire, OperationOf, NeedsMoney, MoneyAt, FoundAt;
    FoundKind(others, call, visits, n, now, taxRate);
    if call.Debit? { ReportHolds(others, call, visits, n, now, taxRate); }
  }

  // ---- an id that no one else reserves again ----

  /** Each of the first `n` attempts is followed by one that loads what calls of others have made of the row, none of
      them a reservation under the id. */
  ghost predicate Unreserved(others: seq<Moment>, logs: seq<seq<Commit>>, n: nat, id: Uuid, taxRate: real) {
    n < |others| && n <= |logs| && forall k: nat :: k < n ==> LeadsTo(others, logs[k], k, id, taxRate)
  }

  ghost predicate LeadsTo(others: seq<Moment>, log: seq<Commit>, k: nat, id: Uuid, taxRate: real)
    requires k + 1 < |others|
  {
    var cs := others[k].atLoad.counters;
    && Sound(cs) && Feasible(cs, log, taxRate) && (forall c :: c in log ==> NotReserving(c.call, id))
    && others[k + 1].atLoad.counters == Replay(cs, log, taxRate)
  }

  /** Money needed on what is reserved is needed on what calls of others leave of it. */
  lemma MoneyStays(cs: seq<CounterState>, cs': seq<CounterState>, call: Call, v: Visit, v': Visit, now: Time)
    requires Sound(cs) && Sound(cs') && call.Debit? && call.used > 0
    requires Visits(Expire(cs, now).kept, call, v) && Visits(Expire(cs', now).kept, call, v')
    requires Dwindled(Slots(cs, call.id), Slots(cs', call.id)) && Unambiguous(Slots(cs, call.id), call.unitType)
    ensures Sound(Expire(cs, now).kept) && Sound(Expire(cs', now).kept)
    ensures NeedsMoney(Expire(cs, now).kept, call, v) ==> NeedsMoney(Expire(cs', now).kept, call, v')
  {
    hide Slots, Dwindled, DebitUnitsAlong, Expire, Unambiguous, Picks;
    var id, kept, kept' := call.id, Expire(cs, now).kept, Expire(cs', now).kept;
    ExpirySound(cs, now);
    ExpirySound(cs', now);
    DebitDefined(kept, v, id, call.unitType);
    DebitDefined(kept', v', id, call.unitType);
    if call.unitType != MONETARY {
      ExpireSlots(cs, now, id);
      ExpireSlots(cs', now, id);
      LiveDwindled(Slots(cs, id), Slots(cs', id), now);
      LiveDwindles(Slots(cs, id), now);
      UnambiguousLeft(Slots(cs, id), Slots(kept, id), call.unitType);
      LeavesNoLess(kept, v.service, kept', v'.service, id, call.used, call.unitType, call.reclaim);
    }
  }

  lemma {:induction false} StaysUnambiguous(others: seq<Moment>, logs: seq<seq<Commit>>, n: nat, id: Uuid, t: UnitType,
                                            taxRate: real)
    requires Unreserved(others, logs, n, id, taxRate) && Unambiguous(Slots(others[0].atLoad.counters, id), t)
    ensures Unambiguous(Slots(others[n].atLoad.counters, id), t)
  {
    hide Slots, Dwindled, Unambiguous, Feasible, Replay;
    if n > 0 {
      StaysUnambiguous(others, logs, n - 1, id, t, taxRate);
      var cs, cs' := others[n - 1].atLoad.counters, others[n].atLoad.counters;
      assert LeadsTo(others, logs[n - 1], n - 1, id, taxRate);
      ReplayDwindles(cs, logs[n - 1], taxRate, id);
      UnambiguousLeft(Slots(cs, id), Slots(cs', id), t);
    }
  }

  /** If the last attempt needs no money, none before it did. */
  lemma {:induction false} NoMoneyLeft(others: seq<Moment>, logs: seq<seq<Commit>>, call: Call, visits: seq<Visit>,
                                       n: nat, now: Time, taxRate: real)
    requires Attempted(others, call, visits, now, taxRate) && n < |visits| && call.Debit?
    requires Unreserved(others, logs, n, call.id, taxRate)
    requires Unambiguous(Slots(others[0].atLoad.counters, call.id), call.unitType)
    ensures MoneyAt(others, call, visits, n, now, taxRate)
            || MoneyLeft(others, call, visits, n, now, taxRate) == (0.0, 0)
  {
    hide Slots, Dwindled, Unambiguous, Feasible, Replay, Visits, Expire, OperationOf, NeedsMoney;
    if n > 0 && !MoneyAt(others, call, visits, n, now, taxRate) {
      NoMoneyLeft(others, logs, call, visits, n - 1, now, taxRate);
      StaysUnambiguous(others, logs, n - 1, call.id, call.unitType, taxRate);
      var cs, cs' := others[n - 1].atLoad.counters, others[n].atLoad.counters;
      assert LeadsTo(others, logs[n - 1], n - 1, call.id, taxRate);
      ReplayDwindles(cs, logs[n - 1], taxRate, call.id);
      MoneyStays(cs, cs', call, visits[n - 1], visits[n], now);
    }
  }

  /** A debit reports exactly what its last attempt found whenever no one else reserves under its id between the
      attempts, and what is reserved there is without ties, or with whole multipliers. */
  lemma ReportAlways(others: seq<Moment>, logs: seq<seq<Commit>>, call: Call, visits: seq<Visit>, n: nat, now: Time,
                     taxRate: real)
    requires Attempted(others, call, visits, now, taxRate) && n < |visits| && call.Debit?
    requires Unreserved(others, logs, n, call.id, taxRate)
    requires Unambiguous(Slots(others[0].atLoad.counters, call.id), call.unitType)
    ensures ReportAfter(others, call, visits, n + 1, now, taxRate) == FoundAt(others, call, visits, n, now, taxRate)
  {
    hide Unambiguous, Unreserved, Visits, Sound, Expire, OperationOf, NeedsMoney, MoneyAt, MoneyLeft;
    NoMoneyLeft(others, logs, call, visits, n, now, taxRate);
    ReportExactly(others, call, visits, n, now, taxRate);
  }

  // ---- everything a call publishes ----

  /** The entries come to nothing on every counter. */
  ghost predicate NothingNet(j: seq<Entry>) {
    forall id :: Posted(j, id) == 0.0
  }

  /** What a call publishes that saves at its last attempt, the posts of the attempts beaten before included, adds up
      to what it changes exactly when these posts come to nothing on every counter. */
  lemma AllPublished(others: seq<Moment>, call: Call, visits: seq<Visit>, n: nat, now: Time, taxRate: real)
    requires Attempted(others, call, visits, now, taxRate) && n < |visits|
    requires UsageReasons(others[n].atLoad.counters) && SoundReason(call)
    ensures var cs, posts := others[n].atLoad.counters, Posts(others, call, visits, n, now, taxRate);
            AddsUp(cs, posts + PublishedBy(cs, call, visits[n], now, taxRate),
                   Attempt(cs, call, visits[n], now, taxRate).counters)
            <==> NothingNet(posts)
  {
    hide Sound, Visits, Attempt, PublishedBy, Posts, Expire, Explains;
    var cs, posts := others[n].atLoad.counters, Posts(others, call, visits, n, now, taxRate);
    var last, cs' := PublishedBy(cs, call, visits[n], now, taxRate),
        Attempt(cs, call, visits[n], now, taxRate).counters;
    PublishedExplained(cs, call, visits[n], now, taxRate);
    forall id ensures Posted(posts + last, id) == Posted(posts, id) + Posted(last, id) {
      PostedConcat(posts, last, id);
    }
    assert forall id :: Stored(cs', id) == Stored(cs, id) + Posted(last, id);
    if AddsUp(cs, posts + last, cs') {
      forall id ensures Posted(posts, id) == 0.0 {
        assert Stored(cs', id) == Stored(cs, id) + Posted(posts + last, id);
      }
    }
    if NothingNet(posts) {
      forall id ensures Stored(cs', id) == Stored(cs, id) + Posted(posts + last, id) {
        assert Posted(posts, id) == 0.0;
      }
    }
  }

  // ---- one turn of the loop and the protocol ----

  /** What one turn of the loop promises: it saves exactly if it is not beaten, and otherwise leaves the row
      of whoever beat it. */
  ghost predicate Tried(m: Moment, saved: SaveResult, row: Row, reportsConflict: bool, call: Call, v: Visit, now: Time,
                        taxRate: real)
    requires Sound(m.atLoad.counters) && SoundCall(call, taxRate)
    requires Visits(Expire(m.atLoad.counters, now).kept, call, v)
  {
    && (saved.Saved? <==> !Beaten(m))
    && (!saved.Saved? ==> saved.ErrConflict? == reportsConflict)
    && row == if saved.Saved? then Row(Attempt(m.atLoad.counters, call, v, now, taxRate).counters, now) else m.atSave
  }

  /** One turn of the loop is one step of a worker of the protocol: whatever the turn does to the row, the worker
      that loaded the same row and meets the same row at its save can do, and is then where the loop is. */
  lemma TryIsWorker(s: System, w: nat, m: Moment, v: Visit, cfg: Config, saved: SaveResult, row: Row,
                    reportsConflict: bool)
    requires Inv(s, cfg) && w < |s.workers| && s.row == m.atSave
    requires s.workers[w].phase.Loaded? && s.workers[w].phase.snapshot == m.atLoad
    requires var k := s.workers[w];
             && Visits(Expire(m.atLoad.counters, k.now).kept, k.call, v)
             && Tried(m, saved, row, reportsConflict, k.call, v, k.now, cfg.taxRate)
    ensures var k, step := s.workers[w], if saved.Saved? then Save(w, v) else Mismatch(w, saved.ErrConflict?);
            && Enabled(s, step, cfg)
            && var s' := Do(s, step, cfg);
               && s'.row == row
               && (saved.Saved? ==>
                     s'.workers[w].phase
                         == Committed(Attempt(m.atLoad.counters, k.call, v, k.now, cfg.taxRate).response))
               && (!saved.Saved? ==>
                     s'.workers[w].phase == if reportsConflict && k.phase.tries + 1 < cfg.retryLimit
                                            then Ready(k.phase.tries + 1) else Failed)
  {}
}
