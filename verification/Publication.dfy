/** What a call publishes, in the order it publishes it: the entries of the operation first, then the
    write-offs of the expiry before it, then those of the expiry after it. */
module Publication {
  import opened Basics
  import opened Charging
  import opened Ledger
  import opened QuotaOps
  import opened Journal
  import opened Debiting
  import opened Expiry
  import opened Attempts

  /** The operation of an attempt, between its two expiries. */
  ghost function OperationOf(cs: seq<CounterState>, call: Call, v: Visit, now: Time, taxRate: real): Outcome
    requires Sound(cs) && SoundCall(call, taxRate) && Visits(Expire(cs, now).kept, call, v)
  {
    ExpirySound(cs, now);
    Operate(Expire(cs, now).kept, call, v, now, taxRate)
  }

  /** What an attempt that is saved posts: the operation's entries, then the write-offs of both expiries. */
  ghost function PublishedBy(cs: seq<CounterState>, call: Call, v: Visit, now: Time, taxRate: real): seq<Entry>
    requires Sound(cs) && SoundCall(call, taxRate) && Visits(Expire(cs, now).kept, call, v)
  {
    var o := OperationOf(cs, call, v, now, taxRate);
    o.journal + ExpiryEntries(Expire(cs, now).written) + ExpiryEntries(Expire(o.counters, now).written)
  }

  /** Published one part after the other. */
  lemma PublishedParts(cs: seq<CounterState>, call: Call, v: Visit, now: Time, taxRate: real, start: seq<Entry>)
    requires Sound(cs) && SoundCall(call, taxRate) && Visits(Expire(cs, now).kept, call, v)
    ensures var o := OperationOf(cs, call, v, now, taxRate);
            start + PublishedBy(cs, call, v, now, taxRate)
            == start + o.journal + ExpiryEntries(Expire(cs, now).written)
                + ExpiryEntries(Expire(o.counters, now).written)
  {
    hide OperationOf, Expire, Visits;
    var o := OperationOf(cs, call, v, now, taxRate);
    var before, after := ExpiryEntries(Expire(cs, now).written), ExpiryEntries(Expire(o.counters, now).written);
    ConcatAssociates(start, o.journal + before, after);
    ConcatAssociates(start, o.journal, before);
  }

  /** They are the entries of the attempt, up to order. */
  lemma PublishedEntries(cs: seq<CounterState>, call: Call, v: Visit, now: Time, taxRate: real)
    requires Sound(cs) && SoundCall(call, taxRate) && Visits(Expire(cs, now).kept, call, v)
    ensures multiset(PublishedBy(cs, call, v, now, taxRate)) == multiset(Attempt(cs, call, v, now, taxRate).journal)
  {
  }

  // ---- whose entries they are ----

  lemma {:induction false} UnitsPost(cs: seq<CounterState>, order: seq<nat>, id: Uuid, used: int, reclaim: bool)
    requires Reserved(cs, order, id)
    ensures forall e :: e in DebitUnitsAlong(cs, order, id, used, reclaim).journal ==> HeldBy(cs, id, e.counter)
    decreases |order|
  {
    if order != [] {
      var d := DebitUnits(cs[order[0]], id, used, reclaim);
      var cs1 := cs[order[0] := d.counter];
      UnitsPost(cs1, order[1..], id, d.left, reclaim);
      HeldBefore(cs, order[0], d.counter, id);
      assert HeldBy(cs, id, d.entry.counter);
    }
  }

  lemma {:induction false} ValueKnown(cs: seq<CounterState>, order: seq<nat>, id: Uuid, due: real, reclaim: bool)
    requires Reserved(cs, order, id)
    ensures forall e :: e in DebitValueAlong(cs, order, id, due, reclaim).journal ==>
              exists k :: 0 <= k < |order| && e.counter == cs[order[k]].id
    decreases |order|
  {
    if order != [] {
      var d := DebitValue(cs[order[0]], id, due, reclaim);
      var cs1 := cs[order[0] := d.counter];
      ValueKnown(cs1, order[1..], id, d.left, reclaim);
      forall e | e in DebitValueAlong(cs1, order[1..], id, d.left, reclaim).journal
        ensures exists k :: 0 <= k < |order| && e.counter == cs[order[k]].id
      {
        var k :| 0 <= k < |order[1..]| && e.counter == cs1[order[1..][k]].id;
        assert order[k + 1] == order[1..][k];
      }
    }
  }

  /** A counter of this id holds a reservation. */
  predicate HeldBy(cs: seq<CounterState>, id: Uuid, counter: Uuid) {
    exists i :: 0 <= i < |cs| && cs[i].id == counter && id in cs[i].reservations
  }

  lemma HeldBefore(cs: seq<CounterState>, p: nat, c: CounterState, id: Uuid)
    requires p < |cs| && c.id == cs[p].id && id in cs[p].reservations
    ensures forall x :: HeldBy(cs[p := c], id, x) ==> HeldBy(cs, id, x)
  {
    forall x | HeldBy(cs[p := c], id, x) ensures HeldBy(cs, id, x) {
      var i :| 0 <= i < |cs| && cs[p := c][i].id == x && id in cs[p := c][i].reservations;
      assert cs[i].id == x && id in cs[i].reservations;
    }
  }

  lemma {:induction false} ClawbackPosts(cs: seq<CounterState>, order: seq<nat>, remaining: real)
    requires Repayable(cs, order)
    ensures forall e :: e in ClawbackAlong(cs, order, remaining).journal ==> e.counter == cs[|cs| - 1].id
    decreases |order|
  {
    if order != [] && remaining > 0.0 {
      var t := ClawbackAt(cs, order[0], remaining);
      ClawbackPosts(t.counters, order[1..], t.remaining);
    }
  }

  /** An operation posts for counters that hold the reservation it debits, or for the counter it provisions. */
  lemma OperationPosts(cs: seq<CounterState>, call: Call, v: Visit, now: Time, taxRate: real)
    requires Sound(cs) && SoundCall(call, taxRate) && Visits(cs, call, v)
    ensures forall e :: e in Operate(cs, call, v, now, taxRate).journal ==>
              || (call.Debit? && HeldBy(cs, call.id, e.counter))
              || (call.Provision? && e.counter == call.req.counterId && !Known(cs, e.counter))
  {
    hide Sound, ReserveOp;
    match call
    case Debit(id, used, unitType, reclaim) => DebitPosts(cs, v, id, used, unitType, reclaim);
    case Provision(req) => ProvisionPosts(cs, req);
    case _ =>
  }

  lemma DebitPosts(cs: seq<CounterState>, v: Visit, id: Uuid, used: int, unitType: UnitType, reclaim: bool)
    requires Sound(cs) && DebitVisit(cs, v, id, unitType)
    ensures CanDebit(cs, v, id, unitType)
    ensures forall e :: e in DebitOp(cs, v, id, used, unitType, reclaim).journal ==> HeldBy(cs, id, e.counter)
  {
    hide Sound, DebitUnitsAlong, DebitValueAlong;
    DebitDefined(cs, v, id, unitType);
    var s := ServicePart(cs, v, id, used, unitType, reclaim);
    if unitType != MONETARY { UnitsPost(cs, v.service, id, used, reclaim); }
    if s.left > 0 && v.monetary != [] {
      var terms := cs[v.monetary[0]].reservations[id].terms;
      MoneyPosts(cs, s.counters, v.monetary, id, RemainingValue(terms, s.left), reclaim);
    }
  }

  lemma MoneyPosts(cs: seq<CounterState>, cs': seq<CounterState>, order: seq<nat>, id: Uuid, due: real, reclaim: bool)
    requires |cs'| == |cs| && Reserved(cs', order, id) && forall k :: 0 <= k < |order| ==> cs'[order[k]] == cs[order[k]]
    ensures forall e :: e in DebitValueAlong(cs', order, id, due, reclaim).journal ==> HeldBy(cs, id, e.counter)
  {
    ValueKnown(cs', order, id, due, reclaim);
    forall e | e in DebitValueAlong(cs', order, id, due, reclaim).journal ensures HeldBy(cs, id, e.counter) {
      var k :| 0 <= k < |order| && e.counter == cs'[order[k]].id;
      assert id in cs[order[k]].reservations;
    }
  }

  lemma ProvisionPosts(cs: seq<CounterState>, req: ProvisionRequest)
    ensures forall e :: e in ProvisionOp(cs, req).1 ==> e.counter == req.counterId && !Known(cs, req.counterId)
  {
    if !Known(cs, req.counterId) && req.canRepayLoan && req.loan.None? {
      var cs1 := cs + [NewCounter(req)];
      LoansRepayable(cs1);
      ClawbackPosts(cs1, LoanPositions(cs1, 0), req.initialBalance);
    }
  }

  // ---- who is written off ----

  /** Expired with a balance, nothing live reserved and nothing owed: written off and dropped. */
  predicate WrittenOffWhole(c: CounterState, now: Time) {
    Lapsed(c, now) && c.balance != 0.0 && !InDebt(c)
  }

  /** What expiry keeps and writes off comes from one counter each. */
  lemma {:induction false} ExpiredFrom(cs: seq<CounterState>, now: Time)
    ensures forall c :: c in Expire(cs, now).kept ==>
              exists i :: 0 <= i < |cs| && c in ExpireCounter(cs[i], now).kept && cs[i].id == c.id
    ensures forall w :: w in Expire(cs, now).written ==>
              exists i :: 0 <= i < |cs| && w in ExpireCounter(cs[i], now).written && cs[i].id == w.counter.id
  {
    if cs != [] {
      ExpiredFrom(cs[1..], now);
      forall c | c in Expire(cs, now).kept
        ensures exists i :: 0 <= i < |cs| && c in ExpireCounter(cs[i], now).kept && cs[i].id == c.id
      {
        if c !in ExpireCounter(cs[0], now).kept {
          var i :| 0 <= i < |cs[1..]| && c in ExpireCounter(cs[1..][i], now).kept && cs[1..][i].id == c.id;
          assert cs[i + 1] == cs[1..][i];
        }
      }
      forall w | w in Expire(cs, now).written
        ensures exists i :: 0 <= i < |cs| && w in ExpireCounter(cs[i], now).written && cs[i].id == w.counter.id
      {
        if w !in ExpireCounter(cs[0], now).written {
          var i :| 0 <= i < |cs[1..]| && w in ExpireCounter(cs[1..][i], now).written && cs[1..][i].id == w.counter.id;
          assert cs[i + 1] == cs[1..][i];
        }
      }
    }
  }

  lemma {:induction false} ExpiredTo(cs: seq<CounterState>, i: nat, now: Time)
    requires i < |cs|
    ensures forall w :: w in ExpireCounter(cs[i], now).written ==> w in Expire(cs, now).written
    ensures forall c :: c in ExpireCounter(cs[i], now).kept ==> c in Expire(cs, now).kept
  {
    if i > 0 { ExpiredTo(cs[1..], i - 1, now); }
  }

  lemma ExpiredWhole(c: CounterState, now: Time)
    ensures var e := ExpireCounter(c, now);
            && (WrittenOffWhole(c, now) <==> e.written != [] && e.kept == [])
            && (e.written != [] ==> forall k :: k in e.kept ==> k.reservations == map[])
            && (forall k :: k in e.kept ==> k.id == c.id)
  {
    var p := Pruned(c, now);
    assert p.reservations == map[] <==> forall k :: k in c.reservations ==> c.reservations[k].terms.expiry <= now by {
      if k :| k in c.reservations && c.reservations[k].terms.expiry > now { assert k in p.reservations; }
      if p.reservations != map[] { var k :| k in p.reservations; }
    }
  }

  /** The call provisions the very counter that the expiry before it writes off and drops. */
  predicate Reopens(cs: seq<CounterState>, call: Call, now: Time) {
    call.Provision? && exists i :: 0 <= i < |cs| && cs[i].id == call.req.counterId && WrittenOffWhole(cs[i], now)
  }

  /** Otherwise the operation posts for no counter that the expiry before it writes off. */
  lemma PostsApart(cs: seq<CounterState>, call: Call, v: Visit, now: Time, taxRate: real, e: Entry, w: WriteOff)
    requires Sound(cs) && SoundCall(call, taxRate) && Visits(Expire(cs, now).kept, call, v) && !Reopens(cs, call, now)
    requires e in OperationOf(cs, call, v, now, taxRate).journal && w in Expire(cs, now).written
    ensures e.counter != w.counter.id
  {
    hide Operate, Visits, Expire, ExpireCounter, WrittenOffWhole, HeldBy;
    var kept := Expire(cs, now).kept;
    ExpirySound(cs, now);
    OperationPosts(kept, call, v, now, taxRate);
    if call.Debit? {
      WrittenOffNotHeld(cs, call.id, now, e.counter, w);
    } else {
      WrittenOffKnown(cs, now, w);
    }
  }

  lemma WrittenOffNotHeld(cs: seq<CounterState>, id: Uuid, now: Time, counter: Uuid, w: WriteOff)
    requires DistinctIds(cs) && HeldBy(Expire(cs, now).kept, id, counter) && w in Expire(cs, now).written
    ensures counter != w.counter.id
  {
    hide Expire, ExpireCounter, WrittenOffWhole;
    var kept := Expire(cs, now).kept;
    ExpiredFrom(cs, now);
    var b :| 0 <= b < |cs| && w in ExpireCounter(cs[b], now).written && cs[b].id == w.counter.id;
    ExpiredWhole(cs[b], now);
    var i :| 0 <= i < |kept| && kept[i].id == counter && id in kept[i].reservations;
    var a :| 0 <= a < |cs| && kept[i] in ExpireCounter(cs[a], now).kept && cs[a].id == kept[i].id;
  }

  /** A counter written off is kept, or was written off whole. */
  lemma WrittenOffKnown(cs: seq<CounterState>, now: Time, w: WriteOff)
    requires w in Expire(cs, now).written
    ensures Known(Expire(cs, now).kept, w.counter.id)
            || exists i :: 0 <= i < |cs| && cs[i].id == w.counter.id && WrittenOffWhole(cs[i], now)
  {
    hide Expire, ExpireCounter, WrittenOffWhole;
    ExpiredFrom(cs, now);
    var b :| 0 <= b < |cs| && w in ExpireCounter(cs[b], now).written && cs[b].id == w.counter.id;
    ExpiredWhole(cs[b], now);
    ExpiredTo(cs, b, now);
    if ExpireCounter(cs[b], now).kept != [] {
      IsKnown(Expire(cs, now).kept, ExpireCounter(cs[b], now).kept[0]);
    }
  }

  lemma IsKnown(cs: seq<CounterState>, c: CounterState)
    requires c in cs
    ensures Known(cs, c.id)
  {
    var i :| 0 <= i < |cs| && cs[i] == c;
  }

  // ---- the running balance in the order of publication ----

  lemma {:induction false} PostedNone(j: seq<Entry>, id: Uuid)
    requires forall e :: e in j ==> e.counter != id
    ensures Posted(j, id) == 0.0
    decreases |j|
  {
    if j != [] { PostedNone(j[..|j| - 1], id); }
  }

  /** Every entry carries the running balance of its counter. */
  ghost predicate Running(cs: seq<CounterState>, j: seq<Entry>) {
    forall k :: 0 <= k < |j| ==> RunsAt(cs, j, k)
  }

  ghost predicate RunsAt(cs: seq<CounterState>, j: seq<Entry>, k: nat)
    requires k < |j|
  {
    j[k].balance == Stored(cs, j[k].counter) + Posted(j[..k + 1], j[k].counter)
  }

  /** Every balance changes by what is posted for its counter. */
  ghost predicate AddsUp(cs: seq<CounterState>, j: seq<Entry>, cs': seq<CounterState>) {
    forall id :: Stored(cs', id) == Stored(cs, id) + Posted(j, id)
  }

  lemma ExplainsParts(cs: seq<CounterState>, j: seq<Entry>, cs': seq<CounterState>)
    ensures Explains(cs, j, cs') <==> AddsUp(cs, j, cs') && Running(cs, j)
  {
    if Explains(cs, j, cs') {
      forall k | 0 <= k < |j| ensures RunsAt(cs, j, k) {}
    }
    if Running(cs, j) {
      forall k | 0 <= k < |j| ensures j[k].balance == Stored(cs, j[k].counter) + Posted(j[..k + 1], j[k].counter) {
        assert RunsAt(cs, j, k);
      }
    }
  }

  /** What one list of entries adds up to, a second one runs on from. */
  lemma RunningConcat(cs: seq<CounterState>, j1: seq<Entry>, cs1: seq<CounterState>, j2: seq<Entry>)
    requires AddsUp(cs, j1, cs1)
    ensures Running(cs, j1 + j2) <==> Running(cs, j1) && Running(cs1, j2)
  {
    var j := j1 + j2;
    forall k | 0 <= k < |j1| ensures RunsAt(cs, j, k) <==> RunsAt(cs, j1, k) { assert j[..k + 1] == j1[..k + 1]; }
    forall k | 0 <= k < |j2| ensures RunsAt(cs, j, |j1| + k) <==> RunsAt(cs1, j2, k) {
      assert j[..|j1| + k + 1] == j1 + j2[..k + 1];
      PostedConcat(j1, j2[..k + 1], j2[k].counter);
    }
    if Running(cs, j1) && Running(cs1, j2) {
      forall k | 0 <= k < |j| ensures RunsAt(cs, j, k) {
        if k < |j1| { assert RunsAt(cs, j1, k); } else { assert RunsAt(cs1, j2, k - |j1|); }
      }
    }
    if Running(cs, j) {
      forall k | 0 <= k < |j1| ensures RunsAt(cs, j1, k) { assert RunsAt(cs, j, k); }
      forall k | 0 <= k < |j2| ensures RunsAt(cs1, j2, k) { assert RunsAt(cs, j, |j1| + k); }
    }
  }

  /** Two lists that post for different counters may trade places. */
  lemma RunningSwapped(cs: seq<CounterState>, j1: seq<Entry>, j2: seq<Entry>)
    requires Running(cs, j1 + j2) && forall a, b :: a in j1 && b in j2 ==> a.counter != b.counter
    ensures Running(cs, j2 + j1)
  {
    var j, j' := j1 + j2, j2 + j1;
    forall k | 0 <= k < |j'| ensures RunsAt(cs, j', k) {
      if k < |j2| {
        assert RunsAt(cs, j, |j1| + k) && j[..|j1| + k + 1] == j1 + j2[..k + 1] && j'[..k + 1] == j2[..k + 1];
        PostedConcat(j1, j2[..k + 1], j2[k].counter);
        PostedNone(j1, j2[k].counter);
      } else {
        var m := k - |j2|;
        assert RunsAt(cs, j, m) && j[..m + 1] == j1[..m + 1] && j'[..k + 1] == j2 + j1[..m + 1];
        PostedConcat(j2, j1[..m + 1], j1[m].counter);
        PostedNone(j2, j1[m].counter);
      }
    }
  }

  lemma PartsAddUp(cs: seq<CounterState>, j1: seq<Entry>, cs1: seq<CounterState>, j2: seq<Entry>,
                   cs2: seq<CounterState>)
    requires AddsUp(cs, j1, cs1) && AddsUp(cs1, j2, cs2)
    ensures AddsUp(cs, j1 + j2, cs2) && AddsUp(cs, j2 + j1, cs2)
  {
    forall id ensures Posted(j1 + j2, id) == Posted(j1, id) + Posted(j2, id) == Posted(j2 + j1, id) {
      PostedConcat(j1, j2, id);
      PostedConcat(j2, j1, id);
    }
  }

  /** The three parts of an attempt's entries, in the order in which they take effect. */
  lemma PartsExplained(cs: seq<CounterState>, call: Call, v: Visit, now: Time, taxRate: real)
    requires Sound(cs) && SoundCall(call, taxRate) && Visits(Expire(cs, now).kept, call, v)
    requires UsageReasons(cs) && SoundReason(call)
    ensures var o, e := OperationOf(cs, call, v, now, taxRate), Expire(cs, now);
            && Explains(cs, ExpiryEntries(e.written), e.kept) && Explains(e.kept, o.journal, o.counters)
            && Explains(o.counters, ExpiryEntries(Expire(o.counters, now).written),
                        Attempt(cs, call, v, now, taxRate).counters)
  {
    hide Operate, Visits, Expire, Explains;
    ExpirySound(cs, now);
    UsageExpired(cs, now);
    var kept := Expire(cs, now).kept;
    OperateSound(kept, call, v, now, taxRate);
    OperateExplained(kept, call, v, now, taxRate);
    ExpirySound(Operate(kept, call, v, now, taxRate).counters, now);
  }

  /** What an attempt publishes always adds up to what it changes. Each entry carries the running balance of
      its counter, in the order of publication, exactly when the call does not reopen a counter: then the new
      counter's opening is published before the old one's write-off. */
  lemma {:induction false} PublishedExplained(cs: seq<CounterState>, call: Call, v: Visit, now: Time, taxRate: real)
    requires Sound(cs) && SoundCall(call, taxRate) && Visits(Expire(cs, now).kept, call, v)
    requires UsageReasons(cs) && SoundReason(call)
    ensures var j, cs' := PublishedBy(cs, call, v, now, taxRate), Attempt(cs, call, v, now, taxRate).counters;
            AddsUp(cs, j, cs') && (Explains(cs, j, cs') <==> !Reopens(cs, call, now))
  {
    hide Operate, Attempt, Visits, Expire, Explains, Running, Reopens;
    PartsExplained(cs, call, v, now, taxRate);
    var o, e, cs' := OperationOf(cs, call, v, now, taxRate), Expire(cs, now),
        Attempt(cs, call, v, now, taxRate).counters;
    var before, after := ExpiryEntries(e.written), ExpiryEntries(Expire(o.counters, now).written);
    ExplainsParts(cs, before, e.kept);
    ExplainsParts(e.kept, o.journal, o.counters);
    ExplainsParts(o.counters, after, cs');
    PartsAddUp(cs, before, e.kept, o.journal, o.counters);
    PartsAddUp(cs, o.journal + before, o.counters, after, cs');
    RunningConcat(cs, before, e.kept, o.journal);
    RunningConcat(cs, o.journal + before, o.counters, after);
    ExplainsParts(cs, o.journal + before + after, cs');
    if Reopens(cs, call, now) {
      OpensEarly(cs, call, v, now, taxRate, before + after);
      assert o.journal + before + after == o.journal + (before + after);
    } else {
      forall a, b | a in before && b in o.journal ensures a.counter != b.counter {
        var i :| 0 <= i < |before| && before[i] == a;
        PostsApart(cs, call, v, now, taxRate, b, e.written[i]);
      }
      RunningSwapped(cs, before, o.journal);
    }
  }

  /** The entry that reopens a counter carries the new balance while the old one still stands. */
  lemma OpensEarly(cs: seq<CounterState>, call: Call, v: Visit, now: Time, taxRate: real, later: seq<Entry>)
    requires Sound(cs) && SoundCall(call, taxRate) && Visits(Expire(cs, now).kept, call, v)
    requires SoundReason(call) && Reopens(cs, call, now)
    ensures !Running(cs, OperationOf(cs, call, v, now, taxRate).journal + later)
  {
    hide Expire, ExpireCounter, WrittenOffWhole, OperationOf, Visits, Posted, Stored;
    var req := call.req;
    var i :| 0 <= i < |cs| && cs[i].id == req.counterId && WrittenOffWhole(cs[i], now);
    NotKept(cs, i, now);
    var j := OperationOf(cs, call, v, now, taxRate).journal;
    var opening := Entry(req.counterId, req.reason, req.initialBalance, req.initialBalance);
    OpeningFirst(cs, call, v, now, taxRate);
    assert (j + later)[..1] == [opening] && (j + later)[0] == opening;
    PostedOne(opening, req.counterId);
    StoredAt(cs, i);
    BalanceLeft(cs[i], now);
    assert !RunsAt(cs, j + later, 0);
  }

  lemma NotKept(cs: seq<CounterState>, i: nat, now: Time)
    requires DistinctIds(cs) && i < |cs| && WrittenOffWhole(cs[i], now)
    ensures !Known(Expire(cs, now).kept, cs[i].id)
  {
    hide Expire, ExpireCounter, WrittenOffWhole;
    ExpiredWhole(cs[i], now);
    ExpiredFrom(cs, now);
  }

  lemma OpeningFirst(cs: seq<CounterState>, call: Call, v: Visit, now: Time, taxRate: real)
    requires Sound(cs) && SoundCall(call, taxRate) && Visits(Expire(cs, now).kept, call, v)
    requires call.Provision? && !Known(Expire(cs, now).kept, call.req.counterId)
    ensures var j, req := OperationOf(cs, call, v, now, taxRate).journal, call.req;
            j != [] && j[0] == Entry(req.counterId, req.reason, req.initialBalance, req.initialBalance)
  {
    hide Expire;
  }

  lemma BalanceLeft(c: CounterState, now: Time)
    requires WrittenOffWhole(c, now)
    ensures c.balance != 0.0
  {}

  /** A counter of 5 units that has expired, and a call that provisions the same counter with 10. */
  function SpentCounter(): CounterState {
    CounterState(1, UNITS, 0, 5.0, Some(1), map[], false, [], None)
  }

  function Reprovision(): Call {
    Provision(ProvisionRequest(1, UNITS, 0, 10.0, None, false, false, [], QUOTA_PROVISIONED, None))
  }

  /** The last balance published is 0 while 10 is stored. */
  lemma ReopenedOutOfOrder(v: Visit, taxRate: real)
    ensures var cs, call := [SpentCounter()], Reprovision();
            && Sound(cs) && UsageReasons(cs) && SoundCall(call, taxRate) && SoundReason(call)
            && Visits(Expire(cs, 1).kept, call, v) && Reopens(cs, call, 1)
            && PublishedBy(cs, call, v, 1, taxRate)
                == [Entry(1, QUOTA_PROVISIONED, 10.0, 10.0), Entry(1, QUOTA_EXPIRY, 5.0, 0.0)]
            && Attempt(cs, call, v, 1, taxRate).counters == [NewCounter(call.req)]
            && !Explains(cs, PublishedBy(cs, call, v, 1, taxRate), [NewCounter(call.req)])
  {
    var c, cs, call := SpentCounter(), [SpentCounter()], Reprovision();
    assert IntPart(5.0) == 5 && Pruned(c, 1) == c;
    ExpireSingle(c, 1);
    assert WrittenOffWhole(cs[0], 1);
    var reopened := NewCounter(call.req);
    assert Pruned(reopened, 1) == reopened;
    ExpireSingle(reopened, 1);
    assert OperationOf(cs, call, v, 1, taxRate).counters == [reopened];
    PublishedExplained(cs, call, v, 1, taxRate);
  }
}
