/** When a counter is written off, dropped or kept, told from its expiry, balance, reservations and loan alone; and
    what a call leaves behind. */
module ExpiryCases {
  import opened Basics
  import opened Charging
  import opened Ledger
  import opened QuotaOps
  import opened Expiry
  import opened Reserving
  import opened Debiting
  import opened Attempts
  import opened Grants
  import opened Publication

  /** Past its expiry with nothing reserved or owed, or not past it with nothing on it and no loan to pay. */
  predicate Dropped(c: CounterState, now: Time) {
    || (Lapsed(c, now) && !InDebt(c))
    || (&& (c.expiry.Some? ==> c.expiry.value > now)
        && c.balance == 0.0 && (c.loan.Some? ==> c.loan.value.loanBalance == 0.0))
  }

  /** The counter without the reservations that have run out, and without its balance once it has lapsed. */
  ghost predicate KeptAs(c: CounterState, kept: CounterState, now: Time) {
    && kept == c.(balance := kept.balance, reservations := kept.reservations)
    && kept.balance == (if Lapsed(c, now) then 0.0 else c.balance)
    && (forall k :: k in kept.reservations <==> k in c.reservations && c.reservations[k].terms.expiry > now)
    && forall k :: k in kept.reservations ==> kept.reservations[k] == c.reservations[k]
  }

  /** The whole balance of a counter that has lapsed, unless there is none. */
  predicate WrittenAs(c: CounterState, w: WriteOff, now: Time) {
    && Lapsed(c, now) && w.balanceAtExpiry == c.balance != 0.0
    && w.counter == c.(balance := 0.0, reservations := map[])
  }

  lemma PrunedUse(c: CounterState, now: Time)
    ensures Pruned(c, now).reservations == map[] <==> !InUse(c, now)
  {
    var p := Pruned(c, now);
    if InUse(c, now) {
      var k :| k in c.reservations && c.reservations[k].terms.expiry > now;
      assert k in p.reservations;
    }
    if p.reservations != map[] {
      var k :| k in p.reservations;
      assert k in c.reservations && c.reservations[k].terms.expiry > now;
    }
  }

  lemma OneExpires(c: CounterState, now: Time)
    ensures var e := ExpireCounter(c, now);
            && (e.kept == [] <==> Dropped(c, now)) && |e.kept| <= 1
            && (forall kept :: kept in e.kept <==> !Dropped(c, now) && KeptAs(c, kept, now))
            && (forall w :: w in e.written <==> WrittenAs(c, w, now))
  {
    PrunedUse(c, now);
    var p := Pruned(c, now);
    forall kept | KeptAs(c, kept, now) ensures kept.reservations == p.reservations {}
  }

  /** A balance is written off exactly if its counter is past its expiry, nothing on it is reserved beyond the instant,
      and it is not zero; then all of it is, and the counter holds nothing. */
  lemma {:induction false} WrittenOffExactly(cs: seq<CounterState>, now: Time, w: WriteOff)
    ensures w in Expire(cs, now).written <==> exists i: nat :: i < |cs| && WrittenAs(cs[i], w, now)
  {
    hide WrittenAs;
    if cs != [] {
      OneExpires(cs[0], now);
      WrittenOffExactly(cs[1..], now, w);
      if i: nat :| i < |cs[1..]| && WrittenAs(cs[1..][i], w, now) { assert WrittenAs(cs[i + 1], w, now); }
      if i: nat :| 0 < i < |cs| && WrittenAs(cs[i], w, now) { assert cs[1..][i - 1] == cs[i]; }
    }
  }

  /** Exactly the counters that are not dropped are kept, as they are but for what has run out. */
  lemma {:induction false} KeptExactly(cs: seq<CounterState>, now: Time, kept: CounterState)
    ensures kept in Expire(cs, now).kept
            <==> exists i: nat :: i < |cs| && !Dropped(cs[i], now) && KeptAs(cs[i], kept, now)
  {
    hide Dropped, KeptAs;
    if cs != [] {
      OneExpires(cs[0], now);
      KeptExactly(cs[1..], now, kept);
      if i: nat :| i < |cs[1..]| && !Dropped(cs[1..][i], now) && KeptAs(cs[1..][i], kept, now) {
        assert cs[i + 1] == cs[1..][i];
      }
      if i: nat :| 0 < i < |cs| && !Dropped(cs[i], now) && KeptAs(cs[i], kept, now) { assert cs[1..][i - 1] == cs[i]; }
    }
  }

  /** A counter is gone exactly if it is to be dropped. */
  lemma DroppedExactly(cs: seq<CounterState>, now: Time, i: nat)
    requires DistinctIds(cs) && i < |cs|
    ensures Known(Expire(cs, now).kept, cs[i].id) <==> !Dropped(cs[i], now)
  {
    hide Dropped, ExpireCounter, Expire;
    var kept := Expire(cs, now).kept;
    OneExpires(cs[i], now);
    ExpiredTo(cs, i, now);
    if !Dropped(cs[i], now) {
      var c := ExpireCounter(cs[i], now).kept[0];
      assert c in kept;
      var k :| 0 <= k < |kept| && kept[k] == c;
    }
    if k :| 0 <= k < |kept| && kept[k].id == cs[i].id {
      KeptExactly(cs, now, kept[k]);
      assert kept[k] in kept;
      var j: nat :| j < |cs| && !Dropped(cs[j], now) && KeptAs(cs[j], kept[k], now);
    }
  }

  // ---- what a call leaves behind ----

  /** Nothing that has run out: no reservation, no balance of a lapsed counter, and no counter to be dropped. */
  predicate Current(c: CounterState, now: Time) {
    && (forall k :: k in c.reservations ==> c.reservations[k].terms.expiry > now)
    && (Lapsed(c, now) ==> c.balance == 0.0 && InDebt(c))
    && !Dropped(c, now)
  }

  /** Whatever a call does, what it stores holds nothing that has run out. */
  lemma AttemptLeavesCurrent(cs: seq<CounterState>, call: Call, v: Visit, now: Time, taxRate: real)
    requires Sound(cs) && SoundCall(call, taxRate) && Visits(Expire(cs, now).kept, call, v)
    ensures forall c :: c in Attempt(cs, call, v, now, taxRate).counters ==> Current(c, now)
  {
    hide Expire, Operate, Visits, Dropped, KeptAs;
    var before := OperationOf(cs, call, v, now, taxRate).counters;
    ExpirySound(cs, now);
    OperateSound(Expire(cs, now).kept, call, v, now, taxRate);
    forall c | c in Expire(before, now).kept ensures Current(c, now) {
      KeptExactly(before, now, c);
      var i: nat :| i < |before| && !Dropped(before[i], now) && KeptAs(before[i], c, now);
      assert Solvent(before[i]);
      KeptIsCurrent(before[i], c, now);
    }
  }

  lemma KeptIsCurrent(c: CounterState, kept: CounterState, now: Time)
    requires Solvent(c) && !Dropped(c, now) && KeptAs(c, kept, now)
    ensures Current(kept, now)
  {
    if InUse(c, now) {
      var k :| k in c.reservations && c.reservations[k].terms.expiry > now;
      assert k in kept.reservations;
    }
  }

  /** Reservations that have run out cannot be debited: all the usage stays unaccounted for. */
  lemma RunOutNotDebited(cs: seq<CounterState>, c: Commit, taxRate: real)
    requires Sound(cs) && Possible(cs, c, taxRate) && c.call.Debit?
    requires forall s :: s in Slots(cs, c.call.id) ==> s.reservation.terms.expiry <= c.now
    ensures Attempt(cs, c.call, c.visit, c.now, taxRate).response == Debited(DebitResponse(0, 0.0, 0, c.call.used))
  {
    hide Slots, DebitUnitsAlong, DebitValueAlong;
    var kept, id := Expire(cs, c.now).kept, c.call.id;
    ExpirySound(cs, c.now);
    ExpireSlots(cs, c.now, id);
    NoneLive(Slots(cs, id), c.now);
    FreshIsEmpty(kept, id);
    DebitDefined(kept, c.visit, id, c.call.unitType);
    NoneHolds(kept, c.visit.service, id, c.call.unitType);
    NoneHolds(kept, c.visit.monetary, id, MONETARY);
    NothingTaken(kept, id, c.call.used, c.call.reclaim);
  }

  lemma NoneHolds(cs: seq<CounterState>, order: seq<nat>, id: Uuid, t: UnitType)
    requires Fresh(cs, id) && Picks(cs, order, HoldingFor(id, t))
    ensures order == []
  {
    assert forall i :: 0 <= i < |cs| ==> !HoldingFor(id, t)(cs[i]);
    FirstIsIn(order);
  }

  lemma FirstIsIn(order: seq<nat>)
    ensures order != [] ==> order[0] in order
  {}

  lemma NothingTaken(cs: seq<CounterState>, id: Uuid, used: int, reclaim: bool)
    ensures DebitUnitsAlong(cs, [], id, used, reclaim) == ServiceDebit(cs, used, [])
  {}

  lemma {:induction false} NoneLive(slots: seq<Slot>, now: Time)
    requires forall s :: s in slots ==> s.reservation.terms.expiry <= now
    ensures Live(slots, now) == []
  {
    if slots != [] { NoneLive(slots[1..], now); }
  }
}
