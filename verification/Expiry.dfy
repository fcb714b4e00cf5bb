/** RemoveExpiredEntries: what it keeps, what it writes off, and that it does not matter
    how often it has run before. */
module Expiry {
  import opened Basics
  import opened Ledger
  import opened QuotaOps
  import opened Solvency
  import opened Journal

  /** A reservation that has not run out. */
  predicate InUse(c: CounterState, now: Time) {
    exists k :: k in c.reservations && c.reservations[k].terms.expiry > now
  }

  /** Past its own expiry, and nothing reserved on it any more. */
  predicate Lapsed(c: CounterState, now: Time) {
    c.expiry.Some? && c.expiry.value <= now && !InUse(c, now)
  }

  predicate InDebt(c: CounterState) {
    c.loan.Some? && c.loan.value.loanBalance > 0.0
  }

  lemma {:induction false} EachConcat(step: CounterState -> Expired, a: seq<CounterState>, b: seq<CounterState>)
    ensures Each(step, a + b).kept == Each(step, a).kept + Each(step, b).kept
    ensures Each(step, a + b).written == Each(step, a).written + Each(step, b).written
  {
    if a == [] {
      assert a + b == b;
    } else {
      EachConcat(step, a[1..], b);
      assert (a + b)[0] == a[0] && (a + b)[1..] == a[1..] + b;
      var e, r, s := step(a[0]), Each(step, a[1..]), Each(step, b);
      ConcatAssociates(e.kept, r.kept, s.kept);
      ConcatAssociates(e.written, r.written, s.written);
    }
  }

  lemma PrunedTwice(c: CounterState, t1: Time, t2: Time)
    requires t1 <= t2
    ensures Pruned(Pruned(c, t1), t2) == Pruned(c, t2)
  {}

  /** A solvent counter with nothing on its balance has nothing reserved. */
  lemma EmptyHoldsNothing(c: CounterState)
    requires Solvent(c) && c.balance == 0.0
    ensures c.reservations == map[]
  {
    if c.reservations != map[] {
      var k :| k in c.reservations;
      HeldSplit(c.reservations, k);
      HeldShrinks(c.reservations, c.reservations - {k});
    }
  }

  lemma ExpireSingle(c: CounterState, now: Time)
    ensures Expire([c], now) == ExpireCounter(c, now)
  {
    assert [c][1..] == [];
    assert Each(ExpireAt(now), [c][1..]) == Expired([], []);
    var e := ExpireAt(now)([c][0]);
    assert e.kept + [] == e.kept && e.written + [] == e.written;
  }

  lemma ExpireCounterTwice(c: CounterState, t1: Time, t2: Time)
    requires Solvent(c) && t1 <= t2
    ensures var e := ExpireCounter(c, t1);
            && Expire(e.kept, t2).kept == ExpireCounter(c, t2).kept
            && e.written + Expire(e.kept, t2).written == ExpireCounter(c, t2).written
  {
    var e := ExpireCounter(c, t1);
    PrunedTwice(c, t1, t2);
    if c.balance == 0.0 { EmptyHoldsNothing(c); }
    if e.kept != [] { ExpireSingle(e.kept[0], t2); assert e.kept == [e.kept[0]]; }
  }

  /** Running the expiry at t1 and again at t2 leaves the quota that running it at t2 alone
      leaves, and writes off the same counters for the same amounts. */
  lemma {:induction false} ExpiryScheduleIrrelevant(cs: seq<CounterState>, t1: Time, t2: Time)
    requires Sound(cs) && t1 <= t2
    ensures Expire(Expire(cs, t1).kept, t2).kept == Expire(cs, t2).kept
    ensures multiset(Expire(cs, t1).written) + multiset(Expire(Expire(cs, t1).kept, t2).written)
            == multiset(Expire(cs, t2).written)
  {
    if cs != [] {
      ExpireCounterTwice(cs[0], t1, t2);
      ExpiryScheduleIrrelevant(cs[1..], t1, t2);
      EachConcat(ExpireAt(t2), ExpireCounter(cs[0], t1).kept, Expire(cs[1..], t1).kept);
    }
  }

  /** A second expiry at the same instant changes nothing and writes nothing off. */
  lemma ExpiryIsIdempotent(cs: seq<CounterState>, now: Time)
    requires Sound(cs)
    ensures var e := Expire(cs, now); Expire(e.kept, now) == Expired(e.kept, [])
  {
    ExpiryScheduleIrrelevant(cs, now, now);
    var w := Expire(Expire(cs, now).kept, now).written;
    var before := multiset(Expire(cs, now).written);
    assert |before + multiset(w)| == |before| + |multiset(w)| && |multiset(w)| == |w|;
  }

  /** `cs'` are some of the counters of `cs`, in the same order, perhaps changed. */
  predicate InOrder(cs': seq<CounterState>, cs: seq<CounterState>)
    decreases |cs|
  {
    cs' == [] || (cs != [] && if cs'[0].id == cs[0].id then InOrder(cs'[1..], cs[1..]) else InOrder(cs', cs[1..]))
  }

  function WrittenOff(ws: seq<WriteOff>): real {
    if ws == [] then 0.0 else ws[0].balanceAtExpiry + WrittenOff(ws[1..])
  }

  function Balances(cs: seq<CounterState>): real {
    if cs == [] then 0.0 else cs[0].balance + Balances(cs[1..])
  }

  lemma KeptIsKnown(cs: seq<CounterState>, now: Time)
    ensures forall c :: c in Expire(cs, now).kept ==> Known(cs, c.id)
  {
    if cs != [] {
      KeptIsKnown(cs[1..], now);
      forall c | c in Expire(cs, now).kept ensures Known(cs, c.id) {
        if c !in ExpireCounter(cs[0], now).kept {
          assert Known(cs[1..], c.id);
          var i :| 0 <= i < |cs[1..]| && cs[1..][i].id == c.id;
          assert cs[i + 1].id == c.id;
        } else {
          assert cs[0].id == c.id;
        }
      }
    }
  }

  lemma CounterConserves(c: CounterState, now: Time)
    ensures var e := ExpireCounter(c, now);
            && (e.kept == [] || (|e.kept| == 1 && e.kept[0].id == c.id))
            && c.balance == Balances(e.kept) + WrittenOff(e.written)
  {}

  lemma {:induction false} BalancesConcat(a: seq<CounterState>, b: seq<CounterState>)
    ensures Balances(a + b) == Balances(a) + Balances(b)
  {
    if a == [] {
      assert a + b == b;
    } else {
      BalancesConcat(a[1..], b);
      assert (a + b)[1..] == a[1..] + b;
    }
  }

  lemma {:induction false} WrittenOffConcat(a: seq<WriteOff>, b: seq<WriteOff>)
    ensures WrittenOff(a + b) == WrittenOff(a) + WrittenOff(b)
  {
    if a == [] {
      assert a + b == b;
    } else {
      WrittenOffConcat(a[1..], b);
      assert (a + b)[1..] == a[1..] + b;
    }
  }

  /** Expiry keeps the order of the counters it keeps, and what it writes off is exactly what the balances lose. */
  lemma {:induction false} ExpiryConserves(cs: seq<CounterState>, now: Time)
    requires DistinctIds(cs)
    ensures var e := Expire(cs, now); InOrder(e.kept, cs) && Balances(cs) == Balances(e.kept) + WrittenOff(e.written)
  {
    hide ExpireCounter;
    if cs != [] {
      var e, rest := ExpireCounter(cs[0], now), Expire(cs[1..], now);
      CounterConserves(cs[0], now);
      ExpiryConserves(cs[1..], now);
      BalancesConcat(e.kept, rest.kept);
      WrittenOffConcat(e.written, rest.written);
      InOrderMore(cs, e.kept, rest.kept, now);
    }
  }

  lemma InOrderMore(cs: seq<CounterState>, head: seq<CounterState>, rest: seq<CounterState>, now: Time)
    requires DistinctIds(cs) && cs != [] && rest == Expire(cs[1..], now).kept && InOrder(rest, cs[1..])
    requires head == [] || (|head| == 1 && head[0].id == cs[0].id)
    ensures InOrder(head + rest, cs)
  {
    hide Expire;
    if head == [] {
      KeptIsKnown(cs[1..], now);
      assert head + rest == rest;
      if rest != [] { assert rest[0] in rest; }
    } else {
      assert (head + rest)[1..] == rest;
    }
  }

  // ---- soundness and the journal ----

  /** A counter kept with its balance needs no entry. */
  lemma KeptAccounts(c: CounterState, c': CounterState)
    requires c'.id == c.id && c'.balance == c.balance && Solvent(c')
    ensures AccountsFor(c, Expired([c'], []))
  {
    ExplainsQuiet([c], [c']);
  }

  /** A counter whose balance is gone may be kept or dropped, with an entry if there was a balance. */
  lemma ZeroedAccounts(c: CounterState, zeroed: CounterState, kept: seq<CounterState>)
    requires zeroed.id == c.id && zeroed.balance == 0.0 && (kept == [] || (kept == [zeroed] && Solvent(zeroed)))
    ensures AccountsFor(c, Expired(kept, [WriteOff(zeroed, c.balance)]))
    ensures c.balance == 0.0 ==> AccountsFor(c, Expired(kept, []))
  {
    var w := [WriteOff(zeroed, c.balance)];
    var e := Entry(c.id, QUOTA_EXPIRY, c.balance, 0.0);
    ExplainsEntry([c], 0, zeroed, e);
    assert [c][0 := zeroed] == [zeroed] && ExpiryEntries(w) == [e];
    StoredNothing(zeroed);
    if c.balance == 0.0 { ExplainsQuiet([c], [zeroed]); }
  }

  lemma ExpireCounterSound(c: CounterState, now: Time)
    requires Solvent(c)
    ensures AccountsFor(c, ExpireCounter(c, now))
  {
    hide AccountsFor, SoundReservation;
    var p := Pruned(c, now);
    var zeroed := p.(balance := 0.0);
    PrunedSolvent(c, now);
    KeptAccounts(c, p);
    ZeroedAccounts(c, zeroed, []);
    if p.reservations == map[] { ZeroedAccounts(c, zeroed, [zeroed]); }
  }

  lemma StoredNothing(c: CounterState)
    requires c.balance == 0.0
    ensures forall id :: Stored([c], id) == Stored([], id)
  {
    forall id ensures Stored([c], id) == Stored([], id) {
      SumZero(Weights([c], BalanceIf(id)));
    }
  }

  lemma SumConcat(a: seq<real>, b: seq<real>)
    ensures Sum(a + b) == Sum(a) + Sum(b)
  {
    if a == [] {
      assert a + b == b;
    } else {
      SumConcat(a[1..], b);
      assert (a + b)[1..] == a[1..] + b;
    }
  }

  lemma StoredConcat(a: seq<CounterState>, b: seq<CounterState>, id: Uuid)
    ensures Stored(a + b, id) == Stored(a, id) + Stored(b, id)
  {
    SumConcat(Weights(a, BalanceIf(id)), Weights(b, BalanceIf(id)));
    assert Weights(a + b, BalanceIf(id)) == Weights(a, BalanceIf(id)) + Weights(b, BalanceIf(id));
  }

  lemma {:induction false} StoredElsewhere(cs: seq<CounterState>, id: Uuid)
    requires !Known(cs, id)
    ensures Stored(cs, id) == 0.0
  {
    SumZero(Weights(cs, BalanceIf(id)));
  }

  /** Explanations of changes to disjoint sets of counters can be put side by side. */
  lemma ExplainsBeside(a: seq<CounterState>, ja: seq<Entry>, a': seq<CounterState>,
                       b: seq<CounterState>, jb: seq<Entry>, b': seq<CounterState>)
    requires Explains(a, ja, a') && Explains(b, jb, b')
    requires forall e :: e in ja ==> !Known(b, e.counter)
    requires forall e :: e in jb ==> !Known(a, e.counter) && !Known(a', e.counter)
    ensures Explains(a + b, ja + jb, a' + b')
  {
    forall id ensures Stored(a' + b, id) == Stored(a + b, id) + Posted(ja, id) {
      StoredConcat(a, b, id);
      StoredConcat(a', b, id);
    }
    forall k | 0 <= k < |ja|
      ensures ja[k].balance == Stored(a + b, ja[k].counter) + Posted(ja[..k + 1], ja[k].counter)
    {
      StoredConcat(a, b, ja[k].counter);
      StoredElsewhere(b, ja[k].counter);
    }
    forall id ensures Stored(a' + b', id) == Stored(a' + b, id) + Posted(jb, id) {
      StoredConcat(a', b, id);
      StoredConcat(a', b', id);
    }
    forall k | 0 <= k < |jb|
      ensures jb[k].balance == Stored(a' + b, jb[k].counter) + Posted(jb[..k + 1], jb[k].counter)
    {
      StoredConcat(a', b, jb[k].counter);
      StoredElsewhere(a', jb[k].counter);
    }
    ExplainsTrans(a + b, ja, a' + b, jb, a' + b');
  }

  /** What one counter may become: itself or nothing, with any loss written off under its own id. */
  ghost predicate Accounts(step: CounterState -> Expired) {
    forall c | Solvent(c) :: AccountsFor(c, step(c))
  }

  ghost predicate AccountsFor(c: CounterState, e: Expired) {
    && |e.kept| <= 1 && |e.written| <= 1
    && (forall x :: x in e.kept ==> x.id == c.id && Solvent(x))
    && (forall w :: w in e.written ==> w.counter.id == c.id)
    && Explains([c], ExpiryEntries(e.written), e.kept)
  }

  ghost predicate Keeps(cs: seq<CounterState>, e: Expired) {
    && Sound(e.kept)
    && (forall x :: x in e.kept ==> Known(cs, x.id))
    && (forall w :: w in e.written ==> Known(cs, w.counter.id))
  }

  lemma KnownHead(c: CounterState, rest: seq<CounterState>)
    requires DistinctIds([c] + rest)
    ensures !Known(rest, c.id) && DistinctIds(rest) && Known([c] + rest, c.id)
    ensures forall id :: Known(rest, id) ==> Known([c] + rest, id)
  {
    var cs := [c] + rest;
    assert cs[0].id == c.id;
    assert forall i :: 0 <= i < |rest| ==> cs[i + 1] == rest[i];
  }

  lemma KeepsHead(c: CounterState, e: Expired, rest: seq<CounterState>, r: Expired)
    requires DistinctIds([c] + rest) && AccountsFor(c, e) && Keeps(rest, r)
    ensures Keeps([c] + rest, Expired(e.kept + r.kept, e.written + r.written))
  {
    KnownHead(c, rest);
    assert forall i :: 0 <= i < |e.kept| ==> e.kept[i] in e.kept;
    assert forall i :: 0 <= i < |r.kept| ==> r.kept[i] in r.kept;
  }

  lemma {:induction false} EachKeeps(step: CounterState -> Expired, cs: seq<CounterState>)
    requires Accounts(step) && Sound(cs)
    ensures Keeps(cs, Each(step, cs))
  {
    if cs != [] {
      EachKeeps(step, cs[1..]);
      assert [cs[0]] + cs[1..] == cs;
      KeepsHead(cs[0], step(cs[0]), cs[1..], Each(step, cs[1..]));
    }
  }

  lemma ExplainedHead(c: CounterState, e: Expired, rest: seq<CounterState>, r: Expired)
    requires DistinctIds([c] + rest) && AccountsFor(c, e) && Keeps(rest, r)
    requires Explains(rest, ExpiryEntries(r.written), r.kept)
    ensures Explains([c] + rest, ExpiryEntries(e.written + r.written), e.kept + r.kept)
  {
    hide Solvent, Explains;
    KnownHead(c, rest);
    ExplainsBeside([c], ExpiryEntries(e.written), e.kept, rest, ExpiryEntries(r.written), r.kept);
    assert ExpiryEntries(e.written + r.written) == ExpiryEntries(e.written) + ExpiryEntries(r.written);
  }

  lemma {:induction false} EachExplained(step: CounterState -> Expired, cs: seq<CounterState>)
    requires Accounts(step) && Sound(cs)
    ensures Explains(cs, ExpiryEntries(Each(step, cs).written), Each(step, cs).kept)
  {
    if cs == [] {
      ExplainsQuiet([], []);
      assert ExpiryEntries([]) == [];
    } else {
      EachExplained(step, cs[1..]);
      EachKeeps(step, cs[1..]);
      assert [cs[0]] + cs[1..] == cs;
      ExplainedHead(cs[0], step(cs[0]), cs[1..], Each(step, cs[1..]));
    }
  }

  /** Expiry keeps the quota sound, and its write-offs explain every balance that changed. */
  lemma ExpirySound(cs: seq<CounterState>, now: Time)
    requires Sound(cs)
    ensures Sound(Expire(cs, now).kept)
    ensures Explains(cs, ExpiryEntries(Expire(cs, now).written), Expire(cs, now).kept)
  {
    forall c | Solvent(c) ensures AccountsFor(c, ExpireAt(now)(c)) { ExpireCounterSound(c, now); }
    EachKeeps(ExpireAt(now), cs);
    EachExplained(ExpireAt(now), cs);
  }
}
