/** The reservations under an id that nobody reserves again only get fewer; and a debit that needs money on what is
    reserved needs it on less. */
module Dwindling {
  import opened Basics
  import opened Charging
  import opened Ledger
  import opened QuotaOps
  import opened Solvency
  import opened Debiting
  import opened Expiry
  import opened Attempts
  import opened Grants

  /** What is left of one reservation. */
  predicate Fewer(a: Slot, b: Slot) {
    && b.unitType == a.unitType && b.priority == a.priority && b.reservation.terms == a.reservation.terms
    && b.reservation.units <= a.reservation.units
  }

  /** What is left of reservations: some are gone, and the others hold no more units than before. */
  predicate Dwindled(a: seq<Slot>, b: seq<Slot>)
    decreases |a|
  {
    b == [] || (a != [] && (Dwindled(a[1..], b) || (Fewer(a[0], b[0]) && Dwindled(a[1..], b[1..]))))
  }

  lemma {:induction false} DwindledSame(a: seq<Slot>)
    ensures Dwindled(a, a)
  {
    if a != [] { DwindledSame(a[1..]); }
  }

  lemma {:induction false} DwindledFurther(a: seq<Slot>, b: seq<Slot>, c: seq<Slot>)
    requires Dwindled(a, b) && Dwindled(b, c)
    ensures Dwindled(a, c)
    decreases |a|
  {
    if b != [] && c != [] {
      if Dwindled(a[1..], b) {
        DwindledFurther(a[1..], b, c);
      } else if Dwindled(b[1..], c) {
        DwindledFurther(a[1..], b[1..], c);
      } else {
        DwindledFurther(a[1..], b[1..], c[1..]);
      }
    }
  }

  lemma {:induction false} LiveDwindles(a: seq<Slot>, now: Time)
    ensures Dwindled(a, Live(a, now))
  {
    if a != [] {
      LiveDwindles(a[1..], now);
      LiveOne(a, now);
    }
  }

  lemma {:induction false} LiveDwindled(a: seq<Slot>, b: seq<Slot>, now: Time)
    requires Dwindled(a, b)
    ensures Dwindled(Live(a, now), Live(b, now))
    decreases |a|
  {
    if b != [] {
      if Dwindled(a[1..], b) { LiveDwindled(a[1..], b, now); } else { LiveDwindled(a[1..], b[1..], now); }
      LiveOne(a, now);
      LiveOne(b, now);
    }
  }

  lemma LiveOne(a: seq<Slot>, now: Time)
    requires a != []
    ensures if a[0].reservation.terms.expiry > now then
              Live(a, now) != [] && Live(a, now)[0] == a[0] && Live(a, now)[1..] == Live(a[1..], now)
            else Live(a, now) == Live(a[1..], now)
  {}

  /** What is left of one of the reservations. */
  predicate LeftOfOne(a: seq<Slot>, s: Slot) {
    exists s' :: s' in a && Fewer(s', s)
  }

  lemma {:induction false} DwindledFrom(a: seq<Slot>, b: seq<Slot>, s: Slot)
    requires Dwindled(a, b) && s in b
    ensures LeftOfOne(a, s)
    decreases |a|
  {
    if Dwindled(a[1..], b) {
      DwindledFrom(a[1..], b, s);
    } else if s in b[1..] {
      DwindledFrom(a[1..], b[1..], s);
    } else {
      assert a[0] in a && s == b[0];
    }
  }

  // ---- every call but a reservation under the id ----

  /** The call does not reserve under the id. */
  predicate NotReserving(call: Call, id: Uuid) {
    call.Reserve? ==> call.id != id
  }

  /** No counter holds more units under the id. */
  predicate Drawn(cs: seq<CounterState>, cs': seq<CounterState>, id: Uuid) {
    && |cs'| == |cs|
    && forall i :: 0 <= i < |cs| && id in cs'[i].reservations ==>
          id in cs[i].reservations && cs'[i].reservations[id].units <= cs[i].reservations[id].units
  }

  lemma {:induction false} UnitsDrawn(cs: seq<CounterState>, order: seq<nat>, id: Uuid, used: int, reclaim: bool)
    requires Sound(cs) && Reserved(cs, order, id) && used >= 0
    requires forall k :: 0 <= k < |order| ==> cs[order[k]].unitType != MONETARY
    ensures Drawn(cs, DebitUnitsAlong(cs, order, id, used, reclaim).counters, id)
    decreases |order|
  {
    if order != [] {
      var c, d := cs[order[0]], DebitUnits(cs[order[0]], id, used, reclaim);
      DebitUnitsSolvent(c, id, used, reclaim);
      assert SoundReservation(c.unitType, c.reservations[id]) by { assert Solvent(c); }
      assert Scaled(c.reservations[id].terms.multiplier, used) >= 0;
      UnitsDrawn(cs[order[0] := d.counter], order[1..], id, d.left, reclaim);
    }
  }

  lemma {:induction false} ValueDrawn(cs: seq<CounterState>, order: seq<nat>, id: Uuid, due: real, reclaim: bool)
    requires Reserved(cs, order, id)
    ensures Drawn(cs, DebitValueAlong(cs, order, id, due, reclaim).counters, id)
    decreases |order|
  {
    if order != [] {
      var d := DebitValue(cs[order[0]], id, due, reclaim);
      ValueDrawn(cs[order[0] := d.counter], order[1..], id, d.left, reclaim);
    }
  }

  lemma DebitDrawn(cs: seq<CounterState>, v: Visit, id: Uuid, used: int, t: UnitType, reclaim: bool)
    requires Sound(cs) && DebitVisit(cs, v, id, t) && CanDebit(cs, v, id, t) && used >= 0
    ensures Drawn(cs, DebitOp(cs, v, id, used, t, reclaim).counters, id)
  {
    hide DebitUnitsAlong, DebitValueAlong;
    DebitDefined(cs, v, id, t);
    var s := ServicePart(cs, v, id, used, t, reclaim);
    if t != MONETARY { UnitsDrawn(cs, v.service, id, used, reclaim); }
    if v.monetary != [] { ValueDrawn(s.counters, v.monetary, id, ValueDue(cs, v, id, used, t, reclaim), reclaim); }
  }

  lemma {:induction false} DrawnDwindles(cs: seq<CounterState>, cs': seq<CounterState>, id: Uuid)
    requires Drawn(cs, cs', id)
    requires forall i :: 0 <= i < |cs| ==> OnlyDebits(cs[i], cs'[i], id) && TermsFrom(cs[i], cs'[i], id, None)
    ensures Dwindled(Slots(cs, id), Slots(cs', id))
    decreases |cs|
  {
    if cs != [] {
      DrawnDwindles(cs[1..], cs'[1..], id);
      SlotsFirst(cs, id);
      SlotsFirst(cs', id);
    }
  }

  lemma SlotsFirst(cs: seq<CounterState>, id: Uuid)
    requires cs != []
    ensures id !in cs[0].reservations ==> Slots(cs, id) == Slots(cs[1..], id)
    ensures id in cs[0].reservations ==>
              Slots(cs, id) != [] && Slots(cs, id)[0] == SlotOf(cs[0], id)[0]
              && Slots(cs, id)[1..] == Slots(cs[1..], id)
  {}

  lemma OperateDwindles(cs: seq<CounterState>, c: Commit, taxRate: real, id: Uuid)
    requires Sound(cs) && SoundCall(c.call, taxRate) && Visits(cs, c.call, c.visit) && NotReserving(c.call, id)
    ensures Dwindled(Slots(cs, id), Slots(Operate(cs, c.call, c.visit, c.now, taxRate).counters, id))
  {
    hide DebitOp;
    if Other(c.call, id) {
      OperateOther(cs, c.call, c.visit, c.now, taxRate, id);
      DwindledSame(Slots(cs, id));
    } else if c.call.Release? {
      FreshIsEmpty(ReleaseAll(cs, id), id);
    } else {
      DebitDefined(cs, c.visit, id, c.call.unitType);
      DebitConserves(cs, c.visit, id, c.call.used, c.call.unitType, c.call.reclaim);
      DebitDrawn(cs, c.visit, id, c.call.used, c.call.unitType, c.call.reclaim);
      DrawnDwindles(cs, DebitOp(cs, c.visit, id, c.call.used, c.call.unitType, c.call.reclaim).counters, id);
    }
  }

  lemma AfterDwindles(cs: seq<CounterState>, c: Commit, taxRate: real, id: Uuid)
    requires Sound(cs) && Possible(cs, c, taxRate) && NotReserving(c.call, id)
    ensures Dwindled(Slots(cs, id), Slots(After(cs, c, taxRate), id))
  {
    hide Operate, Slots, Dwindled;
    ExpirySound(cs, c.now);
    var kept := Expire(cs, c.now).kept;
    var o := Operate(kept, c.call, c.visit, c.now, taxRate);
    OperateSound(kept, c.call, c.visit, c.now, taxRate);
    ExpireSlots(cs, c.now, id);
    LiveDwindles(Slots(cs, id), c.now);
    OperateDwindles(kept, c, taxRate, id);
    DwindledFurther(Slots(cs, id), Slots(kept, id), Slots(o.counters, id));
    ExpireSlots(o.counters, c.now, id);
    LiveDwindles(Slots(o.counters, id), c.now);
    DwindledFurther(Slots(cs, id), Slots(o.counters, id), Slots(After(cs, c, taxRate), id));
  }

  /** Over any calls, by anyone and at any instants, that do not reserve under the id. */
  lemma {:induction false} ReplayDwindles(cs: seq<CounterState>, log: seq<Commit>, taxRate: real, id: Uuid)
    requires Sound(cs) && Feasible(cs, log, taxRate) && forall c :: c in log ==> NotReserving(c.call, id)
    ensures Dwindled(Slots(cs, id), Slots(Replay(cs, log, taxRate), id))
    decreases |log|
  {
    hide Attempt, Visits, Slots, Dwindled;
    if log == [] {
      DwindledSame(Slots(cs, id));
    } else {
      AfterDwindles(cs, log[0], taxRate, id);
      ReplayDwindles(After(cs, log[0], taxRate), log[1..], taxRate, id);
      DwindledFurther(Slots(cs, id), Slots(After(cs, log[0], taxRate), id), Slots(Replay(cs, log, taxRate), id));
    }
  }

  // ---- what a debit leaves over ----

  /** What one reservation leaves over of `used` units. */
  function LeftBy(r: Reservation, used: int): int
    requires r.terms.multiplier != 0.0
  {
    var scaled := Scaled(r.terms.multiplier, used);
    Unscaled(r.terms.multiplier, scaled - Min(r.units, scaled))
  }

  /** What reservations leave over, one after another. */
  function LeftByAll(slots: seq<Slot>, used: int): int
    requires forall s :: s in slots ==> s.reservation.terms.multiplier != 0.0
  {
    if slots == [] then used else LeftByAll(slots[1..], LeftBy(slots[0].reservation, used))
  }

  lemma ScaledMonotonically(m: real, a: int, b: int)
    requires m > 0.0 && 0 <= a <= b
    ensures 0 <= Scaled(m, a) <= Scaled(m, b)
  {
    MulMono(a as real, b as real, m);
    MulLinear(m, a as real, 0.0);
    MulLinear(m, b as real, 0.0);
  }

  lemma UnscaledMonotonically(m: real, a: int, b: int)
    requires m > 0.0 && 0 <= a <= b
    ensures 0 <= Unscaled(m, a) <= Unscaled(m, b)
  {
    var p, q := Quotient(a as real, m), Quotient(b as real, m);
    if p > q { MulPositive(p - q, m); MulLinear(m, p, q); MulLinear(m, p - q, 0.0); }
  }

  lemma UnscaledBack(m: real, n: int, left: int)
    requires m > 0.0 && 0 <= n && 0 <= left <= Scaled(m, n)
    ensures Unscaled(m, left) <= n
  {
    var q := Quotient(left as real, m);
    MulSign(m, n as real);
    assert Mul(m, q) <= Mul(m, n as real);
    if q > n as real { MulPositive(q - n as real, m); MulLinear(m, q, n as real); MulLinear(m, q - n as real, 0.0); }
  }

  /** More to debit, or less reserved, leaves no less over, and never more than there was to debit. */
  lemma LeftByMonotonically(r: Reservation, r': Reservation, used: int, used': int)
    requires r.terms.multiplier > 0.0 && r'.terms == r.terms && 0 <= r'.units <= r.units && 0 <= used <= used'
    ensures 0 <= LeftBy(r, used) <= LeftBy(r', used') && LeftBy(r, used) <= used
  {
    var m := r.terms.multiplier;
    ScaledMonotonically(m, used, used');
    var left, left' := Scaled(m, used) - Min(r.units, Scaled(m, used)),
        Scaled(m, used') - Min(r'.units, Scaled(m, used'));
    UnscaledMonotonically(m, left, left');
    UnscaledBack(m, used, left);
  }

  predicate Drawable(slots: seq<Slot>) {
    forall s :: s in slots ==> s.reservation.terms.multiplier > 0.0 && s.reservation.units >= 0
  }

  /** By priority, no two alike. */
  predicate Descending(slots: seq<Slot>) {
    forall i, j :: 0 <= i < j < |slots| ==> slots[i].priority > slots[j].priority
  }

  /** If each of the later reservations is what is left of an earlier one, and either are visited by priority, no less
      is left over. */
  lemma {:induction false} LeftByAllMonotonically(a: seq<Slot>, b: seq<Slot>, used: int, used': int)
    requires Drawable(a) && Drawable(b) && Descending(a) && Descending(b) && 0 <= used <= used'
    requires forall s :: s in b ==> LeftOfOne(a, s)
    ensures 0 <= LeftByAll(a, used) <= LeftByAll(b, used')
    decreases |a|
  {
    if a != [] {
      if b != [] && b[0].priority == a[0].priority {
        assert Fewer(a[0], b[0]) by { FirstLeft(a, b[0]); }
        LeftByMonotonically(a[0].reservation, b[0].reservation, used, used');
        forall s | s in b[1..] ensures LeftOfOne(a[1..], s) { RestLeft(a, b, s); }
        LeftByAllMonotonically(a[1..], b[1..], LeftBy(a[0].reservation, used), LeftBy(b[0].reservation, used'));
      } else {
        LeftByMonotonically(a[0].reservation, a[0].reservation, used, used);
        forall s | s in b ensures LeftOfOne(a[1..], s) {
          var s' :| s' in a && Fewer(s', s);
          assert b[0] in b;
          var h :| h in a && Fewer(h, b[0]);
        }
        LeftByAllMonotonically(a[1..], b, LeftBy(a[0].reservation, used), used');
      }
    } else if b != [] {
      assert b[0] in b;
    }
  }

  lemma FirstLeft(a: seq<Slot>, s: Slot)
    requires a != [] && Descending(a) && s.priority == a[0].priority && LeftOfOne(a, s)
    ensures Fewer(a[0], s)
  {}

  lemma RestLeft(a: seq<Slot>, b: seq<Slot>, s: Slot)
    requires a != [] && b != [] && Descending(b) && a[0].priority == b[0].priority && s in b[1..]
    requires LeftOfOne(a, s)
    ensures LeftOfOne(a[1..], s)
  {
    var s' :| s' in a && Fewer(s', s);
    assert s'.priority != a[0].priority && s' in a[1..];
  }

  // ---- in the order in which a debit visits them ----

  function SlotsAlong(cs: seq<CounterState>, order: seq<nat>, id: Uuid): seq<Slot>
    requires Reserved(cs, order, id)
  {
    seq(|order|, k requires 0 <= k < |order| =>
      Slot(cs[order[k]].unitType, cs[order[k]].priority, cs[order[k]].reservations[id]))
  }

  lemma {:induction false} DebitLeaves(cs: seq<CounterState>, order: seq<nat>, id: Uuid, used: int, reclaim: bool)
    requires Reserved(cs, order, id)
    ensures DebitUnitsAlong(cs, order, id, used, reclaim).left == LeftByAll(SlotsAlong(cs, order, id), used)
    decreases |order|
  {
    if order != [] {
      var d := DebitUnits(cs[order[0]], id, used, reclaim);
      var cs1, slots := cs[order[0] := d.counter], SlotsAlong(cs, order, id);
      DebitLeaves(cs1, order[1..], id, d.left, reclaim);
      assert SlotsAlong(cs1, order[1..], id) == slots[1..];
    }
  }

  lemma AlongSlots(cs: seq<CounterState>, order: seq<nat>, id: Uuid, t: UnitType)
    requires Sound(cs) && Picks(cs, order, HoldingFor(id, t)) && Reserved(cs, order, id)
    ensures var along := SlotsAlong(cs, order, id);
            && Drawable(along) && (forall s :: s in along ==> s in Slots(cs, id) && s.unitType == t)
            && forall s :: s in Slots(cs, id) && s.unitType == t ==> s in along
  {
    var along := SlotsAlong(cs, order, id);
    PickedHold(cs, order, id, t);
    forall s | s in along
      ensures s in Slots(cs, id) && s.unitType == t && SoundReservation(t, s.reservation)
    {
      var k :| 0 <= k < |along| && along[k] == s;
      SlotsCover(cs, order[k], id);
      assert Solvent(cs[order[k]]);
    }
    forall s | s in Slots(cs, id) && s.unitType == t ensures s in along {
      var i := SlotAt(cs, id, s);
      assert i in order;
      var k :| 0 <= k < |order| && order[k] == i;
      assert along[k] == s;
    }
  }

  lemma {:induction false} SlotAt(cs: seq<CounterState>, id: Uuid, s: Slot) returns (i: nat)
    requires s in Slots(cs, id)
    ensures i < |cs| && id in cs[i].reservations && s == SlotOf(cs[i], id)[0]
  {
    if s in Slots(cs[1..], id) {
      i := SlotAt(cs[1..], id, s);
      i := i + 1;
    } else {
      i := 0;
    }
  }

  /** No two of the type are on counters of equal priority. */
  predicate NoTies(slots: seq<Slot>, t: UnitType) {
    forall i, j :: 0 <= i < j < |slots| && slots[i].unitType == slots[j].unitType == t ==>
          slots[i].priority != slots[j].priority
  }

  lemma {:induction false} NoTiesBetween(cs: seq<CounterState>, i: nat, j: nat, id: Uuid, t: UnitType)
    requires NoTies(Slots(cs, id), t) && i < j < |cs| && Holding(cs[i], id, t) && Holding(cs[j], id, t)
    ensures cs[i].priority != cs[j].priority
  {
    var slots := Slots(cs, id);
    SlotsFirst(cs, id);
    if i == 0 {
      SlotsCover(cs[1..], j - 1, id);
      var p :| 0 <= p < |slots[1..]| && slots[1..][p] == SlotOf(cs[j], id)[0];
      assert slots[p + 1] == slots[1..][p];
    } else {
      assert id in cs[0].reservations ==> NoTies(slots[1..], t);
      NoTiesBetween(cs[1..], i - 1, j - 1, id, t);
    }
  }

  lemma NoTiesDescending(cs: seq<CounterState>, order: seq<nat>, id: Uuid, t: UnitType)
    requires Picks(cs, order, HoldingFor(id, t)) && Reserved(cs, order, id) && NoTies(Slots(cs, id), t)
    ensures Descending(SlotsAlong(cs, order, id))
  {
    forall j, k | 0 <= j < k < |order| ensures cs[order[j]].priority > cs[order[k]].priority {
      assert order[j] in order && order[k] in order && order[j] != order[k];
      assert HoldingFor(id, t)(cs[order[j]]) && HoldingFor(id, t)(cs[order[k]]);
      if order[j] < order[k] {
        NoTiesBetween(cs, order[j], order[k], id, t);
      } else {
        NoTiesBetween(cs, order[k], order[j], id, t);
      }
    }
  }

  lemma {:induction false} NoTiesLeft(a: seq<Slot>, b: seq<Slot>, t: UnitType)
    requires NoTies(a, t) && Dwindled(a, b)
    ensures NoTies(b, t)
    decreases |a|
  {
    if b != [] {
      assert NoTies(a[1..], t);
      if Dwindled(a[1..], b) {
        NoTiesLeft(a[1..], b, t);
      } else {
        NoTiesLeft(a[1..], b[1..], t);
        forall j | 0 < j < |b| && b[0].unitType == b[j].unitType == t ensures b[0].priority != b[j].priority {
          DwindledFrom(a[1..], b[1..], b[j]);
          var s :| s in a[1..] && Fewer(s, b[j]);
        }
      }
    }
  }

  // ---- whole multipliers ----

  predicate Whole(multiplier: real) {
    multiplier >= 1.0 && multiplier == multiplier.Floor as real
  }

  /** All of the type were reserved with a whole multiplier. */
  predicate AllWhole(slots: seq<Slot>, t: UnitType) {
    forall s :: s in slots && s.unitType == t ==> Whole(s.reservation.terms.multiplier)
  }

  /** The used units a reservation covers: its own without the multiplier, rounded up. */
  function Covered(r: Reservation): int {
    var m := r.terms.multiplier.Floor;
    if m >= 1 then (r.units + m - 1) / m else 0
  }

  function CoveredBy(slots: seq<Slot>, t: UnitType): int {
    if slots == [] then 0 else
    (if slots[0].unitType == t then Covered(slots[0].reservation) else 0) + CoveredBy(slots[1..], t)
  }

  function Over(used: int, covered: int): int {
    if used <= covered then 0 else used - covered
  }

  lemma CeilingBounds(u: int, m: int)
    requires m >= 1
    ensures var c := (u + m - 1) / m; u <= m * c <= u + m - 1
    ensures u >= 0 ==> (u + m - 1) / m >= 0
  {}

  lemma QuotientIs(m: int, q: int, q': int, k: int)
    requires m >= 1 && m * q <= k <= m * q + m - 1 && m * q' <= k <= m * q' + m - 1
    ensures q == q'
  {
    if q < q' { Times(m, q + 1, q'); }
    if q' < q { Times(m, q' + 1, q); }
  }

  lemma Times(m: int, a: int, b: int)
    requires m >= 1 && a <= b
    ensures m * a <= m * b && m * (b - a) == m * b - m * a
  {}

  lemma LeftByWhole(r: Reservation, used: int)
    requires Whole(r.terms.multiplier) && r.units >= 0 && used >= 0
    ensures LeftBy(r, used) == Over(used, Covered(r))
  {
    var m, c := r.terms.multiplier.Floor, Covered(r);
    var k := m * used - Min(r.units, m * used);
    ScaledWhole(m, used);
    CeilingBounds(r.units, m);
    assert k >= 0;
    UnscaledWhole(m, k);
    WholeOver(m, used, r.units, c);
    QuotientIs(m, Unscaled(m as real, k), Over(used, c), k);
  }

  lemma WholeOver(m: int, used: int, u: int, c: int)
    requires m >= 1 && u >= 0 && used >= 0 && u <= m * c <= u + m - 1
    ensures var k := m * used - Min(u, m * used); m * Over(used, c) <= k <= m * Over(used, c) + m - 1
  {
    if used <= c { Times(m, used, c); } else { Times(m, c, used); }
  }

  lemma {:induction false} LeftByAllWhole(slots: seq<Slot>, used: int, t: UnitType)
    requires Drawable(slots) && AllWhole(slots, t) && (forall s :: s in slots ==> s.unitType == t) && used >= 0
    ensures LeftByAll(slots, used) == Over(used, CoveredBy(slots, t)) && CoveredBy(slots, t) >= 0
    decreases |slots|
  {
    hide LeftBy, Covered;
    if slots != [] {
      var r := slots[0].reservation;
      assert slots[0] in slots;
      LeftByWhole(r, used);
      CoveredPositive(r);
      LeftByAllWhole(slots[1..], LeftBy(r, used), t);
    }
  }

  lemma CoveredPositive(r: Reservation)
    requires r.units >= 0
    ensures Covered(r) >= 0
  {}

  ghost function CoveredUnder(id: Uuid, t: UnitType): CounterState -> real {
    (c: CounterState) => if Holding(c, id, t) then Covered(c.reservations[id]) as real else 0.0
  }

  lemma {:induction false} CoveredAlong(cs: seq<CounterState>, order: seq<nat>, id: Uuid, t: UnitType)
    requires Reserved(cs, order, id) && forall k :: 0 <= k < |order| ==> cs[order[k]].unitType == t
    ensures CoveredBy(SlotsAlong(cs, order, id), t) as real == SumAlong(Weights(cs, CoveredUnder(id, t)), order)
    decreases |order|
  {
    hide Covered;
    if order != [] {
      CoveredAlong(cs, order[1..], id, t);
      assert SlotsAlong(cs, order, id)[1..] == SlotsAlong(cs, order[1..], id);
    }
  }

  lemma {:induction false} CoveredTotal(cs: seq<CounterState>, id: Uuid, t: UnitType)
    ensures Total(cs, CoveredUnder(id, t)) == CoveredBy(Slots(cs, id), t) as real
  {
    hide Covered;
    if cs != [] {
      CoveredTotal(cs[1..], id, t);
      assert Weights(cs, CoveredUnder(id, t))[1..] == Weights(cs[1..], CoveredUnder(id, t));
      SlotsFirst(cs, id);
    }
  }

  /** With whole multipliers a debit leaves over what exceeds the units all reservations cover, in any order. */
  lemma DebitLeavesWhole(cs: seq<CounterState>, order: seq<nat>, id: Uuid, used: int, t: UnitType, reclaim: bool)
    requires Sound(cs) && Picks(cs, order, HoldingFor(id, t)) && Reserved(cs, order, id) && used >= 0
    requires AllWhole(Slots(cs, id), t)
    ensures DebitUnitsAlong(cs, order, id, used, reclaim).left == Over(used, CoveredBy(Slots(cs, id), t))
  {
    hide Slots, DebitUnitsAlong, LeftByAll, Covered;
    AlongSlots(cs, order, id, t);
    PickedHold(cs, order, id, t);
    LeftByAllWhole(SlotsAlong(cs, order, id), used, t);
    DebitLeaves(cs, order, id, used, reclaim);
    CoveredAlong(cs, order, id, t);
    SumPicked(Weights(cs, CoveredUnder(id, t)), order);
    CoveredTotal(cs, id, t);
  }

  lemma {:induction false} CoverDwindles(a: seq<Slot>, b: seq<Slot>, t: UnitType)
    requires Dwindled(a, b) && AllWhole(a, t) && forall s :: s in a ==> s.reservation.units >= 0
    ensures CoveredBy(b, t) <= CoveredBy(a, t)
    decreases |a|
  {
    hide Covered, Whole;
    if a != [] {
      CoverNonNegative(a[1..], t);
      assert a[0] in a;
      CoveredPositive(a[0].reservation);
      if b == [] || Dwindled(a[1..], b) {
        CoverDwindles(a[1..], b, t);
      } else {
        CoverDwindles(a[1..], b[1..], t);
        FewerCovered(a[0].reservation, b[0].reservation);
      }
    }
  }

  lemma FewerCovered(r: Reservation, r': Reservation)
    requires r'.terms == r.terms && r'.units <= r.units
    ensures Covered(r') <= Covered(r)
  {
    var m := r.terms.multiplier.Floor;
    if m >= 1 {
      CeilingBounds(r.units, m);
      CeilingBounds(r'.units, m);
      if Covered(r') > Covered(r) { Times(m, Covered(r) + 1, Covered(r')); }
    }
  }

  lemma {:induction false} CoverNonNegative(a: seq<Slot>, t: UnitType)
    requires forall s :: s in a ==> s.reservation.units >= 0
    ensures CoveredBy(a, t) >= 0
  {
    hide Covered;
    if a != [] {
      assert a[0] in a;
      CoveredPositive(a[0].reservation);
      CoverNonNegative(a[1..], t);
    }
  }

  lemma SlotsSound(cs: seq<CounterState>, id: Uuid)
    requires Sound(cs)
    ensures forall s :: s in Slots(cs, id) ==> s.reservation.units >= 0
  {
    forall s | s in Slots(cs, id) ensures s.reservation.units >= 0 {
      var i := SlotAt(cs, id, s);
      assert Solvent(cs[i]);
    }
  }

  /** What is reserved is without ties, or with whole multipliers. Then it does not matter in which of the orders
      sort.Slice may produce a debit visits it. */
  predicate Unambiguous(slots: seq<Slot>, t: UnitType) {
    NoTies(slots, t) || AllWhole(slots, t)
  }

  lemma WholeLeft(a: seq<Slot>, b: seq<Slot>, t: UnitType)
    requires AllWhole(a, t) && Dwindled(a, b)
    ensures AllWhole(b, t)
  {
    forall s | s in b && s.unitType == t ensures Whole(s.reservation.terms.multiplier) { DwindledFrom(a, b, s); }
  }

  lemma UnambiguousLeft(a: seq<Slot>, b: seq<Slot>, t: UnitType)
    requires Unambiguous(a, t) && Dwindled(a, b)
    ensures Unambiguous(b, t)
  {
    if NoTies(a, t) { NoTiesLeft(a, b, t); }
    if AllWhole(a, t) { WholeLeft(a, b, t); }
  }

  /** A debit leaves no less over on what is left of the reservations than on all of them, whatever order it visits
      them in. */
  lemma LeavesNoLess(cs: seq<CounterState>, order: seq<nat>, cs': seq<CounterState>, order': seq<nat>, id: Uuid,
                     used: int, t: UnitType, reclaim: bool)
    requires Sound(cs) && Picks(cs, order, HoldingFor(id, t)) && Reserved(cs, order, id)
    requires Sound(cs') && Picks(cs', order', HoldingFor(id, t)) && Reserved(cs', order', id)
    requires used >= 0 && t != MONETARY
    requires Dwindled(Slots(cs, id), Slots(cs', id)) && Unambiguous(Slots(cs, id), t)
    ensures DebitUnitsAlong(cs, order, id, used, reclaim).left <= DebitUnitsAlong(cs', order', id, used, reclaim).left
  {
    hide Slots, DebitUnitsAlong, Sound, Picks, Dwindled, LeftByAll;
    if NoTies(Slots(cs, id), t) {
      NoTiesLeft(Slots(cs, id), Slots(cs', id), t);
      NoTiesDescending(cs, order, id, t);
      NoTiesDescending(cs', order', id, t);
      AlongSlots(cs, order, id, t);
      AlongSlots(cs', order', id, t);
      var a, b := SlotsAlong(cs, order, id), SlotsAlong(cs', order', id);
      forall s | s in b ensures LeftOfOne(a, s) {
        DwindledFrom(Slots(cs, id), Slots(cs', id), s);
        var s' :| s' in Slots(cs, id) && Fewer(s', s);
      }
      LeftByAllMonotonically(a, b, used, used);
      DebitLeaves(cs, order, id, used, reclaim);
      DebitLeaves(cs', order', id, used, reclaim);
    } else {
      SlotsSound(cs, id);
      WholeLeft(Slots(cs, id), Slots(cs', id), t);
      CoverDwindles(Slots(cs, id), Slots(cs', id), t);
      DebitLeavesWhole(cs, order, id, used, t, reclaim);
      DebitLeavesWhole(cs', order', id, used, t, reclaim);
    }
  }
}
