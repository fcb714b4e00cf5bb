/** What a debit takes from each reservation and what it reports, told from the units, the price, the multiplier, the
    tax and what is reserved. */
module DebitCases {
  import opened Basics
  import opened Charging
  import opened Ledger
  import opened QuotaOps
  import opened Solvency
  import opened Reserving
  import opened Debiting
  import opened Grants
  import opened ReserveCases

  // ---- service units ----

  /** A counter before and after a debit of `n` units: it gives up to the units with the multiplier, rounded down, and
      leaves over what that is short, without the multiplier and rounded down. */
  ghost predicate Draws(c: CounterState, c': CounterState, id: Uuid, n: int, reclaim: bool, left: int)
    requires id in c.reservations && c.reservations[id].terms.multiplier > 0.0
  {
    var r, m := c.reservations[id], c.reservations[id].terms.multiplier;
    var taken := Min(r.units, Multiple(m, n));
    && c' == c.(balance := c.balance - taken as real,
                reservations := if reclaim || taken == r.units then c.reservations - {id}
                                else c.reservations[id := r.(units := r.units - taken)])
    && left >= 0 && left as real * m <= (Multiple(m, n) - taken) as real < (left + 1) as real * m
  }

  /** What is posted for a counter that a debit changes: what its balance falls by, for the reason it was reserved. */
  function UsageEntry(c: CounterState, c': CounterState, id: Uuid): Entry
    requires id in c.reservations
  {
    Entry(c.id, c.reservations[id].terms.reason, c.balance - c'.balance, c'.balance)
  }

  lemma UnscaledExactly(m: real, n: int)
    requires m > 0.0 && n >= 0
    ensures var u := Unscaled(m, n); u >= 0 && u as real * m <= n as real < (u + 1) as real * m
  {
    var q := Quotient(n as real, m);
    var u := Unscaled(m, n);
    WholeUnits(n as real, m, q, u + 1);
    assert Mul(u as real, m) == u as real * m && Mul((u + 1) as real, m) == (u + 1) as real * m;
  }

  lemma CounterDraws(c: CounterState, id: Uuid, n: int, reclaim: bool)
    requires Solvent(c) && c.unitType != MONETARY && id in c.reservations && n >= 0
    ensures var d := DebitUnits(c, id, n, reclaim);
            Draws(c, d.counter, id, n, reclaim, d.left) && d.entry == UsageEntry(c, d.counter, id)
  {
    hide Scaled, Unscaled, Multiple, UnitsHeld;
    var r := c.reservations[id];
    ScaledIsFloor(r.terms.multiplier, n);
    DebitUnitsSolvent(c, id, n, reclaim);
    UnscaledExactly(r.terms.multiplier, Scaled(r.terms.multiplier, n) - Min(r.units, Scaled(r.terms.multiplier, n)));
  }

  lemma OthersStay(cs: seq<CounterState>, order: seq<nat>, id: Uuid, c: CounterState)
    requires Sound(cs) && Reserved(cs, order, id) && order != [] && Solvent(c) && c.id == cs[order[0]].id
    ensures var cs1 := cs[order[0] := c];
            && Sound(cs1) && Reserved(cs1, order[1..], id) && order[0] !in order[1..]
            && forall k :: 0 < k < |order| ==> cs1[order[k]] == cs[order[k]]
  {
    hide Solvent;
    assert forall k :: 0 <= k < |order[1..]| ==> order[1..][k] == order[k + 1];
  }

  lemma FirstSolvent(cs: seq<CounterState>, order: seq<nat>, id: Uuid)
    requires Sound(cs) && Reserved(cs, order, id) && order != []
    ensures order[0] < |cs| && Solvent(cs[order[0]]) && id in cs[order[0]].reservations
    ensures cs[order[0]].reservations[id].terms.multiplier > 0.0
  {}

  lemma FirstDraws(cs: seq<CounterState>, order: seq<nat>, id: Uuid, n: int, reclaim: bool)
    requires Sound(cs) && Reserved(cs, order, id) && order != [] && n >= 0
    requires forall k :: 0 <= k < |order| ==> cs[order[k]].unitType != MONETARY
    ensures var c, d := cs[order[0]], DebitUnits(cs[order[0]], id, n, reclaim);
            var cs1 := cs[order[0] := d.counter];
            && c.reservations[id].terms.multiplier > 0.0 && Draws(c, d.counter, id, n, reclaim, d.left) && d.left >= 0
            && d.entry == UsageEntry(c, d.counter, id)
            && Sound(cs1) && Reserved(cs1, order[1..], id)
            && (forall k :: 0 < k < |order| ==> cs1[order[k]] == cs[order[k]])
            && var d' := DebitUnitsAlong(cs1, order[1..], id, d.left, reclaim);
               |d'.counters| == |cs| && d'.counters[order[0]] == d.counter
  {
    hide Draws, DebitUnits, Sound, Solvent, Reserved;
    FirstSolvent(cs, order, id);
    var d := DebitUnits(cs[order[0]], id, n, reclaim);
    CounterDraws(cs[order[0]], id, n, reclaim);
    DebitUnitsSolvent(cs[order[0]], id, n, reclaim);
    OthersStay(cs, order, id, d.counter);
    DebitUnitsElsewhere(cs[order[0] := d.counter], order[1..], id, d.left, reclaim);
  }

  /** Each counter visited gives what those before it have left over, as far as its reservation goes, and an entry is
      posted for it. */
  lemma {:induction false} UnitsDrawnExactly(cs: seq<CounterState>, order: seq<nat>, id: Uuid, used: int, reclaim: bool)
    returns (lefts: seq<int>)
    requires Sound(cs) && Reserved(cs, order, id) && used >= 0
    requires forall k :: 0 <= k < |order| ==> cs[order[k]].unitType != MONETARY
    ensures var d := DebitUnitsAlong(cs, order, id, used, reclaim);
            && |d.counters| == |cs| && |lefts| == |order| + 1 && lefts[0] == used && lefts[|order|] == d.left
            && |d.journal| == |order|
            && forall k :: 0 <= k < |order| ==>
                  && cs[order[k]].reservations[id].terms.multiplier > 0.0
                  && Draws(cs[order[k]], d.counters[order[k]], id, lefts[k], reclaim, lefts[k + 1])
                  && d.journal[k] == UsageEntry(cs[order[k]], d.counters[order[k]], id)
    decreases |order|
  {
    hide Draws, DebitUnits, Sound, UsageEntry;
    DebitUnitsElsewhere(cs, order, id, used, reclaim);
    if order == [] { return [used]; }
    var d := DebitUnits(cs[order[0]], id, used, reclaim);
    var cs1 := cs[order[0] := d.counter];
    FirstDraws(cs, order, id, used, reclaim);
    assert forall k :: 0 <= k < |order[1..]| ==> order[1..][k] == order[k + 1];
    var rest := UnitsDrawnExactly(cs1, order[1..], id, d.left, reclaim);
    lefts := [used] + rest;
    var d' := DebitUnitsAlong(cs, order, id, used, reclaim);
    forall k | 0 <= k < |order|
      ensures cs[order[k]].reservations[id].terms.multiplier > 0.0
              && Draws(cs[order[k]], d'.counters[order[k]], id, lefts[k], reclaim, lefts[k + 1])
              && d'.journal[k] == UsageEntry(cs[order[k]], d'.counters[order[k]], id)
    {
      if k > 0 { assert order[1..][k - 1] == order[k] && cs1[order[k]] == cs[order[k]]; }
    }
  }

  // ---- money ----

  lemma UnitsShort(short: real, m: real, p: real)
    requires m > 0.0 && p > 0.0 && short > 0.0
    ensures var k := IntPart(Quotient(Quotient(short, m), p));
            k >= 0 && k as real * (m * p) <= short < (k + 1) as real * (m * p)
  {
    var q := Quotient(short, m);
    var u := Quotient(q, p);
    var k := IntPart(u);
    MulSign(m, q);
    MulSign(p, u);
    MulMono(k as real, u, p);
    MulMono(Mul(k as real, p), q, m);
    MulPositive((k + 1) as real - u, p);
    MulLinear(p, (k + 1) as real, u);
    MulPositive(Mul((k + 1) as real, p) - q, m);
    MulLinear(m, Mul((k + 1) as real, p), q);
    Thrice(k as real, p, m);
    Thrice((k + 1) as real, p, m);
  }

  lemma Thrice(k: real, p: real, m: real)
    ensures Mul(Mul(k, p), m) == k * (m * p)
  {
    assert Mul(Mul(k, p), m) == (k * p) * m == k * (p * m);
    assert p * m == m * p;
  }

  /** A counter before and after it has been asked for `due`: it gives what it holds for the reservation, as far as
      that is due. Its reservation is gone if it is used up, if the unused rest is reclaimed, and also if nothing was
      due any more. */
  ghost predicate Pays(c: CounterState, c': CounterState, id: Uuid, due: real, reclaim: bool)
    requires id in c.reservations
  {
    var r := c.reservations[id];
    var taken := if due <= 0.0 then 0.0 else MinReal(r.value, due);
    c' == c.(balance := c.balance - taken,
             reservations := if reclaim || due <= 0.0 || taken == r.value then c.reservations - {id}
                             else c.reservations[id := r.(value := r.value - taken)])
  }

  function ValueBefore(cs: seq<CounterState>, order: seq<nat>, id: Uuid, k: nat): real
    requires Reserved(cs, order, id) && k <= |order|
  {
    if k == 0 then 0.0 else ValueBefore(cs, order, id, k - 1) + cs[order[k - 1]].reservations[id].value
  }

  lemma CounterPays(c: CounterState, id: Uuid, due: real, reclaim: bool)
    requires Solvent(c) && c.unitType == MONETARY && id in c.reservations
    ensures var d, v := DebitValue(c, id, due, reclaim), c.reservations[id].value;
            && Pays(c, d.counter, id, due, reclaim) && v > 0.0
            && d.journal == (if due > 0.0 then [UsageEntry(c, d.counter, id)] else [])
            && (due > 0.0 ==> d.left == if due <= v then 0.0 else due - v) && (due <= 0.0 ==> d.left == due)
  {
    DebitValueSolvent(c, id, due, reclaim);
    assert SoundReservation(c.unitType, c.reservations[id]);
  }

  lemma {:induction false} ValueBeforeShifts(cs: seq<CounterState>, cs1: seq<CounterState>, order: seq<nat>, id: Uuid,
                                             k: nat)
    requires Reserved(cs, order, id) && 0 < k <= |order| && Reserved(cs1, order[1..], id)
    requires forall j :: 0 < j < |order| ==> cs1[order[j]] == cs[order[j]]
    ensures ValueBefore(cs, order, id, k)
            == cs[order[0]].reservations[id].value + ValueBefore(cs1, order[1..], id, k - 1)
    decreases k
  {
    if k > 1 { ValueBeforeShifts(cs, cs1, order, id, k - 1); }
  }

  lemma {:induction false} DebitValueElsewhere(cs: seq<CounterState>, order: seq<nat>, id: Uuid, due: real,
                                               reclaim: bool)
    requires Reserved(cs, order, id)
    ensures var d := DebitValueAlong(cs, order, id, due, reclaim);
            |d.counters| == |cs| && forall i :: 0 <= i < |cs| && i !in order ==> d.counters[i] == cs[i]
    decreases |order|
  {
    if order != [] {
      var d := DebitValue(cs[order[0]], id, due, reclaim);
      DebitValueElsewhere(cs[order[0] := d.counter], order[1..], id, d.left, reclaim);
    }
  }

  lemma FirstPays(cs: seq<CounterState>, order: seq<nat>, id: Uuid, due: real, reclaim: bool)
    requires Sound(cs) && Reserved(cs, order, id) && order != []
    requires forall k :: 0 <= k < |order| ==> cs[order[k]].unitType == MONETARY
    ensures var c, d := cs[order[0]], DebitValue(cs[order[0]], id, due, reclaim);
            var cs1 := cs[order[0] := d.counter];
            && Pays(c, d.counter, id, due, reclaim) && c.reservations[id].value > 0.0
            && d.journal == (if due > 0.0 then [UsageEntry(c, d.counter, id)] else [])
            && (due > 0.0 ==> d.left == if due <= c.reservations[id].value then 0.0 else due - c.reservations[id].value)
            && (due <= 0.0 ==> d.left == due)
            && Sound(cs1) && Reserved(cs1, order[1..], id)
            && (forall k :: 0 < k < |order| ==> cs1[order[k]] == cs[order[k]])
            && var d' := DebitValueAlong(cs1, order[1..], id, d.left, reclaim);
               |d'.counters| == |cs| && d'.counters[order[0]] == d.counter
  {
    hide Pays, DebitValue, Sound, Solvent, Reserved;
    FirstSolvent(cs, order, id);
    var d := DebitValue(cs[order[0]], id, due, reclaim);
    CounterPays(cs[order[0]], id, due, reclaim);
    DebitValueSolvent(cs[order[0]], id, due, reclaim);
    OthersStay(cs, order, id, d.counter);
    DebitValueElsewhere(cs[order[0] := d.counter], order[1..], id, d.left, reclaim);
  }

  /** Each monetary counter visited pays what those before it could not. */
  lemma {:induction false} ValueDrawnExactly(cs: seq<CounterState>, order: seq<nat>, id: Uuid, due: real, reclaim: bool,
                                             k: nat)
    requires Sound(cs) && Reserved(cs, order, id) && k < |order|
    requires forall j :: 0 <= j < |order| ==> cs[order[j]].unitType == MONETARY
    ensures var d := DebitValueAlong(cs, order, id, due, reclaim);
            && |d.counters| == |cs|
            && Pays(cs[order[k]], d.counters[order[k]], id, due - ValueBefore(cs, order, id, k), reclaim)
    decreases |order|
  {
    hide Pays, DebitValue, Sound, UsageEntry;
    var d := DebitValue(cs[order[0]], id, due, reclaim);
    var cs1 := cs[order[0] := d.counter];
    DebitValueElsewhere(cs, order, id, due, reclaim);
    FirstPays(cs, order, id, due, reclaim);
    if k > 0 {
      assert forall j :: 0 <= j < |order[1..]| ==> order[1..][j] == order[j + 1];
      ValueDrawnExactly(cs1, order[1..], id, d.left, reclaim, k - 1);
      ValueBeforeShifts(cs, cs1, order, id, k);
      ValueBeforePositive(cs1, order[1..], id, k - 1);
      PaysAlike(cs[order[k]], DebitValueAlong(cs, order, id, due, reclaim).counters[order[k]], id,
                d.left - ValueBefore(cs1, order[1..], id, k - 1), due - ValueBefore(cs, order, id, k), reclaim);
    }
  }

  /** An entry is posted for each of them as long as anything is due. */
  lemma {:induction false} ValuePostedExactly(cs: seq<CounterState>, order: seq<nat>, id: Uuid, due: real,
                                              reclaim: bool,
                                              k: nat)
    requires Sound(cs) && Reserved(cs, order, id) && k < |order|
    requires forall j :: 0 <= j < |order| ==> cs[order[j]].unitType == MONETARY
    ensures var d := DebitValueAlong(cs, order, id, due, reclaim);
            && |d.counters| == |cs| && (k < |d.journal| <==> due > ValueBefore(cs, order, id, k))
            && (k < |d.journal| ==> d.journal[k] == UsageEntry(cs[order[k]], d.counters[order[k]], id))
    decreases |order|
  {
    hide Pays, DebitValue, Sound, UsageEntry, Reserved, ValueBefore;
    DebitValueElsewhere(cs, order, id, due, reclaim);
    FirstSolvent(cs, order, id);
    var d := DebitValue(cs[order[0]], id, due, reclaim);
    var cs1 := cs[order[0] := d.counter];
    FirstPays(cs, order, id, due, reclaim);
    NoValueBefore(cs, order, id);
    if due <= 0.0 {
      NothingPosted(cs, order, id, due, reclaim);
      ValueBeforePositive(cs, order, id, k);
    } else if k > 0 {
      assert forall j :: 0 <= j < |order[1..]| ==> order[1..][j] == order[j + 1];
      ValuePostedExactly(cs1, order[1..], id, d.left, reclaim, k - 1);
      ValueBeforeShifts(cs, cs1, order, id, k);
      ValueBeforePositive(cs1, order[1..], id, k - 1);
    }
  }

  lemma NoValueBefore(cs: seq<CounterState>, order: seq<nat>, id: Uuid)
    requires Reserved(cs, order, id)
    ensures ValueBefore(cs, order, id, 0) == 0.0
  {}

  lemma {:induction false} NothingPosted(cs: seq<CounterState>, order: seq<nat>, id: Uuid, due: real, reclaim: bool)
    requires Reserved(cs, order, id) && due <= 0.0
    ensures DebitValueAlong(cs, order, id, due, reclaim).journal == []
    decreases |order|
  {
    if order != [] {
      var d := DebitValue(cs[order[0]], id, due, reclaim);
      NothingPosted(cs[order[0] := d.counter], order[1..], id, d.left, reclaim);
    }
  }

  lemma PaysAlike(c: CounterState, c': CounterState, id: Uuid, due: real, due': real, reclaim: bool)
    requires id in c.reservations && (due == due' || (due <= 0.0 && due' <= 0.0))
    requires Pays(c, c', id, due, reclaim)
    ensures Pays(c, c', id, due', reclaim)
  {}

  lemma {:induction false} ValueBeforePositive(cs: seq<CounterState>, order: seq<nat>, id: Uuid, k: nat)
    requires Sound(cs) && Reserved(cs, order, id) && k <= |order|
    requires forall j :: 0 <= j < |order| ==> cs[order[j]].unitType == MONETARY
    ensures ValueBefore(cs, order, id, k) >= 0.0
  {
    if k > 0 {
      ValueBeforePositive(cs, order, id, k - 1);
      assert Solvent(cs[order[k - 1]]);
    }
  }

  // ---- what is reported ----

  /** The price of units with multiplier and tax. */
  function Due(terms: Terms, n: int): real {
    terms.unitPrice * terms.multiplier * n as real * (1.0 + terms.taxRate)
  }

  /** The price of one unit with the multiplier, and without tax. */
  function NetPrice(terms: Terms): real {
    terms.multiplier * terms.unitPrice
  }

  /** Of what is due and not held, the units are unaccounted for that it comes to at a price, rounded down. */
  predicate ShortOf(unaccounted: int, due: real, held: real, price: real) {
    && unaccounted >= 0
    && if due - held < price then unaccounted == 0
       else unaccounted as real * price <= due - held < (unaccounted + 1) as real * price
  }

  lemma MoneySays(terms: Terms, n: int, debited: real, left: real, due: real, held: real)
    requires terms.unitPrice > 0.0 && terms.multiplier > 0.0 && left == Excess(due, held)
    ensures var r := MoneyResponse(terms, n, debited, left);
            && ShortOf(r.unaccountedUnits, due, held, NetPrice(terms))
            && r.unitsDebited == r.valueUnits == n - r.unaccountedUnits && r.unitsValue == debited
  {
    hide IntPart, Quotient;
    Positive(terms.multiplier, terms.unitPrice);
    if left > 0.0 {
      UnitsShort(left, terms.multiplier, terms.unitPrice);
      AtLeastOne(terms.multiplier * terms.unitPrice, left,
                 IntPart(Quotient(Quotient(left, terms.multiplier), terms.unitPrice)));
    }
  }

  lemma MoneyHeld(cs: seq<CounterState>, v: Visit, id: Uuid, t: UnitType)
    requires Sound(cs) && DebitVisit(cs, v, id, t) && v.monetary != []
    ensures CanDebit(cs, v, id, t)
    ensures var terms := cs[v.monetary[0]].reservations[id].terms;
            terms.unitPrice > 0.0 && terms.multiplier > 0.0 && terms.taxRate >= 0.0
  {
    DebitDefined(cs, v, id, t);
    assert Solvent(cs[v.monetary[0]]) && SoundReservation(MONETARY, cs[v.monetary[0]].reservations[id]);
  }

  /** The units that the service counters leave over are paid with what is reserved in money: what is due for them is
      their price with multiplier and tax. What the money does not cover is reported in units, at the price with the
      multiplier and rounded down; the others count as debited. */
  lemma MoneyReportedExactly(cs: seq<CounterState>, v: Visit, id: Uuid, used: int, t: UnitType, reclaim: bool)
    requires Sound(cs) && DebitVisit(cs, v, id, t) && used > 0 && v.monetary != []
    ensures CanDebit(cs, v, id, t)
    ensures var left, terms := ServicePart(cs, v, id, used, t, reclaim).left, cs[v.monetary[0]].reservations[id].terms;
            var due, held, r := Due(terms, left), SlotValue(Slots(cs, id)),
                DebitOp(cs, v, id, used, t, reclaim).response;
            if left > 0 then
              && ShortOf(r.unaccountedUnits, due, held, NetPrice(terms)) && r.unitsValue == MinReal(due, held)
              && r.unitsDebited == used - r.unaccountedUnits && r.valueUnits == left - r.unaccountedUnits
            else r == DebitResponse(used, 0.0, 0, 0)
  {
    hide Slots, DebitUnitsAlong, DebitValueAlong, MoneyResponse, RemainingValue, ShortOf, ServicePart, Due, NetPrice;
    MoneyHeld(cs, v, id, t);
    ServicePartSound(cs, v, id, used, t, reclaim);
    var left, terms := ServicePart(cs, v, id, used, t, reclaim).left, cs[v.monetary[0]].reservations[id].terms;
    if left > 0 {
      DueExactly(terms, left);
      ValueLeftOver(cs, v, id, used, t, reclaim);
      DebitConserves(cs, v, id, used, t, reclaim);
      var m := MoneyPart(cs, v, id, used, t, reclaim);
      MoneySays(terms, left, m.debited, m.left, RemainingValue(terms, left), SlotValue(Slots(cs, id)));
    }
  }

  lemma Positive(a: real, b: real)
    requires a > 0.0 && b > 0.0
    ensures a * b > 0.0
  {}

  lemma AtLeastOne(price: real, short: real, k: int)
    requires price > 0.0 && k >= 0
    ensures k as real * price <= short < price ==> k == 0
  {
    if k >= 1 { assert k as real * price >= price; }
  }

  lemma DueExactly(terms: Terms, n: int)
    requires terms.unitPrice > 0.0 && terms.multiplier > 0.0 && terms.taxRate >= 0.0 && n > 0
    ensures RemainingValue(terms, n) == Due(terms, n) > 0.0
  {
    Positive(terms.unitPrice, terms.multiplier);
    Positive(terms.unitPrice * terms.multiplier, n as real);
    Positive(terms.unitPrice * terms.multiplier * n as real, 1.0 + terms.taxRate);
  }
}
