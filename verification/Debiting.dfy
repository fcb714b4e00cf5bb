/** What a debit takes: where every used unit and every unit of money goes. */
module Debiting {
  import opened Basics
  import opened Charging
  import opened Ledger
  import opened QuotaOps
  import opened Solvency
  import opened Journal
  import opened Reserving

  // ---- the journal ----

  lemma {:induction false} DebitUnitsExplained(cs: seq<CounterState>, order: seq<nat>, id: Uuid, remaining: int,
                                               reclaim: bool)
    requires Sound(cs) && Reserved(cs, order, id) && remaining >= 0
    requires forall k :: 0 <= k < |order| ==>
               cs[order[k]].unitType != MONETARY && IsUsage(cs[order[k]].reservations[id].terms.reason)
    ensures var d := DebitUnitsAlong(cs, order, id, remaining, reclaim); Explains(cs, d.journal, d.counters)
    decreases |order|
  {
    if order == [] {
      ExplainsQuiet(cs, cs);
    } else {
      var d := DebitUnits(cs[order[0]], id, remaining, reclaim);
      var cs1 := cs[order[0] := d.counter];
      DebitUnitsSolvent(cs[order[0]], id, remaining, reclaim);
      ExplainsEntry(cs, order[0], d.counter, d.entry);
      DebitUnitsExplained(cs1, order[1..], id, d.left, reclaim);
      var rest := DebitUnitsAlong(cs1, order[1..], id, d.left, reclaim);
      ExplainsTrans(cs, [d.entry], cs1, rest.journal, rest.counters);
    }
  }

  lemma DebitValueStep(cs: seq<CounterState>, p: nat, id: Uuid, remaining: real, reclaim: bool)
    requires Sound(cs) && p < |cs| && cs[p].unitType == MONETARY && id in cs[p].reservations
    requires IsUsage(cs[p].reservations[id].terms.reason)
    ensures var d := DebitValue(cs[p], id, remaining, reclaim); Explains(cs, d.journal, cs[p := d.counter])
  {
    var d := DebitValue(cs[p], id, remaining, reclaim);
    DebitValueSolvent(cs[p], id, remaining, reclaim);
    if d.journal == [] {
      ExplainsQuiet(cs, cs[p := d.counter]);
    } else {
      ExplainsEntry(cs, p, d.counter, d.journal[0]);
    }
  }

  lemma {:induction false} DebitValueExplained(cs: seq<CounterState>, order: seq<nat>, id: Uuid, remaining: real,
                                               reclaim: bool)
    requires Sound(cs) && Reserved(cs, order, id)
    requires forall k :: 0 <= k < |order| ==>
               cs[order[k]].unitType == MONETARY && IsUsage(cs[order[k]].reservations[id].terms.reason)
    ensures var d := DebitValueAlong(cs, order, id, remaining, reclaim); Explains(cs, d.journal, d.counters)
    decreases |order|
  {
    if order == [] {
      ExplainsQuiet(cs, cs);
    } else {
      var d := DebitValue(cs[order[0]], id, remaining, reclaim);
      var cs1 := cs[order[0] := d.counter];
      DebitValueSolvent(cs[order[0]], id, remaining, reclaim);
      DebitValueStep(cs, order[0], id, remaining, reclaim);
      DebitValueExplained(cs1, order[1..], id, d.left, reclaim);
      var rest := DebitValueAlong(cs1, order[1..], id, d.left, reclaim);
      ExplainsTrans(cs, d.journal, cs1, rest.journal, rest.counters);
    }
  }

  // ---- conservation ----

  ghost function BalanceOf(t: UnitType): CounterState -> real {
    (c: CounterState) => if c.unitType == t then c.balance else 0.0
  }

  /** Money in equals money out: what is collected and what is missing make up the amount asked
      for, and the monetary balances fall by exactly what is collected. */
  lemma {:induction false} ValueConserved(cs: seq<CounterState>, order: seq<nat>, id: Uuid, remaining: real,
                                          reclaim: bool)
    requires Sound(cs) && Reserved(cs, order, id)
    requires forall k :: 0 <= k < |order| ==> cs[order[k]].unitType == MONETARY
    ensures var d := DebitValueAlong(cs, order, id, remaining, reclaim);
            && d.debited + d.left == remaining && d.debited >= 0.0
            && Total(d.counters, BalanceOf(MONETARY)) == Total(cs, BalanceOf(MONETARY)) - d.debited
    decreases |order|
  {
    if order != [] {
      var d := DebitValue(cs[order[0]], id, remaining, reclaim);
      DebitValueSolvent(cs[order[0]], id, remaining, reclaim);
      TotalUpdate(cs, order[0], d.counter, BalanceOf(MONETARY));
      ValueConserved(cs[order[0] := d.counter], order[1..], id, d.left, reclaim);
    }
  }

  lemma ScaledWhole(m: int, n: int)
    ensures Scaled(m as real, n) == m * n
  {
    assert Mul(m as real, n as real) == (m * n) as real;
  }

  /** Removing a whole multiplier rounds down by less than one unit. */
  lemma UnscaledWhole(m: int, n: int)
    requires m >= 1 && n >= 0
    ensures var u := Unscaled(m as real, n); m * u <= n <= m * u + m - 1
  {
    var u := Unscaled(m as real, n);
    WholeUnits(n as real, m as real, Quotient(n as real, m as real), u + 1);
    assert Mul(u as real, m as real) == (m * u) as real;
    assert Mul((u + 1) as real, m as real) == (m * (u + 1)) as real;
  }

  /** Each position holds a service reservation of type `t` made with multiplier `m`. */
  predicate Multiplied(cs: seq<CounterState>, order: seq<nat>, id: Uuid, t: UnitType, m: real) {
    && Reserved(cs, order, id) && t != MONETARY
    && forall k :: 0 <= k < |order| ==>
          cs[order[k]].unitType == t && cs[order[k]].reservations[id].terms.multiplier == m
  }

  /** Debiting the first position leaves the others as they were. */
  lemma DebitedOnce(cs: seq<CounterState>, order: seq<nat>, id: Uuid, used: int, reclaim: bool, t: UnitType, m: real)
    requires Sound(cs) && order != [] && used >= 0 && Multiplied(cs, order, id, t, m)
    ensures var d := DebitUnits(cs[order[0]], id, used, reclaim);
            && Sound(cs[order[0] := d.counter]) && d.left >= 0
            && Multiplied(cs[order[0] := d.counter], order[1..], id, t, m)
  {
    DebitUnitsSolvent(cs[order[0]], id, used, reclaim);
  }

  ghost predicate Drawable(c: CounterState, id: Uuid, t: UnitType, m: real, used: int) {
    Solvent(c) && Holding(c, id, t) && c.reservations[id].terms.multiplier == m > 0.0 && used >= 0
  }

  /** Measured by `worth`, the units a counter accounts for are worth what its balance loses, and at
      most `slack` more. */
  ghost predicate WorthWithin(c: CounterState, id: Uuid, used: int, reclaim: bool, worth: int -> real, slack: real)
    requires id in c.reservations && c.reservations[id].terms.multiplier != 0.0
  {
    var d := DebitUnits(c, id, used, reclaim);
    0.0 <= worth(used) - worth(d.left) - (c.balance - d.counter.balance) <= slack
  }

  /** The slack of one counter adds up over the counters visited. */
  lemma {:induction false} WorthAlong(cs: seq<CounterState>, order: seq<nat>, id: Uuid, used: int, reclaim: bool,
                                      t: UnitType, m: real, worth: int -> real, slack: real)
    requires Sound(cs) && used >= 0 && Multiplied(cs, order, id, t, m) && m > 0.0
    requires forall c, n :: Drawable(c, id, t, m, n) ==> WorthWithin(c, id, n, reclaim, worth, slack)
    ensures var d := DebitUnitsAlong(cs, order, id, used, reclaim);
            var lost := Total(cs, BalanceOf(t)) - Total(d.counters, BalanceOf(t));
            0.0 <= worth(used) - worth(d.left) - lost <= Mul(|order| as real, slack)
    decreases |order|
  {
    hide Solvent;
    if order != [] {
      var d := DebitUnits(cs[order[0]], id, used, reclaim);
      DebitedOnce(cs, order, id, used, reclaim, t, m);
      assert Drawable(cs[order[0]], id, t, m, used);
      TotalUpdate(cs, order[0], d.counter, BalanceOf(t));
      WorthAlong(cs[order[0] := d.counter], order[1..], id, d.left, reclaim, t, m, worth, slack);
      MulLinear(slack, |order| as real, 1.0);
    } else {
      MulLinear(slack, 0.0, 0.0);
    }
  }

  function Whole(m: int): int -> real {
    n => (m * n) as real
  }

  lemma MultipliedStep(c: CounterState, id: Uuid, used: int, reclaim: bool, m: int)
    requires Solvent(c) && id in c.reservations && c.unitType != MONETARY && used >= 0 && m >= 1
    requires c.reservations[id].terms.multiplier == m as real
    ensures WorthWithin(c, id, used, reclaim, Whole(m), (m - 1) as real)
  {
    DebitUnitsSolvent(c, id, used, reclaim);
    ScaledWhole(m, used);
    UnscaledWhole(m, m * used - Min(c.reservations[id].units, m * used));
  }

  /** With a whole multiplier m on every reservation and k counters visited, the units reported as
      debited, multiplied, exceed what the balances lost by at most k * (m - 1). */
  lemma {:induction false} MultipliedDebit(cs: seq<CounterState>, order: seq<nat>, id: Uuid, used: int, reclaim: bool,
                                           m: int, t: UnitType)
    requires Sound(cs) && used >= 0 && m >= 1 && Multiplied(cs, order, id, t, m as real)
    ensures var d := DebitUnitsAlong(cs, order, id, used, reclaim);
            var lost := Total(cs, BalanceOf(t)) - Total(d.counters, BalanceOf(t));
            0.0 <= (m * used) as real - (m * d.left) as real - lost <= Mul(|order| as real, (m - 1) as real)
  {
    var multiplier := m as real;
    forall c, n | Drawable(c, id, t, multiplier, n)
      ensures WorthWithin(c, id, n, reclaim, Whole(m), (m - 1) as real)
    {
      MultipliedStep(c, id, n, reclaim, m);
    }
    WorthAlong(cs, order, id, used, reclaim, t, multiplier, Whole(m), (m - 1) as real);
  }

  // ---- multiplier one: debits are exact ----

  ghost function UnitsUnder(id: Uuid, t: UnitType): CounterState -> real {
    (c: CounterState) => if Holding(c, id, t) then c.reservations[id].units as real else 0.0
  }

  lemma UnscaledByOne(n: int)
    ensures Unscaled(1.0, n) == n
  {}

  function Excess(asked: real, held: real): real {
    if asked <= held then 0.0 else asked - held
  }

  lemma ExactStep(c: CounterState, id: Uuid, used: int, reclaim: bool, t: UnitType)
    requires Solvent(c) && Holding(c, id, t) && t != MONETARY && used >= 0 && c.reservations[id].terms.multiplier == 1.0
    ensures var d := DebitUnits(c, id, used, reclaim);
            && d.left as real == Excess(used as real, UnitsUnder(id, t)(c))
            && UnitsUnder(id, t)(d.counter) == if reclaim then 0.0 else UnitsUnder(id, t)(c) - (used - d.left) as real
  {
    ScaledByOne(used);
    UnscaledByOne(used - Min(c.reservations[id].units, used));
  }

  lemma {:induction false} UnitsUnderAlongNonNegative(cs: seq<CounterState>, order: seq<nat>, id: Uuid, t: UnitType)
    requires Sound(cs) && Positions(order, |cs|)
    ensures SumAlong(Weights(cs, UnitsUnder(id, t)), order) >= 0.0
    ensures SumAlong(Weights(cs, ValueUnder(id)), order) >= 0.0
  {
    if order != [] {
      UnitsUnderAlongNonNegative(cs, order[1..], id, t);
      assert Solvent(cs[order[0]]);
    }
  }

  /** With multiplier one a service debit leaves over exactly what exceeds the reservations, and
      takes exactly what it debits, or with `reclaim` everything, out of them. */
  lemma {:induction false} ExactAlong(cs: seq<CounterState>, order: seq<nat>, id: Uuid, used: int, reclaim: bool,
                                      t: UnitType)
    requires Sound(cs) && used >= 0 && Multiplied(cs, order, id, t, 1.0)
    ensures var d, held := DebitUnitsAlong(cs, order, id, used, reclaim),
            SumAlong(Weights(cs, UnitsUnder(id, t)), order);
            && d.left as real == Excess(used as real, held)
            && Total(d.counters, UnitsUnder(id, t))
               == Total(cs, UnitsUnder(id, t)) - if reclaim then held else (used - d.left) as real
    decreases |order|
  {
    if order != [] {
      var d := DebitUnits(cs[order[0]], id, used, reclaim);
      var cs1 := cs[order[0] := d.counter];
      ExactStep(cs[order[0]], id, used, reclaim, t);
      DebitedOnce(cs, order, id, used, reclaim, t, 1.0);
      SumAfter(cs, order, d.counter, UnitsUnder(id, t));
      TotalUpdate(cs, order[0], d.counter, UnitsUnder(id, t));
      UnitsUnderAlongNonNegative(cs1, order[1..], id, t);
      assert Solvent(cs[order[0]]);
      ExactAlong(cs1, order[1..], id, d.left, reclaim, t);
    }
  }

  lemma {:induction false} ValueOnce(cs: seq<CounterState>, order: seq<nat>, id: Uuid, remaining: real, reclaim: bool)
    requires Sound(cs) && order != [] && Reserved(cs, order, id)
    requires forall k :: 0 <= k < |order| ==> cs[order[k]].unitType == MONETARY
    ensures var d := DebitValue(cs[order[0]], id, remaining, reclaim);
            var cs1 := cs[order[0] := d.counter];
            && Sound(cs1) && Reserved(cs1, order[1..], id)
            && (remaining >= 0.0 ==> d.left == Excess(remaining, ValueUnder(id)(cs[order[0]])))
            && SumAlong(Weights(cs1, ValueUnder(id)), order[1..])
               == SumAlong(Weights(cs, ValueUnder(id)), order) - ValueUnder(id)(cs[order[0]])
  {
    var d := DebitValue(cs[order[0]], id, remaining, reclaim);
    DebitValueSolvent(cs[order[0]], id, remaining, reclaim);
    assert SoundReservation(MONETARY, cs[order[0]].reservations[id]);
    SumAfter(cs, order, d.counter, ValueUnder(id));
  }

  /** A monetary debit leaves over exactly what exceeds the value reserved. */
  lemma {:induction false} ValueExactAlong(cs: seq<CounterState>, order: seq<nat>, id: Uuid, remaining: real,
                                           reclaim: bool)
    requires Sound(cs) && Reserved(cs, order, id) && remaining >= 0.0
    requires forall k :: 0 <= k < |order| ==> cs[order[k]].unitType == MONETARY
    ensures DebitValueAlong(cs, order, id, remaining, reclaim).left
            == Excess(remaining, SumAlong(Weights(cs, ValueUnder(id)), order))
    decreases |order|
  {
    if order != [] {
      var d := DebitValue(cs[order[0]], id, remaining, reclaim);
      var cs1 := cs[order[0] := d.counter];
      ValueOnce(cs, order, id, remaining, reclaim);
      UnitsUnderAlongNonNegative(cs, [order[0]], id, MONETARY);
      UnitsUnderAlongNonNegative(cs1, order[1..], id, MONETARY);
      ValueExactAlong(cs1, order[1..], id, d.left, reclaim);
    }
  }

  // ---- the whole operation ----

  /** The lists of counters that Debit works through. */
  ghost predicate DebitVisit(cs: seq<CounterState>, v: Visit, id: Uuid, unitType: UnitType) {
    Picks(cs, v.service, HoldingFor(id, unitType)) && Picks(cs, v.monetary, HoldingFor(id, MONETARY))
  }

  lemma PickedHold(cs: seq<CounterState>, order: seq<nat>, id: Uuid, t: UnitType)
    requires Sound(cs) && Picks(cs, order, HoldingFor(id, t))
    ensures Reserved(cs, order, id)
    ensures forall k :: 0 <= k < |order| ==> Holding(cs[order[k]], id, t)
  {
    forall k | 0 <= k < |order|
      ensures Holding(cs[order[k]], id, t) && SoundReservation(t, cs[order[k]].reservations[id]) {
      assert order[k] in order;
      assert Solvent(cs[order[k]]);
    }
  }

  /** On a sound quota a debit never divides by zero. */
  lemma DebitDefined(cs: seq<CounterState>, v: Visit, id: Uuid, unitType: UnitType)
    requires Sound(cs) && DebitVisit(cs, v, id, unitType)
    ensures CanDebit(cs, v, id, unitType)
    ensures forall k :: 0 <= k < |v.service| ==> Holding(cs[v.service[k]], id, unitType)
    ensures forall k :: 0 <= k < |v.monetary| ==> Holding(cs[v.monetary[k]], id, MONETARY)
  {
    PickedHold(cs, v.service, id, unitType);
    PickedHold(cs, v.monetary, id, MONETARY);
    forall k | 0 <= k < |v.monetary| ensures cs[v.monetary[k]].reservations[id].terms.unitPrice != 0.0 {
      assert Solvent(cs[v.monetary[k]]) && Holding(cs[v.monetary[k]], id, MONETARY);
    }
  }

  /** The service part leaves money alone. */
  lemma {:induction false} ServicePartSound(cs: seq<CounterState>, v: Visit, id: Uuid, used: int, unitType: UnitType,
                                            reclaim: bool)
    requires Sound(cs) && DebitVisit(cs, v, id, unitType) && CanDebit(cs, v, id, unitType) && used >= 0
    ensures var s := ServicePart(cs, v, id, used, unitType, reclaim);
            && Sound(s.counters) && s.left >= 0
            && (forall i :: 0 <= i < |cs| ==>
                  OnlyDebits(cs[i], s.counters[i], id) && TermsFrom(cs[i], s.counters[i], id, None))
            && (forall i :: 0 <= i < |cs| && cs[i].unitType == MONETARY ==> s.counters[i] == cs[i])
            && Total(s.counters, BalanceOf(MONETARY)) == Total(cs, BalanceOf(MONETARY))
  {
    var s := ServicePart(cs, v, id, used, unitType, reclaim);
    if unitType != MONETARY {
      DebitDefined(cs, v, id, unitType);
      DebitUnitsSound(cs, v.service, id, used, reclaim);
      DebitUnitsElsewhere(cs, v.service, id, used, reclaim);
      forall i | 0 <= i < |cs| && cs[i].unitType == MONETARY ensures s.counters[i] == cs[i] {
        assert i !in v.service;
      }
      assert Weights(s.counters, BalanceOf(MONETARY)) == Weights(cs, BalanceOf(MONETARY));
    }
  }

  /** The value asked of the monetary counters, and what they could not cover. */
  ghost function ValueDue(cs: seq<CounterState>, v: Visit, id: Uuid, used: int, unitType: UnitType, reclaim: bool): real
    requires CanDebit(cs, v, id, unitType) && v.monetary != []
  {
    RemainingValue(cs[v.monetary[0]].reservations[id].terms, ServicePart(cs, v, id, used, unitType, reclaim).left)
  }

  ghost function MoneyPart(cs: seq<CounterState>, v: Visit, id: Uuid, used: int, unitType: UnitType,
                           reclaim: bool): MoneyDebit
    requires CanDebit(cs, v, id, unitType) && v.monetary != []
  {
    DebitValueAlong(ServicePart(cs, v, id, used, unitType, reclaim).counters, v.monetary, id,
                    ValueDue(cs, v, id, used, unitType, reclaim), reclaim)
  }

  lemma MoneyPartSound(cs: seq<CounterState>, v: Visit, id: Uuid, used: int, unitType: UnitType, reclaim: bool)
    requires Sound(cs) && DebitVisit(cs, v, id, unitType) && CanDebit(cs, v, id, unitType) && used >= 0
    requires v.monetary != []
    ensures var m := MoneyPart(cs, v, id, used, unitType, reclaim);
            && |m.counters| == |cs| && Sound(m.counters)
            && (forall i :: 0 <= i < |cs| ==>
                  OnlyDebits(cs[i], m.counters[i], id) && TermsFrom(cs[i], m.counters[i], id, None))
            && m.debited + m.left == ValueDue(cs, v, id, used, unitType, reclaim)
            && Total(m.counters, BalanceOf(MONETARY)) == Total(cs, BalanceOf(MONETARY)) - m.debited
  {
    hide DebitUnitsAlong, DebitValueAlong;
    DebitDefined(cs, v, id, unitType);
    ServicePartSound(cs, v, id, used, unitType, reclaim);
    var s := ServicePart(cs, v, id, used, unitType, reclaim);
    var due := ValueDue(cs, v, id, used, unitType, reclaim);
    DebitValueSound(s.counters, v.monetary, id, due, reclaim);
    ValueConserved(s.counters, v.monetary, id, due, reclaim);
  }

  /** Every used unit is either debited or reported unaccounted for. When monetary reservations are
      drawn on, the value reported plus what they could not cover is the price of the units left
      over by the service counters, and the monetary balances fall by exactly the value reported;
      otherwise no money moves. The quota stays sound and other reservations stay as they were. */
  lemma DebitConserves(cs: seq<CounterState>, v: Visit, id: Uuid, used: int, unitType: UnitType, reclaim: bool)
    requires Sound(cs) && DebitVisit(cs, v, id, unitType) && CanDebit(cs, v, id, unitType) && used >= 0
    ensures var r := DebitOp(cs, v, id, used, unitType, reclaim);
            var s := ServicePart(cs, v, id, used, unitType, reclaim);
            && r.response.unitsDebited + r.response.unaccountedUnits == used
            && Total(r.counters, BalanceOf(MONETARY)) == Total(cs, BalanceOf(MONETARY)) - r.response.unitsValue
            && (if s.left > 0 && v.monetary != [] then
                  r.response.unitsValue + MoneyPart(cs, v, id, used, unitType, reclaim).left
                  == RemainingValue(cs[v.monetary[0]].reservations[id].terms, s.left)
                else r.response.unitsValue == 0.0)
            && |r.counters| == |cs| && Sound(r.counters)
            && forall i :: 0 <= i < |cs| ==>
                  OnlyDebits(cs[i], r.counters[i], id) && TermsFrom(cs[i], r.counters[i], id, None)
  {
    ServicePartSound(cs, v, id, used, unitType, reclaim);
    if v.monetary != [] { MoneyPartSound(cs, v, id, used, unitType, reclaim); }
  }

  /** Usage posted by a debit accounts for the balances it changed. */
  lemma DebitExplained(cs: seq<CounterState>, v: Visit, id: Uuid, used: int, unitType: UnitType, reclaim: bool)
    requires Sound(cs) && UsageReasons(cs) && DebitVisit(cs, v, id, unitType) && CanDebit(cs, v, id, unitType)
    requires used >= 0
    ensures var r := DebitOp(cs, v, id, used, unitType, reclaim); Explains(cs, r.journal, r.counters)
  {
    hide DebitUnitsAlong, DebitValueAlong;
    DebitDefined(cs, v, id, unitType);
    ServicePartSound(cs, v, id, used, unitType, reclaim);
    var s := ServicePart(cs, v, id, used, unitType, reclaim);
    if unitType == MONETARY {
      ExplainsQuiet(cs, cs);
    } else {
      DebitUnitsExplained(cs, v.service, id, used, reclaim);
    }
    if s.left > 0 && v.monetary != [] {
      var due := ValueDue(cs, v, id, used, unitType, reclaim);
      var m := MoneyPart(cs, v, id, used, unitType, reclaim);
      DebitValueExplained(s.counters, v.monetary, id, due, reclaim);
      ExplainsTrans(cs, s.journal, s.counters, m.journal, m.counters);
    }
  }
}
