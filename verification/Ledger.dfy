/** The values a subscriber's quota is made of, and what it means for them to be solvent. */
module Ledger {
  import opened Basics
  import opened Charging

  datatype Reason =
    | QUOTA_PROVISIONED | SERVICE_USAGE | CONVERSION | TRANSFER_IN
    | TRANSFER_OUT | LOAN_REPAYMENT | TRANSACTION_FEE | QUOTA_EXPIRY

  /** The part of a reservation fixed when it is made. */
  datatype Terms = Terms(unitPrice: real, multiplier: real, taxRate: real, reason: Reason, expiry: Time)

  /** Units are reserved on service counters, value on monetary ones. */
  datatype Reservation = Reservation(units: int, value: real, terms: Terms)

  datatype Loan = Loan(transactFee: real, loanBalance: real, minRepayment: real, clawbackPercentage: real)

  datatype CounterState = CounterState(
    id: Uuid,
    unitType: UnitType,
    priority: int,
    balance: real,
    expiry: Option<Time>,
    reservations: map<Uuid, Reservation>,
    canConvert: bool,
    keys: seq<RateKey>,
    loan: Option<Loan>)

  /** One quota-journal event: `adjusted` is AdjustedUnits, `balance` the balance after it. */
  datatype Entry = Entry(counter: Uuid, reason: Reason, adjusted: real, balance: real)

  // ---- what the live reservations of one counter hold ----

  ghost function UnitsHeld(m: map<Uuid, Reservation>): int {
    if m == map[] then 0 else var k :| k in m; m[k].units + UnitsHeld(m - {k})
  }

  ghost function ValueHeld(m: map<Uuid, Reservation>): real {
    if m == map[] then 0.0 else var k :| k in m; m[k].value + ValueHeld(m - {k})
  }

  /** The sums do not depend on the order in which the map is walked. */
  lemma {:induction false} HeldSplit(m: map<Uuid, Reservation>, k: Uuid)
    requires k in m
    ensures UnitsHeld(m) == m[k].units + UnitsHeld(m - {k})
    ensures ValueHeld(m) == m[k].value + ValueHeld(m - {k})
    decreases |m|
  {
    UnitsSplit(m, k);
    ValueSplit(m, k);
  }

  lemma {:induction false} UnitsSplit(m: map<Uuid, Reservation>, k: Uuid)
    requires k in m
    ensures UnitsHeld(m) == m[k].units + UnitsHeld(m - {k})
    decreases |m|
  {
    var p :| p in m && UnitsHeld(m) == m[p].units + UnitsHeld(m - {p});
    if p != k {
      UnitsSplit(m - {p}, k);
      UnitsSplit(m - {k}, p);
      assert m - {p} - {k} == m - {k} - {p};
    }
  }

  lemma {:induction false} ValueSplit(m: map<Uuid, Reservation>, k: Uuid)
    requires k in m
    ensures ValueHeld(m) == m[k].value + ValueHeld(m - {k})
    decreases |m|
  {
    var p :| p in m && ValueHeld(m) == m[p].value + ValueHeld(m - {p});
    if p != k {
      ValueSplit(m - {p}, k);
      ValueSplit(m - {k}, p);
      assert m - {p} - {k} == m - {k} - {p};
    }
  }

  lemma {:induction false} HeldPut(m: map<Uuid, Reservation>, k: Uuid, r: Reservation)
    ensures UnitsHeld(m[k := r]) == r.units + UnitsHeld(m - {k})
    ensures ValueHeld(m[k := r]) == r.value + ValueHeld(m - {k})
  {
    HeldSplit(m[k := r], k);
    assert m[k := r] - {k} == m - {k};
  }

  /** Dropping reservations of non-negative amount never raises what is held. */
  lemma {:induction false} HeldShrinks(m: map<Uuid, Reservation>, sub: map<Uuid, Reservation>)
    requires sub.Keys <= m.Keys && forall k :: k in sub ==> sub[k] == m[k]
    requires forall k :: k in m ==> m[k].units >= 0 && m[k].value >= 0.0
    ensures 0 <= UnitsHeld(sub) <= UnitsHeld(m)
    ensures 0.0 <= ValueHeld(sub) <= ValueHeld(m)
    decreases |m|
  {
    if m != map[] {
      var k :| k in m;
      HeldSplit(m, k);
      if k in sub {
        HeldSplit(sub, k);
        HeldShrinks(m - {k}, sub - {k});
      } else {
        HeldShrinks(m - {k}, sub);
      }
    } else {
      assert sub == map[];
    }
  }

  // ---- solvency ----

  predicate SoundReservation(t: UnitType, r: Reservation) {
    && r.terms.multiplier > 0.0
    && (if t == MONETARY then r.units == 0 && r.value > 0.0 && r.terms.unitPrice > 0.0 && r.terms.taxRate >= 0.0
        else r.units > 0 && r.value == 0.0)
  }

  predicate SoundLoan(l: Loan) {
    l.transactFee >= 0.0 && l.loanBalance >= 0.0 && l.minRepayment >= 0.0 && 0.0 <= l.clawbackPercentage <= 1.0
  }

  /** Everything reserved on the counter is covered by its balance. */
  ghost predicate Solvent(c: CounterState) {
    && c.balance >= 0.0
    && (forall k :: k in c.reservations ==> SoundReservation(c.unitType, c.reservations[k]))
    && (if c.unitType == MONETARY then ValueHeld(c.reservations) <= c.balance
        else UnitsHeld(c.reservations) <= IntPart(c.balance))
    && (c.loan.Some? ==> SoundLoan(c.loan.value))
  }

  predicate DistinctIds(cs: seq<CounterState>) {
    forall i, j :: 0 <= i < j < |cs| ==> cs[i].id != cs[j].id
  }

  ghost predicate Sound(cs: seq<CounterState>) {
    (forall i :: 0 <= i < |cs| ==> Solvent(cs[i])) && DistinctIds(cs)
  }

  /** Counter.AvailableValue. */
  ghost function AvailableValue(c: CounterState): (v: real)
    ensures Solvent(c) ==> 0.0 <= v <= c.balance
  {
    if c.unitType != MONETARY then 0.0 else
    assert Solvent(c) ==> 0.0 <= ValueHeld(c.reservations) by {
      if Solvent(c) { HeldShrinks(c.reservations, c.reservations); }
    }
    c.balance - ValueHeld(c.reservations)
  }

  /** Counter.AvailableServiceUnits. */
  ghost function AvailableUnits(c: CounterState): (n: int)
    ensures Solvent(c) ==> 0 <= n && n as real <= c.balance
  {
    if c.unitType == MONETARY then 0 else
    assert Solvent(c) ==> 0 <= UnitsHeld(c.reservations) by {
      if Solvent(c) { HeldShrinks(c.reservations, c.reservations); }
    }
    IntPart(c.balance) - UnitsHeld(c.reservations)
  }

  // ---- sums over a quota ----

  function Sum(ws: seq<real>): real {
    if ws == [] then 0.0 else ws[0] + Sum(ws[1..])
  }

  lemma {:induction false} SumUpdate(ws: seq<real>, i: nat, w: real)
    requires i < |ws|
    ensures Sum(ws[i := w]) == Sum(ws) - ws[i] + w
  {
    if i == 0 {
      assert ws[0 := w][1..] == ws[1..];
    } else {
      SumUpdate(ws[1..], i - 1, w);
      assert ws[i := w][1..] == ws[1..][i - 1 := w];
    }
  }

  lemma {:induction false} SumAppend(ws: seq<real>, w: real)
    ensures Sum(ws + [w]) == Sum(ws) + w
  {
    if ws == [] {
      assert ws + [w] == [w];
    } else {
      SumAppend(ws[1..], w);
      assert (ws + [w])[1..] == ws[1..] + [w];
    }
  }

  lemma {:induction false} SumZero(ws: seq<real>)
    requires forall i :: 0 <= i < |ws| ==> ws[i] == 0.0
    ensures Sum(ws) == 0.0
  {
    if ws != [] { SumZero(ws[1..]); }
  }

  function Weights(cs: seq<CounterState>, f: CounterState -> real): seq<real> {
    seq(|cs|, i requires 0 <= i < |cs| => f(cs[i]))
  }

  function Total(cs: seq<CounterState>, f: CounterState -> real): real {
    Sum(Weights(cs, f))
  }

  lemma TotalUpdate(cs: seq<CounterState>, i: nat, c: CounterState, f: CounterState -> real)
    requires i < |cs|
    ensures Total(cs[i := c], f) == Total(cs, f) - f(cs[i]) + f(c)
  {
    SumUpdate(Weights(cs, f), i, f(c));
    assert Weights(cs[i := c], f) == Weights(cs, f)[i := f(c)];
  }

  lemma TotalAppend(cs: seq<CounterState>, c: CounterState, f: CounterState -> real)
    ensures Total(cs + [c], f) == Total(cs, f) + f(c)
  {
    SumAppend(Weights(cs, f), f(c));
    assert Weights(cs + [c], f) == Weights(cs, f) + [f(c)];
  }

  /** Positions of counters, in the order a loop visits them. */
  predicate Positions(order: seq<nat>, n: nat) {
    forall k :: 0 <= k < |order| ==> order[k] < n
  }

  function SumAlong(ws: seq<real>, order: seq<nat>): real
    requires Positions(order, |ws|)
  {
    if order == [] then 0.0 else ws[order[0]] + SumAlong(ws, order[1..])
  }

  lemma {:induction false} SumAlongAgrees(ws: seq<real>, ws': seq<real>, order: seq<nat>)
    requires |ws| == |ws'| && Positions(order, |ws|)
    requires forall k :: 0 <= k < |order| ==> ws[order[k]] == ws'[order[k]]
    ensures SumAlong(ws, order) == SumAlong(ws', order)
  {
    if order != [] { SumAlongAgrees(ws, ws', order[1..]); }
  }

  /** Changing the counter visited first does not change what the others add up to. */
  lemma SumAfter(cs: seq<CounterState>, order: seq<nat>, c: CounterState, f: CounterState -> real)
    requires order != [] && Positions(order, |cs|) && Distinct(order)
    ensures SumAlong(Weights(cs[order[0] := c], f), order[1..]) == SumAlong(Weights(cs, f), order) - f(cs[order[0]])
  {
    SumAlongAgrees(Weights(cs, f), Weights(cs[order[0] := c], f), order[1..]);
  }

  /** Visiting every position that carries weight, once each, in any order, sums to the whole. */
  lemma {:induction false} SumPicked(ws: seq<real>, order: seq<nat>)
    requires Positions(order, |ws|) && Distinct(order)
    requires forall i :: 0 <= i < |ws| && i !in order ==> ws[i] == 0.0
    ensures SumAlong(ws, order) == Sum(ws)
    decreases |order|
  {
    if order == [] {
      SumZero(ws);
    } else {
      var ws' := ws[order[0] := 0.0];
      SumUpdate(ws, order[0], 0.0);
      SumAlongAgrees(ws, ws', order[1..]);
      SumPicked(ws', order[1..]);
    }
  }
}
