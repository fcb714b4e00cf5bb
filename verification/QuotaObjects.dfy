/** The in-memory quota: counters updated in place, found and ordered by the quota that holds them.
    Each method is proved to do to the objects what the functions of QuotaOps do to the values. */
module QuotaObjects {
  import opened Basics
  import opened Charging
  import opened Ledger
  import opened QuotaOps

  class Counter {
    const counterId: Uuid
    const unitType: UnitType
    const priority: int
    const expiry: Option<Time>
    const canConvert: bool
    const keys: seq<RateKey>
    var balance: real
    var reservations: map<Uuid, Reservation>
    var loan: Option<Loan>

    function State(): CounterState
      reads this
    {
      CounterState(counterId, unitType, priority, balance, expiry, reservations, canConvert, keys, loan)
    }

    constructor (s: CounterState)
      ensures State() == s
    {
      counterId, unitType, priority, expiry := s.id, s.unitType, s.priority, s.expiry;
      canConvert, keys := s.canConvert, s.keys;
      balance, reservations, loan := s.balance, s.reservations, s.loan;
    }

    method IsMatching(rateKey: RateKey, wanted: UnitType) returns (matched: bool, score: int)
      ensures matched <==> unitType == wanted && MatchesKey(keys, rateKey)
      ensures matched ==> exists i :: 0 <= i < |keys| && Matches(keys[i], rateKey) == (true, score)
    {
      if unitType != wanted { return false, 0; }
      for i := 0 to |keys|
        invariant forall k :: 0 <= k < i ==> !Matches(keys[k], rateKey).0
      {
        var (hit, specificity) := Matches(keys[i], rateKey);
        if hit { return true, specificity; }
      }
      return false, 0;
    }

    method AvailableValue() returns (available: real)
      ensures available == Ledger.AvailableValue(State())
    {
      if unitType != MONETARY { return 0.0; }
      var total, left := 0.0, reservations;
      while left != map[]
        invariant total + ValueHeld(left) == ValueHeld(reservations)
        decreases |left|
      {
        var k :| k in left;
        HeldSplit(left, k);
        total, left := total + left[k].value, left - {k};
      }
      return balance - total;
    }

    method AvailableServiceUnits() returns (available: int)
      ensures available == AvailableUnits(State())
    {
      if unitType == MONETARY { return 0; }
      var total, left := 0, reservations;
      while left != map[]
        invariant total + UnitsHeld(left) == UnitsHeld(reservations)
        decreases |left|
      {
        var k :| k in left;
        HeldSplit(left, k);
        total, left := total + left[k].units, left - {k};
      }
      return IntPart(balance) - total;
    }

    method ReserveServiceUnits(reference: Uuid, n: int, terms: Terms) returns (reserved: int)
      modifies this
      ensures (State(), reserved) == ReserveUnits(old(State()), reference, n, terms)
    {
      if unitType == MONETARY { return 0; }
      var available := AvailableServiceUnits();
      reserved := Min(available, Scaled(terms.multiplier, n));
      if reserved > 0 {
        reservations := reservations[reference := Reservation(reserved, 0.0, terms)];
      }
    }

    method ReserveValue(reference: Uuid, amount: real, terms: Terms) returns (reserved: real)
      modifies this
      ensures (State(), reserved) == QuotaOps.ReserveValue(old(State()), reference, amount, terms)
    {
      if unitType != MONETARY { return 0.0; }
      var gross := Mul(terms.multiplier, amount);
      assert terms.multiplier == 0.0 ==> gross == 0.0;
      var available := AvailableValue();
      if available <= 0.0 { return 0.0; }
      if gross > available { gross := available; }
      if gross > 0.0 {
        reservations := reservations[reference := Reservation(0, gross, terms)];
        return Quotient(gross, terms.multiplier);
      }
      return gross;
    }

    method DebitBalance(units: real)
      modifies this
      ensures State() == old(State()).(balance := DebitedBalance(old(balance), units))
      ensures balance >= 0.0 && (old(balance) >= units ==> balance == old(balance) - units)
      ensures old(balance) <= units ==> balance == 0.0
    {
      var newBalance := balance - units;
      if newBalance <= 0.0 { newBalance := 0.0; }
      balance := newBalance;
    }

    method ReleaseReservation(reference: Uuid)
      modifies this
      ensures State() == Released(old(State()), reference)
    {
      reservations := reservations - {reference};
    }

    /** Counter.Loan.Clawback: the loan is reached only through its counter. */
    method ClawbackLoan(provisioned: real) returns (loanPaid: real, feePaid: real)
      requires loan.Some?
      modifies this
      ensures var w := Clawback(old(loan).value, provisioned);
              State() == old(State()).(loan := Some(w.loan)) && loanPaid == w.loanPaid && feePaid == w.feePaid
    {
      loanPaid, feePaid := 0.0, 0.0;
      var l := loan.value;
      if l.loanBalance > 0.0 {
        var amount := 0.0;
        if l.loanBalance <= l.minRepayment {
          amount := MinReal(l.loanBalance, provisioned);
        } else if l.clawbackPercentage == 0.0 {
          amount := MinReal(l.minRepayment, provisioned);
        } else {
          amount := Mul(provisioned, l.clawbackPercentage);
        }
        if amount < l.transactFee {
          feePaid := amount;
        } else {
          feePaid := l.transactFee;
          loanPaid := amount - feePaid;
          if loanPaid >= l.loanBalance { loanPaid := l.loanBalance; }
        }
        loan := Some(l.(transactFee := l.transactFee - feePaid, loanBalance := l.loanBalance - loanPaid));
      }
    }
  }

  /** The values of a list of counters. */
  function StatesOf(counters: seq<Counter>): (states: seq<CounterState>)
    reads counters
    ensures |states| == |counters| && forall i :: 0 <= i < |counters| ==> states[i] == counters[i].State()
  {
    seq(|counters|, i requires 0 <= i < |counters| reads counters => counters[i].State())
  }

  /** A list of counters given by their positions. */
  ghost predicate Located(list: seq<Counter>, order: seq<nat>, counters: seq<Counter>) {
    |list| == |order| && Positions(order, |counters|) && forall k :: 0 <= k < |list| ==> list[k] == counters[order[k]]
  }

  predicate Descending(list: seq<Counter>) {
    forall j, k :: 0 <= j < k < |list| ==> list[j].priority >= list[k].priority
  }

  /** Putting a counter in where those before it are of no lower priority and those after it of a lower one. */
  lemma LocatedAt(sorted: seq<Counter>, order: seq<nat>, counters: seq<Counter>, j: nat, p: nat)
    requires Located(sorted, order, counters) && Descending(sorted) && j <= |sorted| && p < |counters|
    requires forall i :: 0 <= i < j ==> sorted[i].priority >= counters[p].priority
    requires j < |sorted| ==> sorted[j].priority < counters[p].priority
    ensures Located(sorted[..j] + [counters[p]] + sorted[j..], order[..j] + [p] + order[j..], counters)
    ensures Descending(sorted[..j] + [counters[p]] + sorted[j..])
  {}

  /** sort.Slice by descending priority. Which order it leaves equal priorities in is not promised. */
  method SortByPriority(list: seq<Counter>, ghost order: seq<nat>, ghost counters: seq<Counter>)
    returns (sorted: seq<Counter>, ghost sortedOrder: seq<nat>)
    requires Located(list, order, counters) && Distinct(order)
    ensures Located(sorted, sortedOrder, counters) && Distinct(sortedOrder) && Descending(sorted)
    ensures forall p :: p in sortedOrder <==> p in order
  {
    sorted, sortedOrder := [], [];
    for k := 0 to |list|
      invariant Located(sorted, sortedOrder, counters) && Distinct(sortedOrder) && Descending(sorted)
      invariant forall p :: p in sortedOrder <==> p in order[..k]
    {
      var j := 0;
      while j < |sorted| && sorted[j].priority >= list[k].priority
        invariant j <= |sorted| && forall i :: 0 <= i < j ==> sorted[i].priority >= list[k].priority
      {
        j := j + 1;
      }
      InsertedAt(sortedOrder, j, order[k], order[..k]);
      assert order[..k + 1] == order[..k] + [order[k]];
      LocatedAt(sorted, sortedOrder, counters, j, order[k]);
      sorted := sorted[..j] + [list[k]] + sorted[j..];
      sortedOrder := sortedOrder[..j] + [order[k]] + sortedOrder[j..];
    }
    assert order[..|list|] == order;
  }

  /** There is always some order in which to visit the counters wanted. */
  lemma PicksExist(cs: seq<CounterState>, want: CounterState -> bool) returns (order: seq<nat>)
    ensures Picks(cs, order, want)
  {
    order := PickPrefix(cs, |cs|, want);
  }

  lemma {:induction false} PickPrefix(cs: seq<CounterState>, i: nat, want: CounterState -> bool)
      returns (order: seq<nat>)
    requires i <= |cs|
    ensures PickedUpTo(cs, order, i, want) && ByPriority(cs, order)
  {
    if i == 0 { return []; }
    var shorter := PickPrefix(cs, i - 1, want);
    if !want(cs[i - 1]) { return shorter; }
    if i - 1 in shorter { assert false; }
    order := InsertByPriority(cs, shorter, i - 1);
    forall k | 0 <= k < |order| ensures order[k] < i { assert order[k] in order; }
  }

  ghost predicate ByPriority(cs: seq<CounterState>, order: seq<nat>) {
    Positions(order, |cs|) && forall j, k :: 0 <= j < k < |order| ==> cs[order[j]].priority >= cs[order[k]].priority
  }

  lemma InsertByPriority(cs: seq<CounterState>, order: seq<nat>, i: nat) returns (longer: seq<nat>)
    requires ByPriority(cs, order) && Distinct(order) && i < |cs| && i !in order
    ensures ByPriority(cs, longer) && Distinct(longer) && forall p :: p in longer <==> p in order + [i]
  {
    var j := 0;
    while j < |order| && cs[order[j]].priority >= cs[i].priority
      invariant j <= |order| && forall k :: 0 <= k < j ==> cs[order[k]].priority >= cs[i].priority
    {
      j := j + 1;
    }
    InsertedAt(order, j, i, order);
    longer := order[..j] + [i] + order[j..];
  }

  lemma InsertedAt(s: seq<nat>, j: nat, x: nat, seen: seq<nat>)
    requires j <= |s| && Distinct(s) && x !in seen && forall p :: p in s <==> p in seen
    ensures var t := s[..j] + [x] + s[j..]; Distinct(t) && forall p :: p in t <==> p in seen + [x]
  {
    var t := s[..j] + [x] + s[j..];
    assert s[..j] + s[j..] == s;
    forall p ensures p in t <==> p in seen + [x] {
      assert p in s[..j] + s[j..] <==> p in s;
    }
  }

  lemma StatesSame(counters: seq<Counter>, states: seq<CounterState>)
    requires |states| == |counters| && forall i :: 0 <= i < |counters| ==> counters[i].State() == states[i]
    ensures StatesOf(counters) == states
  {
    assert forall i :: 0 <= i < |states| ==> StatesOf(counters)[i] == states[i];
  }

  /** The positions below `i` that satisfy `want`, each once. */
  ghost predicate PickedUpTo(cs: seq<CounterState>, order: seq<nat>, i: nat, want: CounterState -> bool) {
    && i <= |cs| && Positions(order, i) && Distinct(order)
    && forall p :: 0 <= p < i ==> (p in order <==> want(cs[p]))
  }

  lemma PickedNext(cs: seq<CounterState>, order: seq<nat>, i: nat, want: CounterState -> bool)
    requires PickedUpTo(cs, order, i, want) && i < |cs|
    ensures PickedUpTo(cs, if want(cs[i]) then order + [i] else order, i + 1, want)
  {
    if i in order { assert false; }
    assert forall p :: p in order + [i] <==> p in order || p == i;
  }

  lemma LocatedNext(list: seq<Counter>, order: seq<nat>, counters: seq<Counter>, i: nat)
    requires Located(list, order, counters) && i < |counters|
    ensures Located(list + [counters[i]], order + [i], counters)
  {}

  lemma LoanNext(cs: seq<CounterState>, order: seq<nat>, i: nat)
    requires i < |cs|
    ensures order + LoanPositions(cs, i) == (if Owes(cs[i]) then order + [i] else order) + LoanPositions(cs, i + 1)
  {
    if Owes(cs[i]) { assert order + ([i] + LoanPositions(cs, i + 1)) == order + [i] + LoanPositions(cs, i + 1); }
  }

  lemma LoanEnds(cs: seq<CounterState>, counters: seq<Counter>)
    ensures LoanPositions(cs, |cs|) == [] && [] + LoanPositions(cs, 0) == LoanPositions(cs, 0)
    ensures Located([], [], counters)
  {}

  lemma PickedSorted(cs: seq<CounterState>, order: seq<nat>, want: CounterState -> bool, sorted: seq<Counter>,
                     sortedOrder: seq<nat>, counters: seq<Counter>)
    requires PickedUpTo(cs, order, |cs|, want) && cs == StatesOf(counters)
    requires Located(sorted, sortedOrder, counters) && Distinct(sortedOrder) && Descending(sorted)
    requires forall p :: p in sortedOrder <==> p in order
    ensures Picks(cs, sortedOrder, want)
  {}

  class Quota {
    var counters: seq<Counter>

    /** No counter object appears twice. */
    ghost predicate Valid()
      reads this
    {
      Distinct(counters)
    }

    function States(): (states: seq<CounterState>)
      reads this, counters
      ensures |states| == |counters| && forall i :: 0 <= i < |counters| ==> states[i] == counters[i].State()
    {
      StatesOf(counters)
    }

    constructor (states: seq<CounterState>)
      ensures Valid() && fresh(counters) && States() == states
    {
      counters := [];
      new;
      for i := 0 to |states|
        invariant Valid() && fresh(counters) && |counters| == i
        invariant forall k :: 0 <= k < i ==> counters[k].State() == states[k]
      {
        var c := new Counter(states[i]);
        counters := counters + [c];
      }
      StatesSame(counters, states);
    }

    method FindCounters(rateKey: RateKey, unitType: UnitType, reason: Reason)
      returns (list: seq<Counter>, ghost order: seq<nat>)
      requires Valid()
      ensures Picks(States(), order, Selecting(rateKey, unitType, reason)) && Located(list, order, counters)
    {
      ghost var cs, want := States(), Selecting(rateKey, unitType, reason);
      list, order := [], [];
      for i := 0 to |counters|
        invariant Located(list, order, counters) && PickedUpTo(cs, order, i, want)
      {
        var c := counters[i];
        var matched, _ := c.IsMatching(rateKey, unitType);
        assert want(cs[i]) <==> matched && (reason != CONVERSION || c.canConvert);
        PickedNext(cs, order, i, want);
        LocatedNext(list, order, counters, i);
        if matched && (reason != CONVERSION || c.canConvert) {
          list, order := list + [c], order + [i];
        }
      }
      ghost var picked := order;
      list, order := SortByPriority(list, order, counters);
      PickedSorted(cs, picked, want, list, order, counters);
    }

    method FindCountersByReservationAndType(reservationId: Uuid, unitType: UnitType)
      returns (list: seq<Counter>, ghost order: seq<nat>)
      requires Valid()
      ensures Picks(States(), order, HoldingFor(reservationId, unitType)) && Located(list, order, counters)
    {
      ghost var cs, want := States(), HoldingFor(reservationId, unitType);
      list, order := [], [];
      for i := 0 to |counters|
        invariant Located(list, order, counters) && PickedUpTo(cs, order, i, want)
      {
        var c := counters[i];
        PickedNext(cs, order, i, want);
        LocatedNext(list, order, counters, i);
        if reservationId in c.reservations && c.unitType == unitType {
          list, order := list + [c], order + [i];
        }
      }
      ghost var picked := order;
      list, order := SortByPriority(list, order, counters);
      PickedSorted(cs, picked, want, list, order, counters);
    }

    method FindCountersWithLoans() returns (list: seq<Counter>, ghost order: seq<nat>)
      requires Valid()
      ensures order == LoanPositions(States(), 0) && Located(list, order, counters)
    {
      hide LoanPositions, Located;
      ghost var cs := States();
      list, order := [], [];
      LoanEnds(cs, counters);
      for i := 0 to |counters|
        invariant Located(list, order, counters)
        invariant order + LoanPositions(cs, i) == LoanPositions(cs, 0)
      {
        var c := counters[i];
        LoanNext(cs, order, i);
        LocatedNext(list, order, counters, i);
        if c.loan.Some? && c.loan.value.loanBalance > 0.0 {
          list, order := list + [c], order + [i];
        }
      }
      assert order + [] == order;
    }

    /** The first counter of the id, if there is one. */
    method FindCounterByID(counterId: Uuid) returns (found: Option<Counter>, ghost p: nat)
      ensures found.Some? <==> Known(States(), counterId)
      ensures found.Some? ==>
                && p < |counters| && found.value == counters[p] && States()[p].id == counterId
                && forall k :: 0 <= k < p ==> States()[k].id != counterId
    {
      for i := 0 to |counters|
        invariant forall k :: 0 <= k < i ==> States()[k].id != counterId
      {
        if counters[i].counterId == counterId {
          assert States()[i].id == counterId;
          return Some(counters[i]), i;
        }
      }
      return None, 0;
    }

    method ReleaseReservations(reservationId: Uuid)
      requires Valid()
      modifies counters
      ensures States() == ReleaseAll(old(States()), reservationId)
    {
      for i := 0 to |counters|
        invariant forall k :: 0 <= k < i ==> counters[k].State() == Released(old(States())[k], reservationId)
        invariant forall k :: i <= k < |counters| ==> counters[k].State() == old(States())[k]
      {
        counters[i].ReleaseReservation(reservationId);
      }
      StatesSame(counters, ReleaseAll(old(States()), reservationId));
    }

    method AddCounter(c: Counter)
      requires Valid() && c !in counters
      modifies this
      ensures Valid() && counters == old(counters) + [c] && States() == old(States()) + [c.State()]
    {
      counters := counters + [c];
      StatesSame(counters, old(States()) + [c.State()]);
    }
  }

  /** Changing one counter changes one value. */
  lemma OneChanged(counters: seq<Counter>, before: seq<CounterState>, p: nat)
    requires p < |counters| == |before|
    requires forall i :: 0 <= i < |counters| && i != p ==> counters[i].State() == before[i]
    ensures StatesOf(counters) == before[p := counters[p].State()]
  {
    StatesSame(counters, before[p := counters[p].State()]);
  }
}
