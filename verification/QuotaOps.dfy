/** What each quota operation does to the values, as functions. The classes of
    QuotaManager are proved to compute exactly these. Wherever the program visits
    counters through a list sorted with sort.Slice, whose treatment of equal
    priorities is unspecified, the function takes the list of positions visited. */
module QuotaOps {
  import opened Basics
  import opened Charging
  import opened Ledger

  // ---- one counter ----

  /** A number of units with the multiplier applied, as the program truncates it. */
  function Scaled(multiplier: real, n: int): (scaled: int)
    ensures multiplier > 0.0 && n >= 0 ==> scaled >= 0
  {
    assert multiplier > 0.0 && n >= 0 ==> Mul(multiplier, n as real) >= 0.0 by {
      if multiplier > 0.0 { MulSign(multiplier, n as real); }
    }
    IntPart(Mul(multiplier, n as real))
  }

  /** The inverse of Scaled, truncated again. */
  function Unscaled(multiplier: real, n: int): (unscaled: int)
    requires multiplier != 0.0
    ensures multiplier > 0.0 && n >= 0 ==> unscaled >= 0
  {
    assert multiplier > 0.0 && n >= 0 ==> Quotient(n as real, multiplier) >= 0.0 by {
      if multiplier > 0.0 { MulSign(multiplier, Quotient(n as real, multiplier)); }
    }
    IntPart(Quotient(n as real, multiplier))
  }

  function Put(c: CounterState, id: Uuid, r: Reservation): CounterState {
    c.(reservations := c.reservations[id := r])
  }

  /** Reserve up to `wanted` of the counter's own units. */
  ghost function TakeUnits(c: CounterState, id: Uuid, wanted: int, terms: Terms): (CounterState, int) {
    var got := Min(AvailableUnits(c), wanted);
    (if got > 0 then Put(c, id, Reservation(got, 0.0, terms)) else c, got)
  }

  /** Counter.ReserveServiceUnits. */
  ghost function ReserveUnits(c: CounterState, id: Uuid, n: int, terms: Terms): (CounterState, int) {
    if c.unitType == MONETARY then (c, 0) else TakeUnits(c, id, Scaled(terms.multiplier, n), terms)
  }

  /** Reserve up to `wanted` of the counter's value. */
  ghost function TakeValue(c: CounterState, id: Uuid, wanted: real, terms: Terms): (CounterState, real) {
    var taken := MinReal(wanted, AvailableValue(c));
    (if taken > 0.0 then Put(c, id, Reservation(0, taken, terms)) else c, taken)
  }

  /** Counter.ReserveValue: the amount stored carries the multiplier, the amount returned does not. */
  ghost function ReserveValue(c: CounterState, id: Uuid, amount: real, terms: Terms): (CounterState, real) {
    if c.unitType != MONETARY || AvailableValue(c) <= 0.0 then (c, 0.0) else
    assert terms.multiplier == 0.0 ==> Mul(terms.multiplier, amount) == 0.0;
    var (c', taken) := TakeValue(c, id, Mul(terms.multiplier, amount), terms);
    (c', if taken > 0.0 then Quotient(taken, terms.multiplier) else taken)
  }

  /** Counter.DebitBalance: the new balance, never below zero. */
  function DebitedBalance(balance: real, units: real): real {
    if balance - units <= 0.0 then 0.0 else balance - units
  }

  function Released(c: CounterState, id: Uuid): CounterState {
    c.(reservations := c.reservations - {id})
  }

  /** The reservations left under all ids once `r` is what remains of the one under `id`. */
  function Remaining(m: map<Uuid, Reservation>, id: Uuid, r: Reservation, drop: bool): map<Uuid, Reservation> {
    if drop then m - {id} else m[id := r]
  }

  datatype UnitsDebit = UnitsDebit(counter: CounterState, left: int, entry: Entry)

  /** Draw up to `scaled` units from the reservation; `left` still carries the multiplier. */
  function DrawUnits(c: CounterState, id: Uuid, scaled: int, reclaim: bool): UnitsDebit
    requires id in c.reservations
  {
    var r := c.reservations[id];
    var taken := Min(r.units, scaled);
    var r' := r.(units := r.units - taken);
    var balance := DebitedBalance(c.balance, taken as real);
    UnitsDebit(
      c.(balance := balance, reservations := Remaining(c.reservations, id, r', reclaim || r'.units == 0)),
      scaled - taken,
      Entry(c.id, r.terms.reason, taken as real, balance))
  }

  /** One turn of the loop of debitServiceReservations. */
  function DebitUnits(c: CounterState, id: Uuid, remaining: int, reclaim: bool): UnitsDebit
    requires id in c.reservations && c.reservations[id].terms.multiplier != 0.0
  {
    var multiplier := c.reservations[id].terms.multiplier;
    var d := DrawUnits(c, id, Scaled(multiplier, remaining), reclaim);
    d.(left := Unscaled(multiplier, d.left))
  }

  datatype ValueDebit = ValueDebit(counter: CounterState, left: real, taken: real, journal: seq<Entry>)

  /** One turn of the loop of debitMonetaryReservations. */
  function DebitValue(c: CounterState, id: Uuid, remaining: real, reclaim: bool): ValueDebit
    requires id in c.reservations
  {
    if remaining <= 0.0 then ValueDebit(Released(c, id), remaining, 0.0, []) else
    var r := c.reservations[id];
    var taken := MinReal(r.value, remaining);
    var r' := r.(value := r.value - taken);
    var balance := DebitedBalance(c.balance, taken);
    ValueDebit(
      c.(balance := balance, reservations := Remaining(c.reservations, id, r', reclaim || r'.value == 0.0)),
      remaining - taken,
      taken,
      [Entry(c.id, r.terms.reason, taken, balance)])
  }

  /** Reservation.CalcRemainingValue. */
  function RemainingValue(terms: Terms, usedUnits: int): real {
    Mul(Mul(Mul(terms.unitPrice, terms.multiplier), usedUnits as real), 1.0 + terms.taxRate)
  }

  // ---- finding counters ----

  predicate MatchesKey(keys: seq<RateKey>, rateKey: RateKey) {
    exists i :: 0 <= i < |keys| && Matches(keys[i], rateKey).0
  }

  predicate Selected(c: CounterState, rateKey: RateKey, unitType: UnitType, reason: Reason) {
    c.unitType == unitType && MatchesKey(c.keys, rateKey) && (reason != CONVERSION || c.canConvert)
  }

  predicate Holding(c: CounterState, id: Uuid, unitType: UnitType) {
    id in c.reservations && c.unitType == unitType
  }

  /** The positions of the counters satisfying `want`, each once, by descending priority. */
  ghost predicate Picks(cs: seq<CounterState>, order: seq<nat>, want: CounterState -> bool) {
    && Positions(order, |cs|) && Distinct(order)
    && (forall i :: 0 <= i < |cs| ==> (i in order <==> want(cs[i])))
    && (forall j, k :: 0 <= j < k < |order| ==> cs[order[j]].priority >= cs[order[k]].priority)
  }

  ghost function Selecting(rateKey: RateKey, unitType: UnitType, reason: Reason): CounterState -> bool {
    c => Selected(c, rateKey, unitType, reason)
  }

  ghost function HoldingFor(id: Uuid, unitType: UnitType): CounterState -> bool {
    c => Holding(c, id, unitType)
  }

  // ---- reserving ----

  datatype UnitsReserve = UnitsReserve(counters: seq<CounterState>, granted: int)

  /** reserveServiceUnits from the point where `n` units are still to be granted. */
  ghost function ReserveUnitsAlong(cs: seq<CounterState>, order: seq<nat>, id: Uuid, n: int,
                                   terms: Terms): (r: UnitsReserve)
    requires Positions(order, |cs|)
    ensures |r.counters| == |cs|
    decreases |order|
  {
    if order == [] || n <= 0 then UnitsReserve(cs, 0) else
    var (c, got) := ReserveUnits(cs[order[0]], id, n, terms);
    var rest := ReserveUnitsAlong(cs[order[0] := c], order[1..], id, n - got, terms);
    UnitsReserve(rest.counters, got + rest.granted)
  }

  /** The reserving loop of reserveMonetaryUnits, with `amount` still to be reserved. */
  ghost function ReserveValueAlong(cs: seq<CounterState>, order: seq<nat>, id: Uuid, amount: real,
                                   terms: Terms): seq<CounterState>
    requires Positions(order, |cs|)
    decreases |order|
  {
    if order == [] || amount <= 0.0 then cs else
    var (c, got) := ReserveValue(cs[order[0]], id, amount, terms);
    ReserveValueAlong(cs[order[0] := c], order[1..], id, amount - got, terms)
  }

  ghost function ValueFree(): CounterState -> real {
    (c: CounterState) => AvailableValue(c)
  }

  ghost function AvailableAlong(cs: seq<CounterState>, order: seq<nat>): real
    requires Positions(order, |cs|)
  {
    SumAlong(Weights(cs, ValueFree()), order)
  }

  /** What units cost with tax and without the multiplier. */
  function Cost(terms: Terms, units: int): real {
    Mul(Mul(terms.unitPrice, units as real), 1.0 + terms.taxRate)
  }

  /** The price of one unit with tax. */
  function Price(terms: Terms): real {
    Mul(terms.unitPrice, 1.0 + terms.taxRate)
  }

  /** The number of whole units reserveMonetaryUnits grants out of `available`. */
  function Affordable(available: real, requested: int, terms: Terms): int
    requires Price(terms) != 0.0
  {
    Min(IntPart(Quotient(available, Price(terms))), requested)
  }

  /** reserveMonetaryUnits. */
  ghost function ReserveMoney(cs: seq<CounterState>, order: seq<nat>, id: Uuid, requested: int,
                              terms: Terms): UnitsReserve
    requires Positions(order, |cs|) && Price(terms) != 0.0
  {
    var granted := Affordable(AvailableAlong(cs, order), requested, terms);
    if granted > 0 then
      UnitsReserve(ReserveValueAlong(cs, order, id, Cost(terms, granted), terms), granted)
    else
      UnitsReserve(cs, granted)
  }

  /** The sort.Slice results one operation works through. */
  datatype Visit = Visit(service: seq<nat>, monetary: seq<nat>)

  predicate PaysWithMoney(unitType: UnitType, allowOOB: bool) {
    unitType == MONETARY || allowOOB
  }

  /** ReserveQuota gets to the monetary counters, and divides by the price there. */
  ghost predicate AsksMoney(cs: seq<CounterState>, v: Visit, id: Uuid, requested: int, unitType: UnitType, terms: Terms,
                            allowOOB: bool)
    requires Positions(v.service, |cs|)
  {
    unitType == MONETARY || (allowOOB && ReserveUnitsAlong(cs, v.service, id, requested, terms).granted < requested)
  }

  /** The operation passed to executeWithQuota by ReserveQuota. */
  ghost function ReserveOp(cs: seq<CounterState>, v: Visit, id: Uuid, requested: int, unitType: UnitType, terms: Terms,
                           allowOOB: bool): UnitsReserve
    requires Positions(v.service, |cs|) && Positions(v.monetary, |cs|)
    requires AsksMoney(cs, v, id, requested, unitType, terms, allowOOB) ==> Price(terms) != 0.0
  {
    if unitType == MONETARY then ReserveMoney(cs, v.monetary, id, requested, terms) else
    var s := ReserveUnitsAlong(cs, v.service, id, requested, terms);
    if allowOOB && s.granted < requested then
      var m := ReserveMoney(s.counters, v.monetary, id, requested - s.granted, terms);
      UnitsReserve(m.counters, s.granted + m.granted)
    else s
  }

  /** Reserving changes nothing a selection looks at. */
  lemma PicksKept(cs: seq<CounterState>, cs': seq<CounterState>, order: seq<nat>, rateKey: RateKey, t: UnitType,
                  reason: Reason)
    requires Picks(cs, order, Selecting(rateKey, t, reason)) && |cs'| == |cs|
    requires forall i :: 0 <= i < |cs| ==> cs'[i] == cs[i].(reservations := cs'[i].reservations)
    ensures Picks(cs', order, Selecting(rateKey, t, reason))
  {
    forall i | 0 <= i < |cs'| ensures i in order <==> Selecting(rateKey, t, reason)(cs'[i]) {
      assert Selecting(rateKey, t, reason)(cs[i]) == Selecting(rateKey, t, reason)(cs'[i]);
    }
  }

  lemma {:induction false} ReserveUnitsKept(cs: seq<CounterState>, order: seq<nat>, id: Uuid, n: int, terms: Terms)
    requires Positions(order, |cs|)
    ensures var cs' := ReserveUnitsAlong(cs, order, id, n, terms).counters;
            forall i :: 0 <= i < |cs| ==> cs'[i] == cs[i].(reservations := cs'[i].reservations)
    decreases |order|
  {
    if order != [] && n > 0 {
      var (c, got) := ReserveUnits(cs[order[0]], id, n, terms);
      ReserveUnitsKept(cs[order[0] := c], order[1..], id, n - got, terms);
    }
  }

  // ---- debiting ----

  /** Each position is visited once and holds a reservation under `id`. */
  predicate Reserved(cs: seq<CounterState>, order: seq<nat>, id: Uuid) {
    && Positions(order, |cs|) && Distinct(order)
    && forall k :: 0 <= k < |order| ==>
         id in cs[order[k]].reservations && cs[order[k]].reservations[id].terms.multiplier != 0.0
  }

  datatype ServiceDebit = ServiceDebit(counters: seq<CounterState>, left: int, journal: seq<Entry>)

  /** debitServiceReservations with `remaining` units still to be accounted for. */
  function DebitUnitsAlong(cs: seq<CounterState>, order: seq<nat>, id: Uuid, remaining: int,
                           reclaim: bool): ServiceDebit
    requires Reserved(cs, order, id)
    decreases |order|
  {
    if order == [] then ServiceDebit(cs, remaining, []) else
    var d := DebitUnits(cs[order[0]], id, remaining, reclaim);
    var rest := DebitUnitsAlong(cs[order[0] := d.counter], order[1..], id, d.left, reclaim);
    ServiceDebit(rest.counters, rest.left, [d.entry] + rest.journal)
  }

  datatype MoneyDebit = MoneyDebit(counters: seq<CounterState>, left: real, debited: real, journal: seq<Entry>)

  /** The loop of debitMonetaryReservations with `remaining` value still to be collected. */
  function DebitValueAlong(cs: seq<CounterState>, order: seq<nat>, id: Uuid, remaining: real, reclaim: bool): MoneyDebit
    requires Reserved(cs, order, id)
    decreases |order|
  {
    if order == [] then MoneyDebit(cs, remaining, 0.0, []) else
    var d := DebitValue(cs[order[0]], id, remaining, reclaim);
    var rest := DebitValueAlong(cs[order[0] := d.counter], order[1..], id, d.left, reclaim);
    MoneyDebit(rest.counters, rest.left, d.taken + rest.debited, d.journal + rest.journal)
  }

  datatype DebitResponse = DebitResponse(unitsDebited: int, unitsValue: real, valueUnits: int, unaccountedUnits: int)

  /** What debitMonetaryReservations reports when `left` of the value could not be collected. */
  function MoneyResponse(terms: Terms, used: int, debited: real, left: real): DebitResponse
    requires terms.multiplier != 0.0 && terms.unitPrice != 0.0
  {
    var missing := if left > 0.0 then IntPart(Quotient(Quotient(left, terms.multiplier), terms.unitPrice)) else 0;
    DebitResponse(used - missing, debited, used - missing, missing)
  }

  datatype DebitResult = DebitResult(counters: seq<CounterState>, response: DebitResponse, journal: seq<Entry>)

  ghost predicate CanDebit(cs: seq<CounterState>, v: Visit, id: Uuid, unitType: UnitType) {
    && Picks(cs, v.service, HoldingFor(id, unitType))
    && Picks(cs, v.monetary, HoldingFor(id, MONETARY))
    && Reserved(cs, v.service, id)
    && Reserved(cs, v.monetary, id)
    && forall k :: 0 <= k < |v.monetary| ==> cs[v.monetary[k]].reservations[id].terms.unitPrice != 0.0
  }

  lemma {:induction false} DebitUnitsElsewhere(cs: seq<CounterState>, order: seq<nat>, id: Uuid, remaining: int,
                                               reclaim: bool)
    requires Reserved(cs, order, id)
    ensures var d := DebitUnitsAlong(cs, order, id, remaining, reclaim);
            |d.counters| == |cs| && forall i :: 0 <= i < |cs| && i !in order ==> d.counters[i] == cs[i]
    decreases |order|
  {
    if order != [] {
      var d := DebitUnits(cs[order[0]], id, remaining, reclaim);
      DebitUnitsElsewhere(cs[order[0] := d.counter], order[1..], id, d.left, reclaim);
    }
  }

  /** debitServiceReservations as Debit calls it: skipped for a monetary unit type. */
  ghost function ServicePart(cs: seq<CounterState>, v: Visit, id: Uuid, used: int, unitType: UnitType,
                             reclaim: bool): (d: ServiceDebit)
    requires CanDebit(cs, v, id, unitType)
    ensures |d.counters| == |cs| && Reserved(d.counters, v.monetary, id)
    ensures forall k :: 0 <= k < |v.monetary| ==> d.counters[v.monetary[k]] == cs[v.monetary[k]]
  {
    if unitType == MONETARY then ServiceDebit(cs, used, []) else
    DebitUnitsElsewhere(cs, v.service, id, used, reclaim);
    DebitUnitsAlong(cs, v.service, id, used, reclaim)
  }

  /** The operation passed to executeWithQuota by Debit. */
  ghost function DebitOp(cs: seq<CounterState>, v: Visit, id: Uuid, used: int, unitType: UnitType,
                         reclaim: bool): DebitResult
    requires CanDebit(cs, v, id, unitType)
  {
    var s := ServicePart(cs, v, id, used, unitType, reclaim);
    var fromUnits := used - s.left;
    if s.left <= 0 then
      DebitResult(s.counters, DebitResponse(fromUnits, 0.0, 0, s.left), s.journal)
    else if v.monetary == [] then
      DebitResult(s.counters, DebitResponse(fromUnits, 0.0, 0, s.left), s.journal)
    else
      var terms := cs[v.monetary[0]].reservations[id].terms;
      var m := DebitValueAlong(s.counters, v.monetary, id, RemainingValue(terms, s.left), reclaim);
      var r := MoneyResponse(terms, s.left, m.debited, m.left);
      DebitResult(m.counters, r.(unitsDebited := r.unitsDebited + fromUnits), s.journal + m.journal)
  }

  // ---- releasing ----

  function ReleaseAll(cs: seq<CounterState>, id: Uuid): seq<CounterState> {
    seq(|cs|, i requires 0 <= i < |cs| => Released(cs[i], id))
  }

  // ---- provisioning ----

  datatype LoanTerms = LoanTerms(transactionFee: real, minRepayment: real, clawbackPercentage: real)

  datatype ProvisionRequest = ProvisionRequest(
    counterId: Uuid, unitType: UnitType, priority: int, initialBalance: real, expiry: Option<Time>,
    canRepayLoan: bool, canConvert: bool, keys: seq<RateKey>, reason: Reason, loan: Option<LoanTerms>)

  function NewCounter(req: ProvisionRequest): CounterState {
    CounterState(req.counterId, req.unitType, req.priority, req.initialBalance, req.expiry, map[], req.canConvert,
                 req.keys,
                 if req.loan.None? then None
                 else Some(Loan(req.loan.value.transactionFee, req.initialBalance, req.loan.value.minRepayment,
                                req.loan.value.clawbackPercentage)))
  }

  datatype Clawed = Clawed(loan: Loan, loanPaid: real, feePaid: real)

  /** The amount Loan.Clawback asks for, before it is split between fee and principal. */
  function ClawbackAmount(l: Loan, provisioned: real): real {
    if l.loanBalance <= l.minRepayment then MinReal(l.loanBalance, provisioned)
    else if l.clawbackPercentage == 0.0 then MinReal(l.minRepayment, provisioned)
    else Mul(provisioned, l.clawbackPercentage)
  }

  /** Loan.Clawback. */
  function Clawback(l: Loan, provisioned: real): Clawed {
    if l.loanBalance <= 0.0 then Clawed(l, 0.0, 0.0) else
    var amount := ClawbackAmount(l, provisioned);
    var fee := if amount < l.transactFee then amount else l.transactFee;
    var paid := if amount < l.transactFee then 0.0 else MinReal(amount - l.transactFee, l.loanBalance);
    Clawed(l.(transactFee := l.transactFee - fee, loanBalance := l.loanBalance - paid), paid, fee)
  }

  predicate Owes(c: CounterState) {
    c.loan.Some? && c.loan.value.loanBalance > 0.0
  }

  /** Quota.FindCountersWithLoans from position `i` on, oldest first. */
  function LoanPositions(cs: seq<CounterState>, i: nat): (order: seq<nat>)
    requires i <= |cs|
    ensures Positions(order, |cs|) && Distinct(order)
    ensures forall p :: p in order <==> i <= p < |cs| && Owes(cs[p])
    ensures forall j, k :: 0 <= j < k < |order| ==> order[j] < order[k]
    decreases |cs| - i
  {
    if i == |cs| then [] else
    var rest := LoanPositions(cs, i + 1);
    assert forall k :: 0 <= k < |rest| ==> rest[k] in rest;
    if Owes(cs[i]) then [i] + rest else rest
  }

  /** One deduction of applyClawback from the new counter: nothing is posted for a zero amount. */
  function Deduct(c: CounterState, amount: real, reason: Reason): (CounterState, seq<Entry>) {
    if amount > 0.0 then
      var c' := c.(balance := DebitedBalance(c.balance, amount));
      (c', [Entry(c.id, reason, -amount, c'.balance)])
    else (c, [])
  }

  /** One turn of applyClawback: the loan at one counter paid out of the new counter. */
  function ClawbackTurn(c: CounterState, l: Loan, remaining: real): (CounterState, Loan, real, seq<Entry>) {
    var paid := Clawback(l, remaining);
    var (c1, j1) := Deduct(c, paid.feePaid, TRANSACTION_FEE);
    var afterFee := if paid.feePaid > 0.0 then remaining - paid.feePaid else remaining;
    var (c2, j2) := Deduct(c1, paid.loanPaid, LOAN_REPAYMENT);
    var afterLoan := if paid.loanPaid > 0.0 then afterFee - paid.loanPaid else afterFee;
    (c2, paid.loan, afterLoan, j1 + j2)
  }

  datatype Claw = Claw(counters: seq<CounterState>, remaining: real, journal: seq<Entry>)

  /** The turn for the loan at position `p`; the new counter is the last one. */
  function ClawbackAt(cs: seq<CounterState>, p: nat, remaining: real): (w: Claw)
    requires p < |cs| - 1 && cs[p].loan.Some?
    ensures |w.counters| == |cs|
    ensures forall i :: 0 <= i < |cs| - 1 && i != p ==> w.counters[i] == cs[i]
  {
    var (c, l, left, j) := ClawbackTurn(cs[|cs| - 1], cs[p].loan.value, remaining);
    Claw(cs[|cs| - 1 := c][p := cs[p].(loan := Some(l))], left, j)
  }

  /** The loans at these positions can be repaid by the last counter. */
  predicate Repayable(cs: seq<CounterState>, order: seq<nat>) {
    && cs != [] && Positions(order, |cs| - 1) && Distinct(order)
    && forall k :: 0 <= k < |order| ==> cs[order[k]].loan.Some?
  }

  lemma LoansRepayable(cs: seq<CounterState>)
    requires cs != [] && cs[|cs| - 1].loan.None?
    ensures Repayable(cs, LoanPositions(cs, 0))
  {
    var order := LoanPositions(cs, 0);
    forall k | 0 <= k < |order| ensures order[k] < |cs| - 1 && Owes(cs[order[k]]) { assert order[k] in order; }
  }

  /** applyClawback. */
  function ClawbackAlong(cs: seq<CounterState>, order: seq<nat>, remaining: real): Claw
    requires Repayable(cs, order)
    decreases |order|
  {
    if order == [] || remaining <= 0.0 then Claw(cs, remaining, []) else
    var turn := ClawbackAt(cs, order[0], remaining);
    var rest := ClawbackAlong(turn.counters, order[1..], turn.remaining);
    Claw(rest.counters, rest.remaining, turn.journal + rest.journal)
  }

  predicate Known(cs: seq<CounterState>, id: Uuid) {
    exists i :: 0 <= i < |cs| && cs[i].id == id
  }

  /** applyProvisioning. */
  function ProvisionOp(cs: seq<CounterState>, req: ProvisionRequest): (seq<CounterState>, seq<Entry>) {
    if Known(cs, req.counterId) then (cs, []) else
    var c := NewCounter(req);
    var opening := [Entry(c.id, req.reason, req.initialBalance, c.balance)];
    if req.canRepayLoan && req.loan.None? then
      var cs1 := cs + [c];
      LoansRepayable(cs1);
      var claw := ClawbackAlong(cs1, LoanPositions(cs1, 0), req.initialBalance);
      (claw.counters, opening + claw.journal)
    else
      (cs + [c], opening)
  }

  // ---- expiring ----

  /** A balance written off: the counter as it is after expiry, and what it lost. */
  datatype WriteOff = WriteOff(counter: CounterState, balanceAtExpiry: real)

  datatype Expired = Expired(kept: seq<CounterState>, written: seq<WriteOff>)

  function Pruned(c: CounterState, now: Time): CounterState {
    c.(reservations := map k | k in c.reservations && c.reservations[k].terms.expiry > now :: c.reservations[k])
  }

  predicate HasExpired(c: CounterState, now: Time) {
    c.expiry.Some? && c.expiry.value <= now
  }

  /** RemoveExpiredEntries on one counter: zero or one counter kept, zero or one written off. */
  function ExpireCounter(c: CounterState, now: Time): Expired {
    var p := Pruned(c, now);
    var zeroed := p.(balance := 0.0);
    if !HasExpired(c, now) then
      if p.balance == 0.0 && (p.loan.None? || p.loan.value.loanBalance == 0.0) then Expired([], [])
          else Expired([p], [])
    else if p.reservations != map[] then
      Expired([p], [])
    else if Owes(p) then
      Expired([zeroed], if p.balance == 0.0 then [] else [WriteOff(zeroed, p.balance)])
    else
      Expired([], if p.balance == 0.0 then [] else [WriteOff(zeroed, p.balance)])
  }

  /** A step applied to every counter in turn, its results joined in order. */
  function Each(step: CounterState -> Expired, cs: seq<CounterState>): Expired {
    if cs == [] then Expired([], []) else
    var e := step(cs[0]);
    var rest := Each(step, cs[1..]);
    Expired(e.kept + rest.kept, e.written + rest.written)
  }

  function ExpireAt(now: Time): CounterState -> Expired {
    (c: CounterState) => ExpireCounter(c, now)
  }

  /** LoadedQuota.RemoveExpiredEntries. */
  function Expire(cs: seq<CounterState>, now: Time): Expired {
    Each(ExpireAt(now), cs)
  }

  /** publishExpiryJournals. */
  function ExpiryEntries(ws: seq<WriteOff>): seq<Entry> {
    seq(|ws|, i requires 0 <= i < |ws| => Entry(ws[i].counter.id, QUOTA_EXPIRY, ws[i].balanceAtExpiry, 0.0))
  }
}
