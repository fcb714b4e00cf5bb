/** What provisioning makes, told from the request alone: the new counter field by field, and what each loan is paid. */
module ProvisionCases {
  import opened Basics
  import opened Ledger
  import opened QuotaOps
  import opened Loans
  import opened ExpiryCases

  // ---- one loan ----

  /** What a loan asks of what has come in: all of its balance if that is within the minimum repayment, otherwise the
      minimum repayment or, if there is one, a percentage of what came in; of a fixed amount no more than came in. */
  function AskedBy(l: Loan, provisioned: real): real {
    if l.loanBalance <= l.minRepayment then MinReal(l.loanBalance, provisioned)
    else if l.clawbackPercentage == 0.0 then MinReal(l.minRepayment, provisioned)
    else provisioned * l.clawbackPercentage
  }

  /** The loan once it has been paid out of what came in: the fee first, then the balance, neither more than is owed. */
  predicate Repaid(l: Loan, provisioned: real, l': Loan) {
    var fee, principal := l.transactFee - l'.transactFee, l.loanBalance - l'.loanBalance;
    && l' == l.(transactFee := l'.transactFee, loanBalance := l'.loanBalance)
    && if l.loanBalance <= 0.0 then fee == 0.0 && principal == 0.0
       else
         && fee == MinReal(AskedBy(l, provisioned), l.transactFee)
         && principal == MinReal(AskedBy(l, provisioned) - fee, l.loanBalance)
  }

  lemma AskedIsAmount(l: Loan, provisioned: real)
    ensures AskedBy(l, provisioned) == ClawbackAmount(l, provisioned)
  {}

  /** Exactly what a loan is paid, and that this is what it falls by. */
  lemma ClawbackExactly(l: Loan, provisioned: real)
    ensures var p := Clawback(l, provisioned);
            && Repaid(l, provisioned, p.loan)
            && p.feePaid == l.transactFee - p.loan.transactFee && p.loanPaid == l.loanBalance - p.loan.loanBalance
  {
    hide AskedBy, ClawbackAmount;
    AskedIsAmount(l, provisioned);
  }

  // ---- a list of loans ----

  /** What the loans at the first `k` of these positions are paid. */
  function PaidBefore(cs: seq<CounterState>, cs': seq<CounterState>, order: seq<nat>, k: nat): real
    requires |cs'| == |cs| && Positions(order, |cs|) && k <= |order|
  {
    if k == 0 then 0.0 else
    PaidBefore(cs, cs', order, k - 1) + (Owed(cs[order[k - 1]]) - Owed(cs'[order[k - 1]]))
  }

  /** A counter with a loan when this much is left to pay it with. */
  predicate PaidFrom(c: CounterState, left: real, c': CounterState) {
    if left <= 0.0 || c.loan.None? then c' == c
    else c'.loan.Some? && c' == c.(loan := c'.loan) && Repaid(c.loan.value, left, c'.loan.value)
  }

  lemma {:induction false} ClawbackElsewhere(cs: seq<CounterState>, order: seq<nat>, remaining: real)
    requires Repayable(cs, order)
    ensures var w := ClawbackAlong(cs, order, remaining);
            |w.counters| == |cs| && forall i :: 0 <= i < |cs| - 1 && i !in order ==> w.counters[i] == cs[i]
    decreases |order|
  {
    if order != [] && remaining > 0.0 {
      var t := ClawbackAt(cs, order[0], remaining);
      ClawbackElsewhere(t.counters, order[1..], t.remaining);
    }
  }

  lemma TurnExactly(cs: seq<CounterState>, order: seq<nat>, remaining: real)
    requires Repayable(cs, order) && SoundLoans(cs) && order != [] && remaining > 0.0
    ensures var t, p := ClawbackAt(cs, order[0], remaining), order[0];
            && PaidFrom(cs[p], remaining, t.counters[p])
            && t.remaining == remaining - (Owed(cs[p]) - Owed(t.counters[p])) && t.remaining >= 0.0
            && Repayable(t.counters, order[1..]) && SoundLoans(t.counters)
            && forall j :: 0 < j < |order| ==> t.counters[order[j]] == cs[order[j]]
  {
    hide Clawback, Repaid;
    ClawbackExactly(cs[order[0]].loan.value, remaining);
    ClawbackBounds(cs[order[0]].loan.value, remaining);
  }

  lemma {:induction false} PaidBeforeShifts(cs: seq<CounterState>, cs1: seq<CounterState>, cs': seq<CounterState>,
                                            order: seq<nat>, k: nat)
    requires |cs'| == |cs| == |cs1| && Positions(order, |cs|) && Distinct(order) && 0 < k <= |order|
    requires cs'[order[0]] == cs1[order[0]] && forall j :: 0 < j < |order| ==> cs1[order[j]] == cs[order[j]]
    ensures PaidBefore(cs, cs', order, k)
            == Owed(cs[order[0]]) - Owed(cs1[order[0]]) + PaidBefore(cs1, cs', order[1..], k - 1)
    decreases k
  {
    if k > 1 { PaidBeforeShifts(cs, cs1, cs', order, k - 1); }
  }

  /** Each loan of a list is paid exactly out of what those before it have left, and what is left in the end is the
      rest. */
  lemma {:induction false} ClawbackListExactly(cs: seq<CounterState>, order: seq<nat>, remaining: real, k: nat)
    requires Repayable(cs, order) && SoundLoans(cs) && remaining >= 0.0 && k <= |order|
    ensures var w := ClawbackAlong(cs, order, remaining);
            && |w.counters| == |cs|
            && (k < |order| ==>
                  PaidFrom(cs[order[k]], remaining - PaidBefore(cs, w.counters, order, k), w.counters[order[k]]))
            && w.remaining == remaining - PaidBefore(cs, w.counters, order, |order|)
    decreases |order|
  {
    hide ClawbackAt, PaidFrom, SoundLoans, Owed, PaidBefore, Repaid;
    var w := ClawbackAlong(cs, order, remaining);
    ClawbackElsewhere(cs, order, remaining);
    if order != [] && remaining > 0.0 {
      var t := ClawbackAt(cs, order[0], remaining);
      TurnExactly(cs, order, remaining);
      ClawbackElsewhere(t.counters, order[1..], t.remaining);
      ClawbackListExactly(t.counters, order[1..], t.remaining, if k > 0 then k - 1 else 0);
      PaidBeforeShifts(cs, t.counters, w.counters, order, |order|);
      NoneBefore(cs, w.counters, order);
      if k > 0 { PaidBeforeShifts(cs, t.counters, w.counters, order, k); }
    } else {
      NothingPaid(cs, order, |order|);
      NothingPaid(cs, order, k);
      if k < |order| { NotPaid(cs[order[k]], remaining); }
    }
  }

  lemma NoneBefore(cs: seq<CounterState>, cs': seq<CounterState>, order: seq<nat>)
    requires |cs'| == |cs| && Positions(order, |cs|)
    ensures PaidBefore(cs, cs', order, 0) == 0.0
  {}

  lemma NotPaid(c: CounterState, left: real)
    requires left <= 0.0
    ensures PaidFrom(c, left, c)
  {}

  lemma {:induction false} NothingPaid(cs: seq<CounterState>, order: seq<nat>, k: nat)
    requires Positions(order, |cs|) && k <= |order|
    ensures PaidBefore(cs, cs, order, k) == 0.0
  {
    if k > 0 { NothingPaid(cs, order, k - 1); }
  }

  // ---- a whole provisioning ----

  /** What the loans of the first `i` counters are paid. */
  function PaidUpTo(cs: seq<CounterState>, cs': seq<CounterState>, i: nat): real
    requires |cs| <= |cs'| && i <= |cs|
  {
    if i == 0 then 0.0 else PaidUpTo(cs, cs', i - 1) + (Owed(cs[i - 1]) - Owed(cs'[i - 1]))
  }

  lemma {:induction false} PaidAgrees(cs: seq<CounterState>, cs1: seq<CounterState>, cs': seq<CounterState>,
                                      order: seq<nat>, i: nat, k: nat)
    requires |cs1| == |cs'| == |cs| + 1 && Positions(order, |cs1|) && i <= |cs| && k <= |order|
    requires forall j :: 0 <= j < |cs| ==> cs1[j] == cs[j]
    requires forall j :: 0 <= j < k ==> order[j] < i
    requires forall j :: k <= j < |order| ==> order[j] >= i
    requires forall j, l :: 0 <= j < l < |order| ==> order[j] < order[l]
    requires forall j :: 0 <= j < |cs| && j !in order ==> cs'[j] == cs[j]
    ensures PaidBefore(cs1, cs', order, k) == PaidUpTo(cs, cs', i)
    decreases i
  {
    if i > 0 {
      if k > 0 && order[k - 1] == i - 1 {
        PaidAgrees(cs, cs1, cs', order, i - 1, k - 1);
      } else {
        assert i - 1 !in order;
        PaidAgrees(cs, cs1, cs', order, i - 1, k);
      }
    }
  }

  /** What is provisioned pays loans if the request allows it and brings no loan itself. */
  predicate PaysBack(req: ProvisionRequest) {
    req.canRepayLoan && req.loan.None?
  }

  /** The counter a request asks for, but for its balance. */
  predicate MadeFor(c: CounterState, req: ProvisionRequest) {
    && c.id == req.counterId && c.unitType == req.unitType && c.priority == req.priority && c.expiry == req.expiry
    && c.canConvert == req.canConvert && c.keys == req.keys && c.reservations == map[]
    && (req.loan.None? ==> c.loan.None?)
    && (req.loan.Some? ==>
          var terms := req.loan.value;
          c.loan == Some(Loan(terms.transactionFee, req.initialBalance, terms.minRepayment, terms.clawbackPercentage)))
  }

  /** The positions of the counters that owe, oldest first. */
  predicate Owing(cs: seq<CounterState>, order: seq<nat>) {
    && (forall j :: 0 <= j < |order| ==> order[j] < |cs|)
    && (forall p :: 0 <= p < |cs| ==> (p in order <==> Owes(cs[p])))
    && forall j, l :: 0 <= j < l < |order| ==> order[j] < order[l]
  }

  lemma LoansOwing(cs: seq<CounterState>, c: CounterState)
    requires c.loan.None?
    ensures Repayable(cs + [c], LoanPositions(cs + [c], 0)) && Owing(cs, LoanPositions(cs + [c], 0))
  {
    var order := LoanPositions(cs + [c], 0);
    LoansRepayable(cs + [c]);
    assert forall j :: 0 <= j < |order| ==> order[j] in order;
  }

  lemma LoansPaid(cs: seq<CounterState>, cs1: seq<CounterState>, order: seq<nat>, initial: real)
    requires SoundLoans(cs1) && initial >= 0.0 && Repayable(cs1, order) && Owing(cs, order)
    requires |cs1| == |cs| + 1 && forall j :: 0 <= j < |cs| ==> cs1[j] == cs[j]
    ensures var w := ClawbackAlong(cs1, order, initial);
            && |w.counters| == |cs| + 1 && w.remaining == initial - PaidUpTo(cs, w.counters, |cs|)
            && forall i :: 0 <= i < |cs| ==> PaidFrom(cs[i], initial - PaidUpTo(cs, w.counters, i), w.counters[i])
  {
    hide PaidFrom, ClawbackAlong, Owed, SoundLoans, Repayable, Owes, PaidUpTo, PaidBefore;
    var w := ClawbackAlong(cs1, order, initial);
    ClawbackElsewhere(cs1, order, initial);
    ClawbackListExactly(cs1, order, initial, |order|);
    PaidAgrees(cs, cs1, w.counters, order, |cs|, |order|);
    forall i | 0 <= i < |cs|
      ensures PaidFrom(cs[i], initial - PaidUpTo(cs, w.counters, i), w.counters[i])
    {
      LoanPaid(cs, cs1, order, initial, i);
    }
  }

  lemma LoanPaid(cs: seq<CounterState>, cs1: seq<CounterState>, order: seq<nat>, initial: real, i: nat)
    requires SoundLoans(cs1) && initial >= 0.0 && Repayable(cs1, order) && Owing(cs, order) && i < |cs|
    requires |cs1| == |cs| + 1 && forall j :: 0 <= j < |cs| ==> cs1[j] == cs[j]
    ensures var w := ClawbackAlong(cs1, order, initial);
            |w.counters| == |cs| + 1 && PaidFrom(cs[i], initial - PaidUpTo(cs, w.counters, i), w.counters[i])
  {
    hide PaidFrom, ClawbackAlong, Owed, Repayable, PaidUpTo, PaidBefore;
    var w := ClawbackAlong(cs1, order, initial);
    ClawbackElsewhere(cs1, order, initial);
    if i in order {
      var k :| 0 <= k < |order| && order[k] == i;
      PaidAgrees(cs, cs1, w.counters, order, i, k);
      ClawbackListExactly(cs1, order, initial, k);
    } else {
      OwesNothing(cs[i], initial - PaidUpTo(cs, w.counters, i));
    }
  }

  lemma OwesNothing(c: CounterState, left: real)
    requires !Owes(c) && (c.loan.Some? ==> SoundLoan(c.loan.value))
    ensures PaidFrom(c, left, c)
  {}

  /** A counter is provisioned once. It is the last one, as asked for; the counters before it change in their loans
      only, each paid out of what the request brings and the older ones have left; its balance is the rest. */
  lemma ProvisionedExactly(cs: seq<CounterState>, req: ProvisionRequest)
    requires SoundLoans(cs) && req.initialBalance >= 0.0 && DistinctIds(cs) && !Known(cs, req.counterId)
    ensures var cs', j := ProvisionOp(cs, req).0, ProvisionOp(cs, req).1;
            && |cs'| == |cs| + 1 && MadeFor(cs'[|cs|], req)
            && j != [] && j[0] == Entry(req.counterId, req.reason, req.initialBalance, req.initialBalance)
            && cs'[|cs|].balance == req.initialBalance - PaidUpTo(cs, cs', |cs|)
            && forall i :: 0 <= i < |cs| ==>
                  if PaysBack(req) then PaidFrom(cs[i], req.initialBalance - PaidUpTo(cs, cs', i), cs'[i])
                  else cs'[i] == cs[i]
  {
    hide PaidFrom, ClawbackAlong, LoanPositions, PaidUpTo;
    var c, cs' := NewCounter(req), ProvisionOp(cs, req).0;
    var cs1 := cs + [c];
    if PaysBack(req) {
      var order := LoanPositions(cs1, 0);
      LoansOwing(cs, c);
      assert forall i, j :: 0 <= i < j < |cs1| ==> cs1[i].id != cs1[j].id;
      assert SoundLoans(cs1);
      LoansPaid(cs, cs1, order, req.initialBalance);
      ClawbackConserves(cs1, order, req.initialBalance);
    } else {
      NonePaid(cs, cs', |cs|);
    }
  }

  lemma {:induction false} NonePaid(cs: seq<CounterState>, cs': seq<CounterState>, i: nat)
    requires |cs| <= |cs'| && i <= |cs| && forall j :: 0 <= j < i ==> cs'[j] == cs[j]
    ensures PaidUpTo(cs, cs', i) == 0.0
  {
    if i > 0 { NonePaid(cs, cs', i - 1); }
  }

  /** A counter just provisioned is written off at the expiry asked for, and not before. */
  lemma ProvisionedExpires(c: CounterState, req: ProvisionRequest, now: Time)
    requires MadeFor(c, req)
    ensures Expire([c], now).written != [] <==> req.expiry.Some? && req.expiry.value <= now && c.balance != 0.0
  {
    hide Expire;
    var w := WriteOff(c.(balance := 0.0, reservations := map[]), c.balance);
    WrittenOffExactly([c], now, w);
    if WrittenAs(c, w, now) { assert WrittenAs([c][0], w, now); }
    if Expire([c], now).written != [] {
      var w' := Expire([c], now).written[0];
      WrittenOffExactly([c], now, w');
    }
  }

  // ---- what is posted for it ----

  /** What is posted for a reason. */
  function PostedFor(j: seq<Entry>, reason: Reason): real {
    if j == [] then 0.0 else (if j[0].reason == reason then j[0].adjusted else 0.0) + PostedFor(j[1..], reason)
  }

  lemma {:induction false} PostedForConcat(a: seq<Entry>, b: seq<Entry>, reason: Reason)
    ensures PostedFor(a + b, reason) == PostedFor(a, reason) + PostedFor(b, reason)
    decreases |a|
  {
    if a == [] {
      assert a + b == b;
    } else {
      assert (a + b)[1..] == a[1..] + b;
      PostedForConcat(a[1..], b, reason);
    }
  }

  ghost function FeeOwed(): CounterState -> real {
    (c: CounterState) => if c.loan.Some? then c.loan.value.transactFee else 0.0
  }

  ghost function PrincipalOwed(): CounterState -> real {
    (c: CounterState) => if c.loan.Some? then c.loan.value.loanBalance else 0.0
  }

  /** From `cs` to `cs'` fees fall by what is posted as fees, and principals by what is posted as repayments. */
  ghost predicate PostsPayments(cs: seq<CounterState>, cs': seq<CounterState>, j: seq<Entry>) {
    && Total(cs', FeeOwed()) == Total(cs, FeeOwed()) + PostedFor(j, TRANSACTION_FEE)
    && Total(cs', PrincipalOwed()) == Total(cs, PrincipalOwed()) + PostedFor(j, LOAN_REPAYMENT)
  }

  lemma DeductPosts(c: CounterState, amount: real, reason: Reason)
    requires amount >= 0.0
    ensures var (c', j) := Deduct(c, amount, reason);
            && c'.loan == c.loan
            && forall r :: PostedFor(j, r) == if r == reason then -amount else 0.0
  {
    var (c', j) := Deduct(c, amount, reason);
    if amount > 0.0 { assert j[1..] == []; }
  }

  lemma TurnPosts(c: CounterState, l: Loan, remaining: real)
    requires SoundLoan(l) && remaining >= 0.0
    ensures var (c', l', left, j) := ClawbackTurn(c, l, remaining);
            && c'.loan == c.loan
            && PostedFor(j, TRANSACTION_FEE) == l'.transactFee - l.transactFee
            && PostedFor(j, LOAN_REPAYMENT) == l'.loanBalance - l.loanBalance
  {
    hide Deduct, Clawback, PostedFor;
    var p := Clawback(l, remaining);
    ClawbackBounds(l, remaining);
    var (c1, j1) := Deduct(c, p.feePaid, TRANSACTION_FEE);
    var (c2, j2) := Deduct(c1, p.loanPaid, LOAN_REPAYMENT);
    DeductPosts(c, p.feePaid, TRANSACTION_FEE);
    DeductPosts(c1, p.loanPaid, LOAN_REPAYMENT);
    PostedForConcat(j1, j2, TRANSACTION_FEE);
    PostedForConcat(j1, j2, LOAN_REPAYMENT);
  }

  lemma TurnPostsPayments(cs: seq<CounterState>, order: seq<nat>, remaining: real)
    requires Repayable(cs, order) && SoundLoans(cs) && order != [] && remaining > 0.0
    ensures var t := ClawbackAt(cs, order[0], remaining); PostsPayments(cs, t.counters, t.journal)
  {
    hide ClawbackTurn, PostedFor, Total, Repayable;
    RepayableFirst(cs, order);
    var last, p := |cs| - 1, order[0];
    var (c, l, left, j) := ClawbackTurn(cs[last], cs[p].loan.value, remaining);
    TurnPosts(cs[last], cs[p].loan.value, remaining);
    var cs1 := cs[last := c];
    var paid := cs[p].(loan := Some(l));
    TotalUpdate(cs, last, c, FeeOwed());
    TotalUpdate(cs, last, c, PrincipalOwed());
    TotalUpdate(cs1, p, paid, FeeOwed());
    TotalUpdate(cs1, p, paid, PrincipalOwed());
  }

  lemma RepayableFirst(cs: seq<CounterState>, order: seq<nat>)
    requires Repayable(cs, order) && order != []
    ensures order[0] < |cs| - 1 && cs[order[0]].loan.Some?
  {}

  /** Paying loans posts fees as fees and repayments as repayments, and each for what the loans fall by. */
  lemma {:induction false} ClawbackPostsPayments(cs: seq<CounterState>, order: seq<nat>, remaining: real)
    requires Repayable(cs, order) && SoundLoans(cs)
    ensures var w := ClawbackAlong(cs, order, remaining); PostsPayments(cs, w.counters, w.journal)
    decreases |order|
  {
    hide ClawbackAt, PostedFor, SoundLoans, Total;
    if order == [] || remaining <= 0.0 {
      PostedForNone();
    } else {
      var t := ClawbackAt(cs, order[0], remaining);
      TurnExactly(cs, order, remaining);
      TurnPostsPayments(cs, order, remaining);
      ClawbackPostsPayments(t.counters, order[1..], t.remaining);
      var rest := ClawbackAlong(t.counters, order[1..], t.remaining);
      PostedForConcat(t.journal, rest.journal, TRANSACTION_FEE);
      PostedForConcat(t.journal, rest.journal, LOAN_REPAYMENT);
    }
  }

  lemma PostedForNone()
    ensures forall r :: PostedFor([], r) == 0.0
  {}
}
