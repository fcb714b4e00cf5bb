/** Clawback: what a newly provisioned counter pays towards outstanding loans. */
module Loans {
  import opened Basics
  import opened Ledger
  import opened QuotaOps
  import opened Journal

  /** Loan.Clawback never takes more than was provisioned or is owed, pays the fee first, and
      what it takes is exactly what the loan is reduced by. */
  lemma {:induction false} ClawbackBounds(l: Loan, provisioned: real)
    requires SoundLoan(l) && provisioned >= 0.0
    ensures var p := Clawback(l, provisioned);
            && p.feePaid >= 0.0 && p.loanPaid >= 0.0 && p.feePaid + p.loanPaid <= provisioned
            && p.loan == l.(transactFee := l.transactFee - p.feePaid, loanBalance := l.loanBalance - p.loanPaid)
            && SoundLoan(p.loan)
            && (p.loanPaid > 0.0 ==> p.loan.transactFee == 0.0)
  {
    ClawbackAmountBounds(l, provisioned);
  }

  lemma {:induction false} ClawbackAmountBounds(l: Loan, provisioned: real)
    requires SoundLoan(l) && provisioned >= 0.0
    ensures 0.0 <= ClawbackAmount(l, provisioned) <= provisioned
  {
    FractionOf(provisioned, l.clawbackPercentage);
  }

  /** What a counter still owes. */
  function Owed(c: CounterState): real {
    if c.loan.Some? then c.loan.value.transactFee + c.loan.value.loanBalance else 0.0
  }

  /** A repaid loan has no fee left unpaid. */
  predicate Settled(c: CounterState) {
    c.loan.Some? && c.loan.value.loanBalance == 0.0 ==> c.loan.value.transactFee == 0.0
  }

  /** Only the loan differs; it is no larger, and its principal went down only if its fee is paid. */
  ghost predicate Repays(c: CounterState, c': CounterState) {
    && c' == c.(loan := c'.loan)
    && (c.loan.Some? <==> c'.loan.Some?)
    && (c.loan.Some? ==>
          && SoundLoan(c'.loan.value)
          && c'.loan.value.transactFee <= c.loan.value.transactFee
          && c'.loan.value.loanBalance <= c.loan.value.loanBalance
          && (c'.loan.value.loanBalance < c.loan.value.loanBalance ==> c'.loan.value.transactFee == 0.0))
  }

  lemma {:induction false} DeductExplained(cs: seq<CounterState>, i: nat, amount: real, reason: Reason)
    requires DistinctIds(cs) && i < |cs| && 0.0 <= amount <= cs[i].balance && !IsUsage(reason)
    ensures var (c, j) := Deduct(cs[i], amount, reason);
            c == cs[i].(balance := cs[i].balance - amount) && Explains(cs, j, cs[i := c])
  {
    var (c, j) := Deduct(cs[i], amount, reason);
    if amount > 0.0 {
      ExplainsEntry(cs, i, c, j[0]);
    } else {
      ExplainsQuiet(cs, cs[i := c]);
    }
  }

  lemma {:induction false} TurnExplained(cs: seq<CounterState>, i: nat, l: Loan, remaining: real)
    requires DistinctIds(cs) && i < |cs| && SoundLoan(l) && cs[i].balance == remaining >= 0.0
    ensures var (c, l', left, j) := ClawbackTurn(cs[i], l, remaining);
            && left >= 0.0 && c == cs[i].(balance := left) && Explains(cs, j, cs[i := c])
            && l' == Clawback(l, remaining).loan
            && remaining - left == l.transactFee + l.loanBalance - l'.transactFee - l'.loanBalance
  {
    ClawbackBounds(l, remaining);
    var p := Clawback(l, remaining);
    DeductExplained(cs, i, p.feePaid, TRANSACTION_FEE);
    var (c1, j1) := Deduct(cs[i], p.feePaid, TRANSACTION_FEE);
    DeductExplained(cs[i := c1], i, p.loanPaid, LOAN_REPAYMENT);
    var (c2, j2) := Deduct(c1, p.loanPaid, LOAN_REPAYMENT);
    assert cs[i := c1][i := c2] == cs[i := c2];
    ExplainsTrans(cs, j1, cs[i := c1], j2, cs[i := c2]);
  }

  predicate SoundLoans(cs: seq<CounterState>) {
    forall i :: 0 <= i < |cs| && cs[i].loan.Some? ==> SoundLoan(cs[i].loan.value)
  }

  /** The new counter can pay: it holds what remains, and has no loan of its own. */
  ghost predicate Paying(cs: seq<CounterState>, remaining: real) {
    cs != [] && cs[|cs| - 1].balance == remaining >= 0.0 && cs[|cs| - 1].loan.None?
  }

  /** From `cs` to `cs'` the new counter paid what the loans were reduced by, and nothing else changed. */
  ghost predicate PaysLoans(cs: seq<CounterState>, cs': seq<CounterState>, remaining: real) {
    && |cs'| == |cs| > 0
    && cs'[|cs| - 1] == cs[|cs| - 1].(balance := remaining)
    && (forall i :: 0 <= i < |cs| - 1 ==> Repays(cs[i], cs'[i]))
    && cs[|cs| - 1].balance - remaining == Total(cs, Owed) - Total(cs', Owed)
  }

  lemma TurnPays(cs: seq<CounterState>, p: nat, remaining: real)
    requires p < |cs| - 1 && DistinctIds(cs) && Paying(cs, remaining) && SoundLoans(cs) && cs[p].loan.Some?
    ensures var t := ClawbackAt(cs, p, remaining);
            && 0.0 <= t.remaining <= remaining && PaysLoans(cs, t.counters, t.remaining)
            && Explains(cs, t.journal, t.counters)
  {
    hide Explains;
    var last := |cs| - 1;
    ClawbackBounds(cs[p].loan.value, remaining);
    TurnExplained(cs, last, cs[p].loan.value, remaining);
    var (c, l, left, j) := ClawbackTurn(cs[last], cs[p].loan.value, remaining);
    var cs1 := cs[last := c];
    var cs2 := cs1[p := cs[p].(loan := Some(l))];
    ExplainsQuiet(cs1, cs2);
    ExplainsTrans(cs, j, cs1, [], cs2);
    assert j + [] == j;
    TotalUpdate(cs, last, c, Owed);
    TotalUpdate(cs1, p, cs2[p], Owed);
  }

  lemma PaysTrans(cs: seq<CounterState>, cs1: seq<CounterState>, r1: real, cs2: seq<CounterState>, r2: real)
    requires PaysLoans(cs, cs1, r1) && PaysLoans(cs1, cs2, r2)
    ensures PaysLoans(cs, cs2, r2)
  {
    forall i | 0 <= i < |cs| - 1 ensures Repays(cs[i], cs2[i]) {
      assert Repays(cs[i], cs1[i]) && Repays(cs1[i], cs2[i]);
    }
  }

  /** Over any list of loans: the new counter pays exactly what the loans are reduced by, never more
      than it has; every loan is repaid fee first; nothing else changes; the journal says so. */
  lemma {:induction false} ClawbackConserves(cs: seq<CounterState>, order: seq<nat>, remaining: real)
    requires Paying(cs, remaining) && DistinctIds(cs)
    requires Positions(order, |cs| - 1) && Distinct(order)
    requires SoundLoans(cs) && forall k :: 0 <= k < |order| ==> cs[order[k]].loan.Some?
    ensures var w := ClawbackAlong(cs, order, remaining);
            0.0 <= w.remaining <= remaining && PaysLoans(cs, w.counters, w.remaining)
            && Explains(cs, w.journal, w.counters)
    decreases |order|
  {
    if order == [] || remaining <= 0.0 {
      ExplainsQuiet(cs, cs);
    } else {
      TurnPays(cs, order[0], remaining);
      var t := ClawbackAt(cs, order[0], remaining);
      ClawbackConserves(t.counters, order[1..], t.remaining);
      var rest := ClawbackAlong(t.counters, order[1..], t.remaining);
      PaysTrans(cs, t.counters, t.remaining, rest.counters, rest.remaining);
      ExplainsTrans(cs, t.journal, t.counters, rest.journal, rest.counters);
    }
  }
}
