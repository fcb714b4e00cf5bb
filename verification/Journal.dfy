/** Reading the quota journal back: signed by reason, its entries explain every balance. */
module Journal {
  import opened Basics
  import opened Ledger

  /** Reasons under which a balance is taken down by the (positive) amount posted. */
  predicate IsUsage(reason: Reason) {
    reason == SERVICE_USAGE || reason == CONVERSION || reason == TRANSFER_OUT || reason == QUOTA_EXPIRY
  }

  predicate IsProvision(reason: Reason) {
    reason == QUOTA_PROVISIONED || reason == TRANSFER_IN
  }

  /** The effect of an entry on its counter. Fees and repayments are posted already negated. */
  function Signed(e: Entry): real {
    if IsUsage(e.reason) then -e.adjusted else e.adjusted
  }

  /** The effect of a journal on one counter. */
  function Posted(j: seq<Entry>, id: Uuid): real {
    if j == [] then 0.0
    else Posted(j[..|j| - 1], id) + (if j[|j| - 1].counter == id then Signed(j[|j| - 1]) else 0.0)
  }

  lemma {:induction false} PostedConcat(j1: seq<Entry>, j2: seq<Entry>, id: Uuid)
    ensures Posted(j1 + j2, id) == Posted(j1, id) + Posted(j2, id)
    decreases |j2|
  {
    if j2 == [] {
      assert j1 + j2 == j1;
    } else {
      PostedConcat(j1, j2[..|j2| - 1], id);
      assert (j1 + j2)[..|j1 + j2| - 1] == j1 + j2[..|j2| - 1];
    }
  }

  function BalanceIf(id: Uuid): CounterState -> real {
    (c: CounterState) => if c.id == id then c.balance else 0.0
  }

  /** The balance stored under a counter id; zero when there is no such counter. */
  function Stored(cs: seq<CounterState>, id: Uuid): real {
    Total(cs, BalanceIf(id))
  }

  lemma StoredAt(cs: seq<CounterState>, i: nat)
    requires i < |cs| && DistinctIds(cs)
    ensures Stored(cs, cs[i].id) == cs[i].balance
  {
    var ws := Weights(cs, BalanceIf(cs[i].id));
    SumUpdate(ws, i, 0.0);
    SumZero(ws[i := 0.0]);
  }

  /** The journal accounts for the change from `cs` to `cs'`, and each entry carries the
      running balance of its counter. */
  ghost predicate Explains(cs: seq<CounterState>, j: seq<Entry>, cs': seq<CounterState>) {
    && (forall id :: Stored(cs', id) == Stored(cs, id) + Posted(j, id))
    && (forall k :: 0 <= k < |j| ==> j[k].balance == Stored(cs, j[k].counter) + Posted(j[..k + 1], j[k].counter))
  }

  lemma {:induction false} ExplainsTrans(cs: seq<CounterState>, j1: seq<Entry>, cs1: seq<CounterState>, j2: seq<Entry>,
                                         cs2: seq<CounterState>)
    requires Explains(cs, j1, cs1) && Explains(cs1, j2, cs2)
    ensures Explains(cs, j1 + j2, cs2)
  {
    forall id ensures Stored(cs2, id) == Stored(cs, id) + Posted(j1 + j2, id) {
      PostedConcat(j1, j2, id);
    }
    var j := j1 + j2;
    forall k | 0 <= k < |j|
      ensures j[k].balance == Stored(cs, j[k].counter) + Posted(j[..k + 1], j[k].counter)
    {
      if k < |j1| {
        assert j[..k + 1] == j1[..k + 1];
      } else {
        assert j[..k + 1] == j1 + j2[..k - |j1| + 1];
        PostedConcat(j1, j2[..k - |j1| + 1], j[k].counter);
      }
    }
  }

  /** Nothing posted, no balance changed. */
  lemma ExplainsQuiet(cs: seq<CounterState>, cs': seq<CounterState>)
    requires |cs'| == |cs|
    requires forall i :: 0 <= i < |cs| ==> cs'[i].id == cs[i].id && cs'[i].balance == cs[i].balance
    ensures Explains(cs, [], cs')
  {
    forall id ensures Stored(cs', id) == Stored(cs, id) {
      assert Weights(cs', BalanceIf(id)) == Weights(cs, BalanceIf(id));
    }
  }

  lemma PostedOne(e: Entry, id: Uuid)
    ensures Posted([e], id) == if e.counter == id then Signed(e) else 0.0
  {
    assert [e][..0] == [];
  }

  /** One entry posted for one counter. */
  lemma ExplainsEntry(cs: seq<CounterState>, i: nat, c: CounterState, e: Entry)
    requires DistinctIds(cs) && i < |cs| && c.id == cs[i].id == e.counter
    requires Signed(e) == c.balance - cs[i].balance && e.balance == c.balance
    ensures Explains(cs, [e], cs[i := c])
  {
    StoredAt(cs, i);
    forall id ensures Stored(cs[i := c], id) == Stored(cs, id) + Posted([e], id) {
      TotalUpdate(cs, i, c, BalanceIf(id));
      PostedOne(e, id);
    }
    PostedOne(e, e.counter);
    assert [e][..0 + 1] == [e];
  }

  /** Usage posted under a usage reason only. */
  predicate UsageReasons(cs: seq<CounterState>) {
    forall i, k :: 0 <= i < |cs| && k in cs[i].reservations ==> IsUsage(cs[i].reservations[k].terms.reason)
  }
}
