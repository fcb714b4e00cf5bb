/** What may go wrong when a debit retries: it reports a value it has not committed, or publishes what it has not. */
module RetryCases {
  import opened Basics
  import opened Charging
  import opened Ledger
  import opened QuotaOps
  import opened Journal
  import opened Reserving
  import opened Debiting
  import opened Expiry
  import opened Attempts
  import opened Grants
  import opened Dwindling
  import opened Publication
  import opened Retries
  import opened Protocol

  // ---- the id is reserved again ----

  function KeyOf(service: string): RateKey {
    RateKey(service, "*", ANY, "*", "*")
  }

  function OneTerms(): Terms {
    Terms(1.0, 1.0, 0.0, SERVICE_USAGE, 10)
  }

  /** Money for voice, with or without a reservation of one under id 1. */
  function Purse(held: bool): CounterState {
    CounterState(1, MONETARY, 0, 10.0, None, if held then map[1 := Reservation(0, 1.0, OneTerms())] else map[], false,
                 [KeyOf("VOICE")], None)
  }

  /** Service units for messages, with or without one of them reserved under id 1. */
  function Bundle(held: bool): CounterState {
    CounterState(2, UNITS, 0, 10.0, None, if held then map[1 := Reservation(1, 0.0, OneTerms())] else map[], false,
                 [KeyOf("SMS")], None)
  }

  function Wallet(onMoney: bool, onUnits: bool): seq<CounterState> {
    [Purse(onMoney), Bundle(onUnits)]
  }

  lemma SolventAlone(c: CounterState)
    requires |c.reservations| <= 1 && c.balance >= 0.0 && c.loan.None?
    requires forall k :: k in c.reservations ==>
               && SoundReservation(c.unitType, c.reservations[k]) && c.reservations[k].value <= c.balance
               && c.reservations[k].units <= IntPart(c.balance)
    ensures Solvent(c)
  {
    if k :| k in c.reservations {
      HeldSplit(c.reservations, k);
      assert |c.reservations - {k}| == 0;
    }
  }

  lemma PurseKept(held: bool)
    ensures Solvent(Purse(held)) && Expire([Purse(held)], 0).kept == [Purse(held)]
  {
    SolventAlone(Purse(held));
    KeptWhole(Purse(held));
  }

  lemma BundleKept(held: bool)
    ensures Solvent(Bundle(held)) && Expire([Bundle(held)], 0).kept == [Bundle(held)]
  {
    SolventAlone(Bundle(held));
    KeptWhole(Bundle(held));
  }

  lemma WalletSound(onMoney: bool, onUnits: bool)
    ensures Sound(Wallet(onMoney, onUnits)) && Expire(Wallet(onMoney, onUnits), 0).kept == Wallet(onMoney, onUnits)
  {
    hide Solvent, Expire;
    PurseKept(onMoney);
    BundleKept(onUnits);
    assert [Purse(onMoney)] + [Bundle(onUnits)] == Wallet(onMoney, onUnits);
    ExpireTwo([Purse(onMoney)], [Bundle(onUnits)]);
  }

  lemma ExpireTwo(a: seq<CounterState>, b: seq<CounterState>)
    requires Expire(a, 0).kept == a && Expire(b, 0).kept == b
    ensures Expire(a + b, 0).kept == a + b
  {
    EachConcat(ExpireAt(0), a, b);
  }

  /** One counter is wanted, or none. */
  lemma PicksOne(cs: seq<CounterState>, p: nat, want: CounterState -> bool)
    requires p < |cs| && forall i :: 0 <= i < |cs| ==> (want(cs[i]) <==> i == p)
    ensures Picks(cs, [p], want)
  {}

  lemma PicksNone(cs: seq<CounterState>, want: CounterState -> bool)
    requires forall i :: 0 <= i < |cs| ==> !want(cs[i])
    ensures Picks(cs, [], want)
  {}

  lemma KeptWhole(c: CounterState)
    requires c.expiry.None? && c.balance > 0.0
    requires forall k :: k in c.reservations ==> c.reservations[k].terms.expiry > 0
    ensures Expire([c], 0).kept == [c]
  {
    assert Pruned(c, 0) == c;
    ExpireSingle(c, 0);
  }

  /** One unit reserved under id 1, for a service. */
  function ReserveFor(service: string): Call {
    Reserve(1, SERVICE_USAGE, KeyOf(service), UNITS, 1, 1.0, 1.0, 10, true)
  }

  lemma Matching()
    ensures MatchesKey([KeyOf("VOICE")], KeyOf("VOICE")) && !MatchesKey([KeyOf("VOICE")], KeyOf("SMS"))
    ensures MatchesKey([KeyOf("SMS")], KeyOf("SMS")) && !MatchesKey([KeyOf("SMS")], KeyOf("VOICE"))
  {
    assert "VOICE"[0] != "SMS"[0] && [KeyOf("VOICE")][0] == KeyOf("VOICE") && [KeyOf("SMS")][0] == KeyOf("SMS");
    assert Matches(KeyOf("VOICE"), KeyOf("VOICE")).0 && Matches(KeyOf("SMS"), KeyOf("SMS")).0;
  }

  lemma PurseVisited()
    ensures Visits(Wallet(false, false), ReserveFor("VOICE"), Visit([], [0]))
  {
    hide Picks, KeyOf, MatchesKey;
    Matching();
    PicksOne(Wallet(false, false), 0, Selecting(KeyOf("VOICE"), MONETARY, SERVICE_USAGE));
    PicksNone(Wallet(false, false), Selecting(KeyOf("VOICE"), UNITS, SERVICE_USAGE));
  }

  lemma BundleVisited()
    ensures Visits(Wallet(false, false), ReserveFor("SMS"), Visit([1], []))
  {
    hide Picks, KeyOf, MatchesKey;
    Matching();
    PicksOne(Wallet(false, false), 1, Selecting(KeyOf("SMS"), UNITS, SERVICE_USAGE));
    PicksNone(Wallet(false, false), Selecting(KeyOf("SMS"), MONETARY, SERVICE_USAGE));
  }

  lemma PurseIs()
    ensures AvailableValue(Purse(false)) == 10.0
  {}

  lemma WalletIs(onMoney: bool, onUnits: bool)
    ensures var cs := Wallet(onMoney, onUnits);
            |cs| == 2 && cs[0] == Purse(onMoney) && cs[1] == Bundle(onUnits) && cs[0 := Purse(!onMoney)]
            == Wallet(!onMoney, onUnits) && cs[1 := Bundle(!onUnits)] == Wallet(onMoney, !onUnits)
  {}

  /** One unit at a price of one, bought with the only money there is. */
  lemma BuysOne(cs: seq<CounterState>, p: nat, id: Uuid, terms: Terms, c: CounterState)
    requires p < |cs| && Price(terms) == 1.0 && Cost(terms, 1) == 1.0
    requires AvailableValue(cs[p]) == 10.0 && ReserveValue(cs[p], id, 1.0, terms) == (c, 1.0)
    ensures ReserveMoney(cs, [p], id, 1, terms) == UnitsReserve(cs[p := c], 1)
  {
    hide ReserveValue, AvailableValue, Price, Cost, Quotient;
    var ws := Weights(cs, ValueFree());
    assert [p][1..] == [] && ws[p] == 10.0 && SumAlong(ws, []) == 0.0;
    assert AvailableAlong(cs, [p]) == SumAlong(ws, [p]) == 10.0;
    OverOne(10.0);
    assert ReserveValueAlong(cs[p := c], [], id, 0.0, terms) == cs[p := c];
  }

  lemma OverOne(x: real)
    ensures Quotient(x, 1.0) == x
  {}

  lemma OperatesOnMoney(cs: seq<CounterState>, p: nat, call: Call, v: Visit, terms: Terms, c: CounterState)
    requires Sound(cs) && SoundCall(call, 0.0) && Visits(cs, call, v) && call.Reserve? && terms == TermsOf(call, 0, 0.0)
    requires call.unitType != MONETARY && call.allowOOB && call.requested == 1
    requires v == Visit([], [p]) && p < |cs| && Price(terms) == 1.0 && Cost(terms, 1) == 1.0
    requires AvailableValue(cs[p]) == 10.0 && ReserveValue(cs[p], call.id, 1.0, terms) == (c, 1.0)
    ensures Operate(cs, call, v, 0, 0.0).counters == cs[p := c]
  {
    hide Sound, Visits, ReserveMoney, Price, Cost, AvailableValue, ReserveValue;
    BuysOne(cs, p, call.id, terms, c);
  }

  lemma OnePrice()
    ensures Price(OneTerms()) == 1.0 && Cost(OneTerms(), 1) == 1.0
  {}

  lemma PurseTakes()
    ensures ReserveValue(Purse(false), 1, 1.0, OneTerms()) == (Purse(true), 1.0)
  {
    assert AvailableValue(Purse(false)) == 10.0;
    assert Mul(1.0, 1.0) == 1.0;
    var (c, taken) := TakeValue(Purse(false), 1, 1.0, OneTerms());
    assert taken == 1.0;
  }

  lemma OneReservedOnMoney()
    ensures var cs, call, v := Wallet(false, false), ReserveFor("VOICE"), Visit([], [0]);
            && Visits(cs, call, v) && Sound(cs)
            && Operate(cs, call, v, 0, 0.0).counters == Wallet(true, false)
  {
    hide Visits, Sound, Wallet, Operate, Price, Cost, KeyOf, Purse, AvailableValue, ReserveValue;
    WalletSound(false, false);
    WalletIs(false, false);
    PurseVisited();
    PurseIs();
    OnePrice();
    PurseTakes();
    assert TermsOf(ReserveFor("VOICE"), 0, 0.0) == OneTerms();
    OperatesOnMoney(Wallet(false, false), 0, ReserveFor("VOICE"), Visit([], [0]), OneTerms(), Purse(true));
  }

  lemma BundleReserves()
    ensures ReserveUnitsAlong(Wallet(false, false), [1], 1, 1, OneTerms()) == UnitsReserve(Wallet(false, true), 1)
  {
    hide Wallet, ReserveUnits;
    WalletIs(false, false);
    BundleTakes();
    assert [1][1..] == [];
  }

  lemma BundleTakes()
    ensures ReserveUnits(Bundle(false), 1, 1, OneTerms()) == (Bundle(true), 1)
  {
    assert AvailableUnits(Bundle(false)) == 10;
    ScaledByOne(1);
  }

  lemma OneReservedOnUnits()
    ensures var cs, call, v := Wallet(false, false), ReserveFor("SMS"), Visit([1], []);
            && Visits(cs, call, v) && Sound(cs)
            && Operate(cs, call, v, 0, 0.0).counters == Wallet(false, true)
  {
    hide Visits, Sound, Wallet, Price, KeyOf, PaysWithMoney, ReserveUnitsAlong, ReserveMoney;
    WalletIs(false, false);
    WalletSound(false, false);
    BundleVisited();
    BundleReserves();
    OnePrice();
    assert TermsOf(ReserveFor("SMS"), 0, 0.0) == OneTerms();
  }

  lemma OneReleased()
    ensures var cs, call, v := Wallet(true, false), Release(1), Visit([], []);
            Visits(cs, call, v) && Sound(cs) && Operate(cs, call, v, 0, 0.0).counters == Wallet(false, false)
  {
    WalletSound(true, false);
    assert ReleaseAll(Wallet(true, false), 1) == Wallet(false, false);
  }

  lemma AfterWallet(cs: seq<CounterState>, onMoney: bool, onUnits: bool, call: Call, v: Visit)
    requires Sound(cs) && Expire(cs, 0).kept == cs && SoundCall(call, 0.0) && Visits(cs, call, v)
    requires Operate(cs, call, v, 0, 0.0).counters == Wallet(onMoney, onUnits)
    ensures Possible(cs, Commit(call, v, 0), 0.0) && After(cs, Commit(call, v, 0), 0.0) == Wallet(onMoney, onUnits)
  {
    hide Visits, Operate, Wallet;
    WalletSound(onMoney, onUnits);
  }

  /** What another writer does between the two attempts: release, and reserve again for another service. */
  function ReservedAgain(): seq<Commit> {
    [Commit(Release(1), Visit([], []), 0), Commit(ReserveFor("SMS"), Visit([1], []), 0)]
  }

  lemma ReservedAgainReplays()
    ensures Sound(Wallet(true, false)) && Feasible(Wallet(true, false), ReservedAgain(), 0.0)
    ensures Replay(Wallet(true, false), ReservedAgain(), 0.0) == Wallet(false, true)
  {
    hide Visits, Operate, Wallet, Attempt, Sound, ReserveFor, ReserveOp;
    var log := ReservedAgain();
    WalletSound(true, false);
    WalletSound(false, false);
    OneReleased();
    OneReservedOnUnits();
    assert SoundCall(ReserveFor("SMS"), 0.0) by { ReserveForSound("SMS"); }
    AfterWallet(Wallet(true, false), false, false, log[0].call, log[0].visit);
    AfterWallet(Wallet(false, false), false, true, log[1].call, log[1].visit);
    TwoReplayed(Wallet(true, false), log[0], log[1]);
    assert log == [log[0], log[1]];
  }

  lemma ReserveForSound(service: string)
    ensures SoundCall(ReserveFor(service), 0.0)
  {}

  lemma TwoReplayed(cs: seq<CounterState>, a: Commit, b: Commit)
    requires Sound(cs) && Possible(cs, a, 0.0) && Possible(After(cs, a, 0.0), b, 0.0)
    ensures Feasible(cs, [a, b], 0.0) && Replay(cs, [a, b], 0.0) == After(After(cs, a, 0.0), b, 0.0)
  {
    hide Attempt, Visits, Sound;
    var cs1 := After(cs, a, 0.0);
    assert [a, b][1..] == [b] && [b][1..] == [];
    assert Feasible(After(cs1, b, 0.0), [], 0.0);
    assert Feasible(cs1, [b], 0.0) && Replay(cs1, [b], 0.0) == After(cs1, b, 0.0);
  }

  lemma OnMoney()
    ensures Sound(Wallet(true, false))
    ensures var cs, call, v := Wallet(true, false), Debit(1, 1, UNITS, false), Visit([], [0]);
            && Visits(cs, call, v) && NeedsMoney(cs, call, v)
            && Operate(cs, call, v, 0, 0.0).response == Debited(DebitResponse(1, 1.0, 1, 0))
  {
    hide Sound, DebitValueAlong, RemainingValue, DebitVisit, Picks, Wallet;
    var cs, v := Wallet(true, false), Visit([], [0]);
    WalletSound(true, false);
    WalletIs(true, false);
    assert DebitVisit(cs, v, 1, UNITS) by { WalletVisits(); }
    assert Visits(cs, Debit(1, 1, UNITS, false), v);
    DebitDefined(cs, v, 1, UNITS);
    OneValueLeft();
  }

  lemma WalletVisits()
    ensures DebitVisit(Wallet(true, false), Visit([], [0]), 1, UNITS)
    ensures DebitVisit(Wallet(false, true), Visit([1], []), 1, UNITS)
  {
    hide Picks;
    PicksOne(Wallet(true, false), 0, HoldingFor(1, MONETARY));
    PicksNone(Wallet(true, false), HoldingFor(1, UNITS));
    PicksOne(Wallet(false, true), 1, HoldingFor(1, UNITS));
    PicksNone(Wallet(false, true), HoldingFor(1, MONETARY));
  }

  lemma OneValueLeft()
    ensures RemainingValue(OneTerms(), 1) == 1.0
    ensures Reserved(Wallet(true, false), [0], 1)
    ensures Wallet(true, false)[0].reservations[1].terms == OneTerms()
    ensures var d := DebitValueAlong(Wallet(true, false), [0], 1, 1.0, false); d.left == 0.0 && d.debited == 1.0
  {
    assert [0][1..] == [];
  }

  lemma OneUnitLeft()
    ensures Reserved(Wallet(false, true), [1], 1)
    ensures var d := DebitUnitsAlong(Wallet(false, true), [1], 1, 1, false);
            d.left == 0 && d.journal == [Entry(2, SERVICE_USAGE, 1.0, 9.0)]
  {
    assert [1][1..] == [];
    ScaledByOne(1);
    assert Unscaled(1.0, 0) == 0;
  }

  lemma OnUnits()
    ensures Sound(Wallet(false, true))
    ensures var cs, call, v := Wallet(false, true), Debit(1, 1, UNITS, false), Visit([1], []);
            && Visits(cs, call, v) && !NeedsMoney(cs, call, v)
            && Operate(cs, call, v, 0, 0.0).response == Debited(DebitResponse(1, 0.0, 0, 0))
  {
    hide Sound, DebitUnitsAlong, DebitVisit, Picks, Wallet;
    var cs, v := Wallet(false, true), Visit([1], []);
    WalletVisits();
    WalletSound(false, true);
    assert Visits(cs, Debit(1, 1, UNITS, false), v);
    DebitDefined(cs, v, 1, UNITS);
    OneUnitLeft();
  }

  /** The first attempt is beaten by a writer that reserves under the id again. */
  function StaleMoments(): seq<Moment> {
    [Moment(Row(Wallet(true, false), 0), Row(Wallet(false, true), 1)),
     Moment(Row(Wallet(false, true), 1), Row(Wallet(false, true), 1))]
  }

  /** A reservation was made on money, and released and made again on service units while a debit retries. It commits
      a debit of one service unit, and reports a value of 1. */
  lemma StaleValue()
    ensures var reserve := Commit(ReserveFor("VOICE"), Visit([], [0]), 0);
            Sound(Wallet(false, false)) && Possible(Wallet(false, false), reserve, 0.0)
            && After(Wallet(false, false), reserve, 0.0) == Wallet(true, false)
    ensures var others, call, visits := StaleMoments(), Debit(1, 1, UNITS, false), [Visit([], [0]), Visit([1], [])];
            && Beaten(others[0]) && !Beaten(others[1]) && Attempted(others, call, visits, 0, 0.0)
            && Feasible(others[0].atLoad.counters, ReservedAgain(), 0.0)
            && others[0].atSave.counters == Replay(others[0].atLoad.counters, ReservedAgain(), 0.0)
            && FoundAt(others, call, visits, 1, 0, 0.0) == Debited(DebitResponse(1, 0.0, 0, 0))
            && ReportAfter(others, call, visits, 2, 0, 0.0) == Debited(DebitResponse(1, 1.0, 1, 0))
  {
    hide Sound, Visits, Expire, Operate, NeedsMoney, Wallet, Feasible, Replay, Attempt, ReserveFor, ReservedAgain;
    OnMoney();
    OnUnits();
    WalletSound(false, false);
    WalletSound(true, false);
    WalletSound(false, true);
    ReservedAgainReplays();
    OneReservedOnMoney();
    ReserveForSound("VOICE");
    AfterWallet(Wallet(false, false), true, false, ReserveFor("VOICE"), Visit([], [0]));
    var others, call, visits := StaleMoments(), Debit(1, 1, UNITS, false), [Visit([], [0]), Visit([1], [])];
    assert Attempted(others, call, visits, 0, 0.0);
    assert MoneyAt(others, call, visits, 0, 0, 0.0) && !MoneyAt(others, call, visits, 1, 0, 0.0);
    assert FoundAt(others, call, visits, 0, 0, 0.0) == Debited(DebitResponse(1, 1.0, 1, 0));
    ReportHolds(others, call, visits, 1, 0, 0.0);
    assert MoneyLeft(others, call, visits, 1, 0, 0.0) == (1.0, 1);
  }

  /** A debit of one service unit is beaten once, by a writer that changes nothing, and publishes its entry twice. */
  lemma PublishedTwice()
    ensures var row := Row(Wallet(false, true), 1);
            var others := [Moment(Row(Wallet(false, true), 0), row), Moment(row, row)];
            var cs, call, visits := row.counters, Debit(1, 1, UNITS, false), [Visit([1], []), Visit([1], [])];
            && Beaten(others[0]) && !Beaten(others[1]) && Attempted(others, call, visits, 0, 0.0)
            && Posted(Posts(others, call, visits, 1, 0, 0.0), 2) == -1.0
            && !AddsUp(cs, Posts(others, call, visits, 1, 0, 0.0) + PublishedBy(cs, call, visits[1], 0, 0.0),
                       Attempt(cs, call, visits[1], 0, 0.0).counters)
  {
    hide Sound, Visits, Expire, Operate, NeedsMoney, Wallet, AddsUp, Posted, UsageReasons;
    var row := Row(Wallet(false, true), 1);
    var others := [Moment(Row(Wallet(false, true), 0), row), Moment(row, row)];
    var call, visits := Debit(1, 1, UNITS, false), [Visit([1], []), Visit([1], [])];
    OnUnits();
    WalletSound(false, true);
    WalletUsage();
    OneEntry();
    OnePosted();
    assert Attempted(others, call, visits, 0, 0.0);
    assert Posts(others, call, visits, 0, 0, 0.0) + [Entry(2, SERVICE_USAGE, 1.0, 9.0)]
           == Posts(others, call, visits, 1, 0, 0.0) == [Entry(2, SERVICE_USAGE, 1.0, 9.0)];
    AllPublished(others, call, visits, 1, 0, 0.0);
  }

  lemma WalletUsage()
    ensures UsageReasons(Wallet(false, true))
  {}

  lemma OnePosted()
    ensures Posted([Entry(2, SERVICE_USAGE, 1.0, 9.0)], 2) == -1.0
  {
    assert [Entry(2, SERVICE_USAGE, 1.0, 9.0)][..0] == [];
  }

  lemma OneEntry()
    ensures Visits(Wallet(false, true), Debit(1, 1, UNITS, false), Visit([1], [])) && Sound(Wallet(false, true))
    ensures Operate(Wallet(false, true), Debit(1, 1, UNITS, false), Visit([1], []), 0, 0.0).journal
            == [Entry(2, SERVICE_USAGE, 1.0, 9.0)]
  {
    hide Sound, DebitUnitsAlong, DebitVisit, Picks, Wallet, Expire, OneTerms;
    var cs, v := Wallet(false, true), Visit([1], []);
    WalletVisits();
    WalletSound(false, true);
    DebitDefined(cs, v, 1, UNITS);
    OneUnitLeft();
  }

  // ---- two counters of one priority, and a multiplier that is no whole number ----

  function HalfMore(): Terms {
    Terms(1.0, 1.5, 0.0, SERVICE_USAGE, 10)
  }

  function HoldingUnits(id: Uuid, units: int): CounterState {
    CounterState(id, UNITS, 0, 20.0, None, map[1 := Reservation(units, 0.0, HalfMore())], false, [], None)
  }

  function HoldingValue(id: Uuid, value: real): CounterState {
    CounterState(id, MONETARY, 0, 20.0, None, map[1 := Reservation(0, value, HalfMore())], false, [], None)
  }

  /** Twelve units, one unit and the value of one unit with multiplier 1.5 are reserved. */
  function Tied(): seq<CounterState> {
    [HoldingUnits(1, 12), HoldingUnits(2, 1), HoldingValue(3, 1.5)]
  }

  lemma UnitsKept(id: Uuid, units: int)
    requires 0 < units <= 20
    ensures Solvent(HoldingUnits(id, units)) && Expire([HoldingUnits(id, units)], 0).kept == [HoldingUnits(id, units)]
  {
    SolventAlone(HoldingUnits(id, units));
    KeptWhole(HoldingUnits(id, units));
  }

  lemma ValueKept(id: Uuid, value: real)
    requires 0.0 < value <= 20.0
    ensures Solvent(HoldingValue(id, value)) && Expire([HoldingValue(id, value)], 0).kept == [HoldingValue(id, value)]
  {
    SolventAlone(HoldingValue(id, value));
    KeptWhole(HoldingValue(id, value));
  }

  lemma TiedSound()
    ensures Sound(Tied()) && Expire(Tied(), 0).kept == Tied()
  {
    hide Solvent, Expire;
    var a, b, c := HoldingUnits(1, 12), HoldingUnits(2, 1), HoldingValue(3, 1.5);
    UnitsKept(1, 12);
    UnitsKept(2, 1);
    ValueKept(3, 1.5);
    assert [b] + [c] == [b, c] && [a] + [b, c] == [a, b, c];
    ExpireTwo([b], [c]);
    ExpireTwo([a], [b, c]);
  }

  /** Either service counter may be visited first. */
  lemma TiedVisits()
    ensures DebitVisit(Tied(), Visit([0, 1], [2]), 1, UNITS) && DebitVisit(Tied(), Visit([1, 0], [2]), 1, UNITS)
  {
    hide Picks;
    PicksOne(Tied(), 2, HoldingFor(1, MONETARY));
    PicksTwo(Tied(), 0, 1, HoldingFor(1, UNITS));
    PicksTwo(Tied(), 1, 0, HoldingFor(1, UNITS));
  }

  lemma PicksTwo(cs: seq<CounterState>, p: nat, q: nat, want: CounterState -> bool)
    requires p < |cs| && q < |cs| && p != q && cs[p].priority == cs[q].priority
    requires forall i :: 0 <= i < |cs| ==> (want(cs[i]) <==> i == p || i == q)
    ensures Picks(cs, [p, q], want)
  {}

  lemma ScaledHalfMore()
    ensures Scaled(1.5, 10) == 15 && Scaled(1.5, 2) == 3 && Scaled(1.5, 9) == 13
    ensures Unscaled(1.5, 3) == 2 && Unscaled(1.5, 2) == 1 && Unscaled(1.5, 14) == 9 && Unscaled(1.5, 1) == 0
  {}

  lemma HalfMoreLeaves()
    ensures var a, b := Reservation(12, 0.0, HalfMore()), Reservation(1, 0.0, HalfMore());
            LeftBy(a, 10) == 2 && LeftBy(b, 2) == 1 && LeftBy(b, 10) == 9 && LeftBy(a, 9) == 0
  {
    hide Scaled, Unscaled;
    ScaledHalfMore();
  }

  lemma TiedLeaves()
    ensures Reserved(Tied(), [0, 1], 1) && DebitUnitsAlong(Tied(), [0, 1], 1, 10, false).left == 1
    ensures Reserved(Tied(), [1, 0], 1) && DebitUnitsAlong(Tied(), [1, 0], 1, 10, false).left == 0
  {
    hide LeftBy, DebitUnitsAlong;
    HalfMoreLeaves();
    var a, b := Slot(UNITS, 0, Reservation(12, 0.0, HalfMore())), Slot(UNITS, 0, Reservation(1, 0.0, HalfMore()));
    assert SlotsAlong(Tied(), [0, 1], 1) == [a, b] && SlotsAlong(Tied(), [1, 0], 1) == [b, a];
    assert [a, b][1..] == [b] && [b, a][1..] == [a] && [a][1..] == [] && [b][1..] == [];
    assert LeftByAll([b], 2) == LeftByAll([], 1) == 1 && LeftByAll([a], 9) == LeftByAll([], 0) == 0;
    assert LeftByAll([a, b], 10) == LeftByAll([b], 2) && LeftByAll([b, a], 10) == LeftByAll([a], 9);
    DebitLeaves(Tied(), [0, 1], 1, 10, false);
    DebitLeaves(Tied(), [1, 0], 1, 10, false);
  }

  /** The first attempt visits the counter of twelve first, and one unit is left over to be paid with money. */
  lemma TwelveFirst()
    ensures Sound(Tied())
    ensures var call, v := Debit(1, 10, UNITS, false), Visit([0, 1], [2]);
            && Visits(Tied(), call, v) && NeedsMoney(Tied(), call, v)
            && Operate(Tied(), call, v, 0, 0.0).response == Debited(DebitResponse(10, 1.5, 1, 0))
  {
    hide Sound, DebitUnitsAlong, DebitValueAlong, RemainingValue, DebitVisit, Picks;
    var v := Visit([0, 1], [2]);
    TiedSound();
    TiedVisits();
    assert Visits(Tied(), Debit(1, 10, UNITS, false), v);
    DebitDefined(Tied(), v, 1, UNITS);
    TiedLeaves();
    var s := ServicePart(Tied(), v, 1, 10, UNITS, false);
    assert s.counters[v.monetary[0]] == Tied()[2];
    TiedValueLeft(s.counters);
  }

  lemma TiedValueLeft(cs: seq<CounterState>)
    requires |cs| == 3 && cs[2] == HoldingValue(3, 1.5)
    ensures RemainingValue(HalfMore(), 1) == 1.5 && Reserved(cs, [2], 1)
    ensures var d := DebitValueAlong(cs, [2], 1, 1.5, false); d.left == 0.0 && d.debited == 1.5
  {
    assert [2][1..] == [];
  }

  /** The second visits the counter of one first, and nothing is left over. */
  lemma OneFirst()
    ensures Sound(Tied())
    ensures var call, v := Debit(1, 10, UNITS, false), Visit([1, 0], [2]);
            && Visits(Tied(), call, v) && !NeedsMoney(Tied(), call, v)
            && Operate(Tied(), call, v, 0, 0.0).response == Debited(DebitResponse(10, 0.0, 0, 0))
  {
    hide Sound, DebitUnitsAlong, DebitVisit, Picks;
    var v := Visit([1, 0], [2]);
    TiedSound();
    TiedVisits();
    assert Visits(Tied(), Debit(1, 10, UNITS, false), v);
    DebitDefined(Tied(), v, 1, UNITS);
    TiedLeaves();
  }

  /** No one touches the reservations: another writer has only written off what expired, which is nothing. As the
      sort orders the two counters in another way the second time, the call commits a debit of service units alone,
      and reports a value of 1.5. */
  lemma TiedValue()
    ensures var row := Row(Tied(), 0);
            var others, log := [Moment(row, Row(Tied(), 1)), Moment(Row(Tied(), 1), Row(Tied(), 1))],
                               [Commit(ProcessExpired, Visit([], []), 0)];
            var call, visits := Debit(1, 10, UNITS, false), [Visit([0, 1], [2]), Visit([1, 0], [2])];
            && Beaten(others[0]) && !Beaten(others[1]) && Attempted(others, call, visits, 0, 0.0)
            && Unreserved(others, [log], 1, 1, 0.0)
            && FoundAt(others, call, visits, 1, 0, 0.0) == Debited(DebitResponse(10, 0.0, 0, 0))
            && ReportAfter(others, call, visits, 2, 0, 0.0) == Debited(DebitResponse(10, 1.5, 1, 0))
  {
    hide Sound, Visits, Expire, Operate, NeedsMoney, Tied;
    TwelveFirst();
    OneFirst();
    TiedSound();
    var others, log := [Moment(Row(Tied(), 0), Row(Tied(), 1)), Moment(Row(Tied(), 1), Row(Tied(), 1))],
                       [Commit(ProcessExpired, Visit([], []), 0)];
    var call, visits := Debit(1, 10, UNITS, false), [Visit([0, 1], [2]), Visit([1, 0], [2])];
    assert Attempted(others, call, visits, 0, 0.0);
    assert MoneyAt(others, call, visits, 0, 0, 0.0) && !MoneyAt(others, call, visits, 1, 0, 0.0);
    assert FoundAt(others, call, visits, 0, 0, 0.0) == Debited(DebitResponse(10, 1.5, 1, 0));
    ReportHolds(others, call, visits, 1, 0, 0.0);
    assert MoneyLeft(others, call, visits, 1, 0, 0.0) == (1.5, 1);
    NothingExpires(Tied(), log[0]);
    assert LeadsTo(others, log, 0, 1, 0.0);
  }

  lemma NothingExpires(cs: seq<CounterState>, c: Commit)
    requires Sound(cs) && Expire(cs, 0).kept == cs && c.call.ProcessExpired? && c.now == 0
    ensures Feasible(cs, [c], 0.0) && Replay(cs, [c], 0.0) == cs
  {
    hide Sound, Expire;
    assert [c][1..] == [];
  }
}
