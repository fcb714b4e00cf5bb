/** The session side of charging: the grants a session holds, and their agreement with the
    reservations the ledger holds for them. */
module Sessions {
  import opened Basics
  import opened Charging
  import opened Ledger
  import opened QuotaOps
  import opened Solvency
  import opened Reserving
  import opened Debiting
  import opened Expiry
  import opened Attempts
  import opened Grants
  import opened Rating

  /** Instants are in nanoseconds; a grant's validity is in whole seconds. */
  const SECOND: int := 1_000_000_000

  /** What a session keeps of a grant; the multiplier, minimum and increment are those of the retail line. */
  datatype Grant = Grant(id: Uuid, unitsGranted: int, unitType: UnitType, grantedTime: Time, validityTime: int,
                         multiplier: real, minimumUnits: int, roundingIncrement: int)

  function Ends(g: Grant): Time {
    g.grantedTime + g.validityTime * SECOND
  }

  /** The validity filter of the accounting step. */
  predicate StillValid(g: Grant, now: Time) {
    Ends(g) > now
  }

  /** The grant as rateUnit records it when the ledger granted `units`. */
  function GrantOf(call: Call, now: Time, units: int, minimumUnits: int, roundingIncrement: int): Grant
    requires call.Reserve?
  {
    Grant(call.id, units, call.unitType, now, call.validity / SECOND, call.multiplier, minimumUnits, roundingIncrement)
  }

  /** What is reserved under the grant's id is service units of its type, for as long as the grant is valid. */
  ghost predicate Kept(slots: seq<Slot>, g: Grant, terms: Terms) {
    && g.multiplier == 1.0 && g.unitType != MONETARY && terms.multiplier == 1.0 && terms.expiry >= Ends(g)
    && forall s :: s in slots ==> s.unitType == g.unitType && s.reservation.terms == terms
  }

  /** Exactly the grant's units are reserved for it. */
  ghost predicate Backed(cs: seq<CounterState>, g: Grant) {
    && (exists terms :: Kept(Slots(cs, g.id), g, terms))
    && SlotUnits(Slots(cs, g.id), g.unitType) == g.unitsGranted as real
  }

  /** Less than the grant's units is reserved for it. */
  ghost predicate Short(cs: seq<CounterState>, g: Grant) {
    && (exists terms :: Kept(Slots(cs, g.id), g, terms))
    && SlotUnits(Slots(cs, g.id), g.unitType) < g.unitsGranted as real
  }

  // ---- granting ----

  /** Seconds cut from a window never outlast it. */
  lemma WholeSeconds(window: int)
    requires window > 0
    ensures (window / SECOND) * SECOND <= window
  {}

  lemma ServiceSlots(cs: seq<CounterState>, v: Visit, call: Call, terms: Terms)
    requires Sound(cs) && call.Reserve? && Fresh(cs, call.id) && terms.multiplier == 1.0 && call.unitType != MONETARY
    requires Picks(cs, v.service, Selecting(call.rateKey, call.unitType, terms.reason))
    ensures var r := ReserveUnitsAlong(cs, v.service, call.id, call.requested, terms);
            && SlotUnits(Slots(r.counters, call.id), call.unitType) == r.granted as real
            && forall s :: s in Slots(r.counters, call.id) ==>
                  s.unitType == call.unitType && s.reservation.terms == terms
  {
    var r := ReserveUnitsAlong(cs, v.service, call.id, call.requested, terms);
    ServiceFunds(cs, v.service, call.id, call.requested, terms, call.rateKey, call.unitType);
    TermsOnly(cs, r.counters, call.id, terms);
    PickedType(cs, v.service, call.rateKey, call.unitType, terms.reason);
    ReserveUnitsElsewhere(cs, v.service, call.id, call.requested, terms);
    forall s | s in Slots(r.counters, call.id) ensures s.unitType == call.unitType {
      SlotsFrom(r.counters, call.id, s);
      var i :| 0 <= i < |cs| && Holding(r.counters[i], call.id, s.unitType)
          && r.counters[i].reservations[call.id] == s.reservation;
      assert i in v.service;
    }
  }

  /** A grant of service units with multiplier one is backed by the reservation made for it. */
  lemma GrantBacked(cs: seq<CounterState>, c: Commit, taxRate: real, minimumUnits: int, roundingIncrement: int)
    requires Sound(cs) && c.call.Reserve? && SoundCall(c.call, taxRate)
    requires Visits(Expire(cs, c.now).kept, c.call, c.visit)
    requires Fresh(cs, c.call.id) && c.call.multiplier == 1.0 && c.call.validity > 0
    requires c.call.unitType != MONETARY && !c.call.allowOOB
    ensures var o := Attempt(cs, c.call, c.visit, c.now, taxRate);
            Backed(o.counters, GrantOf(c.call, c.now, o.response.units, minimumUnits, roundingIncrement))
  {
    var id, kept, terms := c.call.id, Expire(cs, c.now).kept, TermsOf(c.call, c.now, taxRate);
    ExpirySound(cs, c.now);
    FreshIsEmpty(cs, id);
    ExpireSlots(cs, c.now, id);
    FreshIsEmpty(kept, id);
    ServiceSlots(kept, c.visit, c.call, terms);
    var o := Operate(kept, c.call, c.visit, c.now, taxRate);
    OperateSound(kept, c.call, c.visit, c.now, taxRate);
    AllLive(Slots(o.counters, id), c.now);
    ExpireSlots(o.counters, c.now, id);
    WholeSeconds(c.call.validity);
    assert Kept(Slots(o.counters, id), GrantOf(c.call, c.now, o.response.units, minimumUnits, roundingIncrement),
                terms);
  }

  // ---- other calls ----

  /** A call on another id, made while the grant is valid, leaves it as it is. */
  lemma OtherKept(cs: seq<CounterState>, c: Commit, taxRate: real, g: Grant)
    requires Sound(cs) && SoundCall(c.call, taxRate) && Visits(Expire(cs, c.now).kept, c.call, c.visit)
    requires Other(c.call, g.id) && StillValid(g, c.now)
    ensures var cs' := Attempt(cs, c.call, c.visit, c.now, taxRate).counters;
            && (Backed(cs, g) ==> Backed(cs', g)) && (Short(cs, g) ==> Short(cs', g))
            && (Fresh(cs, g.id) ==> Fresh(cs', g.id))
  {
    hide Attempt, Visits;
    var cs' := Attempt(cs, c.call, c.visit, c.now, taxRate).counters;
    FreshIsEmpty(cs, g.id);
    FreshIsEmpty(cs', g.id);
    if Backed(cs, g) || Short(cs, g) || Fresh(cs, g.id) { AttemptOther(cs, c.call, c.visit, c.now, taxRate, g.id); }
  }

  // ---- using ----

  /** Nothing reserved means no reservation. */
  lemma {:induction false} SlotsPositive(cs: seq<CounterState>, id: Uuid, t: UnitType)
    requires Sound(cs) && t != MONETARY && forall s :: s in Slots(cs, id) ==> s.unitType == t
    ensures SlotUnits(Slots(cs, id), t) >= 0.0
    ensures SlotUnits(Slots(cs, id), t) == 0.0 ==> Slots(cs, id) == []
  {
    if cs != [] {
      assert Solvent(cs[0]);
      assert forall s :: s in Slots(cs[1..], id) ==> s in Slots(cs, id);
      SlotsPositive(cs[1..], id, t);
      if id in cs[0].reservations {
        assert Slots(cs, id)[0] in Slots(cs, id) && Slots(cs, id)[1..] == Slots(cs[1..], id);
      } else {
        assert Slots(cs, id) == Slots(cs[1..], id);
      }
    }
  }

  lemma SlotsAfter(cs: seq<CounterState>, cs': seq<CounterState>, id: Uuid, t: UnitType, terms: Terms)
    requires |cs'| == |cs| && forall s :: s in Slots(cs, id) ==> s.unitType == t && s.reservation.terms == terms
    requires forall i :: 0 <= i < |cs| ==> OnlyDebits(cs[i], cs'[i], id) && TermsFrom(cs[i], cs'[i], id, None)
    ensures forall s :: s in Slots(cs', id) ==> s.unitType == t && s.reservation.terms == terms
  {
    forall s | s in Slots(cs', id) ensures s.unitType == t && s.reservation.terms == terms {
      SlotsFrom(cs', id, s);
      var i :| 0 <= i < |cs'| && Holding(cs'[i], id, s.unitType) && cs'[i].reservations[id] == s.reservation;
      SlotsCover(cs, i, id);
    }
  }

  /** What is left of `held` units once `used` are taken, or all of it reclaimed. */
  function LeftOver(held: real, used: int, reclaim: bool): real {
    if reclaim || held <= used as real then 0.0 else held - used as real
  }

  /** A debit takes exactly the units used out of the reservations, or all there is, and reports what it could
      not take. */
  lemma DebitTakes(cs: seq<CounterState>, v: Visit, id: Uuid, used: int, t: UnitType, reclaim: bool, terms: Terms)
    requires Sound(cs) && DebitVisit(cs, v, id, t) && CanDebit(cs, v, id, t) && t != MONETARY && terms.multiplier == 1.0
    requires forall s :: s in Slots(cs, id) ==> s.unitType == t && s.reservation.terms == terms
    requires 0 < used
    ensures var d, held := DebitOp(cs, v, id, used, t, reclaim), SlotUnits(Slots(cs, id), t);
            && Sound(d.counters) && d.response.unitsDebited + d.response.unaccountedUnits == used
            && d.response.unaccountedUnits as real == Excess(used as real, held)
            && (forall s :: s in Slots(d.counters, id) ==> s.unitType == t && s.reservation.terms == terms)
            && SlotUnits(Slots(d.counters, id), t) == LeftOver(held, used, reclaim)
  {
    hide Slots, DebitUnitsAlong, Sound;
    var d := DebitOp(cs, v, id, used, t, reclaim);
    UnitsLeftOver(cs, v, id, used, t, reclaim, terms);
    DebitConserves(cs, v, id, used, t, reclaim);
    SlotsAfter(cs, d.counters, id, t, terms);
    DebitDefined(cs, v, id, t);
    NoMoneyHeld(cs, v, id, t);
    forall k | 0 <= k < |v.service| ensures cs[v.service[k]].reservations[id].terms == terms {
      SlotsCover(cs, v.service[k], id);
    }
    ExactAlong(cs, v.service, id, used, reclaim, t);
    SumPicked(Weights(cs, UnitsUnder(id, t)), v.service);
    SlotTotals(cs, id, t);
    SlotTotals(d.counters, id, t);
  }

  lemma NoMoneyHeld(cs: seq<CounterState>, v: Visit, id: Uuid, t: UnitType)
    requires DebitVisit(cs, v, id, t) && t != MONETARY && forall s :: s in Slots(cs, id) ==> s.unitType == t
    ensures v.monetary == []
  {
    if v.monetary != [] {
      assert v.monetary[0] in v.monetary && HoldingFor(id, MONETARY)(cs[v.monetary[0]]);
      SlotsCover(cs, v.monetary[0], id);
    }
  }

  /** A grant of a line with multiplier zero is free: nothing is reserved or debited for it. */
  predicate Charged(g: Grant) {
    g.multiplier != 0.0
  }

  /** The units a usage report takes from a grant. */
  function UnitsFor(g: Grant, used: int): int {
    if Charged(g) then NormaliseUnits(used, g.minimumUnits, g.roundingIncrement) else 0
  }

  /** The debit a usage report makes for a grant. */
  function UseCall(g: Grant, used: int, reclaim: bool): Call {
    Debit(g.id, UnitsFor(g, used), g.unitType, reclaim)
  }

  function AfterUse(g: Grant, used: int): Grant {
    g.(unitsGranted := g.unitsGranted - UnitsFor(g, used))
  }

  lemma NormalisedPositive(used: int, minimum: int, inc: int)
    requires used > 0
    ensures NormaliseUnits(used, minimum, inc) > 0
  {
    NormalisesUp(used, minimum, inc);
  }

  /** Usage of a charged grant counts in the increments of its line: as the least multiple of the increment that covers
      it and the minimum. Usage of a free one does not count. */
  lemma UsedInIncrements(g: Grant, used: int)
    requires used > 0
    ensures if g.multiplier == 0.0 then UnitsFor(g, used) == 0
            else LeastMultiple(UnitsFor(g, used), if used < g.minimumUnits then g.minimumUnits else used,
                               g.roundingIncrement)
  {
    NormalisesUp(used, g.minimumUnits, g.roundingIncrement);
  }

  /** The debit made for a valid grant takes the units used out of what is reserved for it, as far as they go,
      and reports the rest unaccounted for. */
  lemma UseTakes(cs: seq<CounterState>, c: Commit, taxRate: real, g: Grant, used: int, reclaim: bool, terms: Terms)
    requires Sound(cs) && c.call == UseCall(g, used, reclaim) && SoundCall(c.call, taxRate)
    requires Visits(Expire(cs, c.now).kept, c.call, c.visit)
    requires Kept(Slots(cs, g.id), g, terms) && StillValid(g, c.now) && used > 0
    ensures var o, held := Attempt(cs, c.call, c.visit, c.now, taxRate), SlotUnits(Slots(cs, g.id), g.unitType);
            && o.response.debit.unitsDebited + o.response.debit.unaccountedUnits == c.call.used
            && o.response.debit.unaccountedUnits as real == Excess(c.call.used as real, held)
            && Kept(Slots(o.counters, g.id), g, terms)
            && SlotUnits(Slots(o.counters, g.id), g.unitType) == LeftOver(held, c.call.used, reclaim)
            && (Fresh(o.counters, g.id) <==> LeftOver(held, c.call.used, reclaim) == 0.0)
  {
    hide DebitOp, Slots;
    var kept, id, t := Expire(cs, c.now).kept, g.id, g.unitType;
    NormalisedPositive(used, g.minimumUnits, g.roundingIncrement);
    ExpirySound(cs, c.now);
    AllLive(Slots(cs, id), c.now);
    ExpireSlots(cs, c.now, id);
    DebitDefined(kept, c.visit, id, t);
    DebitTakes(kept, c.visit, id, c.call.used, t, reclaim, terms);
    var o := Operate(kept, c.call, c.visit, c.now, taxRate);
    AllLive(Slots(o.counters, id), c.now);
    ExpireSlots(o.counters, c.now, id);
    SlotsPositive(o.counters, id, t);
    FreshIsEmpty(Expire(o.counters, c.now).kept, id);
    NoUnits(t);
  }

  lemma NoUnits(t: UnitType)
    ensures SlotUnits([], t) == 0.0
  {}

  /** Usage within a valid, backed grant is accounted for in full; what is left of the grant is still
      backed, and once it is used up or reclaimed nothing is left reserved for it. */
  lemma UseBacked(cs: seq<CounterState>, c: Commit, taxRate: real, g: Grant, used: int, reclaim: bool)
    requires Sound(cs) && c.call == UseCall(g, used, reclaim) && SoundCall(c.call, taxRate)
    requires Visits(Expire(cs, c.now).kept, c.call, c.visit)
    requires Backed(cs, g) && StillValid(g, c.now) && used > 0 && AfterUse(g, used).unitsGranted >= 0
    ensures var o := Attempt(cs, c.call, c.visit, c.now, taxRate);
            && o.response.debit.unaccountedUnits == 0 && o.response.debit.unitsDebited == c.call.used
            && (if reclaim || AfterUse(g, used).unitsGranted == 0 then Fresh(o.counters, g.id)
                else Backed(o.counters, AfterUse(g, used)))
  {
    hide Attempt, Visits, Slots;
    var terms :| Kept(Slots(cs, g.id), g, terms);
    UseTakes(cs, c, taxRate, g, used, reclaim, terms);
    var cs' := Attempt(cs, c.call, c.visit, c.now, taxRate).counters;
    assert Kept(Slots(cs', g.id), AfterUse(g, used), terms);
  }

  /** Usage of a grant for which too little is reserved leaves too little reserved for what is left of it. */
  lemma UseShort(cs: seq<CounterState>, c: Commit, taxRate: real, g: Grant, used: int, reclaim: bool)
    requires Sound(cs) && c.call == UseCall(g, used, reclaim) && SoundCall(c.call, taxRate)
    requires Visits(Expire(cs, c.now).kept, c.call, c.visit)
    requires Short(cs, g) && StillValid(g, c.now) && used > 0 && AfterUse(g, used).unitsGranted > 0
    ensures Short(Attempt(cs, c.call, c.visit, c.now, taxRate).counters, AfterUse(g, used))
  {
    hide Attempt, Visits, Slots;
    var terms :| Kept(Slots(cs, g.id), g, terms);
    NormalisedPositive(used, g.minimumUnits, g.roundingIncrement);
    UseTakes(cs, c, taxRate, g, used, reclaim, terms);
    var cs' := Attempt(cs, c.call, c.visit, c.now, taxRate).counters;
    assert Kept(Slots(cs', g.id), AfterUse(g, used), terms);
  }

  /** A valid grant has an unexpired reservation; the two end together at every instant exactly when the
      window is in whole seconds. */
  lemma FilterIsSafe(call: Call, now: Time, taxRate: real, units: int, minimumUnits: int, roundingIncrement: int)
    requires call.Reserve? && call.validity > 0
    ensures var g, expiry := GrantOf(call, now, units, minimumUnits, roundingIncrement),
            TermsOf(call, now, taxRate).expiry;
            && (forall t :: StillValid(g, t) ==> expiry > t)
            && ((forall t :: StillValid(g, t) <==> expiry > t) <==> call.validity % SECOND == 0)
  {
    var g, expiry := GrantOf(call, now, units, minimumUnits, roundingIncrement), TermsOf(call, now, taxRate).expiry;
    WholeSeconds(call.validity);
    assert StillValid(g, Ends(g)) == false;
  }

  /** One usage report of no more than a fully granted request is never more than was granted. */
  lemma {:induction false} NeverOverused(g: Grant, used: int, requested: int)
    requires 0 < used <= requested && Charged(g)
    requires g.unitsGranted == NormaliseUnits(requested, g.minimumUnits, g.roundingIncrement)
    ensures AfterUse(g, used).unitsGranted >= 0
  {
    NormalisesMonotonically(used, requested, g.minimumUnits, g.roundingIncrement);
  }

  // ---- runs ----

  ghost predicate DistinctGrants(grants: seq<Grant>) {
    forall i, j :: 0 <= i < j < |grants| ==> grants[i].id != grants[j].id
  }

  /** Every charged grant that is still valid is backed by the ledger. */
  ghost predicate Agrees(cs: seq<CounterState>, grants: seq<Grant>, now: Time) {
    && Sound(cs) && DistinctGrants(grants)
    && forall g :: g in grants && Charged(g) && StillValid(g, now) ==> Backed(cs, g)
  }

  /** A request's copy of a grant, or the stored one. It takes into account this many of the debits and releases
      committed for the grant. */
  datatype Copy = Copy(grant: Grant, seen: nat)

  /** A ledger and a session on it: the grants as they are stored, and as each request that loaded them has them.
      The history holds the ids of all grants the session ever had, and an id once for each time the grant was
      debited or released. */
  datatype Session = Session(counters: seq<CounterState>, stored: seq<Copy>, requests: seq<seq<Copy>>,
                             ids: set<Uuid>, done: multiset<Uuid>, now: Time)

  /** What may happen, at any instants and for any number of requests at a time: a call that concerns none of the
      grants, by anyone; one more request loading the session; a new grant, charged or free; usage reported for a
      charged grant; a grant dropped; the session stored as a request has it, over whatever is there; a grant
      released, as a request does that fails; and the session deleted. A request that fails does no more. */
  datatype Event =
    | Elsewhere(c: Commit)
    | Loads
    | Grants(r: nat, c: Commit, minimumUnits: int, roundingIncrement: int)
    | GrantsFree(r: nat, g: Grant)
    | Uses(r: nat, c: Commit, i: nat, used: int, reclaim: bool)
    | Forgets(r: nat, i: nat)
    | Stores(r: nat)
    | Releases(c: Commit)
    | Deletes

  ghost predicate MayHappen(s: Session, e: Event, taxRate: real)
    requires Sound(s.counters)
  {
    match e
    case Elsewhere(c) => Possible(s.counters, c, taxRate) && forall id :: id in s.ids ==> Other(c.call, id)
    case Loads => true
    case Grants(r, c, _, _) =>
      && r < |s.requests| && Possible(s.counters, c, taxRate) && c.call.Reserve? && c.call.multiplier == 1.0
      && c.call.validity > 0 && c.call.unitType != MONETARY && !c.call.allowOOB
      && Fresh(s.counters, c.call.id) && c.call.id !in s.ids
    case GrantsFree(r, g) => r < |s.requests| && !Charged(g) && g.id !in s.ids
    case Uses(r, c, i, used, reclaim) =>
      r < |s.requests| && i < |s.requests[r]| && MayUse(s.counters, c, taxRate, s.requests[r][i].grant, used, reclaim)
    case Forgets(r, i) => r < |s.requests| && i < |s.requests[r]|
    case Stores(r) => r < |s.requests|
    case Releases(c) => Possible(s.counters, c, taxRate) && c.call.Release? && c.call.id in s.ids
    case Deletes => true
  }

  /** The debit for usage the grant covers, made while it is valid. */
  ghost predicate MayUse(cs: seq<CounterState>, c: Commit, taxRate: real, g: Grant, used: int, reclaim: bool)
    requires Sound(cs)
  {
    && Possible(cs, c, taxRate) && c.call == UseCall(g, used, reclaim)
    && Charged(g) && StillValid(g, c.now) && used > 0 && AfterUse(g, used).unitsGranted >= 0
  }

  function Later(a: Time, b: Time): Time {
    if a < b then b else a
  }

  function Without<T>(s: seq<T>, i: nat): seq<T>
    requires i < |s|
  {
    s[..i] + s[i + 1..]
  }

  /** The copies of a request that used one of them. */
  function UsedCopies(copies: seq<Copy>, i: nat, used: int, reclaim: bool): seq<Copy>
    requires i < |copies|
  {
    var left := AfterUse(copies[i].grant, used);
    if reclaim || left.unitsGranted == 0 then Without(copies, i) else copies[i := Copy(left, copies[i].seen + 1)]
  }

  /** A call has committed. */
  ghost function Committed(s: Session, c: Commit, taxRate: real): Session
    requires Sound(s.counters) && Possible(s.counters, c, taxRate)
  {
    s.(counters := After(s.counters, c, taxRate), now := Later(s.now, c.now))
  }

  /** A debit or a release of a grant has committed. */
  ghost function CommittedFor(s: Session, c: Commit, taxRate: real, id: Uuid): Session
    requires Sound(s.counters) && Possible(s.counters, c, taxRate)
  {
    Committed(s, c, taxRate).(done := s.done + multiset{id})
  }

  ghost function Granted(s: Session, r: nat, g: Grant): Session
    requires r < |s.requests|
  {
    s.(requests := s.requests[r := s.requests[r] + [Copy(g, 0)]], ids := s.ids + {g.id})
  }

  ghost function Happens(s: Session, e: Event, taxRate: real): Session
    requires Sound(s.counters) && MayHappen(s, e, taxRate)
  {
    match e
    case Elsewhere(c) => Committed(s, c, taxRate)
    case Loads => s.(requests := s.requests + [s.stored])
    case Grants(r, c, minimumUnits, roundingIncrement) =>
      var units := Attempt(s.counters, c.call, c.visit, c.now, taxRate).response.units;
      Granted(Committed(s, c, taxRate), r, GrantOf(c.call, c.now, units, minimumUnits, roundingIncrement))
    case GrantsFree(r, g) => Granted(s, r, g)
    case Uses(r, c, i, used, reclaim) =>
      CommittedFor(s, c, taxRate, c.call.id).(
        requests := s.requests[r := UsedCopies(s.requests[r], i, used, reclaim)])
    case Forgets(r, i) => s.(requests := s.requests[r := Without(s.requests[r], i)])
    case Stores(r) => s.(stored := s.requests[r])
    case Releases(c) => CommittedFor(s, c, taxRate, c.call.id)
    case Deletes => s.(stored := [])
  }

  /** The copy is stored, or some request has it. */
  ghost predicate InPlay(s: Session, h: Copy) {
    h in s.stored || exists r: nat :: r < |s.requests| && h in s.requests[r]
  }

  /** The copy takes every debit and release of its grant into account, or has no units left. */
  predicate UpToDate(h: Copy, done: multiset<Uuid>) {
    h.seen == done[h.grant.id] || h.grant.unitsGranted == 0
  }

  /** While the grant is valid exactly its units are reserved if the copy is up to date, and less if it is not. */
  ghost predicate Right(s: Session, h: Copy) {
    && h.grant.id in s.ids && h.seen <= s.done[h.grant.id]
    && (Charged(h.grant) && StillValid(h.grant, s.now) ==>
          if UpToDate(h, s.done) then Backed(s.counters, h.grant) else Short(s.counters, h.grant))
  }

  /** They differ in the units only. */
  predicate Alike(g: Grant, h: Grant) {
    g == h.(unitsGranted := g.unitsGranted)
  }

  ghost predicate DistinctCopies(copies: seq<Copy>) {
    forall i, j :: 0 <= i < j < |copies| ==> copies[i].grant.id != copies[j].grant.id
  }

  ghost predicate Distinct(s: Session) {
    DistinctCopies(s.stored) && forall r: nat :: r < |s.requests| ==> DistinctCopies(s.requests[r])
  }

  ghost predicate Accounted(s: Session) {
    && Sound(s.counters) && Distinct(s)
    && (forall id :: id in s.done ==> id in s.ids)
    && (forall h :: InPlay(s, h) ==> Right(s, h))
    && (forall g, h :: InPlay(s, g) && InPlay(s, h) && g.grant.id == h.grant.id ==> Alike(g.grant, h.grant))
  }

  lemma ShortNotBacked(cs: seq<CounterState>, g: Grant)
    ensures !(Short(cs, g) && Backed(cs, g))
  {}

  // ---- one call and one copy ----

  /** A call on something else. */
  lemma RightOther(s: Session, c: Commit, taxRate: real, h: Copy)
    requires Sound(s.counters) && Possible(s.counters, c, taxRate) && Right(s, h) && Other(c.call, h.grant.id)
    ensures Right(Committed(s, c, taxRate), h)
    ensures forall id :: id != h.grant.id ==> Right(CommittedFor(s, c, taxRate, id), h)
  {
    hide Attempt, Visits, Backed, Short;
    if Charged(h.grant) && StillValid(h.grant, Later(s.now, c.now)) { OtherKept(s.counters, c, taxRate, h.grant); }
  }

  /** Nothing is left of a reservation released. */
  lemma ReleaseEmpties(cs: seq<CounterState>, c: Commit, taxRate: real)
    requires Sound(cs) && Possible(cs, c, taxRate) && c.call.Release?
    ensures Slots(Attempt(cs, c.call, c.visit, c.now, taxRate).counters, c.call.id) == []
  {
    var kept, id := Expire(cs, c.now).kept, c.call.id;
    ExpirySound(cs, c.now);
    ReleaseSound(kept, id);
    FreshIsEmpty(ReleaseAll(kept, id), id);
    ExpireSlots(ReleaseAll(kept, id), c.now, id);
  }

  lemma RightReleased(s: Session, c: Commit, taxRate: real, h: Copy)
    requires Sound(s.counters) && Possible(s.counters, c, taxRate) && Right(s, h) && c.call == Release(h.grant.id)
    ensures Right(CommittedFor(s, c, taxRate, h.grant.id), h)
  {
    hide Attempt, Visits, Slots;
    if Charged(h.grant) && StillValid(h.grant, s.now) {
      ReleaseEmpties(s.counters, c, taxRate);
      AtMostGranted(s.counters, h.grant);
      var terms :| Kept(Slots(s.counters, h.grant.id), h.grant, terms);
      assert Kept([], h.grant, terms);
      NoUnits(h.grant.unitType);
    }
  }

  /** The ledger never holds less than nothing, nor more than the grant. */
  lemma AtMostGranted(cs: seq<CounterState>, g: Grant)
    requires Sound(cs) && (Backed(cs, g) || Short(cs, g))
    ensures 0.0 <= SlotUnits(Slots(cs, g.id), g.unitType) <= g.unitsGranted as real
  {
    SlotsPositive(cs, g.id, g.unitType);
  }

  /** Whatever a debit finds reserved, another copy of the grant has more units than it leaves. */
  lemma UseOfAlike(cs: seq<CounterState>, c: Commit, taxRate: real, g: Grant, h: Grant, used: int, reclaim: bool)
    requires Sound(cs) && MayUse(cs, c, taxRate, g, used, reclaim) && Alike(g, h) && (Backed(cs, h) || Short(cs, h))
    ensures var cs' := Attempt(cs, c.call, c.visit, c.now, taxRate).counters;
            if h.unitsGranted == 0 then Backed(cs', h) else Short(cs', h)
  {
    hide Attempt, Visits, Slots;
    var terms :| Kept(Slots(cs, h.id), h, terms);
    NormalisedPositive(used, g.minimumUnits, g.roundingIncrement);
    AtMostGranted(cs, h);
    UseTakes(cs, c, taxRate, g, used, reclaim, terms);
    var cs' := Attempt(cs, c.call, c.visit, c.now, taxRate).counters;
    assert Kept(Slots(cs', h.id), h, terms);
  }

  lemma RightUsedElsewhere(s: Session, c: Commit, taxRate: real, g: Grant, h: Copy, used: int, reclaim: bool)
    requires Sound(s.counters) && MayUse(s.counters, c, taxRate, g, used, reclaim)
    requires Right(s, h) && g.id == h.grant.id && Alike(g, h.grant)
    ensures Right(CommittedFor(s, c, taxRate, g.id), h)
  {
    hide Attempt, Visits, Backed, Short, NormaliseUnits;
    if Charged(h.grant) && StillValid(h.grant, s.now) {
      UseOfAlike(s.counters, c, taxRate, g, h.grant, used, reclaim);
    }
  }

  /** The copy that is used. */
  lemma RightUsed(s: Session, c: Commit, taxRate: real, h: Copy, used: int, reclaim: bool)
    requires Sound(s.counters) && MayUse(s.counters, c, taxRate, h.grant, used, reclaim) && Right(s, h)
    requires !reclaim && AfterUse(h.grant, used).unitsGranted != 0
    ensures Right(CommittedFor(s, c, taxRate, h.grant.id), Copy(AfterUse(h.grant, used), h.seen + 1))
  {
    hide Attempt, Visits, Backed, Short, NormaliseUnits;
    NormalisedPositive(used, h.grant.minimumUnits, h.grant.roundingIncrement);
    if StillValid(h.grant, s.now) {
      if UpToDate(h, s.done) {
        UseBacked(s.counters, c, taxRate, h.grant, used, reclaim);
      } else {
        UseShort(s.counters, c, taxRate, h.grant, used, reclaim);
      }
    }
  }

  // ---- every step ----

  lemma RightId(s: Session, h: Copy)
    requires Right(s, h)
    ensures h.grant.id in s.ids
  {}

  lemma CommittedAccounted(s: Session, c: Commit, taxRate: real)
    requires Accounted(s) && Possible(s.counters, c, taxRate) && forall id :: id in s.ids ==> Other(c.call, id)
    ensures Accounted(Committed(s, c, taxRate))
  {
    hide Attempt, Right, Possible, DistinctCopies, Other;
    var s' := Committed(s, c, taxRate);
    forall h | InPlay(s', h) ensures InPlay(s, h) && Right(s', h) {
      assert InPlay(s, h);
      RightId(s, h);
      RightOther(s, c, taxRate, h);
    }
  }

  lemma ReleaseAccounted(s: Session, e: Event, taxRate: real)
    requires e.Releases? && Accounted(s) && MayHappen(s, e, taxRate)
    ensures Accounted(Happens(s, e, taxRate))
  {
    hide Attempt, Right, Possible, DistinctCopies;
    var s' := Happens(s, e, taxRate);
    forall h | InPlay(s', h) ensures InPlay(s, h) && Right(s', h) {
      assert InPlay(s, h);
      if e.c.call.id == h.grant.id {
        RightReleased(s, e.c, taxRate, h);
      } else {
        RightOther(s, e.c, taxRate, h);
      }
    }
  }

  lemma GrantedAccounted(s: Session, r: nat, g: Grant)
    requires Accounted(s) && r < |s.requests| && g.id !in s.ids
    requires Charged(g) && StillValid(g, s.now) ==> Backed(s.counters, g)
    ensures Accounted(Granted(s, r, g))
  {
    hide Backed, Short, Sound;
    var s', copies := Granted(s, r, g), s.requests[r];
    forall h | InPlay(s', h) ensures h == Copy(g, 0) || (InPlay(s, h) && Right(s, h) && h.grant.id != g.id) {
      assert h == Copy(g, 0) || InPlay(s, h);
    }
    forall k | 0 <= k < |copies| ensures copies[k].grant.id != g.id { assert InPlay(s, copies[k]); }
  }

  lemma GrantAccounted(s: Session, e: Event, taxRate: real)
    requires e.Grants? && Accounted(s) && MayHappen(s, e, taxRate)
    ensures Accounted(Happens(s, e, taxRate))
  {
    hide Backed, InPlay, Distinct;
    GrantBacked(s.counters, e.c, taxRate, e.minimumUnits, e.roundingIncrement);
    CommittedAccounted(s, e.c, taxRate);
    var units := Attempt(s.counters, e.c.call, e.c.visit, e.c.now, taxRate).response.units;
    GrantedAccounted(Committed(s, e.c, taxRate), e.r,
                     GrantOf(e.c.call, e.c.now, units, e.minimumUnits, e.roundingIncrement));
  }

  lemma UsedInPlay(s: Session, r: nat, i: nat, used: int, reclaim: bool, h: Copy)
    requires Accounted(s) && r < |s.requests| && i < |s.requests[r]|
    requires InPlay(s.(requests := s.requests[r := UsedCopies(s.requests[r], i, used, reclaim)]), h)
    ensures InPlay(s, h)
            || (var g := s.requests[r][i];
                !reclaim && AfterUse(g.grant, used).unitsGranted != 0 && h == Copy(AfterUse(g.grant, used), g.seen + 1))
  {
    hide Right, Sound, AfterUse;
  }

  lemma UsedDistinct(s: Session, r: nat, i: nat, used: int, reclaim: bool)
    requires Distinct(s) && r < |s.requests| && i < |s.requests[r]|
    ensures Distinct(s.(requests := s.requests[r := UsedCopies(s.requests[r], i, used, reclaim)]))
  {
  }

  lemma UseAccounted(s: Session, e: Event, taxRate: real)
    requires e.Uses? && Accounted(s) && MayHappen(s, e, taxRate)
    ensures Accounted(Happens(s, e, taxRate))
  {
    hide Attempt, Right, Possible, UsedCopies, DistinctCopies;
    var s', g := Happens(s, e, taxRate), s.requests[e.r][e.i];
    assert InPlay(s, g);
    UsedDistinct(s, e.r, e.i, e.used, e.reclaim);
    RightId(s, g);
    forall h | InPlay(s', h)
      ensures Right(s', h) && (Alike(g.grant, h.grant) || (InPlay(s, h) && h.grant.id != g.grant.id))
    {
      RightMoves(CommittedFor(s, e.c, taxRate, g.grant.id), s', h);
      UsedInPlay(s, e.r, e.i, e.used, e.reclaim, h);
      if !InPlay(s, h) {
        RightUsed(s, e.c, taxRate, g, e.used, e.reclaim);
      } else if h.grant.id == g.grant.id {
        RightUsedElsewhere(s, e.c, taxRate, g.grant, h, e.used, e.reclaim);
      } else {
        RightOther(s, e.c, taxRate, h);
      }
    }
  }

  lemma SessionMoves(s: Session, e: Event, taxRate: real)
    requires (e.Loads? || e.Forgets? || e.Stores? || e.Deletes?) && Accounted(s) && MayHappen(s, e, taxRate)
    ensures Accounted(Happens(s, e, taxRate))
  {
    hide Attempt, Right, Possible, Sound;
    var s' := Happens(s, e, taxRate);
    forall h | InPlay(s', h) ensures InPlay(s, h) && (Right(s, h) ==> Right(s', h)) {
      RightMoves(s, s', h);
    }
  }

  lemma RightMoves(s: Session, s': Session, h: Copy)
    requires s'.counters == s.counters && s'.ids == s.ids && s'.done == s.done && s'.now == s.now
    ensures Right(s, h) ==> Right(s', h)
  {}

  lemma StepAccounted(s: Session, e: Event, taxRate: real)
    requires Accounted(s) && MayHappen(s, e, taxRate)
    ensures Accounted(Happens(s, e, taxRate))
  {
    hide Attempt, Accounted, Possible;
    match e
    case Elsewhere(c) => CommittedAccounted(s, c, taxRate);
    case Grants(_, _, _, _) => GrantAccounted(s, e, taxRate);
    case GrantsFree(r, g) => GrantedAccounted(s, r, g);
    case Uses(_, _, _, _, _) => UseAccounted(s, e, taxRate);
    case Releases(_) => ReleaseAccounted(s, e, taxRate);
    case _ => SessionMoves(s, e, taxRate);
  }

  // ---- runs ----

  ghost predicate MayRun(s: Session, events: seq<Event>, taxRate: real)
    requires Accounted(s)
    decreases |events|
  {
    events != [] ==> MayHappen(s, events[0], taxRate) && (StepAccounted(s, events[0], taxRate);
                                                          MayRun(Happens(s, events[0], taxRate), events[1..], taxRate))
  }

  ghost function RunEvents(s: Session, events: seq<Event>, taxRate: real): (s': Session)
    requires Accounted(s) && MayRun(s, events, taxRate)
    ensures Accounted(s')
    decreases |events|
  {
    if events == [] then s else
    StepAccounted(s, events[0], taxRate);
    RunEvents(Happens(s, events[0], taxRate), events[1..], taxRate)
  }

  /** The reservations are for exactly the grant's units, all of its type and none expired. */
  ghost predicate Covers(slots: seq<Slot>, g: Grant, now: Time) {
    && SlotUnits(slots, g.unitType) == g.unitsGranted as real
    && forall slot :: slot in slots ==> slot.unitType == g.unitType && slot.reservation.terms.expiry > now
  }

  /** The grants of these copies. */
  function GrantsOf(copies: seq<Copy>): seq<Grant> {
    seq(|copies|, i requires 0 <= i < |copies| => copies[i].grant)
  }

  ghost predicate AllUpToDate(s: Session, copies: seq<Copy>) {
    forall h :: h in copies && Charged(h.grant) && StillValid(h.grant, s.now) ==> UpToDate(h, s.done)
  }

  lemma AgreesExactly(s: Session, copies: seq<Copy>)
    requires Accounted(s) && DistinctCopies(copies) && forall h :: h in copies ==> InPlay(s, h)
    ensures Agrees(s.counters, GrantsOf(copies), s.now) <==> AllUpToDate(s, copies)
  {
    hide Backed, Short, Sound;
    forall h | h in copies && Charged(h.grant) && StillValid(h.grant, s.now)
      ensures h.grant in GrantsOf(copies) && (UpToDate(h, s.done) <==> Backed(s.counters, h.grant))
    {
      var i :| 0 <= i < |copies| && copies[i] == h;
      assert GrantsOf(copies)[i] == h.grant && Right(s, h);
      ShortNotBacked(s.counters, h.grant);
    }
    assert forall i :: 0 <= i < |copies| ==> copies[i] in copies;
  }

  /** Over any run that starts without grants, any number of requests at a time and failing ones included: a charged
      grant that is still valid, as it is stored or as any request has it, is for exactly the units reserved under
      its id, all of them of its type and none of them expired, exactly when that copy takes into account every
      debit and release committed for the grant, or has no units left. Otherwise less is reserved than it says. The
      stored session as a whole agrees with the ledger exactly when all its charged and valid grants do. */
  lemma {:induction false} SessionAgreement(s: Session, events: seq<Event>, taxRate: real)
    requires s.stored == [] && s.requests == [] && s.done == multiset{} && Sound(s.counters)
    requires MayRun(s, events, taxRate)
    ensures var s' := RunEvents(s, events, taxRate);
            forall h :: InPlay(s', h) && Charged(h.grant) && StillValid(h.grant, s'.now) ==>
              && (Covers(Slots(s'.counters, h.grant.id), h.grant, s'.now) <==> UpToDate(h, s'.done))
              && SlotUnits(Slots(s'.counters, h.grant.id), h.grant.unitType) <= h.grant.unitsGranted as real
    ensures var s' := RunEvents(s, events, taxRate);
            Agrees(s'.counters, GrantsOf(s'.stored), s'.now) <==> AllUpToDate(s', s'.stored)
  {
    hide Slots;
    var s' := RunEvents(s, events, taxRate);
    AgreesExactly(s', s'.stored);
    forall h | InPlay(s', h) && Charged(h.grant) && StillValid(h.grant, s'.now)
      ensures Covers(Slots(s'.counters, h.grant.id), h.grant, s'.now) <==> UpToDate(h, s'.done)
      ensures SlotUnits(Slots(s'.counters, h.grant.id), h.grant.unitType) <= h.grant.unitsGranted as real
    {
      assert Right(s', h);
      var terms :| Kept(Slots(s'.counters, h.grant.id), h.grant, terms);
    }
  }

  // ---- inputs on which session and ledger part ----

  /** A request loads the session, debits a grant and fails. */
  lemma FailureDisagrees(s: Session, c: Commit, i: nat, used: int, reclaim: bool, taxRate: real)
    requires Accounted(s) && Agrees(s.counters, GrantsOf(s.stored), s.now) && i < |s.stored|
    requires MayUse(s.counters, c, taxRate, s.stored[i].grant, used, reclaim)
    requires StillValid(s.stored[i].grant, s.now)
    ensures var loaded, use := Happens(s, Loads, taxRate), Uses(|s.requests|, c, i, used, reclaim);
            && MayHappen(loaded, use, taxRate)
            && var s' := Happens(loaded, use, taxRate);
               s'.stored == s.stored && !Agrees(s'.counters, GrantsOf(s'.stored), s'.now)
  {
    hide Attempt, Visits, Backed, Short, NormaliseUnits;
    var loaded, use, h := Happens(s, Loads, taxRate), Uses(|s.requests|, c, i, used, reclaim), s.stored[i];
    StepAccounted(s, Loads, taxRate);
    StepAccounted(loaded, use, taxRate);
    var s' := Happens(loaded, use, taxRate);
    NormalisedPositive(used, h.grant.minimumUnits, h.grant.roundingIncrement);
    assert InPlay(s, h) && InPlay(s', h) && Right(s, h) && h in s'.stored;
    AgreesExactly(s', s'.stored);
  }

  /** A request makes a grant and stores the session. */
  ghost function MadeAndStored(s: Session, e: Event, taxRate: real): Session
    requires Accounted(s) && e.Grants? && MayHappen(s, e, taxRate)
  {
    var made := Happens(s, e, taxRate);
    made.(stored := made.requests[e.r])
  }

  /** An update makes a grant, stores the session and then fails: as its trace cannot be written it releases the grant,
      which stays in the session. */
  lemma SavedThenReleased(s: Session, e: Event, c: Commit, taxRate: real)
    requires Accounted(s) && e.Grants? && MayHappen(s, e, taxRate)
    requires Possible(After(s.counters, e.c, taxRate), c, taxRate) && c.call == Release(e.c.call.id)
    requires Attempt(s.counters, e.c.call, e.c.visit, e.c.now, taxRate).response.units > 0
    ensures var stored := MadeAndStored(s, e, taxRate);
            && stored == Happens(Happens(s, e, taxRate), Stores(e.r), taxRate) && stored.stored != []
            && MayHappen(stored, Releases(c), taxRate)
            && var s', g := Happens(stored, Releases(c), taxRate), stored.stored[|stored.stored| - 1].grant;
               && s'.stored == stored.stored && g.id == e.c.call.id && g.unitsGranted > 0 && Fresh(s'.counters, g.id)
               && (StillValid(g, s'.now) ==> !Agrees(s'.counters, GrantsOf(s'.stored), s'.now))
  {
    hide Attempt, Visits, Backed, Short;
    var stored := MadeAndStored(s, e, taxRate);
    StepAccounted(s, e, taxRate);
    StepAccounted(Happens(s, e, taxRate), Stores(e.r), taxRate);
    StepAccounted(stored, Releases(c), taxRate);
    var s', h := Happens(stored, Releases(c), taxRate), stored.stored[|stored.stored| - 1];
    ReleaseEmpties(stored.counters, c, taxRate);
    FreshIsEmpty(s'.counters, h.grant.id);
    assert h in s'.stored && InPlay(stored, h) && Right(stored, h);
    AgreesExactly(s', s'.stored);
  }

  /** Two more requests have loaded the session. */
  ghost function LoadedTwice(s: Session): Session {
    s.(requests := s.requests + [s.stored] + [s.stored])
  }

  /** Two requests load the same grant, and both may use it. */
  lemma OverlapHappens(s: Session, i: nat, c1: Commit, c2: Commit, used1: int, used2: int, reclaim1: bool,
                       reclaim2: bool, taxRate: real)
    requires Sound(s.counters) && i < |s.stored| && MayUse(s.counters, c1, taxRate, s.stored[i].grant, used1, reclaim1)
    requires MayUse(After(s.counters, c1, taxRate), c2, taxRate, s.stored[i].grant, used2, reclaim2)
    ensures var loaded, first, second := LoadedTwice(s), Uses(|s.requests|, c1, i, used1, reclaim1),
                                         Uses(|s.requests| + 1, c2, i, used2, reclaim2);
            && loaded == Happens(Happens(s, Loads, taxRate), Loads, taxRate) && MayHappen(loaded, first, taxRate)
            && Happens(loaded, first, taxRate).counters == After(s.counters, c1, taxRate)
            && MayHappen(Happens(loaded, first, taxRate), second, taxRate)
  {
    hide Attempt, Visits, NormaliseUnits;
  }

  /** However little each of them uses, the second finds only what the first has left, and accounts for all of its
      usage exactly when the grant covers both and the first did not reclaim it. */
  lemma OverlapUnaccounted(s: Session, i: nat, c1: Commit, c2: Commit, used1: int, used2: int, reclaim1: bool,
                           reclaim2: bool, taxRate: real)
    requires Accounted(s) && i < |s.stored| && UpToDate(s.stored[i], s.done) && StillValid(s.stored[i].grant, s.now)
    requires MayUse(s.counters, c1, taxRate, s.stored[i].grant, used1, reclaim1)
    requires MayUse(After(s.counters, c1, taxRate), c2, taxRate, s.stored[i].grant, used2, reclaim2)
    ensures var units := s.stored[i].grant.unitsGranted;
            var debit := Attempt(After(s.counters, c1, taxRate), c2.call, c2.visit, c2.now, taxRate).response.debit;
            && debit.unaccountedUnits as real
               == Excess(c2.call.used as real, LeftOver(units as real, c1.call.used, reclaim1))
            && (debit.unaccountedUnits == 0 <==> !reclaim1 && c1.call.used + c2.call.used <= units)
  {
    hide Attempt, Visits, Slots, NormaliseUnits, Sound, DistinctCopies;
    var g := s.stored[i].grant;
    assert InPlay(s, s.stored[i]) && Right(s, s.stored[i]);
    var terms :| Kept(Slots(s.counters, g.id), g, terms);
    NormalisedPositive(used1, g.minimumUnits, g.roundingIncrement);
    NormalisedPositive(used2, g.minimumUnits, g.roundingIncrement);
    UseTakes(s.counters, c1, taxRate, g, used1, reclaim1, terms);
    UseTakes(After(s.counters, c1, taxRate), c2, taxRate, g, used2, reclaim2, terms);
  }
}
