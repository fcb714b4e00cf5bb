/** Versions are the callers' clocks, so they may repeat. When that loses an update: exactly which instants
    of the workers, and which version of the row they start from, let a run end other than serially. */
module Versions {
  import opened Basics
  import opened Charging
  import opened Ledger
  import opened QuotaOps
  import opened Attempts
  import opened Grants
  import opened Protocol

  function ProvisionOf(id: Uuid): Call {
    Provision(ProvisionRequest(id, UNITS, 0, 10.0, None, false, false, [], QUOTA_PROVISIONED, None))
  }

  /** Counters that hold something, reserve nothing and never expire. */
  predicate Lasting(cs: seq<CounterState>) {
    forall c :: c in cs ==> c.expiry.None? && c.balance != 0.0 && c.reservations == map[]
  }

  lemma {:induction false} NothingExpires(cs: seq<CounterState>, now: Time)
    requires Lasting(cs)
    ensures Expire(cs, now) == Expired(cs, [])
  {
    if cs != [] {
      NothingExpires(cs[1..], now);
      assert Pruned(cs[0], now).reservations == map[];
      assert [cs[0]] + cs[1..] == cs;
    }
  }

  lemma ProvisionAdds(cs: seq<CounterState>, id: Uuid, v: Visit, now: Time, taxRate: real)
    requires Sound(cs) && !Known(cs, id) && Lasting(cs)
    ensures SoundCall(ProvisionOf(id), taxRate) && Visits(Expire(cs, now).kept, ProvisionOf(id), v)
    ensures Attempt(cs, ProvisionOf(id), v, now, taxRate).counters == cs + [NewCounter(ProvisionOf(id).req)]
  {
    NothingExpires(cs, now);
    NothingExpires(cs + [NewCounter(ProvisionOf(id).req)], now);
  }

  lemma {:induction false} RunMore(s: System, steps: seq<Step>, step: Step, cfg: Config)
    requires Inv(s, cfg) && CanRun(s, steps, cfg) && Enabled(Run(s, steps, cfg), step, cfg)
    ensures CanRun(s, steps + [step], cfg) && Run(s, steps + [step], cfg) == Do(Run(s, steps, cfg), step, cfg)
    decreases |steps|
  {
    hide Do;
    if steps == [] {
      assert steps + [step] == [step] && [step][1..] == [];
    } else {
      RunMore(Do(s, steps[0], cfg), steps[1..], step, cfg);
      assert (steps + [step])[1..] == steps[1..] + [step];
    }
  }

  // ---- runs of workers that each provision a counter of their own ----

  /** The counter that worker `w` provisions. */
  function Provisioned(w: nat): CounterState {
    NewCounter(ProvisionOf(w).req)
  }

  /** One worker an instant, each to provision one counter, over a row without counters. */
  function Provisioners(nows: seq<Time>, version: Time): System {
    System(Row([], version), seq(|nows|, w requires 0 <= w < |nows| => Worker(ProvisionOf(w), nows[w], Ready(0))), [],
           [], {version})
  }

  lemma ProvisionersStart(nows: seq<Time>, version: Time, cfg: Config)
    ensures var s := Provisioners(nows, version); Start(s, cfg) && Instants(s) == nows
  {}

  /** The log of provisionings by these workers, one after another. */
  function LogOf(order: seq<nat>, nows: seq<Time>, v: Visit): seq<Commit>
    requires forall k :: 0 <= k < |order| ==> order[k] < |nows|
  {
    seq(|order|, k requires 0 <= k < |order| => Commit(ProvisionOf(order[k]), v, nows[order[k]]))
  }

  function CountersOf(order: seq<nat>): seq<CounterState> {
    seq(|order|, k requires 0 <= k < |order| => Provisioned(order[k]))
  }

  lemma CountersOfSound(order: seq<nat>)
    requires Distinct(order)
    ensures Sound(CountersOf(order)) && Lasting(CountersOf(order))
    ensures forall w: nat :: w !in order ==> !Known(CountersOf(order), w)
  {
    assert IntPart(10.0) == 10;
  }

  /** One after another, they add their counters. */
  lemma {:induction false} LogReplays(order: seq<nat>, nows: seq<Time>, v: Visit, taxRate: real)
    requires Distinct(order) && forall k :: 0 <= k < |order| ==> order[k] < |nows|
    ensures Feasible([], LogOf(order, nows, v), taxRate)
    ensures Replay([], LogOf(order, nows, v), taxRate) == CountersOf(order)
    decreases |order|
  {
    hide Attempt, Expire;
    if order != [] {
      var n := |order| - 1;
      var w := order[n];
      LogReplays(order[..n], nows, v, taxRate);
      CountersOfSound(order[..n]);
      ProvisionAdds(CountersOf(order[..n]), w, v, nows[w], taxRate);
      ReplayAppend([], LogOf(order[..n], nows, v), Commit(ProvisionOf(w), v, nows[w]), taxRate);
      assert LogOf(order, nows, v) == LogOf(order[..n], nows, v) + [Commit(ProvisionOf(w), v, nows[w])];
      assert CountersOf(order) == CountersOf(order[..n]) + [Provisioned(w)];
    }
  }

  /** A state of such a run: what is stored, who has saved, and what each worker is at. */
  ghost predicate At(s: System, nows: seq<Time>, v: Visit, row: Row, order: seq<nat>, phases: seq<Phase>) {
    && |phases| == |nows| == |s.workers| && s.row == row && s.committers == order
    && (forall k :: 0 <= k < |order| ==> order[k] < |nows|) && s.log == LogOf(order, nows, v)
    && forall w :: 0 <= w < |nows| ==> s.workers[w] == Worker(ProvisionOf(w), nows[w], phases[w])
  }

  lemma LoadAt(s: System, nows: seq<Time>, v: Visit, row: Row, order: seq<nat>, phases: seq<Phase>, w: nat, cfg: Config)
    requires Inv(s, cfg) && At(s, nows, v, row, order, phases) && w < |nows| && phases[w] == Ready(0)
    ensures Enabled(s, Load(w), cfg) && At(Do(s, Load(w), cfg), nows, v, row, order, phases[w := Loaded(0, row)])
  {}

  lemma SaveAt(s: System, nows: seq<Time>, v: Visit, row: Row, order: seq<nat>, phases: seq<Phase>, w: nat,
               seen: seq<nat>, cfg: Config)
    requires Inv(s, cfg) && At(s, nows, v, row, order, phases) && w < |nows| && Distinct(seen) && w !in seen
    requires phases[w] == Loaded(0, Row(CountersOf(seen), row.version))
    ensures Enabled(s, Save(w, v), cfg)
    ensures At(Do(s, Save(w, v), cfg), nows, v, Row(CountersOf(seen + [w]), nows[w]), order
            + [w], phases[w := Committed(Done)])
  {
    hide Expire;
    CountersOfSound(seen);
    ProvisionAdds(CountersOf(seen), w, v, nows[w], cfg.taxRate);
    assert CountersOf(seen + [w]) == CountersOf(seen) + [Provisioned(w)];
    assert LogOf(order + [w], nows, v) == LogOf(order, nows, v) + [Commit(ProvisionOf(w), v, nows[w])];
  }

  /** The steps lead to such a state. */
  ghost predicate Reaches(nows: seq<Time>, version: Time, steps: seq<Step>, v: Visit, row: Row, order: seq<nat>,
                          phases: seq<Phase>, cfg: Config)
  {
    var s := Provisioners(nows, version);
    Start(s, cfg) && CanRun(s, steps, cfg) && At(Run(s, steps, cfg), nows, v, row, order, phases)
  }

  lemma ReachesStart(nows: seq<Time>, version: Time, v: Visit, cfg: Config)
    ensures Reaches(nows, version, [], v, Row(CountersOf([]), version), [], seq(|nows|, w => Ready(0)), cfg)
  {
    ProvisionersStart(nows, version, cfg);
  }

  lemma ReachesLoad(nows: seq<Time>, version: Time, steps: seq<Step>, v: Visit, row: Row, order: seq<nat>,
                    phases: seq<Phase>, w: nat, cfg: Config)
    requires Reaches(nows, version, steps, v, row, order, phases, cfg)
    requires w < |nows| == |phases| && phases[w] == Ready(0)
    ensures Reaches(nows, version, steps + [Load(w)], v, row, order, phases[w := Loaded(0, row)], cfg)
  {
    var s := Provisioners(nows, version);
    LoadAt(Run(s, steps, cfg), nows, v, row, order, phases, w, cfg);
    RunMore(s, steps, Load(w), cfg);
  }

  lemma ReachesSave(nows: seq<Time>, version: Time, steps: seq<Step>, v: Visit, row: Row, order: seq<nat>,
                    phases: seq<Phase>, w: nat, seen: seq<nat>, cfg: Config)
    requires Reaches(nows, version, steps, v, row, order, phases, cfg)
    requires w < |nows| == |phases| && Distinct(seen) && w !in seen
    requires phases[w] == Loaded(0, Row(CountersOf(seen), row.version))
    ensures Reaches(nows, version, steps + [Save(w, v)], v, Row(CountersOf(seen + [w]), nows[w]), order + [w],
                    phases[w := Committed(Done)], cfg)
  {
    var s := Provisioners(nows, version);
    SaveAt(Run(s, steps, cfg), nows, v, row, order, phases, w, seen, cfg);
    RunMore(s, steps, Save(w, v), cfg);
  }

  /** The run lost an update: each of these workers committed a counter, and one after another they would have
      stored all of them, but only some are stored. */
  ghost predicate Loses(nows: seq<Time>, version: Time, steps: seq<Step>, order: seq<nat>, stored: seq<nat>,
                        cfg: Config) {
    var s := Provisioners(nows, version);
    && Start(s, cfg) && CanRun(s, steps, cfg)
    && var s' := Run(s, steps, cfg);
       && s'.committers == order && s'.row.counters == CountersOf(stored) && |stored| < |order|
       && Feasible([], s'.log, cfg.taxRate) && Replay([], s'.log, cfg.taxRate) == CountersOf(order)
       && !Serial([], s', cfg)
  }

  lemma ReachesLosing(nows: seq<Time>, version: Time, steps: seq<Step>, v: Visit, order: seq<nat>, stored: seq<nat>,
                      phases: seq<Phase>, now: Time, cfg: Config)
    requires Reaches(nows, version, steps, v, Row(CountersOf(stored), now), order, phases, cfg)
    requires Distinct(order) && |stored| < |order|
    ensures Loses(nows, version, steps, order, stored, cfg)
  {
    LogReplays(order, nows, v, cfg.taxRate);
    assert |CountersOf(stored)| != |CountersOf(order)|;
  }

  /** Someone saves under the version first stored while another has it loaded: the other's save is accepted
      too, whatever its instant, and drops what the first one saved. */
  lemma FirstVersionLoses(nows: seq<Time>, version: Time, i: nat, j: nat, v: Visit, cfg: Config)
      returns (steps: seq<Step>)
    requires i < |nows| && j < |nows| && i != j && nows[i] == version
    ensures Loses(nows, version, steps, [i, j], [j], cfg)
  {
    hide Reaches, CountersOf;
    var none: seq<nat> := [];
    var row, phases := Row(CountersOf(none), version), seq(|nows|, w => Ready(0));
    ReachesStart(nows, version, v, cfg);
    ReachesLoad(nows, version, [], v, row, none, phases, i, cfg);
    var p1 := phases[i := Loaded(0, row)];
    ReachesLoad(nows, version, [] + [Load(i)], v, row, none, p1, j, cfg);
    var p2 := p1[j := Loaded(0, row)];
    steps := [] + [Load(i)] + [Load(j)];
    ReachesSave(nows, version, steps, v, row, none, p2, i, none, cfg);
    var p3 := p2[i := Committed(Done)];
    steps := steps + [Save(i, v)];
    ReachesSave(nows, version, steps, v, Row(CountersOf(none + [i]), nows[i]), none + [i], p3, j, none, cfg);
    steps := steps + [Save(j, v)];
    assert none + [i] + [j] == [i, j] && none + [j] == [j];
    ReachesLosing(nows, version, steps, v, [i, j], [j], p3[j := Committed(Done)], nows[j], cfg);
  }

  /** Two save at the same instant, and a third has loaded what the first of them saved: the third's save is
      accepted and drops what the second one saved. */
  lemma SharedInstantLoses(nows: seq<Time>, version: Time, i: nat, j: nat, k: nat, v: Visit, cfg: Config)
      returns (steps: seq<Step>)
    requires i < |nows| && j < |nows| && k < |nows| && i != j && i != k && j != k && nows[i] == nows[j]
    ensures Loses(nows, version, steps, [i, j, k], [i, k], cfg)
  {
    hide Reaches, CountersOf;
    var none: seq<nat> := [];
    var row, phases := Row(CountersOf(none), version), seq(|nows|, w => Ready(0));
    ReachesStart(nows, version, v, cfg);
    ReachesLoad(nows, version, [], v, row, none, phases, i, cfg);
    var p1 := phases[i := Loaded(0, row)];
    steps := [] + [Load(i)];
    ReachesSave(nows, version, steps, v, row, none, p1, i, none, cfg);
    var p2, row2 := p1[i := Committed(Done)], Row(CountersOf(none + [i]), nows[i]);
    steps := steps + [Save(i, v)];
    ReachesLoad(nows, version, steps, v, row2, none + [i], p2, j, cfg);
    var p3 := p2[j := Loaded(0, row2)];
    steps := steps + [Load(j)];
    ReachesLoad(nows, version, steps, v, row2, none + [i], p3, k, cfg);
    var p4 := p3[k := Loaded(0, row2)];
    steps := steps + [Load(k)];
    ReachesSave(nows, version, steps, v, row2, none + [i], p4, j, none + [i], cfg);
    var p5, row3 := p4[j := Committed(Done)], Row(CountersOf(none + [i] + [j]), nows[j]);
    steps := steps + [Save(j, v)];
    ReachesSave(nows, version, steps, v, row3, none + [i] + [j], p5, k, none + [i], cfg);
    steps := steps + [Save(k, v)];
    assert none + [i] + [j] + [k] == [i, j, k] && none + [i] + [k] == [i, k];
    ReachesLosing(nows, version, steps, v, [i, j, k], [i, k], p5[k := Committed(Done)], nows[k], cfg);
  }

  // ---- the exact condition ----

  /** Whatever the calls, the counters first stored and the steps, workers of these instants over a row of this
      version end serially. */
  ghost predicate AlwaysSerial(nows: seq<Time>, version: Time, cfg: Config) {
    forall s: System, steps: seq<Step> ::
      Start(s, cfg) && Instants(s) == nows && s.row.version == version && CanRun(s, steps, cfg)
      ==> Serial(s.row.counters, Run(s, steps, cfg), cfg)
  }

  /** Every run is serial, for all calls, exactly when no worker has the instant of the version first stored
      while there is another, and no two have the same instant while there is a third. */
  lemma {:induction false} SerialExactly(nows: seq<Time>, version: Time, cfg: Config)
    ensures AlwaysSerial(nows, version, cfg) <==> Apart(nows, version)
  {
    hide Serial, Inv, Do;
    if Apart(nows, version) {
      forall s: System, steps: seq<Step>
        | Start(s, cfg) && Instants(s) == nows && s.row.version == version && CanRun(s, steps, cfg)
        ensures Serial(s.row.counters, Run(s, steps, cfg), cfg)
      {
        NoLostUpdate(s, steps, cfg);
      }
    } else {
      var steps := LosingRun(nows, version, cfg);
      var s := Provisioners(nows, version);
      ProvisionersStart(nows, version, cfg);
      assert CanRun(s, steps, cfg) && !Serial(s.row.counters, Run(s, steps, cfg), cfg);
    }
  }

  lemma LosingRun(nows: seq<Time>, version: Time, cfg: Config) returns (steps: seq<Step>)
    requires !Apart(nows, version)
    ensures var s := Provisioners(nows, version);
            Start(s, cfg) && CanRun(s, steps, cfg) && !Serial([], Run(s, steps, cfg), cfg)
  {
    var v := Visit([], []);
    if i :| 0 <= i < |nows| && nows[i] == version && |nows| != 1 {
      steps := FirstVersionLoses(nows, version, i, if i == 0 then 1 else 0, v, cfg);
    } else {
      var i, j :| 0 <= i < j < |nows| && nows[i] == nows[j] && |nows| != 2;
      steps := SharedInstantLoses(nows, version, i, j, if i > 0 then 0 else if j > 1 then 1 else 2, v, cfg);
    }
  }
}
