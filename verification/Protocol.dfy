/** executeWithQuota run by any number of workers against one stored row: each loads the row,
    attempts its call on what it loaded, and saves on condition that the version it loaded is
    still the one stored. */
module Protocol {
  import opened Basics
  import opened Ledger
  import opened QuotaOps
  import opened Reserving
  import opened Journal
  import opened Attempts
  import opened Publication
  import opened Grants

  /** The stored row; its version is the time stamp of the last save. */
  datatype Row = Row(counters: seq<CounterState>, version: Time)

  datatype Phase =
    | Ready(tries: nat)
    | Loaded(tries: nat, snapshot: Row)
    | Committed(response: Response)
    | Failed

  /** One call of the manager; `now` is both its clock and the version it will save under. */
  datatype Worker = Worker(call: Call, now: Time, phase: Phase)

  /** `log` and `committers` record the saves that succeeded, `stamps` every version ever stored. */
  datatype System = System(row: Row, workers: seq<Worker>, log: seq<Commit>, committers: seq<nat>, stamps: set<Time>)

  /** A manager is created with a tax rate and a limit on tries. */
  datatype Config = Config(taxRate: real, retryLimit: nat)

  /** A version mismatch is reported either as ErrConflict, which is retried, or, as
      QuotaRepository does, as another error, which is returned at once. Loading or saving may also
      fail outright. */
  datatype Step = Load(w: nat) | Save(w: nat, visit: Visit) | Mismatch(w: nat, asConflict: bool) | Break(w: nat)

  ghost predicate Inv(s: System, cfg: Config) {
    && Sound(s.row.counters)
    && (forall w :: 0 <= w < |s.workers| ==>
          && SoundCall(s.workers[w].call, cfg.taxRate)
          && (s.workers[w].phase.Loaded? ==> Sound(s.workers[w].phase.snapshot.counters)))
  }

  ghost predicate Enabled(s: System, step: Step, cfg: Config) {
    && step.w < |s.workers|
    && var k := s.workers[step.w];
       match step
       case Load(_) => k.phase.Ready?
       case Save(_, visit) =>
         && k.phase.Loaded? && k.phase.snapshot.version == s.row.version
         && Visits(Expire(k.phase.snapshot.counters, k.now).kept, k.call, visit)
       case Mismatch(_, _) => k.phase.Loaded? && k.phase.snapshot.version != s.row.version
       case Break(_) => k.phase.Ready? || k.phase.Loaded?
  }

  function AfterMismatch(tries: nat, asConflict: bool, cfg: Config): Phase {
    if asConflict && tries + 1 < cfg.retryLimit then Ready(tries + 1) else Failed
  }

  ghost function Do(s: System, step: Step, cfg: Config): (s': System)
    requires Inv(s, cfg) && Enabled(s, step, cfg)
    ensures Inv(s', cfg) && |s'.workers| == |s.workers|
  {
    var k := s.workers[step.w];
    match step
    case Load(w) => s.(workers := s.workers[w := k.(phase := Loaded(k.phase.tries, s.row))])
    case Save(w, visit) =>
      AttemptSound(k.phase.snapshot.counters, k.call, visit, k.now, cfg.taxRate);
      var o := Attempt(k.phase.snapshot.counters, k.call, visit, k.now, cfg.taxRate);
      System(Row(o.counters, k.now), s.workers[w := k.(phase := Committed(o.response))],
             s.log + [Commit(k.call, visit, k.now)], s.committers + [w], s.stamps + {k.now})
    case Mismatch(w, asConflict) =>
      s.(workers := s.workers[w := k.(phase := AfterMismatch(k.phase.tries, asConflict, cfg))])
    case Break(w) => s.(workers := s.workers[w := k.(phase := Failed)])
  }

  ghost predicate CanRun(s: System, steps: seq<Step>, cfg: Config)
    requires Inv(s, cfg)
    decreases |steps|
  {
    steps != [] ==> Enabled(s, steps[0], cfg) && CanRun(Do(s, steps[0], cfg), steps[1..], cfg)
  }

  ghost function Run(s: System, steps: seq<Step>, cfg: Config): (s': System)
    requires Inv(s, cfg) && CanRun(s, steps, cfg)
    ensures Inv(s', cfg)
    decreases |steps|
  {
    if steps == [] then s else Run(Do(s, steps[0], cfg), steps[1..], cfg)
  }

  /** No save of the run reuses a version that was ever stored. */
  ghost predicate FreshStamps(s: System, steps: seq<Step>, cfg: Config)
    requires Inv(s, cfg) && CanRun(s, steps, cfg)
    decreases |steps|
  {
    steps != [] ==>
      && (steps[0].Save? ==> s.workers[steps[0].w].now !in s.stamps)
      && FreshStamps(Do(s, steps[0], cfg), steps[1..], cfg)
  }

  /** Nothing has been loaded or saved yet. */
  ghost predicate Start(s: System, cfg: Config) {
    && Inv(s, cfg) && s.log == [] && s.committers == [] && s.stamps == {s.row.version}
    && forall w :: 0 <= w < |s.workers| ==> s.workers[w].phase == Ready(0)
  }

  // ---- serializability ----

  /** A worker whose save would be accepted holds what is stored. */
  ghost predicate Coherent(s: System) {
    forall w :: 0 <= w < |s.workers| && s.workers[w].phase.Loaded?
                && s.workers[w].phase.snapshot.version == s.row.version ==>
          s.workers[w].phase.snapshot == s.row
  }

  /** Workers that have committed, each listed once. */
  ghost predicate Tallied(s: System) {
    && Distinct(s.committers)
    && forall w :: w in s.committers <==> 0 <= w < |s.workers| && s.workers[w].phase.Committed?
  }

  /** The stored quota is what the committed calls make of the initial one, in commit order. */
  ghost predicate Serial(initial: seq<CounterState>, s: System, cfg: Config) {
    && Sound(initial) && Feasible(initial, s.log, cfg.taxRate)
    && s.row.counters == Replay(initial, s.log, cfg.taxRate)
  }

  lemma {:induction false} ReplayAppend(cs: seq<CounterState>, log: seq<Commit>, c: Commit, taxRate: real)
    requires Sound(cs) && Feasible(cs, log, taxRate) && SoundCall(c.call, taxRate)
    requires Visits(Expire(Replay(cs, log, taxRate), c.now).kept, c.call, c.visit)
    ensures Feasible(cs, log + [c], taxRate)
    ensures Replay(cs, log + [c], taxRate)
            == Attempt(Replay(cs, log, taxRate), c.call, c.visit, c.now, taxRate).counters
    decreases |log|
  {
    hide Attempt;
    if log == [] {
      assert log + [c] == [c] && [c][1..] == [];
      AttemptSound(cs, c.call, c.visit, c.now, taxRate);
    } else {
      var d := log[0];
      AttemptSound(cs, d.call, d.visit, d.now, taxRate);
      ReplayAppend(Attempt(cs, d.call, d.visit, d.now, taxRate).counters, log[1..], c, taxRate);
      assert (log + [c])[1..] == log[1..] + [c];
    }
  }

  /** Every save of the run is made of what is stored when it is made. */
  ghost predicate TrueSaves(s: System, steps: seq<Step>, cfg: Config)
    requires Inv(s, cfg) && CanRun(s, steps, cfg)
    decreases |steps|
  {
    steps != [] ==>
      && (steps[0].Save? ==> s.workers[steps[0].w].phase.snapshot == s.row)
      && TrueSaves(Do(s, steps[0], cfg), steps[1..], cfg)
  }

  lemma StepSerial(initial: seq<CounterState>, s: System, step: Step, cfg: Config)
    requires Inv(s, cfg) && Enabled(s, step, cfg) && Serial(initial, s, cfg) && Tallied(s)
    requires step.Save? ==> s.workers[step.w].phase.snapshot == s.row
    ensures var s' := Do(s, step, cfg); Serial(initial, s', cfg) && Tallied(s')
  {
    hide Attempt;
    var k := s.workers[step.w];
    if step.Save? {
      ReplayAppend(initial, s.log, Commit(k.call, step.visit, k.now), cfg.taxRate);
      assert step.w !in s.committers;
    }
  }

  lemma {:induction false} TrueSavesSerial(initial: seq<CounterState>, s: System, steps: seq<Step>, cfg: Config)
    requires Inv(s, cfg) && CanRun(s, steps, cfg) && TrueSaves(s, steps, cfg) && Serial(initial, s, cfg) && Tallied(s)
    ensures var s' := Run(s, steps, cfg); Serial(initial, s', cfg) && Tallied(s')
    decreases |steps|
  {
    if steps != [] {
      StepSerial(initial, s, steps[0], cfg);
      TrueSavesSerial(initial, Do(s, steps[0], cfg), steps[1..], cfg);
    }
  }

  // ---- versions no two loads can confuse: saved once only ----

  ghost predicate Stamped(s: System) {
    && s.row.version in s.stamps
    && forall w :: 0 <= w < |s.workers| && s.workers[w].phase.Loaded? ==>
          s.workers[w].phase.snapshot.version in s.stamps
  }

  lemma {:induction false} FreshSavesTrue(s: System, steps: seq<Step>, cfg: Config)
    requires Inv(s, cfg) && CanRun(s, steps, cfg) && FreshStamps(s, steps, cfg) && Coherent(s) && Stamped(s)
    ensures TrueSaves(s, steps, cfg)
    decreases |steps|
  {
    hide Attempt;
    if steps != [] { FreshSavesTrue(Do(s, steps[0], cfg), steps[1..], cfg); }
  }

  // ---- or instants far enough apart ----

  function Instants(s: System): (nows: seq<Time>)
    ensures |nows| == |s.workers| && forall w :: 0 <= w < |nows| ==> nows[w] == s.workers[w].now
  {
    seq(|s.workers|, w requires 0 <= w < |s.workers| => s.workers[w].now)
  }

  /** No worker has the instant of the version first stored, unless it is the only one, and no two have the
      same instant, unless they are the only two. */
  predicate Apart(nows: seq<Time>, version: Time) {
    && (forall i :: 0 <= i < |nows| && nows[i] == version ==> |nows| == 1)
    && (forall i, j :: 0 <= i < j < |nows| && nows[i] == nows[j] ==> |nows| == 2)
  }

  /** The version is the first one or was saved by a worker that has committed. */
  ghost predicate Traced(s: System, version: Time, first: Time) {
    version == first || exists c :: 0 <= c < |s.workers| && s.workers[c].phase.Committed? && s.workers[c].now == version
  }

  ghost predicate AllTraced(s: System, first: Time) {
    && Traced(s, s.row.version, first)
    && forall w :: 0 <= w < |s.workers| && s.workers[w].phase.Loaded? ==>
          Traced(s, s.workers[w].phase.snapshot.version, first)
  }

  lemma StepTraced(s: System, step: Step, cfg: Config, first: Time, version: Time)
    requires Inv(s, cfg) && Enabled(s, step, cfg) && Traced(s, version, first)
    ensures Traced(Do(s, step, cfg), version, first)
  {
    hide Attempt, Inv;
    var s' := Do(s, step, cfg);
    if version != first {
      var c :| 0 <= c < |s.workers| && s.workers[c].phase.Committed? && s.workers[c].now == version;
      assert s'.workers[c] == s.workers[c];
    }
  }

  lemma StepApart(s: System, step: Step, cfg: Config, first: Time)
    requires Inv(s, cfg) && Enabled(s, step, cfg) && Coherent(s) && AllTraced(s, first) && Apart(Instants(s), first)
    ensures var s' := Do(s, step, cfg); Coherent(s') && AllTraced(s', first) && Instants(s') == Instants(s)
  {
    hide Attempt, Inv, Apart, Traced;
    var s' := Do(s, step, cfg);
    forall w | 0 <= w < |s'.workers| && s'.workers[w].phase.Loaded?
      ensures Traced(s', s'.workers[w].phase.snapshot.version, first)
      ensures s'.workers[w].phase.snapshot.version == s'.row.version ==> s'.workers[w].phase.snapshot == s'.row
    {
      StepTraced(s, step, cfg, first, s'.workers[w].phase.snapshot.version);
      if step.Save? { NotConfused(s, step.w, w, first); }
    }
    if step.Save? { SavedTraced(s', step.w, first); } else { StepTraced(s, step, cfg, first, s.row.version); }
  }

  lemma SavedTraced(s: System, w: nat, first: Time)
    requires w < |s.workers| && s.workers[w].phase.Committed? && s.row.version == s.workers[w].now
    ensures Traced(s, s.row.version, first)
  {}

  /** What another worker has loaded does not carry the instant at which this one saves. */
  lemma NotConfused(s: System, w: nat, x: nat, first: Time)
    requires w < |s.workers| && x < |s.workers| && x != w && Apart(Instants(s), first)
    requires s.workers[w].phase.Loaded? && s.workers[x].phase.Loaded?
    requires Traced(s, s.workers[x].phase.snapshot.version, first)
    ensures s.workers[x].phase.snapshot.version != s.workers[w].now
  {
    var nows := Instants(s);
    assert nows[w] == s.workers[w].now;
    forall c | 0 <= c < |s.workers| && s.workers[c].phase.Committed?
      ensures nows[c] == s.workers[c].now && c != w && c != x {}
  }

  lemma {:induction false} ApartSavesTrue(s: System, steps: seq<Step>, cfg: Config, first: Time)
    requires Inv(s, cfg) && CanRun(s, steps, cfg) && Coherent(s) && AllTraced(s, first) && Apart(Instants(s), first)
    ensures TrueSaves(s, steps, cfg)
    decreases |steps|
  {
    if steps != [] {
      StepApart(s, steps[0], cfg, first);
      ApartSavesTrue(Do(s, steps[0], cfg), steps[1..], cfg, first);
    }
  }

  /** No version is taken for another: no save of the run reuses one, or the workers' instants are apart. */
  ghost predicate Unconfused(s: System, steps: seq<Step>, cfg: Config)
    requires Inv(s, cfg) && CanRun(s, steps, cfg)
  {
    FreshStamps(s, steps, cfg) || Apart(Instants(s), s.row.version)
  }

  /** No update is lost. In any run of any number of workers in which no version is taken for another,
      the stored quota is what the committed calls make of the initial quota one after another in commit
      order, and a call commits exactly once if it reports success and never otherwise. */
  lemma {:induction false} NoLostUpdate(s: System, steps: seq<Step>, cfg: Config)
    requires Start(s, cfg) && CanRun(s, steps, cfg) && Unconfused(s, steps, cfg)
    ensures var s' := Run(s, steps, cfg);
            && Serial(s.row.counters, s', cfg) && Sound(s'.row.counters)
            && Distinct(s'.committers)
            && forall w :: w in s'.committers <==> 0 <= w < |s'.workers| && s'.workers[w].phase.Committed?
  {
    if FreshStamps(s, steps, cfg) {
      FreshSavesTrue(s, steps, cfg);
    } else {
      ApartSavesTrue(s, steps, cfg, s.row.version);
    }
    TrueSavesSerial(s.row.counters, s, steps, cfg);
  }

  // ---- what serializability brings: the journal and the grants of a whole run ----

  /** The journal entries of the committed calls, in commit order. */
  ghost function JournalOf(cs: seq<CounterState>, log: seq<Commit>, taxRate: real): seq<Entry>
    requires Sound(cs) && Feasible(cs, log, taxRate)
    decreases |log|
  {
    if log == [] then [] else
    var c := log[0];
    AttemptSound(cs, c.call, c.visit, c.now, taxRate);
    var o := Attempt(cs, c.call, c.visit, c.now, taxRate);
    o.journal + JournalOf(o.counters, log[1..], taxRate)
  }

  lemma {:induction false} ReplayExplained(cs: seq<CounterState>, log: seq<Commit>, taxRate: real)
    requires Sound(cs) && Feasible(cs, log, taxRate) && UsageReasons(cs)
    requires forall c :: c in log ==> SoundReason(c.call)
    ensures Explains(cs, JournalOf(cs, log, taxRate), Replay(cs, log, taxRate))
    decreases |log|
  {
    if log == [] {
      ExplainsQuiet(cs, cs);
    } else {
      var c := log[0];
      assert c in log;
      AttemptSound(cs, c.call, c.visit, c.now, taxRate);
      AttemptExplained(cs, c.call, c.visit, c.now, taxRate);
      var o := Attempt(cs, c.call, c.visit, c.now, taxRate);
      ReplayExplained(o.counters, log[1..], taxRate);
      ExplainsTrans(cs, o.journal, o.counters, JournalOf(o.counters, log[1..], taxRate),
                    Replay(o.counters, log[1..], taxRate));
    }
  }

  /** What the committed calls publish, each in the order of its publication, in commit order. */
  ghost function PublishedOf(cs: seq<CounterState>, log: seq<Commit>, taxRate: real): seq<Entry>
    requires Sound(cs) && Feasible(cs, log, taxRate)
    decreases |log|
  {
    if log == [] then [] else
    var c := log[0];
    PublishedBy(cs, c.call, c.visit, c.now, taxRate) + PublishedOf(After(cs, c, taxRate), log[1..], taxRate)
  }

  /** Some committed call provisions the very counter that the expiry before it wrote off and dropped. */
  ghost predicate Reopened(cs: seq<CounterState>, log: seq<Commit>, taxRate: real)
    requires Sound(cs) && Feasible(cs, log, taxRate)
    decreases |log|
  {
    log != [] && (Reopens(cs, log[0].call, log[0].now) || Reopened(After(cs, log[0], taxRate), log[1..], taxRate))
  }

  lemma {:induction false} ReplayPublished(cs: seq<CounterState>, log: seq<Commit>, taxRate: real)
    requires Sound(cs) && Feasible(cs, log, taxRate) && UsageReasons(cs)
    requires forall c :: c in log ==> SoundReason(c.call)
    ensures var j, cs' := PublishedOf(cs, log, taxRate), Replay(cs, log, taxRate);
            AddsUp(cs, j, cs') && (Explains(cs, j, cs') <==> !Reopened(cs, log, taxRate))
    decreases |log|
  {
    hide Explains, AddsUp, Running, Reopens, Attempt, PublishedBy;
    if log == [] {
      ExplainsQuiet(cs, cs);
      ExplainsParts(cs, [], cs);
    } else {
      var c := log[0];
      assert c in log;
      var cs1, cs2 := After(cs, c, taxRate), Replay(cs, log, taxRate);
      var j1, j2 := PublishedBy(cs, c.call, c.visit, c.now, taxRate), PublishedOf(cs1, log[1..], taxRate);
      PublishedExplained(cs, c.call, c.visit, c.now, taxRate);
      AttemptExplained(cs, c.call, c.visit, c.now, taxRate);
      ReplayPublished(cs1, log[1..], taxRate);
      PartsAddUp(cs, j1, cs1, j2, cs2);
      RunningConcat(cs, j1, cs1, j2);
      ExplainsParts(cs, j1, cs1);
      ExplainsParts(cs1, j2, cs2);
      ExplainsParts(cs, j1 + j2, cs2);
    }
  }

  /** The ledger can be replayed. In every run in which no version is taken for another, each stored balance is
      the initial balance plus what the committed calls published for its counter, signed by reason. Each entry
      carries the running balance of its counter, calls taken in commit order and the entries of a call as it
      publishes them, exactly when no call reopened a counter that the expiry before it had written off; taken
      in the order in which they take effect, the entries always carry it. */
  lemma {:induction false} LedgerReplays(s: System, steps: seq<Step>, cfg: Config)
    requires Start(s, cfg) && CanRun(s, steps, cfg) && Unconfused(s, steps, cfg)
    requires UsageReasons(s.row.counters) && forall w :: 0 <= w < |s.workers| ==> SoundReason(s.workers[w].call)
    ensures var cs, s' := s.row.counters, Run(s, steps, cfg);
            && Feasible(cs, s'.log, cfg.taxRate)
            && AddsUp(cs, PublishedOf(cs, s'.log, cfg.taxRate), s'.row.counters)
            && (Explains(cs, PublishedOf(cs, s'.log, cfg.taxRate), s'.row.counters)
                <==> !Reopened(cs, s'.log, cfg.taxRate))
            && Explains(cs, JournalOf(cs, s'.log, cfg.taxRate), s'.row.counters)
  {
    NoLostUpdate(s, steps, cfg);
    LogOfWorkers(s, steps, cfg);
    ReplayExplained(s.row.counters, Run(s, steps, cfg).log, cfg.taxRate);
    ReplayPublished(s.row.counters, Run(s, steps, cfg).log, cfg.taxRate);
  }

  /** Only the workers' own calls are ever committed. */
  lemma {:induction false} LogOfWorkers(s: System, steps: seq<Step>, cfg: Config)
    requires Inv(s, cfg) && CanRun(s, steps, cfg)
    requires forall w :: 0 <= w < |s.workers| ==> SoundReason(s.workers[w].call)
    requires forall c :: c in s.log ==> SoundReason(c.call)
    ensures forall c :: c in Run(s, steps, cfg).log ==> SoundReason(c.call)
    decreases |steps|
  {
    if steps != [] { LogOfWorkers(Do(s, steps[0], cfg), steps[1..], cfg); }
  }

  lemma {:induction false} ReplaySplit(cs: seq<CounterState>, a: seq<Commit>, b: seq<Commit>, taxRate: real)
    requires Sound(cs) && Feasible(cs, a + b, taxRate)
    ensures Feasible(cs, a, taxRate) && Feasible(Replay(cs, a, taxRate), b, taxRate)
    ensures Replay(cs, a + b, taxRate) == Replay(Replay(cs, a, taxRate), b, taxRate)
    decreases |a|
  {
    if a == [] {
      assert a + b == b;
    } else {
      var c := a[0];
      AttemptSound(cs, c.call, c.visit, c.now, taxRate);
      assert (a + b)[1..] == a[1..] + b;
      ReplaySplit(Attempt(cs, c.call, c.visit, c.now, taxRate).counters, a[1..], b, taxRate);
    }
  }

  /** Grants are honoured under concurrency. In any run in which no version is taken for another, once a
      reservation with multiplier one under a fresh id has been committed, and as long as only calls not
      naming the id have been committed since, all before the reservation expires, a debit of up to the
      units granted, attempted on the stored row before that expiry, accounts for every unit. */
  lemma {:induction false} GrantHonouredInRun(s: System, steps: seq<Step>, cfg: Config, pre: seq<Commit>,
                                              reserve: Commit, between: seq<Commit>, debit: Commit)
    requires Start(s, cfg) && CanRun(s, steps, cfg) && Unconfused(s, steps, cfg)
    requires Run(s, steps, cfg).log == pre + ([reserve] + between)
    requires Feasible(s.row.counters, pre, cfg.taxRate)
    requires Possible(Replay(s.row.counters, pre, cfg.taxRate), reserve, cfg.taxRate)
    requires reserve.call.Reserve? && reserve.call.multiplier == 1.0 && reserve.call.validity > 0
    requires Fresh(Replay(s.row.counters, pre, cfg.taxRate), reserve.call.id)
    requires forall c :: c in between ==> Other(c.call, reserve.call.id) && c.now < reserve.now + reserve.call.validity
    requires Possible(Run(s, steps, cfg).row.counters, debit, cfg.taxRate)
    requires debit.call.Debit? && debit.call.id == reserve.call.id && debit.call.unitType == reserve.call.unitType
    requires debit.now < reserve.now + reserve.call.validity
    requires debit.call.used <= Attempt(Replay(s.row.counters, pre, cfg.taxRate), reserve.call, reserve.visit,
             reserve.now, cfg.taxRate).response.units
    ensures var r := Attempt(Run(s, steps, cfg).row.counters, debit.call, debit.visit, debit.now,
            cfg.taxRate).response.debit;
            r.unaccountedUnits == 0 && r.unitsDebited == debit.call.used
  {
    NoLostUpdate(s, steps, cfg);
    ReplaySplit(s.row.counters, pre, [reserve] + between, cfg.taxRate);
    var cs := Replay(s.row.counters, pre, cfg.taxRate);
    assert ([reserve] + between)[1..] == between;
    GrantHonoured(cs, reserve, between, debit, cfg.taxRate);
  }
}
