/** The properties of the Oracle side that hold in every run: who executes its commands, when, and what success
    proves. */
module OracleSafety {
  import opened Outcomes
  import opened Model
  import opened Store
  import opened Protocol
  import opened Invariant
  import opened Runs

  // ----- The log -----

  predicate OracleStart(e: Event, k: OracleKey) {
    e.JobStarted? && e.job.OracleJob? && e.job.target == k.source
  }

  /** What has to have happened before `e` was logged. */
  ghost predicate EventOk(st: State, bundles: Bundles, prior: seq<Event>, e: Event) {
    match e
    case JobStarted(Migration(x)) => x in st.attempts && Leads(DataMutationStarted, st.attempts[x].phase)
    case JobStarted(OracleJob(x, repair, command)) =>
      var k := TargetKey(bundles, x);
      && k in st.oracle
      && OracleDone(k) !in prior
      && (repair.Some? ==> Bound(k, repair.value) in prior)
      && (repair.None? ==> forall r :: Bound(k, r) !in prior)
    case Bound(k, repair) => Execution(st.repairs, k) == Some(repair) && forall r :: Bound(k, r) !in prior
    case OracleDone(k) =>
      && k in st.oracle && st.oracle[k].phase.OSucceeded?
      && |prior| >= 5 && prior[|prior| - 5..] == RestoreProof(k) + [Exact(k)]
    case _ => true
  }

  ghost predicate LogOk(st: State, bundles: Bundles, log: seq<Event>) {
    && (forall i :: 0 <= i < |log| ==> EventOk(st, bundles, log[..i], log[i]))
    && (forall k :: k in st.repairs ==> Bound(k, st.repairs[k].repairSourceSha) in log)
  }

  lemma EventStaysOk(s: Sys, t: Sys, prior: seq<Event>, e: Event)
    requires Grew(s, t) && EventOk(s.st, s.w.bundles, prior, e)
    ensures EventOk(t.st, t.w.bundles, prior, e)
  {
    if e.JobStarted? && e.job.Migration? {
      var x := e.job.source;
      LeadsTransitive(DataMutationStarted, s.st.attempts[x].phase, t.st.attempts[x].phase);
    }
  }

  lemma LogAppend(st: State, bundles: Bundles, log: seq<Event>, e: Event)
    requires forall i :: 0 <= i < |log| ==> EventOk(st, bundles, log[..i], log[i])
    requires EventOk(st, bundles, log, e)
    ensures forall i :: 0 <= i < |log + [e]| ==> EventOk(st, bundles, (log + [e])[..i], (log + [e])[i])
  {
    forall i | 0 <= i < |log + [e]| ensures EventOk(st, bundles, (log + [e])[..i], (log + [e])[i]) {
      if i < |log| {
        assert (log + [e])[..i] == log[..i];
      } else {
        assert (log + [e])[..i] == log;
      }
    }
  }

  lemma LogKept(s: Sys, t: Sys)
    requires Grew(s, t) && LogOk(s.st, s.w.bundles, s.h.log)
    ensures forall i :: 0 <= i < |s.h.log| ==> EventOk(t.st, t.w.bundles, s.h.log[..i], s.h.log[i])
  {
    forall i | 0 <= i < |s.h.log| ensures EventOk(t.st, t.w.bundles, s.h.log[..i], s.h.log[i]) {
      EventStaysOk(s, t, s.h.log[..i], s.h.log[i]);
    }
  }

  lemma StartIsOk(s: Sys, job: Job)
    requires LogOk(s.st, s.w.bundles, s.h.log) && JobGuard(s, job)
    ensures EventOk(s.st, s.w.bundles, s.h.log, JobStarted(job))
  {
    match job
    case Migration(x) => assert Leads(DataMutationStarted, DataMutationStarted);
    case OracleJob(x, repair, command) =>
      var k := TargetKey(s.w.bundles, x);
      forall i | 0 <= i < |s.h.log| ensures s.h.log[i] != OracleDone(k) {
        assert EventOk(s.st, s.w.bundles, s.h.log[..i], s.h.log[i]);
      }
      forall i, r | 0 <= i < |s.h.log| && s.h.log[i] == Bound(k, r) ensures k in s.st.repairs {
        assert EventOk(s.st, s.w.bundles, s.h.log[..i], s.h.log[i]);
      }
  }

  lemma BoundIsOk(s: Sys, b: OracleRepairBinding)
    requires LogOk(s.st, s.w.bundles, s.h.log) && CanCreateRepair(s, b)
    ensures EventOk(Written(s, CreateRepair(b)).st, s.w.bundles, s.h.log, Bound(b.Key(), b.repairSourceSha))
  {
    forall i | 0 <= i < |s.h.log| ensures s.h.log[i].Bound? ==> s.h.log[i].key != b.Key() {
      assert EventOk(s.st, s.w.bundles, s.h.log[..i], s.h.log[i]);
    }
  }

  lemma DoneIsOk(s: Sys, o: OracleAttempt)
    requires CanReplaceOracleAttempt(s, o) && o.phase.OSucceeded?
    ensures EventOk(Written(s, ReplaceOracleAttempt(o)).st, s.w.bundles, s.h.log, OracleDone(o.Key()))
  {
  }

  lemma LogWrite(s: Sys, write: Write)
    requires Shape(s.st, s.w.bundles) && LogOk(s.st, s.w.bundles, s.h.log) && WriteEnabled(s, write)
    ensures var t := Written(s, write); LogOk(t.st, t.w.bundles, t.h.log)
  {
    var t := Written(s, write);
    GrewWrite(s, write);
    LogKept(s, t);
    match write {
      case CreateRepair(b) =>
        BoundIsOk(s, b);
        LogAppend(t.st, t.w.bundles, s.h.log, Bound(b.Key(), b.repairSourceSha));
      case ReplaceOracleAttempt(o) =>
        if o.phase.OSucceeded? {
          DoneIsOk(s, o);
          LogAppend(t.st, t.w.bundles, s.h.log, OracleDone(o.Key()));
        }
      case _ =>
    }
  }

  lemma LogEffect(s: Sys, effect: Effect)
    requires LogOk(s.st, s.w.bundles, s.h.log) && EffectEnabled(s, effect)
    ensures var t := Effected(s, effect); LogOk(t.st, t.w.bundles, t.h.log)
  {
    match effect
    case StartJob(job) =>
      StartIsOk(s, job);
      LogAppend(s.st, s.w.bundles, s.h.log, JobStarted(job));
    case Observe(e) => LogAppend(s.st, s.w.bundles, s.h.log, e);
    case _ =>
  }

  lemma {:induction false} RunLog(s0: Sys, acts: seq<Action>)
    requires Run(s0, acts)
    ensures var s := After(s0, acts); LogOk(s.st, s.w.bundles, s.h.log)
  {
    if acts == [] {
    } else {
      var shorter := acts[..|acts| - 1];
      RunLog(s0, shorter);
      RunInv(s0, shorter);
      match acts[|acts| - 1]
      case Durable(write) => LogWrite(After(s0, shorter), write);
      case Outside(effect) => LogEffect(After(s0, shorter), effect);
    }
  }

  // ----- Execution source -----

  ghost predicate SourceAt(log: seq<Event>, k: OracleKey, i: nat)
    requires i < |log| && OracleStart(log[i], k)
  {
    && (forall j, r :: 0 <= j < |log| && log[j] == Bound(k, r) ==> log[i].job.repair == if j < i then Some(r) else None)
    && (forall j :: 0 <= j < i ==> log[j] != OracleDone(k))
  }

  lemma SourceInLog(st: State, bundles: Bundles, log: seq<Event>, k: OracleKey, i: nat)
    requires LogOk(st, bundles, log) && k == TargetKey(bundles, k.source) && i < |log| && OracleStart(log[i], k)
    ensures SourceAt(log, k, i)
    ensures log[i].job.repair.Some? ==> Execution(st.repairs, k) == log[i].job.repair
  {
    assert EventOk(st, bundles, log[..i], log[i]);
    forall j, r | 0 <= j < |log| && log[j] == Bound(k, r)
      ensures log[i].job.repair == if j < i then Some(r) else None
    {
      assert EventOk(st, bundles, log[..j], log[j]);
    }
    if log[i].job.repair.Some? {
      var j :| 0 <= j < i && log[j] == Bound(k, log[i].job.repair.value);
      assert EventOk(st, bundles, log[..j], log[j]);
    }
  }

  /** The image that runs the mutating commands of a target: its own until a repair is bound, the bound repair from
      then on, and nothing once the target has succeeded. */
  lemma ExecutionSourceMonotone(s0: Sys, acts: seq<Action>, k: OracleKey, i: nat)
    requires Run(s0, acts) && k == TargetKey(s0.w.bundles, k.source)
    requires i < |After(s0, acts).h.log| && OracleStart(After(s0, acts).h.log[i], k)
    ensures var s := After(s0, acts); var repair := s.h.log[i].job.repair;
            SourceAt(s.h.log, k, i) && (repair.Some? ==> Execution(s.st.repairs, k) == repair)
  {
    RunLog(s0, acts);
    RunGrew(s0, acts, 0);
    assert acts[..0] == [];
    SourceInLog(After(s0, acts).st, After(s0, acts).w.bundles, After(s0, acts).h.log, k, i);
  }

  /** Success is stored only right after the publication was exact, the captured runtime was proved, and the publication
      was exact again. */
  lemma SuccessProvesPublication(s0: Sys, acts: seq<Action>, i: nat, k: OracleKey)
    requires Run(s0, acts) && i < |After(s0, acts).h.log| && After(s0, acts).h.log[i] == OracleDone(k)
    ensures var s := After(s0, acts);
            && i >= 5 && s.h.log[i - 5..i] == [Exact(k), Backend(k.source), Public(k.source), Runtime(k), Exact(k)]
            && k in s.st.oracle && s.st.oracle[k].phase.OSucceeded?
  {
    RunLog(s0, acts);
    var s := After(s0, acts);
    assert EventOk(s.st, s.w.bundles, s.h.log[..i], s.h.log[i]);
    assert s.h.log[..i][i - 5..] == s.h.log[i - 5..i];
  }

  // ----- Mutations and writers -----

  predicate RunningMutation(w: World, job: Job) {
    job.OracleJob? && job in w.jobs && w.jobs[job].Running?
  }

  /** No app writer runs beside a running Oracle mutation. */
  ghost predicate NoOverlap(w: World) {
    forall job :: job in w.jobs && RunningMutation(w, job) ==> w.writers == map[]
  }

  /** A running mutation that no repair binding has left behind belongs to the current phase, with writers stopped. */
  lemma MutationStopsWriters(s: Sys, job: Job)
    requires OracleJobs(s.st.oracle, s.st.repairs, s.w.bundles, s.w.jobs)
    requires OracleQuiet(s.st.oracle, s.st.forwardFix, s.st.current, s.w.writers)
    requires RunningMutation(s.w, job) && !Orphan(s.st.repairs, s.w.bundles, job)
    ensures s.w.writers == map[]
  {
    assert InPhase(s.st.oracle, s.st.repairs, s.w.bundles, job);
    var k := TargetKey(s.w.bundles, job.target);
    assert k in s.st.oracle && s.st.oracle[k].phase.Mutating();
  }

  lemma RunOracle(s0: Sys, acts: seq<Action>)
    requires Run(s0, acts)
    ensures var s := After(s0, acts);
            && OracleJobs(s.st.oracle, s.st.repairs, s.w.bundles, s.w.jobs)
            && OracleQuiet(s.st.oracle, s.st.forwardFix, s.st.current, s.w.writers)
  {
    RunInv(s0, acts);
  }

  /** Mutating commands start with all writers stopped; and without a repair binding they also end that way, whatever
      crashes, timeouts and resumes happen in between. */
  lemma MutationsRunQuietly(s0: Sys, acts: seq<Action>, job: Job)
    requires Run(s0, acts) && RunningMutation(After(s0, acts).w, job)
    requires TargetKey(After(s0, acts).w.bundles, job.target) !in After(s0, acts).st.repairs || job.repair.Some?
    ensures After(s0, acts).w.writers == map[]
  {
    RunOracle(s0, acts);
    MutationStopsWriters(After(s0, acts), job);
  }

  /** Starting writers again keeps them apart from Oracle mutations exactly when no mutation container still runs. */
  lemma RestoreIsQuiet(s: Sys, some: set<Writer>, k: OracleKey)
    requires EffectEnabled(s, RestoreRuntime(some, k)) && some != {}
    ensures NoOverlap(Effected(s, RestoreRuntime(some, k)).w) <==> forall job :: !RunningMutation(s.w, job)
  {
    var v :| v in some;
    var t := Effected(s, RestoreRuntime(some, k));
    assert v in t.w.writers;
    assert t.w.jobs == s.w.jobs;
    assert forall job :: RunningMutation(t.w, job) == RunningMutation(s.w, job);
  }

  predicate Starting(effect: Effect) {
    (effect.StartCandidate? || effect.RestartPredecessor? || effect.RestoreRuntime?) && effect.some != {}
  }

  /** A writer is started beside a running Oracle mutation. */
  ghost predicate StartsBeside(s: Sys, action: Action) {
    action.Outside? && Starting(action.effect) && exists job :: job in s.w.jobs && RunningMutation(s.w, job)
  }

  lemma OverlapStarts(s: Sys, action: Action)
    requires Enabled(s, action) && NoOverlap(s.w)
    ensures NoOverlap(Perform(s, action).w) <==> !StartsBeside(s, action)
  {
    var t := Perform(s, action);
    if StartsBeside(s, action) {
      var job :| job in s.w.jobs && RunningMutation(s.w, job);
      var v :| v in action.effect.some;
      assert job in t.w.jobs && RunningMutation(t.w, job) && v in t.w.writers;
    } else {
      forall job | job in t.w.jobs && RunningMutation(t.w, job) ensures t.w.writers == map[] {
        StillQuiet(s, action, job);
      }
    }
  }

  lemma StillQuiet(s: Sys, action: Action, job: Job)
    requires Enabled(s, action) && NoOverlap(s.w) && !StartsBeside(s, action)
    requires RunningMutation(Perform(s, action).w, job)
    ensures Perform(s, action).w.writers == map[]
  {
    assert action == Outside(StartJob(job)) || RunningMutation(s.w, job);
  }

  ghost predicate QuietAt(s0: Sys, acts: seq<Action>, i: nat)
    requires i <= |acts|
  {
    NoOverlap(After(s0, acts[..i]).w)
  }

  ghost predicate BesideAt(s0: Sys, acts: seq<Action>, i: nat)
    requires i < |acts|
  {
    StartsBeside(After(s0, acts[..i]), acts[i])
  }

  lemma QuietNext(s0: Sys, acts: seq<Action>, i: nat)
    requires Run(s0, acts) && i < |acts| && QuietAt(s0, acts, i)
    ensures QuietAt(s0, acts, i + 1) <==> !BesideAt(s0, acts, i)
  {
    Prefix(s0, acts, i);
    OverlapStarts(After(s0, acts[..i]), acts[i]);
  }

  lemma {:induction false} QuietUpTo(s0: Sys, acts: seq<Action>, n: nat)
    requires Run(s0, acts) && n <= |acts| && forall i :: 0 <= i < n ==> !BesideAt(s0, acts, i)
    ensures QuietAt(s0, acts, n)
  {
    if n == 0 {
      assert acts[..0] == [];
    } else {
      QuietUpTo(s0, acts, n - 1);
      QuietNext(s0, acts, n - 1);
    }
  }

  /** In a whole run, no writer ever runs beside an Oracle mutation if and only if none was started beside one: by the
      reconcile itself, or by a later release. */
  lemma NeverOverlapsIff(s0: Sys, acts: seq<Action>)
    requires Run(s0, acts)
    ensures (forall i :: 0 <= i <= |acts| ==> QuietAt(s0, acts, i)) <==>
            (forall i :: 0 <= i < |acts| ==> !BesideAt(s0, acts, i))
  {
    if forall i :: 0 <= i <= |acts| ==> QuietAt(s0, acts, i) {
      forall i | 0 <= i < |acts| ensures !BesideAt(s0, acts, i) {
        assert QuietAt(s0, acts, i) && QuietAt(s0, acts, i + 1);
        QuietNext(s0, acts, i);
      }
    }
    if forall i :: 0 <= i < |acts| ==> !BesideAt(s0, acts, i) {
      forall i | 0 <= i <= |acts| ensures QuietAt(s0, acts, i) {
        QuietUpTo(s0, acts, i);
      }
    }
  }

  /** Every repair is bound while no own-source container of its target runs. */
  ghost predicate BindsQuietly(s0: Sys, acts: seq<Action>) {
    forall i :: 0 <= i < |acts| && acts[i].Durable? && acts[i].write.CreateRepair? ==>
      QuietTarget(After(s0, acts[..i]), acts[i].write.b.Key())
  }

  ghost predicate QuietTarget(s: Sys, k: OracleKey) {
    forall job :: job in s.w.jobs && RunningMutation(s.w, job) ==> TargetKey(s.w.bundles, job.target) != k
  }

  ghost predicate NoOrphans(s: Sys) {
    forall job :: job in s.w.jobs && RunningMutation(s.w, job) ==> !Orphan(s.st.repairs, s.w.bundles, job)
  }

  lemma NoOrphansStep(s: Sys, action: Action)
    requires NoOrphans(s) && Enabled(s, action)
    requires action.Durable? && action.write.CreateRepair? ==> QuietTarget(s, action.write.b.Key())
    ensures NoOrphans(Perform(s, action))
  {
  }

  lemma {:induction false} QuietRun(s0: Sys, acts: seq<Action>)
    requires Run(s0, acts) && BindsQuietly(s0, acts)
    ensures NoOrphans(After(s0, acts))
  {
    if acts == [] {
    } else {
      var shorter := acts[..|acts| - 1];
      forall i | 0 <= i < |shorter| && shorter[i].Durable? && shorter[i].write.CreateRepair?
        ensures QuietTarget(After(s0, shorter[..i]), shorter[i].write.b.Key())
      {
        assert shorter[..i] == acts[..i] && shorter[i] == acts[i];
      }
      QuietRun(s0, shorter);
      assert acts[|acts| - 1].Durable? && acts[|acts| - 1].write.CreateRepair? ==>
               QuietTarget(After(s0, shorter), acts[|acts| - 1].write.b.Key());
      NoOrphansStep(After(s0, shorter), acts[|acts| - 1]);
    }
  }

  /** With quiet bindings, no writer ever runs beside an Oracle mutation, in any run. */
  lemma QuietRunsNeverOverlap(s0: Sys, acts: seq<Action>)
    requires Run(s0, acts) && BindsQuietly(s0, acts)
    ensures NoOverlap(After(s0, acts).w)
  {
    QuietRun(s0, acts);
    RunOracle(s0, acts);
    var s := After(s0, acts);
    forall job | RunningMutation(s.w, job) ensures s.w.writers == map[] {
      MutationStopsWriters(s, job);
    }
  }
}
