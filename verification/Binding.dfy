/** What the binding of a repair beside a running container of the original source can lead to. */
module Binding {
  import opened Outcomes
  import opened Model
  import opened Protocol
  import opened Invariant
  import opened OracleSafety
  import opened Paths

  /** An action that binds no further repair beside a running container of its target. */
  ghost predicate Goes(s: Sys, action: Action) {
    Enabled(s, action) && (action.Durable? && action.write.CreateRepair? ==> QuietTarget(s, action.write.b.Key()))
  }

  ghost function Going(): Rule {
    (s, action) => Goes(s, action)
  }

  ghost predicate CanOverlap(s: Sys) {
    exists t :: CanBecome(Going(), s, t) && !NoOverlap(t.w)
  }

  // ----- The repair runs its own containers and never meets the hanging one -----

  function RepairJob(b: OracleRepairBinding, c: OracleCommand): Job {
    OracleJob(b.targetSourceSha, Some(b.repairSourceSha), c)
  }

  /** The binding `b` is in force at this phase, with the writers stopped and `hanging` still running. */
  ghost predicate Working(s: Sys, b: OracleRepairBinding, hanging: Job, phase: OraclePhase) {
    var k := b.Key();
    && k == TargetKey(s.w.bundles, k.source) && k.source in s.w.bundles
    && k in s.st.oracle && s.st.oracle[k].Key() == k && s.st.oracle[k].phase == phase
    && k in s.st.repairs && s.st.repairs[k] == b
    && s.w.writers == map[]
    && hanging.OracleJob? && hanging.repair.None? && hanging in s.w.jobs && s.w.jobs[hanging].Running?
    && forall c :: RepairJob(b, c) in s.w.jobs ==> s.w.jobs[RepairJob(b, c)].Exited?
  }

  lemma Acts(s: Sys, t: Sys, effect: Effect) returns (u: Sys)
    requires CanBecome(Going(), s, t) && EffectEnabled(t, effect)
    ensures u == Effected(t, effect) && CanBecome(Going(), s, u)
  {
    u := Becomes(Going(), s, t, Outside(effect));
  }

  lemma Forget(s: Sys, t: Sys, job: Job) returns (u: Sys)
    requires CanBecome(Going(), s, t) && (job in t.w.jobs ==> t.w.jobs[job].Exited?)
    ensures CanBecome(Going(), s, u) && u.st == t.st && u.w == t.w.(jobs := t.w.jobs - {job})
    ensures job in t.w.jobs && t.w.jobs[job].code == 0 ==> u.h.EndsWith([Harvested(job)])
  {
    u := t;
    if job in t.w.jobs {
      if t.w.jobs[job].code == 0 {
        u := Acts(s, u, Observe(Harvested(job)));
      }
      u := Acts(s, u, RemoveJob(job));
    } else {
      assert t.w.jobs - {job} == t.w.jobs;
    }
  }

  lemma RunToEnd(s: Sys, t: Sys, job: Job) returns (u: Sys)
    requires CanBecome(Going(), s, t) && JobGuard(t, job) && job.OracleJob?
    ensures CanBecome(Going(), s, u) && u.st == t.st && u.w == t.w && u.h.EndsWith([Harvested(job)])
  {
    var started := Acts(s, t, StartJob(job));
    var exited := Acts(s, started, ExitJob(job, 0));
    u := Forget(s, exited, job);
    assert exited.w.jobs - {job} == t.w.jobs;
  }

  /** One mutating command under the repair, and the next phase. */
  lemma RunsCommand(s: Sys, t: Sys, b: OracleRepairBinding, hanging: Job, c: OracleCommand, next: OraclePhase)
    returns (u: Sys)
    requires CanBecome(Going(), s, t) && Working(t, b, hanging, CommandPhase(c))
    requires next in CommandPhase(c).Successors() && next != OSucceeded
    ensures CanBecome(Going(), s, u) && Working(u, b, hanging, next)
  {
    var job := RepairJob(b, c);
    var cleared := Forget(s, t, job);
    var settled := RunToEnd(s, cleared, job);
    var o := settled.st.oracle[b.Key()].(phase := next);
    u := Becomes(Going(), s, settled, Durable(ReplaceOracleAttempt(o)));
  }

  lemma WorksToPublished(s: Sys, t: Sys, b: OracleRepairBinding, hanging: Job, phase: OraclePhase) returns (u: Sys)
    requires CanBecome(Going(), s, t) && Working(t, b, hanging, phase)
    requires phase.OWritersStopped? || phase.OUnpublished? || phase.OSupportReconciled?
    ensures CanBecome(Going(), s, u) && Working(u, b, hanging, OPublished)
  {
    u := t;
    if phase.OWritersStopped? {
      u := RunsCommand(s, u, b, hanging, Unpublish, OUnpublished);
    }
    if phase.OWritersStopped? || phase.OUnpublished? {
      u := RunsCommand(s, u, b, hanging, ReconcileSupport, OSupportReconciled);
    }
    u := RunsCommand(s, u, b, hanging, Publish, OPublished);
  }

  lemma Overlaps(s: Sys, b: OracleRepairBinding, hanging: Job, phase: OraclePhase)
    requires Working(s, b, hanging, phase)
    requires phase.OWritersStopped? || phase.OUnpublished? || phase.OSupportReconciled?
    ensures CanOverlap(s)
  {
    Stays(Going(), s);
    var published := WorksToPublished(s, s, b, hanging, phase);
    var t := Acts(s, published, RestoreRuntime({Api}, b.Key()));
    assert RunningMutation(t.w, hanging) && Api in t.w.writers;
  }

  // ----- The binding -----

  /** The container that runs for the target is one of the original source, and it is in its phase. */
  lemma OwnContainer(s: Sys, b: OracleRepairBinding, job: Job)
    requires OracleJobs(s.st.oracle, s.st.repairs, s.w.bundles, s.w.jobs) && b.Key() !in s.st.repairs
    requires RunningMutation(s.w, job) && TargetKey(s.w.bundles, job.target) == b.Key()
    ensures InPhase(s.st.oracle, s.st.repairs, s.w.bundles, job) && job.repair.None? && job.target == b.targetSourceSha
  {
  }

  lemma WorkingAfter(s: Sys, b: OracleRepairBinding, job: Job)
    requires OracleJobs(s.st.oracle, s.st.repairs, s.w.bundles, s.w.jobs) && OracleShape(s.st, s.w.bundles)
    requires OracleQuiet(s.st.oracle, s.st.forwardFix, s.st.current, s.w.writers) && CanCreateRepair(s, b)
    requires RunningMutation(s.w, job) && TargetKey(s.w.bundles, job.target) == b.Key()
    ensures Working(Written(s, CreateRepair(b)), b, job, CommandPhase(job.command))
  {
    OwnContainer(s, b, job);
    assert OracleFile(s.st.records, s.w.bundles, b.Key(), s.st.oracle[b.Key()]);
    forall c | RepairJob(b, c) in s.w.jobs ensures s.w.jobs[RepairJob(b, c)].Exited? {
      if s.w.jobs[RepairJob(b, c)].Running? {
        OwnContainer(s, b, RepairJob(b, c));
      }
    }
  }

  lemma QuietStaysQuiet(s: Sys, action: Action)
    requires Inv(s) && NoOrphans(s) && Goes(s, action)
    ensures Inv(Perform(s, action)) && NoOrphans(Perform(s, action))
  {
    NoOrphansStep(s, action);
    match action
    case Durable(write) => WriteKeepsInv(s, write);
    case Outside(effect) => EffectKeepsInv(s, effect);
  }

  lemma QuietNeverOverlaps(s: Sys, t: Sys)
    requires Inv(s) && NoOrphans(s) && CanBecome(Going(), s, t)
    ensures NoOverlap(t.w)
  {
    var quiet := u => Inv(u) && NoOrphans(u);
    forall u, action | quiet(u) && Going()(u, action) ensures quiet(Perform(u, action)) {
      QuietStaysQuiet(u, action);
    }
    Keeps(Going(), quiet, s, t);
    forall job | job in t.w.jobs && RunningMutation(t.w, job) ensures t.w.writers == map[] {
      MutationStopsWriters(t, job);
    }
  }

  lemma QuietCannotOverlap(s: Sys)
    requires Inv(s) && NoOrphans(s)
    ensures !CanOverlap(s)
  {
    if CanOverlap(s) {
      var t :| CanBecome(Going(), s, t) && !NoOverlap(t.w);
      QuietNeverOverlaps(s, t);
    }
  }

  lemma QuietBinding(s: Sys, b: OracleRepairBinding)
    requires Inv(s) && NoOrphans(s) && CanCreateRepair(s, b) && QuietTarget(s, b.Key())
    ensures Inv(Written(s, CreateRepair(b))) && NoOrphans(Written(s, CreateRepair(b)))
  {
    WriteKeepsInv(s, CreateRepair(b));
    NoOrphansStep(s, Durable(CreateRepair(b)));
  }

  lemma LoudBinding(s: Sys, b: OracleRepairBinding)
    requires OracleJobs(s.st.oracle, s.st.repairs, s.w.bundles, s.w.jobs) && OracleShape(s.st, s.w.bundles)
    requires OracleQuiet(s.st.oracle, s.st.forwardFix, s.st.current, s.w.writers) && CanCreateRepair(s, b)
    requires !QuietTarget(s, b.Key())
    ensures CanOverlap(Written(s, CreateRepair(b)))
  {
    var job :| job in s.w.jobs && RunningMutation(s.w, job) && TargetKey(s.w.bundles, job.target) == b.Key();
    WorkingAfter(s, b, job);
    Overlaps(Written(s, CreateRepair(b)), b, job, CommandPhase(job.command));
  }

  /** With all bindings quiet so far, the binding of a repair can lead to writers beside a mutation if and only if a
      container of its target runs at that moment. */
  lemma BindingOverlapsIff(s0: Sys, acts: seq<Action>, b: OracleRepairBinding)
    requires Run(s0, acts) && BindsQuietly(s0, acts) && CanCreateRepair(After(s0, acts), b)
    ensures CanOverlap(Written(After(s0, acts), CreateRepair(b))) <==> !QuietTarget(After(s0, acts), b.Key())
  {
    RunInv(s0, acts);
    QuietRun(s0, acts);
    var s := After(s0, acts);
    if QuietTarget(s, b.Key()) {
      QuietBinding(s, b);
      QuietCannotOverlap(Written(s, CreateRepair(b)));
    } else {
      LoudBinding(s, b);
    }
  }
}
