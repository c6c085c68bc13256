/** Two properties the controller has only under a condition: concrete runs that break them, and the condition. */
module Counterexamples {
  import opened Outcomes
  import opened Ordering
  import opened Model
  import opened Store
  import opened Protocol
  import opened Invariant
  import opened Runs
  import opened Safety
  import opened OracleSafety

  // ----- A migration container that outlives its attempt -----

  /** A migration container still runs although its attempt has left DataMutationStarted. */
  predicate LateMigration(s: Sys, x: Sha) {
    && Migration(x) in s.w.jobs && s.w.jobs[Migration(x)].Running?
    && x in s.st.attempts && !s.st.attempts[x].phase.DataMutationStarted?
  }

  /** The action settles an attempt beside its running migration container. */
  predicate Unsettled(s: Sys, action: Action) {
    action.Durable? && action.write.ReplaceAttempt? &&
    var a := action.write.a;
    && MigrationRuns(s.w, a.sourceSha) && !a.phase.DataMutationStarted?
    && a.sourceSha in s.st.attempts && s.st.attempts[a.sourceSha].phase.DataMutationStarted?
  }

  /** Each attempt leaves DataMutationStarted only when its migration container has stopped. */
  ghost predicate SettlesMigrations(s0: Sys, acts: seq<Action>) {
    forall i :: 0 <= i < |acts| ==> !Unsettled(After(s0, acts[..i]), acts[i])
  }

  predicate MigrationRuns(w: World, x: Sha) {
    Migration(x) in w.jobs && w.jobs[Migration(x)].Running?
  }

  ghost predicate NoLateMigration(s: Sys) {
    forall x :: x in s.st.attempts && MigrationRuns(s.w, x) ==> s.st.attempts[x].phase.DataMutationStarted?
  }

  lemma NoLateMigrationStep(s: Sys, action: Action)
    requires NoLateMigration(s) && MigrationJobs(s.st.attempts, s.w.jobs) && Enabled(s, action) && !Unsettled(s, action)
    ensures NoLateMigration(Perform(s, action))
  {
    var t := Perform(s, action);
    forall x | x in t.st.attempts && MigrationRuns(t.w, x) ensures t.st.attempts[x].phase.DataMutationStarted? {
      MigrationRunsBefore(s, action, x);
      if action != Outside(StartJob(Migration(x))) {
        AttemptAfter(s, action, x);
      }
    }
  }

  lemma MigrationRunsBefore(s: Sys, action: Action, x: Sha)
    requires Enabled(s, action) && MigrationRuns(Perform(s, action).w, x)
    ensures MigrationRuns(s.w, x) || action == Outside(StartJob(Migration(x)))
  {
  }

  lemma SettlesPrefix(s0: Sys, acts: seq<Action>, i: nat)
    requires SettlesMigrations(s0, acts) && i <= |acts|
    ensures SettlesMigrations(s0, acts[..i])
  {
    forall j | 0 <= j < i ensures !Unsettled(After(s0, acts[..i][..j]), acts[..i][j]) {
      assert acts[..i][..j] == acts[..j] && acts[..i][j] == acts[j];
    }
  }

  /** In a run that settles its migrations no container outlives its attempt. */
  lemma {:induction false} SettledRunsHaveNoLateMigration(s0: Sys, acts: seq<Action>)
    requires Run(s0, acts) && SettlesMigrations(s0, acts)
    ensures NoLateMigration(After(s0, acts))
  {
    if acts == [] {
    } else {
      var n := |acts| - 1;
      SettlesPrefix(s0, acts, n);
      SettledRunsHaveNoLateMigration(s0, acts[..n]);
      RunSchema(s0, acts[..n]);
      NoLateMigrationStep(After(s0, acts[..n]), acts[n]);
    }
  }

  function Manifest(x: Sha, head: Revision): CandidateManifest {
    CandidateManifest(1, x, "NielsdaWheelz/nexus-web", 17, 1, 16, 18, 1, CandidateImages("api", "worker"), head,
        "oracle")
  }

  function Evidence(): ContainerEvidence {
    ContainerEvidence("id", "image", "config")
  }

  function Attempt(x: Sha, predecessor: Option<Sha>, forwardFixOf: Option<Sha>, phase: ReleasePhase,
                   backup: Option<BackupEvidence>): ReleaseAttempt {
    ReleaseAttempt(1, x, "manifest", "api-id", "worker-id", predecessor, forwardFixOf,
                   map["postgres" := Evidence(), "caddy" := Evidence(), "api" := Evidence(),
                       "worker-interactive" := Evidence(), "worker-background" := Evidence()],
                   "/config.env", "config", "dpl_1", "host", phase, backup,
                   if phase.Failed() then Some("failed") else None, "t", "t")
  }

  function Adopted(): Sys {
    var a := Attempt("A", None, None, Succeeded, None);
    var bundles := map["A" := Manifest("A", "r1"), "B" := Manifest("B", "r2"), "C" := Manifest("C", "r1")];
    Sys(State(map["A" := a], map["A" := RecordOf(a, bundles["A"], "t")], Some("A"), None, map[], map[]),
        World(bundles, map[Api := "A", WorkerInteractive := "A", WorkerBackground := "A"], ["r1"], "db",
              map[], {}, map[]),
        History([], ["A"]))
  }

  lemma AttemptValid(x: Sha, predecessor: Option<Sha>, forwardFixOf: Option<Sha>, phase: ReleasePhase,
                     backup: Option<BackupEvidence>)
    requires predecessor != Some(x) && forwardFixOf != Some(x) && (predecessor.Some? || phase.Succeeded?)
    requires backup.Some? ==> backup.value.Valid()
    requires phase.BackupVerified? || phase.DataMutationStarted? ==> backup.Some?
    requires phase.Prepared? || phase.WritersStopped? ==> backup.None?
    ensures Attempt(x, predecessor, forwardFixOf, phase, backup).Valid()
  {
    LessTotal("t", "t");
  }

  lemma AdoptedReachable()
    ensures Reachable(Adopted())
  {
    AttemptValid("A", None, None, Succeeded, None);
    var none: seq<Action> := [];
    assert Trace([Adopted()], none) && [Adopted()][|none|] == Adopted();
  }

  /** `t` differs from `s` in attempt `x` and the pointer only. */
  ghost predicate OnlyTouched(s: State, t: State, x: Sha) {
    && t == s.(attempts := t.attempts, forwardFix := t.forwardFix)
    && x in t.attempts
    && (forall y :: y in t.attempts && y != x ==> y in s.attempts && t.attempts[y] == s.attempts[y])
    && (forall y :: y in s.attempts ==> y in t.attempts)
  }

  lemma TouchedUpdate(s: State, x: Sha, a: ReleaseAttempt)
    ensures OnlyTouched(s, s.(attempts := s.attempts[x := a]), x)
  {
  }

  lemma TouchedTwice(s: State, t: State, u: State, x: Sha)
    requires OnlyTouched(s, t, x) && OnlyTouched(t, u, x)
    ensures OnlyTouched(s, u, x)
  {
  }

  /** One phase step of an attempt whose other evidence stays the same. */
  lemma Step(s: Sys, x: Sha, predecessor: Sha, forwardFixOf: Option<Sha>, p: ReleasePhase, q: ReleasePhase,
             before: Option<BackupEvidence>, after: Option<BackupEvidence>) returns (t: Sys)
    requires Reachable(s) && predecessor != x && forwardFixOf != Some(x) && q in p.Successors()
    requires x in s.st.attempts && s.st.attempts[x] == Attempt(x, Some(predecessor), forwardFixOf, p, before)
    requires after.Some? ==> after.value.Valid()
    requires q.BackupVerified? || q.DataMutationStarted? ==> after.Some?
    requires q.WritersStopped? ==> after.None?
    requires PhaseGuard(s, s.st.attempts[x], Attempt(x, Some(predecessor), forwardFixOf, q, after))
    ensures Reachable(t) && t.w == s.w && t.h == s.h && OnlyTouched(s.st, t.st, x) && t.st.forwardFix == s.st.forwardFix
    ensures t.st.attempts[x] == Attempt(x, Some(predecessor), forwardFixOf, q, after)
  {
    AttemptValid(x, Some(predecessor), forwardFixOf, q, after);
    var a := Attempt(x, Some(predecessor), forwardFixOf, q, after);
    TouchedUpdate(s.st, x, a);
    assert s.st.attempts[x].StepsTo(a);
    t := ReachWrite(s, ReplaceAttempt(a));
  }

  /** `preflight` finds an idle host and stores the attempt. */
  lemma Prepare(s: Sys, x: Sha, predecessor: Sha) returns (t: Sys)
    requires Reachable(s) && predecessor != x && s.st.forwardFix != Some(x)
    requires s.st.Idle() && s.st.oracle == map[] && s.st.current == Some(predecessor)
    requires x !in s.st.attempts && x !in s.st.records && x in s.w.bundles
    requires s.st.forwardFix.Some? ==> s.w.writers == map[]
    ensures Reachable(t) && t.w == s.w && t.h == s.h && OnlyTouched(s.st, t.st, x) && t.st.forwardFix == s.st.forwardFix
    ensures t.st.attempts[x] == Attempt(x, Some(predecessor), s.st.forwardFix, Prepared, None)
  {
    AttemptValid(x, Some(predecessor), s.st.forwardFix, Prepared, None);
    var a := Attempt(x, Some(predecessor), s.st.forwardFix, Prepared, None);
    TouchedUpdate(s.st, x, a);
    assert CanCreateAttempt(s, a) by { assert s.st.OracleIdle(); }
    t := ReachWrite(s, CreateAttempt(a));
  }

  lemma StopAll(s: Sys) returns (t: Sys)
    requires Reachable(s)
    ensures Reachable(t) && t == s.(w := s.w.(writers := map[]))
  {
    t := ReachEffect(s, StopSome({}));
  }

  lemma StartAll(s: Sys, x: Sha) returns (t: Sys)
    requires Reachable(s) && s.w.writers == map[]
    requires s.st.Active(x) && s.st.attempts[x].phase.BackendActivationStarted?
    ensures Reachable(t) && t == s.(w := s.w.(writers := t.w.writers)) && t.w.AllRun(x)
  {
    t := ReachEffect(s, StartCandidate({Api, WorkerInteractive, WorkerBackground}, x));
  }

  /** An apply of `x` on an idle host, up to WritersStopped. */
  lemma Begin(s: Sys, x: Sha, predecessor: Sha) returns (t: Sys)
    requires Reachable(s) && predecessor != x && s.st.forwardFix != Some(x)
    requires s.st.Idle() && s.st.oracle == map[] && s.st.current == Some(predecessor)
    requires x !in s.st.attempts && x !in s.st.records && x in s.w.bundles
    requires s.st.forwardFix.Some? ==> s.w.writers == map[]
    ensures Reachable(t) && t.w == s.w.(writers := map[]) && t.h == s.h
    ensures OnlyTouched(s.st, t.st, x) && t.st.forwardFix == s.st.forwardFix
    ensures t.st.attempts[x] == Attempt(x, Some(predecessor), s.st.forwardFix, WritersStopped, None)
  {
    var u := Prepare(s, x, predecessor);
    var v := StopAll(u);
    t := Step(v, x, predecessor, s.st.forwardFix, Prepared, WritersStopped, None, None);
  }

  /** The controller takes a dump and reads its size and digest. */
  lemma TakeDump(s: Sys, x: Sha, r: Revision) returns (t: Sys)
    requires Reachable(s) && x in s.st.attempts && s.st.attempts[x].phase.WritersStopped? && x !in s.w.backups
    requires s.w.revisions == [r] && s.w.identity == "db"
    ensures Reachable(t) && t.st == s.st && t.w == s.w.(backups := t.w.backups)
    ensures Confirmed(t, x, BackupEvidence("/dump", "digest", 1, "db", r))
  {
    var dumped := ReachEffect(s, WriteBackup(x, BackupFile("digest", 1, "db", [r])));
    t := ReadDump(dumped, x);
  }

  lemma ReadDump(s: Sys, x: Sha) returns (t: Sys)
    requires Reachable(s) && x in s.w.backups && s.w.backups[x].byteCount == 1 && s.w.backups[x].digest == "digest"
    ensures Reachable(t) && t.st == s.st && t.w == s.w && t.h.EndsWith([DumpSized(x, 1), DumpHashed(x, "digest")])
  {
    var sized := ReachEffect(s, Observe(DumpSized(x, 1)));
    t := ReachEffect(sized, Observe(DumpHashed(x, "digest")));
  }

  /** From WritersStopped into a running migration. */
  lemma StartMigration(s: Sys, x: Sha, predecessor: Sha, r: Revision) returns (t: Sys, backup: Option<BackupEvidence>)
    requires Reachable(s) && predecessor != x && s.st.forwardFix.None? && x in s.st.attempts
    requires s.st.attempts[x] == Attempt(x, Some(predecessor), None, WritersStopped, None)
    requires s.w.revisions == [r] && s.w.identity == "db" && s.w.Head(x) != r && x !in s.w.backups && s.w.jobs == map[]
    ensures Reachable(t) && t.w == s.w.(backups := t.w.backups, jobs := map[Migration(x) := Running])
    ensures OnlyTouched(s.st, t.st, x) && t.st.forwardFix.None? && backup.Some? && backup.value.Valid()
    ensures t.st.attempts[x] == Attempt(x, Some(predecessor), None, DataMutationStarted, backup)
  {
    backup := Some(BackupEvidence("/dump", "digest", 1, "db", r));
    var dumped := TakeDump(s, x, r);
    var verified := Step(dumped, x, predecessor, None, WritersStopped, BackupVerified, None, backup);
    var mutating := Step(verified, x, predecessor, None, BackupVerified, DataMutationStarted, backup, backup);
    TouchedTwice(s.st, verified.st, mutating.st, x);
    t := ReachEffect(mutating, StartJob(Migration(x)));
  }

  /** A failure reported from outside settles the attempt although the container still runs. */
  lemma FailWhileMigrating(s: Sys, x: Sha, predecessor: Sha, backup: Option<BackupEvidence>) returns (t: Sys)
    requires Reachable(s) && predecessor != x && s.st.forwardFix.None? && x in s.st.attempts
    requires s.st.attempts[x] == Attempt(x, Some(predecessor), None, DataMutationStarted, backup)
    requires backup.Some? && backup.value.Valid() && s.w.writers == map[]
    ensures Reachable(t) && t.w == s.w && OnlyTouched(s.st, t.st, x) && t.st.forwardFix == Some(x)
    ensures t.st.attempts[x] == Attempt(x, Some(predecessor), None, ForwardFixRequired, backup)
  {
    t := Step(s, x, predecessor, None, DataMutationStarted, ForwardFixPending, backup, backup);
    t := ReachWrite(t, SetForwardFix(x));
    t := Step(t, x, predecessor, None, ForwardFixPending, ForwardFixRequired, backup, backup);
  }

  /** Release `x` fails while its migration container still runs. */
  lemma FailedRelease(s: Sys, x: Sha, b: Sha, r: Revision) returns (t: Sys)
    requires Reachable(s) && b != x && s.st.forwardFix.None?
    requires s.st.Idle() && s.st.oracle == map[] && s.st.current == Some(b)
    requires x !in s.st.attempts && x !in s.st.records && x in s.w.bundles
    requires s.w.revisions == [r] && s.w.identity == "db" && s.w.Head(x) != r && s.w.backups == map[]
             && s.w.jobs == map[]
    ensures Reachable(t) && t.w == s.w.(writers := map[], backups := t.w.backups, jobs := map[Migration(x) := Running])
    ensures OnlyTouched(s.st, t.st, x) && t.st.forwardFix == Some(x) && t.st.attempts[x].phase.ForwardFixRequired?
  {
    var u := Begin(s, x, b);
    var v, backup := StartMigration(u, x, b, r);
    t := FailWhileMigrating(v, x, b, backup);
  }

  /** Its forward fix `y`, which expects the revision the database still has, goes live. */
  lemma ForwardFixGoesLive(s: Sys, x: Sha, y: Sha, b: Sha) returns (t: Sys)
    requires Reachable(s) && b != y && x != y && s.st.forwardFix == Some(x) && s.w.writers == map[]
    requires s.st.Idle() && s.st.oracle == map[] && s.st.current == Some(b)
    requires y !in s.st.attempts && y !in s.st.records && y in s.w.bundles
    requires s.w.AtHead(y) && Migration(y) !in s.w.jobs
    ensures Reachable(t) && t.w == s.w.(writers := t.w.writers) && OnlyTouched(s.st, t.st, y)
    ensures t.w.AllRun(y)
  {
    var u := Begin(s, y, b);
    var v := Step(u, y, b, Some(x), WritersStopped, BackendActivationStarted, None, None);
    t := StartAll(v, y);
  }

  /** The facts about two releases that make a late migration of `x` harmful to a running `y`. */
  lemma LandsUnder(w: World, x: Sha, y: Sha, r: Revision)
    requires w.AllRun(y) && w.revisions == [r] && w.Head(y) == r && w.Head(x) != r
    ensures Compatible(w) && !Compatible(w.(revisions := [w.Head(x)]))
  {
    var after := w.(revisions := [w.Head(x)]);
    assert Api in after.writers && after.Head(y) == r;
  }

  lemma IdleAgain(s: State, t: State, x: Sha)
    requires s.Idle() && OnlyTouched(s, t, x) && t.attempts[x].phase.Terminal()
    ensures t.Idle()
  {
  }

  lemma StillLate(s: Sys, t: Sys, x: Sha, y: Sha)
    requires x != y && OnlyTouched(s.st, t.st, y) && t.w.jobs == s.w.jobs
    requires x in s.st.attempts && s.st.attempts[x].phase.ForwardFixRequired? && LateMigration(s, x)
    ensures LateMigration(t, x)
  {
  }

  /** Then the container of `x` lands its migration under the running writers of `y`. */
  lemma LateMigrationFrom(s: Sys, x: Sha, y: Sha, b: Sha, r: Revision) returns (t: Sys)
    requires Reachable(s) && x != b && y != b && x != y && s.st.forwardFix.None?
    requires s.st.Idle() && s.st.oracle == map[] && s.st.current == Some(b)
    requires x !in s.st.attempts && x !in s.st.records && x in s.w.bundles
    requires y !in s.st.attempts && y !in s.st.records && y in s.w.bundles
    requires s.w.revisions == [r] && s.w.identity == "db" && s.w.backups == map[] && s.w.jobs == map[]
    requires s.w.Head(x) != r && s.w.Head(y) == r
    ensures Reachable(t) && t.w.bundles == s.w.bundles && LateMigration(t, x)
    ensures Compatible(t.w) && !Compatible(t.w.(revisions := [t.w.Head(x)]))
  {
    var u := FailedRelease(s, x, b, r);
    IdleAgain(s.st, u.st, x);
    assert u.w.Head(y) == s.w.Head(y) && u.w.Head(x) == s.w.Head(x);
    t := ForwardFixGoesLive(u, x, y, b);
    StillLate(u, t, x, y);
    LandsUnder(t.w, x, y, r);
  }

  lemma LateMigrationBreaksSchema() returns (s: Sys)
    ensures Reachable(s) && Compatible(s.w) && LateMigration(s, "B")
    ensures !Compatible(s.w.(revisions := [s.w.Head("B")]))
  {
    AdoptedReachable();
    s := LateMigrationFrom(Adopted(), "B", "C", "A", "r1");
  }

  // ----- An Oracle command that outlives its execution source -----

  function Target(x: Sha, phase: OraclePhase): OracleAttempt {
    OracleAttempt(1, x, "oracle", "/config.env", "config", Absent,
                  map["api" := Evidence(), "worker-interactive" := Evidence(), "worker-background" := Evidence()],
                  phase, "t", "t")
  }

  /** The one Oracle attempt of `s` is for release `x`, in this phase and with the writers stopped. */
  ghost predicate Reconciling(s: Sys, x: Sha, phase: OraclePhase) {
    && Reachable(s) && s.w.writers == map[]
    && x in s.w.bundles && TargetKey(s.w.bundles, x) == OracleKey(x, "oracle")
    && s.st.oracle == map[OracleKey(x, "oracle") := Target(x, phase)]
  }

  lemma OracleStep(s: Sys, x: Sha, p: OraclePhase, q: OraclePhase) returns (t: Sys)
    requires Reconciling(s, x, p) && q in p.Successors() && !q.OSucceeded? && OraclePhaseGuard(s, Target(x, q))
    ensures Reconciling(t, x, q) && t.w == s.w && t.st == s.st.(oracle := t.st.oracle)
  {
    t := ReachWrite(s, ReplaceOracleAttempt(Target(x, q)));
  }

  /** A mutating command is started under the execution source in force, and hangs. */
  lemma StartCommand(s: Sys, x: Sha, c: OracleCommand) returns (t: Sys)
    requires Reconciling(s, x, CommandPhase(c))
    requires OracleJob(x, Execution(s.st.repairs, OracleKey(x, "oracle")), c) !in s.w.jobs
    ensures Reconciling(t, x, CommandPhase(c)) && t.st == s.st
    ensures t.w.jobs == s.w.jobs[OracleJob(x, Execution(s.st.repairs, OracleKey(x, "oracle")), c) := Running]
  {
    t := ReachEffect(s, StartJob(OracleJob(x, Execution(s.st.repairs, OracleKey(x, "oracle")), c)));
  }

  lemma Exits(s: Sys, job: Job) returns (t: Sys)
    requires Reachable(s) && job.OracleJob? && job in s.w.jobs && s.w.jobs[job].Running?
    ensures Reachable(t) && t == s.(w := s.w.(jobs := s.w.jobs[job := Exited(0)]))
  {
    t := ReachEffect(s, ExitJob(job, 0));
  }

  lemma Harvest(s: Sys, job: Job) returns (t: Sys)
    requires Reachable(s) && job in s.w.jobs && s.w.jobs[job] == Exited(0)
    ensures Reachable(t) && t == s.(h := s.h.Add(Harvested(job)))
  {
    t := ReachEffect(s, Observe(Harvested(job)));
  }

  lemma Remove(s: Sys, job: Job) returns (t: Sys)
    requires Reachable(s) && job in s.w.jobs && s.w.jobs[job].Exited? && s.h.EndsWith([Harvested(job)])
    ensures Reachable(t) && t == s.(w := s.w.(jobs := s.w.jobs - {job}))
  {
    t := ReachEffect(s, RemoveJob(job));
  }

  lemma RemoveUpdated(jobs: map<Job, JobState>, job: Job, state: JobState)
    ensures jobs[job := state] - {job} == jobs - {job}
    ensures job !in jobs ==> jobs[job := state] - {job} == jobs
  {
  }

  lemma SettleCommand(s: Sys, job: Job) returns (t: Sys)
    requires Reachable(s) && job.OracleJob? && job in s.w.jobs && s.w.jobs[job].Running?
    ensures Reachable(t) && t.st == s.st && t.w == s.w.(jobs := s.w.jobs - {job})
    ensures t.h.EndsWith([Harvested(job)])
  {
    var u := Exits(s, job);
    var v := Harvest(u, job);
    RemoveUpdated(s.w.jobs, job, Exited(0));
    t := Remove(v, job);
  }

  /** A command that runs to success, and the phase it leads to. */
  lemma RunCommand(s: Sys, x: Sha, c: OracleCommand, q: OraclePhase) returns (t: Sys)
    requires Reconciling(s, x, CommandPhase(c)) && q in CommandPhase(c).Successors()
    requires OracleJob(x, Execution(s.st.repairs, OracleKey(x, "oracle")), c) !in s.w.jobs
    ensures Reconciling(t, x, q) && t.w.jobs == s.w.jobs && t.st.repairs == s.st.repairs
  {
    var job := OracleJob(x, Execution(s.st.repairs, OracleKey(x, "oracle")), c);
    var u := StartCommand(s, x, c);
    var v := SettleCommand(u, job);
    RemoveUpdated(s.w.jobs, job, Running);
    t := OracleStep(v, x, CommandPhase(c), q);
  }

  lemma FreshTarget(s: Sys, x: Sha) returns (t: Sys)
    requires Reachable(s) && s.st.Idle() && s.st.oracle == map[] && s.st.forwardFix.None?
    requires s.st.current == Some(x) && x in s.w.bundles && TargetKey(s.w.bundles, x) == OracleKey(x, "oracle")
    ensures Reachable(t) && t.w == s.w && t.st == s.st.(oracle := map[OracleKey(x, "oracle") := Target(x, OPrepared)])
  {
    t := ReachWrite(s, CreateOracleAttempt(Target(x, OPrepared)));
  }

  /** The first command of a fresh Oracle attempt hangs. */
  lemma HangingUnpublish(s: Sys, x: Sha) returns (t: Sys)
    requires Reachable(s) && s.st.Idle() && s.st.oracle == map[] && s.st.repairs == map[] && s.st.forwardFix.None?
    requires s.st.current == Some(x) && x in s.w.bundles && TargetKey(s.w.bundles, x) == OracleKey(x, "oracle")
    requires s.w.jobs == map[]
    ensures Reconciling(t, x, OWritersStopped) && t.w.jobs == map[OracleJob(x, None, Unpublish) := Running]
    ensures t.st == s.st.(oracle := t.st.oracle)
  {
    var u := FreshTarget(s, x);
    u := StopAll(u);
    assert Reconciling(u, x, OPrepared);
    u := OracleStep(u, x, OPrepared, OWritersStopped);
    t := StartCommand(u, x, Unpublish);
  }

  lemma BindRepair(s: Sys, x: Sha, r: Sha) returns (t: Sys)
    requires Reconciling(s, x, OWritersStopped)
    requires s.st.repairs == map[] && r != x && r !in s.st.attempts && r !in s.st.records
    ensures Reconciling(t, x, OWritersStopped) && t.w == s.w
            && Execution(t.st.repairs, OracleKey(x, "oracle")) == Some(r)
  {
    var b := OracleRepairBinding(1, x, "oracle", "r1", r, "m", "api", "worker", "a", "w", "t");
    assert s.st.OracleActive(b.Key());
    t := ReachWrite(s, CreateRepair(b));
  }

  lemma FinishRepair(s: Sys, x: Sha, r: Sha) returns (t: Sys)
    requires Reconciling(s, x, OUnpublished) && Execution(s.st.repairs, OracleKey(x, "oracle")) == Some(r)
    requires s.w.jobs == map[OracleJob(x, None, Unpublish) := Running]
    ensures Reconciling(t, x, OPublished) && t.w.jobs == s.w.jobs
  {
    var reconciled := RunCommand(s, x, ReconcileSupport, OSupportReconciled);
    t := RunCommand(reconciled, x, Publish, OPublished);
  }

  /** Bound to a repair, the attempt reaches its restore although the hanging container still runs. */
  lemma RepairPastHang(s: Sys, x: Sha, r: Sha) returns (t: Sys)
    requires Reconciling(s, x, OWritersStopped) && s.w.jobs == map[OracleJob(x, None, Unpublish) := Running]
    requires s.st.repairs == map[] && r != x && r !in s.st.attempts && r !in s.st.records
    ensures Reconciling(t, x, OPublished) && t.w.jobs == map[OracleJob(x, None, Unpublish) := Running]
  {
    var bound := BindRepair(s, x, r);
    var unpublished := RunCommand(bound, x, Unpublish, OUnpublished);
    t := FinishRepair(unpublished, x, r);
  }

  lemma WritersBesideMutation(s: Sys, x: Sha) returns (t: Sys)
    requires Reconciling(s, x, OPublished) && s.w.jobs == map[OracleJob(x, None, Unpublish) := Running]
    ensures Reachable(t) && !NoOverlap(t.w) && t.w.AllRun(x)
  {
    t := ReachEffect(s, RestoreRuntime({Api, WorkerInteractive, WorkerBackground}, OracleKey(x, "oracle")));
    assert OracleJob(x, None, Unpublish) in t.w.jobs && RunningMutation(t.w, OracleJob(x, None, Unpublish));
    assert Api in t.w.writers;
  }

  lemma RepairOverlapsMutation() returns (s: Sys)
    ensures Reachable(s) && !NoOverlap(s.w) && s.w.AllRun("A")
  {
    AdoptedReachable();
    s := HangingUnpublish(Adopted(), "A");
    s := RepairPastHang(s, "A", "B");
    s := WritersBesideMutation(s, "A");
  }
}
