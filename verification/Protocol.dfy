/** The release protocol as a transition system. A state is the durable store, the world the controller acts on, and a
    history of what the controller proved and started. An action is one durable write, one external effect, or one
    observation; a killed command is a run that stops between two actions. */
module Protocol {
  import opened Outcomes
  import opened Model
  import opened Store

  // ----- World -----

  datatype Writer = Api | WorkerInteractive | WorkerBackground

  datatype OracleCommand = Unpublish | ReconcileSupport | Publish

  /** The name of a durable Compose job; Docker keeps at most one container per name. */
  datatype Job = Migration(source: Sha) | OracleJob(target: Sha, repair: Option<Sha>, command: OracleCommand)

  datatype JobState = Running | Exited(code: int)

  /** A dump on disk, with the database and the revisions it was taken from. */
  datatype BackupFile = BackupFile(digest: string, byteCount: int, identity: string, revisions: seq<Revision>)

  datatype World = World(
    bundles: map<Sha, CandidateManifest>, // every candidate bundle there is; an installed bundle never changes
    writers: map<Writer, Sha>,           // which release's image each running app writer executes
    revisions: seq<Revision>,            // the rows of alembic_version
    identity: string,                    // the database identity
    backups: map<Sha, BackupFile>,
    touched: set<Sha>,                   // the releases whose dump somebody else has changed
    jobs: map<Job, JobState>)
  {
    function Head(x: Sha): Revision {
      if x in bundles then bundles[x].expectedDatabaseRevision else ""
    }

    predicate AtHead(x: Sha) {
      revisions == [Head(x)]
    }

    predicate OnlyRuns(x: Sha) {
      forall w :: w in writers ==> writers[w] == x
    }

    predicate AllRun(x: Sha) {
      writers == map[Api := x, WorkerInteractive := x, WorkerBackground := x]
    }
  }

  function TargetKey(bundles: map<Sha, CandidateManifest>, x: Sha): OracleKey {
    OracleKey(x, if x in bundles then bundles[x].expectedOracleManifestDigest else "")
  }

  /** The bound repair source that executes the mutating commands of this target, if there is one. */
  function Execution(repairs: map<OracleKey, OracleRepairBinding>, k: OracleKey): Option<Sha> {
    if k in repairs then Some(repairs[k].repairSourceSha) else None
  }

  // ----- History -----

  datatype Event =
    | Backend(source: Sha)                    // the running backend was proved to be this release
    | Public(source: Sha)                     // the public web and API vector was proved
    | Restored(source: Sha)                   // the predecessor of this attempt was proved healthy
    | JobStarted(job: Job)
    | Harvested(job: Job)                     // the output of a successful container was taken
    | DumpSized(source: Sha, byteCount: int)  // the dump on disk had this size
    | DumpHashed(source: Sha, digest: string) // the dump on disk had this digest
    | Bound(key: OracleKey, repair: Sha)
    | Exact(key: OracleKey)                   // the Oracle status was the exact publication
    | Runtime(key: OracleKey)                 // the captured runtime was proved healthy and exact
    | OracleDone(key: OracleKey)

  datatype History = History(log: seq<Event>, recorded: seq<Sha>)
  {
    predicate EndsWith(tail: seq<Event>) {
      |tail| <= |log| && forall i :: 0 <= i < |tail| ==> log[|log| - |tail| + i] == tail[i]
    }

    predicate ProvedPublication(x: Sha) {
      EndsWith([Backend(x), Public(x)])
    }

    function Add(e: Event): History {
      this.(log := log + [e])
    }
  }

  datatype Sys = Sys(st: State, w: World, h: History)

  // ----- Actions -----

  /** One durable write of the store. */
  datatype Write =
    | CreateAttempt(a: ReleaseAttempt)
    | ReplaceAttempt(a: ReleaseAttempt)
    | CreateRecord(r: ReleaseRecord)
    | SetCurrent(x: Sha)
    | SetForwardFix(x: Sha)
    | ClearForwardFix(x: Sha)
    | CreateOracleAttempt(o: OracleAttempt)
    | ReplaceOracleAttempt(o: OracleAttempt)
    | CreateRepair(b: OracleRepairBinding)

  /** One change of the world, by the controller or on its own, or one observation. */
  datatype Effect =
    | StopSome(kept: set<Writer>)                     // also a writer that dies on its own
    | StartCandidate(some: set<Writer>, x: Sha)
    | RestartPredecessor(some: set<Writer>, x: Sha)
    | RestoreRuntime(some: set<Writer>, k: OracleKey)
    | WriteBackup(x: Sha, file: BackupFile)
    | TouchBackup(x: Sha, found: Option<BackupFile>)  // a dump is damaged, replaced, planted or removed
    | StartJob(job: Job)
    | ExitJob(job: Job, code: int)
    | RemoveJob(job: Job)
    | Migrate(x: Sha, revisions: seq<Revision>)       // an effect of a running migration container
    | Observe(e: Event)

  datatype Action = Durable(write: Write) | Outside(effect: Effect)

  /** The evidence describes this dump: its bytes, and what it was taken from. */
  predicate Matches(evidence: BackupEvidence, file: BackupFile) {
    && evidence.sha256 == file.digest
    && evidence.byteCount == file.byteCount
    && evidence.databaseIdentity == file.identity
    && file.revisions == [evidence.startingRevision]
  }

  /** Size and digest of the dump on disk were just found to be the recorded ones, and the database is where the
      evidence says. */
  predicate Confirmed(s: Sys, x: Sha, evidence: BackupEvidence) {
    && s.h.EndsWith([DumpSized(x, evidence.byteCount), DumpHashed(x, evidence.sha256)])
    && evidence.databaseIdentity == s.w.identity
    && s.w.revisions == [evidence.startingRevision]
  }

  /** What the controller has established when it stores the phase of `a` over that of `o`. */
  predicate PhaseGuard(s: Sys, o: ReleaseAttempt, a: ReleaseAttempt) {
    var x := a.sourceSha;
    && (!a.phase.BackupVerified? ==> a.backup == o.backup)
    && match a.phase
       case Prepared => false
       case WritersStopped => s.w.writers == map[]
       case BackupVerified | DataMutationStarted => a.backup.Some? && Confirmed(s, x, a.backup.value)
       case BackendActivationStarted => s.w.AtHead(x) && Migration(x) !in s.w.jobs
       case AwaitingFrontendPromotion => s.h.EndsWith([Backend(x)])
       case FrontendPromoted => s.h.ProvedPublication(x)
       case RollbackRequired => s.st.forwardFix.None?
       case ForwardFixPending => o.phase.Committed() || s.st.forwardFix.Some?
       case RolledBack => s.h.EndsWith([Restored(x)])
       case Succeeded => s.st.current == Some(x) && x in s.st.records && s.h.ProvedPublication(x)
       case ForwardFixRequired => s.st.forwardFix.Some? && s.w.writers == map[]
  }

  function CommandPhase(c: OracleCommand): OraclePhase {
    match c
    case Unpublish => OWritersStopped
    case ReconcileSupport => OUnpublished
    case Publish => OSupportReconciled
  }

  function RestoreProof(k: OracleKey): seq<Event> {
    [Exact(k), Backend(k.source), Public(k.source), Runtime(k)]
  }

  /** The command ran to success under the current execution source, and its container is gone. */
  predicate CommandSettled(s: Sys, k: OracleKey, command: OracleCommand) {
    var job := OracleJob(k.source, Execution(s.st.repairs, k), command);
    job !in s.w.jobs && s.h.EndsWith([Harvested(job)])
  }

  predicate OraclePhaseGuard(s: Sys, o: OracleAttempt) {
    var k := o.Key();
    match o.phase
    case OPrepared => false
    case OWritersStopped => s.w.writers == map[]
    case OUnpublished => CommandSettled(s, k, Unpublish)
    case OSupportReconciled => CommandSettled(s, k, ReconcileSupport)
    case OPublished => CommandSettled(s, k, Publish)
    case ORuntimeRestored => s.h.EndsWith(RestoreProof(k))
    case OSucceeded => s.h.EndsWith(RestoreProof(k) + [Exact(k)])
  }

  ghost predicate CanCreateAttempt(s: Sys, a: ReleaseAttempt) {
    && s.st.Idle() && s.st.OracleIdle()
    && a.sourceSha !in s.st.attempts && a.sourceSha !in s.st.records && a.sourceSha in s.w.bundles
    && a.Valid() && a.phase.Prepared?
    && a.predecessorSha == s.st.current
    && a.forwardFixOf == s.st.forwardFix
    && (s.st.forwardFix.Some? ==> s.w.writers == map[])
  }

  predicate CanReplaceAttempt(s: Sys, a: ReleaseAttempt) {
    && a.sourceSha in s.st.attempts
    && s.st.attempts[a.sourceSha].StepsTo(a) && a.Valid()
    && PhaseGuard(s, s.st.attempts[a.sourceSha], a)
  }

  predicate CanCreateRecord(s: Sys, r: ReleaseRecord) {
    && r.sourceSha in s.st.attempts && s.st.attempts[r.sourceSha].phase.FrontendPromoted?
    && r.sourceSha !in s.st.records && r.sourceSha in s.w.bundles
    && r.Of(s.st.attempts[r.sourceSha], s.w.bundles[r.sourceSha])
    && s.h.ProvedPublication(r.sourceSha)
  }

  predicate CanSetCurrent(s: Sys, x: Sha) {
    && x in s.st.attempts && s.st.attempts[x].phase.FrontendPromoted?
    && x in s.st.records && s.st.current != Some(x) && s.st.records[x].predecessorSha == s.st.current
    && s.h.ProvedPublication(x)
  }

  predicate CanSetForwardFix(s: Sys, x: Sha) {
    x in s.st.attempts && s.st.attempts[x].phase.ForwardFixPending? && s.st.forwardFix.None?
  }

  ghost predicate CanClearForwardFix(s: Sys, x: Sha) {
    && s.st.Idle() && s.st.current == Some(x)
    && x in s.st.attempts && s.st.attempts[x].phase.Succeeded?
    && s.st.forwardFix.Some? && s.st.attempts[x].forwardFixOf == s.st.forwardFix
    && s.h.ProvedPublication(x) && s.w.AtHead(x) && s.w.OnlyRuns(x)
  }

  ghost predicate CanCreateOracleAttempt(s: Sys, o: OracleAttempt) {
    && s.st.Idle() && s.st.OracleIdle() && s.st.forwardFix.None?
    && s.st.current == Some(o.sourceSha)
    && o.Key() == TargetKey(s.w.bundles, o.sourceSha)
    && o.Key() !in s.st.oracle && o.Valid() && o.phase.OPrepared?
  }

  predicate CanReplaceOracleAttempt(s: Sys, o: OracleAttempt) {
    && o.Key() in s.st.oracle
    && s.st.oracle[o.Key()].StepsTo(o)
    && OraclePhaseGuard(s, o)
  }

  predicate CanCreateRepair(s: Sys, b: OracleRepairBinding) {
    && s.st.OracleActive(b.Key()) && b.Key() !in s.st.repairs && b.Valid()
    && b.repairSourceSha !in s.st.attempts && b.repairSourceSha !in s.st.records
  }

  ghost predicate WriteEnabled(s: Sys, write: Write) {
    match write
    case CreateAttempt(a) => CanCreateAttempt(s, a)
    case ReplaceAttempt(a) => CanReplaceAttempt(s, a)
    case CreateRecord(r) => CanCreateRecord(s, r)
    case SetCurrent(x) => CanSetCurrent(s, x)
    case SetForwardFix(x) => CanSetForwardFix(s, x)
    case ClearForwardFix(x) => CanClearForwardFix(s, x)
    case CreateOracleAttempt(o) => CanCreateOracleAttempt(s, o)
    case ReplaceOracleAttempt(o) => CanReplaceOracleAttempt(s, o)
    case CreateRepair(b) => CanCreateRepair(s, b)
  }

  function Written(s: Sys, write: Write): Sys {
    match write
    case CreateAttempt(a) => s.(st := s.st.(attempts := s.st.attempts[a.sourceSha := a]))
    case ReplaceAttempt(a) => s.(st := s.st.(attempts := s.st.attempts[a.sourceSha := a]))
    case CreateRecord(r) =>
      s.(st := s.st.(records := s.st.records[r.sourceSha := r]),
         h := s.h.(recorded := s.h.recorded + [r.sourceSha]))
    case SetCurrent(x) => s.(st := s.st.(current := Some(x)))
    case SetForwardFix(x) => s.(st := s.st.(forwardFix := Some(x)))
    case ClearForwardFix(x) => s.(st := s.st.(forwardFix := None))
    case CreateOracleAttempt(o) => s.(st := s.st.(oracle := s.st.oracle[o.Key() := o]))
    case ReplaceOracleAttempt(o) =>
      s.(st := s.st.(oracle := s.st.oracle[o.Key() := o]),
         h := if o.phase.OSucceeded? then s.h.Add(OracleDone(o.Key())) else s.h)
    case CreateRepair(b) =>
      s.(st := s.st.(repairs := s.st.repairs[b.Key() := b]), h := s.h.Add(Bound(b.Key(), b.repairSourceSha)))
  }

  predicate JobGuard(s: Sys, job: Job) {
    && job !in s.w.jobs
    && match job
       case Migration(x) =>
         x in s.st.attempts && s.st.attempts[x].phase.DataMutationStarted? && !s.w.AtHead(x)
       case OracleJob(x, repair, command) =>
         var k := TargetKey(s.w.bundles, x);
         && x in s.w.bundles
         && s.st.OracleActive(k) && s.st.oracle[k].phase == CommandPhase(command)
         && s.w.writers == map[] && repair == Execution(s.st.repairs, k)
  }

  predicate ObserveGuard(s: Sys, e: Event) {
    match e
    case Backend(x) => x in s.w.bundles && s.w.AllRun(x) && s.w.AtHead(x)
    case Public(x) => s.h.EndsWith([Backend(x)])
    case Restored(x) =>
      && s.st.Active(x) && s.st.attempts[x].phase.RollbackRequired?
      && s.st.attempts[x].predecessorSha.Some? && s.w.AllRun(s.st.attempts[x].predecessorSha.value)
    case Harvested(job) => job in s.w.jobs && s.w.jobs[job] == Exited(0)
    case DumpSized(x, byteCount) => x in s.w.backups && s.w.backups[x].byteCount == byteCount
    case DumpHashed(x, digest) => x in s.w.backups && s.w.backups[x].digest == digest
    case Exact(k) => true
    case Runtime(k) => s.h.ProvedPublication(k.source)
    case _ => false
  }

  predicate EffectEnabled(s: Sys, effect: Effect) {
    match effect
    case StopSome(kept) => true
    case StartCandidate(some, x) => s.st.Active(x) && s.st.attempts[x].phase.BackendActivationStarted?
    case RestartPredecessor(some, x) => s.st.Active(x) && s.st.attempts[x].phase.RollbackRequired?
    case RestoreRuntime(some, k) => s.st.OracleActive(k) && s.st.oracle[k].phase.Restoring()
    case WriteBackup(x, file) =>
      && x in s.st.attempts && s.st.attempts[x].phase.WritersStopped? && (x in s.w.backups ==> x in s.w.touched)
      && file.byteCount >= 1 && file.identity == s.w.identity && file.revisions == s.w.revisions
    case TouchBackup(x, found) => true
    case StartJob(job) => JobGuard(s, job)
    case ExitJob(job, code) =>
      && job in s.w.jobs && s.w.jobs[job].Running?
      && (job.Migration? && code == 0 ==> s.w.AtHead(job.source))
    case RemoveJob(job) =>
      && job in s.w.jobs && s.w.jobs[job].Exited?
      && (s.w.jobs[job].code == 0 ==> s.h.EndsWith([Harvested(job)]))
    case Migrate(x, revisions) =>
      && Migration(x) in s.w.jobs && s.w.jobs[Migration(x)].Running?
      && x in s.st.attempts && s.st.attempts[x].phase.DataMutationStarted?
    case Observe(e) => ObserveGuard(s, e)
  }

  function Started(writers: map<Writer, Sha>, some: set<Writer>, x: Sha): map<Writer, Sha> {
    map w | w in writers.Keys + some :: if w in some then x else writers[w]
  }

  function Kept(writers: map<Writer, Sha>, kept: set<Writer>): map<Writer, Sha> {
    map w | w in writers && w in kept :: writers[w]
  }

  /** The release whose captured containers the rollback of attempt `x` starts. */
  function Predecessor(s: Sys, x: Sha): Sha {
    if x in s.st.attempts && s.st.attempts[x].predecessorSha.Some? then s.st.attempts[x].predecessorSha.value else x
  }

  function Effected(s: Sys, effect: Effect): Sys {
    match effect
    case StopSome(kept) => s.(w := s.w.(writers := Kept(s.w.writers, kept)))
    case StartCandidate(some, x) => s.(w := s.w.(writers := Started(s.w.writers, some, x)))
    case RestartPredecessor(some, x) => s.(w := s.w.(writers := Started(s.w.writers, some, Predecessor(s, x))))
    case RestoreRuntime(some, k) => s.(w := s.w.(writers := Started(s.w.writers, some, k.source)))
    case WriteBackup(x, file) => s.(w := s.w.(backups := s.w.backups[x := file]))
    case TouchBackup(x, found) =>
      s.(w := s.w.(backups := if found.Some? then s.w.backups[x := found.value] else s.w.backups - {x},
                   touched := s.w.touched + {x}))
    case StartJob(job) => s.(w := s.w.(jobs := s.w.jobs[job := Running]), h := s.h.Add(JobStarted(job)))
    case ExitJob(job, code) => s.(w := s.w.(jobs := s.w.jobs[job := Exited(code)]))
    case RemoveJob(job) => s.(w := s.w.(jobs := s.w.jobs - {job}))
    case Migrate(x, revisions) => s.(w := s.w.(revisions := revisions))
    case Observe(e) => s.(h := s.h.Add(e))
  }

  ghost predicate Enabled(s: Sys, action: Action) {
    match action
    case Durable(write) => WriteEnabled(s, write)
    case Outside(effect) => EffectEnabled(s, effect)
  }

  function Perform(s: Sys, action: Action): Sys {
    match action
    case Durable(write) => Written(s, write)
    case Outside(effect) => Effected(s, effect)
  }

  // ----- Runs -----

  /** One adopted release: published, current, running, and the only thing in the store. */
  ghost predicate Init(s: Sys) {
    s.st.current.Some? &&
    var b := s.st.current.value;
    && b in s.st.attempts && b in s.st.records && b in s.w.bundles
    && s.st.attempts == map[b := s.st.attempts[b]]
    && s.st.attempts[b].sourceSha == b && s.st.attempts[b].Valid() && s.st.attempts[b].phase.Succeeded?
    && s.st.attempts[b].predecessorSha.None? && s.st.attempts[b].forwardFixOf.None? && s.st.attempts[b].backup.None?
    && s.st.records == map[b := s.st.records[b]]
    && (forall x :: x in s.w.bundles ==> s.w.bundles[x].sourceSha == x)
    && s.st.records[b].Of(s.st.attempts[b], s.w.bundles[b])
    && s.st.forwardFix.None? && s.st.oracle == map[] && s.st.repairs == map[]
    && s.w.AtHead(b) && s.w.OnlyRuns(b) && s.w.backups == map[] && s.w.touched == {} && s.w.jobs == map[]
    && s.h == History([], [b])
  }

  function After(s0: Sys, acts: seq<Action>): Sys {
    if acts == [] then s0 else Perform(After(s0, acts[..|acts| - 1]), acts[|acts| - 1])
  }

  ghost predicate Legal(s0: Sys, acts: seq<Action>) {
    acts == [] ||
    (Legal(s0, acts[..|acts| - 1]) && Enabled(After(s0, acts[..|acts| - 1]), acts[|acts| - 1]))
  }

  ghost predicate Run(s0: Sys, acts: seq<Action>) {
    Init(s0) && Legal(s0, acts)
  }

  /** Every prefix of a legal run is a legal run. */
  lemma {:induction false} Prefix(s0: Sys, acts: seq<Action>, i: nat)
    requires Legal(s0, acts) && i <= |acts|
    ensures Legal(s0, acts[..i])
    ensures i < |acts| ==> Enabled(After(s0, acts[..i]), acts[i])
    ensures i < |acts| ==> After(s0, acts[..i + 1]) == Perform(After(s0, acts[..i]), acts[i])
  {
    if i == |acts| {
      assert acts[..i] == acts;
    } else {
      var shorter := acts[..|acts| - 1];
      if i < |shorter| {
        Prefix(s0, shorter, i);
        assert shorter[..i] == acts[..i] && shorter[..i + 1] == acts[..i + 1];
      } else {
        assert acts[..i + 1] == acts && acts[..i] == shorter;
      }
    }
  }

  /** The states a run went through. */
  ghost predicate Trace(states: seq<Sys>, acts: seq<Action>) {
    && |states| == |acts| + 1
    && (forall s :: s in states[..1] ==> Init(s))
    && forall i {:trigger acts[i]} :: 0 <= i < |acts| ==>
         Enabled(states[i], acts[i]) && states[i + 1] == Perform(states[i], acts[i])
  }

  lemma {:induction false} TraceIsRun(states: seq<Sys>, acts: seq<Action>)
    requires Trace(states, acts)
    ensures Run(states[0], acts) && After(states[0], acts) == states[|acts|]
  {
    assert states[0] in states[..1];
    if acts != [] {
      var n := |acts| - 1;
      assert states[..n + 1][..1] == states[..1];
      TraceIsRun(states[..n + 1], acts[..n]);
      assert acts[n] == acts[|acts| - 1];
    }
  }

  lemma TraceExtends(states: seq<Sys>, acts: seq<Action>, action: Action)
    requires Trace(states, acts) && Enabled(states[|acts|], action)
    ensures Trace(states + [Perform(states[|acts|], action)], acts + [action])
  {
    assert (states + [Perform(states[|acts|], action)])[..1] == states[..1];
  }

  ghost predicate Reachable(s: Sys) {
    exists states, acts :: Trace(states, acts) && states[|acts|] == s
  }

  lemma Reach(s: Sys, action: Action) returns (t: Sys)
    requires Reachable(s) && Enabled(s, action)
    ensures t == Perform(s, action) && Reachable(t)
  {
    var states, acts :| Trace(states, acts) && states[|acts|] == s;
    t := Perform(s, action);
    TraceExtends(states, acts, action);
    assert (states + [t])[|acts + [action]|] == t;
  }

  lemma ReachWrite(s: Sys, write: Write) returns (t: Sys)
    requires Reachable(s) && WriteEnabled(s, write)
    ensures t == Written(s, write) && Reachable(t)
  {
    t := Reach(s, Durable(write));
  }

  lemma ReachEffect(s: Sys, effect: Effect) returns (t: Sys)
    requires Reachable(s) && EffectEnabled(s, effect)
    ensures t == Effected(s, effect) && Reachable(t)
  {
    t := Reach(s, Outside(effect));
  }
}
