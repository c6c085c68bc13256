/** The inductive invariant of the release protocol, and the proof that every action keeps it. */
module Invariant {
  import opened Outcomes
  import opened Model
  import opened Store
  import opened Protocol

  type Bundles = map<Sha, CandidateManifest>

  // ----- The invariant -----

  /** Files are named after their content, and what they name exists. */
  predicate AttemptFile(bundles: Bundles, x: Sha, a: ReleaseAttempt) {
    a.sourceSha == x && a.Valid() && x in bundles
  }

  predicate RecordFile(attempts: map<Sha, ReleaseAttempt>, bundles: Bundles, x: Sha, r: ReleaseRecord) {
    x in attempts && x in bundles && r.Of(attempts[x], bundles[x])
  }

  predicate OracleFile(records: map<Sha, ReleaseRecord>, bundles: Bundles, k: OracleKey, o: OracleAttempt) {
    o.Key() == k && k.source in records && k == TargetKey(bundles, k.source)
  }

  ghost predicate Shape(st: State, bundles: Bundles) {
    && (forall x :: x in st.attempts ==> AttemptFile(bundles, x, st.attempts[x]))
    && (forall x :: x in st.records ==> RecordFile(st.attempts, bundles, x, st.records[x]))
    && st.current.Some? && st.current.value in st.records
  }

  ghost predicate OracleShape(st: State, bundles: Bundles) {
    && (forall k :: k in st.oracle ==> OracleFile(st.records, bundles, k, st.oracle[k]))
    && (forall k :: k in st.repairs ==> st.repairs[k].Key() == k && k in st.oracle && st.repairs[k].Valid())
  }

  /** At most one nonterminal release attempt, at most one nonterminal Oracle attempt, and never one of each. */
  ghost predicate Exclusive(st: State) {
    && (forall x, y | x in st.attempts && y in st.attempts ::
          !st.attempts[x].phase.Terminal() && !st.attempts[y].phase.Terminal() ==> x == y)
    && (forall k, l | k in st.oracle && l in st.oracle ::
          !st.oracle[k].phase.Terminal() && !st.oracle[l].phase.Terminal() ==> k == l)
    && (forall k, x | k in st.oracle && x in st.attempts ::
          !st.oracle[k].phase.Terminal() ==> st.attempts[x].phase.Terminal())
  }

  /** The pointer and one attempt of a forward-fix episode. */
  predicate InEpisode(forwardFix: Option<Sha>, x: Sha, a: ReleaseAttempt) {
    a.phase.Terminal() ||
    if a.forwardFixOf.Some? then forwardFix == a.forwardFixOf && !a.phase.RollbackRequired?
    else forwardFix.None? || (forwardFix == Some(x) && a.phase.ForwardFixPending?)
  }

  ghost predicate Episode(st: State) {
    && (st.forwardFix.Some? ==>
          st.forwardFix.value in st.attempts
          && (st.attempts[st.forwardFix.value].phase.ForwardFixPending?
              || st.attempts[st.forwardFix.value].phase.ForwardFixRequired?))
    && (forall x :: x in st.attempts ==> InEpisode(st.forwardFix, x, st.attempts[x]))
  }

  /** What `current` names, which predecessor an attempt waits to replace, and which phases have a record. */
  ghost predicate Publication(st: State) {
    && st.current.Some? && st.current.value in st.attempts
    && (var p := st.attempts[st.current.value].phase;
        p.Succeeded? || p.FrontendPromoted? || p.ForwardFixPending? || (p.ForwardFixRequired? && st.forwardFix.Some?))
    && (forall x :: x in st.attempts ==>
          st.attempts[x].phase.Terminal() || st.current == Some(x) || st.attempts[x].predecessorSha == st.current)
    && (forall x :: x in st.records ==>
          x in st.attempts &&
          var p := st.attempts[x].phase;
          p.FrontendPromoted? || p.ForwardFixPending? || p.ForwardFixRequired? || p.Succeeded?)
    && (forall x :: x in st.attempts ==> !st.attempts[x].phase.Succeeded? || x in st.records)
  }

  /** Whatever writers run belong to `x`, and the schema is the one `x` expects. */
  predicate Serves(w: World, x: Sha) {
    w.AtHead(x) && w.OnlyRuns(x)
  }

  /** Writers and schema while attempt `x` is not settled and `c` is current. */
  predicate SchemaDuring(w: World, c: Sha, x: Sha, a: ReleaseAttempt) {
    match a.phase
    case Prepared => if a.forwardFixOf.Some? then w.writers == map[] else Serves(w, c)
    case WritersStopped | BackupVerified => w.writers == map[] && (a.forwardFixOf.None? ==> w.AtHead(c))
    case RollbackRequired => Serves(w, c) && c != x
    case DataMutationStarted => w.writers == map[]
    case BackendActivationStarted | AwaitingFrontendPromotion | FrontendPromoted => Serves(w, x)
    case ForwardFixPending => w.writers == map[] || Serves(w, x)
    case _ => true
  }

  ghost predicate Schema(st: State, w: World) {
    && st.current.Some?
    && (forall x :: x in st.attempts ==> SchemaDuring(w, st.current.value, x, st.attempts[x]))
    && (st.Idle() ==> Serves(w, st.current.value) || (st.forwardFix.Some? && w.writers == map[]))
  }

  /** The dump of attempt `x`, if nobody else touched it, was taken before its first migration, and the evidence
      describes it. */
  predicate BackedUp(w: World, x: Sha, a: ReleaseAttempt) {
    && (x in w.backups ==> !a.phase.Prepared? && w.backups[x].byteCount >= 1)
    && (x in w.backups && a.phase.WritersStopped? ==>
          w.backups[x].identity == w.identity && w.backups[x].revisions == w.revisions)
    && (a.backup.Some? ==>
          x in w.backups && Matches(a.backup.value, w.backups[x]) && w.backups[x].identity == w.identity)
  }

  /** What was read off a dump that nobody else touched is still true of it. */
  predicate StillRead(backups: map<Sha, BackupFile>, touched: set<Sha>, e: Event) {
    match e
    case DumpSized(x, byteCount) => x in touched || (x in backups && backups[x].byteCount == byteCount)
    case DumpHashed(x, digest) => x in touched || (x in backups && backups[x].digest == digest)
    case _ => true
  }

  ghost predicate DumpsRead(backups: map<Sha, BackupFile>, touched: set<Sha>, log: seq<Event>) {
    forall i :: 0 <= i < |log| ==> StillRead(backups, touched, log[i])
  }

  ghost predicate Backups(st: State, w: World) {
    && (forall x :: x in w.backups ==> x in st.attempts || x in w.touched)
    && (forall x :: x in st.attempts ==> x in w.touched || BackedUp(w, x, st.attempts[x]))
  }

  /** Migration containers exist only from DataMutationStarted on, and are gone before the candidate is activated. */
  ghost predicate MigrationJobs(attempts: map<Sha, ReleaseAttempt>, jobs: map<Job, JobState>) {
    forall job :: job in jobs && job.Migration? ==>
      job.source in attempts
      && var p := attempts[job.source].phase; p.DataMutationStarted? || p.ForwardFixPending? || p.ForwardFixRequired?
  }

  type Attempts = map<OracleKey, OracleAttempt>
  type Repairs = map<OracleKey, OracleRepairBinding>

  /** An own-source Oracle container that a repair binding has left behind. */
  predicate Orphan(repairs: Repairs, bundles: Bundles, job: Job) {
    job.OracleJob? && job.repair.None? && TargetKey(bundles, job.target) in repairs
  }

  /** The container of the command that the current phase of an Oracle attempt runs. */
  predicate InPhase(oracle: Attempts, repairs: Repairs, bundles: Bundles, job: Job) {
    job.OracleJob? && job.target in bundles &&
    var k := TargetKey(bundles, job.target);
    k in oracle && oracle[k].phase == CommandPhase(job.command) && job.repair == Execution(repairs, k)
  }

  ghost predicate OracleJobs(oracle: Attempts, repairs: Repairs, bundles: Bundles, jobs: map<Job, JobState>) {
    forall job :: job in jobs && job.OracleJob? && jobs[job].Running? ==>
      Orphan(repairs, bundles, job) || InPhase(oracle, repairs, bundles, job)
  }

  /** While an Oracle attempt is active the release side is quiet, and writers are down in the mutating phases. */
  ghost predicate OracleQuiet(oracle: Attempts, forwardFix: Option<Sha>, current: Option<Sha>,
                              writers: map<Writer, Sha>)
  {
    forall k :: k in oracle && !oracle[k].phase.Terminal() ==>
      && forwardFix.None? && current == Some(k.source)
      && (oracle[k].phase.Mutating() ==> writers == map[])
  }

  /** Records in the order of their creation: each names an earlier one as its predecessor. */
  ghost predicate Recorded(records: map<Sha, ReleaseRecord>, recorded: seq<Sha>) {
    && (forall x :: x in recorded <==> x in records)
    && (forall i, j :: 0 <= i < j < |recorded| ==> recorded[i] != recorded[j])
    && (forall i :: 0 <= i < |recorded| ==> Follows(records, recorded, i))
  }

  predicate Follows(records: map<Sha, ReleaseRecord>, recorded: seq<Sha>, i: nat)
    requires i < |recorded|
  {
    recorded[i] in records &&
    var p := records[recorded[i]].predecessorSha;
    if i == 0 then p.None? else p.Some? && p.value in recorded[..i]
  }

  /** What does not depend on the database. */
  ghost predicate Consistent(st: State, bundles: Bundles, writers: map<Writer, Sha>, jobs: map<Job, JobState>,
                             recorded: seq<Sha>)
  {
    && Shape(st, bundles)
    && OracleShape(st, bundles)
    && Exclusive(st)
    && Episode(st)
    && Publication(st)
    && MigrationJobs(st.attempts, jobs)
    && OracleJobs(st.oracle, st.repairs, bundles, jobs)
    && OracleQuiet(st.oracle, st.forwardFix, st.current, writers)
    && Recorded(st.records, recorded)
  }

  /** Everything but what is known of the dumps. */
  ghost predicate Core(s: Sys) {
    Consistent(s.st, s.w.bundles, s.w.writers, s.w.jobs, s.h.recorded) && Schema(s.st, s.w)
  }

  ghost predicate Inv(s: Sys) {
    Core(s) && Backups(s.st, s.w) && DumpsRead(s.w.backups, s.w.touched, s.h.log)
  }

  lemma InitStore(s: Sys)
    requires Init(s)
    ensures Shape(s.st, s.w.bundles) && OracleShape(s.st, s.w.bundles) && Exclusive(s.st)
    ensures Episode(s.st) && Publication(s.st) && Recorded(s.st.records, s.h.recorded)
  {
  }

  lemma InitWorld(s: Sys)
    requires Init(s)
    ensures Schema(s.st, s.w) && Backups(s.st, s.w) && MigrationJobs(s.st.attempts, s.w.jobs)
    ensures DumpsRead(s.w.backups, s.w.touched, s.h.log)
  {
  }

  lemma InitInv(s: Sys)
    requires Init(s)
    ensures Inv(s)
  {
    InitStore(s);
    InitWorld(s);
  }

  // ----- A new attempt -----

  lemma ShapeCreate(st: State, bundles: Bundles, a: ReleaseAttempt)
    requires Shape(st, bundles) && a.sourceSha !in st.records && a.Valid() && a.sourceSha in bundles
    ensures Shape(st.(attempts := st.attempts[a.sourceSha := a]), bundles)
  {
  }

  lemma ExclusiveCreate(st: State, a: ReleaseAttempt)
    requires Exclusive(st) && st.Idle() && st.OracleIdle()
    ensures Exclusive(st.(attempts := st.attempts[a.sourceSha := a]))
  {
  }

  lemma EpisodeCreate(st: State, a: ReleaseAttempt)
    requires Episode(st) && st.Idle() && a.sourceSha !in st.attempts && a.phase.Prepared?
    requires a.forwardFixOf == st.forwardFix
    ensures Episode(st.(attempts := st.attempts[a.sourceSha := a]))
  {
  }

  lemma PublicationCreate(st: State, a: ReleaseAttempt)
    requires Publication(st) && a.sourceSha !in st.attempts && a.phase.Prepared? && a.predecessorSha == st.current
    ensures Publication(st.(attempts := st.attempts[a.sourceSha := a]))
  {
  }

  lemma SchemaCreate(st: State, w: World, a: ReleaseAttempt)
    requires Schema(st, w) && st.Idle() && a.sourceSha !in st.attempts && a.phase.Prepared?
    requires a.forwardFixOf == st.forwardFix && (st.forwardFix.Some? ==> w.writers == map[])
    ensures Schema(st.(attempts := st.attempts[a.sourceSha := a]), w)
  {
    var after := st.(attempts := st.attempts[a.sourceSha := a]);
    assert a.sourceSha in after.attempts && !after.attempts[a.sourceSha].Terminal();
  }

  lemma BackupsCreate(st: State, w: World, a: ReleaseAttempt)
    requires Backups(st, w) && a.sourceSha !in st.attempts && a.phase.Prepared? && a.backup.None?
    ensures Backups(st.(attempts := st.attempts[a.sourceSha := a]), w)
  {
  }

  // ----- The next phase of an attempt -----

  lemma RecordOfStep(o: ReleaseAttempt, a: ReleaseAttempt, m: CandidateManifest, r: ReleaseRecord)
    requires o.StepsTo(a) && r.Of(o, m)
    ensures r.Of(a, m)
  {
  }

  lemma ShapeStep(st: State, bundles: Bundles, a: ReleaseAttempt)
    requires Shape(st, bundles) && a.sourceSha in st.attempts && st.attempts[a.sourceSha].StepsTo(a) && a.Valid()
    ensures Shape(st.(attempts := st.attempts[a.sourceSha := a]), bundles)
  {
    if a.sourceSha in st.records {
      RecordOfStep(st.attempts[a.sourceSha], a, bundles[a.sourceSha], st.records[a.sourceSha]);
    }
  }

  lemma ExclusiveStep(st: State, a: ReleaseAttempt)
    requires Exclusive(st) && a.sourceSha in st.attempts && !st.attempts[a.sourceSha].phase.Terminal()
    ensures Exclusive(st.(attempts := st.attempts[a.sourceSha := a]))
  {
  }

  lemma InEpisodeStep(forwardFix: Option<Sha>, x: Sha, o: ReleaseAttempt, a: ReleaseAttempt)
    requires InEpisode(forwardFix, x, o) && o.StepsTo(a)
    requires a.phase.RollbackRequired? ==> forwardFix.None?
    ensures InEpisode(forwardFix, x, a)
  {
  }

  lemma EpisodeStep(st: State, a: ReleaseAttempt)
    requires Episode(st) && a.sourceSha in st.attempts && st.attempts[a.sourceSha].StepsTo(a)
    requires a.phase.RollbackRequired? ==> st.forwardFix.None?
    ensures Episode(st.(attempts := st.attempts[a.sourceSha := a]))
  {
    InEpisodeStep(st.forwardFix, a.sourceSha, st.attempts[a.sourceSha], a);
  }

  lemma PublicationStep(st: State, a: ReleaseAttempt)
    requires Publication(st) && a.sourceSha in st.attempts && st.attempts[a.sourceSha].StepsTo(a)
    requires a.phase.Succeeded? ==> a.sourceSha in st.records
    requires a.phase.ForwardFixRequired? ==> st.forwardFix.Some?
    ensures Publication(st.(attempts := st.attempts[a.sourceSha := a]))
  {
  }

  lemma SchemaDuringStep(s: Sys, x: Sha, o: ReleaseAttempt, a: ReleaseAttempt)
    requires s.st.current.Some? && SchemaDuring(s.w, s.st.current.value, x, o) && InEpisode(s.st.forwardFix, x, o)
    requires a.sourceSha == x && o.StepsTo(a) && PhaseGuard(s, o, a)
    requires s.st.current == Some(x) ==> o.phase.FrontendPromoted? || o.phase.ForwardFixPending?
    ensures SchemaDuring(s.w, s.st.current.value, x, a)
    ensures a.phase.Terminal() ==>
              Serves(s.w, s.st.current.value) || (s.st.forwardFix.Some? && s.w.writers == map[])
  {
  }

  lemma SchemaStep(s: Sys, a: ReleaseAttempt)
    requires Schema(s.st, s.w) && Exclusive(s.st) && Episode(s.st) && Publication(s.st)
    requires CanReplaceAttempt(s, a)
    ensures Schema(s.st.(attempts := s.st.attempts[a.sourceSha := a]), s.w)
  {
    SchemaDuringStep(s, a.sourceSha, s.st.attempts[a.sourceSha], a);
    var after := s.st.(attempts := s.st.attempts[a.sourceSha := a]);
    assert after.attempts[a.sourceSha] == a;
    if !a.Terminal() {
      assert !after.Idle();
    }
  }

  /** The two readings that confirmed the evidence. */
  lemma ConfirmedRead(s: Sys, x: Sha, evidence: BackupEvidence)
    requires DumpsRead(s.w.backups, s.w.touched, s.h.log) && Confirmed(s, x, evidence) && x !in s.w.touched
    ensures x in s.w.backups
    ensures s.w.backups[x].byteCount == evidence.byteCount && s.w.backups[x].digest == evidence.sha256
  {
    var n, tail := |s.h.log|, [DumpSized(x, evidence.byteCount), DumpHashed(x, evidence.sha256)];
    assert s.h.log[n - 2 + 0] == tail[0] && s.h.log[n - 2 + 1] == tail[1];
    assert StillRead(s.w.backups, s.w.touched, s.h.log[n - 2]) && StillRead(s.w.backups, s.w.touched, s.h.log[n - 1]);
  }

  lemma BackedUpStep(s: Sys, o: ReleaseAttempt, a: ReleaseAttempt)
    requires BackedUp(s.w, a.sourceSha, o) && o.StepsTo(a) && PhaseGuard(s, o, a)
    requires DumpsRead(s.w.backups, s.w.touched, s.h.log) && a.sourceSha !in s.w.touched
    ensures BackedUp(s.w, a.sourceSha, a)
  {
    if a.phase.BackupVerified? {
      ConfirmedRead(s, a.sourceSha, a.backup.value);
    }
  }

  lemma BackupsStep(s: Sys, a: ReleaseAttempt)
    requires Backups(s.st, s.w) && DumpsRead(s.w.backups, s.w.touched, s.h.log) && CanReplaceAttempt(s, a)
    ensures Backups(s.st.(attempts := s.st.attempts[a.sourceSha := a]), s.w)
  {
    if a.sourceSha !in s.w.touched {
      BackedUpStep(s, s.st.attempts[a.sourceSha], a);
    }
  }

  lemma MigrationJobsStep(s: Sys, a: ReleaseAttempt)
    requires MigrationJobs(s.st.attempts, s.w.jobs) && CanReplaceAttempt(s, a)
    ensures MigrationJobs(s.st.attempts[a.sourceSha := a], s.w.jobs)
  {
  }

  // ----- Records and pointers -----

  lemma ShapeRecord(st: State, bundles: Bundles, r: ReleaseRecord)
    requires Shape(st, bundles) && RecordFile(st.attempts, bundles, r.sourceSha, r)
    ensures Shape(st.(records := st.records[r.sourceSha := r]), bundles)
  {
  }

  lemma OracleShapeRecord(st: State, bundles: Bundles, r: ReleaseRecord)
    requires OracleShape(st, bundles)
    ensures OracleShape(st.(records := st.records[r.sourceSha := r]), bundles)
  {
  }

  lemma PublicationRecord(st: State, r: ReleaseRecord)
    requires Publication(st) && r.sourceSha in st.attempts && st.attempts[r.sourceSha].phase.FrontendPromoted?
    ensures Publication(st.(records := st.records[r.sourceSha := r]))
  {
  }

  /** A release is recorded after the one it replaces. */
  lemma RecordPredecessor(s: Sys, r: ReleaseRecord)
    requires Shape(s.st, s.w.bundles) && Publication(s.st) && CanCreateRecord(s, r)
    ensures r.predecessorSha.Some? && r.predecessorSha.value in s.st.records
  {
    assert r.predecessorSha == s.st.attempts[r.sourceSha].predecessorSha;
  }

  lemma RecordedRecord(records: map<Sha, ReleaseRecord>, recorded: seq<Sha>, r: ReleaseRecord)
    requires Recorded(records, recorded) && r.sourceSha !in records
    requires r.predecessorSha.Some? && r.predecessorSha.value in records
    ensures Recorded(records[r.sourceSha := r], recorded + [r.sourceSha])
  {
    var more, after := recorded + [r.sourceSha], records[r.sourceSha := r];
    assert recorded != [] by { assert r.predecessorSha.value in recorded; }
    forall i | 0 <= i < |more| ensures Follows(after, more, i) {
      if i < |recorded| {
        assert Follows(records, recorded, i);
        assert more[i] == recorded[i] && more[..i] == recorded[..i];
      } else {
        assert more[..i] == recorded;
      }
    }
  }

  lemma PublicationCurrent(st: State, x: Sha)
    requires Publication(st) && Exclusive(st) && x in st.attempts && st.attempts[x].phase.FrontendPromoted?
    ensures Publication(st.(current := Some(x)))
  {
  }

  lemma SchemaCurrent(st: State, w: World, x: Sha)
    requires Schema(st, w) && Exclusive(st) && x in st.attempts && st.attempts[x].phase.FrontendPromoted?
    ensures Schema(st.(current := Some(x)), w)
  {
    assert !st.Idle();
  }

  lemma SchemaForwardFix(st: State, w: World, x: Sha)
    requires Schema(st, w) && x in st.attempts && st.attempts[x].phase.ForwardFixPending?
    ensures Schema(st.(forwardFix := Some(x)), w)
  {
    assert !st.Idle();
  }

  lemma EpisodeForwardFix(st: State, x: Sha)
    requires Episode(st) && Exclusive(st) && x in st.attempts && st.attempts[x].phase.ForwardFixPending?
    requires st.forwardFix.None?
    ensures Episode(st.(forwardFix := Some(x)))
  {
  }

  // ----- Oracle writes -----

  lemma OracleShapeStep(st: State, bundles: Bundles, o: OracleAttempt)
    requires OracleShape(st, bundles) && OracleFile(st.records, bundles, o.Key(), o)
    ensures OracleShape(st.(oracle := st.oracle[o.Key() := o]), bundles)
  {
  }

  lemma OracleShapeRepair(st: State, bundles: Bundles, b: OracleRepairBinding)
    requires OracleShape(st, bundles) && b.Key() in st.oracle && b.Valid()
    ensures OracleShape(st.(repairs := st.repairs[b.Key() := b]), bundles)
  {
  }

  lemma ExclusiveOracle(st: State, o: OracleAttempt)
    requires Exclusive(st) && o.Key() in st.oracle && !st.oracle[o.Key()].phase.Terminal()
    ensures Exclusive(st.(oracle := st.oracle[o.Key() := o]))
  {
  }

  /** The running command of a phase has to be settled before the phase is left. */
  lemma InPhaseStep(s: Sys, o: OracleAttempt, job: Job)
    requires CanReplaceOracleAttempt(s, o) && job in s.w.jobs
    requires InPhase(s.st.oracle, s.st.repairs, s.w.bundles, job)
    ensures TargetKey(s.w.bundles, job.target) != o.Key()
  {
    var k := TargetKey(s.w.bundles, job.target);
    assert job == OracleJob(k.source, Execution(s.st.repairs, k), job.command);
  }

  lemma OracleJobsStep(s: Sys, o: OracleAttempt)
    requires OracleJobs(s.st.oracle, s.st.repairs, s.w.bundles, s.w.jobs) && CanReplaceOracleAttempt(s, o)
    ensures OracleJobs(s.st.oracle[o.Key() := o], s.st.repairs, s.w.bundles, s.w.jobs)
  {
    forall job | job in s.w.jobs && InPhase(s.st.oracle, s.st.repairs, s.w.bundles, job)
      ensures InPhase(s.st.oracle[o.Key() := o], s.st.repairs, s.w.bundles, job)
    {
      InPhaseStep(s, o, job);
    }
  }

  lemma OracleJobsRepair(s: Sys, b: OracleRepairBinding)
    requires OracleJobs(s.st.oracle, s.st.repairs, s.w.bundles, s.w.jobs) && b.Key() !in s.st.repairs
    ensures OracleJobs(s.st.oracle, s.st.repairs[b.Key() := b], s.w.bundles, s.w.jobs)
  {
  }

  // ----- Every durable write -----

  lemma ShapeWrite(s: Sys, write: Write)
    requires Shape(s.st, s.w.bundles)
    requires WriteEnabled(s, write)
    ensures var t := Written(s, write); Shape(t.st, t.w.bundles)
  {
    match write
    case CreateAttempt(a) => ShapeCreate(s.st, s.w.bundles, a);
    case ReplaceAttempt(a) => ShapeStep(s.st, s.w.bundles, a);
    case CreateRecord(r) => ShapeRecord(s.st, s.w.bundles, r);
    case _ =>
  }

  lemma OracleShapeWrite(s: Sys, write: Write)
    requires OracleShape(s.st, s.w.bundles) && Shape(s.st, s.w.bundles)
    requires WriteEnabled(s, write)
    ensures var t := Written(s, write); OracleShape(t.st, t.w.bundles)
  {
    match write
    case CreateRecord(r) => OracleShapeRecord(s.st, s.w.bundles, r);
    case CreateOracleAttempt(o) => OracleShapeStep(s.st, s.w.bundles, o);
    case ReplaceOracleAttempt(o) => OracleShapeStep(s.st, s.w.bundles, o);
    case CreateRepair(b) => OracleShapeRepair(s.st, s.w.bundles, b);
    case _ =>
  }

  lemma ExclusiveWrite(s: Sys, write: Write)
    requires Exclusive(s.st)
    requires WriteEnabled(s, write)
    ensures var t := Written(s, write); Exclusive(t.st)
  {
    match write
    case CreateAttempt(a) => ExclusiveCreate(s.st, a);
    case ReplaceAttempt(a) => ExclusiveStep(s.st, a);
    case ReplaceOracleAttempt(o) => ExclusiveOracle(s.st, o);
    case _ =>
  }

  lemma EpisodeWrite(s: Sys, write: Write)
    requires Episode(s.st) && Exclusive(s.st)
    requires WriteEnabled(s, write)
    ensures var t := Written(s, write); Episode(t.st)
  {
    match write
    case CreateAttempt(a) => EpisodeCreate(s.st, a);
    case ReplaceAttempt(a) => EpisodeStep(s.st, a);
    case SetForwardFix(x) => EpisodeForwardFix(s.st, x);
    case _ =>
  }

  lemma PublicationSame(s: Sys, write: Write)
    requires Publication(s.st) && WriteEnabled(s, write)
    requires !write.CreateAttempt? && !write.ReplaceAttempt? && !write.CreateRecord? && !write.SetCurrent?
    requires !write.ClearForwardFix?
    ensures Publication(Written(s, write).st)
  {
  }

  lemma PublicationClear(s: Sys, x: Sha)
    requires Publication(s.st) && CanClearForwardFix(s, x)
    ensures Publication(s.st.(forwardFix := None))
  {
  }

  lemma PublicationReplace(s: Sys, a: ReleaseAttempt)
    requires Publication(s.st) && CanReplaceAttempt(s, a)
    ensures Publication(s.st.(attempts := s.st.attempts[a.sourceSha := a]))
  {
    PublicationStep(s.st, a);
  }

  lemma PublicationWrite(s: Sys, write: Write)
    requires Publication(s.st) && Exclusive(s.st)
    requires WriteEnabled(s, write)
    ensures var t := Written(s, write); Publication(t.st)
  {
    match write
    case CreateAttempt(a) => PublicationCreate(s.st, a);
    case ReplaceAttempt(a) => PublicationReplace(s, a);
    case CreateRecord(r) => PublicationRecord(s.st, r);
    case SetCurrent(x) => PublicationCurrent(s.st, x);
    case ClearForwardFix(x) => PublicationClear(s, x);
    case _ => PublicationSame(s, write);
  }

  lemma SchemaWrite(s: Sys, write: Write)
    requires Schema(s.st, s.w) && Exclusive(s.st) && Episode(s.st) && Publication(s.st)
    requires WriteEnabled(s, write)
    ensures var t := Written(s, write); Schema(t.st, t.w)
  {
    match write
    case CreateAttempt(a) => SchemaCreate(s.st, s.w, a);
    case ReplaceAttempt(a) => SchemaStep(s, a);
    case SetCurrent(x) => SchemaCurrent(s.st, s.w, x);
    case SetForwardFix(x) => SchemaForwardFix(s.st, s.w, x);
    case _ =>
  }

  lemma BackupsWrite(s: Sys, write: Write)
    requires Backups(s.st, s.w) && DumpsRead(s.w.backups, s.w.touched, s.h.log)
    requires WriteEnabled(s, write)
    ensures var t := Written(s, write); Backups(t.st, t.w)
  {
    match write
    case CreateAttempt(a) => BackupsCreate(s.st, s.w, a);
    case ReplaceAttempt(a) => BackupsStep(s, a);
    case _ =>
  }

  lemma DumpsReadAdd(backups: map<Sha, BackupFile>, touched: set<Sha>, log: seq<Event>, e: Event)
    requires DumpsRead(backups, touched, log) && StillRead(backups, touched, e)
    ensures DumpsRead(backups, touched, log + [e])
  {
  }

  lemma DumpsReadWrite(s: Sys, write: Write)
    requires DumpsRead(s.w.backups, s.w.touched, s.h.log) && WriteEnabled(s, write)
    ensures var t := Written(s, write); DumpsRead(t.w.backups, t.w.touched, t.h.log)
  {
    match write
    case ReplaceOracleAttempt(o) => DumpsReadAdd(s.w.backups, s.w.touched, s.h.log, OracleDone(o.Key()));
    case CreateRepair(b) => DumpsReadAdd(s.w.backups, s.w.touched, s.h.log, Bound(b.Key(), b.repairSourceSha));
    case _ =>
  }

  lemma MigrationJobsWrite(s: Sys, write: Write)
    requires MigrationJobs(s.st.attempts, s.w.jobs)
    requires WriteEnabled(s, write)
    ensures var t := Written(s, write); MigrationJobs(t.st.attempts, t.w.jobs)
  {
    match write
    case ReplaceAttempt(a) => MigrationJobsStep(s, a);
    case _ =>
  }

  lemma OracleJobsWrite(s: Sys, write: Write)
    requires OracleJobs(s.st.oracle, s.st.repairs, s.w.bundles, s.w.jobs)
    requires WriteEnabled(s, write)
    ensures var t := Written(s, write); OracleJobs(t.st.oracle, t.st.repairs, t.w.bundles, t.w.jobs)
  {
    match write
    case ReplaceOracleAttempt(o) => OracleJobsStep(s, o);
    case CreateRepair(b) => OracleJobsRepair(s, b);
    case _ =>
  }

  lemma OracleQuietStep(st: State, o: OracleAttempt, writers: map<Writer, Sha>)
    requires OracleQuiet(st.oracle, st.forwardFix, st.current, writers)
    requires o.Key() in st.oracle && st.oracle[o.Key()].StepsTo(o) && (o.phase.OWritersStopped? ==> writers == map[])
    ensures OracleQuiet(st.oracle[o.Key() := o], st.forwardFix, st.current, writers)
  {
  }

  lemma OracleQuietWrite(s: Sys, write: Write)
    requires OracleQuiet(s.st.oracle, s.st.forwardFix, s.st.current, s.w.writers) && Exclusive(s.st)
    requires WriteEnabled(s, write)
    ensures var t := Written(s, write); OracleQuiet(t.st.oracle, t.st.forwardFix, t.st.current, t.w.writers)
  {
    match write
    case ReplaceOracleAttempt(o) => OracleQuietStep(s.st, o, s.w.writers);
    case _ =>
  }

  lemma OnlyCreateRecordRecords(s: Sys, write: Write)
    requires !write.CreateRecord?
    ensures Written(s, write).st.records == s.st.records && Written(s, write).h.recorded == s.h.recorded
  {
  }

  lemma RecordedWrite(s: Sys, write: Write)
    requires Recorded(s.st.records, s.h.recorded) && Shape(s.st, s.w.bundles) && Publication(s.st)
    requires WriteEnabled(s, write)
    ensures var t := Written(s, write); Recorded(t.st.records, t.h.recorded)
  {
    if write.CreateRecord? {
      RecordPredecessor(s, write.r);
      RecordedRecord(s.st.records, s.h.recorded, write.r);
    } else {
      OnlyCreateRecordRecords(s, write);
    }
  }

  // ----- Effects on the world -----

  lemma SchemaStop(st: State, w: World, kept: set<Writer>)
    requires Schema(st, w)
    ensures Schema(st, w.(writers := Kept(w.writers, kept)))
  {
    var after := w.(writers := Kept(w.writers, kept));
    assert w.writers == map[] ==> after.writers == map[];
    assert forall x :: Serves(w, x) ==> Serves(after, x);
  }

  lemma SchemaCandidate(st: State, w: World, some: set<Writer>, x: Sha)
    requires Schema(st, w) && Exclusive(st) && st.Active(x) && st.attempts[x].phase.BackendActivationStarted?
    ensures Schema(st, w.(writers := Started(w.writers, some, x)))
  {
    assert !st.Idle();
  }

  lemma SchemaPredecessor(st: State, w: World, some: set<Writer>, x: Sha)
    requires Schema(st, w) && Exclusive(st) && st.Active(x) && st.attempts[x].phase.RollbackRequired?
    requires st.attempts[x].predecessorSha == st.current
    ensures Schema(st, w.(writers := Started(w.writers, some, st.current.value)))
  {
    assert !st.Idle();
  }

  lemma SchemaRestore(st: State, w: World, some: set<Writer>, c: Sha)
    requires Schema(st, w) && st.Idle() && st.forwardFix.None? && st.current == Some(c)
    ensures Schema(st, w.(writers := Started(w.writers, some, c)))
  {
  }

  lemma SchemaMigrate(st: State, w: World, x: Sha, revisions: seq<Revision>)
    requires Schema(st, w) && Exclusive(st) && x in st.attempts && st.attempts[x].phase.DataMutationStarted?
    ensures Schema(st, w.(revisions := revisions))
  {
    assert !st.Idle();
  }

  lemma SchemaWriters(s: Sys, effect: Effect)
    requires Schema(s.st, s.w) && Exclusive(s.st) && Publication(s.st)
    requires OracleQuiet(s.st.oracle, s.st.forwardFix, s.st.current, s.w.writers)
    requires effect.StartCandidate? || effect.RestartPredecessor? || effect.RestoreRuntime?
    requires EffectEnabled(s, effect)
    ensures var t := Effected(s, effect); Schema(t.st, t.w)
  {
    match effect
    case StartCandidate(some, x) => SchemaCandidate(s.st, s.w, some, x);
    case RestartPredecessor(some, x) =>
      assert SchemaDuring(s.w, s.st.current.value, x, s.st.attempts[x]);
      SchemaPredecessor(s.st, s.w, some, x);
    case RestoreRuntime(some, k) => SchemaRestore(s.st, s.w, some, k.source);
  }

  /** Only writers and revisions matter. */
  lemma SchemaSame(st: State, w: World, after: World)
    requires Schema(st, w)
    requires after.bundles == w.bundles && after.writers == w.writers && after.revisions == w.revisions
    ensures Schema(st, after)
  {
    assert forall x :: Serves(after, x) == Serves(w, x) && after.AtHead(x) == w.AtHead(x);
  }

  lemma SchemaEffect(s: Sys, effect: Effect)
    requires Schema(s.st, s.w) && Exclusive(s.st) && Publication(s.st)
    requires OracleQuiet(s.st.oracle, s.st.forwardFix, s.st.current, s.w.writers)
    requires EffectEnabled(s, effect)
    ensures var t := Effected(s, effect); Schema(t.st, t.w)
  {
    match effect
    case StopSome(kept) => SchemaStop(s.st, s.w, kept);
    case StartCandidate(some, x) => SchemaWriters(s, effect);
    case RestartPredecessor(some, x) => SchemaWriters(s, effect);
    case RestoreRuntime(some, k) => SchemaWriters(s, effect);
    case Migrate(x, revisions) => SchemaMigrate(s.st, s.w, x, revisions);
    case _ => SchemaSame(s.st, s.w, Effected(s, effect).w);
  }

  lemma BackupsFile(st: State, w: World, x: Sha, file: BackupFile)
    requires Backups(st, w) && x in st.attempts && st.attempts[x].phase.WritersStopped?
    requires x in w.backups ==> x in w.touched
    requires file.byteCount >= 1 && file.identity == w.identity && file.revisions == w.revisions
    ensures Backups(st, w.(backups := w.backups[x := file]))
  {
  }

  lemma BackupsTouched(st: State, w: World, x: Sha, found: Option<BackupFile>)
    requires Backups(st, w)
    ensures var backups := if found.Some? then w.backups[x := found.value] else w.backups - {x};
            Backups(st, w.(backups := backups, touched := w.touched + {x}))
  {
  }

  /** Revisions move only while every other attempt is settled, so no pending dump goes stale. */
  lemma BackupsMigrate(st: State, w: World, x: Sha, revisions: seq<Revision>)
    requires Backups(st, w) && Exclusive(st) && x in st.attempts && st.attempts[x].phase.DataMutationStarted?
    ensures Backups(st, w.(revisions := revisions))
  {
  }

  lemma BackupsSame(st: State, w: World, writers: map<Writer, Sha>, jobs: map<Job, JobState>)
    requires Backups(st, w)
    ensures Backups(st, w.(writers := writers, jobs := jobs))
  {
  }

  lemma BackupsEffect(s: Sys, effect: Effect)
    requires Backups(s.st, s.w) && Exclusive(s.st)
    requires EffectEnabled(s, effect)
    ensures var t := Effected(s, effect); Backups(t.st, t.w)
  {
    match effect
    case WriteBackup(x, file) => BackupsFile(s.st, s.w, x, file);
    case TouchBackup(x, found) => BackupsTouched(s.st, s.w, x, found);
    case Migrate(x, revisions) => BackupsMigrate(s.st, s.w, x, revisions);
    case _ => BackupsSame(s.st, s.w, Effected(s, effect).w.writers, Effected(s, effect).w.jobs);
  }

  lemma DumpsReadFile(backups: map<Sha, BackupFile>, touched: set<Sha>, log: seq<Event>, x: Sha, file: BackupFile)
    requires DumpsRead(backups, touched, log) && (x in backups ==> x in touched)
    ensures DumpsRead(backups[x := file], touched, log)
  {
  }

  lemma DumpsReadTouched(backups: map<Sha, BackupFile>, touched: set<Sha>, log: seq<Event>, x: Sha,
                         found: Option<BackupFile>)
    requires DumpsRead(backups, touched, log)
    ensures DumpsRead(if found.Some? then backups[x := found.value] else backups - {x}, touched + {x}, log)
  {
  }

  lemma DumpsReadEffect(s: Sys, effect: Effect)
    requires DumpsRead(s.w.backups, s.w.touched, s.h.log) && EffectEnabled(s, effect)
    ensures var t := Effected(s, effect); DumpsRead(t.w.backups, t.w.touched, t.h.log)
  {
    match effect
    case WriteBackup(x, file) => DumpsReadFile(s.w.backups, s.w.touched, s.h.log, x, file);
    case TouchBackup(x, found) => DumpsReadTouched(s.w.backups, s.w.touched, s.h.log, x, found);
    case StartJob(job) => DumpsReadAdd(s.w.backups, s.w.touched, s.h.log, JobStarted(job));
    case Observe(e) => DumpsReadAdd(s.w.backups, s.w.touched, s.h.log, e);
    case _ =>
  }

  lemma JobsEffect(s: Sys, effect: Effect)
    requires MigrationJobs(s.st.attempts, s.w.jobs)
    requires OracleJobs(s.st.oracle, s.st.repairs, s.w.bundles, s.w.jobs)
    requires EffectEnabled(s, effect)
    ensures var t := Effected(s, effect);
            MigrationJobs(t.st.attempts, t.w.jobs) && OracleJobs(t.st.oracle, t.st.repairs, t.w.bundles, t.w.jobs)
  {
  }

  lemma OracleQuietEffect(s: Sys, effect: Effect)
    requires OracleQuiet(s.st.oracle, s.st.forwardFix, s.st.current, s.w.writers) && Exclusive(s.st)
    requires EffectEnabled(s, effect)
    ensures var t := Effected(s, effect); OracleQuiet(t.st.oracle, t.st.forwardFix, t.st.current, t.w.writers)
  {
    assert forall kept :: Kept(map[], kept) == map[];
  }

  // ----- Every action, every run -----

  lemma WriteKeepsCore(s: Sys, write: Write)
    requires Core(s) && WriteEnabled(s, write)
    ensures Core(Written(s, write))
  {
    ShapeWrite(s, write);
    OracleShapeWrite(s, write);
    ExclusiveWrite(s, write);
    EpisodeWrite(s, write);
    PublicationWrite(s, write);
    SchemaWrite(s, write);
    MigrationJobsWrite(s, write);
    OracleJobsWrite(s, write);
    OracleQuietWrite(s, write);
    RecordedWrite(s, write);
  }

  lemma WriteKeepsInv(s: Sys, write: Write)
    requires Inv(s) && WriteEnabled(s, write)
    ensures Inv(Written(s, write))
  {
    WriteKeepsCore(s, write);
    BackupsWrite(s, write);
    DumpsReadWrite(s, write);
  }

  lemma EffectKeepsCore(s: Sys, effect: Effect)
    requires Core(s) && EffectEnabled(s, effect)
    ensures Core(Effected(s, effect))
  {
    SchemaEffect(s, effect);
    JobsEffect(s, effect);
    OracleQuietEffect(s, effect);
  }

  lemma EffectKeepsInv(s: Sys, effect: Effect)
    requires Inv(s) && EffectEnabled(s, effect)
    ensures Inv(Effected(s, effect))
  {
    EffectKeepsCore(s, effect);
    BackupsEffect(s, effect);
    DumpsReadEffect(s, effect);
  }

  lemma {:induction false} RunInv(s0: Sys, acts: seq<Action>)
    requires Run(s0, acts)
    ensures Inv(After(s0, acts))
  {
    if acts == [] {
      InitInv(s0);
    } else {
      var shorter, last := acts[..|acts| - 1], acts[|acts| - 1];
      RunInv(s0, shorter);
      match last
      case Durable(write) => WriteKeepsInv(After(s0, shorter), write);
      case Outside(effect) => EffectKeepsInv(After(s0, shorter), effect);
    }
  }
}
