/** The immutable records of the release controller and the two phase machines (deploy/hetzner/release.py). */
module Model {
  import opened Outcomes
  import opened Ordering

  type Sha = string
  type Revision = string
  type Digest = string

  // ----- Phases -----

  datatype ReleasePhase =
    | Prepared
    | WritersStopped
    | BackupVerified
    | DataMutationStarted
    | BackendActivationStarted
    | AwaitingFrontendPromotion
    | FrontendPromoted
    | RollbackRequired
    | ForwardFixPending
    | RolledBack
    | Succeeded
    | ForwardFixRequired
  {
    predicate Terminal() {
      RolledBack? || Succeeded? || ForwardFixRequired?
    }

    /** The phases that carry a failure code. */
    predicate Failed() {
      RollbackRequired? || ForwardFixPending? || RolledBack? || ForwardFixRequired?
    }

    /** At or after one of the two commitment boundaries, and still running. */
    predicate Committed() {
      DataMutationStarted? || BackendActivationStarted? || AwaitingFrontendPromotion? || FrontendPromoted?
    }

    /** A failure is stored and has to be carried out. */
    predicate Intended() {
      RollbackRequired? || ForwardFixPending?
    }

    /** On the way to the frontend promotion. */
    predicate UnderWay() {
      || Prepared? || WritersStopped? || BackupVerified? || DataMutationStarted? || BackendActivationStarted?
      || AwaitingFrontendPromotion?
    }

    function Successors(): set<ReleasePhase> {
      match this
      case Prepared => {WritersStopped, RollbackRequired, ForwardFixPending}
      case WritersStopped => {BackupVerified, BackendActivationStarted, RollbackRequired, ForwardFixPending}
      case BackupVerified => {DataMutationStarted, RollbackRequired, ForwardFixPending}
      case DataMutationStarted => {BackendActivationStarted, ForwardFixPending}
      case BackendActivationStarted => {AwaitingFrontendPromotion, ForwardFixPending}
      case AwaitingFrontendPromotion => {FrontendPromoted, ForwardFixPending}
      case FrontendPromoted => {Succeeded, ForwardFixPending}
      case RollbackRequired => {RolledBack}
      case ForwardFixPending => {ForwardFixRequired}
      case RolledBack => {}
      case Succeeded => {}
      case ForwardFixRequired => {}
    }

    /** An upper bound on the number of transitions left. */
    function Rank(): nat {
      match this
      case Prepared => 8
      case WritersStopped => 7
      case BackupVerified => 6
      case DataMutationStarted => 5
      case BackendActivationStarted => 4
      case AwaitingFrontendPromotion => 3
      case FrontendPromoted => 2
      case RollbackRequired => 1
      case ForwardFixPending => 1
      case RolledBack => 0
      case Succeeded => 0
      case ForwardFixRequired => 0
    }
  }

  lemma SuccessorsLowerRank(p: ReleasePhase, q: ReleasePhase)
    requires q in p.Successors()
    ensures q.Rank() < p.Rank()
  {
  }

  /** `q` lies on a path of the transition graph that starts at `p`. */
  ghost predicate Leads(p: ReleasePhase, q: ReleasePhase)
    decreases p.Rank()
  {
    p == q || exists m :: m in p.Successors() && m.Rank() < p.Rank() && Leads(m, q)
  }

  lemma {:induction false} LeadsTransitive(p: ReleasePhase, q: ReleasePhase, r: ReleasePhase)
    requires Leads(p, q) && Leads(q, r)
    ensures Leads(p, r)
    decreases p.Rank()
  {
    if p == q {
    } else {
      var m :| m in p.Successors() && m.Rank() < p.Rank() && Leads(m, q);
      LeadsTransitive(m, q, r);
    }
  }

  lemma LeadsOneStep(p: ReleasePhase, q: ReleasePhase)
    requires q in p.Successors()
    ensures Leads(p, q)
  {
    SuccessorsLowerRank(p, q);
    assert Leads(q, q);
  }

  /** Where a path from `p` can still go: it never returns, never leaves a terminal phase, and after a commitment
      boundary it avoids the rollback branch. */
  predicate WayDown(p: ReleasePhase, q: ReleasePhase) {
    && (q == p || q.Rank() < p.Rank())
    && (p.Terminal() ==> q == p)
    && (p.Committed() ==> q.Committed() || q.ForwardFixPending? || q.ForwardFixRequired? || q.Succeeded?)
    && (p.ForwardFixPending? ==> q.ForwardFixPending? || q.ForwardFixRequired?)
    && (p.RollbackRequired? ==> q.RollbackRequired? || q.RolledBack?)
  }

  lemma WayDownStep(p: ReleasePhase, m: ReleasePhase, q: ReleasePhase)
    requires m in p.Successors() && WayDown(m, q)
    ensures WayDown(p, q)
  {
    match p
    case Prepared =>
    case WritersStopped =>
    case BackupVerified =>
    case DataMutationStarted =>
    case BackendActivationStarted =>
    case AwaitingFrontendPromotion =>
    case FrontendPromoted =>
    case RollbackRequired =>
    case ForwardFixPending =>
    case RolledBack =>
    case Succeeded =>
    case ForwardFixRequired =>
  }

  lemma {:induction false} LeadsIsAWayDown(p: ReleasePhase, q: ReleasePhase)
    requires Leads(p, q)
    ensures WayDown(p, q)
    decreases p.Rank()
  {
    if p == q {
    } else {
      var m :| m in p.Successors() && m.Rank() < p.Rank() && Leads(m, q);
      LeadsIsAWayDown(m, q);
      WayDownStep(p, m, q);
    }
  }

  datatype OraclePhase =
    | OPrepared
    | OWritersStopped
    | OUnpublished
    | OSupportReconciled
    | OPublished
    | ORuntimeRestored
    | OSucceeded
  {
    predicate Terminal() {
      OSucceeded?
    }

    /** The phases in which a mutating Oracle command runs. */
    predicate Mutating() {
      OWritersStopped? || OUnpublished? || OSupportReconciled?
    }

    predicate Restoring() {
      OPublished? || ORuntimeRestored?
    }

    function Successors(): set<OraclePhase> {
      match this
      case OPrepared => {OWritersStopped}
      case OWritersStopped => {OUnpublished}
      case OUnpublished => {OSupportReconciled}
      case OSupportReconciled => {OPublished}
      case OPublished => {ORuntimeRestored}
      case ORuntimeRestored => {OSucceeded}
      case OSucceeded => {}
    }

    function Rank(): nat {
      match this
      case OPrepared => 6
      case OWritersStopped => 5
      case OUnpublished => 4
      case OSupportReconciled => 3
      case OPublished => 2
      case ORuntimeRestored => 1
      case OSucceeded => 0
    }
  }

  // ----- Evidence -----

  const SERVICES: set<string> := {"postgres", "caddy", "api", "worker-interactive", "worker-background"}
  const WRITERS: set<string> := {"api", "worker-interactive", "worker-background"}

  datatype ContainerEvidence = ContainerEvidence(containerId: string, image: string, configSha256: string)

  /** What a scalar database query may return. */
  predicate WellFormedScalar(value: string) {
    value != "" && '\n' !in value
  }

  datatype BackupEvidence = BackupEvidence(
    path: string, sha256: string, byteCount: int, databaseIdentity: string, startingRevision: Revision)
  {
    predicate Valid() {
      byteCount >= 1 && WellFormedScalar(databaseIdentity)
    }
  }

  // ----- Release attempts -----

  datatype ReleaseAttempt = ReleaseAttempt(
    schemaVersion: int,
    sourceSha: Sha,
    manifestSha256: string,
    candidateApiImageId: string,
    candidateWorkerImageId: string,
    predecessorSha: Option<Sha>,
    forwardFixOf: Option<Sha>,
    containers: map<string, ContainerEvidence>,
    configPath: string,
    configSha256: string,
    vercelDeploymentId: string,
    productionHost: string,
    phase: ReleasePhase,
    backup: Option<BackupEvidence>,
    failureCode: Option<string>,
    createdAt: string,
    updatedAt: string)
  {
    /** What `__post_init__` demands of every constructed attempt; `Patterns` has what it demands of single texts. */
    predicate Valid() {
      && schemaVersion == 1
      && (predecessorSha.None? ==> phase.Succeeded?)
      && predecessorSha != Some(sourceSha)
      && forwardFixOf != Some(sourceSha)
      && containers.Keys == SERVICES
      && (backup.Some? ==> backup.value.Valid())
      && (phase.BackupVerified? || phase.DataMutationStarted? ==> backup.Some?)
      && (phase.Prepared? || phase.WritersStopped? ==> backup.None?)
      && phase.Failed() == failureCode.Some?
      && !Less(updatedAt, createdAt)
    }

    predicate Terminal() {
      phase.Terminal()
    }

    function Checked(): Outcome<ReleaseAttempt> {
      if Valid() then Done(this) else Defect
    }

    function Advance(next: ReleasePhase, now: string, code: Option<string>): Outcome<ReleaseAttempt> {
      if next !in phase.Successors() then Defect
      else this.(phase := next, failureCode := code, updatedAt := now).Checked()
    }

    function WithBackup(evidence: BackupEvidence, now: string): Outcome<ReleaseAttempt> {
      if !phase.WritersStopped? then Defect
      else this.(phase := BackupVerified, backup := Some(evidence), failureCode := None, updatedAt := now).Checked()
    }

    /** The attempt with its progress fields taken from `other`; two attempts of one release agree on the rest. */
    function WithProgressOf(other: ReleaseAttempt): ReleaseAttempt {
      this.(phase := other.phase, backup := other.backup, failureCode := other.failureCode,
          updatedAt := other.updatedAt)
    }

    /** What `replace_attempt` lets the stored attempt become. */
    predicate StepsTo(next: ReleaseAttempt) {
      next.WithProgressOf(this) == this && next.phase in phase.Successors()
    }
  }

  /** `advance` refuses exactly the phases that are no successor, and evidence that does not fit the new phase. */
  lemma AdvanceAccepts(a: ReleaseAttempt, next: ReleasePhase, now: string, code: Option<string>)
    requires a.Valid() && !Less(now, a.createdAt)
    ensures a.Advance(next, now, code).Done? <==>
            next in a.phase.Successors() && next.Failed() == code.Some? && !(next.BackupVerified? && a.backup.None?)
  {
  }

  /** The settlement phase for a permanent failure, or a defect for a phase that cannot fail again. */
  function PermanentFailurePhase(phase: ReleasePhase, forwardFix: bool): Outcome<ReleasePhase> {
    if forwardFix && !phase.Terminal() then Done(ForwardFixPending)
    else if phase.Prepared? || phase.WritersStopped? || phase.BackupVerified? then Done(RollbackRequired)
    else if phase.Committed() then Done(ForwardFixPending)
    else Defect
  }

  /** The chosen settlement is a legal successor exactly when no settlement has been chosen before. */
  lemma PermanentFailureIsLegal(phase: ReleasePhase, forwardFix: bool)
    ensures var outcome := PermanentFailurePhase(phase, forwardFix);
            (outcome.Done? && outcome.value in phase.Successors()) <==>
            !(phase.Terminal() || phase.RollbackRequired? || phase.ForwardFixPending?)
    ensures var outcome := PermanentFailurePhase(phase, forwardFix);
            outcome == Done(RollbackRequired) ==> !forwardFix && !phase.Committed()
  {
  }

  // ----- Candidates and records -----

  datatype CandidateImages = CandidateImages(api: string, worker: string)

  datatype CandidateManifest = CandidateManifest(
    schemaVersion: int,
    sourceSha: Sha,
    repository: string,
    sourceCiRunId: int,
    sourceCiRunAttempt: int,
    sourceCiWorkflowId: int,
    publisherRunId: int,
    publisherRunAttempt: int,
    images: CandidateImages,
    expectedDatabaseRevision: Revision,
    expectedOracleManifestDigest: Digest)
  {
    predicate Valid() {
      && schemaVersion == 1
      && repository == "NielsdaWheelz/nexus-web"
      && sourceCiRunId >= 1
      && sourceCiRunAttempt == 1
      && sourceCiWorkflowId >= 1
      && publisherRunId >= 1
      && publisherRunId != sourceCiRunId
      && publisherRunAttempt == 1
    }
  }

  datatype ReleaseRecord = ReleaseRecord(
    schemaVersion: int,
    sourceSha: Sha,
    manifestSha256: string,
    apiImage: string,
    workerImage: string,
    apiImageId: string,
    workerImageId: string,
    predecessorSha: Option<Sha>,
    configPath: string,
    configSha256: string,
    databaseRevision: Revision,
    expectedOracleManifestDigest: Digest,
    vercelDeploymentId: string,
    productionHost: string,
    verifiedAt: string)
  {
    predicate Valid() {
      schemaVersion == 1 && predecessorSha != Some(sourceSha)
    }

    predicate Of(a: ReleaseAttempt, m: CandidateManifest) {
      this == RecordOf(a, m, verifiedAt)
    }
  }

  function RecordOf(a: ReleaseAttempt, m: CandidateManifest, verifiedAt: string): ReleaseRecord {
    ReleaseRecord(
      1, a.sourceSha, a.manifestSha256, m.images.api, m.images.worker, a.candidateApiImageId, a.candidateWorkerImageId,
      a.predecessorSha, a.configPath, a.configSha256, m.expectedDatabaseRevision, m.expectedOracleManifestDigest,
      a.vercelDeploymentId, a.productionHost, verifiedAt)
  }

  /** `ReleaseRecord.from_attempt`; the image ids are the ones `_prove_backend` found, which are the attempt's own. */
  function RecordFromAttempt(a: ReleaseAttempt, m: CandidateManifest, verifiedAt: string): Outcome<ReleaseRecord> {
    if a.sourceSha != m.sourceSha then Defect
    else if !(a.phase.FrontendPromoted? || a.phase.Succeeded?) then Defect
    else if a.predecessorSha.None? && !a.phase.Succeeded? then Defect
    else
      var r := RecordOf(a, m, verifiedAt);
      if r.Valid() then Done(r) else Defect
  }

  // ----- Oracle attempts and repairs -----

  datatype OracleMarker = Absent | Present(manifestDigest: Digest, embeddingProvider: string, embeddingModel: string)

  /** The target of an Oracle attempt: the release and the corpus manifest it publishes. */
  datatype OracleKey = OracleKey(source: Sha, digest: Digest)

  datatype OracleAttempt = OracleAttempt(
    schemaVersion: int,
    sourceSha: Sha,
    expectedManifestDigest: Digest,
    configPath: string,
    configSha256: string,
    priorMarker: OracleMarker,
    containers: map<string, ContainerEvidence>,
    phase: OraclePhase,
    createdAt: string,
    updatedAt: string)
  {
    predicate Valid() {
      schemaVersion == 1 && containers.Keys == WRITERS
    }

    function Key(): OracleKey {
      OracleKey(sourceSha, expectedManifestDigest)
    }

    function Advance(next: OraclePhase, now: string): Outcome<OracleAttempt> {
      if next !in phase.Successors() then Defect else Done(this.(phase := next, updatedAt := now))
    }

    predicate StepsTo(next: OracleAttempt) {
      next.(phase := phase, updatedAt := updatedAt) == this && next.phase in phase.Successors()
    }
  }

  /** What the status command of the Oracle corpus reports. */
  datatype OracleRuntimeStatus = OracleRuntimeStatus(
    status: string,
    manifestDigest: Digest,
    embeddingProvider: string,
    embeddingModel: string,
    supportReady: bool,
    published: bool,
    priorMarker: OracleMarker,
    errors: seq<string>,
    hasRemovals: bool)
  {
    predicate IsExactPublication(expected: Digest) {
      && status == "published"
      && manifestDigest == expected
      && supportReady
      && published
      && priorMarker == Present(expected, embeddingProvider, embeddingModel)
      && errors == []
      && !hasRemovals
    }
  }

  datatype OracleRepairBinding = OracleRepairBinding(
    schemaVersion: int,
    targetSourceSha: Sha,
    targetManifestDigest: Digest,
    expectedDatabaseRevision: Revision,
    repairSourceSha: Sha,
    repairManifestSha256: string,
    repairApiImage: string,
    repairWorkerImage: string,
    repairApiImageId: string,
    repairWorkerImageId: string,
    createdAt: string)
  {
    predicate Valid() {
      schemaVersion == 1 && repairSourceSha != targetSourceSha
    }

    function Key(): OracleKey {
      OracleKey(targetSourceSha, targetManifestDigest)
    }
  }
}
