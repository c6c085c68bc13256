/** The closed JSON forms of everything the store and the bundles keep. */
module Codecs {
  import opened Outcomes
  import opened Model
  import opened Json
  import opened Patterns

  type Fields = map<string, Json>

  // ----- Field access -----

  function Closed(j: Json, names: set<string>): Outcome<Fields> {
    if j.Obj? && j.fields.Keys == names then Done(j.fields) else Defect
  }

  function StringField(f: Fields, name: string): Outcome<string> {
    if name in f && f[name].Str? then Done(f[name].s) else Defect
  }

  function OptionalField(f: Fields, name: string): Outcome<Option<string>> {
    if name !in f || f[name].Null? then Done(None)
    else if f[name].Str? then Done(Some(f[name].s))
    else Defect
  }

  function IntegerField(f: Fields, name: string): Outcome<int> {
    if name in f && f[name].Int? then Done(f[name].n) else Defect
  }

  function Optional(s: Option<string>): Json {
    if s.Some? then Str(s.value) else Null
  }

  // ----- Evidence -----

  const CONTAINER_FIELDS: set<string> := {"container_id", "image", "config_sha256"}

  function ContainerJson(c: ContainerEvidence): Json {
    Obj(map["container_id" := Str(c.containerId), "image" := Str(c.image), "config_sha256" := Str(c.configSha256)])
  }

  function ContainerFrom(j: Json): Outcome<ContainerEvidence> {
    var f :- Closed(j, CONTAINER_FIELDS);
    var id :- StringField(f, "container_id");
    var image :- StringField(f, "image");
    var config :- StringField(f, "config_sha256");
    var c := ContainerEvidence(id, image, config);
    if ContainerFormed(c) then Done(c) else Defect
  }

  lemma ContainerCodec(j: Json, c: ContainerEvidence)
    ensures ContainerFrom(j) == Done(c) <==> ContainerFormed(c) && j == ContainerJson(c)
  {
    if ContainerFrom(j) == Done(c) {
      assert j.fields == ContainerJson(c).fields;
    }
  }

  function ContainersJson(m: map<string, ContainerEvidence>): Json {
    Obj(map s | s in m :: ContainerJson(m[s]))
  }

  predicate ContainersReadable(f: Fields) {
    forall s :: s in f ==> ContainerFrom(f[s]).Done?
  }

  function ContainersFrom(j: Json): Outcome<map<string, ContainerEvidence>> {
    if !j.Obj? || !ContainersReadable(j.fields) then Defect
    else Done(map s | s in j.fields :: ContainerFrom(j.fields[s]).value)
  }

  lemma ContainersForward(j: Json, m: map<string, ContainerEvidence>)
    requires ContainersFrom(j) == Done(m)
    ensures ContainersFormed(m) && j == ContainersJson(m)
  {
    forall s | s in j.fields ensures ContainerFormed(m[s]) && j.fields[s] == ContainerJson(m[s]) {
      ContainerCodec(j.fields[s], m[s]);
    }
    assert j.fields == ContainersJson(m).fields;
  }

  lemma ContainersBackward(m: map<string, ContainerEvidence>)
    requires ContainersFormed(m)
    ensures ContainersFrom(ContainersJson(m)) == Done(m)
  {
    var f := ContainersJson(m).fields;
    forall s | s in m ensures ContainerFrom(f[s]) == Done(m[s]) {
      ContainerCodec(f[s], m[s]);
    }
    assert ContainersReadable(f);
    assert (map s | s in f :: ContainerFrom(f[s]).value) == m;
  }

  lemma ContainersCodec(j: Json, m: map<string, ContainerEvidence>)
    ensures ContainersFrom(j) == Done(m) <==> ContainersFormed(m) && j == ContainersJson(m)
  {
    if ContainersFrom(j) == Done(m) {
      ContainersForward(j, m);
    }
    if ContainersFormed(m) {
      ContainersBackward(m);
    }
  }

  const BACKUP_FIELDS: set<string> := {"path", "sha256", "byte_count", "database_identity", "starting_revision"}

  function BackupJson(b: BackupEvidence): Json {
    Obj(map["path" := Str(b.path), "sha256" := Str(b.sha256), "byte_count" := Int(b.byteCount),
            "database_identity" := Str(b.databaseIdentity), "starting_revision" := Str(b.startingRevision)])
  }

  function BackupFrom(j: Json): Outcome<BackupEvidence> {
    var f :- Closed(j, BACKUP_FIELDS);
    var path :- StringField(f, "path");
    var sha :- StringField(f, "sha256");
    var count :- IntegerField(f, "byte_count");
    var identity :- StringField(f, "database_identity");
    var revision :- StringField(f, "starting_revision");
    var b := BackupEvidence(path, sha, count, identity, revision);
    if BackupFormed(b) then Done(b) else Defect
  }

  lemma BackupCodec(j: Json, b: BackupEvidence)
    ensures BackupFrom(j) == Done(b) <==> BackupFormed(b) && j == BackupJson(b)
  {
    if BackupFrom(j) == Done(b) {
      assert j.fields == BackupJson(b).fields;
    }
  }

  function OptionalBackupJson(b: Option<BackupEvidence>): Json {
    if b.Some? then BackupJson(b.value) else Null
  }

  function OptionalBackupFrom(j: Json): (r: Outcome<Option<BackupEvidence>>)
    ensures r.Done? && r.value.Some? ==> BackupFormed(r.value.value)
  {
    if j.Null? then Done(None)
    else
      var b :- BackupFrom(j);
      Done(Some(b))
  }

  lemma OptionalBackupCodec(j: Json, b: Option<BackupEvidence>)
    requires b.Some? ==> BackupFormed(b.value)
    ensures OptionalBackupFrom(j) == Done(b) <==> j == OptionalBackupJson(b)
  {
    if b.Some? {
      BackupCodec(j, b.value);
    }
  }

  // ----- Phases -----

  function PhaseName(p: ReleasePhase): string {
    match p
    case Prepared => "Prepared"
    case WritersStopped => "WritersStopped"
    case BackupVerified => "BackupVerified"
    case DataMutationStarted => "DataMutationStarted"
    case BackendActivationStarted => "BackendActivationStarted"
    case AwaitingFrontendPromotion => "AwaitingFrontendPromotion"
    case FrontendPromoted => "FrontendPromoted"
    case RollbackRequired => "RollbackRequired"
    case ForwardFixPending => "ForwardFixPending"
    case RolledBack => "RolledBack"
    case Succeeded => "Succeeded"
    case ForwardFixRequired => "ForwardFixRequired"
  }

  function PhaseNamed(name: string): (r: Outcome<ReleasePhase>)
    ensures forall p :: r == Done(p) <==> name == PhaseName(p)
  {
    match name
    case "Prepared" => Done(Prepared)
    case "WritersStopped" => Done(WritersStopped)
    case "BackupVerified" => Done(BackupVerified)
    case "DataMutationStarted" => Done(DataMutationStarted)
    case "BackendActivationStarted" => Done(BackendActivationStarted)
    case "AwaitingFrontendPromotion" => Done(AwaitingFrontendPromotion)
    case "FrontendPromoted" => Done(FrontendPromoted)
    case "RollbackRequired" => Done(RollbackRequired)
    case "ForwardFixPending" => Done(ForwardFixPending)
    case "RolledBack" => Done(RolledBack)
    case "Succeeded" => Done(Succeeded)
    case "ForwardFixRequired" => Done(ForwardFixRequired)
    case _ => Defect
  }

  function PhaseFrom(j: Json): (r: Outcome<ReleasePhase>)
    ensures forall p :: r == Done(p) <==> j == Str(PhaseName(p))
  {
    if j.Str? then PhaseNamed(j.s) else Defect
  }

  function OraclePhaseName(p: OraclePhase): string {
    match p
    case OPrepared => "Prepared"
    case OWritersStopped => "WritersStopped"
    case OUnpublished => "Unpublished"
    case OSupportReconciled => "SupportReconciled"
    case OPublished => "Published"
    case ORuntimeRestored => "RuntimeRestored"
    case OSucceeded => "Succeeded"
  }

  function OraclePhaseNamed(name: string): (r: Outcome<OraclePhase>)
    ensures forall p :: r == Done(p) <==> name == OraclePhaseName(p)
  {
    match name
    case "Prepared" => Done(OPrepared)
    case "WritersStopped" => Done(OWritersStopped)
    case "Unpublished" => Done(OUnpublished)
    case "SupportReconciled" => Done(OSupportReconciled)
    case "Published" => Done(OPublished)
    case "RuntimeRestored" => Done(ORuntimeRestored)
    case "Succeeded" => Done(OSucceeded)
    case _ => Defect
  }

  function OraclePhaseFrom(j: Json): (r: Outcome<OraclePhase>)
    ensures forall p :: r == Done(p) <==> j == Str(OraclePhaseName(p))
  {
    if j.Str? then OraclePhaseNamed(j.s) else Defect
  }

  // ----- Markers and images -----

  const MARKER_FIELDS: set<string> := {"kind", "manifest_digest", "embedding_provider", "embedding_model"}

  function MarkerJson(m: OracleMarker): Json {
    match m
    case Absent => Obj(map["kind" := Str("Absent")])
    case Present(digest, provider, model) =>
      Obj(map["kind" := Str("Present"), "manifest_digest" := Str(digest),
              "embedding_provider" := Str(provider), "embedding_model" := Str(model)])
  }

  function MarkerFrom(j: Json): Outcome<OracleMarker> {
    if !j.Obj? then Defect
    else
      var kind :- StringField(j.fields, "kind");
      if kind == "Absent" then
        if j.fields.Keys == {"kind"} then Done(Absent) else Defect
      else if kind == "Present" then
        var f :- Closed(j, MARKER_FIELDS);
        var digest :- StringField(f, "manifest_digest");
        var provider :- StringField(f, "embedding_provider");
        var model :- StringField(f, "embedding_model");
        var m := Present(digest, provider, model);
        if MarkerFormed(m) then Done(m) else Defect
      else Defect
  }

  lemma MarkerCodec(j: Json, m: OracleMarker)
    ensures MarkerFrom(j) == Done(m) <==> MarkerFormed(m) && j == MarkerJson(m)
  {
    if MarkerFrom(j) == Done(m) {
      assert j.fields == MarkerJson(m).fields;
    }
  }

  function ImagesJson(i: CandidateImages): Json {
    Obj(map["api" := Str(i.api), "worker" := Str(i.worker)])
  }

  function ImagesFrom(j: Json): Outcome<CandidateImages> {
    var f :- Closed(j, {"api", "worker"});
    var api :- StringField(f, "api");
    var worker :- StringField(f, "worker");
    var i := CandidateImages(api, worker);
    if ImagesFormed(i) then Done(i) else Defect
  }

  lemma ImagesCodec(j: Json, i: CandidateImages)
    ensures ImagesFrom(j) == Done(i) <==> ImagesFormed(i) && j == ImagesJson(i)
  {
    if ImagesFrom(j) == Done(i) {
      assert j.fields == ImagesJson(i).fields;
    }
  }

  // ----- ReleaseAttempt -----

  const ATTEMPT_FIELDS: set<string> :=
    {"schema_version", "source_sha", "manifest_sha256", "candidate_api_image_id", "candidate_worker_image_id",
     "predecessor_sha", "forward_fix_of", "containers", "config_path", "config_sha256", "vercel_deployment_id",
     "production_host", "phase", "backup", "failure_code", "created_at", "updated_at"}

  /** The flat fields, around the nested ones. */
  function AttemptRow(a: ReleaseAttempt, containers: Json, phase: Json, backup: Json): Fields {
    map["schema_version" := Int(a.schemaVersion), "source_sha" := Str(a.sourceSha),
        "manifest_sha256" := Str(a.manifestSha256), "candidate_api_image_id" := Str(a.candidateApiImageId),
        "candidate_worker_image_id" := Str(a.candidateWorkerImageId),
        "predecessor_sha" := Optional(a.predecessorSha), "forward_fix_of" := Optional(a.forwardFixOf),
        "containers" := containers, "config_path" := Str(a.configPath), "config_sha256" := Str(a.configSha256),
        "vercel_deployment_id" := Str(a.vercelDeploymentId), "production_host" := Str(a.productionHost),
        "phase" := phase, "backup" := backup, "failure_code" := Optional(a.failureCode),
        "created_at" := Str(a.createdAt), "updated_at" := Str(a.updatedAt)]
  }

  function AttemptFields(a: ReleaseAttempt): Fields {
    AttemptRow(a, ContainersJson(a.containers), Str(PhaseName(a.phase)), OptionalBackupJson(a.backup))
  }

  /** Which release an attempt or a record is about. */
  function SourceFrom(f: Fields): Outcome<(int, Sha, string)> {
    var schemaVersion :- IntegerField(f, "schema_version");
    var sourceSha :- StringField(f, "source_sha");
    var manifestSha256 :- StringField(f, "manifest_sha256");
    Done((schemaVersion, sourceSha, manifestSha256))
  }

  /** What the release runs, and what it replaces. */
  function AttemptLineage(f: Fields): Outcome<(string, string, Option<Sha>, Option<Sha>)> {
    var candidateApiImageId :- StringField(f, "candidate_api_image_id");
    var candidateWorkerImageId :- StringField(f, "candidate_worker_image_id");
    var predecessorSha :- OptionalField(f, "predecessor_sha");
    var forwardFixOf :- OptionalField(f, "forward_fix_of");
    Done((candidateApiImageId, candidateWorkerImageId, predecessorSha, forwardFixOf))
  }

  /** What it is bound to, and how it went. */
  function AttemptBinding(f: Fields): Outcome<(string, string, string, string, Option<string>, string, string)> {
    var configPath :- StringField(f, "config_path");
    var configSha256 :- StringField(f, "config_sha256");
    var vercelDeploymentId :- StringField(f, "vercel_deployment_id");
    var productionHost :- StringField(f, "production_host");
    var failureCode :- OptionalField(f, "failure_code");
    var createdAt :- StringField(f, "created_at");
    var updatedAt :- StringField(f, "updated_at");
    Done((configPath, configSha256, vercelDeploymentId, productionHost, failureCode, createdAt, updatedAt))
  }

  function AttemptFromRow(f: Fields, containers: map<string, ContainerEvidence>, phase: ReleasePhase,
                          backup: Option<BackupEvidence>): (r: Outcome<ReleaseAttempt>)
    ensures r.Done? ==> r.value.containers == containers && r.value.phase == phase && r.value.backup == backup
  {
    var s :- SourceFrom(f);
    var i :- AttemptLineage(f);
    var b :- AttemptBinding(f);
    Done(ReleaseAttempt(s.0, s.1, s.2, i.0, i.1, i.2, i.3, containers, b.0, b.1, b.2, b.3, phase, backup, b.4, b.5,
        b.6))
  }

  function AttemptFromFields(f: Fields): Outcome<ReleaseAttempt>
    requires f.Keys == ATTEMPT_FIELDS
  {
    var containers :- ContainersFrom(f["containers"]);
    var phase :- PhaseFrom(f["phase"]);
    var backup :- OptionalBackupFrom(f["backup"]);
    AttemptFromRow(f, containers, phase, backup)
  }

  function AttemptFrom(j: Json): Outcome<ReleaseAttempt> {
    var f :- Closed(j, ATTEMPT_FIELDS);
    var a :- AttemptFromFields(f);
    if AttemptFormed(a) then Done(a) else Defect
  }

  lemma AttemptRowForward(f: Fields, a: ReleaseAttempt)
    requires f.Keys == ATTEMPT_FIELDS && AttemptFromRow(f, a.containers, a.phase, a.backup) == Done(a)
    ensures f == AttemptRow(a, f["containers"], f["phase"], f["backup"])
  {
  }

  lemma AttemptRowKeys(a: ReleaseAttempt, containers: Json, phase: Json, backup: Json)
    ensures AttemptRow(a, containers, phase, backup).Keys == ATTEMPT_FIELDS
  {
  }

  lemma AttemptRowSource(a: ReleaseAttempt, containers: Json, phase: Json, backup: Json)
    ensures SourceFrom(AttemptRow(a, containers, phase, backup)) ==
            Done((a.schemaVersion, a.sourceSha, a.manifestSha256))
  {
  }

  lemma AttemptRowLineage(a: ReleaseAttempt, containers: Json, phase: Json, backup: Json)
    ensures AttemptLineage(AttemptRow(a, containers, phase, backup)) ==
            Done((a.candidateApiImageId, a.candidateWorkerImageId, a.predecessorSha, a.forwardFixOf))
  {
  }

  lemma AttemptRowBinding(a: ReleaseAttempt, containers: Json, phase: Json, backup: Json)
    ensures AttemptBinding(AttemptRow(a, containers, phase, backup)) ==
            Done((a.configPath, a.configSha256, a.vercelDeploymentId, a.productionHost, a.failureCode, a.createdAt,
                  a.updatedAt))
  {
  }

  lemma AttemptRowNested(a: ReleaseAttempt, containers: Json, phase: Json, backup: Json)
    ensures var f := AttemptRow(a, containers, phase, backup);
            && "containers" in f && "phase" in f && "backup" in f
            && f["containers"] == containers && f["phase"] == phase && f["backup"] == backup
  {
  }

  lemma AttemptRowBackward(a: ReleaseAttempt, containers: Json, phase: Json, backup: Json)
    ensures AttemptFromRow(AttemptRow(a, containers, phase, backup), a.containers, a.phase, a.backup) == Done(a)
  {
    AttemptRowSource(a, containers, phase, backup);
    AttemptRowLineage(a, containers, phase, backup);
    AttemptRowBinding(a, containers, phase, backup);
  }

  lemma AttemptNested(f: Fields, a: ReleaseAttempt)
    requires f.Keys == ATTEMPT_FIELDS && ContainersFormed(a.containers)
    requires a.backup.Some? ==> BackupFormed(a.backup.value)
    ensures ContainersFrom(f["containers"]) == Done(a.containers) <==> f["containers"] == ContainersJson(a.containers)
    ensures PhaseFrom(f["phase"]) == Done(a.phase) <==> f["phase"] == Str(PhaseName(a.phase))
    ensures OptionalBackupFrom(f["backup"]) == Done(a.backup) <==> f["backup"] == OptionalBackupJson(a.backup)
  {
    ContainersCodec(f["containers"], a.containers);
    OptionalBackupCodec(f["backup"], a.backup);
  }

  lemma AttemptParts(f: Fields, a: ReleaseAttempt)
    requires f.Keys == ATTEMPT_FIELDS && AttemptFromFields(f) == Done(a)
    ensures ContainersFrom(f["containers"]) == Done(a.containers) && PhaseFrom(f["phase"]) == Done(a.phase)
    ensures OptionalBackupFrom(f["backup"]) == Done(a.backup)
    ensures AttemptFromRow(f, a.containers, a.phase, a.backup) == Done(a)
  {
  }

  lemma AttemptForward(j: Json, a: ReleaseAttempt)
    requires AttemptFrom(j) == Done(a)
    ensures AttemptFormed(a) && j == Obj(AttemptFields(a))
  {
    AttemptParts(j.fields, a);
    AttemptRowForward(j.fields, a);
    AttemptNested(j.fields, a);
  }

  lemma AttemptFieldsBackward(a: ReleaseAttempt)
    requires AttemptFormed(a)
    ensures AttemptFields(a).Keys == ATTEMPT_FIELDS && AttemptFromFields(AttemptFields(a)) == Done(a)
  {
    AttemptRowKeys(a, ContainersJson(a.containers), Str(PhaseName(a.phase)), OptionalBackupJson(a.backup));
    AttemptRowNested(a, ContainersJson(a.containers), Str(PhaseName(a.phase)), OptionalBackupJson(a.backup));
    AttemptRowBackward(a, ContainersJson(a.containers), Str(PhaseName(a.phase)), OptionalBackupJson(a.backup));
    AttemptNested(AttemptFields(a), a);
  }

  lemma AttemptBackward(a: ReleaseAttempt)
    requires AttemptFormed(a)
    ensures AttemptFrom(Obj(AttemptFields(a))) == Done(a)
  {
    AttemptFieldsBackward(a);
  }

  /** `from_json` accepts exactly the `as_json` form of each well-formed value, and returns that value. */
  lemma AttemptCodec(j: Json, a: ReleaseAttempt)
    ensures AttemptFrom(j) == Done(a) <==> AttemptFormed(a) && j == Obj(AttemptFields(a))
  {
    if AttemptFrom(j) == Done(a) {
      AttemptForward(j, a);
    }
    if AttemptFormed(a) {
      AttemptBackward(a);
    }
  }

  // ----- ReleaseRecord -----

  const RECORD_FIELDS: set<string> :=
    {"schema_version", "source_sha", "manifest_sha256", "api_image", "worker_image", "api_image_id",
     "worker_image_id", "predecessor_sha", "config_path", "config_sha256", "database_revision",
     "expected_oracle_manifest_digest", "vercel_deployment_id", "production_host", "verified_at"}

  function RecordFields(r: ReleaseRecord): Fields {
    map["schema_version" := Int(r.schemaVersion), "source_sha" := Str(r.sourceSha),
        "manifest_sha256" := Str(r.manifestSha256), "api_image" := Str(r.apiImage),
        "worker_image" := Str(r.workerImage), "api_image_id" := Str(r.apiImageId),
        "worker_image_id" := Str(r.workerImageId), "predecessor_sha" := Optional(r.predecessorSha),
        "config_path" := Str(r.configPath), "config_sha256" := Str(r.configSha256),
        "database_revision" := Str(r.databaseRevision),
        "expected_oracle_manifest_digest" := Str(r.expectedOracleManifestDigest),
        "vercel_deployment_id" := Str(r.vercelDeploymentId), "production_host" := Str(r.productionHost),
        "verified_at" := Str(r.verifiedAt)]
  }

  /** Its images and its predecessor. */
  function RecordRelease(f: Fields): Outcome<(string, string, string, string, Option<Sha>)> {
    var apiImage :- StringField(f, "api_image");
    var workerImage :- StringField(f, "worker_image");
    var apiImageId :- StringField(f, "api_image_id");
    var workerImageId :- StringField(f, "worker_image_id");
    var predecessorSha :- OptionalField(f, "predecessor_sha");
    Done((apiImage, workerImage, apiImageId, workerImageId, predecessorSha))
  }

  /** The vector it was published with. */
  function RecordVector(f: Fields): Outcome<(string, string, Revision, Digest, string, string, string)> {
    var configPath :- StringField(f, "config_path");
    var configSha256 :- StringField(f, "config_sha256");
    var databaseRevision :- StringField(f, "database_revision");
    var expectedOracleManifestDigest :- StringField(f, "expected_oracle_manifest_digest");
    var vercelDeploymentId :- StringField(f, "vercel_deployment_id");
    var productionHost :- StringField(f, "production_host");
    var verifiedAt :- StringField(f, "verified_at");
    Done((configPath, configSha256, databaseRevision, expectedOracleManifestDigest, vercelDeploymentId, productionHost,
          verifiedAt))
  }

  function RecordFromRow(f: Fields): Outcome<ReleaseRecord> {
    var s :- SourceFrom(f);
    var i :- RecordRelease(f);
    var v :- RecordVector(f);
    Done(ReleaseRecord(s.0, s.1, s.2, i.0, i.1, i.2, i.3, i.4, v.0, v.1, v.2, v.3, v.4, v.5, v.6))
  }

  function RecordFrom(j: Json): Outcome<ReleaseRecord> {
    var f :- Closed(j, RECORD_FIELDS);
    var r :- RecordFromRow(f);
    if RecordFormed(r) then Done(r) else Defect
  }

  lemma RecordRowForward(f: Fields, r: ReleaseRecord)
    requires f.Keys == RECORD_FIELDS && RecordFromRow(f) == Done(r)
    ensures f == RecordFields(r)
  {
  }

  lemma RecordRowKeys(r: ReleaseRecord)
    ensures RecordFields(r).Keys == RECORD_FIELDS
  {
  }

  lemma RecordRowSource(r: ReleaseRecord)
    ensures SourceFrom(RecordFields(r)) == Done((r.schemaVersion, r.sourceSha, r.manifestSha256))
  {
  }

  lemma RecordRowRelease(r: ReleaseRecord)
    ensures RecordRelease(RecordFields(r)) ==
            Done((r.apiImage, r.workerImage, r.apiImageId, r.workerImageId, r.predecessorSha))
  {
  }

  lemma RecordRowVector(r: ReleaseRecord)
    ensures RecordVector(RecordFields(r)) ==
            Done((r.configPath, r.configSha256, r.databaseRevision, r.expectedOracleManifestDigest,
                  r.vercelDeploymentId, r.productionHost, r.verifiedAt))
  {
  }

  lemma RecordRowBackward(r: ReleaseRecord)
    ensures RecordFromRow(RecordFields(r)) == Done(r)
  {
    RecordRowSource(r);
    RecordRowRelease(r);
    RecordRowVector(r);
  }

  lemma RecordForward(j: Json, r: ReleaseRecord)
    requires RecordFrom(j) == Done(r)
    ensures RecordFormed(r) && j == Obj(RecordFields(r))
  {
    RecordRowForward(j.fields, r);
  }

  lemma RecordBackward(r: ReleaseRecord)
    requires RecordFormed(r)
    ensures RecordFrom(Obj(RecordFields(r))) == Done(r)
  {
    RecordRowKeys(r);
    RecordRowBackward(r);
  }

  /** `from_json` accepts exactly the `as_json` form of each well-formed value, and returns that value. */
  lemma RecordCodec(j: Json, r: ReleaseRecord)
    ensures RecordFrom(j) == Done(r) <==> RecordFormed(r) && j == Obj(RecordFields(r))
  {
    if RecordFrom(j) == Done(r) {
      RecordForward(j, r);
    }
    if RecordFormed(r) {
      RecordBackward(r);
    }
  }

  // ----- OracleAttempt -----

  const ORACLE_ATTEMPT_FIELDS: set<string> :=
    {"schema_version", "source_sha", "expected_manifest_digest", "config_path", "config_sha256", "prior_marker",
     "containers", "phase", "created_at", "updated_at"}

  function OracleAttemptRow(o: OracleAttempt, marker: Json, containers: Json, phase: Json): Fields {
    map["schema_version" := Int(o.schemaVersion), "source_sha" := Str(o.sourceSha),
        "expected_manifest_digest" := Str(o.expectedManifestDigest), "config_path" := Str(o.configPath),
        "config_sha256" := Str(o.configSha256), "prior_marker" := marker, "containers" := containers,
        "phase" := phase, "created_at" := Str(o.createdAt), "updated_at" := Str(o.updatedAt)]
  }

  function OracleAttemptFields(o: OracleAttempt): Fields {
    OracleAttemptRow(o, MarkerJson(o.priorMarker), ContainersJson(o.containers), Str(OraclePhaseName(o.phase)))
  }

  function OracleAttemptFromRow(f: Fields, marker: OracleMarker, containers: map<string, ContainerEvidence>,
                                phase: OraclePhase): (r: Outcome<OracleAttempt>)
    ensures r.Done? ==> r.value.priorMarker == marker && r.value.containers == containers && r.value.phase == phase
  {
    var schemaVersion :- IntegerField(f, "schema_version");
    var sourceSha :- StringField(f, "source_sha");
    var expectedManifestDigest :- StringField(f, "expected_manifest_digest");
    var configPath :- StringField(f, "config_path");
    var configSha256 :- StringField(f, "config_sha256");
    var createdAt :- StringField(f, "created_at");
    var updatedAt :- StringField(f, "updated_at");
    Done(OracleAttempt(schemaVersion, sourceSha, expectedManifestDigest, configPath, configSha256, marker,
                       containers, phase, createdAt, updatedAt))
  }

  function OracleAttemptFrom(j: Json): Outcome<OracleAttempt> {
    var f :- Closed(j, ORACLE_ATTEMPT_FIELDS);
    var marker :- MarkerFrom(f["prior_marker"]);
    var containers :- ContainersFrom(f["containers"]);
    var phase :- OraclePhaseFrom(f["phase"]);
    var o :- OracleAttemptFromRow(f, marker, containers, phase);
    if OracleAttemptFormed(o) then Done(o) else Defect
  }

  lemma OracleRowForward(f: Fields, o: OracleAttempt)
    requires f.Keys == ORACLE_ATTEMPT_FIELDS
    requires OracleAttemptFromRow(f, o.priorMarker, o.containers, o.phase) == Done(o)
    ensures f == OracleAttemptRow(o, f["prior_marker"], f["containers"], f["phase"])
  {
  }

  lemma OracleRowBackward(o: OracleAttempt, marker: Json, containers: Json, phase: Json)
    ensures var f := OracleAttemptRow(o, marker, containers, phase);
            && f.Keys == ORACLE_ATTEMPT_FIELDS
            && OracleAttemptFromRow(f, o.priorMarker, o.containers, o.phase) == Done(o)
            && f["prior_marker"] == marker && f["containers"] == containers && f["phase"] == phase
  {
  }

  lemma OracleNested(f: Fields, o: OracleAttempt)
    requires f.Keys == ORACLE_ATTEMPT_FIELDS && MarkerFormed(o.priorMarker) && ContainersFormed(o.containers)
    ensures MarkerFrom(f["prior_marker"]) == Done(o.priorMarker) <==> f["prior_marker"] == MarkerJson(o.priorMarker)
    ensures ContainersFrom(f["containers"]) == Done(o.containers) <==> f["containers"] == ContainersJson(o.containers)
    ensures OraclePhaseFrom(f["phase"]) == Done(o.phase) <==> f["phase"] == Str(OraclePhaseName(o.phase))
  {
    MarkerCodec(f["prior_marker"], o.priorMarker);
    ContainersCodec(f["containers"], o.containers);
  }

  lemma OracleParts(j: Json, o: OracleAttempt)
    requires OracleAttemptFrom(j) == Done(o)
    ensures OracleAttemptFormed(o) && j.Obj? && j.fields.Keys == ORACLE_ATTEMPT_FIELDS
    ensures var f := j.fields;
            && MarkerFrom(f["prior_marker"]) == Done(o.priorMarker)
            && ContainersFrom(f["containers"]) == Done(o.containers)
            && OraclePhaseFrom(f["phase"]) == Done(o.phase)
            && OracleAttemptFromRow(f, o.priorMarker, o.containers, o.phase) == Done(o)
  {
  }

  lemma OracleAttemptForward(j: Json, o: OracleAttempt)
    requires OracleAttemptFrom(j) == Done(o)
    ensures OracleAttemptFormed(o) && j == Obj(OracleAttemptFields(o))
  {
    OracleParts(j, o);
    OracleRowForward(j.fields, o);
    OracleNested(j.fields, o);
  }

  lemma OracleAttemptBackward(o: OracleAttempt)
    requires OracleAttemptFormed(o)
    ensures OracleAttemptFrom(Obj(OracleAttemptFields(o))) == Done(o)
  {
    OracleRowBackward(o, MarkerJson(o.priorMarker), ContainersJson(o.containers), Str(OraclePhaseName(o.phase)));
    OracleNested(OracleAttemptFields(o), o);
  }

  /** `from_json` accepts exactly the `as_json` form of each well-formed value, and returns that value. */
  lemma OracleAttemptCodec(j: Json, o: OracleAttempt)
    ensures OracleAttemptFrom(j) == Done(o) <==> OracleAttemptFormed(o) && j == Obj(OracleAttemptFields(o))
  {
    if OracleAttemptFrom(j) == Done(o) {
      OracleAttemptForward(j, o);
    }
    if OracleAttemptFormed(o) {
      OracleAttemptBackward(o);
    }
  }

  // ----- OracleRepairBinding -----

  const REPAIR_FIELDS: set<string> :=
    {"schema_version", "target_source_sha", "target_manifest_digest", "expected_database_revision",
     "repair_source_sha", "repair_manifest_sha256", "repair_api_image", "repair_worker_image", "repair_api_image_id",
     "repair_worker_image_id", "created_at"}

  function RepairFields(b: OracleRepairBinding): Fields {
    map["schema_version" := Int(b.schemaVersion), "target_source_sha" := Str(b.targetSourceSha),
        "target_manifest_digest" := Str(b.targetManifestDigest),
        "expected_database_revision" := Str(b.expectedDatabaseRevision),
        "repair_source_sha" := Str(b.repairSourceSha), "repair_manifest_sha256" := Str(b.repairManifestSha256),
        "repair_api_image" := Str(b.repairApiImage), "repair_worker_image" := Str(b.repairWorkerImage),
        "repair_api_image_id" := Str(b.repairApiImageId), "repair_worker_image_id" := Str(b.repairWorkerImageId),
        "created_at" := Str(b.createdAt)]
  }

  function RepairFromRow(f: Fields): Outcome<OracleRepairBinding>
  {
    var schemaVersion :- IntegerField(f, "schema_version");
    var targetSourceSha :- StringField(f, "target_source_sha");
    var targetManifestDigest :- StringField(f, "target_manifest_digest");
    var expectedDatabaseRevision :- StringField(f, "expected_database_revision");
    var repairSourceSha :- StringField(f, "repair_source_sha");
    var repairManifestSha256 :- StringField(f, "repair_manifest_sha256");
    var repairApiImage :- StringField(f, "repair_api_image");
    var repairWorkerImage :- StringField(f, "repair_worker_image");
    var repairApiImageId :- StringField(f, "repair_api_image_id");
    var repairWorkerImageId :- StringField(f, "repair_worker_image_id");
    var createdAt :- StringField(f, "created_at");
    Done(OracleRepairBinding(schemaVersion, targetSourceSha, targetManifestDigest, expectedDatabaseRevision,
                           repairSourceSha, repairManifestSha256, repairApiImage, repairWorkerImage, repairApiImageId,
                           repairWorkerImageId, createdAt))
  }

  function RepairFrom(j: Json): Outcome<OracleRepairBinding> {
    var f :- Closed(j, REPAIR_FIELDS);
    var b :- RepairFromRow(f);
    if RepairFormed(b) then Done(b) else Defect
  }

  lemma RepairForward(j: Json, b: OracleRepairBinding)
    requires RepairFrom(j) == Done(b)
    ensures RepairFormed(b) && j == Obj(RepairFields(b))
  {
    RepairRowForward(j.fields, b);
  }

  lemma RepairRowForward(f: Fields, b: OracleRepairBinding)
    requires f.Keys == REPAIR_FIELDS && RepairFromRow(f) == Done(b)
    ensures f == RepairFields(b)
  {
  }

  lemma RepairRowBackward(b: OracleRepairBinding)
    ensures RepairFields(b).Keys == REPAIR_FIELDS && RepairFromRow(RepairFields(b)) == Done(b)
  {
  }

  lemma RepairBackward(b: OracleRepairBinding)
    requires RepairFormed(b)
    ensures RepairFrom(Obj(RepairFields(b))) == Done(b)
  {
    RepairRowBackward(b);
  }

  /** `from_json` accepts exactly the `as_json` form of each well-formed value, and returns that value. */
  lemma RepairCodec(j: Json, b: OracleRepairBinding)
    ensures RepairFrom(j) == Done(b) <==> RepairFormed(b) && j == Obj(RepairFields(b))
  {
    if RepairFrom(j) == Done(b) {
      RepairForward(j, b);
    }
    if RepairFormed(b) {
      RepairBackward(b);
    }
  }

  // ----- CandidateManifest -----

  const MANIFEST_FIELDS: set<string> :=
    {"schema_version", "source_sha", "repository", "source_ci_run_id", "source_ci_run_attempt",
     "source_ci_workflow_id", "publisher_run_id", "publisher_run_attempt", "images", "expected_database_revision",
     "expected_oracle_manifest_digest"}

  function ManifestFields(m: CandidateManifest): Fields {
    map["schema_version" := Int(m.schemaVersion), "source_sha" := Str(m.sourceSha), "repository" := Str(m.repository),
        "source_ci_run_id" := Int(m.sourceCiRunId), "source_ci_run_attempt" := Int(m.sourceCiRunAttempt),
        "source_ci_workflow_id" := Int(m.sourceCiWorkflowId), "publisher_run_id" := Int(m.publisherRunId),
        "publisher_run_attempt" := Int(m.publisherRunAttempt), "images" := ImagesJson(m.images),
        "expected_database_revision" := Str(m.expectedDatabaseRevision),
        "expected_oracle_manifest_digest" := Str(m.expectedOracleManifestDigest)]
  }

  function ManifestFromRow(f: Fields, images: CandidateImages): (r: Outcome<CandidateManifest>)
    ensures r.Done? ==> r.value.images == images
  {
    var schemaVersion :- IntegerField(f, "schema_version");
    var sourceSha :- StringField(f, "source_sha");
    var repository :- StringField(f, "repository");
    var sourceCiRunId :- IntegerField(f, "source_ci_run_id");
    var sourceCiRunAttempt :- IntegerField(f, "source_ci_run_attempt");
    var sourceCiWorkflowId :- IntegerField(f, "source_ci_workflow_id");
    var publisherRunId :- IntegerField(f, "publisher_run_id");
    var publisherRunAttempt :- IntegerField(f, "publisher_run_attempt");
    var expectedDatabaseRevision :- StringField(f, "expected_database_revision");
    var expectedOracleManifestDigest :- StringField(f, "expected_oracle_manifest_digest");
    Done(CandidateManifest(schemaVersion, sourceSha, repository, sourceCiRunId, sourceCiRunAttempt,
                         sourceCiWorkflowId, publisherRunId, publisherRunAttempt, images, expectedDatabaseRevision,
                         expectedOracleManifestDigest))
  }

  function ManifestFrom(j: Json): Outcome<CandidateManifest> {
    var f :- Closed(j, MANIFEST_FIELDS);
    var images :- ImagesFrom(f["images"]);
    var m :- ManifestFromRow(f, images);
    if ManifestFormed(m) then Done(m) else Defect
  }

  lemma ManifestRowForward(f: Fields, m: CandidateManifest)
    requires f.Keys == MANIFEST_FIELDS && ManifestFromRow(f, m.images) == Done(m)
    requires f["images"] == ImagesJson(m.images)
    ensures f == ManifestFields(m)
  {
  }

  lemma ManifestRowKeys(m: CandidateManifest)
    ensures ManifestFields(m).Keys == MANIFEST_FIELDS
  {
  }

  lemma ManifestRowBackward(m: CandidateManifest)
    ensures ManifestFromRow(ManifestFields(m), m.images) == Done(m)
    ensures "images" in ManifestFields(m) && ManifestFields(m)["images"] == ImagesJson(m.images)
  {
  }

  lemma ManifestForward(j: Json, m: CandidateManifest)
    requires ManifestFrom(j) == Done(m)
    ensures ManifestFormed(m) && j == Obj(ManifestFields(m))
  {
    ImagesCodec(j.fields["images"], m.images);
    ManifestRowForward(j.fields, m);
  }

  lemma ManifestBackward(m: CandidateManifest)
    requires ManifestFormed(m)
    ensures ManifestFrom(Obj(ManifestFields(m))) == Done(m)
  {
    ManifestRowKeys(m);
    ManifestRowBackward(m);
    ImagesCodec(ImagesJson(m.images), m.images);
  }

  /** `from_json` accepts exactly the `as_json` form of each well-formed value, and returns that value. */
  lemma ManifestCodec(j: Json, m: CandidateManifest)
    ensures ManifestFrom(j) == Done(m) <==> ManifestFormed(m) && j == Obj(ManifestFields(m))
  {
    if ManifestFrom(j) == Done(m) {
      ManifestForward(j, m);
    }
    if ManifestFormed(m) {
      ManifestBackward(m);
    }
  }
}
