/** The texts that the constructors of durable values let through. */
module Patterns {
  import opened Outcomes
  import opened Ordering
  import opened Model

  // ----- Characters -----

  predicate Digit(c: char) {
    '0' <= c <= '9'
  }

  predicate Lower(c: char) {
    'a' <= c <= 'z'
  }

  predicate Letter(c: char) {
    Lower(c) || 'A' <= c <= 'Z'
  }

  predicate Hex(c: char) {
    Digit(c) || 'a' <= c <= 'f'
  }

  /** What `\s` matches. */
  predicate Space(c: char) {
    var code := c as int;
    || 0x09 <= code <= 0x0d || 0x1c <= code <= 0x20 || code == 0x85 || code == 0xa0 || code == 0x1680
    || 0x2000 <= code <= 0x200a || code == 0x2028 || code == 0x2029 || code == 0x202f
    || code == 0x205f || code == 0x3000
  }

  /** The zeros of the decimal digits of Unicode 15; the nine others follow each of them. */
  const ZEROS: set<int> :=
    {0x30, 0x660, 0x6f0, 0x7c0, 0x966, 0x9e6, 0xa66, 0xae6, 0xb66, 0xbe6, 0xc66, 0xce6, 0xd66, 0xde6, 0xe50, 0xed0,
     0xf20, 0x1040, 0x1090, 0x17e0, 0x1810, 0x1946, 0x19d0, 0x1a80, 0x1a90, 0x1b50, 0x1bb0, 0x1c40, 0x1c50, 0xa620,
     0xa8d0, 0xa900, 0xa9d0, 0xa9f0, 0xaa50, 0xabf0, 0xff10, 0x104a0, 0x10d30, 0x11066, 0x110f0, 0x11136, 0x111d0,
     0x112f0, 0x11450, 0x114d0, 0x11650, 0x116c0, 0x11730, 0x118e0, 0x11950, 0x11c50, 0x11d50, 0x11da0, 0x11f50,
     0x16a60, 0x16ac0, 0x16b50, 0x1d7ce, 0x1d7d8, 0x1d7e2, 0x1d7ec, 0x1d7f6, 0x1e140, 0x1e2f0, 0x1e4f0, 0x1e950,
     0x1fbf0}

  /** What `\d` matches. */
  predicate Decimal(c: char) {
    exists zero :: zero in ZEROS && zero <= c as int <= zero + 9
  }

  predicate All(s: string, p: char -> bool) {
    s == "" || (p(s[0]) && All(s[1..], p))
  }

  // ----- Names and digests -----

  predicate IsSha(s: string) {
    |s| == 40 && All(s, Hex)
  }

  predicate IsSha256(s: string) {
    |s| == 64 && All(s, Hex)
  }

  /** A digest after a fixed start. */
  predicate Pinned(s: string, start: string) {
    |start| <= |s| && s[..|start|] == start && IsSha256(s[|start|..])
  }

  /** Image ids and Oracle digests. */
  predicate IsDigest(s: string) {
    Pinned(s, "sha256:")
  }

  const PINNED_LENGTH: nat := 72

  predicate IsImageReference(s: string) {
    |s| > PINNED_LENGTH && All(s[..|s| - PINNED_LENGTH], c => !Space(c) && c != '@')
    && Pinned(s[|s| - PINNED_LENGTH..], "@sha256:")
  }

  predicate IsContainerId(s: string) {
    12 <= |s| <= 64 && All(s, Hex)
  }

  predicate IsRevision(s: string) {
    1 <= |s| <= 64 && s[0] != '_' && All(s, c => Digit(c) || Lower(c) || c == '_')
  }

  predicate IsDeployment(s: string) {
    |s| > 4 && s[..4] == "dpl_" && All(s[4..], c => Digit(c) || Letter(c))
  }

  /** The name of an embedding provider or model. */
  predicate IsName(s: string) {
    1 <= |s| <= 128 && (Digit(s[0]) || Letter(s[0]))
    && All(s, c => Digit(c) || Letter(c) || c in {'.', '_', ':', '/', '-'})
  }

  predicate IsFailureCode(s: string) {
    1 <= |s| <= 64 && Lower(s[0]) && All(s, c => Digit(c) || Lower(c) || c == '-')
  }

  // ----- Hosts, paths and times -----

  /** The parts between the separators. */
  function Parts(s: string, separator: char): (parts: seq<string>)
    ensures |parts| >= 1
  {
    if s == "" then [""]
    else
      var parts := Parts(s[1..], separator);
      if s[0] == separator then [""] + parts else [[s[0]] + parts[0]] + parts[1..]
  }

  predicate IsLabel(s: string) {
    1 <= |s| <= 63 && s[0] != '-' && s[|s| - 1] != '-' && All(s, c => Digit(c) || Lower(c) || c == '-')
  }

  predicate IsHost(s: string) {
    |s| <= 253 && |Parts(s, '.')| >= 2 && forall part :: part in Parts(s, '.') ==> IsLabel(part)
  }

  predicate IsAbsolute(path: string) {
    path != "" && path[0] == '/'
  }

  /** The last part of a path that names something. */
  function LastName(parts: seq<string>): string {
    if parts == [] then ""
    else if parts[|parts| - 1] == "" || parts[|parts| - 1] == "." then LastName(parts[..|parts| - 1])
    else parts[|parts| - 1]
  }

  /** A captured Oracle config file is named after its digest. */
  predicate IsContentAddressed(path: string, sha256: string) {
    IsAbsolute(path) && LastName(Parts(path, '/')) == sha256 + ".env"
  }

  const TIMESTAMP: string := "dddd-dd-ddTdd:dd:ddZ"

  predicate IsTimestamp(s: string) {
    |s| == |TIMESTAMP| &&
    forall i :: 0 <= i < |s| ==> if TIMESTAMP[i] == 'd' then Decimal(s[i]) else s[i] == TIMESTAMP[i]
  }

  // ----- What the constructors accept -----

  predicate ContainerFormed(c: ContainerEvidence) {
    && IsContainerId(c.containerId) && (IsDigest(c.image) || IsImageReference(c.image)) && IsSha256(c.configSha256)
  }

  predicate ContainersFormed(m: map<string, ContainerEvidence>) {
    forall s :: s in m ==> ContainerFormed(m[s])
  }

  predicate MarkerFormed(m: OracleMarker) {
    m.Present? ==> IsDigest(m.manifestDigest) && IsName(m.embeddingProvider) && IsName(m.embeddingModel)
  }

  predicate BackupFormed(b: BackupEvidence) {
    b.Valid() && IsAbsolute(b.path) && IsSha256(b.sha256) && IsRevision(b.startingRevision)
  }

  predicate OptionalSha(x: Option<Sha>) {
    x.Some? ==> IsSha(x.value)
  }

  predicate AttemptFormed(a: ReleaseAttempt) {
    && a.Valid() && IsSha(a.sourceSha) && IsSha256(a.manifestSha256)
    && IsDigest(a.candidateApiImageId) && IsDigest(a.candidateWorkerImageId)
    && OptionalSha(a.predecessorSha) && OptionalSha(a.forwardFixOf) && ContainersFormed(a.containers)
    && IsAbsolute(a.configPath) && IsSha256(a.configSha256)
    && IsDeployment(a.vercelDeploymentId) && IsHost(a.productionHost)
    && (a.backup.Some? ==> BackupFormed(a.backup.value)) && (a.failureCode.Some? ==> IsFailureCode(a.failureCode.value))
    && IsTimestamp(a.createdAt) && IsTimestamp(a.updatedAt)
  }

  /** `advance` with its checks of the texts: it accepts exactly a successor phase, a failure code and a backup that fit
      it, and a code and a time that are well-formed, the time not before the creation. */
  lemma AdvanceFormed(a: ReleaseAttempt, next: ReleasePhase, now: string, code: Option<string>)
    requires AttemptFormed(a)
    ensures var b := a.Advance(next, now, code);
            (b.Done? && AttemptFormed(b.value)) <==>
            && next in a.phase.Successors() && next.Failed() == code.Some? && !(next.BackupVerified? && a.backup.None?)
            && IsTimestamp(now) && !Less(now, a.createdAt) && (code.Some? ==> IsFailureCode(code.value))
  {
    if !Less(now, a.createdAt) {
      AdvanceAccepts(a, next, now, code);
    }
  }

  predicate RecordFormed(r: ReleaseRecord) {
    && r.Valid() && IsSha(r.sourceSha) && IsSha256(r.manifestSha256)
    && IsImageReference(r.apiImage) && IsImageReference(r.workerImage)
    && IsDigest(r.apiImageId) && IsDigest(r.workerImageId) && OptionalSha(r.predecessorSha)
    && IsAbsolute(r.configPath) && IsSha256(r.configSha256)
    && IsRevision(r.databaseRevision) && IsDigest(r.expectedOracleManifestDigest)
    && IsDeployment(r.vercelDeploymentId) && IsHost(r.productionHost) && IsTimestamp(r.verifiedAt)
  }

  predicate OracleAttemptFormed(o: OracleAttempt) {
    && o.Valid() && IsSha(o.sourceSha) && IsDigest(o.expectedManifestDigest)
    && IsContentAddressed(o.configPath, o.configSha256) && IsSha256(o.configSha256)
    && MarkerFormed(o.priorMarker) && ContainersFormed(o.containers)
    && IsTimestamp(o.createdAt) && IsTimestamp(o.updatedAt)
  }

  predicate RepairFormed(b: OracleRepairBinding) {
    && b.Valid() && IsSha(b.targetSourceSha) && IsDigest(b.targetManifestDigest)
    && IsRevision(b.expectedDatabaseRevision) && IsSha(b.repairSourceSha) && IsSha256(b.repairManifestSha256)
    && IsImageReference(b.repairApiImage) && IsImageReference(b.repairWorkerImage)
    && IsDigest(b.repairApiImageId) && IsDigest(b.repairWorkerImageId) && IsTimestamp(b.createdAt)
  }

  predicate ImagesFormed(i: CandidateImages) {
    Pinned(i.api, "ghcr.io/nielsdawheelz/nexus-api@sha256:")
    && Pinned(i.worker, "ghcr.io/nielsdawheelz/nexus-worker@sha256:")
  }

  predicate ManifestFormed(m: CandidateManifest) {
    && m.Valid() && IsSha(m.sourceSha) && ImagesFormed(m.images)
    && IsRevision(m.expectedDatabaseRevision) && IsDigest(m.expectedOracleManifestDigest)
  }
}
