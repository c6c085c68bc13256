/** The files of the store: canonical text of closed JSON, one file per value, written so that crashes do no harm. */
module Files {
  import opened Outcomes
  import opened Model
  import opened Json
  import opened Patterns
  import opened Codecs
  import opened Durability

  // ----- Texts -----

  function AttemptText(a: ReleaseAttempt): string {
    Canonical(Obj(AttemptFields(a)))
  }

  function ReadAttempt(text: string): Option<ReleaseAttempt> {
    var j := ReadCanonical(text);
    if j.Done? && AttemptFrom(j.value).Done? then Some(AttemptFrom(j.value).value) else None
  }

  function RecordText(r: ReleaseRecord): string {
    Canonical(Obj(RecordFields(r)))
  }

  function ReadRecord(text: string): Option<ReleaseRecord> {
    var j := ReadCanonical(text);
    if j.Done? && RecordFrom(j.value).Done? then Some(RecordFrom(j.value).value) else None
  }

  function OracleAttemptText(o: OracleAttempt): string {
    Canonical(Obj(OracleAttemptFields(o)))
  }

  function ReadOracleAttempt(text: string): Option<OracleAttempt> {
    var j := ReadCanonical(text);
    if j.Done? && OracleAttemptFrom(j.value).Done? then Some(OracleAttemptFrom(j.value).value) else None
  }

  function RepairText(b: OracleRepairBinding): string {
    Canonical(Obj(RepairFields(b)))
  }

  function ReadRepair(text: string): Option<OracleRepairBinding> {
    var j := ReadCanonical(text);
    if j.Done? && RepairFrom(j.value).Done? then Some(RepairFrom(j.value).value) else None
  }

  function ManifestText(m: CandidateManifest): string {
    Canonical(Obj(ManifestFields(m)))
  }

  /** `load_candidate_manifest` compares the bytes with the form of the manifest it built, not of what it parsed. */
  function ReadManifest(text: string): Option<CandidateManifest> {
    var j := Parse(text);
    if j.None? || !ManifestFrom(j.value).Done? then None
    else if text == ManifestText(ManifestFrom(j.value).value) then Some(ManifestFrom(j.value).value)
    else None
  }

  /** Each well-formed attempt has one text, and it is the only one that reads as that attempt. */
  lemma AttemptTextIsUnique(text: string, a: ReleaseAttempt)
    ensures ReadAttempt(text) == Some(a) <==> AttemptFormed(a) && text == AttemptText(a)
  {
    var j := ReadCanonical(text);
    if j.Done? {
      CanonicalGate(text, j.value);
      AttemptCodec(j.value, a);
    }
    CanonicalGate(text, Obj(AttemptFields(a)));
    AttemptCodec(Obj(AttemptFields(a)), a);
  }

  lemma RecordTextIsUnique(text: string, r: ReleaseRecord)
    ensures ReadRecord(text) == Some(r) <==> RecordFormed(r) && text == RecordText(r)
  {
    var j := ReadCanonical(text);
    if j.Done? {
      CanonicalGate(text, j.value);
      RecordCodec(j.value, r);
    }
    CanonicalGate(text, Obj(RecordFields(r)));
    RecordCodec(Obj(RecordFields(r)), r);
  }

  lemma OracleAttemptTextIsUnique(text: string, o: OracleAttempt)
    ensures ReadOracleAttempt(text) == Some(o) <==> OracleAttemptFormed(o) && text == OracleAttemptText(o)
  {
    var j := ReadCanonical(text);
    if j.Done? {
      CanonicalGate(text, j.value);
      OracleAttemptCodec(j.value, o);
    }
    CanonicalGate(text, Obj(OracleAttemptFields(o)));
    OracleAttemptCodec(Obj(OracleAttemptFields(o)), o);
  }

  lemma RepairTextIsUnique(text: string, b: OracleRepairBinding)
    ensures ReadRepair(text) == Some(b) <==> RepairFormed(b) && text == RepairText(b)
  {
    var j := ReadCanonical(text);
    if j.Done? {
      CanonicalGate(text, j.value);
      RepairCodec(j.value, b);
    }
    CanonicalGate(text, Obj(RepairFields(b)));
    RepairCodec(Obj(RepairFields(b)), b);
  }

  lemma ManifestTextIsUnique(text: string, m: CandidateManifest)
    ensures ReadManifest(text) == Some(m) <==> ManifestFormed(m) && text == ManifestText(m)
  {
    var j := Parse(text);
    if j.Some? {
      ManifestCodec(j.value, m);
    }
    ParseCanonical(Obj(ManifestFields(m)));
    ManifestCodec(Obj(ManifestFields(m)), m);
  }

  // ----- Names -----

  function FileName(x: Sha): string {
    x + ".json"
  }

  function AttemptFileName(a: ReleaseAttempt): string {
    FileName(a.sourceSha)
  }

  function RecordFileName(r: ReleaseRecord): string {
    FileName(r.sourceSha)
  }

  /** `target_name`: the release and the bare digest of its corpus manifest. */
  function TargetName(k: OracleKey): string {
    FileName(k.source + "-" + if StartsWith(k.digest, "sha256:") then k.digest[|"sha256:"|..] else k.digest)
  }

  function OracleAttemptFileName(o: OracleAttempt): string {
    TargetName(o.Key())
  }

  function RepairFileName(b: OracleRepairBinding): string {
    TargetName(b.Key())
  }

  /** A file that is named after a release is no leftover. */
  lemma NoLeftover(x: Sha, rest: string)
    requires IsSha(x)
    ensures !Leftover(x + rest)
  {
    var name := x + rest;
    assert Hex(x[0]) && name[..1][0] == x[0];
  }

  lemma NameIsNoLeftover(x: Sha)
    requires IsSha(x)
    ensures !Leftover(FileName(x))
  {
    NoLeftover(x, ".json");
  }

  lemma TargetIsNoLeftover(k: OracleKey)
    requires IsSha(k.source)
    ensures !Leftover(TargetName(k))
  {
    var digest := if StartsWith(k.digest, "sha256:") then k.digest[|"sha256:"|..] else k.digest;
    assert TargetName(k) == k.source + ("-" + digest + ".json");
    NoLeftover(k.source, "-" + digest + ".json");
  }

  // ----- Scans: what a directory stands for is what is read, whatever interrupted writes have left lying around -----

  /** `attempts`. */
  method LoadAttempts(d: Directory, ghost content: map<string, ReleaseAttempt>)
    returns (r: Outcome<map<string, ReleaseAttempt>>)
    requires d.disk.Sound() && Represents(d.disk.Visible(), content, AttemptText)
    requires forall n :: n in content ==> AttemptFormed(content[n]) && AttemptFileName(content[n]) == n
    ensures r == Done(content)
  {
    forall n | n in content ensures ReadAttempt(AttemptText(content[n])) == Some(content[n]) {
      AttemptTextIsUnique(AttemptText(content[n]), content[n]);
    }
    r := d.ScanContent(ReadAttempt, AttemptFileName, AttemptText, content);
  }

  /** `oracle_attempts`. */
  method LoadOracleAttempts(d: Directory, ghost content: map<string, OracleAttempt>)
    returns (r: Outcome<map<string, OracleAttempt>>)
    requires d.disk.Sound() && Represents(d.disk.Visible(), content, OracleAttemptText)
    requires forall n :: n in content ==> OracleAttemptFormed(content[n]) && OracleAttemptFileName(content[n]) == n
    ensures r == Done(content)
  {
    forall n | n in content ensures ReadOracleAttempt(OracleAttemptText(content[n])) == Some(content[n]) {
      OracleAttemptTextIsUnique(OracleAttemptText(content[n]), content[n]);
    }
    r := d.ScanContent(ReadOracleAttempt, OracleAttemptFileName, OracleAttemptText, content);
  }

  /** `oracle_repairs`. */
  method LoadRepairs(d: Directory, ghost content: map<string, OracleRepairBinding>)
    returns (r: Outcome<map<string, OracleRepairBinding>>)
    requires d.disk.Sound() && Represents(d.disk.Visible(), content, RepairText)
    requires forall n :: n in content ==> RepairFormed(content[n]) && RepairFileName(content[n]) == n
    ensures r == Done(content)
  {
    forall n | n in content ensures ReadRepair(RepairText(content[n])) == Some(content[n]) {
      RepairTextIsUnique(RepairText(content[n]), content[n]);
    }
    r := d.ScanContent(ReadRepair, RepairFileName, RepairText, content);
  }

  // ----- Writes: the directory stands for the old or the new content, and for the new one after a normal return -----

  /** The write of `create_attempt`. */
  method CreateAttemptFile(d: Directory, a: ReleaseAttempt, random: string, i: nat,
                           ghost content: map<string, ReleaseAttempt>)
    returns (r: Outcome<()>)
    requires d.disk.Sound() && Represents(d.disk.Visible(), content, AttemptText) && AttemptFormed(a)
    requires Temporary(AttemptFileName(a), random) !in d.disk.live && i !in d.disk.files
    modifies d
    ensures d.disk.Sound()
    ensures AttemptFileName(a) in content ==> !r.Done? && Represents(d.disk.Visible(), content, AttemptText)
    ensures || Represents(d.disk.Visible(), content, AttemptText)
            || Represents(d.disk.Visible(), content[AttemptFileName(a) := a], AttemptText)
    ensures r.Done? ==> forall lost :: Survives(d.disk, lost) ==>
              lost.Sound() && Represents(lost.Visible(), content[AttemptFileName(a) := a], AttemptText)
  {
    NameIsNoLeftover(a.sourceSha);
    r := d.CreateEntry(AttemptText, AttemptFileName(a), a, random, i, content);
  }

  /** The write of `replace_attempt`. */
  method ReplaceAttemptFile(d: Directory, a: ReleaseAttempt, random: string, i: nat,
                            ghost content: map<string, ReleaseAttempt>)
    returns (r: Outcome<()>)
    requires d.disk.Sound() && Represents(d.disk.Visible(), content, AttemptText) && AttemptFormed(a)
    requires Temporary(AttemptFileName(a), random) !in d.disk.live && i !in d.disk.files
    modifies d
    ensures d.disk.Sound() && (r.Done? || r.Crashed?)
    ensures || Represents(d.disk.Visible(), content, AttemptText)
            || Represents(d.disk.Visible(), content[AttemptFileName(a) := a], AttemptText)
    ensures r.Done? ==> forall lost :: Survives(d.disk, lost) ==>
              lost.Sound() && Represents(lost.Visible(), content[AttemptFileName(a) := a], AttemptText)
  {
    NameIsNoLeftover(a.sourceSha);
    r := d.AtomicEntry(AttemptText, AttemptFileName(a), a, random, i, content);
  }

  /** The write of `create_record`. */
  method CreateRecordFile(d: Directory, record: ReleaseRecord, random: string, i: nat,
                          ghost content: map<string, ReleaseRecord>)
    returns (r: Outcome<()>)
    requires d.disk.Sound() && Represents(d.disk.Visible(), content, RecordText) && RecordFormed(record)
    requires Temporary(RecordFileName(record), random) !in d.disk.live && i !in d.disk.files
    modifies d
    ensures d.disk.Sound()
    ensures RecordFileName(record) in content ==> !r.Done? && Represents(d.disk.Visible(), content, RecordText)
    ensures || Represents(d.disk.Visible(), content, RecordText)
            || Represents(d.disk.Visible(), content[RecordFileName(record) := record], RecordText)
    ensures r.Done? ==> forall lost :: Survives(d.disk, lost) ==>
              lost.Sound() && Represents(lost.Visible(), content[RecordFileName(record) := record], RecordText)
  {
    NameIsNoLeftover(record.sourceSha);
    r := d.CreateEntry(RecordText, RecordFileName(record), record, random, i, content);
  }

  /** The write of `create_oracle_attempt`. */
  method CreateOracleAttemptFile(d: Directory, o: OracleAttempt, random: string, i: nat,
                                 ghost content: map<string, OracleAttempt>)
    returns (r: Outcome<()>)
    requires d.disk.Sound() && Represents(d.disk.Visible(), content, OracleAttemptText) && OracleAttemptFormed(o)
    requires Temporary(OracleAttemptFileName(o), random) !in d.disk.live && i !in d.disk.files
    modifies d
    ensures d.disk.Sound()
    ensures OracleAttemptFileName(o) in content ==> !r.Done? && Represents(d.disk.Visible(), content, OracleAttemptText)
    ensures || Represents(d.disk.Visible(), content, OracleAttemptText)
            || Represents(d.disk.Visible(), content[OracleAttemptFileName(o) := o], OracleAttemptText)
    ensures r.Done? ==> forall lost :: Survives(d.disk, lost) ==>
              lost.Sound() && Represents(lost.Visible(), content[OracleAttemptFileName(o) := o], OracleAttemptText)
  {
    TargetIsNoLeftover(o.Key());
    r := d.CreateEntry(OracleAttemptText, OracleAttemptFileName(o), o, random, i, content);
  }

  /** The write of `replace_oracle_attempt`. */
  method ReplaceOracleAttemptFile(d: Directory, o: OracleAttempt, random: string, i: nat,
                                  ghost content: map<string, OracleAttempt>)
    returns (r: Outcome<()>)
    requires d.disk.Sound() && Represents(d.disk.Visible(), content, OracleAttemptText) && OracleAttemptFormed(o)
    requires Temporary(OracleAttemptFileName(o), random) !in d.disk.live && i !in d.disk.files
    modifies d
    ensures d.disk.Sound() && (r.Done? || r.Crashed?)
    ensures || Represents(d.disk.Visible(), content, OracleAttemptText)
            || Represents(d.disk.Visible(), content[OracleAttemptFileName(o) := o], OracleAttemptText)
    ensures r.Done? ==> forall lost :: Survives(d.disk, lost) ==>
              lost.Sound() && Represents(lost.Visible(), content[OracleAttemptFileName(o) := o], OracleAttemptText)
  {
    TargetIsNoLeftover(o.Key());
    r := d.AtomicEntry(OracleAttemptText, OracleAttemptFileName(o), o, random, i, content);
  }

  /** The write of `create_oracle_repair`. */
  method CreateRepairFile(d: Directory, b: OracleRepairBinding, random: string, i: nat,
                          ghost content: map<string, OracleRepairBinding>)
    returns (r: Outcome<()>)
    requires d.disk.Sound() && Represents(d.disk.Visible(), content, RepairText) && RepairFormed(b)
    requires Temporary(RepairFileName(b), random) !in d.disk.live && i !in d.disk.files
    modifies d
    ensures d.disk.Sound()
    ensures RepairFileName(b) in content ==> !r.Done? && Represents(d.disk.Visible(), content, RepairText)
    ensures || Represents(d.disk.Visible(), content, RepairText)
            || Represents(d.disk.Visible(), content[RepairFileName(b) := b], RepairText)
    ensures r.Done? ==> forall lost :: Survives(d.disk, lost) ==>
              lost.Sound() && Represents(lost.Visible(), content[RepairFileName(b) := b], RepairText)
  {
    TargetIsNoLeftover(b.Key());
    r := d.CreateEntry(RepairText, RepairFileName(b), b, random, i, content);
  }
}
