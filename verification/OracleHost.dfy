/** The commands that reconcile the Oracle corpus of the current release. */
module OracleHost {
  import opened Outcomes
  import opened Model
  import opened Store
  import opened Protocol
  import opened Guards
  import opened Host

  datatype OracleReconcileResult = NoOp | Succeeded

  class HostOracleReconcile {
    const host: HostRelease

    constructor (host: HostRelease)
      ensures this.host == host
    {
      this.host := host;
    }

    // ----- Durable writes -----

    ghost predicate Holds(o: OracleAttempt)
      reads host, host.store
    {
      o.Key() in host.store.oracleAttempts && host.store.oracleAttempts[o.Key()] == o
    }

    method PersistNew(o: OracleAttempt) returns (r: Outcome<()>)
      requires host.Valid() && CanCreateOracleAttempt(host.sys, o)
      modifies host, host.store
      ensures host.Extended() && (r.Done? || r.Crashed?)
      ensures r.Done? ==> host.sys == Written(old(host.sys), CreateOracleAttempt(o))
    {
      if * {
        return Crashed;
      }
      r := host.store.CreateOracleAttempt(o);
      host.Stored(CreateOracleAttempt(o));
      if * {
        r := Crashed;
      }
    }

    method Persist(o: OracleAttempt) returns (r: Outcome<()>)
      requires host.Valid() && CanReplaceOracleAttempt(host.sys, o)
      modifies host, host.store
      ensures host.Extended() && (r.Done? || r.Crashed?)
      ensures r.Done? ==> host.sys == Written(old(host.sys), ReplaceOracleAttempt(o))
    {
      if * {
        return Crashed;
      }
      r := host.store.ReplaceOracleAttempt(o);
      host.Stored(ReplaceOracleAttempt(o));
      if * {
        r := Crashed;
      }
    }

    method PersistRepair(b: OracleRepairBinding) returns (r: Outcome<()>)
      requires host.Valid() && CanCreateRepair(host.sys, b)
      modifies host, host.store
      ensures host.Extended() && (r.Done? || r.Crashed?)
      ensures r.Done? ==> host.sys == Written(old(host.sys), CreateRepair(b))
      ensures host.sys == old(host.sys) || host.sys == Written(old(host.sys), CreateRepair(b))
    {
      if * {
        return Crashed;
      }
      r := host.store.CreateOracleRepair(b);
      host.Stored(CreateRepair(b));
      if * {
        r := Crashed;
      }
    }

    /** Stores the next phase of an Oracle attempt. */
    method Advance(o: OracleAttempt, next: OraclePhase) returns (r: Outcome<OracleAttempt>)
      requires host.Valid() && Holds(o) && next in o.phase.Successors()
      requires OraclePhaseGuard(host.sys, o.(phase := next))
      modifies host, host.store
      ensures host.Extended() && (r.Done? || r.Crashed?)
      ensures r.Done? ==> Holds(r.value) && r.value.phase == next && r.value.Key() == o.Key()
                          && host.world == old(host.world)
                          && host.sys.st == old(host.sys).st.(oracle := host.sys.st.oracle)
    {
      var now: string := *;
      var advanced := o.Advance(next, now).value;
      var _ :- Persist(advanced);
      r := Done(advanced);
    }

    // ----- Writers -----

    method StopExactWriters() returns (r: Outcome<()>)
      requires host.Valid()
      modifies host
      ensures host.Drifted() && (r.Done? ==> host.world.writers == map[])
    {
      var asked := host.Ask();
      ghost var before := host.sys;
      if !asked.Done? {
        return asked;
      }
      r := host.StopWriters();
      DriftTransitive(old(host.sys), before, host.sys);
    }

    /** The compensation after a failed check: the failure escapes with the writers stopped, unless the stop fails. */
    method Compensate(failure: Outcome<()>) returns (r: Outcome<()>, stopped: Outcome<()>)
      requires host.Valid() && !failure.Done?
      modifies host
      ensures host.Extended() && host.sys.st == old(host.sys).st && !r.Done?
      ensures if stopped.Done? then r == failure else r == stopped
      ensures stopped.Done? && !r.Crashed? ==> host.world.writers == map[]
    {
      if failure.Crashed? {
        return failure, Done(());
      }
      stopped := StopExactWriters();
      r := if stopped.Done? then failure else stopped;
    }

    // ----- Observations -----

    method Status() returns (r: Outcome<OracleRuntimeStatus>)
      requires host.Valid()
      modifies host
      ensures host.Drifted()
    {
      var _ :- host.Ask();
      var status: OracleRuntimeStatus := *;
      r := Done(status);
    }

    method RequireExactPublication(k: OracleKey) returns (r: Outcome<()>)
      requires host.Valid()
      modifies host
      ensures host.Extended() && host.sys.st == old(host.sys).st && host.world.bundles == old(host.world.bundles)
      ensures old(host.world).writers == map[] ==> host.world.writers == map[]
      ensures r.Done? ==> host.sys.h == old(host.sys).h.Add(Exact(k))
    {
      var status :- Status();
      if !status.IsExactPublication(k.digest) {
        return Permanent;
      }
      host.Act(Observe(Exact(k)));
      host.Wait();
      r := Done(());
    }

    /** The check that runs while the writers are down leaves them down. */
    method RequireStopped(k: OracleKey) returns (r: Outcome<()>)
      requires host.Valid() && host.world.writers == map[]
      modifies host
      ensures host.Extended() && host.sys.st == old(host.sys).st && host.world.writers == map[]
      ensures host.world.bundles == old(host.world.bundles)
      ensures r.Done? ==> host.sys.h.EndsWith([Exact(k)])
    {
      r := RequireExactPublication(k);
    }

    /** Starts the captured containers that are stopped and waits until all of them run. */
    method StartCaptured(k: OracleKey) returns (r: Outcome<()>)
      requires host.Valid() && host.sys.st.OracleActive(k) && host.sys.st.oracle[k].phase.Restoring()
      modifies host
      ensures host.Extended() && host.sys.st == old(host.sys).st && host.sys.h == old(host.sys).h
      ensures host.world.bundles == old(host.world.bundles)
    {
      var _ :- host.Ask();
      var some: set<Writer> := *;
      host.Act(RestoreRuntime(some, k));
      var _ :- host.Ask();
      r := if host.world.AllRun(k.source) then Done(()) else External(NOT_READY);
    }

    /** Restores the captured containers and proves the runtime of the release through them. */
    method RestoreExactRuntime(k: OracleKey) returns (r: Outcome<()>)
      requires host.Valid() && k.source in host.world.bundles
      requires host.sys.st.OracleActive(k) && host.sys.st.oracle[k].phase.Restoring()
      modifies host
      ensures host.Extended() && host.sys.st == old(host.sys).st
      ensures r.Done? ==> host.sys.h == old(host.sys).h.Add(Backend(k.source)).Add(Public(k.source)).Add(Runtime(k))
    {
      var _ :- StartCaptured(k);
      var _ :- host.ProveVector(k.source);
      host.Act(Observe(Runtime(k)));
      host.Wait();
      r := Done(());
    }

    /** The restore, after the publication was found exact. */
    method RestoreAfterExact(k: OracleKey) returns (r: Outcome<()>)
      requires host.Valid() && k.source in host.world.bundles && host.sys.h.EndsWith([Exact(k)])
      requires host.sys.st.OracleActive(k) && host.sys.st.oracle[k].phase.Restoring()
      modifies host
      ensures host.Extended() && host.sys.st == old(host.sys).st
      ensures r.Done? ==> host.sys.h.EndsWith(RestoreProof(k))
    {
      RestoreEnds(host.sys.h, k);
      r := RestoreExactRuntime(k);
    }

    /** Publication, runtime, publication. */
    method CheckRestored(k: OracleKey) returns (r: Outcome<()>)
      requires host.Valid() && k.source in host.world.bundles
      requires host.sys.st.OracleActive(k) && host.sys.st.oracle[k].phase.Restoring()
      modifies host
      ensures host.Extended() && host.sys.st == old(host.sys).st
      ensures r.Done? ==> host.sys.h.EndsWith(RestoreProof(k) + [Exact(k)])
    {
      var _ :- RequireExactPublication(k);
      var _ :- RestoreAfterExact(k);
      AddEnds(host.sys.h, RestoreProof(k), Exact(k));
      r := RequireExactPublication(k);
    }

    // ----- Phases -----

    method StopPhase(o: OracleAttempt) returns (r: Outcome<OracleAttempt>)
      requires host.Valid() && Holds(o) && o.phase.OPrepared?
      modifies host, host.store
      ensures host.Extended()
      ensures r.Done? ==> Holds(r.value) && r.value.phase.OWritersStopped? && r.value.Key() == o.Key()
                          && host.store.oracleRepairs == old(host.store.oracleRepairs)
    {
      var _ :- StopExactWriters();
      r := Advance(o, OWritersStopped);
    }

    /** A mutating command with the writers stopped, by the execution source in force, to an accepted result. */
    method RunCommand(o: OracleAttempt, execution: Option<Sha>, command: OracleCommand) returns (r: Outcome<()>)
      requires host.Valid() && Holds(o) && o.phase == CommandPhase(command)
      requires execution == Execution(host.store.oracleRepairs, o.Key())
      modifies host
      ensures host.Extended() && host.sys.st == old(host.sys).st
      ensures r.Done? ==> CommandSettled(host.sys, o.Key(), command)
    {
      OracleFacts(host.states, host.acts, o.Key());
      var _ :- StopExactWriters();
      MayStartCommand(host.sys, o.Key(), execution, command);
      var _ :- host.ComposeJob(OracleJob(o.sourceSha, execution, command));
      r := host.Ask();
    }

    /** The command of a mutating phase, and the phase it leads to. */
    method MutatingPhase(o: OracleAttempt, execution: Option<Sha>, command: OracleCommand, next: OraclePhase)
      returns (r: Outcome<OracleAttempt>)
      requires host.Valid() && Holds(o) && o.phase == CommandPhase(command) && next in o.phase.Successors()
      requires execution == Execution(host.store.oracleRepairs, o.Key())
      modifies host, host.store
      ensures host.Extended()
      ensures r.Done? ==> Holds(r.value) && r.value.phase == next && r.value.Key() == o.Key()
                          && host.store.oracleRepairs == old(host.store.oracleRepairs)
    {
      var _ :- RunCommand(o, execution, command);
      r := Advance(o, next);
    }

    /** Published: the writers come back only after the publication was found exact, and go down again if the captured
        runtime cannot be proved. `stop` is how the last attempt to stop them ended. */
    method PublishedPhase(o: OracleAttempt) returns (r: Outcome<OracleAttempt>, stop: Outcome<()>)
      requires host.Valid() && Holds(o) && o.phase.OPublished?
      modifies host, host.store
      ensures host.Extended()
      ensures r.Done? ==> Holds(r.value) && r.value.phase.ORuntimeRestored? && r.value.Key() == o.Key()
                          && host.store.oracleRepairs == old(host.store.oracleRepairs)
      ensures !r.Done? && !r.Crashed? ==>
                if stop.Done? then host.world.writers == map[] else r == stop.PropagateFailure()
    {
      OracleFacts(host.states, host.acts, o.Key());
      stop := StopExactWriters();
      if !stop.Done? {
        return stop.PropagateFailure(), stop;
      }
      var exact := RequireStopped(o.Key());
      if !exact.Done? {
        return exact.PropagateFailure(), stop;
      }
      var restored := RestoreAfterExact(o.Key());
      if !restored.Done? {
        restored, stop := Compensate(restored);
        return restored.PropagateFailure(), stop;
      }
      r := Advance(o, ORuntimeRestored);
    }

    /** RuntimeRestored: success is stored only if the publication is exact on both sides of the restart. */
    method RestoredPhase(o: OracleAttempt) returns (r: Outcome<OracleAttempt>, stop: Outcome<()>)
      requires host.Valid() && Holds(o) && o.phase.ORuntimeRestored?
      modifies host, host.store
      ensures host.Extended()
      ensures r.Done? ==> Holds(r.value) && r.value.phase.OSucceeded? && r.value.Key() == o.Key()
      ensures !r.Done? && !r.Crashed? ==>
                if stop.Done? then host.world.writers == map[] else r == stop.PropagateFailure()
    {
      OracleFacts(host.states, host.acts, o.Key());
      var checked := CheckRestored(o.Key());
      stop := Done(());
      if !checked.Done? {
        checked, stop := Compensate(checked);
        return checked.PropagateFailure(), stop;
      }
      r := Advance(o, OSucceeded);
    }

    /** From the last stored phase to success. */
    method Resume(start: OracleAttempt, execution: Option<Sha>) returns (r: Outcome<OracleAttempt>)
      requires host.Valid() && Holds(start)
      requires execution == Execution(host.store.oracleRepairs, start.Key())
      modifies host, host.store
      ensures host.Extended()
      ensures r.Done? ==> Holds(r.value) && r.value.phase.OSucceeded? && r.value.Key() == start.Key()
    {
      var o := start;
      if o.phase.OPrepared? {
        o :- StopPhase(o);
      }
      o :- ResumeMutations(o, execution);
      r := ResumeRestore(o);
    }

    method ResumeMutations(start: OracleAttempt, execution: Option<Sha>) returns (r: Outcome<OracleAttempt>)
      requires host.Valid() && Holds(start)
      requires execution == Execution(host.store.oracleRepairs, start.Key())
      modifies host, host.store
      ensures host.Extended() && (r.Done? ==> Holds(r.value) && r.value.Key() == start.Key())
    {
      var o := start;
      if o.phase.OWritersStopped? {
        o :- MutatingPhase(o, execution, Unpublish, OUnpublished);
      }
      if o.phase.OUnpublished? {
        o :- MutatingPhase(o, execution, ReconcileSupport, OSupportReconciled);
      }
      if o.phase.OSupportReconciled? {
        o :- MutatingPhase(o, execution, Publish, OPublished);
      }
      r := Done(o);
    }

    method ResumeRestore(start: OracleAttempt) returns (r: Outcome<OracleAttempt>)
      requires host.Valid() && Holds(start)
      modifies host, host.store
      ensures host.Extended()
      ensures r.Done? ==> Holds(r.value) && r.value.phase.OSucceeded? && r.value.Key() == start.Key()
    {
      var o := start;
      if o.phase.OPublished? {
        var published, _ := PublishedPhase(o);
        o :- published;
      }
      if o.phase.ORuntimeRestored? {
        var restored, _ := RestoredPhase(o);
        o :- restored;
      }
      r := if o.phase.OSucceeded? then Done(o) else Defect;
    }

    // ----- Reconcile -----

    /** The current release as a target: complete, and with nothing of the release side under way. */
    ghost predicate Bindable(x: Sha, record: ReleaseRecord)
      reads host, host.store
    {
      && host.store.View().ActiveAttempt() == Done(None) && host.store.forwardFix.None? && host.store.current == Some(x)
      && x in host.store.attempts && host.store.attempts[x].phase.Succeeded?
      && x in host.store.records && host.store.records[x] == record && x in host.world.bundles
      && record.Of(host.store.attempts[x], host.world.bundles[x])
    }

    method BindCurrentTarget(x: Sha) returns (r: Outcome<ReleaseRecord>)
      requires host.Valid()
      modifies host
      ensures host.Drifted() && (r.Done? ==> Bindable(x, r.value))
    {
      var _ :- host.store.View().RequireCurrentRecord();
      var active :- host.store.ActiveAttempt();
      if active.Some? {
        return Blocked;
      }
      var failed :- host.store.View().ForwardFixSha();
      if failed.Some? || host.store.current != Some(x) {
        return Blocked;
      }
      if x !in host.store.attempts || !host.store.attempts[x].phase.Succeeded? || x !in host.store.records
         || x !in host.world.bundles {
        return Defect;
      }
      var record := host.store.records[x];
      var _ :- host.Ask();
      r := if record.Of(host.store.attempts[x], host.world.bundles[x]) then Done(record) else Defect;
    }

    /** The image that is to run the mutating commands: the target's own, or the repair the target is bound to. */
    method BindExecutionSource(record: ReleaseRecord, requested: Option<Sha>) returns (r: Outcome<Option<Sha>>)
      requires host.Valid()
      modifies host
      ensures host.Drifted()
      ensures r.Done? ==> r.value == requested
                          && r.value == Execution(host.store.oracleRepairs, TargetOf(record))
    {
      var k := TargetOf(record);
      var binding := host.store.oracleRepairs;
      if requested.None? {
        return if k in binding then Blocked else Done(None);
      }
      if k !in host.store.oracleAttempts || k !in binding || binding[k].repairSourceSha != requested.value {
        return Blocked;
      }
      if requested.value !in host.world.bundles || !PreservesTarget(host.world.bundles[requested.value], record) {
        return Defect;
      }
      var _ :- host.Ask();
      r := Done(requested);
    }

    function TargetOf(record: ReleaseRecord): OracleKey {
      OracleKey(record.sourceSha, record.expectedOracleManifestDigest)
    }

    /** A repair source must keep the schema and the corpus manifest of its target. */
    predicate PreservesTarget(candidate: CandidateManifest, record: ReleaseRecord) {
      && candidate.expectedDatabaseRevision == record.databaseRevision
      && candidate.expectedOracleManifestDigest == record.expectedOracleManifestDigest
    }

    /** The attempt of this target that an earlier process left; its inputs must still be those of the record. */
    method ResumePending(record: ReleaseRecord, o: OracleAttempt, execution: Option<Sha>)
      returns (r: Outcome<OracleReconcileResult>)
      requires host.Valid() && Holds(o) && o.Key() == TargetOf(record)
      requires execution == Execution(host.store.oracleRepairs, o.Key())
      modifies host, host.store
      ensures host.Extended() && r != Done(NoOp)
      ensures r.Done? ==> TargetOf(record) in host.store.oracleAttempts
                          && host.store.oracleAttempts[TargetOf(record)].phase.OSucceeded?
    {
      var _ :- host.Ask();
      if o.configPath != record.configPath || o.configSha256 != record.configSha256 {
        return Defect;
      }
      var succeeded :- Resume(o, execution);
      r := Done(OracleReconcileResult.Succeeded);
    }

    /** The containers of the current release, proved live. */
    method CaptureCurrent(x: Sha) returns (r: Outcome<map<string, ContainerEvidence>>)
      requires host.Valid() && x in host.world.bundles
      modifies host
      ensures host.Extended() && host.sys.st == old(host.sys).st && host.world.bundles == old(host.world.bundles)
      ensures r.Done? ==> r.value.Keys == WRITERS
    {
      var _ :- host.ProveVector(x);
      var all :- host.CaptureContainers(x, true);
      r := Done(map service | service in WRITERS :: all[service]);
    }

    /** No attempt is pending: nothing to do, or a new attempt for a target that never had one. */
    method ReconcileFresh(x: Sha, record: ReleaseRecord, execution: Option<Sha>)
      returns (r: Outcome<OracleReconcileResult>)
      requires host.Valid() && Bindable(x, record) && record.sourceSha == x
      requires host.store.View().ActiveOracleAttempt() == Done(None)
      requires execution == Execution(host.store.oracleRepairs, TargetOf(record))
      modifies host, host.store
      ensures host.Extended()
      ensures r == Done(NoOp) ==> host.store.View() == old(host.store.View()) && host.sys.h.ProvedPublication(x)
      ensures r == Done(OracleReconcileResult.Succeeded) ==>
                TargetOf(record) in host.store.oracleAttempts
                && host.store.oracleAttempts[TargetOf(record)].phase.OSucceeded?
      ensures TargetOf(record) in old(host.store.oracleAttempts) ==>
                host.store.View() == old(host.store.View()) && r != Done(OracleReconcileResult.Succeeded)
    {
      var status :- Status();
      if status.manifestDigest != record.expectedOracleManifestDigest {
        return Defect;
      }
      if status.IsExactPublication(record.expectedOracleManifestDigest) {
        var _ :- host.ProveVector(x);
        return Done(NoOp);
      }
      var _ :- host.Ask();
      if TargetOf(record) in host.store.oracleAttempts {
        return Defect;
      }
      r := Begin(x, record, status, execution);
    }

    method Begin(x: Sha, record: ReleaseRecord, status: OracleRuntimeStatus, execution: Option<Sha>)
      returns (r: Outcome<OracleReconcileResult>)
      requires host.Valid() && Bindable(x, record) && record.sourceSha == x
      requires host.store.View().ActiveOracleAttempt() == Done(None) && TargetOf(record) !in host.store.oracleAttempts
      requires execution == Execution(host.store.oracleRepairs, TargetOf(record))
      modifies host, host.store
      ensures host.Extended() && r != Done(NoOp)
      ensures r.Done? ==> TargetOf(record) in host.store.oracleAttempts
                          && host.store.oracleAttempts[TargetOf(record)].phase.OSucceeded?
    {
      var containers :- CaptureCurrent(x);
      var now: string := *;
      var o := OracleAttempt(1, x, record.expectedOracleManifestDigest, record.configPath, record.configSha256,
                             status.priorMarker, containers, OPrepared, now, now);
      var _ :- PersistNew(o);
      var succeeded :- Resume(o, execution);
      r := Done(OracleReconcileResult.Succeeded);
    }

    /** A bound target: the pending attempt, or a fresh start. */
    method ReconcileTarget(x: Sha, record: ReleaseRecord, execution: Option<Sha>)
      returns (r: Outcome<OracleReconcileResult>)
      requires host.Valid() && Bindable(x, record) && record.sourceSha == x
      requires execution == Execution(host.store.oracleRepairs, TargetOf(record))
      modifies host, host.store
      ensures host.Extended()
      ensures r == Done(NoOp) ==> host.store.View() == old(host.store.View()) && host.sys.h.ProvedPublication(x)
      ensures r == Done(OracleReconcileResult.Succeeded) ==>
                TargetOf(record) in host.store.oracleAttempts
                && host.store.oracleAttempts[TargetOf(record)].phase.OSucceeded?
    {
      var pending :- host.store.RequireOracleTarget(TargetOf(record));
      if pending.Some? {
        PendingHolds(host.states, host.acts, pending.value);
        r := ResumePending(record, pending.value, execution);
      } else {
        r := ReconcileFresh(x, record, execution);
      }
    }

    /** The target and the image that is to work on it. */
    method BindTarget(x: Sha, requested: Option<Sha>) returns (r: Outcome<(ReleaseRecord, Option<Sha>)>)
      requires host.Valid()
      modifies host
      ensures host.Extended() && host.sys.st == old(host.sys).st
      ensures r.Done? ==> Bindable(x, r.value.0) && r.value.0.sourceSha == x && r.value.1 == requested
                          && r.value.1 == Execution(host.store.oracleRepairs, TargetOf(r.value.0))
    {
      var record :- BindCurrentTarget(x);
      var execution :- BindExecutionSource(record, requested);
      AttemptFacts(host.states, host.acts, x);
      r := Done((record, execution));
    }

    method Reconcile(x: Sha, requested: Option<Sha>) returns (r: Outcome<OracleReconcileResult>)
      requires host.Valid()
      modifies host, host.store
      ensures host.Extended()
      ensures r == Done(NoOp) ==> host.store.View() == old(host.store.View()) && host.sys.h.ProvedPublication(x)
      ensures r == Done(OracleReconcileResult.Succeeded) ==>
                && x in old(host.store.records)
                && TargetOf(old(host.store.records)[x]) in host.store.oracleAttempts
                && host.store.oracleAttempts[TargetOf(old(host.store.records)[x])].phase.OSucceeded?
    {
      var _ :- host.store.View().RequireCurrentRecord();
      var active :- host.store.ActiveOracleAttempt();
      if active.Some? && active.value.sourceSha != x {
        return Blocked;
      }
      var bound :- BindTarget(x, requested);
      r := ReconcileTarget(x, bound.0, bound.1);
    }

    // ----- Repairs -----

    /** May `candidate` be bound to this target: as a new binding of the active attempt, or as the old one again. */
    predicate MayBind(st: State, k: OracleKey, active: Option<OracleAttempt>, candidate: Sha) {
      if k in st.repairs then st.repairs[k].repairSourceSha == candidate
      else
        && k in st.oracle && active == Some(st.oracle[k])
        && candidate !in st.attempts && candidate !in st.records
        && st.current != Some(candidate) && st.forwardFix != Some(candidate)
    }

    /** `install_oracle_repair_bundle`, after the bundle itself has been installed. */
    method InstallRepair(x: Sha, candidate: Sha) returns (r: Outcome<OracleRepairBinding>)
      requires host.Valid()
      modifies host, host.store
      ensures host.Extended()
      ensures host.store.View() == old(host.store.View()).(repairs := host.store.oracleRepairs)
      ensures forall k :: k in old(host.store.oracleRepairs) ==>
                k in host.store.oracleRepairs && host.store.oracleRepairs[k] == old(host.store.oracleRepairs)[k]
      ensures r.Done? ==>
                && r.value.Key() in host.store.oracleRepairs && host.store.oracleRepairs[r.value.Key()] == r.value
                && r.value.targetSourceSha == x && r.value.repairSourceSha == candidate
      ensures r.Done? && r.value.Key() !in old(host.store.oracleRepairs) ==>
                && old(host.store.View()).OracleActive(r.value.Key())
                && candidate !in old(host.store.attempts) && candidate !in old(host.store.records)
    {
      if candidate !in host.world.bundles || candidate == x {
        return Defect;
      }
      var record :- BindCurrentTarget(x);
      var k := TargetOf(record);
      if k !in host.store.oracleAttempts {
        return Blocked;
      }
      var active :- host.store.ActiveOracleAttempt();
      if !MayBind(host.store.View(), k, active, candidate)
         || !PreservesTarget(host.world.bundles[candidate], record) {
        return Blocked;
      }
      AttemptFacts(host.states, host.acts, x);
      r := Bind(record, active, candidate);
    }

    method Bind(record: ReleaseRecord, active: Option<OracleAttempt>, candidate: Sha)
      returns (r: Outcome<OracleRepairBinding>)
      requires host.Valid() && candidate in host.world.bundles && candidate != record.sourceSha
      requires Done(active) == host.store.View().ActiveOracleAttempt()
      requires MayBind(host.store.View(), TargetOf(record), active, candidate)
      requires TargetOf(record) in host.store.oracleAttempts
      modifies host, host.store
      ensures host.Extended()
      ensures host.store.View() == old(host.store.View()).(repairs := host.store.oracleRepairs)
      ensures forall k :: k in old(host.store.oracleRepairs) ==>
                k in host.store.oracleRepairs && host.store.oracleRepairs[k] == old(host.store.oracleRepairs)[k]
      ensures r.Done? ==>
                && r.value.Key() in host.store.oracleRepairs && host.store.oracleRepairs[r.value.Key()] == r.value
                && r.value.Key() == TargetOf(record) && r.value.repairSourceSha == candidate
      ensures r.Done? && TargetOf(record) !in old(host.store.oracleRepairs) ==>
                && old(host.store.View()).OracleActive(TargetOf(record))
                && candidate !in old(host.store.attempts) && candidate !in old(host.store.records)
    {
      var proposed :- Propose(record, candidate);
      if TargetOf(record) in host.store.oracleRepairs {
        return if proposed == host.store.oracleRepairs[TargetOf(record)] then Done(proposed) else Defect;
      }
      ActiveTarget(host.store.View(), active.value, TargetOf(record));
      var _ :- PersistRepair(proposed);
      r := Done(proposed);
    }

    /** Inspects the images of the candidate and writes down what is to be bound. */
    method Propose(record: ReleaseRecord, candidate: Sha) returns (r: Outcome<OracleRepairBinding>)
      requires host.Valid() && candidate in host.world.bundles && candidate != record.sourceSha
      modifies host
      ensures host.Drifted()
      ensures r.Done? ==> r.value.Valid() && r.value.Key() == TargetOf(record) && r.value.repairSourceSha == candidate
      ensures r.Done? && TargetOf(record) in host.store.oracleRepairs ==>
                r.value.createdAt == host.store.oracleRepairs[TargetOf(record)].createdAt
    {
      var _ :- host.Ask();
      var images := host.world.bundles[candidate].images;
      var manifest: string, api: string, worker: string := *, *, *;
      var now: string := *;
      var k := TargetOf(record);
      var createdAt := if k in host.store.oracleRepairs then host.store.oracleRepairs[k].createdAt else now;
      r := Done(OracleRepairBinding(1, k.source, k.digest, record.databaseRevision, candidate, manifest,
                                    images.api, images.worker, api, worker, createdAt));
    }
  }
}
