/** The commands of the release controller. Every effect on the outside and every durable write of a command is one
    action of the protocol, the world may move on its own between any two of them, and the process may die there. What
    is proved of every run of the protocol therefore holds of every sequence of commands, crashes and restarts. */
module Host {
  import opened Outcomes
  import opened Ordering
  import opened Model
  import opened Store
  import opened Protocol
  import opened Guards
  import opened Retries
  import opened Publication

  const NOT_STOPPED := "container running state"
  const NOT_HEALTHY := "predecessor health"
  const JOB_FAILED := "durable Compose job failed"
  const JOB_TIMEOUT := "durable Compose job timed out"
  const BACKUP_FAILED := "bounded PostgreSQL backup failed"
  const NOT_READY := "backend readiness"

  const ALL_WRITERS: seq<Writer> := [Api, WorkerInteractive, WorkerBackground]

  lemma EveryWriter()
    ensures forall v :: v in ALL_WRITERS[..|ALL_WRITERS|]
  {
    forall v: Writer ensures v in ALL_WRITERS[..|ALL_WRITERS|] {
      assert v == ALL_WRITERS[0] || v == ALL_WRITERS[1] || v == ALL_WRITERS[2];
    }
  }

  /** What preflight hands to the new attempt. */
  datatype PreflightEvidence = PreflightEvidence(
    manifestSha256: string,
    apiImageId: string,
    workerImageId: string,
    configPath: string,
    configSha256: string,
    containers: map<string, ContainerEvidence>,
    databaseIdentity: string)

  /** A host that runs release commands: the durable store, the world outside, and the trace of all actions so far. */
  class HostRelease {
    const store: ReleaseStore
    const external: set<string> // the semantic names of the commands that can fail outside
    var world: World
    ghost var sys: Sys
    ghost var states: seq<Sys>
    ghost var acts: seq<Action>
    var outage: seq<string> // the commands outside that fail next, as far as that is settled
    ghost var refused: seq<Refusal> // what the outside has refused so far, with the attempts as they were then

    /** Everything an external failure can be named after. */
    function Operations(): set<string> {
      external + {NOT_STOPPED, NOT_HEALTHY, JOB_FAILED, JOB_TIMEOUT, BACKUP_FAILED, NOT_READY}
    }

    ghost predicate Valid()
      reads this, store
    {
      && sys.st == store.View() && sys.w == world
      && Trace(states, acts) && states[|acts|] == sys
    }

    /** The trace has only grown, and the bundles are the same. */
    twostate predicate Extended()
      reads this, store
    {
      Valid() && old(acts) <= acts && world.bundles == old(world.bundles)
    }

    /** The store has moved by nothing but writes that publish `x`. */
    twostate predicate Publishing(x: Sha)
      reads this, store
    {
      PublishingFrom(old(store.View()), store.View(), x, world.bundles)
    }

    /** Nothing but the world has moved, and that on its own. */
    twostate predicate Drifted()
      reads this, store
    {
      Extended() && Drift(old(sys), sys)
    }

    /** A refusal by the outside is the last thing that happens in a step, and is what the step fails with; external
        failures are nothing else. */
    twostate predicate Logged<T>(new r: Outcome<T>)
      reads this, store
    {
      && (r.External? ==> r.operation in Operations())
      && if refused == old(refused) then !r.External?
         else !r.Done? && !r.Crashed? && refused == old(refused) + [Refusal(store.attempts, Failure(r))]
    }

    /** The next command outside fails. */
    predicate Out()
      reads this
    {
      outage != [] && outage[0] in external
    }

    /** A step has met the next failure outside, before it changed any attempt. */
    twostate predicate Struck<T>(new r: Outcome<T>)
      reads this, store
    {
      && old(outage) != [] && r == External(old(outage)[0]) && outage == old(outage)[1..]
      && store.attempts == old(store.attempts)
      && refused == old(refused) + [Refusal(old(store.attempts), External(old(outage)[0]))]
    }

    /** With nothing refused outside, a step ends in success unless the process dies. */
    twostate predicate Progress<T>(new r: Outcome<T>)
      reads this
    {
      refused == old(refused) ==> r.Done? || r.Crashed?
    }

    constructor (store: ReleaseStore, world: World, external: set<string>, outage: seq<string>)
      requires store.View().current.Some?
      requires Init(Sys(store.View(), world, History([], [store.View().current.value])))
      ensures Valid() && this.store == store && this.world == world && this.external == external
      ensures this.outage == outage
    {
      this.store := store;
      this.external := external;
      this.outage := outage;
      this.world := world;
      sys := Sys(store.View(), world, History([], [store.View().current.value]));
      states := [Sys(store.View(), world, History([], [store.View().current.value]))];
      acts, refused := [], [];
    }

    /** The outside says no. */
    method Refuse<T>(failure: Outcome<T>) returns (r: Outcome<T>)
      requires !failure.Done? && !failure.Crashed? && (failure.External? ==> failure.operation in Operations())
      modifies this`refused
      ensures r == failure && refused == old(refused) + [Refusal(store.attempts, Failure(failure))]
    {
      refused := refused + [Refusal(store.attempts, Failure(failure))];
      r := failure;
    }

    /** One effect on the world, or one observation. */
    method Act(effect: Effect)
      requires Valid() && EffectEnabled(sys, effect)
      modifies this
      ensures Extended() && acts == old(acts) + [Outside(effect)] && sys == Effected(old(sys), effect)
      ensures refused == old(refused) && outage == old(outage)
    {
      TraceExtends(states, acts, Outside(effect));
      world := Effected(Sys(store.View(), world, History([], [])), effect).w;
      sys := Effected(sys, effect);
      states, acts := states + [sys], acts + [Outside(effect)];
    }

    /** The world moves on its own for a while. */
    method Wait()
      requires Valid()
      modifies this
      ensures Drifted() && refused == old(refused) && outage == old(outage)
    {
      var steps: nat :| 0 <= steps;
      for i := 0 to steps
        invariant Drifted() && refused == old(refused) && outage == old(outage)
      {
        var effect: Effect := *;
        if Moves(effect) && EffectEnabled(Sys(store.View(), world, History([], [])), effect) {
          ghost var before := sys;
          DriftStep(sys, effect);
          Act(effect);
          DriftTransitive(old(sys), before, sys);
        }
      }
    }

    /** One command run outside that changes nothing the model keeps: it succeeds, fails in one of the ways the
        controller tells apart, or the controller dies meanwhile. */
    method Ask() returns (r: Outcome<()>)
      requires Valid()
      modifies this
      ensures Drifted() && Logged(r) && !r.Blocked?
      ensures Progress(r)
      ensures old(Out()) ==> Struck(r)
    {
      Wait();
      r := *;
      if outage != [] {
        r, outage := External(outage[0]), outage[1..];
      }
      if r.Blocked? || (r.External? && r.operation !in external) {
        r := Done(());
      }
      if !r.Done? && !r.Crashed? {
        r := Refuse(r);
      }
    }

    // ----- Observations -----

    method DatabaseRevisions() returns (r: Outcome<seq<Revision>>)
      requires Valid()
      modifies this
      ensures Drifted() && Logged(r) && Progress(r)
      ensures r.Done? && (forall x :: !Migrating(old(sys), x)) ==> sys.w.revisions == r.value
    {
      var _ :- Ask();
      ghost var asked := sys;
      var revisions := world.revisions;
      Wait();
      DriftTransitive(old(sys), asked, sys);
      if forall x :: !Migrating(old(sys), x) {
        DriftQuiet(old(sys), asked);
        DriftQuiet(asked, sys);
      }
      r := Done(revisions);
    }

    method StopCommand()
      requires Valid()
      modifies this
      ensures Drifted() && refused == old(refused) && outage == old(outage)
    {
      var kept: set<Writer> := *;
      DriftStep(sys, StopSome(kept));
      Act(StopSome(kept));
    }

    method AssertStopped(v: Writer) returns (r: Outcome<()>)
      requires Valid()
      modifies this
      ensures Drifted() && !r.Blocked? && Logged(r) && Progress(r)
      ensures old(Out()) ==> Struck(r)
      ensures r.Done? ==> v !in world.writers
    {
      r := Ask();
      if r.Done? && v in world.writers {
        r := Refuse(External(NOT_STOPPED));
      }
    }

    /** Stops the app writers and insists that each of them is stopped. */
    method StopWriters() returns (r: Outcome<()>)
      requires Valid()
      modifies this
      ensures Drifted() && !r.Blocked? && Logged(r) && Progress(r)
      ensures old(Out()) ==> Struck(r)
      ensures r.Done? ==> world.writers == map[]
    {
      StopCommand();
      for i := 0 to |ALL_WRITERS|
        invariant Drifted() && refused == old(refused)
        invariant old(Out()) ==> i == 0 && outage == old(outage)
        invariant forall v :: v in ALL_WRITERS[..i] ==> v !in world.writers
      {
        ghost var before := sys;
        var stopped := AssertStopped(ALL_WRITERS[i]);
        DriftTransitive(old(sys), before, sys);
        var _ :- stopped;
        assert ALL_WRITERS[..i + 1] == ALL_WRITERS[..i] + [ALL_WRITERS[i]];
      }
      EveryWriter();
      r := Done(());
    }

    // ----- Durable writes of an attempt -----

    ghost predicate Holds(a: ReleaseAttempt)
      reads this, store
    {
      a.sourceSha in store.attempts && store.attempts[a.sourceSha] == a
    }

    /** Puts a durable write that the store has just made on the trace. */
    ghost method Stored(write: Write)
      requires Trace(states, acts) && states[|acts|] == sys && sys.w == world && WriteEnabled(sys, write)
      requires store.View() == Written(sys, write).st
      modifies this`sys, this`states, this`acts
      ensures Valid() && acts == old(acts) + [Durable(write)] && sys == Written(old(sys), write)
    {
      TraceExtends(states, acts, Durable(write));
      sys := Written(sys, write);
      states, acts := states + [sys], acts + [Durable(write)];
    }

    /** `replace_attempt`; the process may die before or after the write. */
    method Persist(a: ReleaseAttempt) returns (r: Outcome<()>)
      requires Valid() && CanReplaceAttempt(sys, a)
      modifies this, store
      ensures Extended() && refused == old(refused) && (r.Done? || r.Crashed?)
      ensures r.Done? ==> sys == Written(old(sys), ReplaceAttempt(a))
      ensures sys == old(sys) || sys == Written(old(sys), ReplaceAttempt(a))
    {
      if * {
        return Crashed;
      }
      r := store.ReplaceAttempt(a);
      Stored(ReplaceAttempt(a));
      if * {
        r := Crashed;
      }
    }

    /** The time now; a clock that runs behind `since` is a refusal. */
    method Clock(since: string) returns (now: string)
      modifies this`refused
      ensures if Less(now, since) then refused == old(refused) + [Refusal(store.attempts, Defect)]
              else refused == old(refused)
    {
      now := *;
      if Less(now, since) {
        refused := refused + [Refusal(store.attempts, Defect)];
      }
    }

    /** Stores the next phase of an attempt. */
    method Advance(a: ReleaseAttempt, next: ReleasePhase, code: Option<string>) returns (r: Outcome<ReleaseAttempt>)
      requires Valid() && Holds(a) && PhaseGuard(sys, a, a.(phase := next))
      requires next in a.phase.Successors() && next.Failed() == code.Some? && (next.BackupVerified? ==> a.backup.Some?)
      modifies this, store
      ensures Extended() && Logged(r) && (r.Done? || r.Crashed? || r.Defect?)
      ensures refused == old(refused) ==> !r.Defect?
      ensures r.Defect? ==> sys == old(sys)
      ensures r.Done? ==> sys == Written(old(sys), ReplaceAttempt(r.value))
      ensures r.Done? ==> r.value.phase == next && r.value.WithProgressOf(a) == a && r.value.backup == a.backup
      ensures r.Done? ==> Holds(r.value)
      ensures next.FrontendPromoted? ==> Publishing(a.sourceSha)
    {
      PublishingStill(store.View(), a.sourceSha, world.bundles);
      var now := Clock(a.createdAt);
      if Less(now, a.createdAt) {
        return Defect;
      }
      AdvanceAccepted(states, acts, a, next, now, code);
      var b := a.Advance(next, now, code).value;
      var _ :- Persist(b);
      r := Done(b);
    }

    // ----- Settling a failure -----

    /** The attempt has an outcome, or the intent of one. */
    ghost predicate Settling(x: Sha)
      reads this, store
    {
      x in store.attempts ==>
        store.attempts[x].Terminal() || store.attempts[x].phase.Intended()
    }

    /** A stored failure waits to be carried out. */
    predicate Pending(x: Sha)
      reads store
    {
      x in store.attempts && store.attempts[x].phase.Intended()
    }

    /** The next failure outside strikes while a stored failure is carried out; but the process may die first, if there
        is something to store before. */
    twostate predicate Falls<T>(x: Sha, new r: Outcome<T>)
      reads this, store
    {
      Struck(r) || (r.Crashed? && x in old(store.attempts) && old(store.attempts)[x].phase.ForwardFixPending?)
    }

    /** Starts one captured predecessor container after comparing its image and config. */
    method StartExact(a: ReleaseAttempt, v: Writer) returns (r: Outcome<()>)
      requires Valid() && Holds(a) && a.phase.RollbackRequired?
      modifies this
      ensures Extended() && sys.st == old(sys).st && sys.h == old(sys).h
      ensures !r.Blocked? && Logged(r) && Progress(r)
      ensures old(Out()) ==> Struck(r)
    {
      var _ :- Ask();
      Act(Effect.RestartPredecessor({v}, a.sourceSha));
      r := Ask();
    }

    method RestartPredecessor(a: ReleaseAttempt, predecessor: Sha) returns (r: Outcome<()>)
      requires Valid() && Holds(a) && a.phase.RollbackRequired? && a.predecessorSha == Some(predecessor)
      modifies this
      ensures Extended() && sys.st == old(sys).st
      ensures !r.Blocked? && Logged(r) && Progress(r)
      ensures old(Out()) ==> Struck(r)
      ensures r.Done? ==> sys.h.EndsWith([Restored(a.sourceSha)])
    {
      for i := 0 to |ALL_WRITERS|
        invariant Extended() && sys.st == old(sys).st && refused == old(refused)
        invariant old(Out()) ==> i == 0 && outage == old(outage)
      {
        var _ :- StartExact(a, ALL_WRITERS[i]);
      }
      r := AwaitPredecessor(a, predecessor);
    }

    /** All three captured containers have to be seen healthy at once. */
    method AwaitPredecessor(a: ReleaseAttempt, predecessor: Sha) returns (r: Outcome<()>)
      requires Valid() && Holds(a) && a.phase.RollbackRequired? && a.predecessorSha == Some(predecessor)
      modifies this
      ensures Extended() && sys.st == old(sys).st
      ensures !r.Blocked? && Logged(r) && Progress(r)
      ensures r.Done? ==> sys.h.EndsWith([Restored(a.sourceSha)])
    {
      var _ :- Ask();
      if !world.AllRun(predecessor) {
        r := Refuse(External(NOT_HEALTHY));
        return;
      }
      Act(Observe(Restored(a.sourceSha)));
      Wait();
      r := Done(());
    }

    method CompleteRollback(a: ReleaseAttempt) returns (r: Outcome<()>)
      requires Valid() && Holds(a)
      modifies this, store
      ensures Extended() && !r.Blocked? && Logged(r)
      ensures r.Done? ==> a.sourceSha in store.attempts && store.attempts[a.sourceSha].phase.RolledBack?
      ensures !r.Done? && !r.Crashed? ==> sys.st == old(sys).st
      ensures a.phase.RollbackRequired? ==> Progress(r) && (old(Out()) ==> Struck(r))
    {
      if !a.phase.RollbackRequired? {
        return Defect;
      }
      AttemptFacts(states, acts, a.sourceSha);
      assert a.failureCode.Some?;
      var _ :- RestartPredecessor(a, a.predecessorSha.value);
      var rolledBack :- Advance(a, RolledBack, a.failureCode);
      r := Done(());
    }

    /** `set_forward_fix` on an unset pointer. */
    method PersistForwardFix(a: ReleaseAttempt) returns (r: Outcome<()>)
      requires Valid() && Holds(a) && a.phase.ForwardFixPending? && store.forwardFix.None?
      modifies this, store
      ensures Extended() && refused == old(refused) && outage == old(outage) && (r.Done? || r.Crashed?)
      ensures r.Done? ==> sys == Written(old(sys), SetForwardFix(a.sourceSha))
    {
      if * {
        return Crashed;
      }
      r := store.SetForwardFix(a.sourceSha);
      Stored(SetForwardFix(a.sourceSha));
      if * {
        r := Crashed;
      }
    }

    /** Opens an episode, unless the attempt failed inside one. */
    method PointToFailure(a: ReleaseAttempt) returns (r: Outcome<()>)
      requires Valid() && Holds(a) && a.phase.ForwardFixPending?
      modifies this, store
      ensures Extended() && refused == old(refused) && outage == old(outage) && (r.Done? || r.Crashed?)
      ensures r.Done? ==> store.forwardFix.Some?
      ensures r.Done? ==> store.attempts == old(store.attempts)
    {
      PointersRead(states, acts);
      if store.View().ForwardFixSha().value.None? {
        var _ :- PersistForwardFix(a);
      }
      r := Done(());
    }

    method CompleteForwardFix(a: ReleaseAttempt) returns (r: Outcome<()>)
      requires Valid() && Holds(a)
      modifies this, store
      ensures Extended() && !r.Blocked? && Logged(r)
      ensures r.Done? ==> a.sourceSha in store.attempts && store.attempts[a.sourceSha].phase.ForwardFixRequired?
                          && store.forwardFix.Some? && world.writers == map[]
      ensures !r.Done? && !r.Crashed? ==> store.attempts == old(store.attempts)
      ensures a.phase.ForwardFixPending? ==> Progress(r) && (old(Out()) ==> Struck(r) || r.Crashed?)
    {
      if !a.phase.ForwardFixPending? {
        return Defect;
      }
      AttemptFacts(states, acts, a.sourceSha);
      assert a.failureCode.Some?;
      var _ :- PointToFailure(a);
      var _ :- StopWriters();
      var failed :- Advance(a, ForwardFixRequired, a.failureCode);
      r := Done(());
    }

    /** Stores the settlement a permanent failure calls for and carries it out. Whatever escapes, the intent is stored,
        unless the clock ran behind. */
    method RecordPermanentFailure(a: ReleaseAttempt, code: string) returns (r: Outcome<()>)
      requires Valid() && Holds(a)
      modifies this, store
      ensures Extended() && Logged(r) && !r.Blocked?
      ensures r.Done? ==> a.sourceSha in store.attempts && store.attempts[a.sourceSha].Terminal()
      ensures r.Permanent? || r.External? || (r.Defect? && refused == old(refused)) ==> Settling(a.sourceSha)
      ensures r.External? ==> a.sourceSha in store.attempts && store.attempts[a.sourceSha].phase.Intended()
      ensures !a.Terminal() && !a.phase.Intended() ==> Progress(r)
    {
      PointersRead(states, acts);
      var named := store.View().ForwardFixSha().value;
      PermanentFailureIsLegal(a.phase, named.Some?);
      var outcome :- PermanentFailurePhase(a.phase, named.Some?);
      if outcome !in a.phase.Successors() {
        return Defect;
      }
      if outcome.RollbackRequired? {
        var intent :- Advance(a, RollbackRequired, Some(code));
        r := CompleteRollback(intent);
      } else {
        var intent :- Advance(a, ForwardFixPending, Some(code));
        r := CompleteForwardFix(intent);
      }
    }

    method TerminalizeAttempt(x: Sha, code: string) returns (r: Outcome<()>)
      requires Valid()
      modifies this, store
      ensures Extended() && Logged(r) && !r.Blocked?
      ensures r.Done? ==> if x in old(store.attempts) then x in store.attempts && store.attempts[x].Terminal()
                          else x !in store.attempts
      ensures r.Permanent? || r.External? || (r.Defect? && refused == old(refused)) ==> Settling(x)
      ensures r.External? ==> x in store.attempts && store.attempts[x].phase.Intended()
      ensures Progress(r) && (old(Pending(x) && Out()) ==> Falls(x, r))
    {
      if x !in store.attempts || store.attempts[x].Terminal() {
        return Done(());
      }
      AttemptFacts(states, acts, x);
      var a := store.attempts[x];
      if a.phase.RollbackRequired? {
        r := CompleteRollback(a);
        return;
      }
      if x !in world.bundles {
        return Defect;
      }
      if a.phase.ForwardFixPending? {
        r := CompleteForwardFix(a);
        return;
      }
      r := RecordPermanentFailure(a, code);
    }

    // ----- Durable jobs -----

    /** `docker rm` of a stopped container whose successful output has been taken. */
    method RemoveSettled(job: Job, code: int) returns (r: Outcome<()>)
      requires Valid() && job in world.jobs && world.jobs[job] == Exited(code)
      modifies this
      ensures Extended() && sys.st == old(sys).st && !r.Blocked? && Logged(r) && Progress(r)
      ensures sys.h == old(sys).h || sys.h == old(sys).h.Add(Harvested(job))
      ensures r.Done? ==> job !in world.jobs && (code == 0 ==> sys.h.EndsWith([Harvested(job)]))
    {
      if code == 0 {
        Act(Observe(Harvested(job)));
      }
      r := RemoveExited(job);
    }

    method RemoveExited(job: Job) returns (r: Outcome<()>)
      requires Valid() && job in world.jobs && world.jobs[job].Exited?
      requires world.jobs[job].code == 0 ==> sys.h.EndsWith([Harvested(job)])
      modifies this
      ensures Extended() && sys.st == old(sys).st && !r.Blocked? && Logged(r) && Progress(r) && sys.h == old(sys).h
      ensures r.Done? ==> job !in world.jobs
    {
      var _ :- Ask();
      Act(RemoveJob(job));
      Wait();
      r := Done(());
    }

    /** Takes the result of a container that an earlier process left, if there is one: true if it had succeeded. It
        starts nothing, and blocks as long as the container runs. */
    method SettleComposeJob(job: Job) returns (r: Outcome<bool>)
      requires Valid()
      modifies this
      ensures Extended() && sys.st == old(sys).st && Logged(r) && Progress(r)
      ensures sys.h == old(sys).h || sys.h == old(sys).h.Add(Harvested(job))
      ensures r.Blocked? ==> job in world.jobs && world.jobs[job].Running?
      ensures r.Done? ==> job !in world.jobs
      ensures r == Done(true) ==> sys.h.EndsWith([Harvested(job)])
      ensures r == Done(false) ==> Drifted()
    {
      var _ :- Ask();
      if job !in world.jobs {
        return Done(false);
      }
      if world.jobs[job].Running? {
        r := Refuse(Blocked);
        return;
      }
      var code := world.jobs[job].code;
      var _ :- RemoveSettled(job, code);
      if code == 0 {
        r := Done(true);
      } else {
        r := Refuse(External(JOB_FAILED));
      }
    }

    /** Runs a named container to its end, or takes the result of the one that is already there. */
    method ComposeJob(job: Job) returns (r: Outcome<()>)
      requires Valid()
      requires job !in world.jobs ==> JobGuard(sys, job) && (job.Migration? ==> forall x :: !Migrating(sys, x))
      modifies this
      ensures Extended() && sys.st == old(sys).st && Logged(r) && Progress(r)
      ensures r.Done? ==> job !in world.jobs && sys.h.EndsWith([Harvested(job)])
    {
      var settled :- SettleComposeJob(job);
      if settled {
        return Done(());
      }
      JobGuardStays(old(sys), sys, job);
      Act(StartJob(job));
      r := AwaitJob(job);
    }

    method AwaitJob(job: Job) returns (r: Outcome<()>)
      requires Valid() && job in world.jobs
      modifies this
      ensures Extended() && sys.st == old(sys).st && Logged(r) && Progress(r)
      ensures r.Done? ==> job !in world.jobs && sys.h.EndsWith([Harvested(job)])
    {
      Wait();
      if world.jobs[job].Running? {
        r := Refuse(External(JOB_TIMEOUT));
        return;
      }
      if world.jobs[job].code != 0 {
        r := Refuse(External(JOB_FAILED));
        return;
      }
      r := RemoveSettled(job, 0);
    }

    // ----- Backup -----

    function BackupPath(x: Sha): string {
      "/var/backups/nexus/" + x + ".dump"
    }

    /** The dump of a release: the one already on disk, or a new one. */
    method Backup(a: ReleaseAttempt, identity: string, revision: Revision) returns (r: Outcome<BackupEvidence>)
      requires Valid() && Holds(a) && a.phase.WritersStopped?
      requires world.identity == identity && world.revisions == [revision]
      modifies this
      ensures Extended() && sys.st == old(sys).st && Logged(r) && Progress(r)
      ensures r.Done? ==> Confirmed(sys, a.sourceSha, r.value)
      ensures r.Done? ==> r.value.databaseIdentity == identity && r.value.startingRevision == revision
                          && r.value.byteCount >= 1
    {
      NoMigration(states, acts, a);
      var asked := Ask();
      DriftQuiet(old(sys), sys);
      var _ :- asked;
      if a.sourceSha in world.backups {
        r := ReadBackup(a.sourceSha, identity, revision);
      } else {
        r := TakeBackup(a, identity, revision);
      }
    }

    /** The size of the dump on disk, its verification, and its digest. */
    method ReadBackup(x: Sha, identity: string, revision: Revision) returns (r: Outcome<BackupEvidence>)
      requires Valid() && x in world.backups && forall y :: !Migrating(sys, y)
      requires world.identity == identity && world.revisions == [revision]
      modifies this
      ensures Extended() && sys.st == old(sys).st && Logged(r) && Progress(r)
      ensures r.Done? ==> Confirmed(sys, x, r.value)
      ensures r.Done? ==> r.value.databaseIdentity == identity && r.value.startingRevision == revision
                          && r.value.byteCount >= 1
    {
      var byteCount := world.backups[x].byteCount;
      if byteCount < 1 {
        r := Refuse(Defect);
        return;
      }
      Act(Observe(DumpSized(x, byteCount)));
      ghost var sized := sys;
      QuietSame(old(sys), sys);
      var asked := Ask();
      DriftQuiet(sized, sys);
      var _ :- asked;
      if x !in world.backups {
        return Crashed;
      }
      var digest := world.backups[x].digest;
      r := Done(BackupEvidence(BackupPath(x), digest, byteCount, identity, revision));
      RecordHash(x, r.value);
    }

    /** Logs the digest of a dump whose size was logged before, and lets the world go on. */
    method RecordHash(x: Sha, evidence: BackupEvidence)
      requires Valid() && forall y :: !Migrating(sys, y)
      requires x in world.backups && world.backups[x].digest == evidence.sha256
      requires sys.h.EndsWith([DumpSized(x, evidence.byteCount)])
      modifies this
      ensures Extended() && refused == old(refused) && sys.st == old(sys).st && sys.w.identity == old(sys).w.identity
      ensures sys.w.revisions == old(sys).w.revisions && forall y :: !Migrating(sys, y)
      ensures sys.h.EndsWith([DumpSized(x, evidence.byteCount), DumpHashed(x, evidence.sha256)])
    {
      AddEnds(sys.h, [DumpSized(x, evidence.byteCount)], DumpHashed(x, evidence.sha256));
      assert [DumpSized(x, evidence.byteCount)] + [DumpHashed(x, evidence.sha256)]
          == [DumpSized(x, evidence.byteCount), DumpHashed(x, evidence.sha256)];
      Act(Observe(DumpHashed(x, evidence.sha256)));
      ghost var hashed := sys;
      QuietSame(old(sys), sys);
      Wait();
      DriftQuiet(hashed, sys);
    }

    /** Dumps the database into a partial file, verifies it, and moves it into place. */
    method TakeBackup(a: ReleaseAttempt, identity: string, revision: Revision) returns (r: Outcome<BackupEvidence>)
      requires Valid() && Holds(a) && a.phase.WritersStopped? && a.sourceSha !in world.backups
      requires world.identity == identity && world.revisions == [revision]
      modifies this
      ensures Extended() && sys.st == old(sys).st && Logged(r) && Progress(r)
      ensures r.Done? ==> Confirmed(sys, a.sourceSha, r.value)
      ensures r.Done? ==> r.value.databaseIdentity == identity && r.value.startingRevision == revision
                          && r.value.byteCount >= 1
    {
      var digest: string, byteCount: int := *, *;
      var file := BackupFile(digest, byteCount, world.identity, world.revisions);
      NoMigration(states, acts, a);
      var asked := Ask();
      DriftQuiet(old(sys), sys);
      var _ :- asked;
      if file.byteCount < 1 {
        r := Refuse(Defect);
        return;
      }
      r := Done(BackupEvidence(BackupPath(a.sourceSha), digest, byteCount, identity, revision));
      Place(a, file, r.value);
    }

    method Place(a: ReleaseAttempt, file: BackupFile, evidence: BackupEvidence)
      requires Valid() && Holds(a) && a.phase.WritersStopped? && forall y :: !Migrating(sys, y)
      requires a.sourceSha in world.backups ==> a.sourceSha in world.touched
      requires file.byteCount >= 1 && file.identity == world.identity && file.revisions == world.revisions
      requires evidence.sha256 == file.digest && evidence.byteCount == file.byteCount
      modifies this
      ensures Extended() && refused == old(refused) && sys.st == old(sys).st && sys.w.identity == old(sys).w.identity
      ensures sys.w.revisions == old(sys).w.revisions
      ensures sys.h.EndsWith([DumpSized(a.sourceSha, evidence.byteCount), DumpHashed(a.sourceSha, evidence.sha256)])
    {
      Act(WriteBackup(a.sourceSha, file));
      NoMigration(states, acts, a);
      Act(Observe(DumpSized(a.sourceSha, file.byteCount)));
      NoMigration(states, acts, a);
      RecordHash(a.sourceSha, evidence);
    }

    /** The recorded dump is the one on disk, byte for byte, and the database has not moved since. */
    method ValidateBackup(a: ReleaseAttempt) returns (r: Outcome<()>)
      requires Valid() && Holds(a) && a.phase.BackupVerified?
      modifies this
      ensures Extended() && sys.st == old(sys).st && Logged(r) && Progress(r)
      ensures r.Done? ==> a.backup.Some? && Confirmed(sys, a.sourceSha, a.backup.value)
    {
      NoMigration(states, acts, a);
      if a.backup.None? {
        r := Refuse(Defect);
        return;
      }
      var evidence := a.backup.value;
      var _ :- CompareDump(a.sourceSha, evidence);
      r := CompareDatabase(a, evidence);
    }

    /** Path, size and digest. */
    method CompareDump(x: Sha, evidence: BackupEvidence) returns (r: Outcome<()>)
      requires Valid() && forall y :: !Migrating(sys, y)
      modifies this
      ensures Extended() && sys.st == old(sys).st && Logged(r) && Progress(r)
      ensures r.Done? ==> sys.h.EndsWith([DumpSized(x, evidence.byteCount), DumpHashed(x, evidence.sha256)])
    {
      if evidence.path != BackupPath(x) || x !in world.backups || world.backups[x].byteCount != evidence.byteCount {
        r := Refuse(Defect);
        return;
      }
      Act(Observe(DumpSized(x, evidence.byteCount)));
      ghost var sized := sys;
      QuietSame(old(sys), sys);
      Wait();
      DriftQuiet(sized, sys);
      if x !in world.backups {
        return Crashed;
      }
      if world.backups[x].digest != evidence.sha256 {
        r := Refuse(Defect);
        return;
      }
      RecordHash(x, evidence);
      r := Done(());
    }

    /** Identity and revision, after the dump has been listed once more. */
    method CompareDatabase(a: ReleaseAttempt, evidence: BackupEvidence) returns (r: Outcome<()>)
      requires Valid() && Holds(a) && a.phase.BackupVerified?
      modifies this
      ensures Drifted() && Logged(r) && Progress(r)
      ensures r.Done? ==> world.identity == evidence.databaseIdentity && world.revisions == [evidence.startingRevision]
    {
      var _ :- Ask();
      if world.identity != evidence.databaseIdentity {
        r := Refuse(Defect);
        return;
      }
      ghost var asked := sys;
      NoMigration(states, acts, a);
      var revisions := DatabaseRevisions();
      DriftTransitive(old(sys), asked, sys);
      var observed :- revisions;
      if observed == [evidence.startingRevision] {
        r := Done(());
      } else {
        r := Refuse(Permanent);
      }
    }

    // ----- Proofs of a running release -----

    method ProveBackend(x: Sha) returns (r: Outcome<()>)
      requires Valid() && x in world.bundles
      modifies this
      ensures Extended() && sys.st == old(sys).st && Logged(r)
      ensures Progress(r)
      ensures r.Done? ==> sys.h.EndsWith([Backend(x)]) && Live(sys, x) && sys.h == old(sys).h.Add(Backend(x))
    {
      var _ :- Ask();
      if !world.AtHead(x) {
        r := Refuse(Permanent);
        return;
      }
      if !world.AllRun(x) {
        var healthy: bool := *;
        r := Refuse(if healthy then Permanent else External(NOT_READY));
        return;
      }
      LiveProved(states, acts, x);
      Act(Observe(Backend(x)));
      ghost var proved := sys;
      r := Ask();
      LiveStays(proved, sys, x);
    }

    method AskLive(x: Sha) returns (r: Outcome<()>)
      requires Valid() && Live(sys, x)
      modifies this
      ensures Drifted() && Live(sys, x) && Logged(r) && Progress(r)
    {
      r := Ask();
      LiveStays(old(sys), sys, x);
    }

    method RecordPublic(x: Sha)
      requires Valid() && Live(sys, x) && sys.h.EndsWith([Backend(x)])
      modifies this
      ensures Extended() && sys.st == old(sys).st && sys.w == old(sys).w && sys.h.ProvedPublication(x) && Live(sys, x)
      ensures sys.h == old(sys).h.Add(Public(x)) && refused == old(refused)
    {
      AddEnds(sys.h, [Backend(x)], Public(x));
      assert [Backend(x)] + [Public(x)] == [Backend(x), Public(x)];
      Act(Observe(Public(x)));
    }

    /** The public vector; a frontend that serves another release blocks. */
    method ProvePublic(x: Sha) returns (r: Outcome<()>)
      requires Valid() && sys.h.EndsWith([Backend(x)]) && Live(sys, x)
      modifies this
      ensures Extended() && sys.st == old(sys).st && Logged(r)
      ensures Progress(r)
      ensures r.Done? ==> sys.h.ProvedPublication(x) && Live(sys, x) && sys.h == old(sys).h.Add(Public(x))
    {
      var _ :- AskLive(x);
      var served: bool := *;
      if !served {
        r := Refuse(Blocked);
        return;
      }
      RecordPublic(x);
      r := AskLive(x);
    }

    /** The running backend and the public vector, one after the other. */
    method ProveVector(x: Sha) returns (r: Outcome<()>)
      requires Valid() && x in world.bundles
      modifies this
      ensures Extended() && sys.st == old(sys).st && Logged(r)
      ensures Progress(r)
      ensures r.Done? ==> sys.h.ProvedPublication(x) && Live(sys, x)
      ensures r.Done? ==> sys.h == old(sys).h.Add(Backend(x)).Add(Public(x))
    {
      var _ :- ProveBackend(x);
      r := ProvePublic(x);
    }

    // ----- Pointers and records -----

    /** `complete_published_attempt`; the time matters only if the attempt still has to succeed. */
    method CompletePublished(x: Sha) returns (r: Outcome<ReleaseAttempt>)
      requires Valid() && sys.h.ProvedPublication(x) && (x in store.attempts ==> store.attempts[x].sourceSha == x)
      modifies this, store
      ensures Extended() && Logged(r) && world == old(world) && sys.h == old(sys).h
      ensures r.Done? || r.Crashed? || (r.Defect? && sys.st == old(sys).st)
      ensures r.Done? ==> x in store.attempts && store.attempts[x] == r.value && r.value.phase.Succeeded?
      ensures r.Done? ==> sys.st == old(sys).st.(attempts := old(sys).st.attempts[x := r.value])
      ensures r.Done? ==> sys.st.current == Some(x) && x in sys.st.records
      ensures r.Done? ==> x in old(store.attempts) && !old(store.attempts)[x].phase.DataMutationStarted?
      ensures refused == old(refused) && old(Publishable(store.View(), x)) && old(store.current) == Some(x) ==>
                !r.Defect?
      ensures Publishing(x)
      ensures x in old(store.attempts) && old(store.attempts)[x].phase.Succeeded? ==> sys.st == old(sys).st
    {
      PublishingStill(store.View(), x, world.bundles);
      if * {
        return Crashed;
      }
      var pending := x in store.attempts && !store.attempts[x].phase.Succeeded?;
      var since := if pending then store.attempts[x].createdAt else "";
      var now := Clock(since);
      r := StorePublished(x, now, since);
    }

    method StorePublished(x: Sha, now: string, ghost since: string) returns (r: Outcome<ReleaseAttempt>)
      requires Valid() && sys.h.ProvedPublication(x) && (x in store.attempts ==> store.attempts[x].sourceSha == x)
      requires x in store.attempts && !store.attempts[x].phase.Succeeded? ==> since == store.attempts[x].createdAt
      modifies this, store
      ensures Extended() && refused == old(refused) && world == old(world) && sys.h == old(sys).h
      ensures r.Done? || r.Crashed? || (r.Defect? && sys.st == old(sys).st)
      ensures Less(now, since) && (x in old(store.attempts) ==> !old(store.attempts)[x].phase.Succeeded?) ==> r.Defect?
      ensures r.Done? ==> x in store.attempts && store.attempts[x] == r.value && r.value.phase.Succeeded?
      ensures r.Done? ==> sys.st == old(sys).st.(attempts := old(sys).st.attempts[x := r.value])
      ensures r.Done? ==> sys.st.current == Some(x) && x in sys.st.records
      ensures r.Done? ==> x in old(store.attempts) && !old(store.attempts)[x].phase.DataMutationStarted?
      ensures !Less(now, since) && old(Publishable(store.View(), x)) && old(store.current) == Some(x) ==> !r.Defect?
      ensures Publishing(x)
      ensures x in old(store.attempts) && old(store.attempts)[x].phase.Succeeded? ==> sys.st == old(sys).st
    {
      CompletionAccepted(states, acts, x, now, since);
      PublishingStill(store.View(), x, world.bundles);
      var done := store.CompletePublishedAttempt(x, now);
      if !done.Done? {
        return done.PropagateFailure();
      }
      PublishedWrite(sys, x, now);
      if store.View() != sys.st {
        Stored(ReplaceAttempt(store.attempts[x]));
      }
      var crashed: bool := *;
      r := if crashed then Crashed else Done(store.attempts[x]);
    }

    /** `clear_forward_fix_after_success`. */
    method ClearForwardFix(x: Sha) returns (r: Outcome<()>)
      requires Valid() && sys.h.ProvedPublication(x) && Live(sys, x) && store.current == Some(x)
      requires x in store.attempts && store.attempts[x].phase.Succeeded?
      modifies this, store
      ensures Extended() && refused == old(refused) && world == old(world) && sys.h == old(sys).h
      ensures sys.st == old(sys).st || sys.st == old(sys).st.(forwardFix := None)
      ensures old(sys).st.forwardFix.None? || old(sys).st.forwardFix != store.attempts[x].forwardFixOf ==>
                sys.st == old(sys).st
      ensures r.Done? || r.Crashed?
      ensures r.Done? && store.attempts[x].forwardFixOf.Some? ==> store.forwardFix != store.attempts[x].forwardFixOf
      ensures Publishing(x)
    {
      PublishingStill(store.View(), x, world.bundles);
      if * {
        return Crashed;
      }
      ClearAccepted(states, acts, x);
      r := store.ClearForwardFixAfterSuccess(x);
      if store.View() != sys.st {
        Stored(Write.ClearForwardFix(x));
      }
      if * {
        r := Crashed;
      }
    }

    /** `create_record` for a promoted attempt; an equal record that is already there is left alone. */
    method PersistRecord(a: ReleaseAttempt, record: ReleaseRecord) returns (r: Outcome<()>)
      requires Valid() && Holds(a) && a.phase.FrontendPromoted? && a.sourceSha in world.bundles
      requires record.Of(a, world.bundles[a.sourceSha]) && sys.h.ProvedPublication(a.sourceSha)
      modifies this, store
      ensures Extended() && refused == old(refused) && world == old(world) && sys.h.log == old(sys).h.log
      ensures r.Done? || r.Crashed? || r.Defect?
      ensures old(store.View()).CreateRecord(record).Done? ==> r.Done? || r.Crashed?
      ensures sys.st == old(sys).st.(records := sys.st.records)
      ensures a.sourceSha in old(store.records) ==> store.records == old(store.records)
      ensures r.Done? ==> a.sourceSha in store.records && store.records[a.sourceSha] == record
      ensures Publishing(a.sourceSha)
    {
      PublishingStill(store.View(), a.sourceSha, world.bundles);
      if * {
        return Crashed;
      }
      r := store.CreateRecord(record);
      if store.View() != sys.st {
        Stored(CreateRecord(record));
      }
      if * {
        r := Crashed;
      }
    }

    /** `set_current` for a promoted attempt that has its record. */
    method PersistCurrent(a: ReleaseAttempt) returns (r: Outcome<()>)
      requires Valid() && Holds(a) && a.phase.FrontendPromoted? && store.current != Some(a.sourceSha)
      requires sys.h.ProvedPublication(a.sourceSha) && a.sourceSha in store.records
      modifies this, store
      ensures Extended() && refused == old(refused) && world == old(world) && sys.h == old(sys).h
      ensures sys.st == old(sys).st.(current := sys.st.current)
      ensures r.Done? || r.Crashed?
      ensures r.Done? ==> store.current == Some(a.sourceSha)
      ensures Publishing(a.sourceSha)
    {
      PublishingStill(store.View(), a.sourceSha, world.bundles);
      if * {
        return Crashed;
      }
      CurrentAccepted(states, acts, a);
      r := store.SetCurrent(a.sourceSha);
      Stored(SetCurrent(a.sourceSha));
      if * {
        r := Crashed;
      }
    }

    // ----- Finalize and verify -----

    /** A complete publication: the attempt has succeeded, its record is current, and the episode it fixed is over. */
    ghost predicate Published(x: Sha)
      reads this, store
    {
      x in world.bundles && Complete(store.View(), x, world.bundles[x])
    }

    /** The last two writes of a publication. */
    method Conclude(x: Sha) returns (r: Outcome<ReleaseAttempt>)
      requires Valid() && sys.h.ProvedPublication(x) && Live(sys, x) && store.current == Some(x)
      requires x in store.attempts && store.attempts[x].sourceSha == x
      modifies this, store
      ensures Extended() && Logged(r)
      ensures r.Done? ==> Published(x) && r.value == store.attempts[x]
      ensures old(Publishable(store.View(), x)) ==> Progress(r)
      ensures Publishing(x) && (old(Published(x)) ==> store.View() == old(store.View()))
    {
      var succeeded :- CompletePublished(x);
      ghost var stored := store.View();
      var cleared := ClearForwardFix(x);
      PublishingOn(old(store.View()), stored, store.View(), x, world.bundles);
      var _ :- cleared;
      RecordFacts(states, acts, x);
      r := Done(succeeded);
    }

    /** The record of a promoted attempt; one that an earlier process has written keeps its time. */
    method WriteRecord(a: ReleaseAttempt) returns (r: Outcome<()>)
      requires Valid() && Holds(a) && a.phase.FrontendPromoted? && a.sourceSha in world.bundles
      modifies this, store
      ensures Extended() && Logged(r) && Progress(r)
      ensures sys.st == old(sys).st.(records := sys.st.records) && Publishing(a.sourceSha)
      ensures a.sourceSha in old(store.records) ==> store.records == old(store.records)
      ensures r.Done? ==> a.sourceSha in store.records && sys.h.ProvedPublication(a.sourceSha) && Live(sys, a.sourceSha)
    {
      PublishingStill(store.View(), a.sourceSha, world.bundles);
      var _ :- ProveVector(a.sourceSha);
      var now: string := *;
      var verifiedAt := if a.sourceSha in store.records then store.records[a.sourceSha].verifiedAt else now;
      RecordAccepted(states, acts, a, verifiedAt);
      var record := RecordFromAttempt(a, world.bundles[a.sourceSha], verifiedAt).value;
      r := PersistRecord(a, record);
    }

    /** Record, `current` and Succeeded for a promoted attempt, with the publication proved once more. */
    method Publish(a: ReleaseAttempt) returns (r: Outcome<ReleaseAttempt>)
      requires Valid() && Holds(a) && a.phase.FrontendPromoted? && store.current != Some(a.sourceSha)
      requires a.sourceSha in world.bundles
      modifies this, store
      ensures Extended() && Logged(r) && Progress(r)
      ensures r.Done? ==> Published(a.sourceSha) && r.value == store.attempts[a.sourceSha]
      ensures Publishing(a.sourceSha)
    {
      var _ :- WriteRecord(a);
      ghost var recorded := store.View();
      var current := PersistCurrent(a);
      PublishingOn(old(store.View()), recorded, store.View(), a.sourceSha, world.bundles);
      var _ :- current;
      ghost var moved := store.View();
      r := Conclude(a.sourceSha);
      PublishingOn(old(store.View()), moved, store.View(), a.sourceSha, world.bundles);
    }

    /** A publication that an earlier process had already made current. */
    method Reprove(x: Sha) returns (r: Outcome<ReleaseAttempt>)
      requires Valid() && x in world.bundles && x in store.attempts && store.attempts[x].sourceSha == x
      requires store.current == Some(x)
      modifies this, store
      ensures Extended() && Logged(r)
      ensures r.Done? ==> Published(x) && r.value == store.attempts[x]
      ensures old(Publishable(store.View(), x)) ==> Progress(r)
      ensures Publishing(x) && (old(Published(x)) ==> store.View() == old(store.View()))
    {
      PublishingStill(store.View(), x, world.bundles);
      var _ :- ProveVector(x);
      r := Conclude(x);
    }

    method Promote(a: ReleaseAttempt) returns (r: Outcome<ReleaseAttempt>)
      requires Valid() && Holds(a) && a.phase.AwaitingFrontendPromotion? && a.sourceSha in world.bundles
      modifies this, store
      ensures Extended() && Logged(r) && Progress(r)
      ensures r.Done? ==> Holds(r.value) && r.value.phase.FrontendPromoted? && r.value.sourceSha == a.sourceSha
                          && store.current == old(store.current) && sys.h.ProvedPublication(a.sourceSha)
      ensures Publishing(a.sourceSha)
    {
      PublishingStill(store.View(), a.sourceSha, world.bundles);
      var _ :- ProveVector(a.sourceSha);
      r := Advance(a, FrontendPromoted, None);
    }

    /** From either phase that a publication can be left in before `current` moves. */
    method PublishFrom(a: ReleaseAttempt) returns (r: Outcome<ReleaseAttempt>)
      requires Valid() && Holds(a) && store.current != Some(a.sourceSha) && a.sourceSha in world.bundles
      modifies this, store
      ensures Extended() && Logged(r)
      ensures r.Done? ==> Published(a.sourceSha) && r.value == store.attempts[a.sourceSha]
      ensures a.phase.AwaitingFrontendPromotion? || a.phase.FrontendPromoted? ==> Progress(r)
      ensures Publishing(a.sourceSha)
    {
      PublishingStill(store.View(), a.sourceSha, world.bundles);
      if a.phase.AwaitingFrontendPromotion? {
        var promoted :- Promote(a);
        ghost var stored := store.View();
        r := Publish(promoted);
        PublishingOn(old(store.View()), stored, store.View(), a.sourceSha, world.bundles);
      } else if a.phase.FrontendPromoted? {
        r := Publish(a);
      } else {
        r := Blocked;
      }
    }

    /** The attempt waits for its publication, or has stopped somewhere in it. */
    ghost predicate Finishable(x: Sha, deployment: string)
      reads store
    {
      Publishable(store.View(), x) && store.attempts[x].vercelDeploymentId == deployment
    }

    /** One try of a publication. Whatever becomes of it, the store only moves toward the published one, and the next
        try can go on from there; if nothing is refused outside and the process lives, the publication is complete. A
        complete publication stays as it is. */
    method FinalizeOnce(x: Sha, deployment: string) returns (r: Outcome<ReleaseAttempt>)
      requires Valid()
      modifies this, store
      ensures Extended() && Logged(r)
      ensures r.Done? ==> Published(x) && r.value == store.attempts[x]
      ensures old(Finishable(x, deployment)) ==> Progress(r) && Finishable(x, deployment)
      ensures Publishing(x) && (old(Published(x)) ==> store.View() == old(store.View()))
      ensures (x in old(store.attempts) ==> old(store.attempts)[x].vercelDeploymentId != deployment) ==>
                r.Blocked? && sys == old(sys)
      ensures r.External? && !old(Pending(x)) ==> !Pending(x)
    {
      PublishingStill(store.View(), x, world.bundles);
      if x !in store.attempts || store.attempts[x].vercelDeploymentId != deployment {
        return Blocked;
      }
      AttemptFacts(states, acts, x);
      if x !in world.bundles {
        return Defect;
      }
      r := Finish(x);
      if old(Finishable(x, deployment)) {
        PublishableStays(old(store.View()), store.View(), x, world.bundles[x]);
      }
    }

    /** A publication starts again from where it was stopped. */
    method Finish(x: Sha) returns (r: Outcome<ReleaseAttempt>)
      requires Valid() && x in store.attempts && store.attempts[x].sourceSha == x && x in world.bundles
      modifies this, store
      ensures Extended() && Logged(r)
      ensures r.Done? ==> Published(x) && r.value == store.attempts[x]
      ensures old(Publishable(store.View(), x)) ==> Progress(r)
      ensures Publishing(x) && (old(Published(x)) ==> store.View() == old(store.View()))
    {
      var asked := Ask();
      PublishingStill(store.View(), x, world.bundles);
      var _ :- asked;
      PointersRead(states, acts);
      if store.View().CurrentSha().value == Some(x) {
        r := Reprove(x);
      } else {
        r := PublishFrom(store.attempts[x]);
      }
    }

    /** A publication that is stopped any number of times, after any of its writes, and run again each time. Once it
        completes, the store is the one it added up to at the beginning, and so the same as without any stop, but for
        the times in attempt and record. */
    method FinalizeRepeatedly(x: Sha, deployment: string, stops: nat) returns (r: Outcome<ReleaseAttempt>)
      requires Valid() && Finishable(x, deployment)
      modifies this, store
      ensures Extended() && Finishable(x, deployment) && x in old(world.bundles)
      ensures r.Done? ==> Published(x) && Timeless(store.View(), x) == Form(old(store.View()), x, old(world.bundles)[x])
    {
      AttemptFacts(states, acts, x);
      ghost var begun := store.View();
      PublishingStill(begun, x, world.bundles);
      for i := 0 to stops
        invariant Extended() && Finishable(x, deployment) && PublishingFrom(begun, store.View(), x, world.bundles)
      {
        ghost var stored := store.View();
        var stopped := FinalizeOnce(x, deployment);
        PublishingOn(begun, stored, store.View(), x, world.bundles);
      }
      ghost var stored := store.View();
      r := FinalizeOnce(x, deployment);
      PublishingOn(begun, stored, store.View(), x, world.bundles);
      if r.Done? {
        EndsInForm(begun, store.View(), x, world.bundles[x]);
      }
    }

    /** Proves the current publication once more and closes the episode a crash has left open. */
    method VerifyCurrent(x: Sha) returns (r: Outcome<()>)
      requires Valid()
      modifies this, store
      ensures Extended() && Logged(r)
      ensures sys.st == old(sys).st || sys.st == old(sys).st.(forwardFix := None)
      ensures old(sys).st.forwardFix.None? ==> sys.st == old(sys).st
      ensures r.Done? ==> Published(x) && sys.h.ProvedPublication(x)
      ensures world.bundles == old(world.bundles)
    {
      var _ :- store.AssertNoOracleAttempt();
      var _ :- store.View().RequireCurrentRecord();
      if store.current != Some(x) {
        return Blocked;
      }
      if x !in store.attempts || !store.attempts[x].phase.Succeeded? || x !in store.records || x !in world.bundles {
        return Defect;
      }
      var _ :- ProveVector(x);
      r := ConfirmRecord(x);
    }

    /** The record has to say what was just proved. */
    method ConfirmRecord(x: Sha) returns (r: Outcome<()>)
      requires Valid() && sys.h.ProvedPublication(x) && Live(sys, x) && store.current == Some(x)
      requires x in store.attempts && store.attempts[x].phase.Succeeded? && x in store.records && x in world.bundles
      modifies this, store
      ensures Extended() && Logged(r)
      ensures sys.st == old(sys).st || sys.st == old(sys).st.(forwardFix := None)
      ensures old(sys).st.forwardFix.None? ==> sys.st == old(sys).st
      ensures r.Done? ==> Published(x) && sys.h.ProvedPublication(x)
    {
      var _ :- AskLive(x);
      var record := store.records[x];
      var expected :- RecordFromAttempt(store.attempts[x], world.bundles[x], record.verifiedAt);
      if record != expected {
        return Defect;
      }
      RecordFacts(states, acts, x);
      r := ClearForwardFix(x);
    }

    // ----- Apply -----

    /** Inspects the five services; the writers have to run the current release, or during an episode to be stopped. */
    method CaptureContainers(current: Sha, running: bool) returns (r: Outcome<map<string, ContainerEvidence>>)
      requires Valid()
      modifies this
      ensures Drifted() && Logged(r) && Progress(r)
      ensures r.Done? && !running ==> world.writers == map[]
      ensures r.Done? ==> r.value.Keys == SERVICES
    {
      var _ :- Ask();
      if !running && world.writers != map[] {
        r := Refuse(Defect);
        return;
      }
      if running && !world.AllRun(current) {
        r := Refuse(Permanent);
        return;
      }
      var postgres: ContainerEvidence, caddy: ContainerEvidence := *, *;
      var api: ContainerEvidence, interactive: ContainerEvidence, background: ContainerEvidence := *, *, *;
      r := Done(map["postgres" := postgres, "caddy" := caddy, "api" := api,
                    "worker-interactive" := interactive, "worker-background" := background]);
    }

    method Preflight(x: Sha) returns (r: Outcome<PreflightEvidence>)
      requires Valid()
      modifies this, store
      ensures Extended() && Logged(r) && sys.st == old(sys).st
      ensures r.Done? ==> r.value.containers.Keys == SERVICES && WellFormedScalar(world.identity)
      ensures r.Done? ==>
                && sys.st.AssertNoOracleAttempt().Done? && sys.st.AssertCandidateAdmissible(x).Done?
                && x in world.bundles && r.value.databaseIdentity == world.identity
                && (sys.st.forwardFix.Some? ==> world.writers == map[])
                && sys.st.RequireCurrentRecord().Done?
                && (sys.st.forwardFix.None? ==> sys.h.ProvedPublication(sys.st.RequireCurrentRecord().value.sourceSha))
    {
      var _ :- store.AssertNoOracleAttempt();
      var record :- store.View().RequireCurrentRecord();
      var _ :- store.AssertCandidateAdmissible(x);
      var failed :- store.View().ForwardFixSha();
      if failed.None? {
        var _ :- VerifyCurrent(record.sourceSha);
      }
      if x !in world.bundles {
        return Defect;
      }
      r := Examine(record.sourceSha, failed.None?);
    }

    /** Images, containers, revision, ancestry, identity and capacity. */
    method Examine(current: Sha, running: bool) returns (r: Outcome<PreflightEvidence>)
      requires Valid()
      modifies this
      ensures Drifted() && Logged(r) && Progress(r)
      ensures r.Done? ==> r.value.databaseIdentity == world.identity && WellFormedScalar(world.identity)
      ensures r.Done? ==> r.value.containers.Keys == SERVICES && (!running ==> world.writers == map[])
    {
      var captured :- CaptureContainers(current, running);
      ghost var t := sys;
      var examined := ExamineDatabase();
      DriftTransitive(old(sys), t, sys);
      DriftStops(t, sys);
      var _ :- examined;
      var roomy: bool := *;
      if !roomy {
        r := Refuse(Blocked);
        return;
      }
      var manifest: string, api: string, worker: string := *, *, *;
      var path: string, sha: string := *, *;
      r := Done(PreflightEvidence(manifest, api, worker, path, sha, captured, world.identity));
    }

    /** One revision, its ancestry, and an identity of one line. */
    method ExamineDatabase() returns (r: Outcome<()>)
      requires Valid()
      modifies this
      ensures Drifted() && Logged(r) && Progress(r)
      ensures r.Done? ==> WellFormedScalar(world.identity)
    {
      var observed :- DatabaseRevisions();
      if |observed| != 1 {
        r := Refuse(Permanent);
        return;
      }
      ghost var t := sys;
      r := Ask();
      DriftTransitive(old(sys), t, sys);
      if r.Done? && !WellFormedScalar(world.identity) {
        r := Refuse(Defect);
      }
    }

    /** `create_attempt`. */
    method PersistNew(a: ReleaseAttempt) returns (r: Outcome<()>)
      requires Valid() && CanCreateAttempt(sys, a)
      modifies this, store
      ensures Extended() && refused == old(refused) && (r.Done? || r.Crashed?)
      ensures r.Done? ==> sys == Written(old(sys), CreateAttempt(a)) && Holds(a)
    {
      if * {
        return Crashed;
      }
      r := store.CreateAttempt(a);
      Stored(CreateAttempt(a));
      if * {
        r := Crashed;
      }
    }

    /** Examines the host and stores the attempt of a candidate that has none, bound to `current` and the pointer. */
    method PrepareAttempt(x: Sha, deployment: string, host: string) returns (r: Outcome<(ReleaseAttempt, string)>)
      requires Valid() && x !in store.attempts
      modifies this, store
      ensures Extended() && Logged(r)
      ensures r.Done? ==> Holds(r.value.0) && r.value.0.sourceSha == x && r.value.0.phase.Prepared?
      ensures r.Done? ==> x in world.bundles && r.value.1 == world.identity && WellFormedScalar(world.identity)
      ensures r.Done? ==> && r.value.0.predecessorSha == store.current && r.value.0.forwardFixOf == store.forwardFix
                          && r.value.0.vercelDeploymentId == deployment && r.value.0.productionHost == host
      ensures r.External? ==> sys.st == old(sys).st
    {
      var found :- Preflight(x);
      var record := store.View().RequireCurrentRecord().value;
      PointersRead(states, acts);
      var failed := store.View().ForwardFixSha().value;
      var now: string := *;
      var a :- ReleaseAttempt(1, x, found.manifestSha256, found.apiImageId, found.workerImageId, Some(record.sourceSha),
                              failed, found.containers, found.configPath, found.configSha256, deployment, host,
                              Prepared, None, None, now, now).Checked();
      MayPrepare(states, acts, a);
      var _ :- PersistNew(a);
      r := Done((a, found.databaseIdentity));
    }

    /** Prepared: the writers go down. */
    method StopPhase(a: ReleaseAttempt) returns (r: Outcome<ReleaseAttempt>)
      requires Valid() && Holds(a) && a.phase.Prepared?
      modifies this, store
      ensures Extended() && Logged(r) && Progress(r)
      ensures r.Done? ==> Holds(r.value) && r.value.sourceSha == a.sourceSha && r.value.phase.WritersStopped?
                          && world.writers == map[] && world.identity == old(world.identity)
      ensures r.External? ==> sys.st == old(sys).st
    {
      var _ :- StopWriters();
      r := Advance(a, WritersStopped, None);
    }

    /** `with_backup`, stored. */
    method PersistBackup(a: ReleaseAttempt, evidence: BackupEvidence) returns (r: Outcome<ReleaseAttempt>)
      requires Valid() && Holds(a) && a.phase.WritersStopped? && Confirmed(sys, a.sourceSha, evidence)
               && evidence.Valid()
      modifies this, store
      ensures Extended() && Logged(r) && Progress(r) && !r.External?
      ensures r.Done? ==> Holds(r.value) && r.value.sourceSha == a.sourceSha && r.value.phase.BackupVerified?
                          && r.value.backup == Some(evidence) && sys.w == old(sys).w && sys.h == old(sys).h
    {
      var now := Clock(a.createdAt);
      if Less(now, a.createdAt) {
        return Defect;
      }
      AttemptFacts(states, acts, a.sourceSha);
      var b := a.WithBackup(evidence, now).value;
      GuardOfPhase(sys, a, a.(phase := BackupVerified, backup := Some(evidence)), b);
      var _ :- Persist(b);
      r := Done(b);
    }

    /** WritersStopped, and the database is elsewhere: evidence of a dump, of this database at this revision. */
    method BackupPhase(a: ReleaseAttempt, known: Option<string>, revision: Revision)
      returns (r: Outcome<ReleaseAttempt>)
      requires Valid() && Holds(a) && a.phase.WritersStopped? && world.revisions == [revision]
      requires known.Some? ==> known.value == world.identity && WellFormedScalar(known.value)
      modifies this, store
      ensures Extended() && Logged(r) && Progress(r)
      ensures r.Done? ==> Holds(r.value) && r.value.sourceSha == a.sourceSha && r.value.phase.BackupVerified?
                          && r.value.backup.Some? && Confirmed(sys, a.sourceSha, r.value.backup.value)
                          && r.value.backup.value.startingRevision == revision
      ensures r.External? ==> sys.st == old(sys).st
    {
      NoMigration(states, acts, a);
      var asked := Ask();
      DriftQuiet(old(sys), sys);
      var _ :- asked;
      var identity := if known.Some? then known.value else world.identity;
      if !WellFormedScalar(identity) {
        r := Refuse(Defect);
        return;
      }
      var evidence :- Backup(a, identity, revision);
      r := PersistBackup(a, evidence);
    }

    /** WritersStopped: straight to activation if the database is at the candidate head, through a backup otherwise. */
    method SchemaPhase(a: ReleaseAttempt, known: Option<string>) returns (r: Outcome<ReleaseAttempt>)
      requires Valid() && Holds(a) && a.phase.WritersStopped?
      requires known.Some? ==> known.value == world.identity && WellFormedScalar(known.value)
      modifies this, store
      ensures Extended() && Logged(r) && Progress(r)
      ensures r.Done? ==> Holds(r.value) && r.value.sourceSha == a.sourceSha
                          && (r.value.phase.BackendActivationStarted? || r.value.phase.BackupVerified?)
      ensures r.Done? ==> (r.value.phase.BackendActivationStarted? <==> world.AtHead(a.sourceSha))
      ensures r.Done? && r.value.phase.BackupVerified? ==>
                r.value.backup.Some? && Confirmed(sys, a.sourceSha, r.value.backup.value)
      ensures r.External? ==> sys.st == old(sys).st
    {
      NoMigration(states, acts, a);
      var revisions :- DatabaseRevisions();
      if |revisions| != 1 {
        r := Refuse(Permanent);
        return;
      }
      if revisions == [world.Head(a.sourceSha)] {
        AttemptFacts(states, acts, a.sourceSha);
        r := Advance(a, BackendActivationStarted, None);
      } else {
        r := BackupPhase(a, known, revisions[0]);
      }
    }

    /** BackupVerified: across the boundary if the dump and the database are still what was recorded. */
    method BoundaryPhase(a: ReleaseAttempt) returns (r: Outcome<ReleaseAttempt>)
      requires Valid() && Holds(a) && a.phase.BackupVerified?
      modifies this, store
      ensures Extended() && Logged(r) && Progress(r)
      ensures r.Done? ==> Holds(r.value) && r.value.sourceSha == a.sourceSha && r.value.phase.DataMutationStarted?
                          && r.value.backup == a.backup && a.backup.Some?
                          && Confirmed(sys, a.sourceSha, a.backup.value)
      ensures r.External? ==> sys.st == old(sys).st
    {
      var _ :- ValidateBackup(a);
      r := Advance(a, DataMutationStarted, None);
    }

    method QuietRevisions(a: ReleaseAttempt) returns (r: Outcome<seq<Revision>>)
      requires Valid() && Holds(a) && a.phase.DataMutationStarted?
      modifies this
      ensures Drifted() && Logged(r) && Progress(r)
      ensures r.Done? && Migration(a.sourceSha) !in world.jobs ==>
                world.revisions == r.value && old(world.revisions) == r.value
    {
      if Migration(a.sourceSha) !in world.jobs { NoMigration(states, acts, a); }
      r := DatabaseRevisions();
      if Migration(a.sourceSha) !in old(world.jobs) { DriftQuiet(old(sys), sys); }
    }

    /** The revisions the recovery of a migration starts from; without a migration container they stay as they are. */
    method RecoveryRevisions(a: ReleaseAttempt) returns (r: Outcome<seq<Revision>>)
      requires Valid() && Holds(a) && a.phase.DataMutationStarted?
      modifies this
      ensures Drifted() && Logged(r) && Progress(r)
      ensures r.Done? && Migration(a.sourceSha) !in world.jobs ==>
                world.revisions == r.value && old(world.revisions) == r.value
    {
      var observed :- QuietRevisions(a);
      ghost var before, quiet := sys, Migration(a.sourceSha) !in world.jobs;
      if quiet { NoMigration(states, acts, a); }
      var asked := Ask();
      DriftTransitive(old(sys), before, sys);
      if quiet { DriftQuiet(before, sys); }
      var _ :- asked;
      if |observed| == 1 {
        r := Done(observed);
      } else {
        r := Refuse(Permanent);
      }
    }

    /** The migration has to end with its container gone; one that has landed and been settled is not started again. */
    method SettleMigration(a: ReleaseAttempt) returns (r: Outcome<()>)
      requires Valid() && Holds(a) && a.phase.DataMutationStarted?
      modifies this
      ensures Extended() && sys.st == old(sys).st && Logged(r) && Progress(r)
      ensures r.Done? ==> Migration(a.sourceSha) !in world.jobs
      ensures old(world.AtHead(a.sourceSha)) && Migration(a.sourceSha) !in old(world.jobs) ==>
                sys.h == old(sys).h || sys.h == old(sys).h.Add(Harvested(Migration(a.sourceSha)))
    {
      var revisions :- RecoveryRevisions(a);
      if revisions == [world.Head(a.sourceSha)] {
        var _ :- SettleComposeJob(Migration(a.sourceSha));
        r := Done(());
      } else {
        ghost var quiet := Migration(a.sourceSha) !in world.jobs;
        if quiet { NoMigration(states, acts, a); }
        r := ComposeJob(Migration(a.sourceSha));
      }
    }

    /** DataMutationStarted: migrated, and proved to be at the candidate head. */
    method MigratePhase(a: ReleaseAttempt) returns (r: Outcome<ReleaseAttempt>)
      requires Valid() && Holds(a) && a.phase.DataMutationStarted?
      modifies this, store
      ensures Extended() && Logged(r) && Progress(r)
      ensures r.Done? ==> Holds(r.value) && r.value.sourceSha == a.sourceSha && r.value.phase.BackendActivationStarted?
                          && world.AtHead(a.sourceSha) && Migration(a.sourceSha) !in world.jobs
      ensures r.External? ==> sys.st == old(sys).st
    {
      var _ :- SettleMigration(a);
      NoMigration(states, acts, a);
      var revisions :- DatabaseRevisions();
      if revisions != [world.Head(a.sourceSha)] {
        r := Refuse(Permanent);
        return;
      }
      r := Advance(a, BackendActivationStarted, None);
    }

    /** BackendActivationStarted: the candidate containers come up and prove themselves. */
    method ActivatePhase(a: ReleaseAttempt) returns (r: Outcome<ReleaseAttempt>)
      requires Valid() && Holds(a) && a.phase.BackendActivationStarted? && a.sourceSha in world.bundles
      modifies this, store
      ensures Extended() && Logged(r) && Progress(r)
      ensures r.Done? ==> Holds(r.value) && r.value.sourceSha == a.sourceSha && r.value.phase.AwaitingFrontendPromotion?
                          && sys.h.EndsWith([Backend(a.sourceSha)])
      ensures r.External? ==> sys.st == old(sys).st
    {
      var _ :- StartCandidates(a);
      var _ :- ProveBackend(a.sourceSha);
      r := Advance(a, AwaitingFrontendPromotion, None);
    }

    /** `docker compose up --wait` for the app writers. */
    method StartCandidates(a: ReleaseAttempt) returns (r: Outcome<()>)
      requires Valid() && Holds(a) && a.phase.BackendActivationStarted?
      modifies this
      ensures Extended() && sys.st == old(sys).st && Logged(r) && Progress(r)
    {
      var some: set<Writer> := *;
      Act(StartCandidate(some, a.sourceSha));
      r := Ask();
    }

    /** Carries an attempt through its phases up to AwaitingFrontendPromotion. */
    method Resume(start: ReleaseAttempt, known: Option<string>) returns (r: Outcome<ReleaseAttempt>)
      requires Valid() && Holds(start)
      requires known.Some? ==> known.value == world.identity && WellFormedScalar(known.value)
      modifies this, store
      ensures Extended() && Logged(r)
      ensures r.Done? ==> Holds(r.value) && r.value.sourceSha == start.sourceSha
                          && r.value.phase.AwaitingFrontendPromotion?
      ensures start.phase.UnderWay() ==> Progress(r)
      ensures r.External? && !start.phase.Intended() ==> !Pending(start.sourceSha)
    {
      var a := start;
      if a.phase.Prepared? {
        a :- StopPhase(a);
      }
      if a.phase.WritersStopped? {
        a :- SchemaPhase(a, known);
      }
      r := ResumeCommitted(a);
    }

    method ResumeCommitted(start: ReleaseAttempt) returns (r: Outcome<ReleaseAttempt>)
      requires Valid() && Holds(start)
      modifies this, store
      ensures Extended() && Logged(r)
      ensures r.Done? ==> Holds(r.value) && r.value.sourceSha == start.sourceSha
                          && r.value.phase.AwaitingFrontendPromotion?
      ensures start.phase.UnderWay() && !start.phase.Prepared? && !start.phase.WritersStopped? ==> Progress(r)
      ensures r.External? && !start.phase.Intended() ==> !Pending(start.sourceSha)
    {
      var a := start;
      if a.phase.BackupVerified? {
        a :- BoundaryPhase(a);
      }
      if a.phase.DataMutationStarted? {
        a :- MigratePhase(a);
      }
      r := ResumeMigrated(a);
    }

    method ResumeMigrated(start: ReleaseAttempt) returns (r: Outcome<ReleaseAttempt>)
      requires Valid() && Holds(start)
      modifies this, store
      ensures Extended() && Logged(r)
      ensures r.Done? ==> Holds(r.value) && r.value.sourceSha == start.sourceSha
                          && r.value.phase.AwaitingFrontendPromotion?
      ensures start.phase.BackendActivationStarted? || start.phase.AwaitingFrontendPromotion? ==> Progress(r)
      ensures r.External? && !start.phase.Intended() ==> !Pending(start.sourceSha)
    {
      var a := start;
      if a.phase.BackendActivationStarted? {
        AttemptFacts(states, acts, a.sourceSha);
        a :- ActivatePhase(a);
      }
      r := if a.phase.AwaitingFrontendPromotion? then Done(a) else Blocked;
    }

    /** An attempt that already has a stored failure is settled, and the release blocked. */
    method ResumeExisting(a: ReleaseAttempt, known: Option<string>) returns (r: Outcome<ReleaseAttempt>)
      requires Valid() && Holds(a) && (known.Some? ==> known.value == world.identity && WellFormedScalar(known.value))
      modifies this, store
      ensures Extended() && Logged(r)
      ensures r.Done? ==> Holds(r.value) && r.value.sourceSha == a.sourceSha && r.value.phase.AwaitingFrontendPromotion?
      ensures a.phase.UnderWay() && old(store.forwardFix) != Some(a.sourceSha) ==> Progress(r)
      ensures r.Blocked? && a.phase.RollbackRequired? ==>
                a.sourceSha in store.attempts && store.attempts[a.sourceSha].phase.RolledBack?
      ensures r.Blocked? && a.phase.ForwardFixPending? ==>
                a.sourceSha in store.attempts && store.attempts[a.sourceSha].phase.ForwardFixRequired?
                && store.forwardFix.Some? && world.writers == map[]
      ensures r.External? && !a.phase.Intended() ==> !Pending(a.sourceSha)
      ensures a.phase.Intended() && old(Out()) ==> Falls(a.sourceSha, r)
    {
      if a.phase.RollbackRequired? {
        var _ :- CompleteRollback(a);
        return Blocked;
      }
      AttemptFacts(states, acts, a.sourceSha);
      if a.sourceSha !in world.bundles {
        return Defect;
      }
      if a.phase.ForwardFixPending? {
        var _ :- CompleteForwardFix(a);
        return Blocked;
      }
      r := ResumeUnsettled(a, known);
    }

    /** No failure is stored; a pointer that names the attempt nevertheless would be one. */
    method ResumeUnsettled(a: ReleaseAttempt, known: Option<string>) returns (r: Outcome<ReleaseAttempt>)
      requires Valid() && Holds(a) && (known.Some? ==> known.value == world.identity && WellFormedScalar(known.value))
      requires !a.phase.Intended()
      modifies this, store
      ensures Extended() && Logged(r)
      ensures r.Done? ==> Holds(r.value) && r.value.sourceSha == a.sourceSha && r.value.phase.AwaitingFrontendPromotion?
      ensures a.phase.UnderWay() && old(store.forwardFix) != Some(a.sourceSha) ==> Progress(r)
      ensures r.External? ==> !Pending(a.sourceSha)
    {
      var _ :- Ask();
      PointersRead(states, acts);
      var failed := store.View().ForwardFixSha().value;
      if failed == Some(a.sourceSha) && !a.phase.ForwardFixRequired? {
        ghost var before, done := states, acts;
        var recorded := RecordPermanentFailure(a, "failure-publication-recovered");
        r := if recorded.Done? then Blocked else recorded.PropagateFailure();
        PointerElsewhere(before, done, a.sourceSha);
        return;
      }
      r := Resume(a, known);
    }

    /** An attempt of this deployment. */
    predicate Bound(x: Sha, deployment: string, host: string)
      reads store
    {
      && x in store.attempts && store.attempts[x].vercelDeploymentId == deployment
      && store.attempts[x].productionHost == host
    }

    /** An attempt of this deployment that has not failed and not yet reached its frontend promotion. */
    ghost predicate Resumable(x: Sha, deployment: string, host: string)
      reads store
    {
      Bound(x, deployment, host) && store.attempts[x].phase.UnderWay()
    }

    /** One try of `apply`. An attempt under way gets to AwaitingFrontendPromotion, unless something is refused
        outside or the process dies. */
    method ApplyOnce(x: Sha, deployment: string, host: string) returns (r: Outcome<ReleaseAttempt>)
      requires Valid()
      modifies this, store
      ensures Extended() && Logged(r)
      ensures r.Done? ==> Holds(r.value) && r.value.sourceSha == x && r.value.phase.AwaitingFrontendPromotion?
      ensures x in old(store.attempts)
              && (old(store.attempts)[x].vercelDeploymentId != deployment
                  || old(store.attempts)[x].productionHost != host)
              ==> !r.Done? && sys == old(sys)
      ensures old(Resumable(x, deployment, host)) ==> Progress(r)
      ensures r.External? && !old(Pending(x)) ==> !Pending(x)
      ensures old(Pending(x) && Bound(x, deployment, host) && Out()) ==> Falls(x, r)
    {
      ResumableAdmitted(states, acts, x);
      var _ :- store.AssertNoOracleAttempt();
      var _ :- store.AssertCandidateAdmissible(x);
      if x !in store.attempts {
        var prepared :- PrepareAttempt(x, deployment, host);
        r := ResumeExisting(prepared.0, Some(prepared.1));
        return;
      }
      AttemptFacts(states, acts, x);
      var a := store.attempts[x];
      if a.vercelDeploymentId != deployment || a.productionHost != host {
        return Blocked;
      }
      r := ResumeExisting(a, None);
    }

    // ----- Retries -----

    /** The durable phase an external failure was met in, and the operation that failed. */
    function RetryKey(x: Sha, operation: string): Retry
      reads store
    {
      KeyAt(store.attempts, x, operation)
    }

    /** What was refused since the call began. */
    twostate function Since(): seq<Refusal>
      reads this
    {
      if |old(refused)| <= |refused| then refused[|old(refused)|..] else []
    }

    /** Settles the attempt before the failure escapes; a failure of the settlement itself takes its place, and if it is
        external it is met in a phase of settlement. */
    method GiveUp(x: Sha, failure: Outcome<ReleaseAttempt>, code: string) returns (r: Outcome<ReleaseAttempt>)
      requires Valid() && (failure.Permanent? || (failure.External? && failure.operation in Operations()))
      modifies this, store
      ensures Extended() && !r.Done? && old(refused) <= refused && Settlement(x, Since())
      ensures r.Permanent? || r.External? ==> Settling(x)
      ensures old(Pending(x) && Out()) ==> Falls(x, r)
    {
      var settled := TerminalizeAttempt(x, code);
      r := if settled.Done? then failure else settled.PropagateFailure();
    }

    /** The exception handlers around one try, whose failure has just been logged: retry, or settle the attempt and let
        the failure escape. */
    method Handle(x: Sha, failure: Outcome<ReleaseAttempt>, failures: map<Retry, nat>)
      returns (r: Outcome<ReleaseAttempt>, counted: map<Retry, nat>, again: bool)
      requires Valid() && !failure.Done? && Retryable(failures, Operations())
      requires failure.External? ==> failure.operation in Operations()
      modifies this, store
      ensures Extended() && !r.Done? && old(refused) <= refused && Settlement(x, Since())
      ensures !failure.Permanent? && !failure.External? ==> r == failure
      ensures again <==> failure.External? && old(RetryKey(x, failure.operation)) !in failures
      ensures again ==> sys == old(sys) && refused == old(refused) && outage == old(outage)
      ensures counted == if failure.External? then Counted(failures, old(RetryKey(x, failure.operation))) else failures
      ensures if again then Retryable(counted, Operations()) else Bounded(counted, Operations())
      ensures again ==> Left(counted, Operations()) < Left(failures, Operations())
      ensures !again && (r.Permanent? || r.External?) ==> Settling(x)
      ensures !again && failure.External? && old(Pending(x) && Out()) ==> Falls(x, r)
    {
      r, counted, again := failure, failures, false;
      if failure.Permanent? {
        r := GiveUp(x, failure, "candidate-invariant");
      } else if failure.External? {
        counted, again := CountFailure(failures, Operations(), RetryKey(x, failure.operation));
        if !again {
          r := GiveUp(x, failure, "external-exhausted");
        }
      }
    }

    /** What `apply` and `finalize` ask for before their first try. */
    method Admit(ghost x: Sha) returns (r: Outcome<()>)
      requires Valid()
      ensures !r.Permanent? && !r.External?
      ensures x in store.attempts && !store.attempts[x].Terminal() ==> r.Done?
    {
      ResumableAdmitted(states, acts, x);
      PointersRead(states, acts);
      var _ :- store.AssertNoOracleAttempt();
      r := if store.View().RequireCurrentRecord().Done? then Done(()) else Blocked;
    }

    // ----- Apply -----

    /** A stored failure waits to be carried out, and the next two commands outside fail alike. */
    predicate Doomed(x: Sha, deployment: string, host: string)
      reads this, store
    {
      Pending(x) && Bound(x, deployment, host) && Out() && |outage| >= 2 && outage[1] == outage[0]
    }

    /** And the one after them. */
    predicate TwiceDoomed(x: Sha, deployment: string, host: string)
      reads this, store
    {
      Doomed(x, deployment, host) && |outage| >= 3 && outage[2] == outage[0]
    }

    /** `apply`: retries external failures, and settles the attempt when it gives up. No operation fails more often than
        twice in one phase, unless the call begins with a stored failure to carry out: then it can fail a third time in
        the settlement, and does so if the commands outside keep failing. */
    method Apply(x: Sha, deployment: string, host: string) returns (r: Outcome<ReleaseAttempt>)
      requires Valid()
      modifies this, store
      ensures Extended() && old(refused) <= refused && RarelyRefused(x, Since(), old(Pending(x)))
      ensures r.Done? ==> Holds(r.value) && r.value.sourceSha == x && r.value.phase.AwaitingFrontendPromotion?
      ensures r.Permanent? || r.External? ==> Settling(x)
      ensures old(TwiceDoomed(x, deployment, host)) ==>
                || (r.Crashed? && old(store.attempts)[x].phase.ForwardFixPending?)
                || Occurrences(x, Since(), old(RetryKey(x, outage[0]))) == 3
    {
      NothingTallied(x, Pending(x));
      var admitted := Admit(x);
      if !admitted.Done? {
        return admitted.PropagateFailure();
      }
      ghost var call := Begins(x, TwiceDoomed(x, deployment, host));
      r := ApplyRetrying(x, deployment, host, call);
      if call.doomed {
        ThreeTimes(x, call.Blow());
      }
    }

    /** One try of `apply`, with its exception handlers. `tried` is the log before a settlement. */
    method TryOnce(x: Sha, deployment: string, host: string, failures: map<Retry, nat>)
      returns (r: Outcome<ReleaseAttempt>, counted: map<Retry, nat>, again: bool, ghost tried: seq<Refusal>)
      requires Valid() && Retryable(failures, Operations())
      modifies this, store
      ensures Extended() && tried <= refused && Settlement(x, refused[|tried|..])
      ensures tried == old(refused) || (|tried| == |old(refused)| + 1 && old(refused) <= tried)
      ensures var key := NewKey(x, old(refused), tried);
              && counted == (if key.Some? then Counted(failures, key.value) else failures)
              && (!old(Pending(x)) && key.Some? ==> !key.value.Settles())
      ensures if again then Retryable(counted, Operations()) && refused == tried else Bounded(counted, Operations())
      ensures again ==> Left(counted, Operations()) < Left(failures, Operations()) && (old(Pending(x)) || !Pending(x))
      ensures !again && r.Done? ==> Holds(r.value) && r.value.sourceSha == x && r.value.phase.AwaitingFrontendPromotion?
      ensures !again && (r.Permanent? || r.External?) ==> Settling(x)
      ensures old(Doomed(x, deployment, host)) ==>
                || (!again && r.Crashed? && old(store.attempts)[x].phase.ForwardFixPending?)
                || Blown(x, old(Begins(x, true)), failures, counted, again, Begins(x, true))
    {
      ghost var doomed, now := Doomed(x, deployment, host), Begins(x, true);
      r := ApplyOnce(x, deployment, host);
      assert doomed && r.External? ==>
               Pending(x) && Out() && outage[0] == now.outage[0] && refused == now.refused + [now.Blow()];
      tried, counted, again := refused, failures, false;
      assert NewKey(x, old(refused), tried) == if r.External? then Some(RetryKey(x, r.operation)) else None;
      if !r.Done? {
        ghost var failed, met := r.External?, Begins(x, true);
        r, counted, again := Handle(x, r, failures);
        if doomed && failed && (again || !r.Crashed?) {
          BlownBy(x, now, met, failures, counted, again, Begins(x, true));
        }
      }
    }

    /** The same in the course of a call. */
    method TryApply(x: Sha, deployment: string, host: string, failures: map<Retry, nat>, ghost call: Call)
      returns (r: Outcome<ReleaseAttempt>, counted: map<Retry, nat>, again: bool)
      requires Valid() && Retryable(failures, Operations()) && InCourse(x, failures, call)
      requires call.doomed ==> Bound(x, deployment, host)
      modifies this, store
      ensures Extended() && call.refused <= refused
      ensures again ==> Retryable(counted, Operations()) && InCourse(x, counted, call)
      ensures again ==> Left(counted, Operations()) < Left(failures, Operations())
      ensures again && call.doomed ==> store.attempts == old(store.attempts)
      ensures !again ==> RarelyRefused(x, refused[|call.refused|..], call.pending)
      ensures !again && r.Done? ==> Holds(r.value) && r.value.sourceSha == x && r.value.phase.AwaitingFrontendPromotion?
      ensures !again && (r.Permanent? || r.External?) ==> Settling(x)
      ensures !again && call.doomed ==>
                || (r.Crashed? && old(store.attempts)[x].phase.ForwardFixPending?)
                || refused[|call.refused|..] == [call.Blow(), call.Blow(), call.Blow()]
    {
      if call.doomed {
        HalfwayNext(x, call, failures, refused, outage);
      }
      ghost var tried;
      r, counted, again, tried := TryOnce(x, deployment, host, failures);
      TryTallied(x, call.refused, old(refused), tried, failures);
      if !again {
        SettlementIsRare(x, call.refused, tried, refused, counted, Operations(), call.pending);
      }
    }

    /** Where a call stands between two tries. */
    ghost predicate InCourse(x: Sha, failures: map<Retry, nat>, call: Call)
      reads this, store
    {
      && call.refused <= refused && Tallied(x, refused[|call.refused|..], failures)
      && (call.pending || (!Pending(x) && Unsettling(failures)))
      && (call.doomed ==> Pending(x) && Out() && store.attempts == call.attempts
                          && Halfway(x, call, failures, refused, outage))
    }

    /** What is so now, for a call that begins. */
    ghost function Begins(x: Sha, doomed: bool): Call
      reads this, store
    {
      Call(refused, store.attempts, outage, Pending(x), doomed)
    }

    /** The loop: it ends because each retry uses up a key. */
    method ApplyRetrying(x: Sha, deployment: string, host: string, ghost call: Call)
      returns (r: Outcome<ReleaseAttempt>)
      requires Valid() && InCourse(x, map[], call) && (call.doomed ==> Bound(x, deployment, host))
      modifies this, store
      ensures Extended() && call.refused <= refused && RarelyRefused(x, refused[|call.refused|..], call.pending)
      ensures r.Done? ==> Holds(r.value) && r.value.sourceSha == x && r.value.phase.AwaitingFrontendPromotion?
      ensures r.Permanent? || r.External? ==> Settling(x)
      ensures call.doomed ==>
                || (r.Crashed? && old(store.attempts)[x].phase.ForwardFixPending?)
                || refused[|call.refused|..] == [call.Blow(), call.Blow(), call.Blow()]
    {
      var failures: map<Retry, nat> := map[];
      while true
        invariant Extended() && Retryable(failures, Operations()) && InCourse(x, failures, call)
        invariant call.doomed ==> store.attempts == old(store.attempts)
        decreases Left(failures, Operations())
      {
        var again;
        r, failures, again := TryApply(x, deployment, host, failures, call);
        if !again {
          return;
        }
      }
    }

    // ----- Finalize, with the same retries -----

    /** `finalize`. */
    method Finalize(x: Sha, deployment: string) returns (r: Outcome<ReleaseAttempt>)
      requires Valid()
      modifies this, store
      ensures Extended() && old(refused) <= refused && RarelyRefused(x, Since(), old(Pending(x)))
      ensures r.Done? ==> Published(x) && r.value == store.attempts[x] && Publishing(x)
      ensures r.Permanent? || r.External? ==> Settling(x)
    {
      NothingTallied(x, Pending(x));
      var admitted := Admit(x);
      if !admitted.Done? {
        return admitted.PropagateFailure();
      }
      PublishingStill(store.View(), x, world.bundles);
      r := FinalizeRetrying(x, deployment, Begins(x, false), store.View());
    }

    /** One try of `finalize`, with its exception handlers. `tried` is the log before a settlement. */
    method FinishOnce(x: Sha, deployment: string, failures: map<Retry, nat>)
      returns (r: Outcome<ReleaseAttempt>, counted: map<Retry, nat>, again: bool, ghost tried: seq<Refusal>)
      requires Valid() && Retryable(failures, Operations())
      modifies this, store
      ensures Extended() && tried <= refused && Settlement(x, refused[|tried|..])
      ensures tried == old(refused) || (|tried| == |old(refused)| + 1 && old(refused) <= tried)
      ensures var key := NewKey(x, old(refused), tried);
              && counted == (if key.Some? then Counted(failures, key.value) else failures)
              && (!old(Pending(x)) && key.Some? ==> !key.value.Settles())
      ensures if again then Retryable(counted, Operations()) && refused == tried else Bounded(counted, Operations())
      ensures again ==> Left(counted, Operations()) < Left(failures, Operations()) && (old(Pending(x)) || !Pending(x))
      ensures !again && r.Done? ==> Published(x) && r.value == store.attempts[x]
      ensures again || r.Done? ==> Publishing(x)
      ensures !again && (r.Permanent? || r.External?) ==> Settling(x)
    {
      r := FinalizeOnce(x, deployment);
      tried, counted, again := refused, failures, false;
      assert NewKey(x, old(refused), tried) == if r.External? then Some(RetryKey(x, r.operation)) else None;
      if !r.Done? {
        r, counted, again := Handle(x, r, failures);
      }
    }

    /** The same in the course of a call that began with `stored` in the store. */
    method TryFinalize(x: Sha, deployment: string, failures: map<Retry, nat>, ghost call: Call, ghost stored: State)
      returns (r: Outcome<ReleaseAttempt>, counted: map<Retry, nat>, again: bool)
      requires Valid() && Retryable(failures, Operations()) && InCourse(x, failures, call) && !call.doomed
      requires PublishingFrom(stored, store.View(), x, world.bundles)
      modifies this, store
      ensures Extended() && call.refused <= refused
      ensures again ==> Retryable(counted, Operations()) && InCourse(x, counted, call)
      ensures again ==> Left(counted, Operations()) < Left(failures, Operations())
      ensures !again ==> RarelyRefused(x, refused[|call.refused|..], call.pending)
      ensures !again && r.Done? ==> Published(x) && r.value == store.attempts[x]
      ensures again || r.Done? ==> PublishingFrom(stored, store.View(), x, world.bundles)
      ensures !again && (r.Permanent? || r.External?) ==> Settling(x)
    {
      ghost var tried;
      r, counted, again, tried := FinishOnce(x, deployment, failures);
      TryTallied(x, call.refused, old(refused), tried, failures);
      if !again {
        SettlementIsRare(x, call.refused, tried, refused, counted, Operations(), call.pending);
      }
      if again || r.Done? {
        PublishingOn(stored, old(store.View()), store.View(), x, world.bundles);
      }
    }

    /** The loop: it ends because each retry uses up a key. */
    method FinalizeRetrying(x: Sha, deployment: string, ghost call: Call, ghost stored: State)
      returns (r: Outcome<ReleaseAttempt>)
      requires Valid() && InCourse(x, map[], call) && !call.doomed
      requires PublishingFrom(stored, store.View(), x, world.bundles)
      modifies this, store
      ensures Extended() && call.refused <= refused && RarelyRefused(x, refused[|call.refused|..], call.pending)
      ensures r.Done? ==> Published(x) && r.value == store.attempts[x]
      ensures r.Done? ==> PublishingFrom(stored, store.View(), x, world.bundles)
      ensures r.Permanent? || r.External? ==> Settling(x)
    {
      var failures: map<Retry, nat> := map[];
      while true
        invariant Extended() && Retryable(failures, Operations()) && InCourse(x, failures, call)
        invariant PublishingFrom(stored, store.View(), x, world.bundles)
        decreases Left(failures, Operations())
      {
        var again;
        r, failures, again := TryFinalize(x, deployment, failures, call, stored);
        if !again {
          return;
        }
      }
    }

    // ----- Failures reported from outside -----

    /** An attempt of this deployment that has no outcome yet. */
    ghost predicate Open(x: Sha, deployment: string)
      reads store
    {
      x in store.attempts && store.attempts[x].vercelDeploymentId == deployment && !store.attempts[x].Terminal()
    }

    /** `fail_bound_frontend` and `fail_auth_smoke`: an open attempt gets its outcome, unless something is refused
        outside or the process dies; any other is left alone. */
    method SettleFrontendFailure(x: Sha, deployment: string, code: string) returns (r: Outcome<ReleaseAttempt>)
      requires Valid()
      modifies this, store
      ensures Extended() && Logged(r)
      ensures r.Done? ==> Holds(r.value) && r.value.sourceSha == x && r.value.Terminal()
      ensures r.Permanent? || r.External? ==> Settling(x)
      ensures if old(Open(x, deployment)) then Progress(r) else !r.Done? && sys == old(sys)
    {
      ResumableAdmitted(states, acts, x);
      PointersRead(states, acts);
      var _ :- store.AssertNoOracleAttempt();
      var current := store.current;
      if current.None? {
        return Blocked;
      }
      if x !in store.attempts || store.attempts[x].vercelDeploymentId != deployment || store.attempts[x].Terminal() {
        return Blocked;
      }
      var _ :- TerminalizeAttempt(x, code);
      if x !in store.attempts || !store.attempts[x].Terminal() {
        return Defect;
      }
      AttemptFacts(states, acts, x);
      r := Done(store.attempts[x]);
    }
  }
}
