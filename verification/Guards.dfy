/** What the world can do between two steps of a command, and what a reachable state lets a command do next. */
module Guards {
  import opened Outcomes
  import opened Ordering
  import opened Model
  import opened Store
  import opened Protocol
  import opened Invariant
  import opened Runs
  import opened Safety
  import opened Publication

  // ----- What the world does on its own -----

  predicate Migrating(s: Sys, x: Sha) {
    && Migration(x) in s.w.jobs && s.w.jobs[Migration(x)].Running?
    && x in s.st.attempts && s.st.attempts[x].phase.DataMutationStarted?
  }

  /** The dump of `x` is as it was. */
  predicate SameDump(w: World, after: World, x: Sha) {
    if x in w.backups then x in after.backups && after.backups[x] == w.backups[x] else x !in after.backups
  }

  /** Between two steps of a command a writer may die, a job may end, a running migration may land, and dumps may be
      changed by somebody else. */
  ghost predicate Drift(s: Sys, t: Sys) {
    && t.st == s.st && t.h == s.h
    && t.w.bundles == s.w.bundles && t.w.identity == s.w.identity
    && (forall v :: v in t.w.writers ==> v in s.w.writers && t.w.writers[v] == s.w.writers[v])
    && t.w.jobs.Keys == s.w.jobs.Keys
    && (forall job :: job in s.w.jobs && s.w.jobs[job].Exited? ==> t.w.jobs[job] == s.w.jobs[job])
    && s.w.touched <= t.w.touched && (forall x :: x !in t.w.touched ==> SameDump(s.w, t.w, x))
    && (t.w.revisions == s.w.revisions || exists x :: Migrating(s, x))
  }

  lemma DriftTransitive(s: Sys, t: Sys, u: Sys)
    requires Drift(s, t) && Drift(t, u)
    ensures Drift(s, u)
  {
    if u.w.revisions != t.w.revisions {
      var x :| Migrating(t, x);
      assert Migrating(s, x);
    }
  }

  predicate Moves(effect: Effect) {
    effect.StopSome? || effect.ExitJob? || effect.Migrate? || effect.TouchBackup?
  }

  lemma DriftStep(s: Sys, effect: Effect)
    requires Moves(effect) && EffectEnabled(s, effect)
    ensures Drift(s, Effected(s, effect))
  {
    if effect.Migrate? {
      assert Migrating(s, effect.x);
    }
  }

  /** Stopped writers stay stopped, and nothing starts by itself. */
  lemma DriftStops(s: Sys, t: Sys)
    requires Drift(s, t)
    ensures s.w.writers == map[] ==> t.w.writers == map[]
    ensures forall x :: s.w.OnlyRuns(x) ==> t.w.OnlyRuns(x)
  {
    if t.w.writers != map[] {
      var v :| v in t.w.writers;
    }
  }

  lemma AddEnds(h: History, tail: seq<Event>, e: Event)
    requires h.EndsWith(tail)
    ensures h.Add(e).EndsWith(tail + [e]) && h.Add(e).EndsWith([e])
  {
  }

  lemma DriftQuiet(s: Sys, t: Sys)
    requires Drift(s, t) && forall x :: !Migrating(s, x)
    ensures t.w.revisions == s.w.revisions && forall x :: !Migrating(t, x)
  {
    forall x ensures !Migrating(t, x) {
      assert !Migrating(s, x);
    }
  }

  lemma QuietSame(s: Sys, t: Sys)
    requires t.st == s.st && t.w.jobs == s.w.jobs && forall x :: !Migrating(s, x)
    ensures forall x :: !Migrating(t, x)
  {
    forall x ensures !Migrating(t, x) {
      assert !Migrating(s, x);
    }
  }

  // ----- What a reachable state lets a command do -----

  lemma TraceInv(states: seq<Sys>, acts: seq<Action>)
    requires Trace(states, acts)
    ensures Inv(states[|acts|])
  {
    TraceIsRun(states, acts);
    RunInv(states[0], acts);
  }

  lemma TraceSchema(states: seq<Sys>, acts: seq<Action>)
    requires Trace(states, acts)
    ensures Schema(states[|acts|].st, states[|acts|].w) && Episode(states[|acts|].st)
  {
    TraceInv(states, acts);
  }

  lemma TracePrefix(states: seq<Sys>, acts: seq<Action>, i: nat)
    requires Trace(states, acts) && i <= |acts|
    ensures Trace(states[..i + 1], acts[..i])
  {
    assert states[..i + 1][..1] == states[..1];
  }

  /** In every state that a host has passed through, in whatever command and before whatever crash, each running writer
      expects the revision the database has, and no scan of the store finds two attempts under way. */
  lemma TraceIsSafe(states: seq<Sys>, acts: seq<Action>, i: nat)
    requires Trace(states, acts) && i <= |acts|
    ensures Compatible(states[i].w)
    ensures states[i].st.ActiveAttempt().Done? && states[i].st.ActiveOracleAttempt().Done?
  {
    TracePrefix(states, acts, i);
    TraceIsRun(states[..i + 1], acts[..i]);
    SchemaCompatible(states[0], acts[..i]);
    ReadsNeverDefect(states[0], acts[..i]);
  }

  lemma AttemptFacts(states: seq<Sys>, acts: seq<Action>, x: Sha)
    requires Trace(states, acts) && x in states[|acts|].st.attempts
    ensures var s := states[|acts|];
            && AttemptFile(s.w.bundles, x, s.st.attempts[x])
            && (s.st.attempts[x].phase.WritersStopped? ==> Migration(x) !in s.w.jobs)
  {
    TraceInv(states, acts);
  }

  /** A step of `advance` is one the store accepts. */
  lemma AdvanceSteps(a: ReleaseAttempt, next: ReleasePhase, now: string, code: Option<string>)
    requires a.Advance(next, now, code).Done?
    ensures var b := a.Advance(next, now, code).value;
            a.StepsTo(b) && b.Valid() && b.sourceSha == a.sourceSha && b.phase == next && b.backup == a.backup
  {
  }

  lemma GuardOfPhase(s: Sys, o: ReleaseAttempt, a: ReleaseAttempt, b: ReleaseAttempt)
    requires PhaseGuard(s, o, a) && b.sourceSha == a.sourceSha && b.phase == a.phase && b.backup == a.backup
    ensures PhaseGuard(s, o, b)
  {
  }

  /** The next phase of a stored attempt can be stored. */
  lemma AdvanceAccepted(states: seq<Sys>, acts: seq<Action>, a: ReleaseAttempt, next: ReleasePhase, now: string,
                        code: Option<string>)
    requires Trace(states, acts) && a.sourceSha in states[|acts|].st.attempts
    requires states[|acts|].st.attempts[a.sourceSha] == a && PhaseGuard(states[|acts|], a, a.(phase := next))
    requires next in a.phase.Successors() && next.Failed() == code.Some? && (next.BackupVerified? ==> a.backup.Some?)
    requires !Less(now, a.createdAt)
    ensures a.Advance(next, now, code).Done?
    ensures var s, b := states[|acts|], a.Advance(next, now, code).value;
            && CanReplaceAttempt(s, b) && b.phase == next && b.WithProgressOf(a) == a && b.backup == a.backup
            && (next.FrontendPromoted? ==>
                  PublishingFrom(s.st, Written(s, ReplaceAttempt(b)).st, b.sourceSha, s.w.bundles))
  {
    AttemptFacts(states, acts, a.sourceSha);
    AdvanceAccepts(a, next, now, code);
    AdvanceSteps(a, next, now, code);
    var s, b := states[|acts|], a.Advance(next, now, code).value;
    GuardOfPhase(s, a, a.(phase := next), b);
    if next.FrontendPromoted? {
      TowardAttempt(s.st, b, a.sourceSha, s.w.bundles[a.sourceSha]);
    }
  }

  /** Only the migration of the attempt under way can land. */
  lemma NoMigration(states: seq<Sys>, acts: seq<Action>, a: ReleaseAttempt)
    requires Trace(states, acts) && a.sourceSha in states[|acts|].st.attempts && !a.Terminal()
    requires states[|acts|].st.attempts[a.sourceSha] == a
    requires a.phase.DataMutationStarted? ==> Migration(a.sourceSha) !in states[|acts|].w.jobs
    ensures forall x :: !Migrating(states[|acts|], x)
  {
    TraceIsRun(states, acts);
    RunExclusive(states[0], acts);
  }

  /** The guard of a job does not lapse while the world moves on its own. */
  lemma JobGuardStays(s: Sys, t: Sys, job: Job)
    requires Drift(s, t) && JobGuard(s, job) && (job.Migration? ==> forall x :: !Migrating(s, x))
    ensures JobGuard(t, job)
  {
    DriftStops(s, t);
  }

  /** What a proof of the running backend of `x` leaves behind: nothing else runs, and during a forward-fix episode
      the schema is the one of `x` and no other attempt is under way. */
  ghost predicate Live(s: Sys, x: Sha) {
    && s.w.OnlyRuns(x)
    && (s.st.forwardFix.Some? && x in s.st.attempts && !s.st.attempts[x].phase.DataMutationStarted? ==>
          s.w.AtHead(x) && forall y :: y in s.st.attempts && !s.st.attempts[y].phase.Terminal() ==> y == x)
  }

  lemma LiveAlone(s: Sys, x: Sha, y: Sha)
    requires Schema(s.st, s.w) && Episode(s.st) && s.st.forwardFix.Some? && s.w.AllRun(x)
    requires y in s.st.attempts && !s.st.attempts[y].phase.Terminal()
    ensures y == x
  {
    assert SchemaDuring(s.w, s.st.current.value, y, s.st.attempts[y]);
    assert InEpisode(s.st.forwardFix, y, s.st.attempts[y]);
    assert Api in s.w.writers && s.w.writers[Api] == x;
  }

  lemma LiveProved(states: seq<Sys>, acts: seq<Action>, x: Sha)
    requires Trace(states, acts) && states[|acts|].w.AllRun(x) && states[|acts|].w.AtHead(x)
    ensures Live(states[|acts|], x)
  {
    TraceSchema(states, acts);
    var s := states[|acts|];
    forall y | s.st.forwardFix.Some? && y in s.st.attempts && !s.st.attempts[y].phase.Terminal() ensures y == x {
      LiveAlone(s, x, y);
    }
  }

  lemma LiveStays(s: Sys, t: Sys, x: Sha)
    requires Live(s, x) && Drift(s, t)
    ensures Live(t, x)
  {
    DriftStops(s, t);
    if s.st.forwardFix.Some? && x in s.st.attempts && !s.st.attempts[x].phase.DataMutationStarted? {
      assert forall y :: !Migrating(s, y);
    }
  }

  /** An attempt under way is admitted to be carried on. */
  lemma ResumableAdmitted(states: seq<Sys>, acts: seq<Action>, x: Sha)
    requires Trace(states, acts)
    ensures var st := states[|acts|].st;
            x in st.attempts && !st.attempts[x].Terminal() ==>
              st.AssertNoOracleAttempt().Done? && st.AssertCandidateAdmissible(x).Done?
    ensures var st := states[|acts|].st;
            x in st.attempts && st.attempts[x].phase.UnderWay() ==> st.forwardFix != Some(x)
  {
    var st := states[|acts|].st;
    if x in st.attempts && !st.attempts[x].Terminal() {
      AttemptFacts(states, acts, x);
      TraceIsRun(states, acts);
      RunExclusive(states[0], acts);
      OneUnderWay(st, x);
      PointerElsewhere(states, acts, x);
    }
  }

  lemma PointerElsewhere(states: seq<Sys>, acts: seq<Action>, x: Sha)
    requires Trace(states, acts)
    ensures var st := states[|acts|].st;
            x in st.attempts && st.forwardFix == Some(x) ==>
              st.attempts[x].phase.ForwardFixPending? || st.attempts[x].phase.ForwardFixRequired?
  {
    TraceSchema(states, acts);
  }

  lemma OneUnderWay(st: State, x: Sha)
    requires Exclusive(st) && x in st.attempts && !st.attempts[x].Terminal() && st.attempts[x].sourceSha == x
    ensures st.AssertNoOracleAttempt().Done? && st.AssertCandidateAdmissible(x).Done?
  {
    assert st.OracleIdle();
    assert st.Active(x);
  }

  /** What the admission checks establish for a candidate without an attempt. */
  lemma AdmittedIsIdle(st: State, x: Sha)
    requires st.AssertNoOracleAttempt().Done? && st.AssertCandidateAdmissible(x).Done? && x !in st.attempts
    requires forall y :: y in st.attempts ==> st.attempts[y].sourceSha == y
    ensures st.Idle() && st.OracleIdle() && x !in st.records
  {
  }

  lemma MayPrepare(states: seq<Sys>, acts: seq<Action>, a: ReleaseAttempt)
    requires Trace(states, acts) && a.Valid() && a.phase.Prepared? && a.sourceSha in states[|acts|].w.bundles
    requires var st := states[|acts|].st;
             && st.AssertNoOracleAttempt().Done? && st.AssertCandidateAdmissible(a.sourceSha).Done?
             && a.sourceSha !in st.attempts && a.forwardFixOf == st.forwardFix
             && st.RequireCurrentRecord().Done? && a.predecessorSha == Some(st.RequireCurrentRecord().value.sourceSha)
    requires states[|acts|].st.forwardFix.Some? ==> states[|acts|].w.writers == map[]
    ensures CanCreateAttempt(states[|acts|], a)
  {
    TraceInv(states, acts);
    var s := states[|acts|];
    AdmittedIsIdle(s.st, a.sourceSha);
    assert RecordFile(s.st.attempts, s.w.bundles, s.st.current.value, s.st.records[s.st.current.value]);
    assert AttemptFile(s.w.bundles, s.st.current.value, s.st.attempts[s.st.current.value]);
  }

  /** `complete_published_attempt` writes nothing, or the last phase of the attempt. */
  lemma PublishedWrite(s: Sys, x: Sha, now: string)
    requires s.st.CompletePublishedAttempt(x, now).Done? && s.h.ProvedPublication(x)
    requires x in s.st.attempts ==> s.st.attempts[x].sourceSha == x
    ensures var t := s.st.CompletePublishedAttempt(x, now).value;
            && x in t.attempts && t.attempts[x].sourceSha == x && t.attempts[x].phase.Succeeded? && t.current == Some(x)
            && (t == s.st ||
                (CanReplaceAttempt(s, t.attempts[x]) && t == Written(s, ReplaceAttempt(t.attempts[x])).st))
            && (x in s.w.bundles ==> Toward(s.st, t, x, s.w.bundles[x]))
  {
    if x in s.w.bundles {
      TowardReflexive(s.st, x, s.w.bundles[x]);
    }
    if !s.st.attempts[x].phase.Succeeded? {
      AdvanceSteps(s.st.attempts[x], Succeeded, now, None);
      if x in s.w.bundles {
        TowardAttempt(s.st, s.st.attempts[x].Advance(Succeeded, now, None).value, x, s.w.bundles[x]);
      }
    }
  }

  /** The predecessor check of `set_current` never refuses a promoted attempt that has its record. */
  lemma CurrentAccepted(states: seq<Sys>, acts: seq<Action>, a: ReleaseAttempt)
    requires Trace(states, acts) && a.sourceSha in states[|acts|].st.attempts && a.phase.FrontendPromoted?
    requires states[|acts|].st.attempts[a.sourceSha] == a
    ensures var st := states[|acts|].st;
            a.sourceSha in st.records ==> st.SetCurrent(a.sourceSha) == Done(st.(current := Some(a.sourceSha)))
  {
    TraceInv(states, acts);
    if a.sourceSha in states[|acts|].st.records {
      SetCurrentNeverRefused(states[|acts|], a.sourceSha);
    }
  }

  // ----- Oracle -----

  lemma OracleFacts(states: seq<Sys>, acts: seq<Action>, k: OracleKey)
    requires Trace(states, acts) && k in states[|acts|].st.oracle
    ensures var s := states[|acts|];
            && s.st.oracle[k].Key() == k && k == TargetKey(s.w.bundles, k.source) && k.source in s.w.bundles
  {
    TraceInv(states, acts);
    var s := states[|acts|];
    assert OracleFile(s.st.records, s.w.bundles, k, s.st.oracle[k]);
    assert RecordFile(s.st.attempts, s.w.bundles, k.source, s.st.records[k.source]);
  }

  lemma MayStartCommand(s: Sys, k: OracleKey, repair: Option<Sha>, command: OracleCommand)
    requires s.st.OracleActive(k) && k == TargetKey(s.w.bundles, k.source) && k.source in s.w.bundles
    requires s.st.oracle[k].phase == CommandPhase(command) && s.w.writers == map[]
    requires repair == Execution(s.st.repairs, k)
    ensures var job := OracleJob(k.source, repair, command); job !in s.w.jobs ==> JobGuard(s, job)
  {
  }

  /** A publication found exact, and the captured runtime proved after it. */
  lemma RestoreEnds(h: History, k: OracleKey)
    requires h.EndsWith([Exact(k)])
    ensures h.Add(Backend(k.source)).Add(Public(k.source)).Add(Runtime(k)).EndsWith(RestoreProof(k))
  {
    AddEnds(h, [Exact(k)], Backend(k.source));
    AddEnds(h.Add(Backend(k.source)), [Exact(k)] + [Backend(k.source)], Public(k.source));
    AddEnds(h.Add(Backend(k.source)).Add(Public(k.source)), [Exact(k)] + [Backend(k.source)] + [Public(k.source)],
        Runtime(k));
    assert [Exact(k)] + [Backend(k.source)] + [Public(k.source)] + [Runtime(k)] == RestoreProof(k);
  }

  lemma PendingHolds(states: seq<Sys>, acts: seq<Action>, o: OracleAttempt)
    requires Trace(states, acts) && states[|acts|].st.ActiveOracleAttempt() == Done(Some(o))
    ensures o.Key() in states[|acts|].st.oracle && states[|acts|].st.oracle[o.Key()] == o
  {
    var st := states[|acts|].st;
    var k :| k in st.oracle && st.OracleActive(k) && st.oracle[k] == o;
    OracleFacts(states, acts, k);
  }

  lemma ActiveTarget(st: State, o: OracleAttempt, k: OracleKey)
    requires st.ActiveOracleAttempt() == Done(Some(o)) && k in st.oracle && st.oracle[k] == o
    ensures st.OracleActive(k)
  {
  }

  // ----- Publication -----

  ghost predicate PublishingFrom(s: State, t: State, x: Sha, bundles: Bundles) {
    x in s.attempts && x in bundles ==> Toward(s, t, x, bundles[x])
  }

  lemma PublishingStill(s: State, x: Sha, bundles: Bundles)
    ensures PublishingFrom(s, s, x, bundles)
  {
    if x in s.attempts && x in bundles {
      TowardReflexive(s, x, bundles[x]);
    }
  }

  lemma PublishingOn(s: State, t: State, u: State, x: Sha, bundles: Bundles)
    requires PublishingFrom(s, t, x, bundles) && PublishingFrom(t, u, x, bundles)
    ensures PublishingFrom(s, u, x, bundles)
  {
    if x in s.attempts && x in bundles {
      TowardTransitive(s, t, u, x, bundles[x]);
    }
  }

  lemma BundleName(states: seq<Sys>, acts: seq<Action>, x: Sha)
    requires Trace(states, acts) && x in states[|acts|].w.bundles
    ensures states[|acts|].w.bundles[x].sourceSha == x
  {
    TraceIsRun(states, acts);
    RunGrew(states[0], acts, 0);
    assert acts[..0] == [];
  }

  /** The record of a promoted attempt can be made, and is accepted beside or instead of the one that is there. */
  lemma RecordAccepted(states: seq<Sys>, acts: seq<Action>, a: ReleaseAttempt, verifiedAt: string)
    requires Trace(states, acts) && a.sourceSha in states[|acts|].st.attempts && a.phase.FrontendPromoted?
    requires states[|acts|].st.attempts[a.sourceSha] == a
    requires a.sourceSha in states[|acts|].st.records ==>
               verifiedAt == states[|acts|].st.records[a.sourceSha].verifiedAt
    ensures a.sourceSha in states[|acts|].w.bundles
    ensures var m := states[|acts|].w.bundles[a.sourceSha];
            && RecordFromAttempt(a, m, verifiedAt) == Done(RecordOf(a, m, verifiedAt))
            && states[|acts|].st.CreateRecord(RecordOf(a, m, verifiedAt)).Done?
  {
    AttemptFacts(states, acts, a.sourceSha);
    BundleName(states, acts, a.sourceSha);
    if a.sourceSha in states[|acts|].st.records {
      RecordFacts(states, acts, a.sourceSha);
    }
  }

  /** The pointers read well in every reachable state. */
  lemma PointersRead(states: seq<Sys>, acts: seq<Action>)
    requires Trace(states, acts)
    ensures var st := states[|acts|].st;
            && st.CurrentSha() == Done(st.current) && st.ForwardFixSha() == Done(st.forwardFix)
            && st.current.Some? && st.current.value in st.records
  {
    TraceIsRun(states, acts);
    ReadsNeverDefect(states[0], acts);
    TraceInv(states, acts);
  }

  /** The pointer never names a release that has succeeded. */
  lemma ClearAccepted(states: seq<Sys>, acts: seq<Action>, x: Sha)
    requires Trace(states, acts) && x in states[|acts|].st.attempts && states[|acts|].st.attempts[x].phase.Succeeded?
    ensures states[|acts|].st.ClearForwardFixAfterSuccess(x).Done?
  {
    TraceSchema(states, acts);
    PointersRead(states, acts);
  }

  /** The last phase of a promoted, current release is accepted by any clock that does not run back. */
  lemma PublishedAccepted(states: seq<Sys>, acts: seq<Action>, x: Sha, now: string)
    requires Trace(states, acts) && x in states[|acts|].st.attempts && states[|acts|].st.current == Some(x)
    requires var a := states[|acts|].st.attempts[x];
             a.phase.Succeeded? || (a.phase.FrontendPromoted? && !Less(now, a.createdAt))
    ensures states[|acts|].st.CompletePublishedAttempt(x, now).Done?
  {
    AttemptFacts(states, acts, x);
    PointersRead(states, acts);
    var a := states[|acts|].st.attempts[x];
    if a.phase.FrontendPromoted? {
      AdvanceAccepts(a, Succeeded, now, None);
      AdvanceSteps(a, Succeeded, now, None);
    }
  }

  /** Whether the last phase is accepted, by the reading of the clock. */
  lemma CompletionAccepted(states: seq<Sys>, acts: seq<Action>, x: Sha, now: string, since: string)
    requires Trace(states, acts)
    requires var st := states[|acts|].st;
             x in st.attempts && !st.attempts[x].phase.Succeeded? ==> since == st.attempts[x].createdAt
    ensures var st := states[|acts|].st;
            && (!st.CompletePublishedAttempt(x, now).Done? ==> st.CompletePublishedAttempt(x, now).Defect?)
            && (Less(now, since) && (x in st.attempts ==> !st.attempts[x].phase.Succeeded?) ==>
                  st.CompletePublishedAttempt(x, now).Defect?)
            && (!Less(now, since) && Publishable(st, x) && st.current == Some(x) ==>
                  st.CompletePublishedAttempt(x, now).Done?)
  {
    PointersRead(states, acts);
    var st := states[|acts|].st;
    if !Less(now, since) && Publishable(st, x) && st.current == Some(x) {
      CurrentIsPromoted(states, acts);
      PublishedAccepted(states, acts, x, now);
    }
  }

  lemma CurrentIsPromoted(states: seq<Sys>, acts: seq<Action>)
    requires Trace(states, acts)
    ensures var st := states[|acts|].st;
            && st.current.Some? && st.current.value in st.attempts
            && !st.attempts[st.current.value].phase.AwaitingFrontendPromotion?
  {
    TraceInv(states, acts);
  }

  lemma RecordFacts(states: seq<Sys>, acts: seq<Action>, x: Sha)
    requires Trace(states, acts) && x in states[|acts|].st.attempts && x in states[|acts|].st.records
    ensures var s := states[|acts|];
            && x in s.w.bundles && s.st.records[x].Of(s.st.attempts[x], s.w.bundles[x])
            && (s.st.attempts[x].phase.Succeeded? ==> s.st.attempts[x].failureCode.None?)
  {
    TraceInv(states, acts);
    var s := states[|acts|];
    assert RecordFile(s.st.attempts, s.w.bundles, x, s.st.records[x]);
    assert AttemptFile(s.w.bundles, x, s.st.attempts[x]);
  }
}
