/** The properties of the release side that hold in every run. */
module Safety {
  import opened Outcomes
  import opened Model
  import opened Store
  import opened Protocol
  import opened Invariant
  import opened Runs

  // ----- Writers and schema -----

  /** Every running writer expects exactly the revision the database has. */
  predicate Compatible(w: World) {
    forall v :: v in w.writers ==> w.AtHead(w.writers[v])
  }

  lemma SchemaMeansCompatible(st: State, w: World)
    requires Schema(st, w)
    ensures Compatible(w)
  {
    if !st.Idle() {
      var x :| x in st.attempts && !st.attempts[x].Terminal();
      assert SchemaDuring(w, st.current.value, x, st.attempts[x]);
    }
  }

  /** The facts about writers, schema and pointers in a reachable state. */
  lemma RunSchema(s0: Sys, acts: seq<Action>)
    requires Run(s0, acts)
    ensures var s := After(s0, acts);
            Schema(s.st, s.w) && Publication(s.st) && MigrationJobs(s.st.attempts, s.w.jobs)
  {
    RunInv(s0, acts);
  }

  lemma RunExclusive(s0: Sys, acts: seq<Action>)
    requires Run(s0, acts)
    ensures Exclusive(After(s0, acts).st)
  {
    RunInv(s0, acts);
  }

  lemma SchemaCompatible(s0: Sys, acts: seq<Action>)
    requires Run(s0, acts)
    ensures Compatible(After(s0, acts).w)
  {
    RunSchema(s0, acts);
    SchemaMeansCompatible(After(s0, acts).st, After(s0, acts).w);
  }

  /** Candidate containers start only at the candidate head, with its migration container settled. */
  lemma CandidateStartsAtHead(s0: Sys, acts: seq<Action>, some: set<Writer>, x: Sha)
    requires Run(s0, acts) && Enabled(After(s0, acts), Outside(StartCandidate(some, x)))
    ensures var w := After(s0, acts).w; w.AtHead(x) && w.OnlyRuns(x) && Migration(x) !in w.jobs
  {
    RunSchema(s0, acts);
    var s := After(s0, acts);
    assert SchemaDuring(s.w, s.st.current.value, x, s.st.attempts[x]);
  }

  /** Predecessor containers restart only if the attempt never passed a commitment boundary and never started a
      migration; then the database is still at the revision of the release they belong to. */
  lemma PredecessorRestartsUnmigrated(s0: Sys, acts: seq<Action>, some: set<Writer>, x: Sha, i: nat)
    requires Run(s0, acts) && Enabled(After(s0, acts), Outside(RestartPredecessor(some, x))) && i <= |acts|
    ensures var before := After(s0, acts[..i]).st; x in before.attempts ==> !before.attempts[x].phase.Committed()
    ensures var s := After(s0, acts);
            s.st.current == Some(Predecessor(s, x)) && s.w.AtHead(Predecessor(s, x)) && Migration(x) !in s.w.jobs
  {
    RunGrew(s0, acts, i);
    var s, before := After(s0, acts), After(s0, acts[..i]).st;
    RunSchema(s0, acts);
    RollbackSchema(s, x);
    if x in before.attempts {
      assert Evolved(before.attempts[x], s.st.attempts[x]);
      LeadsIsAWayDown(before.attempts[x].phase, s.st.attempts[x].phase);
    }
  }

  lemma RollbackSchema(s: Sys, x: Sha)
    requires Schema(s.st, s.w) && Publication(s.st) && MigrationJobs(s.st.attempts, s.w.jobs)
    requires s.st.Active(x) && s.st.attempts[x].phase.RollbackRequired?
    ensures s.st.current == Some(Predecessor(s, x)) && s.w.AtHead(Predecessor(s, x)) && Migration(x) !in s.w.jobs
  {
    assert SchemaDuring(s.w, s.st.current.value, x, s.st.attempts[x]);
  }

  // ----- Attempts -----

  lemma ReadsOf(st: State)
    requires Exclusive(st) && Episode(st) && st.current.Some? && st.current.value in st.records
    ensures && st.ActiveAttempt().Done? && st.ActiveOracleAttempt().Done?
            && !(st.ActiveAttempt().value.Some? && st.ActiveOracleAttempt().value.Some?)
            && st.ForwardFixSha() == Done(st.forwardFix)
            && st.CurrentSha() == Done(st.current) && st.RequireCurrentRecord().Done?
  {
  }

  /** The reads that can report a defect never do. */
  lemma ReadsNeverDefect(s0: Sys, acts: seq<Action>)
    requires Run(s0, acts)
    ensures var st := After(s0, acts).st;
            && st.ActiveAttempt().Done? && st.ActiveOracleAttempt().Done?
            && !(st.ActiveAttempt().value.Some? && st.ActiveOracleAttempt().value.Some?)
            && st.ForwardFixSha() == Done(st.forwardFix)
            && st.CurrentSha() == Done(st.current) && st.RequireCurrentRecord().Done?
  {
    RunInv(s0, acts);
    ReadsOf(After(s0, acts).st);
  }

  /** A SHA gets at most one attempt; its evidence is constant, its phases walk down the transition graph, and a
      settled attempt never changes again. */
  lemma AttemptOnlyDescends(s0: Sys, acts: seq<Action>, i: nat, x: Sha)
    requires Run(s0, acts) && i <= |acts| && x in After(s0, acts[..i]).st.attempts
    ensures x in After(s0, acts).st.attempts
    ensures var o, a := After(s0, acts[..i]).st.attempts[x], After(s0, acts).st.attempts[x];
            && a.WithProgressOf(o) == o
            && Leads(o.phase, a.phase) && (a.phase == o.phase || a.phase.Rank() < o.phase.Rank())
            && (o.Terminal() ==> a == o)
            && (o.backup.Some? ==> a.backup == o.backup)
    ensures i < |acts| ==> !(acts[i].Durable? && acts[i].write.CreateAttempt? && acts[i].write.a.sourceSha == x)
  {
    RunGrew(s0, acts, i);
    Prefix(s0, acts, i);
    LeadsIsAWayDown(After(s0, acts[..i]).st.attempts[x].phase, After(s0, acts).st.attempts[x].phase);
  }

  // ----- Publication history -----

  ghost predicate Superseded(st: State, x: Sha) {
    x in st.attempts && st.attempts[x].Terminal() && st.current != Some(x)
  }

  /** The predecessor check of `set_current` never fires on a promoted attempt that has its record. */
  lemma SetCurrentNeverRefused(s: Sys, x: Sha)
    requires Inv(s) && x in s.st.attempts && s.st.attempts[x].phase.FrontendPromoted? && x in s.st.records
    ensures s.st.SetCurrent(x) == Done(s.st.(current := Some(x)))
    ensures s.st.current != Some(x) ==> s.st.records[x].predecessorSha == s.st.current
  {
  }

  lemma SupersededStep(s: Sys, action: Action, x: Sha)
    requires Enabled(s, action) && Superseded(s.st, x)
    ensures Superseded(Perform(s, action).st, x)
  {
    AttemptAfter(s, action, x);
    CurrentAfter(s, action);
  }

  lemma {:induction false} SupersededForGood(s0: Sys, acts: seq<Action>, i: nat, x: Sha)
    requires Run(s0, acts) && i <= |acts| && Superseded(After(s0, acts[..i]).st, x)
    ensures Superseded(After(s0, acts).st, x)
  {
    if i == |acts| {
      assert acts[..i] == acts;
    } else {
      var shorter := acts[..|acts| - 1];
      assert shorter[..i] == acts[..i];
      SupersededForGood(s0, shorter, i, x);
      SupersededStep(After(s0, shorter), acts[|acts| - 1], x);
    }
  }

  lemma LeavesCurrent(s: Sys, action: Action, x: Sha)
    requires Exclusive(s.st) && Shape(s.st, s.w.bundles) && Enabled(s, action) && s.st.current == Some(x)
    ensures Perform(s, action).st.current == Some(x) || Superseded(Perform(s, action).st, x)
  {
    CurrentAfter(s, action);
    AttemptAfter(s, action, x);
  }

  lemma {:induction false} PastCurrent(s0: Sys, acts: seq<Action>, i: nat, x: Sha)
    requires Run(s0, acts) && i <= |acts| && After(s0, acts[..i]).st.current == Some(x)
    ensures After(s0, acts).st.current == Some(x) || Superseded(After(s0, acts).st, x)
  {
    if i == |acts| {
      assert acts[..i] == acts;
    } else {
      var shorter, last := acts[..|acts| - 1], acts[|acts| - 1];
      assert shorter[..i] == acts[..i];
      PastCurrent(s0, shorter, i, x);
      if After(s0, shorter).st.current == Some(x) {
        RunInv(s0, shorter);
        LeavesCurrent(After(s0, shorter), last, x);
      } else {
        SupersededStep(After(s0, shorter), last, x);
      }
    }
  }

  /** The values of `current` are pairwise distinct: a release that was replaced is never current again. */
  lemma CurrentNeverReturns(s0: Sys, acts: seq<Action>, i: nat, j: nat, x: Sha)
    requires Run(s0, acts) && i <= j <= |acts|
    requires After(s0, acts[..i]).st.current == Some(x) && After(s0, acts[..j]).st.current != Some(x)
    ensures After(s0, acts).st.current != Some(x)
  {
    Prefix(s0, acts, j);
    assert acts[..j][..i] == acts[..i];
    PastCurrent(s0, acts[..j], i, x);
    SupersededForGood(s0, acts, j, x);
  }

  /** Whenever `current` moves, the record of the new release names the old one. */
  lemma CurrentMovesToSuccessor(s0: Sys, acts: seq<Action>, i: nat)
    requires Run(s0, acts) && i < |acts|
    requires After(s0, acts[..i + 1]).st.current != After(s0, acts[..i]).st.current
    ensures var before, after, end := After(s0, acts[..i]), After(s0, acts[..i + 1]).st, After(s0, acts).st;
            && after.current.Some? && after.current.value in end.records
            && end.records[after.current.value].predecessorSha == before.st.current
            && before.h.ProvedPublication(after.current.value)
  {
    Prefix(s0, acts, i);
    CurrentAfter(After(s0, acts[..i]), acts[i]);
    RunGrew(s0, acts, i);
    assert forall x :: x in After(s0, acts[..i]).st.records ==> x in After(s0, acts).st.records;
  }

  /** Following predecessors from any record ends at the adopted release without meeting a record twice. */
  lemma EarlierRecord(records: map<Sha, ReleaseRecord>, recorded: seq<Sha>, n: nat) returns (m: nat)
    requires 0 < n < |recorded| && Follows(records, recorded, n)
    ensures m < n && records[recorded[n]].predecessorSha == Some(recorded[m])
  {
    var p := records[recorded[n]].predecessorSha.value;
    assert p in recorded[..n];
    m :| 0 <= m < n && recorded[..n][m] == p;
  }

  lemma {:induction false} WalkFrom(records: map<Sha, ReleaseRecord>, recorded: seq<Sha>, n: nat)
    returns (path: seq<nat>)
    requires n < |recorded| && forall i :: 0 <= i < |recorded| ==> Follows(records, recorded, i)
    ensures Descending(path, n) && path[|path| - 1] == 0
    ensures forall i :: 0 <= i < |path| - 1 ==> Precedes(records, recorded[path[i]], recorded[path[i + 1]])
  {
    assert Follows(records, recorded, n);
    if n == 0 {
      path := [0];
    } else {
      var m := EarlierRecord(records, recorded, n);
      var rest := WalkFrom(records, recorded, m);
      path := [n] + rest;
      forall i | 0 <= i < |path| - 1
        ensures Precedes(records, recorded[path[i]], recorded[path[i + 1]])
      {
        if i > 0 { assert path[i] == rest[i - 1] && path[i + 1] == rest[i]; }
      }
    }
  }

  predicate Precedes(records: map<Sha, ReleaseRecord>, x: Sha, p: Sha) {
    x in records && records[x].predecessorSha == Some(p)
  }

  predicate Descending(path: seq<nat>, n: nat) {
    path != [] && path[0] == n && forall i, j :: 0 <= i < j < |path| ==> path[j] < path[i] <= n
  }

  lemma PredecessorWalk(s0: Sys, acts: seq<Action>, x: Sha) returns (path: seq<Sha>)
    requires Run(s0, acts) && x in After(s0, acts).st.records
    ensures path != [] && path[0] == x && Some(path[|path| - 1]) == s0.st.current
    ensures var records := After(s0, acts).st.records;
            && (forall i :: 0 <= i < |path| ==> path[i] in records)
            && (forall i, j :: 0 <= i < j < |path| ==> path[i] != path[j])
            && (forall i :: 0 <= i < |path| - 1 ==> Precedes(records, path[i], path[i + 1]))
            && records[path[|path| - 1]].predecessorSha.None?
  {
    RunRecorded(s0, acts);
    path := WalkNames(After(s0, acts).st.records, After(s0, acts).h.recorded, x);
  }

  lemma WalkNames(records: map<Sha, ReleaseRecord>, recorded: seq<Sha>, x: Sha) returns (path: seq<Sha>)
    requires Recorded(records, recorded) && x in records
    ensures path != [] && path[0] == x && path[|path| - 1] == recorded[0]
    ensures forall i :: 0 <= i < |path| ==> path[i] in records
    ensures forall i, j :: 0 <= i < j < |path| ==> path[i] != path[j]
    ensures forall i :: 0 <= i < |path| - 1 ==> Precedes(records, path[i], path[i + 1])
    ensures records[path[|path| - 1]].predecessorSha.None?
  {
    var n :| 0 <= n < |recorded| && recorded[n] == x;
    var steps := WalkFrom(records, recorded, n);
    path := seq(|steps|, i requires 0 <= i < |steps| => recorded[steps[i]]);
    assert Follows(records, recorded, 0);
    forall i | 0 <= i < |path| ensures path[i] in records {
      assert Follows(records, recorded, steps[i]);
    }
  }

  lemma RunRecorded(s0: Sys, acts: seq<Action>)
    requires Run(s0, acts)
    ensures var s := After(s0, acts);
            Recorded(s.st.records, s.h.recorded) && s.h.recorded != [] && Some(s.h.recorded[0]) == s0.st.current
  {
    RunInv(s0, acts);
    RunGrew(s0, acts, 0);
    assert acts[..0] == [];
  }

  // ----- The forward-fix episode -----

  /** While the pointer is set it names a failed attempt, nothing rolls back, and every attempt under way is either
      that attempt or bound to it; while it is unset and nothing is under way, `current` is a complete publication. */
  lemma EpisodeDiscipline(s0: Sys, acts: seq<Action>)
    requires Run(s0, acts)
    ensures var st := After(s0, acts).st;
            && (st.forwardFix.Some? ==>
                  && st.MayBeForwardFixed(st.forwardFix.value)
                  && !st.attempts[st.forwardFix.value].phase.Committed()
                  && forall x :: st.Active(x) ==>
                       && !st.attempts[x].phase.RollbackRequired?
                       && (st.attempts[x].forwardFixOf == st.forwardFix || st.forwardFix == Some(x)))
            && (st.forwardFix.None? && st.Idle() ==>
                  st.current.Some? && st.current.value in st.attempts && st.attempts[st.current.value].phase.Succeeded?)
  {
    RunInv(s0, acts);
    EpisodeFacts(After(s0, acts).st);
  }

  lemma EpisodeFacts(st: State)
    requires Episode(st) && Publication(st)
    ensures && (st.forwardFix.Some? ==>
                  && st.MayBeForwardFixed(st.forwardFix.value)
                  && !st.attempts[st.forwardFix.value].phase.Committed()
                  && forall x :: st.Active(x) ==>
                       && !st.attempts[x].phase.RollbackRequired?
                       && (st.attempts[x].forwardFixOf == st.forwardFix || st.forwardFix == Some(x)))
            && (st.forwardFix.None? && st.Idle() ==>
                  st.current.Some? && st.current.value in st.attempts && st.attempts[st.current.value].phase.Succeeded?)
  {
  }

  /** Only a published successor that was bound to the pointer clears it. */
  ghost predicate HasSuccessor(st: State, p: Sha) {
    exists x :: x in st.attempts && st.attempts[x].phase.Succeeded? && st.attempts[x].forwardFixOf == Some(p)
  }

  lemma PointerStep(s: Sys, action: Action, p: Sha)
    requires Enabled(s, action) && (s.st.forwardFix == Some(p) || HasSuccessor(s.st, p))
    ensures Perform(s, action).st.forwardFix == Some(p) || HasSuccessor(Perform(s, action).st, p)
  {
    PointerAfter(s, action);
    if HasSuccessor(s.st, p) {
      var x :| x in s.st.attempts && s.st.attempts[x].phase.Succeeded? && s.st.attempts[x].forwardFixOf == Some(p);
      AttemptAfter(s, action, x);
    }
  }

  lemma {:induction false} PointerOutlivesFailures(s0: Sys, acts: seq<Action>, i: nat, p: Sha)
    requires Run(s0, acts) && i <= |acts| && After(s0, acts[..i]).st.forwardFix == Some(p)
    ensures After(s0, acts).st.forwardFix == Some(p) || HasSuccessor(After(s0, acts).st, p)
  {
    if i == |acts| {
      assert acts[..i] == acts;
    } else {
      var shorter := acts[..|acts| - 1];
      assert shorter[..i] == acts[..i];
      PointerOutlivesFailures(s0, shorter, i, p);
      PointerStep(After(s0, shorter), acts[|acts| - 1], p);
    }
  }

  // ----- Migration and backup -----

  /** The migration of `x` has succeeded; from here on its job has no reason to run again. */
  predicate MigrationDone(s: Sys, x: Sha) {
    && x in s.st.attempts && WayDown(DataMutationStarted, s.st.attempts[x].phase)
    && (s.st.attempts[x].phase.DataMutationStarted? ==>
          s.w.AtHead(x) && (Migration(x) in s.w.jobs ==> s.w.jobs[Migration(x)].Exited?))
  }

  lemma MigrationDoneKept(s: Sys, action: Action, x: Sha)
    requires Exclusive(s.st) && Enabled(s, action) && MigrationDone(s, x)
    ensures MigrationDone(Perform(s, action), x)
    ensures action != Outside(StartJob(Migration(x)))
  {
    AttemptAfter(s, action, x);
    var a := Perform(s, action).st.attempts[x];
    if a != s.st.attempts[x] {
      LeavesMutation(s.st.attempts[x].phase, a.phase);
    } else if a.phase.DataMutationStarted? {
      MigrationDoneIdle(s, action, x);
    }
  }

  lemma LeavesMutation(p: ReleasePhase, q: ReleasePhase)
    requires WayDown(DataMutationStarted, p) && q in p.Successors()
    ensures WayDown(DataMutationStarted, q) && !q.DataMutationStarted?
  {
  }

  lemma MigrationDoneIdle(s: Sys, action: Action, x: Sha)
    requires Enabled(s, action) && MigrationDone(s, x) && s.st.attempts[x].phase.DataMutationStarted?
    requires Exclusive(s.st)
    ensures var w := Perform(s, action).w;
            w.AtHead(x) && (Migration(x) in w.jobs ==> w.jobs[Migration(x)].Exited?)
    ensures action != Outside(StartJob(Migration(x)))
  {
    if action.Outside? {
      MigrationDoneEffect(s, action.effect, x);
    }
  }

  lemma MigrationDoneEffect(s: Sys, effect: Effect, x: Sha)
    requires EffectEnabled(s, effect) && MigrationDone(s, x) && s.st.attempts[x].phase.DataMutationStarted?
    requires Exclusive(s.st)
    ensures var w := Effected(s, effect).w;
            w.AtHead(x) && (Migration(x) in w.jobs ==> w.jobs[Migration(x)].Exited?)
    ensures effect != StartJob(Migration(x))
  {
  }

  lemma {:induction false} MigrationStaysDone(s0: Sys, acts: seq<Action>, i: nat, x: Sha)
    requires Run(s0, acts) && i <= |acts| && MigrationDone(After(s0, acts[..i]), x)
    ensures MigrationDone(After(s0, acts), x)
  {
    if i == |acts| {
      assert acts[..i] == acts;
    } else {
      var shorter := acts[..|acts| - 1];
      assert shorter[..i] == acts[..i];
      MigrationStaysDone(s0, shorter, i, x);
      RunExclusive(s0, shorter);
      MigrationDoneKept(After(s0, shorter), acts[|acts| - 1], x);
    }
  }

  lemma MigrationExits(s: Sys, x: Sha)
    requires MigrationJobs(s.st.attempts, s.w.jobs) && EffectEnabled(s, ExitJob(Migration(x), 0))
    ensures MigrationDone(Effected(s, ExitJob(Migration(x), 0)), x)
  {
  }

  lemma MigrationDoneAfterExit(s0: Sys, acts: seq<Action>, i: nat, x: Sha)
    requires Run(s0, acts) && i < |acts| && acts[i] == Outside(ExitJob(Migration(x), 0))
    ensures MigrationDone(After(s0, acts[..i + 1]), x)
  {
    Prefix(s0, acts, i);
    RunSchema(s0, acts[..i]);
    MigrationExits(After(s0, acts[..i]), x);
  }

  lemma MigrationDoneStaysAt(s0: Sys, acts: seq<Action>, i: nat, j: nat, x: Sha)
    requires Run(s0, acts) && i <= j <= |acts| && MigrationDone(After(s0, acts[..i]), x)
    ensures Run(s0, acts[..j]) && MigrationDone(After(s0, acts[..j]), x) && Exclusive(After(s0, acts[..j]).st)
  {
    Prefix(s0, acts, j);
    assert acts[..j][..i] == acts[..i];
    MigrationStaysDone(s0, acts[..j], i, x);
    RunExclusive(s0, acts[..j]);
  }

  /** A migration that succeeded is never started again, whatever crashes and retries follow. */
  lemma MigrationSucceedsOnce(s0: Sys, acts: seq<Action>, i: nat, j: nat, x: Sha)
    requires Run(s0, acts) && i < j < |acts| && acts[i] == Outside(ExitJob(Migration(x), 0))
    ensures acts[j] != Outside(StartJob(Migration(x)))
  {
    MigrationDoneAfterExit(s0, acts, i, x);
    MigrationDoneStaysAt(s0, acts, i + 1, j, x);
    Prefix(s0, acts, j);
    MigrationDoneKept(After(s0, acts[..j]), acts[j], x);
  }

  /** When DataMutationStarted is stored, the writers are down, and size and digest of the dump have just been compared
      with the evidence, which is of this very database at the revision it still has. */
  lemma MutationBoundary(s: Sys, a: ReleaseAttempt)
    requires Schema(s.st, s.w) && CanReplaceAttempt(s, a) && a.phase.DataMutationStarted?
    ensures a.backup.Some? && s.w.writers == map[] && Confirmed(s, a.sourceSha, a.backup.value)
  {
    assert SchemaDuring(s.w, s.st.current.value, a.sourceSha, s.st.attempts[a.sourceSha]);
  }

  /** The evidence never changes afterwards. */
  lemma BackupBoundary(s0: Sys, acts: seq<Action>, i: nat)
    requires Run(s0, acts) && i < |acts|
    requires acts[i].Durable? && acts[i].write.ReplaceAttempt? && acts[i].write.a.phase.DataMutationStarted?
    ensures var before, end, a := After(s0, acts[..i]), After(s0, acts).st, acts[i].write.a;
            && a.backup.Some? && before.w.writers == map[]
            && Confirmed(before, a.sourceSha, a.backup.value)
            && a.sourceSha in end.attempts && end.attempts[a.sourceSha].backup == a.backup
  {
    Prefix(s0, acts, i);
    RunSchema(s0, acts[..i]);
    MutationBoundary(After(s0, acts[..i]), acts[i].write.a);
    RunGrew(s0, acts, i + 1);
    assert acts[i].write.a.sourceSha in After(s0, acts[..i + 1]).st.attempts;
  }

  /** A dump that nobody else has touched is, from the boundary on and for ever, the one the evidence describes, taken
      of this database at the revision it had at the boundary. */
  lemma UntouchedDump(s0: Sys, acts: seq<Action>, i: nat)
    requires Run(s0, acts) && i < |acts|
    requires acts[i].Durable? && acts[i].write.ReplaceAttempt? && acts[i].write.a.phase.DataMutationStarted?
    requires acts[i].write.a.sourceSha !in After(s0, acts).w.touched
    ensures var before, end, a := After(s0, acts[..i]).w, After(s0, acts).w, acts[i].write.a;
            && a.backup.Some? && a.sourceSha in end.backups && Matches(a.backup.value, end.backups[a.sourceSha])
            && end.backups[a.sourceSha].identity == end.identity
            && end.backups[a.sourceSha].revisions == before.revisions
  {
    var x := acts[i].write.a.sourceSha;
    BackupBoundary(s0, acts, i);
    RunBackups(s0, acts);
    assert BackedUp(After(s0, acts).w, x, After(s0, acts).st.attempts[x]);
  }

  lemma RunBackups(s0: Sys, acts: seq<Action>)
    requires Run(s0, acts)
    ensures Backups(After(s0, acts).st, After(s0, acts).w)
  {
    RunInv(s0, acts);
  }

  ghost predicate Visited(s0: Sys, acts: seq<Action>, x: Sha, p: ReleasePhase) {
    exists i :: 0 <= i <= |acts| && PhaseAt(s0, acts[..i], x) == Some(p)
  }

  function PhaseAt(s0: Sys, acts: seq<Action>, x: Sha): Option<ReleasePhase> {
    var st := After(s0, acts).st;
    if x in st.attempts then Some(st.attempts[x].phase) else None
  }

  lemma VisitedBefore(s0: Sys, acts: seq<Action>, x: Sha, p: ReleasePhase)
    requires acts != [] && Visited(s0, acts[..|acts| - 1], x, p)
    ensures Visited(s0, acts, x, p)
  {
    var shorter := acts[..|acts| - 1];
    var i :| 0 <= i <= |shorter| && PhaseAt(s0, shorter[..i], x) == Some(p);
    assert shorter[..i] == acts[..i];
  }

  lemma VisitedStep(s0: Sys, acts: seq<Action>, x: Sha, p: ReleasePhase)
    requires acts != []
    ensures Visited(s0, acts, x, p) <==> Visited(s0, acts[..|acts| - 1], x, p) || PhaseAt(s0, acts, x) == Some(p)
  {
    var shorter := acts[..|acts| - 1];
    assert acts[..|acts|] == acts;
    if Visited(s0, acts, x, p) {
      var i :| 0 <= i <= |acts| && PhaseAt(s0, acts[..i], x) == Some(p);
      if i < |acts| { assert shorter[..i] == acts[..i]; }
    }
    if Visited(s0, shorter, x, p) {
      VisitedBefore(s0, acts, x, p);
    }
  }

  /** On the success path an attempt holds a backup exactly if it went through DataMutationStarted. */
  predicate BackupFits(a: ReleaseAttempt, migrated: bool) {
    match a.phase
    case Prepared | WritersStopped => !migrated && a.backup.None?
    case BackupVerified => a.backup.Some?
    case DataMutationStarted => a.backup.Some? && migrated
    case BackendActivationStarted | AwaitingFrontendPromotion | FrontendPromoted | Succeeded =>
      a.backup.Some? <==> migrated
    case _ => true
  }

  lemma BackupFitsStep(o: ReleaseAttempt, a: ReleaseAttempt, migrated: bool)
    requires BackupFits(o, migrated) && o.StepsTo(a) && a.Valid() && (!a.phase.BackupVerified? ==> a.backup == o.backup)
    requires o.phase.BackupVerified? ==> !migrated
    ensures BackupFits(a, migrated || a.phase.DataMutationStarted?)
  {
  }

  lemma {:induction false} BackupIffMigrated(s0: Sys, acts: seq<Action>, x: Sha)
    requires Run(s0, acts) && x in After(s0, acts).st.attempts
    ensures BackupFits(After(s0, acts).st.attempts[x], Visited(s0, acts, x, DataMutationStarted))
  {
    if acts == [] {
      AdoptedIsUnmigrated(s0, x);
    } else {
      var shorter, last := acts[..|acts| - 1], acts[|acts| - 1];
      VisitedStep(s0, acts, x, DataMutationStarted);
      if x in After(s0, shorter).st.attempts {
        BackupIffMigrated(s0, shorter, x);
        BackupIffMigratedStep(s0, shorter, last, x);
      } else {
        FreshIsUnmigrated(s0, shorter, last, x);
      }
    }
  }

  lemma AdoptedIsUnmigrated(s0: Sys, x: Sha)
    requires Init(s0) && x in s0.st.attempts
    ensures BackupFits(s0.st.attempts[x], Visited(s0, [], x, DataMutationStarted))
  {
  }

  lemma BackupIffMigratedStep(s0: Sys, acts: seq<Action>, last: Action, x: Sha)
    requires Run(s0, acts) && Enabled(After(s0, acts), last) && x in After(s0, acts).st.attempts
    requires BackupFits(After(s0, acts).st.attempts[x], Visited(s0, acts, x, DataMutationStarted))
    ensures x in Perform(After(s0, acts), last).st.attempts
    ensures var a := Perform(After(s0, acts), last).st.attempts[x];
            BackupFits(a, Visited(s0, acts, x, DataMutationStarted) || a.phase.DataMutationStarted?)
  {
    var s := After(s0, acts);
    AttemptAfter(s, last, x);
    var o, a := s.st.attempts[x], Perform(s, last).st.attempts[x];
    if a != o {
      if o.phase.BackupVerified? {
        NotYetMigrated(s0, acts, x);
      }
      BackupFitsStep(o, a, Visited(s0, acts, x, DataMutationStarted));
    }
  }

  lemma NotYetMigrated(s0: Sys, acts: seq<Action>, x: Sha)
    requires Run(s0, acts) && x in After(s0, acts).st.attempts && After(s0, acts).st.attempts[x].phase.BackupVerified?
    ensures !Visited(s0, acts, x, DataMutationStarted)
  {
    forall i | 0 <= i <= |acts| ensures PhaseAt(s0, acts[..i], x) != Some(DataMutationStarted) {
      RunGrew(s0, acts, i);
      if x in After(s0, acts[..i]).st.attempts {
        LeadsIsAWayDown(After(s0, acts[..i]).st.attempts[x].phase, BackupVerified);
      }
    }
  }

  lemma FreshIsPrepared(s: Sys, action: Action, x: Sha)
    requires Enabled(s, action) && x !in s.st.attempts && x in Perform(s, action).st.attempts
    ensures var a := Perform(s, action).st.attempts[x]; a.phase.Prepared? && a.backup.None?
  {
  }

  lemma FreshIsUnmigrated(s0: Sys, acts: seq<Action>, last: Action, x: Sha)
    requires Run(s0, acts) && Enabled(After(s0, acts), last)
    requires x !in After(s0, acts).st.attempts && x in Perform(After(s0, acts), last).st.attempts
    ensures !Visited(s0, acts, x, DataMutationStarted)
    ensures var a := Perform(After(s0, acts), last).st.attempts[x]; a.phase.Prepared? && a.backup.None?
  {
    FreshIsPrepared(After(s0, acts), last, x);
    forall i | 0 <= i <= |acts| ensures PhaseAt(s0, acts[..i], x) != Some(DataMutationStarted) {
      RunGrew(s0, acts, i);
    }
  }
}
