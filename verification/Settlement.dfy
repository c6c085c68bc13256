/** What the settlement of an attempt beside its running migration container can lead to. Migrations only climb: they
    move the database to a descendant of its revision, and no further than the head of their release. Whether the schema
    can break can then be seen before the settlement: from the container, the revision, and the candidates there are. */
module Settlement {
  import opened Outcomes
  import opened Ordering
  import opened Model
  import opened Store
  import opened Protocol
  import opened Invariant
  import opened Runs
  import opened Safety
  import opened Counterexamples
  import opened Landing
  import opened Paths

  // ----- Climbing migrations -----

  /** `above(p, q)`: revision `q` is a descendant of `p`. */
  type Order = (Revision, Revision) -> bool

  ghost predicate Ancestry(above: Order) {
    && (forall p :: !above(p, p))
    && (forall p, q, r :: above(p, q) && above(q, r) ==> above(p, r))
  }

  predicate UpTo(above: Order, p: Revision, q: Revision) {
    p == q || above(p, q)
  }

  /** What `alembic upgrade head` of release `x` can do to the database. */
  predicate Climbs(above: Order, w: World, x: Sha, revisions: seq<Revision>) {
    && |w.revisions| == 1 && |revisions| == 1
    && above(w.revisions[0], revisions[0]) && UpTo(above, revisions[0], w.Head(x))
  }

  /** An action of the loose protocol that settles no further migration beside its container, and climbs if it is
      one. */
  ghost predicate Goes(above: Order, s: Sys, action: Action) {
    && LooseEnabled(s, action) && !Unsettled(s, action)
    && (action.Outside? && action.effect.Migrate? ==> Climbs(above, s.w, action.effect.x, action.effect.revisions))
  }

  ghost function Going(above: Order): Rule {
    (s, action) => Goes(above, s, action)
  }

  /** A candidate the store has never seen, on the way from the revision of the database to the head of `x`. */
  predicate OnTheWay(above: Order, s: Sys, x: Sha, y: Sha) {
    && y in s.w.bundles && y !in s.st.attempts
    && |s.w.revisions| == 1 && UpTo(above, s.w.revisions[0], s.w.Head(y)) && above(s.w.Head(y), s.w.Head(x))
  }

  // ----- A candidate on the way goes live, and the container lands under it -----

  lemma Writes(above: Order, s: Sys, t: Sys, write: Write) returns (u: Sys)
    requires CanBecome(Going(above), s, t) && WriteEnabled(t, write) && !Unsettled(t, Durable(write))
    ensures u == Written(t, write) && CanBecome(Going(above), s, u)
  {
    u := Becomes(Going(above), s, t, Durable(write));
  }

  lemma Acts(above: Order, s: Sys, t: Sys, effect: Effect) returns (u: Sys)
    requires CanBecome(Going(above), s, t) && EffectEnabled(t, effect) && !effect.Migrate?
    ensures u == Effected(t, effect) && CanBecome(Going(above), s, u)
  {
    u := Becomes(Going(above), s, t, Outside(effect));
  }

  /** The container lands part of its migration, or all of it. */
  lemma Lands(above: Order, s: Sys, t: Sys, x: Sha, r: Revision) returns (u: Sys)
    requires CanBecome(Going(above), s, t) && MigrationRuns(t.w, x) && Climbs(above, t.w, x, [r])
    ensures CanBecome(Going(above), s, u) && u == t.(w := t.w.(revisions := [r]))
  {
    u := Becomes(Going(above), s, t, Outside(Migrate(x, [r])));
  }

  /** Nothing stands in the way of `y` but `x`, whose container runs. */
  ghost predicate Clear(s: Sys, x: Sha, y: Sha) {
    && x != y && y in s.w.bundles && y !in s.st.attempts && y !in s.st.records && Migration(y) !in s.w.jobs
    && s.st.current.Some? && s.st.current != Some(y) && s.st.forwardFix != Some(y)
    && MigrationRuns(s.w, x) && s.st.OracleIdle()
    && forall z :: z in s.st.attempts && z != x ==> s.st.attempts[z].Terminal()
  }

  lemma Unrecorded(s: Sys, y: Sha)
    requires Shape(s.st, s.w.bundles) && y !in s.st.attempts
    ensures y !in s.st.records
  {
    forall x | x in s.st.records ensures x in s.st.attempts {
      assert RecordFile(s.st.attempts, s.w.bundles, x, s.st.records[x]);
    }
  }

  /** What an attempt under way and its running container say about the rest. */
  lemma ClearBeside(s: Sys, x: Sha, y: Sha)
    requires Shape(s.st, s.w.bundles) && Exclusive(s.st) && Episode(s.st)
    requires MigrationJobs(s.st.attempts, s.w.jobs) && MigrationRuns(s.w, x)
    requires x in s.st.attempts && s.st.attempts[x].phase.DataMutationStarted?
    requires y in s.w.bundles && y !in s.st.attempts
    ensures Clear(s, x, y)
  {
    Unrecorded(s, y);
    assert RecordFile(s.st.attempts, s.w.bundles, s.st.current.value, s.st.records[s.st.current.value]);
    assert Migration(y) in s.w.jobs ==> y in s.st.attempts;
  }

  /** The failure is settled, and the episode of `x` is open. */
  lemma Settle(above: Order, s: Sys, a: ReleaseAttempt, y: Sha) returns (t: Sys)
    requires a.sourceSha in s.st.attempts && s.st.attempts[a.sourceSha] == a && a.Valid() && a.phase.ForwardFixPending?
    requires Clear(s, a.sourceSha, y)
    ensures CanBecome(Going(above), s, t) && Clear(t, a.sourceSha, y) && t.st.Idle() && t.st.forwardFix.Some?
    ensures t.w == s.w.(writers := map[])
  {
    var pointed := Point(above, s, a, y);
    var stopped := Acts(above, s, pointed, StopSome({}));
    t := Writes(above, s, stopped, ReplaceAttempt(a.(phase := ForwardFixRequired)));
  }

  lemma Point(above: Order, s: Sys, a: ReleaseAttempt, y: Sha) returns (t: Sys)
    requires a.sourceSha in s.st.attempts && s.st.attempts[a.sourceSha] == a && a.phase.ForwardFixPending?
    requires Clear(s, a.sourceSha, y)
    ensures CanBecome(Going(above), s, t) && t.w == s.w && t.st == s.st.(forwardFix := t.st.forwardFix)
    ensures t.st.forwardFix.Some? && t.st.forwardFix != Some(y)
  {
    Stays(Going(above), s);
    t := s;
    if s.st.forwardFix.None? {
      t := Writes(above, s, s, SetForwardFix(a.sourceSha));
    }
  }

  function Candidate(a: ReleaseAttempt, y: Sha, predecessor: Option<Sha>, forwardFixOf: Option<Sha>,
                     phase: ReleasePhase): ReleaseAttempt
  {
    a.(sourceSha := y, predecessorSha := predecessor, forwardFixOf := forwardFixOf, phase := phase, backup := None,
       failureCode := None, updatedAt := a.createdAt)
  }

  lemma CandidateValid(a: ReleaseAttempt, y: Sha, predecessor: Option<Sha>, forwardFixOf: Option<Sha>,
                       phase: ReleasePhase)
    requires a.Valid() && predecessor.Some? && predecessor != Some(y) && forwardFixOf != Some(y)
    requires phase.Prepared? || phase.WritersStopped? || phase.BackendActivationStarted?
    ensures Candidate(a, y, predecessor, forwardFixOf, phase).Valid()
  {
    LessTotal(a.createdAt, a.createdAt);
  }

  /** The candidate is stored, as a forward fix of the failed release. */
  lemma Enter(above: Order, s: Sys, t: Sys, a: ReleaseAttempt, x: Sha, y: Sha) returns (u: Sys)
    requires CanBecome(Going(above), s, t) && a.Valid() && Clear(t, x, y) && t.st.Idle()
    requires t.st.forwardFix.Some? && t.w.writers == map[]
    ensures CanBecome(Going(above), s, u)
    ensures u == Written(t, CreateAttempt(Candidate(a, y, t.st.current, t.st.forwardFix, Prepared)))
  {
    CandidateValid(a, y, t.st.current, t.st.forwardFix, Prepared);
    u := Writes(above, s, t, CreateAttempt(Candidate(a, y, t.st.current, t.st.forwardFix, Prepared)));
  }

  /** One phase of the candidate. */
  lemma Advances(above: Order, s: Sys, t: Sys, a: ReleaseAttempt, y: Sha, c: Option<Sha>, f: Option<Sha>,
                 p: ReleasePhase, q: ReleasePhase) returns (u: Sys)
    requires CanBecome(Going(above), s, t) && a.Valid() && y in t.st.attempts
    requires c.Some? && c != Some(y) && f != Some(y)
    requires t.st.attempts[y] == Candidate(a, y, c, f, p) && q in p.Successors()
    requires (p.Prepared? && q.WritersStopped?) || (p.WritersStopped? && q.BackendActivationStarted?)
    requires PhaseGuard(t, t.st.attempts[y], Candidate(a, y, c, f, q))
    ensures CanBecome(Going(above), s, u) && u == Written(t, ReplaceAttempt(Candidate(a, y, c, f, q)))
  {
    CandidateValid(a, y, c, f, q);
    u := Writes(above, s, t, ReplaceAttempt(Candidate(a, y, c, f, q)));
  }

  lemma StartApi(above: Order, s: Sys, t: Sys, y: Sha) returns (u: Sys)
    requires CanBecome(Going(above), s, t) && t.w.writers == map[]
    requires t.st.Active(y) && t.st.attempts[y].phase.BackendActivationStarted?
    ensures CanBecome(Going(above), s, u) && u.w == t.w.(writers := map[Api := y])
  {
    u := Acts(above, s, t, StartCandidate({Api}, y));
    assert u.w.writers == map[Api := y];
  }

  /** The candidate goes live at its head. */
  lemma GoLive(above: Order, s: Sys, t: Sys, a: ReleaseAttempt, x: Sha, y: Sha) returns (u: Sys)
    requires CanBecome(Going(above), s, t) && a.Valid() && Clear(t, x, y) && t.st.Idle()
    requires t.st.forwardFix.Some? && t.w.writers == map[] && t.w.AtHead(y)
    ensures CanBecome(Going(above), s, u) && u.w == t.w.(writers := map[Api := y])
  {
    var c, f := t.st.current, t.st.forwardFix;
    var prepared := Enter(above, s, t, a, x, y);
    var stopped := Advances(above, s, prepared, a, y, c, f, Prepared, WritersStopped);
    var active := Advances(above, s, stopped, a, y, c, f, WritersStopped, BackendActivationStarted);
    u := StartApi(above, s, active, y);
  }

  /** First the container moves the database to the head of the candidate, if it is not there. */
  lemma LandAtHead(above: Order, s: Sys, t: Sys, x: Sha, y: Sha) returns (u: Sys)
    requires CanBecome(Going(above), s, t) && Clear(t, x, y) && OnTheWay(above, t, x, y)
    ensures CanBecome(Going(above), s, u) && u == t.(w := t.w.(revisions := [t.w.Head(y)]))
  {
    u := t;
    if t.w.revisions[0] != t.w.Head(y) {
      u := Lands(above, s, t, x, t.w.Head(y));
    } else {
      assert t.w.revisions == [t.w.Head(y)];
    }
  }

  /** And when the candidate is live, the rest of its migration. */
  lemma BreaksFrom(above: Order, s: Sys, a: ReleaseAttempt, y: Sha) returns (t: Sys)
    requires Ancestry(above) && a.sourceSha in s.st.attempts && s.st.attempts[a.sourceSha] == a
    requires a.Valid() && a.phase.ForwardFixPending?
    requires Clear(s, a.sourceSha, y) && OnTheWay(above, s, a.sourceSha, y)
    ensures CanBecome(Going(above), s, t) && !Compatible(t.w)
  {
    var x := a.sourceSha;
    var settled := Settle(above, s, a, y);
    var ready := LandAtHead(above, s, settled, x, y);
    assert ready.w.AtHead(y) && Clear(ready, x, y);
    var live := GoLive(above, s, ready, a, x, y);
    assert live.w.Head(x) == s.w.Head(x) && live.w.Head(y) == s.w.Head(y) && MigrationRuns(live.w, x);
    t := Lands(above, s, live, x, live.w.Head(x));
    assert t.w.Head(y) == live.w.Head(y) && !t.w.AtHead(t.w.writers[Api]);
  }

  // ----- With no candidate on the way the schema stays compatible -----

  /** The log does not end with a proof of `z`. */
  predicate Unproved(h: History, z: Sha) {
    !h.EndsWith([Backend(z)]) && !h.ProvedPublication(z)
  }

  /** A running migration container was started after the last proof of a running release. */
  ghost predicate Silenced(s: Sys) {
    forall x :: x in s.st.attempts && s.st.attempts[x].phase.DataMutationStarted? && MigrationRuns(s.w, x) ==>
      forall z :: Unproved(s.h, z)
  }

  /** The one event an action adds to the log, if it adds one. */
  lemma LastEvent(s: Sys, action: Action, z: Sha)
    requires Enabled(s, action) && !s.w.AllRun(z)
    ensures var log := Perform(s, action).h.log;
            || (log == s.h.log && !(action.Outside? && action.effect.StartJob?))
            || (log != [] && log == s.h.log + [log[|log| - 1]] && log[|log| - 1] != Backend(z)
                && (log[|log| - 1] == Public(z) ==>
                      s.h.EndsWith([Backend(z)]) && action.Outside? && action.effect.Observe?))
  {
  }

  lemma UnprovedAdd(h: History, e: Event, recorded: seq<Sha>, z: Sha)
    requires e != Backend(z) && (e == Public(z) ==> Unproved(h, z) && h.EndsWith([Backend(z)]))
    ensures Unproved(History(h.log + [e], recorded), z)
  {
    var t, proof := History(h.log + [e], recorded), [Backend(z), Public(z)];
    assert t.log[|t.log| - 1] == e && [Backend(z)][0] == Backend(z) && proof[1] == Public(z);
  }

  lemma UnprovedNext(s: Sys, action: Action, z: Sha)
    requires Enabled(s, action) && (Unproved(s.h, z) || (action.Outside? && action.effect.StartJob?))
    requires !s.w.AllRun(z)
    ensures Unproved(Perform(s, action).h, z)
  {
    LastEvent(s, action, z);
    var h := Perform(s, action).h;
    if h.log != s.h.log {
      UnprovedAdd(s.h, h.log[|h.log| - 1], h.recorded, z);
    }
  }

  lemma MutatingIsQuiet(st: State, w: World, x: Sha, z: Sha)
    requires Schema(st, w) && x in st.attempts && st.attempts[x].phase.DataMutationStarted?
    ensures w.writers == map[] && !w.AllRun(z)
  {
    assert SchemaDuring(w, st.current.value, x, st.attempts[x]);
    assert Api !in w.writers;
  }

  lemma SilencedAfter(s: Sys, action: Action, x: Sha, z: Sha)
    requires Schema(s.st, s.w) && MigrationJobs(s.st.attempts, s.w.jobs) && Silenced(s) && Enabled(s, action)
    requires x in Perform(s, action).st.attempts && Perform(s, action).st.attempts[x].phase.DataMutationStarted?
    requires MigrationRuns(s.w, x) || action == Outside(StartJob(Migration(x)))
    ensures Unproved(Perform(s, action).h, z)
  {
    MutatingBefore(s, action, x);
    MutatingIsQuiet(s.st, s.w, x, z);
    UnprovedNext(s, action, z);
  }

  lemma SilencedNext(s: Sys, action: Action)
    requires Core(s) && Silenced(s) && Enabled(s, action)
    ensures Silenced(Perform(s, action))
  {
    var t := Perform(s, action);
    forall x, z | x in t.st.attempts && t.st.attempts[x].phase.DataMutationStarted? && MigrationRuns(t.w, x)
      ensures Unproved(t.h, z)
    {
      MigrationRunsBefore(s, action, x);
      SilencedAfter(s, action, x, z);
    }
  }

  /** A container runs only for an attempt that is in DataMutationStarted already. */
  lemma MutatingBefore(s: Sys, action: Action, x: Sha)
    requires MigrationJobs(s.st.attempts, s.w.jobs) && Enabled(s, action)
    requires MigrationRuns(s.w, x) || action == Outside(StartJob(Migration(x)))
    requires x in Perform(s, action).st.attempts && Perform(s, action).st.attempts[x].phase.DataMutationStarted?
    ensures x in s.st.attempts && s.st.attempts[x].phase.DataMutationStarted?
  {
    if MigrationRuns(s.w, x) {
      assert Migration(x) in s.w.jobs;
    }
  }

  lemma {:induction false} RunSilenced(s0: Sys, acts: seq<Action>)
    requires Run(s0, acts)
    ensures Silenced(After(s0, acts))
  {
    if acts == [] {
    } else {
      var shorter := acts[..|acts| - 1];
      RunSilenced(s0, shorter);
      RunInv(s0, shorter);
      SilencedNext(After(s0, shorter), acts[|acts| - 1]);
    }
  }

  /** What was stored at the settlement stays settled. */
  ghost predicate OldOnes(base: State, x: Sha, st: State) {
    forall z :: z in base.attempts ==>
      z in st.attempts &&
      if z == x then st.attempts[z].phase.ForwardFixPending? || st.attempts[z].phase.ForwardFixRequired?
      else st.attempts[z].Terminal()
  }

  /** Until a newer release is current, the episode of the failure is open, and what is under way belongs to it. */
  ghost predicate Held(base: State, x: Sha, st: State) {
    st.current.Some? &&
    (st.current.value in base.attempts ==>
       && (st.forwardFix.Some? || (x in st.attempts && st.attempts[x].phase.ForwardFixPending?))
       && forall z :: z in st.attempts && z != x && !st.attempts[z].Terminal() ==> st.attempts[z].forwardFixOf.Some?)
  }

  ghost predicate NewWriters(base: State, writers: map<Writer, Sha>) {
    forall v :: v in writers ==> writers[v] !in base.attempts
  }

  ghost predicate NewProofs(base: State, h: History) {
    forall z :: z in base.attempts ==> Unproved(h, z)
  }

  /** No migration is late but that of `x`. */
  ghost predicate OnlyLate(x: Sha, s: Sys) {
    forall z :: z in s.st.attempts && z != x && MigrationRuns(s.w, z) ==> s.st.attempts[z].phase.DataMutationStarted?
  }

  predicate Climbed(above: Order, from: seq<Revision>, to: seq<Revision>) {
    to == from || (|from| == 1 && |to| == 1 && above(from[0], to[0]))
  }

  /** What holds from the settlement of `x` in `base` on. */
  ghost predicate Since(above: Order, base: Sys, x: Sha, s: Sys) {
    && Core(s) && s.w.bundles == base.w.bundles && Climbed(above, base.w.revisions, s.w.revisions)
    && OldOnes(base.st, x, s.st) && Held(base.st, x, s.st) && OnlyLate(x, s)
    && NewWriters(base.st, s.w.writers) && NewProofs(base.st, s.h)
  }

  lemma OldOnesNext(base: State, x: Sha, s: Sys, action: Action)
    requires Enabled(s, action) && OldOnes(base, x, s.st)
    ensures OldOnes(base, x, Perform(s, action).st)
  {
    forall z | z in base.attempts ensures z in Perform(s, action).st.attempts {
      AttemptAfter(s, action, z);
    }
    forall z | z in base.attempts
      ensures var p := Perform(s, action).st.attempts[z].phase;
              if z == x then p.ForwardFixPending? || p.ForwardFixRequired? else p.Terminal()
    {
      AttemptAfter(s, action, z);
    }
  }

  lemma NewProofsNext(base: State, s: Sys, action: Action)
    requires Enabled(s, action) && NewProofs(base, s.h) && NewWriters(base, s.w.writers)
    ensures NewProofs(base, Perform(s, action).h)
  {
    forall z | z in base.attempts ensures Unproved(Perform(s, action).h, z) {
      assert s.w.AllRun(z) ==> Api in s.w.writers;
      UnprovedNext(s, action, z);
    }
  }

  lemma OnlyLateNext(x: Sha, s: Sys, action: Action)
    requires Enabled(s, action) && OnlyLate(x, s) && MigrationJobs(s.st.attempts, s.w.jobs) && !Unsettled(s, action)
    ensures OnlyLate(x, Perform(s, action))
  {
    var t := Perform(s, action);
    forall z | z in t.st.attempts && z != x && MigrationRuns(t.w, z)
      ensures t.st.attempts[z].phase.DataMutationStarted?
    {
      MigrationRunsBefore(s, action, z);
      if action != Outside(StartJob(Migration(z))) {
        assert Migration(z) in s.w.jobs;
        AttemptAfter(s, action, z);
      }
    }
  }

  /** While an old release is current nothing rolls back. */
  lemma HeldAgainstRollback(base: State, x: Sha, st: State, z: Sha)
    requires Episode(st) && x in base.attempts && OldOnes(base, x, st) && Held(base, x, st)
    requires st.Active(z) && st.attempts[z].phase.RollbackRequired?
    ensures st.current.value !in base.attempts
  {
    assert InEpisode(st.forwardFix, z, st.attempts[z]);
  }

  /** And no Oracle attempt is under way. */
  lemma HeldAgainstOracle(base: State, x: Sha, s: Sys, k: OracleKey)
    requires Exclusive(s.st) && OracleQuiet(s.st.oracle, s.st.forwardFix, s.st.current, s.w.writers)
    requires x in base.attempts && OldOnes(base, x, s.st) && Held(base, x, s.st) && s.st.OracleActive(k)
    ensures s.st.current == Some(k.source) && k.source !in base.attempts
  {
    assert s.st.attempts[x].phase.Terminal();
  }

  lemma NewStarted(base: State, writers: map<Writer, Sha>, some: set<Writer>, z: Sha)
    requires NewWriters(base, writers) && z !in base.attempts
    ensures NewWriters(base, Started(writers, some, z))
  {
  }

  /** The release whose containers an effect starts. */
  function Starts(s: Sys, effect: Effect): Option<Sha> {
    match effect
    case StartCandidate(some, z) => Some(z)
    case RestartPredecessor(some, z) => Some(Predecessor(s, z))
    case RestoreRuntime(some, k) => Some(k.source)
    case _ => None
  }

  lemma StartsNew(base: State, x: Sha, s: Sys, effect: Effect)
    requires Core(s) && EffectEnabled(s, effect) && Starts(s, effect).Some?
    requires x in base.attempts && OldOnes(base, x, s.st) && Held(base, x, s.st)
    ensures Starts(s, effect).value !in base.attempts
  {
    match effect
    case StartCandidate(some, z) =>
    case RestartPredecessor(some, z) =>
      HeldAgainstRollback(base, x, s.st, z);
      RollbackSchema(s, z);
    case RestoreRuntime(some, k) => HeldAgainstOracle(base, x, s, k);
  }

  lemma NewWritersNext(base: State, s: Sys, effect: Effect)
    requires NewWriters(base, s.w.writers)
    requires Starts(s, effect).Some? ==> Starts(s, effect).value !in base.attempts
    ensures NewWriters(base, Effected(s, effect).w.writers)
  {
    match effect
    case StartCandidate(some, z) => NewStarted(base, s.w.writers, some, z);
    case RestartPredecessor(some, z) => NewStarted(base, s.w.writers, some, Predecessor(s, z));
    case RestoreRuntime(some, k) => NewStarted(base, s.w.writers, some, k.source);
    case _ =>
  }

  lemma HeldCreate(base: State, x: Sha, s: Sys, a: ReleaseAttempt)
    requires CanCreateAttempt(s, a) && x in base.attempts && OldOnes(base, x, s.st) && Held(base, x, s.st)
    ensures Held(base, x, Written(s, CreateAttempt(a)).st)
  {
    assert s.st.attempts[x].Terminal();
  }

  lemma HeldReplace(base: State, x: Sha, s: Sys, a: ReleaseAttempt)
    requires CanReplaceAttempt(s, a) && x in base.attempts && OldOnes(base, x, s.st) && Held(base, x, s.st)
    ensures Held(base, x, Written(s, ReplaceAttempt(a)).st)
  {
    assert a.forwardFixOf == s.st.attempts[a.sourceSha].forwardFixOf;
  }

  lemma HeldPointers(base: State, x: Sha, s: Sys, write: Write)
    requires WriteEnabled(s, write) && OldOnes(base, x, s.st) && Held(base, x, s.st) && NewProofs(base, s.h)
    requires write.SetCurrent? || write.SetForwardFix? || write.ClearForwardFix?
    ensures Held(base, x, Written(s, write).st)
  {
  }

  lemma HeldNext(base: State, x: Sha, s: Sys, write: Write)
    requires WriteEnabled(s, write) && x in base.attempts
    requires OldOnes(base, x, s.st) && Held(base, x, s.st) && NewProofs(base, s.h)
    ensures Held(base, x, Written(s, write).st)
  {
    match write
    case CreateAttempt(a) => HeldCreate(base, x, s, a);
    case ReplaceAttempt(a) => HeldReplace(base, x, s, a);
    case SetCurrent(z) => HeldPointers(base, x, s, write);
    case SetForwardFix(z) => HeldPointers(base, x, s, write);
    case ClearForwardFix(z) => HeldPointers(base, x, s, write);
    case _ =>
  }

  lemma WriteSince(above: Order, base: Sys, x: Sha, s: Sys, write: Write)
    requires Since(above, base, x, s) && x in base.st.attempts
    requires WriteEnabled(s, write) && !Unsettled(s, Durable(write))
    ensures Since(above, base, x, Written(s, write))
  {
    WriteKeepsCore(s, write);
    OldOnesNext(base.st, x, s, Durable(write));
    HeldNext(base.st, x, s, write);
    OnlyLateNext(x, s, Durable(write));
    NewProofsNext(base.st, s, Durable(write));
  }

  lemma ClimbedOn(above: Order, w: World, x: Sha, from: seq<Revision>, revisions: seq<Revision>)
    requires Ancestry(above) && Climbed(above, from, w.revisions) && Climbs(above, w, x, revisions)
    ensures Climbed(above, from, revisions)
  {
  }

  lemma ClimbedNext(above: Order, from: seq<Revision>, s: Sys, effect: Effect)
    requires Ancestry(above) && Climbed(above, from, s.w.revisions) && Goes(above, s, Outside(effect))
    ensures Climbed(above, from, Effected(s, effect).w.revisions)
  {
    if effect.Migrate? {
      ClimbedOn(above, s.w, effect.x, from, effect.revisions);
    }
  }

  lemma EffectSince(above: Order, base: Sys, x: Sha, s: Sys, effect: Effect)
    requires Ancestry(above) && Since(above, base, x, s) && x in base.st.attempts
    requires EffectEnabled(s, effect) && Goes(above, s, Outside(effect))
    ensures Since(above, base, x, Effected(s, effect))
  {
    EffectKeepsCore(s, effect);
    ClimbedNext(above, base.w.revisions, s, effect);
    if Starts(s, effect).Some? {
      StartsNew(base.st, x, s, effect);
    }
    EffectKeepsOld(base, x, s, effect);
  }

  lemma EffectKeepsOld(base: Sys, x: Sha, s: Sys, effect: Effect)
    requires OldOnes(base.st, x, s.st) && OnlyLate(x, s) && NewWriters(base.st, s.w.writers) && NewProofs(base.st, s.h)
    requires MigrationJobs(s.st.attempts, s.w.jobs) && EffectEnabled(s, effect)
    requires Starts(s, effect).Some? ==> Starts(s, effect).value !in base.st.attempts
    ensures var t := Effected(s, effect);
            && t.st == s.st && t.w.bundles == s.w.bundles && OnlyLate(x, t)
            && NewWriters(base.st, t.w.writers) && NewProofs(base.st, t.h)
  {
    NewWritersNext(base.st, s, effect);
    OnlyLateNext(x, s, Outside(effect));
    NewProofsNext(base.st, s, Outside(effect));
  }

  // ----- A late landing -----

  ghost predicate NoneOnTheWay(above: Order, base: Sys, x: Sha) {
    forall y :: !OnTheWay(above, base, x, y)
  }

  /** Where the container can still land, no release is at its head that the store had not seen. */
  lemma NoneAtHead(above: Order, base: Sys, x: Sha, w: World, revisions: seq<Revision>, y: Sha)
    requires Ancestry(above) && NoneOnTheWay(above, base, x) && w.bundles == base.w.bundles
    requires Climbed(above, base.w.revisions, w.revisions) && Climbs(above, w, x, revisions)
    requires y in w.bundles && y !in base.st.attempts
    ensures !w.AtHead(y)
  {
    assert !OnTheWay(above, base, x, y);
    assert w.Head(y) == base.w.Head(y) && w.Head(x) == base.w.Head(x);
    assert above(w.revisions[0], w.Head(x));
  }

  /** Whoever runs is installed. */
  lemma RunsInstalled(st: State, w: World, v: Writer)
    requires Shape(st, w.bundles) && Schema(st, w) && v in w.writers && st.current.value in w.bundles
    ensures w.writers[v] in w.bundles
  {
    if !st.Idle() {
      var z :| z in st.attempts && !st.attempts[z].Terminal();
      assert AttemptFile(w.bundles, z, st.attempts[z]);
      RunsEither(w, st.current.value, z, st.attempts[z], v);
    }
  }

  lemma RunsEither(w: World, c: Sha, z: Sha, a: ReleaseAttempt, v: Writer)
    requires SchemaDuring(w, c, z, a) && !a.Terminal() && v in w.writers
    ensures w.writers[v] == c || w.writers[v] == z
  {
  }

  lemma CurrentInstalled(s: Sys)
    requires Shape(s.st, s.w.bundles)
    ensures s.st.current.Some? && s.st.current.value in s.w.bundles
  {
    var c := s.st.current.value;
    assert RecordFile(s.st.attempts, s.w.bundles, c, s.st.records[c]);
  }

  lemma NoWriters(above: Order, base: Sys, x: Sha, s: Sys, revisions: seq<Revision>)
    requires Ancestry(above) && NoneOnTheWay(above, base, x) && Since(above, base, x, s)
    requires Climbs(above, s.w, x, revisions)
    ensures s.w.writers == map[]
  {
    SchemaMeansCompatible(s.st, s.w);
    if s.w.writers != map[] {
      var v :| v in s.w.writers;
      CurrentInstalled(s);
      RunsInstalled(s.st, s.w, v);
      NoneAtHead(above, base, x, s.w, revisions, s.w.writers[v]);
      assert false;
    }
  }

  /** So nothing depends on the revision, and a landing changes nothing that matters. */
  lemma LandingKeepsSchema(base: State, x: Sha, s: Sys, revisions: seq<Revision>)
    requires Core(s) && x in base.attempts && OldOnes(base, x, s.st) && Held(base, x, s.st) && s.w.writers == map[]
    requires forall y :: y in s.w.bundles && y !in base.attempts ==> !s.w.AtHead(y)
    ensures Schema(s.st, s.w.(revisions := revisions))
  {
    CurrentInstalled(s);
    var w := s.w.(revisions := revisions);
    forall z | z in s.st.attempts ensures SchemaDuring(w, s.st.current.value, z, s.st.attempts[z]) {
      assert AttemptFile(s.w.bundles, z, s.st.attempts[z]) && InEpisode(s.st.forwardFix, z, s.st.attempts[z]);
      LandingKeepsDuring(base, x, s.st, s.w, w, z);
    }
    if s.st.Idle() {
      assert s.st.attempts[x].Terminal();
    }
  }

  lemma LandingKeepsDuring(base: State, x: Sha, st: State, before: World, w: World, z: Sha)
    requires x in base.attempts && OldOnes(base, x, st) && Held(base, x, st) && z in st.attempts && z in w.bundles
    requires SchemaDuring(before, st.current.value, z, st.attempts[z]) && InEpisode(st.forwardFix, z, st.attempts[z])
    requires before.writers == map[] && w == before.(revisions := w.revisions) && st.current.value in w.bundles
    requires forall y :: y in w.bundles && y !in base.attempts ==> !before.AtHead(y)
    ensures SchemaDuring(w, st.current.value, z, st.attempts[z])
  {
    var a, c := st.attempts[z], st.current.value;
    if !a.Terminal() && z != x {
      assert !before.AtHead(z);
      assert c in base.attempts ==> a.forwardFixOf.Some?;
      DuringWithoutHead(before, w, c, z, a, st.forwardFix);
    }
  }

  /** Without writers, and with neither release at its head, an attempt under way asks nothing of the revision. */
  lemma DuringWithoutHead(before: World, w: World, c: Sha, z: Sha, a: ReleaseAttempt, forwardFix: Option<Sha>)
    requires SchemaDuring(before, c, z, a) && InEpisode(forwardFix, z, a) && before.writers == map[] == w.writers
    requires !before.AtHead(z) && (before.AtHead(c) ==> a.forwardFixOf.Some?)
    ensures SchemaDuring(w, c, z, a)
  {
  }

  lemma LandingKeepsCore(s: Sys, w: World)
    requires Consistent(s.st, s.w.bundles, s.w.writers, s.w.jobs, s.h.recorded) && Schema(s.st, w)
    requires w.bundles == s.w.bundles && w.writers == s.w.writers && w.jobs == s.w.jobs
    ensures Core(s.(w := w))
  {
  }

  lemma LandingKeepsRest(base: State, x: Sha, s: Sys, revisions: seq<Revision>)
    requires OnlyLate(x, s)
    ensures var t := Effected(s, Migrate(x, revisions));
            OnlyLate(x, t) && t == s.(w := s.w.(revisions := revisions))
  {
    var t := Effected(s, Migrate(x, revisions));
    assert forall z :: MigrationRuns(t.w, z) == MigrationRuns(s.w, z);
  }

  lemma LandingSince(above: Order, base: Sys, x: Sha, s: Sys, revisions: seq<Revision>)
    requires Ancestry(above) && NoneOnTheWay(above, base, x) && Since(above, base, x, s) && x in base.st.attempts
    requires Climbs(above, s.w, x, revisions)
    ensures Since(above, base, x, Effected(s, Migrate(x, revisions)))
  {
    NoWriters(above, base, x, s, revisions);
    forall y | y in s.w.bundles && y !in base.st.attempts ensures !s.w.AtHead(y) {
      NoneAtHead(above, base, x, s.w, revisions, y);
    }
    LandingKeepsSchema(base.st, x, s, revisions);
    LandingKeepsCore(s, s.w.(revisions := revisions));
    ClimbedOn(above, s.w, x, base.w.revisions, revisions);
    LandingKeepsRest(base.st, x, s, revisions);
  }

  /** A landing that is not in time is one of `x`. */
  lemma LateIsOfFailure(x: Sha, s: Sys, effect: Effect)
    requires OnlyLate(x, s) && MigrationJobs(s.st.attempts, s.w.jobs)
    requires LooseEnabled(s, Outside(effect)) && !EffectEnabled(s, effect)
    ensures effect.Migrate? && effect.x == x
  {
    assert Migration(effect.x) in s.w.jobs;
  }

  lemma SinceNext(above: Order, base: Sys, x: Sha, s: Sys, action: Action)
    requires Ancestry(above) && NoneOnTheWay(above, base, x) && Since(above, base, x, s) && x in base.st.attempts
    requires Goes(above, s, action)
    ensures Since(above, base, x, Perform(s, action))
  {
    match action
    case Durable(write) => WriteSince(above, base, x, s, write);
    case Outside(effect) =>
      if EffectEnabled(s, effect) {
        EffectSince(above, base, x, s, effect);
      } else {
        LateIsOfFailure(x, s, effect);
        LandingSince(above, base, x, s, effect.revisions);
      }
  }

  lemma CompatibleSince(above: Order, base: Sys, x: Sha, t: Sys)
    requires Ancestry(above) && NoneOnTheWay(above, base, x) && x in base.st.attempts
    requires Since(above, base, x, base) && CanBecome(Going(above), base, t)
    ensures Compatible(t.w)
  {
    var since := s => Since(above, base, x, s);
    forall s, action | since(s) && Going(above)(s, action) ensures since(Perform(s, action)) {
      SinceNext(above, base, x, s, action);
    }
    Keeps(Going(above), since, base, t);
    SchemaMeansCompatible(t.st, t.w);
  }

  // ----- The settlement -----

  /** Beside its running container a mutating attempt can only fail. */
  lemma SettledByFailure(s: Sys, a: ReleaseAttempt)
    requires CanReplaceAttempt(s, a) && MigrationRuns(s.w, a.sourceSha)
    requires s.st.attempts[a.sourceSha].phase.DataMutationStarted?
    ensures a.phase.ForwardFixPending? && a.Valid()
  {
  }

  lemma OldOnesAtFailure(st: State, a: ReleaseAttempt)
    requires Exclusive(st) && st.Active(a.sourceSha) && a.phase.ForwardFixPending?
    ensures var after := st.(attempts := st.attempts[a.sourceSha := a]);
            OldOnes(after, a.sourceSha, after) && (st.current.Some? ==> Held(after, a.sourceSha, after))
  {
    assert forall z :: st.Active(z) ==> z == a.sourceSha;
  }

  lemma SinceSettlement(above: Order, s: Sys, a: ReleaseAttempt)
    requires Inv(s) && NoLateMigration(s) && Silenced(s) && CanReplaceAttempt(s, a) && MigrationRuns(s.w, a.sourceSha)
    requires s.st.attempts[a.sourceSha].phase.DataMutationStarted?
    ensures var t := Written(s, ReplaceAttempt(a)); Since(above, t, a.sourceSha, t)
  {
    var t, x := Written(s, ReplaceAttempt(a)), a.sourceSha;
    SettledByFailure(s, a);
    WriteKeepsCore(s, ReplaceAttempt(a));
    MutatingIsQuiet(s.st, s.w, x, x);
    OthersInTime(s, a);
    FailureHeld(s, a);
  }

  lemma FailureHeld(s: Sys, a: ReleaseAttempt)
    requires Exclusive(s.st) && Silenced(s) && CanReplaceAttempt(s, a) && MigrationRuns(s.w, a.sourceSha)
    requires s.st.attempts[a.sourceSha].phase.DataMutationStarted? && a.phase.ForwardFixPending? && s.st.current.Some?
    ensures var t := Written(s, ReplaceAttempt(a));
            OldOnes(t.st, a.sourceSha, t.st) && Held(t.st, a.sourceSha, t.st) && NewProofs(t.st, t.h)
  {
    OldOnesAtFailure(s.st, a);
  }

  lemma OthersInTime(s: Sys, a: ReleaseAttempt)
    requires NoLateMigration(s)
    ensures OnlyLate(a.sourceSha, Written(s, ReplaceAttempt(a)))
  {
  }

  lemma SafeSettlement(above: Order, s: Sys, a: ReleaseAttempt, t: Sys)
    requires Inv(s) && NoLateMigration(s) && CanReplaceAttempt(s, a) && !MigrationRuns(s.w, a.sourceSha)
    requires CanBecome(Going(above), Written(s, ReplaceAttempt(a)), t)
    ensures Compatible(t.w)
  {
    var fits := u => Inv(u) && NoLateMigration(u);
    forall u, action | fits(u) && Going(above)(u, action) ensures fits(Perform(u, action)) {
      InTimeKeepsInv(u, action);
    }
    InTimeKeepsInv(s, Durable(ReplaceAttempt(a)));
    Keeps(Going(above), fits, Written(s, ReplaceAttempt(a)), t);
    SchemaMeansCompatible(t.st, t.w);
  }

  lemma InTimeKeepsInv(s: Sys, action: Action)
    requires Inv(s) && NoLateMigration(s) && LooseEnabled(s, action) && !Unsettled(s, action)
    ensures Inv(Perform(s, action)) && NoLateMigration(Perform(s, action))
  {
    LandingIsInTime(s, action);
    NoLateMigrationStep(s, action);
    match action
    case Durable(write) => WriteKeepsInv(s, write);
    case Outside(effect) => EffectKeepsInv(s, effect);
  }

  ghost predicate CanBreak(above: Order, s: Sys) {
    exists t :: CanBecome(Going(above), s, t) && !Compatible(t.w)
  }

  /** What a run that has settled its migrations so far says about the state it ends in. */
  lemma SettledRunState(s0: Sys, acts: seq<Action>)
    requires LooseRun(s0, acts) && SettlesMigrations(s0, acts)
    ensures var s := After(s0, acts); Inv(s) && NoLateMigration(s) && Silenced(s)
  {
    SettledRunIsStrict(s0, acts);
    RunInv(s0, acts);
    SettledRunsHaveNoLateMigration(s0, acts);
    RunSilenced(s0, acts);
  }

  lemma ClearAfter(above: Order, s: Sys, a: ReleaseAttempt, y: Sha)
    requires Clear(s, a.sourceSha, y) && OnTheWay(above, s, a.sourceSha, y)
    ensures var t := Written(s, ReplaceAttempt(a)); Clear(t, a.sourceSha, y) && OnTheWay(above, t, a.sourceSha, y)
  {
  }

  /** A settlement beside the running container can break the schema as soon as there is a candidate on the way. */
  lemma UnsettledCanBreak(above: Order, s: Sys, a: ReleaseAttempt, y: Sha)
    requires Ancestry(above) && Shape(s.st, s.w.bundles) && Exclusive(s.st) && Episode(s.st)
    requires MigrationJobs(s.st.attempts, s.w.jobs) && MigrationRuns(s.w, a.sourceSha) && CanReplaceAttempt(s, a)
    requires s.st.attempts[a.sourceSha].phase.DataMutationStarted? && OnTheWay(above, s, a.sourceSha, y)
    ensures CanBreak(above, Written(s, ReplaceAttempt(a)))
  {
    SettledByFailure(s, a);
    ClearBeside(s, a.sourceSha, y);
    ClearAfter(above, s, a, y);
    var t := BreaksFrom(above, Written(s, ReplaceAttempt(a)), a, y);
  }

  lemma UnsettledIsSafe(above: Order, s: Sys, a: ReleaseAttempt)
    requires Ancestry(above) && Inv(s) && NoLateMigration(s) && Silenced(s)
    requires CanReplaceAttempt(s, a) && MigrationRuns(s.w, a.sourceSha)
    requires s.st.attempts[a.sourceSha].phase.DataMutationStarted?
    requires forall y :: !OnTheWay(above, s, a.sourceSha, y)
    ensures !CanBreak(above, Written(s, ReplaceAttempt(a)))
  {
    var base, x := Written(s, ReplaceAttempt(a)), a.sourceSha;
    SinceSettlement(above, s, a);
    forall y ensures !OnTheWay(above, base, x, y) {
      assert !OnTheWay(above, s, x, y);
    }
    forall t | CanBecome(Going(above), base, t) ensures Compatible(t.w) {
      CompatibleSince(above, base, x, t);
    }
  }

  /** When a mutating attempt leaves its phase, the schema can break later if and only if its migration container still
      runs, and there is a candidate that the store has never seen on the way from the revision of the database to the
      head of the release. */
  lemma SettlementBreaksIff(above: Order, s0: Sys, acts: seq<Action>, a: ReleaseAttempt)
    requires Ancestry(above) && LooseRun(s0, acts) && SettlesMigrations(s0, acts)
    requires CanReplaceAttempt(After(s0, acts), a)
    requires After(s0, acts).st.attempts[a.sourceSha].phase.DataMutationStarted?
    ensures CanBreak(above, Written(After(s0, acts), ReplaceAttempt(a))) <==>
            var s := After(s0, acts);
            MigrationRuns(s.w, a.sourceSha) && exists y :: OnTheWay(above, s, a.sourceSha, y)
  {
    SettledRunState(s0, acts);
    var s := After(s0, acts);
    if MigrationRuns(s.w, a.sourceSha) {
      if y :| OnTheWay(above, s, a.sourceSha, y) {
        UnsettledCanBreak(above, s, a, y);
      } else {
        UnsettledIsSafe(above, s, a);
      }
    } else {
      forall t | CanBecome(Going(above), Written(s, ReplaceAttempt(a)), t) ensures Compatible(t.w) {
        SafeSettlement(above, s, a, t);
      }
    }
  }
}
