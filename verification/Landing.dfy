/** Migrations that land late. Here a running migration container may change the revisions at any time, whatever has
    become of its attempt, and the schema stays compatible with the writers as long as no attempt is settled beside its
    running container. */
module Landing {
  import opened Protocol
  import opened Invariant
  import opened Safety
  import opened Counterexamples

  // ----- The loose protocol -----

  /** A landing needs nothing but a running container. */
  predicate Lands(s: Sys, action: Action) {
    action.Outside? && action.effect.Migrate? && MigrationRuns(s.w, action.effect.x)
  }

  ghost predicate LooseEnabled(s: Sys, action: Action) {
    Enabled(s, action) || Lands(s, action)
  }

  ghost predicate LooseLegal(s0: Sys, acts: seq<Action>) {
    acts == [] ||
    (LooseLegal(s0, acts[..|acts| - 1]) && LooseEnabled(After(s0, acts[..|acts| - 1]), acts[|acts| - 1]))
  }

  ghost predicate LooseRun(s0: Sys, acts: seq<Action>) {
    Init(s0) && LooseLegal(s0, acts)
  }

  lemma {:induction false} LoosePrefix(s0: Sys, acts: seq<Action>, i: nat)
    requires LooseRun(s0, acts) && i <= |acts|
    ensures LooseRun(s0, acts[..i])
    ensures i < |acts| ==> LooseEnabled(After(s0, acts[..i]), acts[i])
    ensures i < |acts| ==> After(s0, acts[..i + 1]) == Perform(After(s0, acts[..i]), acts[i])
  {
    if i == |acts| {
      assert acts[..i] == acts;
    } else {
      var shorter := acts[..|acts| - 1];
      if i < |shorter| {
        LoosePrefix(s0, shorter, i);
        assert shorter[..i] == acts[..i] && shorter[..i + 1] == acts[..i + 1];
      } else {
        assert acts[..i + 1] == acts && acts[..i] == shorter;
      }
    }
  }

  // ----- Settled runs -----

  lemma LandingIsInTime(s: Sys, action: Action)
    requires NoLateMigration(s) && MigrationJobs(s.st.attempts, s.w.jobs) && LooseEnabled(s, action)
    ensures Enabled(s, action)
  {
    if Lands(s, action) {
      assert Migration(action.effect.x) in s.w.jobs;
    }
  }

  /** In a loose run that settles its migrations every landing is in time, so it is a run of the strict protocol. */
  lemma {:induction false} SettledRunIsStrict(s0: Sys, acts: seq<Action>)
    requires LooseRun(s0, acts) && SettlesMigrations(s0, acts)
    ensures Run(s0, acts)
  {
    if acts == [] {
    } else {
      var shorter := acts[..|acts| - 1];
      SettlesPrefix(s0, acts, |acts| - 1);
      SettledRunIsStrict(s0, shorter);
      SettledRunsHaveNoLateMigration(s0, shorter);
      RunSchema(s0, shorter);
      LandingIsInTime(After(s0, shorter), acts[|acts| - 1]);
    }
  }

  /** So the schema is compatible with the running writers at every moment of it, without any assumption on when the
      effect of a migration container lands. */
  lemma SettledRunIsCompatible(s0: Sys, acts: seq<Action>)
    requires LooseRun(s0, acts) && SettlesMigrations(s0, acts)
    ensures Compatible(After(s0, acts).w)
  {
    SettledRunIsStrict(s0, acts);
    SchemaCompatible(s0, acts);
  }

  lemma SettledBesideContainer(s: Sys, action: Action)
    requires Unsettled(s, action)
    ensures !NoLateMigration(Perform(s, action))
  {
    var t, x := Perform(s, action), action.write.a.sourceSha;
    assert x in t.st.attempts && MigrationRuns(t.w, x);
  }

  /** No migration is ever late if and only if no attempt leaves DataMutationStarted beside its running container. */
  lemma NeverLateIffSettled(s0: Sys, acts: seq<Action>)
    requires LooseRun(s0, acts)
    ensures (forall i :: 0 <= i <= |acts| ==> NoLateMigration(After(s0, acts[..i]))) <==> SettlesMigrations(s0, acts)
  {
    if SettlesMigrations(s0, acts) {
      forall i | 0 <= i <= |acts| ensures NoLateMigration(After(s0, acts[..i])) {
        LoosePrefix(s0, acts, i);
        SettlesPrefix(s0, acts, i);
        SettledRunIsStrict(s0, acts[..i]);
        SettledRunsHaveNoLateMigration(s0, acts[..i]);
      }
    }
    if forall i :: 0 <= i <= |acts| ==> NoLateMigration(After(s0, acts[..i])) {
      forall i | 0 <= i < |acts| ensures !Unsettled(After(s0, acts[..i]), acts[i]) {
        LoosePrefix(s0, acts, i);
        assert NoLateMigration(After(s0, acts[..i + 1]));
        if Unsettled(After(s0, acts[..i]), acts[i]) {
          SettledBesideContainer(After(s0, acts[..i]), acts[i]);
        }
      }
    }
  }
}
