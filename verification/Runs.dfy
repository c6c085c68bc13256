/** What every run of the protocol keeps, from the adopted release on, with crashes and restarts at any point. */
module Runs {
  import opened Model
  import opened Protocol
  import opened Invariant

  // ----- What a state can become -----

  ghost predicate Evolved(o: ReleaseAttempt, a: ReleaseAttempt) {
    && a.WithProgressOf(o) == o
    && Leads(o.phase, a.phase)
    && (o.backup.Some? ==> a.backup == o.backup)
    && (o.Terminal() ==> a == o)
  }

  predicate OracleEvolved(o: OracleAttempt, a: OracleAttempt) {
    && a.(phase := o.phase, updatedAt := o.updatedAt) == o
    && a.phase.Rank() <= o.phase.Rank()
    && (o.phase.Terminal() ==> a == o)
  }

  /** History is never rewritten. */
  ghost predicate Grew(s: Sys, t: Sys) {
    && (forall x :: x in s.st.attempts ==> x in t.st.attempts && Evolved(s.st.attempts[x], t.st.attempts[x]))
    && (forall x :: x in s.st.records ==> x in t.st.records && t.st.records[x] == s.st.records[x])
    && (forall k :: k in s.st.oracle ==> k in t.st.oracle && OracleEvolved(s.st.oracle[k], t.st.oracle[k]))
    && (forall k :: k in s.st.repairs ==> k in t.st.repairs && t.st.repairs[k] == s.st.repairs[k])
    && (forall x :: x in s.w.backups ==> x in t.w.touched || (x in t.w.backups && t.w.backups[x] == s.w.backups[x]))
    && s.w.touched <= t.w.touched
    && t.w.bundles == s.w.bundles && t.w.identity == s.w.identity
    && s.h.log <= t.h.log && s.h.recorded <= t.h.recorded
  }

  lemma EvolvedTransitive(a: ReleaseAttempt, b: ReleaseAttempt, c: ReleaseAttempt)
    requires Evolved(a, b) && Evolved(b, c)
    ensures Evolved(a, c)
  {
    LeadsTransitive(a.phase, b.phase, c.phase);
  }

  lemma GrewTransitive(s: Sys, t: Sys, u: Sys)
    requires Grew(s, t) && Grew(t, u)
    ensures Grew(s, u)
  {
    forall x | x in s.st.attempts ensures Evolved(s.st.attempts[x], u.st.attempts[x]) {
      EvolvedTransitive(s.st.attempts[x], t.st.attempts[x], u.st.attempts[x]);
    }
  }

  lemma StepKeepsBackup(o: ReleaseAttempt, a: ReleaseAttempt)
    requires o.Valid() && o.StepsTo(a) && (!a.phase.BackupVerified? ==> a.backup == o.backup)
    ensures !o.Terminal() && (o.backup.Some? ==> a.backup == o.backup)
  {
  }

  lemma EvolvedStep(o: ReleaseAttempt, a: ReleaseAttempt)
    requires o.Valid() && o.StepsTo(a) && (!a.phase.BackupVerified? ==> a.backup == o.backup)
    ensures Evolved(o, a)
  {
    StepKeepsBackup(o, a);
    LeadsOneStep(o.phase, a.phase);
  }

  lemma OracleEvolvedStep(o: OracleAttempt, a: OracleAttempt)
    requires o.StepsTo(a)
    ensures OracleEvolved(o, a)
  {
  }

  lemma GrewReflexive(s: Sys)
    ensures Grew(s, s)
  {
  }

  lemma GrewAttempt(s: Sys, a: ReleaseAttempt)
    requires a.sourceSha in s.st.attempts ==> Evolved(s.st.attempts[a.sourceSha], a)
    ensures Grew(s, s.(st := s.st.(attempts := s.st.attempts[a.sourceSha := a])))
  {
    GrewReflexive(s);
  }

  lemma GrewOracleAttempt(s: Sys, o: OracleAttempt, log: seq<Event>)
    requires o.Key() in s.st.oracle ==> OracleEvolved(s.st.oracle[o.Key()], o)
    requires s.h.log <= log
    ensures Grew(s, s.(st := s.st.(oracle := s.st.oracle[o.Key() := o]), h := s.h.(log := log)))
  {
    GrewReflexive(s);
  }

  lemma GrewReplace(s: Sys, a: ReleaseAttempt)
    requires Shape(s.st, s.w.bundles) && CanReplaceAttempt(s, a)
    ensures Grew(s, Written(s, ReplaceAttempt(a)))
  {
    EvolvedStep(s.st.attempts[a.sourceSha], a);
    GrewAttempt(s, a);
  }

  lemma GrewOracleReplace(s: Sys, o: OracleAttempt)
    requires CanReplaceOracleAttempt(s, o)
    ensures Grew(s, Written(s, ReplaceOracleAttempt(o)))
  {
    OracleEvolvedStep(s.st.oracle[o.Key()], o);
    GrewOracleAttempt(s, o, Written(s, ReplaceOracleAttempt(o)).h.log);
  }

  lemma GrewPointer(s: Sys, write: Write)
    requires WriteEnabled(s, write)
    requires write.CreateRecord? || write.SetCurrent? || write.SetForwardFix? || write.ClearForwardFix?
             || write.CreateRepair?
    ensures Grew(s, Written(s, write))
  {
    GrewReflexive(s);
  }

  lemma GrewWrite(s: Sys, write: Write)
    requires Shape(s.st, s.w.bundles) && WriteEnabled(s, write)
    ensures Grew(s, Written(s, write))
  {
    match write
    case CreateAttempt(a) => GrewAttempt(s, a);
    case ReplaceAttempt(a) => GrewReplace(s, a);
    case CreateOracleAttempt(o) => GrewOracleAttempt(s, o, s.h.log);
    case ReplaceOracleAttempt(o) => GrewOracleReplace(s, o);
    case _ => GrewPointer(s, write);
  }

  lemma GrewEffect(s: Sys, effect: Effect)
    requires EffectEnabled(s, effect)
    ensures Grew(s, Effected(s, effect))
  {
    GrewReflexive(s);
  }

  /** Whatever a run has stored by its `i`-th action is still there, and only moved forward, at any later one. */
  lemma {:induction false} RunGrew(s0: Sys, acts: seq<Action>, i: nat)
    requires Run(s0, acts) && i <= |acts|
    ensures Grew(After(s0, acts[..i]), After(s0, acts))
  {
    if i == |acts| {
      assert acts[..i] == acts;
      GrewReflexive(After(s0, acts));
    } else {
      var shorter, last := acts[..|acts| - 1], acts[|acts| - 1];
      assert shorter[..i] == acts[..i];
      RunGrew(s0, shorter, i);
      RunInv(s0, shorter);
      match last {
        case Durable(write) => GrewWrite(After(s0, shorter), write);
        case Outside(effect) => GrewEffect(After(s0, shorter), effect);
      }
      GrewTransitive(After(s0, acts[..i]), After(s0, shorter), After(s0, acts));
    }
  }

  // ----- What one action can do to the store -----

  lemma AttemptAfter(s: Sys, action: Action, x: Sha)
    requires Enabled(s, action) && x in s.st.attempts
    ensures x in Perform(s, action).st.attempts
    ensures var a := Perform(s, action).st.attempts[x];
            a == s.st.attempts[x] ||
            (action == Durable(ReplaceAttempt(a)) && a.sourceSha == x && CanReplaceAttempt(s, a))
  {
  }

  lemma CurrentAfter(s: Sys, action: Action)
    requires Enabled(s, action)
    ensures var c := Perform(s, action).st.current;
            c == s.st.current || (c.Some? && action == Durable(SetCurrent(c.value)) && CanSetCurrent(s, c.value))
  {
  }

  lemma PointerAfter(s: Sys, action: Action)
    requires Enabled(s, action)
    ensures var p := Perform(s, action).st.forwardFix;
            || p == s.st.forwardFix
            || (p.Some? && s.st.forwardFix.None? && action == Durable(SetForwardFix(p.value)))
            || (p.None? && exists x :: action == Durable(ClearForwardFix(x)) && CanClearForwardFix(s, x))
  {
  }
}
