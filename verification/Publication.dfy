/** What a publication adds up to, however often it was interrupted. */
module Publication {
  import opened Outcomes
  import opened Model
  import opened Store

  /** Two stages of one attempt that differ in phase, failure and time only. */
  predicate Alike(a: ReleaseAttempt, b: ReleaseAttempt) {
    b.(phase := a.phase, failureCode := a.failureCode, updatedAt := a.updatedAt) == a
  }

  /** The phases a publication goes through. */
  predicate Ahead(p: ReleasePhase, q: ReleasePhase) {
    || q == p
    || (p.AwaitingFrontendPromotion? && (q.FrontendPromoted? || q.Succeeded?))
    || (p.FrontendPromoted? && q.Succeeded?)
  }

  /** `t` can be reached from `s` by some of the durable writes that publish release `x`. */
  predicate Toward(s: State, t: State, x: Sha, m: CandidateManifest) {
    && x in s.attempts && x in t.attempts && Alike(s.attempts[x], t.attempts[x])
    && Ahead(s.attempts[x].phase, t.attempts[x].phase)
    && (t.attempts[x].phase.Succeeded? && !s.attempts[x].phase.Succeeded? ==> t.current == Some(x))
    && t == s.(attempts := s.attempts[x := t.attempts[x]], records := t.records,
               current := t.current, forwardFix := t.forwardFix)
    && (t.records == s.records
        || (x in t.records && t.records == s.records[x := t.records[x]] && t.records[x].Of(s.attempts[x], m)))
    && (t.current == s.current || t.current == Some(x))
    && (t.forwardFix == s.forwardFix || (t.forwardFix.None? && s.forwardFix == s.attempts[x].forwardFixOf))
  }

  lemma TowardReflexive(s: State, x: Sha, m: CandidateManifest)
    requires x in s.attempts
    ensures Toward(s, s, x, m)
  {
    assert s.attempts[x := s.attempts[x]] == s.attempts;
  }

  lemma TowardAttempt(s: State, a: ReleaseAttempt, x: Sha, m: CandidateManifest)
    requires x in s.attempts && Alike(s.attempts[x], a) && Ahead(s.attempts[x].phase, a.phase)
    requires a.phase.Succeeded? && !s.attempts[x].phase.Succeeded? ==> s.current == Some(x)
    ensures Toward(s, s.(attempts := s.attempts[x := a]), x, m)
  {
  }

  lemma TowardTransitive(s: State, t: State, u: State, x: Sha, m: CandidateManifest)
    requires Toward(s, t, x, m) && Toward(t, u, x, m)
    ensures Toward(s, u, x, m)
  {
    assert u.attempts == s.attempts[x := u.attempts[x]];
    if u.records != t.records && t.records != s.records {
      assert u.records == s.records[x := u.records[x]];
    }
  }

  /** The stages a publication can be left in: it has not begun, it has stopped anywhere, or it is current. */
  predicate Publishable(s: State, x: Sha) {
    && x in s.attempts
    && (s.attempts[x].phase.AwaitingFrontendPromotion? || s.attempts[x].phase.FrontendPromoted?
        || (s.attempts[x].phase.Succeeded? && s.current == Some(x)))
  }

  /** Wherever a publication stops, it can be taken up again. */
  lemma PublishableStays(s: State, t: State, x: Sha, m: CandidateManifest)
    requires Toward(s, t, x, m) && Publishable(s, x)
    ensures Publishable(t, x)
  {
  }

  /** The store once `x` is published, with the times of its attempt and record left blank. */
  function Form(s: State, x: Sha, m: CandidateManifest): State
    requires x in s.attempts
  {
    var a := s.attempts[x].(phase := Succeeded, failureCode := None, updatedAt := "");
    s.(attempts := s.attempts[x := a],
       records := s.records[x := RecordOf(a, m, "")],
       current := Some(x),
       forwardFix := if s.forwardFix == a.forwardFixOf then None else s.forwardFix)
  }

  function Timeless(s: State, x: Sha): State
    requires x in s.attempts && x in s.records
  {
    s.(attempts := s.attempts[x := s.attempts[x].(updatedAt := "")],
       records := s.records[x := s.records[x].(verifiedAt := "")])
  }

  /** Attempt succeeded, record written, release current, and the episode it fixed over. */
  predicate Complete(s: State, x: Sha, m: CandidateManifest) {
    && x in s.attempts && s.attempts[x].phase.Succeeded? && s.attempts[x].failureCode.None?
    && x in s.records && s.records[x].Of(s.attempts[x], m)
    && s.current == Some(x)
    && (s.attempts[x].forwardFixOf.Some? ==> s.forwardFix != s.attempts[x].forwardFixOf)
  }

  /** No write of a publication changes what it will add up to. */
  lemma FormKept(s: State, t: State, x: Sha, m: CandidateManifest)
    requires Toward(s, t, x, m)
    ensures Form(t, x, m) == Form(s, x, m)
  {
    var a, b := Form(s, x, m).attempts[x], Form(t, x, m).attempts[x];
    assert a == b;
    assert Form(t, x, m).attempts == Form(s, x, m).attempts;
    assert Form(t, x, m).records == Form(s, x, m).records;
  }

  lemma CompleteIsForm(s: State, x: Sha, m: CandidateManifest)
    requires Complete(s, x, m)
    ensures Timeless(s, x) == Form(s, x, m)
  {
  }

  /** A publication that ends, ends in what it added up to when it began. */
  lemma EndsInForm(s: State, t: State, x: Sha, m: CandidateManifest)
    requires Toward(s, t, x, m) && Complete(t, x, m)
    ensures Timeless(t, x) == Form(s, x, m)
  {
    FormKept(s, t, x, m);
    CompleteIsForm(t, x, m);
  }

  /** An uninterrupted publication of `x` from `s` ends in `t`. Another one is stopped at `u`, after any of its writes,
      and run again to its end `v`. But for the times in the attempt and the record of `x`, both stores are equal. */
  lemma CrashEquivalence(s: State, t: State, u: State, v: State, x: Sha, m: CandidateManifest)
    requires Toward(s, t, x, m) && Complete(t, x, m)
    requires Toward(s, u, x, m) && Toward(u, v, x, m) && Complete(v, x, m)
    ensures Timeless(v, x) == Timeless(t, x)
  {
    EndsInForm(s, t, x, m);
    EndsInForm(u, v, x, m);
    FormKept(s, u, x, m);
  }
}
