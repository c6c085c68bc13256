/** What a state can become by actions of some kind. */
module Paths {
  import opened Protocol

  /** Which actions are allowed where. */
  type Rule = (Sys, Action) -> bool

  ghost predicate Path(allowed: Rule, states: seq<Sys>, acts: seq<Action>) {
    && |states| == |acts| + 1
    && forall i {:trigger acts[i]} :: 0 <= i < |acts| ==>
         allowed(states[i], acts[i]) && states[i + 1] == Perform(states[i], acts[i])
  }

  ghost predicate CanBecome(allowed: Rule, s: Sys, t: Sys) {
    exists states, acts :: Path(allowed, states, acts) && states[0] == s && states[|acts|] == t
  }

  lemma Stays(allowed: Rule, s: Sys)
    ensures CanBecome(allowed, s, s)
  {
    var none: seq<Action> := [];
    assert Path(allowed, [s], none) && [s][|none|] == s;
  }

  lemma Becomes(allowed: Rule, s: Sys, t: Sys, action: Action) returns (u: Sys)
    requires CanBecome(allowed, s, t) && allowed(t, action)
    ensures u == Perform(t, action) && CanBecome(allowed, s, u)
  {
    var states, acts :| Path(allowed, states, acts) && states[0] == s && states[|acts|] == t;
    u := Perform(t, action);
    assert Path(allowed, states + [u], acts + [action]) && (states + [u])[|acts + [action]|] == u;
  }

  lemma {:induction false} PathKeeps(allowed: Rule, keeps: Sys -> bool, states: seq<Sys>, acts: seq<Action>)
    requires Path(allowed, states, acts) && keeps(states[0])
    requires forall s, action :: keeps(s) && allowed(s, action) ==> keeps(Perform(s, action))
    ensures keeps(states[|acts|])
  {
    if acts == [] {
    } else {
      var n := |acts| - 1;
      assert allowed(states[n], acts[n]);
      assert forall i :: 0 <= i < n ==> acts[..n][i] == acts[i];
      PathKeeps(allowed, keeps, states[..n + 1], acts[..n]);
    }
  }

  /** What every allowed action keeps holds wherever they lead. */
  lemma Keeps(allowed: Rule, keeps: Sys -> bool, s: Sys, t: Sys)
    requires CanBecome(allowed, s, t) && keeps(s)
    requires forall u, action :: keeps(u) && allowed(u, action) ==> keeps(Perform(u, action))
    ensures keeps(t)
  {
    var states, acts :| Path(allowed, states, acts) && states[0] == s && states[|acts|] == t;
    PathKeeps(allowed, keeps, states, acts);
  }
}
