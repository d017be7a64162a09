// Runs put together from shorter ones.
module PubSubPaths {
  import opened PubSub

  ghost predicate StepOk(s: State, a: Action, t: State) { Enabled(s, a) && Next(s, a) == t }

  ghost predicate Path(states: seq<State>, run: seq<Action>) {
    && |states| == |run| + 1
    && forall k, j | 0 <= k < j < |states| && j == k + 1 :: StepOk(states[k], run[k], states[j])
  }

  /** These actions lead from s to t. */
  ghost predicate Leads(s: State, run: seq<Action>, t: State) {
    exists states: seq<State> :: Path(states, run) && states[0] == s && states[|run|] == t
  }

  lemma {:induction false} PathIsRun(states: seq<State>, run: seq<Action>)
    requires Path(states, run)
    ensures Legal(states[0], run) && Exec(states[0], run) == states[|run|]
    decreases |run|
  {
    if run != [] {
      assert StepOk(states[0], run[0], states[1]);
      forall k, j | 0 <= k < j < |states[1..]| && j == k + 1
        ensures StepOk(states[1..][k], run[1..][k], states[1..][j])
      {
        assert StepOk(states[k + 1], run[k + 1], states[j + 1]);
      }
      PathIsRun(states[1..], run[1..]);
    }
  }

  lemma LeadsIsRun(s: State, run: seq<Action>, t: State)
    requires Leads(s, run, t)
    ensures Legal(s, run) && Exec(s, run) == t
  {
    var states: seq<State> :| Path(states, run) && states[0] == s && states[|run|] == t;
    PathIsRun(states, run);
  }

  lemma Join(p: seq<State>, run: seq<Action>, q: seq<State>, more: seq<Action>)
    requires Path(p, run) && Path(q, more) && p[|run|] == q[0]
    ensures Path(p + q[1..], run + more)
  {
    var all, acts := p + q[1..], run + more;
    forall k, j | 0 <= k < j < |all| && j == k + 1 ensures StepOk(all[k], acts[k], all[j]) {
      if k < |run| {
        assert StepOk(p[k], run[k], p[j]);
      } else {
        assert StepOk(q[k - |run|], more[k - |run|], q[j - |run|]);
      }
    }
  }

  lemma Compose(s: State, run: seq<Action>, t: State, more: seq<Action>, u: State)
    requires Leads(s, run, t) && Leads(t, more, u)
    ensures Leads(s, run + more, u)
  {
    var p: seq<State> :| Path(p, run) && p[0] == s && p[|run|] == t;
    var q: seq<State> :| Path(q, more) && q[0] == t && q[|more|] == u;
    Join(p, run, q, more);
    var all := p + q[1..];
    assert all[0] == s && all[|run + more|] == u;
  }

  lemma OneStep(s: State, a: Action)
    requires Enabled(s, a)
    ensures Leads(s, [a], Next(s, a))
  {
    var states := [s, Next(s, a)];
    assert StepOk(states[0], [a][0], states[1]);
    assert Path(states, [a]) && states[0] == s && states[1] == Next(s, a);
  }

  function Times(a: Action, n: nat): (r: seq<Action>)
    ensures |r| == n && forall x | x in r :: x == a
  {
    if n == 0 then [] else Times(a, n - 1) + [a]
  }

  lemma {:induction false} TimesCat(a: Action, m: nat, n: nat)
    ensures Times(a, m) + Times(a, n) == Times(a, m + n)
    decreases n
  {
    if n == 0 {
      assert Times(a, m) + [] == Times(a, m);
    } else {
      TimesCat(a, m, n - 1);
      assert Times(a, m) + (Times(a, n - 1) + [a]) == Times(a, m) + Times(a, n - 1) + [a];
    }
  }

  // ---------------------------------------------------------------- one task on its own, n steps

  ghost predicate Alone(s: State, a: Action, n: nat, t: State) { Leads(s, Times(a, n), t) }

  lemma AloneOnce(s: State, a: Action, t: State)
    requires StepOk(s, a, t)
    ensures Alone(s, a, 1, t)
  {
    OneStep(s, a);
    assert Times(a, 0) + [a] == [a];
  }

  lemma AloneOn(s: State, a: Action, m: nat, t: State, n: nat, u: State)
    requires Alone(s, a, m, t) && Alone(t, a, n, u)
    ensures Alone(s, a, m + n, u)
  {
    Compose(s, Times(a, m), t, Times(a, n), u);
    TimesCat(a, m, n);
  }

  /** A call made and carried on for n steps. */
  function Turn(b: Action, a: Action, n: nat): seq<Action> { [b] + Times(a, n) }

  lemma TurnLeads(s: State, b: Action, a: Action, t: State, n: nat, u: State)
    requires StepOk(s, b, t) && Alone(t, a, n, u)
    ensures Leads(s, Turn(b, a, n), u)
  {
    OneStep(s, b);
    Compose(s, [b], t, Times(a, n), u);
  }
}
