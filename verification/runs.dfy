/** Sequences of actions: how a run of the engine goes on. */
module Runs {
  import opened Engine

  /** The actions are enabled one after the other, and lead from s to s'. */
  ghost predicate Plays(s: State, actions: seq<Action>, s': State)
    decreases |actions|
  {
    if actions == [] then s == s'
    else Enabled(s, actions[0]) && Plays(Do(s, actions[0]), actions[1..], s')
  }

  predicate CrashFree(actions: seq<Action>) {
    forall k :: 0 <= k < |actions| ==> !actions[k].Crash?
  }

  /** Some action writes a record, as the engine does before every broadcast. */
  predicate Sends(actions: seq<Action>) {
    exists k :: 0 <= k < |actions| && actions[k].Save? && actions[k].ok
  }

  lemma {:induction false} PlaysOn(s: State, actions: seq<Action>, mid: State, more: seq<Action>, s': State)
    requires Plays(s, actions, mid) && Plays(mid, more, s')
    ensures Plays(s, actions + more, s')
    decreases |actions|
  {
    hide Enabled, Do;
    if actions == [] {
      assert actions + more == more;
    } else {
      PlaysOn(Do(s, actions[0]), actions[1..], mid, more, s');
      assert (actions + more)[1..] == actions[1..] + more;
    }
  }

  lemma PlaysOne(s: State, a: Action)
    requires Enabled(s, a)
    ensures Plays(s, [a], Do(s, a))
  {
    hide Enabled, Do;
    assert [a][1..] == [];
  }

  /** One more action at the end. */
  lemma PlaysSnoc(s: State, actions: seq<Action>, mid: State, a: Action)
    requires Plays(s, actions, mid) && Enabled(mid, a)
    ensures Plays(s, actions + [a], Do(mid, a))
  {
    hide Enabled, Do, Plays;
    PlaysOne(mid, a);
    PlaysOn(s, actions, mid, [a], Do(mid, a));
  }

  lemma RunStep(states: seq<State>, actions: seq<Action>, i: nat)
    requires IsRun(states, actions) && i < |actions|
    ensures |states| == |actions| + 1
    ensures Enabled(states[i], actions[i]) && states[i + 1] == Do(states[i], actions[i])
  {
    hide Enabled, Do, Init;
  }

  /** A run can go on with any actions that can be played from its last state. */
  lemma {:induction false} RunExtends(states: seq<State>, actions: seq<Action>, more: seq<Action>, s': State)
    returns (states': seq<State>)
    requires IsRun(states, actions) && Plays(states[|actions|], more, s')
    ensures IsRun(states', actions + more) && states'[..|states|] == states && states'[|states'| - 1] == s'
    decreases |more|
  {
    hide Enabled, Do, Init;
    if more == [] {
      assert actions + more == actions;
      states' := states;
    } else {
      var next := Do(states[|actions|], more[0]);
      states' := RunExtends(states + [next], actions + [more[0]], more[1..], s');
      assert actions + [more[0]] + more[1..] == actions + more;
      assert states'[..|states|] == states'[..|states| + 1][..|states|];
    }
  }
}
