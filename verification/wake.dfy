/**
 Rate changes and sleeping chains: SetTPS and the broadcast signal
 (internal/engine/engine.go, notify.go) against the wait loops of
 internal/engine/chain.go, as a step system over any number of concurrent
 callers. A channel is a number; making one takes the next unused number.
 */
module Wake {
  /** Where a SetTPS call is: the new rate stored, or the channel replaced and the old one still to be closed. */
  datatype Setter = Resting | Stored | Swapped(prev: nat)

  /**
   Where a waiting chain is: nothing taken yet; the channel taken but the rate
   not read; or blocked on the channel with the rate it read, which it sleeps
   an interval for if positive and only waits out otherwise.
   */
  datatype Waiter = Fresh | Took(ch: nat) | Blocked(ch: nat, rate: int) | Elapsed

  datatype State = State(
    tps: int,
    cur: nat,
    made: nat,
    closed: set<nat>,
    setters: map<nat, Setter>,
    waiters: map<nat, Waiter>)

  datatype Action =
    | Store(p: nat, rate: int)   // e.tps.Store
    | Swap(p: nat)               // Broadcast under its lock
    | Close(p: nat)              // close(old)
    | Take(w: nat)               // e.resume.C
    | Read(w: nat)               // e.tps.Load
    | Notice(w: nat)             // the channel's case of a select
    | Fire(w: nat)               // the timer's case of a select
    | Again(w: nat)              // the next wait of the chain

  predicate Enabled(s: State, a: Action) {
    match a
    case Store(p, _) => p in s.setters && s.setters[p].Resting?
    case Swap(p) => p in s.setters && s.setters[p].Stored?
    case Close(p) => p in s.setters && s.setters[p].Swapped?
    case Take(w) => w in s.waiters && s.waiters[w].Fresh?
    case Read(w) => w in s.waiters && s.waiters[w].Took?
    case Notice(w) => w in s.waiters && s.waiters[w].Blocked? && s.waiters[w].ch in s.closed
    case Fire(w) => w in s.waiters && s.waiters[w].Blocked? && s.waiters[w].rate > 0
    case Again(w) => w in s.waiters && s.waiters[w].Elapsed?
  }

  function Do(s: State, a: Action): State
    requires Enabled(s, a)
  {
    match a
    case Store(p, rate) => s.(tps := rate, setters := s.setters[p := Stored])
    case Swap(p) => s.(cur := s.made, made := s.made + 1, setters := s.setters[p := Swapped(s.cur)])
    case Close(p) => s.(closed := s.closed + {s.setters[p].prev}, setters := s.setters[p := Resting])
    case Take(w) => s.(waiters := s.waiters[w := Took(s.cur)])
    case Read(w) => s.(waiters := s.waiters[w := Blocked(s.waiters[w].ch, s.tps)])
    case Notice(w) => s.(waiters := s.waiters[w := Fresh])
    case Fire(w) => s.(waiters := s.waiters[w := Elapsed])
    case Again(w) => s.(waiters := s.waiters[w := Fresh])
  }

  predicate Init(s: State) {
    && s.cur == 0 && s.made == 1 && s.closed == {}
    && (forall p :: p in s.setters ==> s.setters[p].Resting?)
    && (forall w :: w in s.waiters ==> s.waiters[w].Fresh?)
  }

  ghost predicate IsRun(states: seq<State>, actions: seq<Action>) {
    && |states| == |actions| + 1 && Init(states[0])
    && forall i :: 0 <= i < |actions| ==> Enabled(states[i], actions[i]) && states[i + 1] == Do(states[i], actions[i])
  }

  // --------------------------------------------------------------- the invariant

  predicate SomeoneStored(s: State) {
    exists p :: p in s.setters && s.setters[p].Stored?
  }

  predicate SomeoneCloses(s: State, ch: nat) {
    exists p :: p in s.setters && s.setters[p] == Swapped(ch)
  }

  predicate Channels(s: State) {
    && s.cur < s.made && s.cur !in s.closed && (forall ch :: ch in s.closed ==> ch < s.made)
    && (forall p :: p in s.setters && s.setters[p].Swapped? ==>
         s.setters[p].prev < s.made && s.setters[p].prev != s.cur && s.setters[p].prev !in s.closed)
    && (forall p, q :: p in s.setters && q in s.setters && p != q && s.setters[p].Swapped? && s.setters[q].Swapped? ==>
         s.setters[p].prev != s.setters[q].prev)
  }

  /** A channel a chain holds is the current one, or closed, or about to be closed. */
  predicate Reachable(s: State) {
    forall w :: w in s.waiters && (s.waiters[w].Took? || s.waiters[w].Blocked?) ==>
      s.waiters[w].ch < s.made &&
        (s.waiters[w].ch == s.cur || s.waiters[w].ch in s.closed || SomeoneCloses(s, s.waiters[w].ch))
  }

  /** A rate that is out of date on the current channel: some SetTPS has yet to replace that channel. */
  predicate StaleIsPending(s: State) {
    forall w :: w in s.waiters && s.waiters[w].Blocked? && s.waiters[w].ch == s.cur && s.waiters[w].rate != s.tps ==>
      SomeoneStored(s)
  }

  predicate Inv(s: State) {
    Channels(s) && Reachable(s) && StaleIsPending(s)
  }

  /** Steps that keep the setters keep what they are about to do. */
  lemma WaiterStep(s: State, a: Action)
    requires Inv(s) && Enabled(s, a) && (a.Take? || a.Read? || a.Notice? || a.Fire? || a.Again?)
    ensures Inv(Do(s, a))
  {
    var s' := Do(s, a);
    assert s'.setters == s.setters;
    assert SomeoneStored(s') == SomeoneStored(s);
    forall ch ensures SomeoneCloses(s', ch) == SomeoneCloses(s, ch) {}
  }

  lemma StoreStep(s: State, p: nat, rate: int)
    requires Inv(s) && Enabled(s, Store(p, rate))
    ensures Inv(Do(s, Store(p, rate)))
  {
    var s' := Do(s, Store(p, rate));
    assert s'.setters[p].Stored?;
    forall ch | SomeoneCloses(s, ch) ensures SomeoneCloses(s', ch) {
      var q :| q in s.setters && s.setters[q] == Swapped(ch);
      assert s'.setters[q] == Swapped(ch);
    }
  }

  lemma SwapStep(s: State, p: nat)
    requires Inv(s) && Enabled(s, Swap(p))
    ensures Inv(Do(s, Swap(p)))
  {
    var s' := Do(s, Swap(p));
    assert s'.setters[p] == Swapped(s.cur);
    forall ch | SomeoneCloses(s, ch) ensures SomeoneCloses(s', ch) {
      var q :| q in s.setters && s.setters[q] == Swapped(ch);
      assert s'.setters[q] == Swapped(ch);
    }
  }

  lemma CloseStep(s: State, p: nat)
    requires Inv(s) && Enabled(s, Close(p))
    ensures Inv(Do(s, Close(p)))
  {
    var s' := Do(s, Close(p));
    forall ch | SomeoneCloses(s, ch) ensures SomeoneCloses(s', ch) || ch in s'.closed {
      var q :| q in s.setters && s.setters[q] == Swapped(ch);
      assert q != p ==> s'.setters[q] == Swapped(ch);
    }
    if SomeoneStored(s) {
      var q :| q in s.setters && s.setters[q].Stored?;
      assert s'.setters[q].Stored?;
    }
  }

  lemma Step(s: State, a: Action)
    requires Inv(s) && Enabled(s, a)
    ensures Inv(Do(s, a))
  {
    hide Inv;
    match a {
      case Store(p, rate) => StoreStep(s, p, rate);
      case Swap(p) => SwapStep(s, p);
      case Close(p) => CloseStep(s, p);
      case Take(_) => WaiterStep(s, a);
      case Read(_) => WaiterStep(s, a);
      case Notice(_) => WaiterStep(s, a);
      case Fire(_) => WaiterStep(s, a);
      case Again(_) => WaiterStep(s, a);
    }
  }

  lemma {:induction false} RunKeepsInv(states: seq<State>, actions: seq<Action>, i: nat)
    requires IsRun(states, actions) && i < |states|
    ensures Inv(states[i])
  {
    if i > 0 {
      RunKeepsInv(states, actions, i - 1);
      Step(states[i - 1], actions[i - 1]);
    }
  }

  // ---------------------------------------------------------------- the theorems

  /**
   No wake-up is lost: in every state of every interleaving, a chain blocked
   with a rate that is not the current one can wake, or a SetTPS call in
   progress has yet to wake it: by closing its channel, or by replacing it first.
   */
  lemma NoLostWakeup(states: seq<State>, actions: seq<Action>, i: nat, w: nat)
    requires IsRun(states, actions) && i < |states|
    requires w in states[i].waiters && states[i].waiters[w].Blocked? && states[i].waiters[w].rate != states[i].tps
    ensures var s, ch := states[i], states[i].waiters[w].ch;
      Enabled(s, Notice(w)) || SomeoneCloses(s, ch) || (ch == s.cur && SomeoneStored(s))
  {
    RunKeepsInv(states, actions, i);
  }

  /** So once every SetTPS call has returned, each such chain can wake. */
  lemma AllCallsReturned(states: seq<State>, actions: seq<Action>, i: nat, w: nat)
    requires IsRun(states, actions) && i < |states|
    requires forall p :: p in states[i].setters ==> states[i].setters[p].Resting?
    requires w in states[i].waiters && states[i].waiters[w].Blocked?
    ensures states[i].waiters[w].rate != states[i].tps ==> Enabled(states[i], Notice(w))
    ensures !Enabled(states[i], Notice(w)) ==> states[i].waiters[w].ch == states[i].cur
  {
    RunKeepsInv(states, actions, i);
  }

  /** close is never called on a closed channel, which would panic, however many calls overlap. */
  lemma NoDoubleClose(states: seq<State>, actions: seq<Action>, i: nat)
    requires IsRun(states, actions) && i < |actions| && actions[i].Close?
    ensures states[i].setters[actions[i].p].prev !in states[i].closed
  {
    RunKeepsInv(states, actions, i);
  }

  lemma {:induction false} CurrentGrows(states: seq<State>, actions: seq<Action>, i: nat, j: nat)
    requires IsRun(states, actions) && i <= j < |states|
    ensures states[i].cur <= states[j].cur
    decreases j
  {
    if i < j {
      CurrentGrows(states, actions, i, j - 1);
      RunKeepsInv(states, actions, j - 1);
    }
  }

  /**
   A broadcast reaches every current waiter, whatever rates are involved: a chain
   blocked when a SetTPS call replaces the channel, and still in the same wait
   at any later point, can wake, or a call in progress is about to close its
   channel.
   */
  lemma BroadcastReachesWaiters(states: seq<State>, actions: seq<Action>, i: nat, j: nat, w: nat)
    requires IsRun(states, actions) && i < j < |states| && actions[i].Swap?
    requires w in states[i].waiters && states[i].waiters[w].Blocked?
    requires w in states[j].waiters && states[j].waiters[w] == states[i].waiters[w]
    ensures Enabled(states[j], Notice(w)) || SomeoneCloses(states[j], states[j].waiters[w].ch)
  {
    RunKeepsInv(states, actions, i);
    RunKeepsInv(states, actions, j);
    CurrentGrows(states, actions, i + 1, j);
  }
}
