/**
 Which durable UTXOs have a pending record, told from the actions alone: those
 whose record was written and not cleared since.
 */
module Leftover {
  import opened Ledger
  import opened StoreSpec
  import opened TxBuilder
  import opened Replay
  import opened Engine
  import opened Safety
  import opened SafetySteps
  import opened CrashSafety
  import opened CrashTheorems

  /** Some record that can be replayed spends p. */
  ghost predicate HasRecord(d: Durable, p: OutPoint) {
    exists key :: key in Replayables(d) && key.Spend? && key.input == p
  }

  predicate Writes(a: Action, p: OutPoint) {
    a.Save? && a.ok && a.op == p
  }

  /** The record of p is cleared, or the process dies. */
  predicate Undoes(a: Action, p: OutPoint) {
    a.Crash? || (a.Clear? && a.cleared && a.op == p)
  }

  /** Among the first i actions, a record of p was written and neither cleared nor handed to recovery since. */
  ghost predicate Open(actions: seq<Action>, i: nat, p: OutPoint)
    requires i <= |actions|
  {
    exists k :: 0 <= k < i && Writes(actions[k], p) && forall j :: k < j < i ==> !Undoes(actions[j], p)
  }

  lemma OpenSnoc(actions: seq<Action>, i: nat, p: OutPoint)
    requires i < |actions|
    ensures Open(actions, i + 1, p) <==> Writes(actions[i], p) || (Open(actions, i, p) && !Undoes(actions[i], p))
  {
    if Open(actions, i, p) && !Undoes(actions[i], p) {
      var k :| 0 <= k < i && Writes(actions[k], p) && forall j :: k < j < i ==> !Undoes(actions[j], p);
      assert forall j :: k < j < i + 1 ==> !Undoes(actions[j], p);
    }
    if Open(actions, i + 1, p) && !Writes(actions[i], p) {
      var k :| 0 <= k < i + 1 && Writes(actions[k], p) && forall j :: k < j < i + 1 ==> !Undoes(actions[j], p);
      assert k < i;
    }
  }

  // ------------------------------------------------------------------ one action

  /** The actions of a running process that touch no record. */
  lemma RecordsUntouched(s: State, a: Action)
    requires Enabled(s, a) && s.phase != Down && !a.Crash?
    requires !(a.Save? && a.ok) && !(a.Commit? && a.ok) && !(a.Clear? && a.cleared)
    ensures Do(s, a).d.pending == s.d.pending
  {
    hide Unrelated, Replayables, Bootstrap, BeginL2, DoBuildL2, DoBuildHop, Drop, GiveUp, IsOrder, ProducedCount,
         DoBoot;
    if !a.Deliver? && !a.Reply? && !a.Clear? {
      OtherSteps(s, a);
      UnrelatedPending(s, Do(s, a));
    } else if a.Clear? {
      LocalIsUnrelated(s, a.op);
      UnrelatedPending(s, GiveUp(s, a.op, s.tasks[a.op].kind));
    }
  }

  lemma UnrelatedPending(s: State, s': State)
    requires Unrelated(s, s')
    ensures s'.d.pending == s.d.pending
  {
  }

  lemma SamePending(d: Durable, d': Durable, p: OutPoint)
    requires d'.pending == d.pending
    ensures HasRecord(d', p) <==> HasRecord(d, p)
  {
    assert Replayables(d') == Replayables(d);
  }

  lemma SaveRecord(s: State, op: OutPoint, now: nat, p: OutPoint)
    requires Inv(s) && op in s.tasks && s.tasks[op].Trying?
    ensures HasRecord(DoSave(s, op, true, now).d, p) <==> op == p || HasRecord(s.d, p)
  {
    hide Inv, Replayables, RecordOf;
    HeldOp(s, op);
    var tx := s.tasks[op].tx;
    SavedRecord(s.d, tx, StageOf(s.tasks[op].kind), now);
    assert IdOf(tx) in Replayables(DoSave(s, op, true, now).d) && IdOf(tx).input == op;
  }

  /** Removing the record of the owner's transaction leaves the others. */
  lemma RemoveRecord(s: State, d': Durable, op: OutPoint, p: OutPoint)
    requires Inv(s) && op in s.tasks && (s.tasks[op].ToClear? || s.tasks[op].ToCommit?)
    requires Replayables(d') == Replayables(s.d) - {IdOf(s.tasks[op].tx)}
    ensures HasRecord(d', p) <==> op != p && HasRecord(s.d, p)
  {
    hide Mirror, WriteAhead, SentOwned, TasksFitPhase, Replayables, MayOwn;
    NotDown(s, op);
    HeldIsBorn(s, op);
    if HasRecord(d', p) {
      var key :| key in Replayables(d') && key.Spend? && key.input == p;
      if op == p { OwnersRecord(s, op, key); }
    }
    if op != p && HasRecord(s.d, p) {
      var key :| key in Replayables(s.d) && key.Spend? && key.input == p;
      assert key in Replayables(d');
    }
  }

  /** What one action of a running process does to the record of a UTXO that stays durable. */
  lemma RecordStep(s: State, a: Action, p: OutPoint)
    requires Inv(s) && Enabled(s, a) && s.phase != Down && !a.Crash? && p in s.d.utxos && p in Do(s, a).d.utxos
    ensures HasRecord(Do(s, a).d, p) <==> Writes(a, p) || (HasRecord(s.d, p) && !Undoes(a, p))
  {
    hide Inv, HasRecord, Replayables, DoSave, Mirror, Spendable, Born;
    if a.Save? && a.ok {
      SaveRecord(s, a.op, a.now, p);
    } else if a.Clear? && a.cleared {
      ClearedReplayables(s, a.op, a.retry);
      RemoveRecord(s, Do(s, a).d, a.op, p);
    } else if a.Commit? && a.ok {
      CommitEffect(s, a.op);
      RemoveRecord(s, Do(s, a).d, a.op, p);
    } else {
      RecordsUntouched(s, a);
      SamePending(s.d, Do(s, a).d, p);
    }
  }

  lemma ClearedReplayables(s: State, op: OutPoint, retry: bool)
    requires op in s.tasks && s.tasks[op].ToClear?
    ensures Replayables(DoClear(s, op, true, retry).d) == Replayables(s.d) - {IdOf(s.tasks[op].tx)}
  {
    assert DoClear(s, op, true, retry).d == ClearPending(s.d, IdOf(s.tasks[op].tx));
    assert Replayables(ClearPending(s.d, IdOf(s.tasks[op].tx))) == Replayables(s.d) - {IdOf(s.tasks[op].tx)};
  }

  /** A UTXO that becomes durable has no record yet, and nothing that spends it has been sent. */
  lemma NewUtxo(s: State, a: Action, p: OutPoint)
    requires Inv(s) && Enabled(s, a) && s.phase != Down && !a.Crash? && p !in s.d.utxos && p in Do(s, a).d.utxos
    ensures !HasRecord(Do(s, a).d, p) && !Writes(a, p)
    ensures forall tx :: tx in s.h.sent ==> tx.input.op != p
  {
    hide Inv, Replayables, HasRecord, Spendable, Mirror, Born, DoCommit;
    if a.Fund? {
      IdleHasSentNothing(s);
      NoneRecorded(s.d, Do(s, a).d, p);
    } else if a.Commit? && a.ok {
      CommitEffect(s, a.op);
      RemoveRecord(s, Do(s, a).d, a.op, p);
      UnbornUnsent(s, p);
    } else {
      LedgerFrame(s, a);
      assert false;
    }
  }

  lemma NoneRecorded(d: Durable, d': Durable, p: OutPoint)
    requires Replayables(d) == {} && d'.pending == d.pending
    ensures !HasRecord(d', p)
  {
    assert Replayables(d') == {};
  }

  lemma UnbornUnsent(s: State, p: OutPoint)
    requires Inv(s) && p !in s.d.utxos && !Born(s.h.seeds, s.h.committed, p)
    ensures !HasRecord(s.d, p) && forall tx :: tx in s.h.sent ==> tx.input.op != p
  {
    hide Mirror, RecordsOwned, TasksFitPhase, Tracked, MayOwn, Born;
  }

  // -------------------------------------------------------------------- every run

  /** A record written and not undone was written for a transaction sent in this run. */
  lemma OpenWasSent(states: seq<State>, actions: seq<Action>, i: nat, p: OutPoint)
    requires IsRun(states, actions) && i < |states| && Open(actions, i, p)
    ensures exists tx :: tx in states[i].h.sent && tx.input.op == p
  {
    hide Inv, Do, Enabled, Init;
    var k :| 0 <= k < i && Writes(actions[k], p) && forall j :: k < j < i ==> !Undoes(actions[j], p);
    RunKeepsInv(states, actions, k);
    WriterHolds(states[k], actions[k]);
    SentGrows(states[k], actions[k]);
    HeldOp(states[k], p);
    assert forall j :: k + 1 <= j < i ==> !actions[j].Crash? by {
      forall j | k + 1 <= j < i ensures !actions[j].Crash? { assert !Undoes(actions[j], p); }
    }
    SentStays(states, actions, k + 1, i);
    assert states[k].tasks[p].tx in states[i].h.sent;
  }

  lemma WriterHolds(s: State, a: Action)
    requires Enabled(s, a) && a.Save?
    ensures a.op in s.tasks && s.tasks[a.op].Trying?
  {
    hide Replayables;
  }

  lemma DownStays(s: State, a: Action)
    requires Enabled(s, a) && Do(s, a).phase == Down
    ensures a.Crash? || s.phase == Down
  {
    hide Replayables, BuildFanout, BuildSustain, ProducedCount, IsOrder, L1Count, Parents, RecordOf, CommitPending,
         ReplayOne;
  }

  lemma DownWritesNothing(s: State, a: Action, p: OutPoint)
    requires Inv(s) && s.phase == Down && Enabled(s, a)
    ensures !Writes(a, p)
  {
    hide Mirror, WriteAhead, RecordsOwned, SentOwned, TasksFitPhase, Replayables;
  }

  lemma BootHasNoRecord(s: State, a: Action, p: OutPoint)
    requires Inv(s) && Enabled(s, a) && s.phase == Down && Do(s, a).phase != Down
    ensures !HasRecord(Do(s, a).d, p)
  {
    hide Mirror, WriteAhead, RecordsOwned, SentOwned, TasksFitPhase;
    assert a.Boot?;
    assert Replayables(Do(s, a).d) == Replayables(s.d);
  }

  /**
   In every state of every run, a durable UTXO of a running process has a record
   that would be replayed if and only if its record was written in this run and
   no clear of it has succeeded since, whatever was answered, retried, committed,
   given up or lost to a panic in between.
   */
  lemma {:induction false} RecordedIff(states: seq<State>, actions: seq<Action>, i: nat, p: OutPoint)
    requires IsRun(states, actions) && i < |states|
    ensures states[i].phase == Down ==> !Open(actions, i, p)
    ensures states[i].phase != Down && p in states[i].d.utxos ==> (HasRecord(states[i].d, p) <==> Open(actions, i, p))
  {
    hide Enabled, Do, Inv, HasRecord;
    if i > 0 {
      hide Open, Init;
      var s, a := states[i - 1], actions[i - 1];
      RecordedIff(states, actions, i - 1, p);
      OpenSnoc(actions, i - 1, p);
      RunKeepsInv(states, actions, i - 1);
      if states[i].phase == Down {
        DownStays(s, a);
        if s.phase == Down { DownWritesNothing(s, a, p); }
      } else if s.phase == Down {
        DownWritesNothing(s, a, p);
        BootHasNoRecord(s, a, p);
      } else if p in states[i].d.utxos {
        CrashIsDown(s, a);
        if p in s.d.utxos {
          RecordStep(s, a, p);
        } else {
          NewUtxo(s, a, p);
          if Open(actions, i - 1, p) { OpenWasSent(states, actions, i - 1, p); }
        }
      }
    } else {
      InitIsDown(states[0]);
    }
  }

  // -------------------------------------------- parents whose goroutine has ended

  predicate HasEnded(s: State, p: OutPoint) {
    p in s.tasks && (s.tasks[p].Queued? || s.tasks[p].Lost?)
  }

  /** Neither an output nor the task of another UTXO. */
  lemma TaskUntouched(s: State, a: Action, p: OutPoint)
    requires Inv(s) && Enabled(s, a) && !a.Crash? && s.phase == InL2 && HasEnded(s, p) && Do(s, a).phase == InL2
    ensures p in Do(s, a).tasks && Do(s, a).tasks[p] == s.tasks[p]
  {
    hide Inv, Replayables, BuildFanout, BuildSustain, ProducedCount, IsOrder, Parents, RecordOf, CommitPending,
         NewTasks;
    hide Spendable, Mirror, Born;
    if a.Commit? && a.ok {
      CommitEffect(s, a.op);
      NewTasksHold(s.tasks[a.op].kind, s.tasks[a.op].tx);
    }
  }

  lemma L2Leads(s: State, a: Action)
    requires Inv(s) && Enabled(s, a) && !a.Crash?
    ensures s.phase == InL2 ==> Do(s, a).phase == InL2 || Do(s, a).phase == Running || Do(s, a).phase == Halted
    ensures s.phase == Running || s.phase == Halted ==> Do(s, a).phase == Running || Do(s, a).phase == Halted
  {
    hide Mirror, WriteAhead, RecordsOwned, SentOwned, Tracked;
    hide Replayables, BuildFanout, BuildSustain, ProducedCount, IsOrder, Parents, RecordOf, CommitPending, NewTasks;
  }

  /** While the other goroutines go on, the record of a UTXO whose goroutine has ended neither appears nor goes. */
  lemma EndedStep(s: State, a: Action, p: OutPoint)
    requires Inv(s) && Enabled(s, a) && !a.Crash? && s.phase == InL2 && HasEnded(s, p) && Do(s, a).phase == InL2
    ensures p in Do(s, a).tasks && Do(s, a).tasks[p] == s.tasks[p]
    ensures HasRecord(Do(s, a).d, p) <==> HasRecord(s.d, p)
    ensures forall t: Tx :: t.input.op == p && Recorded(s.d, t) ==> Recorded(Do(s, a).d, t)
  {
    hide Inv, Do, Replayables, Recorded, HasRecord;
    TaskUntouched(s, a, p);
    Step(s, a);
    HeldIsDurable(s, p);
    HeldIsDurable(Do(s, a), p);
    RecordStep(s, a, p);
    RecordStays(s, a, p);
  }

  lemma HeldIsDurable(s: State, p: OutPoint)
    requires Inv(s) && p in s.tasks
    ensures p in s.d.utxos
  {
    hide Mirror, WriteAhead, RecordsOwned, SentOwned, TasksFitPhase;
  }

  lemma RecordStays(s: State, a: Action, p: OutPoint)
    requires Inv(s) && Enabled(s, a) && !a.Crash? && s.phase == InL2 && HasEnded(s, p)
    ensures !Writes(a, p) && !Undoes(a, p)
    ensures forall t: Tx :: t.input.op == p && Recorded(s.d, t) ==> Recorded(Do(s, a).d, t)
  {
    hide Inv, Replayables, Recorded, RecordOf, Created, PutAll, BuildFanout, BuildSustain, NewTasks, DoSave, Parents,
         IsOrder;
    if a.Save? && a.ok {
      SavedStaysRecorded(s, a.op, a.now);
    } else if (a.Clear? && a.cleared) || (a.Commit? && a.ok) {
      HeldOp(s, a.op);
      OthersStayRecorded(s, a.op, Do(s, a).d);
    } else {
      RecordsUntouched(s, a);
      forall t | Recorded(s.d, t) ensures Recorded(Do(s, a).d, t) { SameRecords(s.d, Do(s, a).d, t); }
    }
  }

  lemma SameRecords(d: Durable, d': Durable, t: Tx)
    requires d'.pending == d.pending
    ensures Recorded(d', t) <==> Recorded(d, t)
  {
    assert Replayables(d') == Replayables(d);
  }

  lemma {:induction false} PastL2(states: seq<State>, actions: seq<Action>, k: nat, i: nat)
    requires IsRun(states, actions) && k <= i < |states| && (states[k].phase == Running || states[k].phase == Halted)
    requires forall j :: k <= j < i ==> !actions[j].Crash?
    ensures states[i].phase == Running || states[i].phase == Halted
    decreases i
  {
    hide Enabled, Do, Inv, Init;
    if k < i {
      PastL2(states, actions, k, i - 1);
      RunKeepsInv(states, actions, i - 1);
      L2Leads(states[i - 1], actions[i - 1]);
    }
  }

  /** From the end of a goroutine to the end of the fanout, its UTXO and its record stay as they are. */
  lemma {:induction false} EndedStays(states: seq<State>, actions: seq<Action>, k: nat, i: nat, p: OutPoint)
    requires IsRun(states, actions) && k <= i < |states|
    requires states[k].phase == InL2 && HasEnded(states[k], p) && states[i].phase == InL2
    requires forall j :: k <= j < i ==> !actions[j].Crash?
    ensures p in states[i].tasks && states[i].tasks[p] == states[k].tasks[p]
    ensures HasRecord(states[i].d, p) <==> HasRecord(states[k].d, p)
    ensures forall t: Tx :: t.input.op == p && Recorded(states[k].d, t) ==> Recorded(states[i].d, t)
    decreases i - k
  {
    hide Enabled, Do, Inv, Init, HasRecord, Recorded;
    if k < i {
      RunKeepsInv(states, actions, k);
      L2Leads(states[k], actions[k]);
      if states[k + 1].phase != InL2 {
        PastL2(states, actions, k + 1, i);
        assert false;
      }
      EndedStep(states[k], actions[k], p);
      EndedStays(states, actions, k + 1, i, p);
    }
  }

  lemma InitIsDown(s: State)
    requires Init(s)
    ensures s.phase == Down
  {
  }

  lemma CrashIsDown(s: State, a: Action)
    requires Enabled(s, a) && Do(s, a).phase != Down
    ensures !a.Crash?
  {
    hide Replayables, BuildFanout, BuildSustain, ProducedCount, IsOrder, L1Count, Parents, RecordOf, CommitPending,
         ReplayOne;
  }
}
