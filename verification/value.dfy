/** Value is conserved: funding is what the store holds plus the fees paid. */
module Value {
  import opened Ledger
  import opened StoreSpec
  import opened Replay
  import opened Engine
  import opened Safety
  import opened SafetySteps
  import opened Built

  type Amounts = map<OutPoint, int>

  ghost function Total(m: Amounts): int {
    if m == map[] then 0
    else
      var op :| op in m;
      m[op] + Total(m - {op})
  }

  function Worth(utxos: Utxos): Amounts {
    map op | op in utxos :: utxos[op].value
  }

  function Fees(committed: Spends): Amounts {
    map op | op in committed :: committed[op].input.value - Sum(committed[op].outs)
  }

  lemma {:induction false} TotalRemove(m: Amounts, op: OutPoint)
    requires op in m
    ensures Total(m) == m[op] + Total(m - {op})
    decreases |m|
  {
    var first :| first in m && Total(m) == m[first] + Total(m - {first});
    if first != op {
      TotalRemove(m - {first}, op);
      assert m - {first} - {op} == m - {op} - {first};
      TotalRemove(m - {op}, first);
    }
  }

  lemma TotalEmpty()
    ensures Total(map[]) == 0
  {
  }

  lemma TotalAdd(m: Amounts, op: OutPoint, v: int)
    requires op !in m
    ensures Total(m[op := v]) == Total(m) + v
  {
    hide Total;
    TotalRemove(m[op := v], op);
    assert m[op := v] - {op} == m;
  }

  lemma {:induction false} TotalUnion(a: Amounts, b: Amounts)
    requires a.Keys !! b.Keys
    ensures Total(a + b) == Total(a) + Total(b)
    decreases |b|
  {
    hide Total;
    TotalEmpty();
    if b == map[] {
      assert a + b == a;
    } else {
      var op :| op in b;
      TotalUnion(a, b - {op});
      TotalRemove(b, op);
      TotalRemove(a + b, op);
      UnionRemove(a, b, op);
    }
  }

  lemma UnionRemove(a: Amounts, b: Amounts, op: OutPoint)
    requires a.Keys !! b.Keys && op in b
    ensures (a + b) - {op} == a + (b - {op}) && (a + b)[op] == b[op]
  {
    assert ((a + b) - {op}).Keys == (a + (b - {op})).Keys;
  }

  /** The positive outputs among the first k. */
  function FirstOutputs(tx: Tx, k: nat): (m: Amounts)
    requires k <= |tx.outs|
    ensures forall op :: op in m <==> CreatedBy(op, tx) && op.vout < k && tx.outs[op.vout] > 0
    ensures forall op :: op in m ==> CreatedBy(op, tx) && m[op] == tx.outs[op.vout]
  {
    map i: nat | i < k && tx.outs[i] > 0 :: OutPoint(IdOf(tx), i) := tx.outs[i]
  }

  lemma FirstOutputsGrow(tx: Tx, k: nat)
    requires 0 < k <= |tx.outs|
    ensures FirstOutputs(tx, k) ==
      var first := FirstOutputs(tx, k - 1);
      if tx.outs[k - 1] > 0 then first[OutPoint(IdOf(tx), k - 1) := tx.outs[k - 1]] else first
    ensures OutPoint(IdOf(tx), k - 1) !in FirstOutputs(tx, k - 1)
  {
    hide FirstOutputs;
  }

  lemma {:induction false} FirstOutputsTotal(tx: Tx, k: nat)
    requires k <= |tx.outs|
    ensures Total(FirstOutputs(tx, k)) == Sum(tx.outs[..k])
  {
    hide Total;
    if k == 0 {
      TotalEmpty();
      assert FirstOutputs(tx, 0) == map[];
    } else {
      hide FirstOutputs, Sum;
      FirstOutputsTotal(tx, k - 1);
      SumFront(tx.outs, k);
      FirstOutputsGrow(tx, k);
      if tx.outs[k - 1] > 0 {
        TotalAdd(FirstOutputs(tx, k - 1), OutPoint(IdOf(tx), k - 1), tx.outs[k - 1]);
      }
    }
  }

  lemma {:induction false} SumFront(s: seq<nat>, k: nat)
    requires 0 < k <= |s|
    ensures Sum(s[..k]) == Sum(s[..k - 1]) + s[k - 1]
  {
    if k == 1 {
      assert s[..1] == [s[0]] && s[..1][1..] == [] && s[..0] == [];
    } else {
      assert s[..k][1..] == s[1..][..k - 1] && s[..k - 1][1..] == s[1..][..k - 2];
      SumFront(s[1..], k - 1);
    }
  }

  /** A transaction's spendable outputs are worth what it pays out. */
  lemma SpendableTotal(tx: Tx)
    ensures Total(Worth(Spendable(tx))) == Sum(tx.outs)
  {
    hide Total, FirstOutputs, Spendable;
    FirstOutputsTotal(tx, |tx.outs|);
    assert tx.outs[..|tx.outs|] == tx.outs;
    WorthOfOutputs(tx);
  }

  lemma WorthOfOutputs(tx: Tx)
    ensures Worth(Spendable(tx)) == FirstOutputs(tx, |tx.outs|)
  {
    hide FirstOutputs, Spendable;
    var a, b := Worth(Spendable(tx)), FirstOutputs(tx, |tx.outs|);
    assert forall op :: op in a <==> op in b;
    assert forall op :: op in a ==> a[op] == b[op];
  }

  /** Funding equals what is durable plus the fees of the committed transactions. */
  ghost predicate Conserved(utxos: Utxos, seeds: Utxos, committed: Spends) {
    Total(Worth(utxos)) + Total(Fees(committed)) == Total(Worth(seeds))
  }

  /** The durable value after a spend. */
  lemma WorthAfterSpend(utxos: Utxos, tx: Tx)
    requires tx.input.op in utxos && utxos[tx.input.op] == tx.input
    requires forall x :: x in Spendable(tx) ==> x !in utxos
    ensures Total(Worth((utxos - {tx.input.op}) + Spendable(tx))) == Total(Worth(utxos)) - tx.input.value + Sum(tx.outs)
  {
    hide Spendable, Total, Sum;
    var rest, made := utxos - {tx.input.op}, Spendable(tx);
    TotalRemove(Worth(utxos), tx.input.op);
    assert Worth(utxos) - {tx.input.op} == Worth(rest);
    TotalUnion(Worth(rest), Worth(made));
    assert Worth(rest + made) == Worth(rest) + Worth(made);
    SpendableTotal(tx);
  }

  lemma SpendConserves(utxos: Utxos, seeds: Utxos, committed: Spends, tx: Tx)
    requires Conserved(utxos, seeds, committed)
    requires tx.input.op in utxos && utxos[tx.input.op] == tx.input && tx.input.op !in committed
    requires forall x :: x in Spendable(tx) ==> x !in utxos
    ensures Conserved((utxos - {tx.input.op}) + Spendable(tx), seeds, committed[tx.input.op := tx])
  {
    hide Spendable, Total, Sum, Worth;
    var op := tx.input.op;
    WorthAfterSpend(utxos, tx);
    TotalAdd(Fees(committed), op, tx.input.value - Sum(tx.outs));
    assert Fees(committed[op := tx]) == Fees(committed)[op := tx.input.value - Sum(tx.outs)];
  }

  lemma FundConserves(seeds: Utxos, committed: Spends, us: Utxos)
    requires Conserved(map[], seeds, committed) && us.Keys !! seeds.Keys
    ensures Conserved(us, seeds + us, committed)
  {
    hide Total;
    TotalEmpty();
    assert Worth(map[]) == map[];
    TotalUnion(Worth(seeds), Worth(us));
    assert Worth(seeds + us) == Worth(seeds) + Worth(us);
  }

  lemma ConservedStep(s: State, a: Action)
    requires Inv(s) && Enabled(s, a) && Conserved(s.d.utxos, s.h.seeds, s.h.committed)
    ensures Conserved(Do(s, a).d.utxos, Do(s, a).h.seeds, Do(s, a).h.committed)
  {
    hide Inv, Conserved, DoCommit, DoReplayCommit, Bootstrap, BeginL2, IsOrder, ProducedCount, Replayables;
    match a {
      case Commit(op, ok) => if ok { CommitConserves(s, op); } else { LedgerFrame(s, a); }
      case ReplayCommit(key) => ReplayConserves(s, key);
      case Fund(us) => FundConserves(s.h.seeds, s.h.committed, us);
      case _ => LedgerFrame(s, a);
    }
  }

  lemma CommitConserves(s: State, op: OutPoint)
    requires Inv(s) && Conserved(s.d.utxos, s.h.seeds, s.h.committed) && op in s.tasks && s.tasks[op].ToCommit?
    ensures Conserved(DoCommit(s, op, true).d.utxos, DoCommit(s, op, true).h.seeds, DoCommit(s, op, true).h.committed)
  {
    hide RecordsOwned, SentOwned, TasksFitPhase, Conserved, Spendable, Mirror, PutAll, WriteAhead, Born;
    CommitEffect(s, op);
    HeldIsBorn(s, op);
    SpendConserves(s.d.utxos, s.h.seeds, s.h.committed, s.tasks[op].tx);
  }

  lemma ReplayConserves(s: State, key: TxId)
    requires Inv(s) && Conserved(s.d.utxos, s.h.seeds, s.h.committed) && key in Replayables(s.d)
    ensures Faithful(key, Decode(key, s.d.pending[key]))
    ensures Conserved(DoReplayCommit(s, key).d.utxos, DoReplayCommit(s, key).h.seeds,
      DoReplayCommit(s, key).h.committed)
  {
    hide RecordsOwned, SentOwned, TasksFitPhase, Conserved, Tracked, Born, CommitPending;
    var tx := TxOf(key, Decode(key, s.d.pending[key]));
    ReplayOneIsSpend(s.d, key);
    forall x | x in Spendable(tx) ensures x !in s.d.utxos {}
    assert key.input !in s.h.committed by { assert key.input in s.d.utxos; }
    SpendConserves(s.d.utxos, s.h.seeds, s.h.committed, tx);
  }

  lemma {:induction false} RunConserves(states: seq<State>, actions: seq<Action>, i: nat)
    requires IsRun(states, actions) && i < |states|
    ensures Conserved(states[i].d.utxos, states[i].h.seeds, states[i].h.committed)
  {
    hide Enabled, Do, Inv;
    if i > 0 {
      hide Init, Conserved;
      RunConserves(states, actions, i - 1);
      RunKeepsInv(states, actions, i - 1);
      ConservedStep(states[i - 1], actions[i - 1]);
    } else {
      assert Worth(map[]) == map[] && Fees(map[]) == map[];
    }
  }

  /**
   In every state of every run the funding equals the durable value plus the
   fees paid, and no committed transaction paid a negative fee.
   */
  lemma ValueIsConserved(states: seq<State>, actions: seq<Action>, i: nat)
    requires IsRun(states, actions) && i < |states|
    ensures Conserved(states[i].d.utxos, states[i].h.seeds, states[i].h.committed)
    ensures forall op :: op in states[i].h.committed ==> Fees(states[i].h.committed)[op] >= 0
  {
    hide IsRun, Conserved;
    RunConserves(states, actions, i);
    RunKeepsBuilt(states, actions, i);
  }
}
