/**
 internal/txbuilder: transaction sizes, fees, and the fanout and sustain
 builders. Unsigned 64-bit arithmetic is written out with U64.
 */
module TxBuilder {
  import opened Outcomes
  import opened Ledger

  const MAX_TX_BYTES: nat := 100_000_000
  const FEE_RATE_SATS_PER_KB: nat := 100
  const TWO_TO_THE_32: nat := 0x1_0000_0000
  const TWO_TO_THE_64: nat := 0x1_0000_0000_0000_0000

  type uint32 = x: nat | x < TWO_TO_THE_32
  type byte = x: nat | x < 256

  /**
   How outputs are locked. A tagged-drop lock script is a push of six tag bytes
   and OP_DROP, spent with OP_TRUE; a P2PKH lock script is 25 bytes, spent with
   a signature of estimated length sigLen.
   */
  datatype Mode =
    | TaggedDrop(sustainFee: nat)
    | P2PKH(sustainFee: nat, sigLen: uint32)
  {
    function LockLen(): nat { if TaggedDrop? then 8 else 25 }

    function UnlockLen(): nat { if TaggedDrop? then 1 else sigLen }

    function WithSustainFee(fee: nat): Mode { this.(sustainFee := fee) }
  }

  datatype BuildError = NilMode | InvalidFanoutCount | TxTooLarge | InsufficientValue | ZeroValueUTXO

  /** The value a Go uint64 holds after computing x. */
  function U64(x: nat): nat {
    x % TWO_TO_THE_64
  }

  function VarIntSize(n: nat): nat {
    if n < 0xfd then 1
    else if n <= 0xffff then 3
    else if n <= 0xffff_ffff then 5
    else 9
  }

  /** The size of a one-input, count-output transaction, without wrap-around. */
  function ExactSize(mode: Mode, count: nat): nat {
    8 + VarIntSize(1)
    + (32 + 4 + VarIntSize(mode.UnlockLen()) + mode.UnlockLen() + 4)
    + VarIntSize(count)
    + count * (8 + VarIntSize(mode.LockLen()) + mode.LockLen())
  }

  /** 100 sat/KB of the serialized size, rounded up. */
  function FanoutFee(mode: Mode, count: nat): nat {
    (ExactSize(mode, count) * FEE_RATE_SATS_PER_KB + 999) / 1000
  }

  /** rawSize as BuildFanout computes it, each uint64 operation wrapped. */
  function RawSize(mode: Mode, count: nat): nat {
    var outputSize := U64(8 + VarIntSize(mode.LockLen()) + mode.LockLen());
    var inputSize := U64(32 + 4 + VarIntSize(mode.UnlockLen()) + mode.UnlockLen() + 4);
    U64(U64(8 + VarIntSize(1) + inputSize + VarIntSize(count)) + U64(count * outputSize))
  }

  /** fee as BuildFanout computes it from rawSize. */
  function RawFee(rawSize: nat): nat {
    U64(U64(rawSize * FEE_RATE_SATS_PER_KB) + 999) / 1000
  }

  /** The value BuildFanout gives each of n outputs, or why it refuses. */
  function FanoutShare(value: nat, n: int, mode: Mode): (r: Result<nat, BuildError>) {
    if n <= 0 then Err(InvalidFanoutCount)
    else if n > MAX_TX_BYTES then Err(TxTooLarge)
    else if RawSize(mode, n) > MAX_TX_BYTES then Err(TxTooLarge)
    else
      var fee := RawFee(RawSize(mode, n));
      if value <= fee then Err(InsufficientValue)
      else if (value - fee) / n == 0 then Err(InsufficientValue)
      else Ok((value - fee) / n)
  }

  /** BuildFanout: spend u into n equal outputs. A None mode is a nil *Mode. */
  function BuildFanout(u: UTXO, n: int, mode: Option<Mode>): Result<Tx, BuildError> {
    if mode.None? then Err(NilMode)
    else
      match FanoutShare(u.value, n, mode.value)
      case Err(e) => Err(e)
      case Ok(share) => assert n > 0; Ok(Tx(u, seq(n, _ => share)))
  }

  /** BuildSustain: one output worth the input minus the fee, or zero at the end of the chain. */
  function BuildSustain(u: UTXO, mode: Option<Mode>): Result<Tx, BuildError> {
    if mode.None? then Err(NilMode)
    else if u.value == 0 then Err(ZeroValueUTXO)
    else Ok(Tx(u, [if u.value > mode.value.sustainFee then u.value - mode.value.sustainFee else 0]))
  }

  // ---------------------------------------------------------------- arithmetic

  lemma NoWrap(x: nat)
    requires x < TWO_TO_THE_64
    ensures U64(x) == x
  {
  }

  /**
   No uint64 step of the size or the fee wraps, for either mode and any
   accepted count: BuildFanout prices the exact size.
   */
  lemma NoOverflow(mode: Mode, n: nat)
    requires 0 < n <= MAX_TX_BYTES
    ensures RawSize(mode, n) == ExactSize(mode, n)
    ensures RawSize(mode, n) <= MAX_TX_BYTES ==> RawFee(RawSize(mode, n)) == FanoutFee(mode, n)
  {
    var outputSize := 8 + VarIntSize(mode.LockLen()) + mode.LockLen();
    var inputSize := 32 + 4 + VarIntSize(mode.UnlockLen()) + mode.UnlockLen() + 4;
    NoWrap(outputSize);
    NoWrap(inputSize);
    assert n * outputSize <= MAX_TX_BYTES * 34;
    NoWrap(n * outputSize);
    NoWrap(8 + VarIntSize(1) + inputSize + VarIntSize(n));
    NoWrap(8 + VarIntSize(1) + inputSize + VarIntSize(n) + n * outputSize);
    if RawSize(mode, n) <= MAX_TX_BYTES {
      NoWrap(RawSize(mode, n) * FEE_RATE_SATS_PER_KB);
      NoWrap(RawSize(mode, n) * FEE_RATE_SATS_PER_KB + 999);
    }
  }

  /** Dividing rest by n leaves a remainder below n, and is positive exactly when rest reaches n. */
  lemma QuotientBounds(rest: nat, n: nat)
    requires n > 0
    ensures n * (rest / n) <= rest < n * (rest / n) + n
    ensures rest / n == 0 <==> rest < n
  {
    assert rest == n * (rest / n) + rest % n;
    assert rest / n >= 1 ==> n * (rest / n) >= n;
  }

  /**
   FanoutShare succeeds exactly when the transaction fits and the value covers
   the fee and one satoshi per output; it then splits the value with nothing
   created or lost: n shares, the fee, and a remainder below n.
   */
  lemma FanoutShareExact(value: nat, n: int, mode: Mode)
    ensures FanoutShare(value, n, mode).Ok?
      <==> n > 0 && ExactSize(mode, n) <= MAX_TX_BYTES && value >= FanoutFee(mode, n) + n
    ensures FanoutShare(value, n, mode).Ok? ==>
      var share := FanoutShare(value, n, mode).value;
      && share >= 1
      && n * share + FanoutFee(mode, n) <= value < n * share + FanoutFee(mode, n) + n
    ensures FanoutShare(value, n, mode) == Err(InvalidFanoutCount) <==> n <= 0
    ensures FanoutShare(value, n, mode) == Err(TxTooLarge) <==> n > 0 && ExactSize(mode, n) > MAX_TX_BYTES
  {
    if 0 < n {
      var outputSize := 8 + VarIntSize(mode.LockLen()) + mode.LockLen();
      assert n * outputSize >= n;
      if n <= MAX_TX_BYTES {
        NoOverflow(mode, n);
        var fee := FanoutFee(mode, n);
        if value > fee {
          QuotientBounds(value - fee, n);
        }
      }
    }
  }

  /**
   A fanout that builds spends exactly u into n equal positive outputs, pays
   the size-based fee, and gives the miner less than n satoshis more.
   */
  lemma FanoutOutcome(u: UTXO, n: int, mode: Mode)
    ensures BuildFanout(u, n, Some(mode)).Ok?
      <==> n > 0 && ExactSize(mode, n) <= MAX_TX_BYTES && u.value >= FanoutFee(mode, n) + n
    ensures BuildFanout(u, n, Some(mode)).Ok? ==>
      var tx := BuildFanout(u, n, Some(mode)).value;
      && tx.input == u && |tx.outs| == n
      && (forall i :: 0 <= i < n ==> tx.outs[i] == tx.outs[0] >= 1)
      && Sum(tx.outs) + FanoutFee(mode, n) <= u.value < Sum(tx.outs) + FanoutFee(mode, n) + n
  {
    FanoutShareExact(u.value, n, mode);
    if BuildFanout(u, n, Some(mode)).Ok? {
      SumOfCopies(n, FanoutShare(u.value, n, mode).value);
    }
  }

  /** Fanouts of this width respect the size limit. */
  predicate Fits(mode: Mode, width: nat) {
    ExactSize(mode, width) <= MAX_TX_BYTES
  }

  lemma FitsDown(mode: Mode, a: nat, b: nat)
    requires a <= b && Fits(mode, b)
    ensures Fits(mode, a)
  {
    var outputSize := 8 + VarIntSize(mode.LockLen()) + mode.LockLen();
    assert a * outputSize <= b * outputSize;
  }

  /** Twice what any fanout that fits can need. */
  const AMPLE: nat := 1_000_000_000

  /** Half of that pays for a fanout that fits, of any width. */
  lemma FanoutBuilds(u: UTXO, n: nat, mode: Mode)
    requires u.value >= AMPLE / 2 && n >= 1 && Fits(mode, n)
    ensures BuildFanout(u, n, Some(mode)).Ok?
    ensures var tx := BuildFanout(u, n, Some(mode)).value;
      tx.input == u && |tx.outs| == n && forall i :: 0 <= i < n ==> tx.outs[i] > 0
  {
    FanoutOutcome(u, n, mode);
    var outputSize := 8 + VarIntSize(mode.LockLen()) + mode.LockLen();
    assert n * outputSize >= n;
  }

  /** BuildFanout's loops: the outputs of the transaction, and the UTXOs it returns. */
  method MakeFanout(u: UTXO, n: int, mode: Option<Mode>) returns (r: Result<(Tx, seq<UTXO>), BuildError>)
    ensures BuildFanout(u, n, mode).Err? ==> r == Err(BuildFanout(u, n, mode).error)
    ensures BuildFanout(u, n, mode).Ok? ==> var tx := BuildFanout(u, n, mode).value; r == Ok((tx, Created(tx)))
  {
    hide FanoutShare;
    if mode.None? { return Err(NilMode); }
    FanoutShareExact(u.value, n, mode.value);
    var share := FanoutShare(u.value, n, mode.value);
    if share.Err? { return Err(share.error); }
    var outs: seq<nat> := [];
    for i := 0 to n
      invariant |outs| == i && forall k :: 0 <= k < i ==> outs[k] == share.value
    {
      outs := outs + [share.value];
    }
    assert BuildFanout(u, n, mode).value.outs == outs;
    var tx := Tx(u, outs);
    var utxos := [];
    for vout := 0 to n
      invariant |utxos| == vout && forall i :: 0 <= i < vout ==> utxos[i] == Output(tx, i)
    {
      utxos := utxos + [UTXO(OutPoint(IdOf(tx), vout), share.value, 0)];
    }
    assert utxos == Created(tx);
    return Ok((tx, utxos));
  }

  // ------------------------------------------------------------- serialization

  function LittleEndian(x: nat, width: nat): (bytes: seq<byte>)
    ensures |bytes| == width
  {
    if width == 0 then [] else [x % 256] + LittleEndian(x / 256, width - 1)
  }

  function FromLittleEndian(bytes: seq<byte>): nat {
    if bytes == [] then 0 else bytes[0] + 256 * FromLittleEndian(bytes[1..])
  }

  function Pow256(width: nat): nat {
    if width == 0 then 1 else 256 * Pow256(width - 1)
  }

  /** Bitcoin's CompactSize encoding. */
  function CompactSize(n: nat): seq<byte>
    requires n < TWO_TO_THE_64
  {
    if n < 0xfd then [n]
    else if n <= 0xffff then [0xfd] + LittleEndian(n, 2)
    else if n <= 0xffff_ffff then [0xfe] + LittleEndian(n, 4)
    else [0xff] + LittleEndian(n, 8)
  }

  /** Reads a CompactSize from the front of bytes, giving the number and how many bytes it took. */
  function ReadCompactSize(bytes: seq<byte>): Option<(nat, nat)> {
    if bytes == [] then None
    else if bytes[0] < 0xfd then Some((bytes[0], 1))
    else
      var width := if bytes[0] == 0xfd then 2 else if bytes[0] == 0xfe then 4 else 8;
      if |bytes| < 1 + width then None
      else Some((FromLittleEndian(bytes[1..1 + width]), 1 + width))
  }

  function SerializeOutput(value: nat, lock: seq<byte>): seq<byte>
    requires |lock| < TWO_TO_THE_64
  {
    LittleEndian(value, 8) + CompactSize(|lock|) + lock
  }

  function SerializeOutputs(outs: seq<nat>, lock: seq<byte>): seq<byte>
    requires |lock| < TWO_TO_THE_64
  {
    if outs == [] then [] else SerializeOutput(outs[0], lock) + SerializeOutputs(outs[1..], lock)
  }

  /** The Bitcoin wire form of a one-input transaction whose outputs all share a lock script. */
  function Serialize(prevHash: seq<byte>, vout: uint32, unlock: seq<byte>, outs: seq<nat>, lock: seq<byte>): seq<byte>
    requires |prevHash| == 32
    requires |unlock| < TWO_TO_THE_64 && |lock| < TWO_TO_THE_64 && |outs| < TWO_TO_THE_64
  {
    LittleEndian(1, 4)
    + CompactSize(1)
    + prevHash + LittleEndian(vout, 4) + CompactSize(|unlock|) + unlock + LittleEndian(0xffff_ffff, 4)
    + CompactSize(|outs|) + SerializeOutputs(outs, lock)
    + LittleEndian(0, 4)
  }

  lemma {:induction false} LittleEndianRoundTrip(x: nat, width: nat)
    requires x < Pow256(width)
    ensures FromLittleEndian(LittleEndian(x, width)) == x
  {
    if width > 0 {
      LittleEndianRoundTrip(x / 256, width - 1);
      assert LittleEndian(x, width)[1..] == LittleEndian(x / 256, width - 1);
    }
  }

  /** CompactSize is a prefix code whose length is what varIntSize says. */
  lemma CompactSizeRoundTrip(n: nat, rest: seq<byte>)
    requires n < TWO_TO_THE_64
    ensures ReadCompactSize(CompactSize(n) + rest) == Some((n, |CompactSize(n)|))
    ensures |CompactSize(n)| == VarIntSize(n)
  {
    assert Pow256(2) == 0x1_0000;
    assert Pow256(4) == 0x1_0000_0000 by { assert Pow256(4) == 256 * (256 * Pow256(2)); }
    assert Pow256(8) == TWO_TO_THE_64 by {
      assert Pow256(6) == 256 * (256 * Pow256(4));
      assert Pow256(8) == 256 * (256 * Pow256(6));
    }
    if n >= 0xfd {
      var width := if n <= 0xffff then 2 else if n <= 0xffff_ffff then 4 else 8;
      LittleEndianRoundTrip(n, width);
      assert (CompactSize(n) + rest)[1..1 + width] == LittleEndian(n, width);
    }
  }

  lemma {:induction false} SerializedOutputsLength(outs: seq<nat>, lock: seq<byte>)
    requires |lock| < TWO_TO_THE_64
    ensures |SerializeOutputs(outs, lock)| == |outs| * (8 + VarIntSize(|lock|) + |lock|)
  {
    if outs != [] {
      CompactSizeRoundTrip(|lock|, []);
      SerializedOutputsLength(outs[1..], lock);
      assert |outs| * (8 + VarIntSize(|lock|) + |lock|)
        == (8 + VarIntSize(|lock|) + |lock|) + (|outs| - 1) * (8 + VarIntSize(|lock|) + |lock|);
    }
  }

  /** The size BuildFanout prices is the length of the transaction it serializes. */
  lemma SerializedLength(mode: Mode, prevHash: seq<byte>, vout: uint32, unlock: seq<byte>, outs: seq<nat>,
    lock: seq<byte>)
    requires |prevHash| == 32 && |outs| < TWO_TO_THE_64
    requires |unlock| == mode.UnlockLen() && |lock| == mode.LockLen()
    ensures |Serialize(prevHash, vout, unlock, outs, lock)| == ExactSize(mode, |outs|)
  {
    CompactSizeRoundTrip(1, []);
    CompactSizeRoundTrip(|unlock|, []);
    CompactSizeRoundTrip(|outs|, []);
    SerializedOutputsLength(outs, lock);
  }
}
