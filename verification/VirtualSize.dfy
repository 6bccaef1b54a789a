/** The virtual size of a transaction, scanned from its bytes and estimated from the kinds of its parts.
    The reference is section "Transaction size calculations" of BIP 141. */
module VirtualSize {
  import opened Types
  import opened Wire
  import opened Transactions
  import opened TransactionCode

  function Bip141Weight(tx: Tx): (w: nat) {
    3 * |Serialize(Stripped(tx))| + |Serialize(tx)|
  }

  function Quarters(w: nat): (q: nat)
    ensures 4 * q >= w && 4 * q < w + 4
  {
    (w + 3) / 4
  }

  // ---- the scanner ----

  /** How many witness bytes a marked transaction has. */
  function WitnessBytes(data: Data): (r: Read<int>)
    requires |data| > 6
  {
    var (inputs, d1) :- ReadCounted(false, NO_LIMIT, ReadInput, data[6..]);
    var (_, d2) :- ReadCounted(false, NO_LIMIT, ReadAnyOutput, d1);
    var (_, d3) :- ReadList(ReadAnyStack, |inputs|, d2);
    Got(|d2| - |d3|, d3)
  }

  /** An offset that has moved as far as a reader would. */
  ghost predicate Reached<T>(r: Option<nat>, read: Read<T>, data: Data) {
    read.Got? ==> r.Some? && r.value <= |data| && data[r.value..] == read.rest
  }

  method SkipScript(data: Data, offset: nat) returns (r: Option<nat>)
    ensures offset <= |data| ==> Reached(r, ReadBlob(false, NO_LIMIT, data[offset..]), data)
    ensures r.Some? ==> r.value >= offset
  {
    hide ReadSize;
    var size := DecodeVarint(false, data, offset);
    if size.None? { return None; }
    return Some(size.value.1 + size.value.0);
  }

  method SkipInput(data: Data, offset: nat) returns (r: Option<nat>)
    ensures offset <= |data| ==> Reached(r, ReadInput(data[offset..]), data)
    ensures r.Some? ==> r.value >= offset
  {
    hide ReadBlob, Word4;
    if offset + 36 <= |data| { assert data[offset..][32..][4..] == data[offset + 36..]; }
    var script := SkipScript(data, offset + 36);
    if script.None? { return None; }
    if script.value + 4 <= |data| { assert data[script.value..][4..] == data[script.value + 4..]; }
    return Some(script.value + 4);
  }

  method SkipInputs(n: nat, data: Data, offset: nat) returns (r: Option<nat>)
    requires offset <= |data|
    ensures Reached(r, ReadList(ReadInput, n, data[offset..]), data)
    ensures r.Some? ==> r.value >= offset
  {
    hide ReadInput;
    var pos: nat := offset;
    for i := 0 to n
      invariant offset <= pos
      invariant ReadList(ReadInput, n, data[offset..]).Got? ==>
        pos <= |data| && ReadList(ReadInput, n - i, data[pos..]).Got?
        && ReadList(ReadInput, n - i, data[pos..]).rest == ReadList(ReadInput, n, data[offset..]).rest
    {
      var next := SkipInput(data, pos);
      if next.None? { return None; }
      pos := next.value;
    }
    return Some(pos);
  }

  method SkipOutputs(n: nat, data: Data, offset: nat) returns (r: Option<nat>)
    ensures offset <= |data| ==> Reached(r, ReadList(ReadAnyOutput, n, data[offset..]), data)
    ensures r.Some? ==> r.value >= offset
  {
    hide ReadBlob, Word8;
    var pos: nat := offset;
    for i := 0 to n
      invariant offset <= pos
      invariant offset <= |data| && ReadList(ReadAnyOutput, n, data[offset..]).Got? ==>
        pos <= |data| && ReadList(ReadAnyOutput, n - i, data[pos..]).Got?
        && ReadList(ReadAnyOutput, n - i, data[pos..]).rest == ReadList(ReadAnyOutput, n, data[offset..]).rest
    {
      if pos + 8 <= |data| { assert data[pos..][8..] == data[pos + 8..]; }
      var next := SkipScript(data, pos + 8);
      if next.None? { return None; }
      pos := next.value;
    }
    return Some(pos);
  }

  method SkipStack(data: Data, offset: nat) returns (r: Option<nat>)
    ensures offset <= |data| ==> Reached(r, ReadAnyStack(data[offset..]), data)
    ensures r.Some? ==> r.value >= offset
  {
    hide ReadSize, ReadBlob;
    var count := DecodeVarint(false, data, offset);
    if count.None? { return None; }
    var n := count.value.0;
    var pos: nat := count.value.1;
    ghost var start := if pos <= |data| then data[pos..] else [];
    for i := 0 to n
      invariant offset <= pos
      invariant offset <= |data| && ReadList(ReadItem, n, start).Got? ==>
        pos <= |data| && ReadList(ReadItem, n - i, data[pos..]).Got?
        && ReadList(ReadItem, n - i, data[pos..]).rest == ReadList(ReadItem, n, start).rest
    {
      var next := SkipScript(data, pos);
      if next.None? { return None; }
      pos := next.value;
    }
    return Some(pos);
  }

  method SkipStacks(n: nat, data: Data, offset: nat) returns (r: Option<nat>)
    ensures offset <= |data| ==> Reached(r, ReadList(ReadAnyStack, n, data[offset..]), data)
    ensures r.Some? ==> r.value >= offset
  {
    hide ReadAnyStack;
    var pos: nat := offset;
    for i := 0 to n
      invariant offset <= pos
      invariant offset <= |data| && ReadList(ReadAnyStack, n, data[offset..]).Got? ==>
        pos <= |data| && ReadList(ReadAnyStack, n - i, data[pos..]).Got?
        && ReadList(ReadAnyStack, n - i, data[pos..]).rest == ReadList(ReadAnyStack, n, data[offset..]).rest
    {
      var next := SkipStack(data, pos);
      if next.None? { return None; }
      pos := next.value;
    }
    return Some(pos);
  }

  predicate HasMarker(data: Data) {
    |data| > 6 && data[4] == 0 && data[5] == 1
  }

  /** The scan of a marked transaction for the extent of its witnesses. */
  method ScanWitnesses(data: Data) returns (r: Option<int>)
    requires HasMarker(data)
    ensures WitnessBytes(data).Got? ==> r == Some(WitnessBytes(data).value)
    ensures r.Some? ==> r.value >= 0
  {
    hide ReadSize, ReadInput, ReadAnyOutput, ReadAnyStack, ReadList;
    var ins := DecodeVarint(false, data, 6);
    if ins.None? { return None; }
    var p1 := SkipInputs(ins.value.0, data, ins.value.1);
    if p1.None? { return None; }
    var outs := DecodeVarint(false, data, p1.value);
    if outs.None? { return None; }
    var start := SkipOutputs(outs.value.0, data, outs.value.1);
    if start.None? { return None; }
    var end := SkipStacks(ins.value.0, data, start.value);
    if end.None? { return None; }
    return Some(end.value as int - start.value as int);
  }

  /** `calculate_tx_vsize`. */
  method CalculateTxVsize(data: Data) returns (r: Option<int>)
    ensures !HasMarker(data) ==> r == Some(|data|)
    ensures HasMarker(data) && WitnessBytes(data).Got? ==>
            r == Some((4 * (|data| - WitnessBytes(data).value - 2) + WitnessBytes(data).value + 2 + 3) / 4)
    ensures forall tx :: data == Serialize(tx) && (HasWitness(tx) ==> |tx.witnesses| == |tx.inputs|) ==>
            (r == Some(Quarters(Bip141Weight(tx))) <==> !LooksMarked(tx))
  {
    hide WitnessBytes, Serialize, Stripped, LooksMarked, HasWitness, Le4, Join;
    forall tx | data == Serialize(tx) && (HasWitness(tx) ==> |tx.witnesses| == |tx.inputs|)
      ensures if LooksMarked(tx) then HasMarker(data) && Bip141Weight(tx) == 4 * |data| else Scanned(tx, data)
    {
      if LooksMarked(tx) { ScannedWrongly(tx); }
      else if HasWitness(tx) { ScannedMarked(tx); }
      else { ScannedUnmarked(tx); }
    }
    if !HasMarker(data) { return Some(|data|); }
    var witnessSize := ScanWitnesses(data);
    if witnessSize.None? { return None; }
    var nonWitnessSize := |data| - witnessSize.value - 2;
    var weight := nonWitnessSize * 4 + witnessSize.value + 2;
    return Some((weight + 3) / 4);
  }

  /** What the scan of a serialized transaction meets. */
  ghost predicate Scanned(tx: Tx, data: Data) {
    var w := |Join(SerStack, tx.witnesses)|;
    if HasWitness(tx) then
      HasMarker(data) && WitnessBytes(data) == Got(w, Le4(tx.locktime)) && |Serialize(Stripped(tx))| == |data| - w - 2
    else !HasMarker(data) && |Serialize(Stripped(tx))| == |data|
  }

  lemma ScannedUnmarked(tx: Tx)
    requires !HasWitness(tx) && !LooksMarked(tx)
    ensures Scanned(tx, Serialize(tx))
  {
    StrippedSame(tx);
    BodyMarked(tx, Le4(tx.locktime));
    hide SerBody, Le4, HasWitness;
  }

  /** One output without input is scanned as if it had witnesses. */
  lemma ScannedWrongly(tx: Tx)
    requires LooksMarked(tx)
    ensures HasMarker(Serialize(tx)) && Bip141Weight(tx) == 4 * |Serialize(tx)|
  {
    StrippedSame(tx);
    BodyMarked(tx, Le4(tx.locktime));
    OneOutputLength(tx);
    hide SerBody, Le4, HasWitness;
  }

  lemma OneOutputLength(tx: Tx)
    requires |tx.outputs| == 1
    ensures |SerBody(tx)| > 2
  {
    SizeFirst(|tx.inputs|);
    SizeFirst(1);
    assert Join(SerOutput, tx.outputs) == SerOutput(tx.outputs[0]) + Join(SerOutput, tx.outputs[1..]);
    hide Join, Size, Le8;
  }

  /** An output of nothing to an empty script, and no input: 19 bytes, which the scan takes for 18. */
  lemma OneOutputScansShort(version: Word32, locktime: Word32)
    ensures var tx := Tx(version, [], [TxOutput(0, [])], [], locktime);
            var data := Serialize(tx);
            && LooksMarked(tx) && |data| == 19 && Quarters(Bip141Weight(tx)) == 19
            && HasMarker(data) && WitnessBytes(data).Got? && WitnessBytes(data).value == 0
            && (4 * (|data| - 0 - 2) + 0 + 2 + 3) / 4 == 18
  {
    var tx := Tx(version, [], [TxOutput(0, [])], [], locktime);
    var data := Serialize(tx);
    EmptyOutput();
    ScannedWrongly(tx);
    assert SerBody(tx) == [0, 1, 0, 0, 0, 0, 0, 0, 0, 0, 0];
    assert data[6..] == [0, 0] + data[8..];
    NothingCounted<TxInput>(ReadInput, [0] + data[8..]);
    NothingCounted<TxOutput>(ReadAnyOutput, data[8..]);
    assert [0] + ([0] + data[8..]) == data[6..];
    hide Le4, SerBody, ReadCounted, ReadInput, ReadAnyOutput;
  }

  lemma EmptyOutput()
    ensures var tx: List<TxOutput> := [TxOutput(0, [])];
            Counted(SerOutput, tx) == [1, 0, 0, 0, 0, 0, 0, 0, 0, 0] && Counted(SerInput, []) == [0]
  {
    var o := TxOutput(0, []);
    assert Le8(0) == [0, 0, 0, 0, 0, 0, 0, 0];
    assert [o][1..] == [];
    assert Join(SerOutput, [o]) == SerOutput(o) + Join(SerOutput, []);
  }

  lemma NothingCounted<T>(read: Data -> Read<T>, d: Data)
    ensures ReadCounted(false, NO_LIMIT, read, [0] + d) == Got([], d)
  {
    assert ([0] + d)[1..] == d;
  }

  lemma ScannedMarked(tx: Tx)
    requires HasWitness(tx) && |tx.witnesses| == |tx.inputs|
    ensures Scanned(tx, Serialize(tx))
  {
    hide Serialize, SerBody, Join, Counted, ReadCounted, ReadList, Le4, HasWitness, Stripped, ReadInput, ReadAnyOutput,
      ReadAnyStack;
    MarkedLayout(tx);
    MarkedLists(tx, Le4(tx.locktime));
  }

  lemma MarkedLayout(tx: Tx)
    requires HasWitness(tx)
    ensures var data := Serialize(tx);
            && HasMarker(data)
            && data[6..] == SerBody(tx) + (Join(SerStack, tx.witnesses) + Le4(tx.locktime))
            && |Serialize(Stripped(tx))| == |data| - |Join(SerStack, tx.witnesses)| - 2
  {
    hide SerBody, Join, Le4, Counted;
    var rest := SerBody(tx) + (Join(SerStack, tx.witnesses) + Le4(tx.locktime));
    assert Serialize(tx) == (Le4(tx.version) + [0, 1]) + rest;
    BodyNotEmpty(tx);
    SameBody(tx);
  }

  lemma BodyNotEmpty(tx: Tx)
    ensures SerBody(tx) != []
  {
    SizeFirst(|tx.inputs|);
  }

  lemma SameBody(tx: Tx)
    ensures SerBody(Stripped(tx)) == SerBody(tx) && !HasWitness(Stripped(tx))
  {
  }

  lemma MarkedLists(tx: Tx, t: Data)
    requires |tx.witnesses| == |tx.inputs|
    ensures var d2 := Join(SerStack, tx.witnesses) + t;
            var d1 := Counted(SerOutput, tx.outputs) + d2;
            && ReadCounted(false, NO_LIMIT, ReadInput, SerBody(tx) + d2) == Got(tx.inputs, d1)
            && ReadCounted(false, NO_LIMIT, ReadAnyOutput, d1) == Got(tx.outputs, d2)
            && ReadList(ReadAnyStack, |tx.inputs|, d2) == Got(tx.witnesses, t)
  {
    hide ReadInput, ReadAnyOutput, ReadAnyStack, SerInput, SerOutput, SerStack, Counted, ReadCounted, ReadList, Join;
    var d2 := Join(SerStack, tx.witnesses) + t;
    var d1 := Counted(SerOutput, tx.outputs) + d2;
    AnyListsRoundTrip(tx, d2);
    forall w, t ensures ReadAnyStack(SerStack(w) + t) == Got(w, t) { AnyStackRoundTrip(w, t); }
    ListRoundTrip(ReadAnyStack, SerStack, tx.witnesses, t);
  }
}
