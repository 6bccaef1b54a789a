/** The signer's strict reading of an unsigned transaction with one input. */
module UnsignedTx {
  import opened Types
  import opened Wire
  import opened Transactions
  import opened TransactionCode

  const MAX_PSBT_SIZE: nat := 4_000_000
  const MAX_TX_OUTPUTS: nat := 100_000
  const MAX_SCRIPT_SIZE: nat := 10_000

  function ReadUnsignedInput(d: Data): (r: Read<TxInput>) {
    var (txid, d1) :- ReadBytes(32, d);
    var (vout, d2) :- ReadWord32(d1);
    var (scriptSize, d3) :- ReadSize(true, d2);
    if scriptSize != 0 then Fail
    else
      var (sequence, d4) :- ReadWord32(d3);
      Got(TxInput(txid, vout, [], sequence), d4)
  }

  function ReadStrictOutput(d: Data): (r: Read<TxOutput>) {
    var (value, d1) :- ReadWord64(d);
    if value > MAX_MONEY then Fail
    else
      var (script, d2) :- ReadBlob(true, MAX_SCRIPT_SIZE, d1);
      Got(TxOutput(value, script), d2)
  }

  function ReadUnsigned(data: Data): (r: Read<Tx>)
    ensures r.Got? ==> |r.value.inputs| == 1
  {
    var (version, d1) :- ReadWord32(data);
    var (count, d2) :- ReadSize(true, d1);
    if count != 1 then Fail
    else
      var (input, d3) :- ReadUnsignedInput(d2);
      var (outputs, d4) :- ReadCounted(true, MAX_TX_OUTPUTS, ReadStrictOutput, d3);
      var (locktime, d5) :- ReadWord32(d4);
      Got(Tx(version, [input], outputs, [], locktime), d5)
  }

  function ParseUnsigned(data: Data): (r: Option<Tx>)
    ensures r.Some? ==> |r.value.inputs| == 1
  {
    if |data| > MAX_PSBT_SIZE then None
    else match ReadUnsigned(data)
      case Fail => None
      case Got(tx, rest) => if rest == [] then Some(tx) else None
  }

  predicate SmallOutput(o: TxOutput) {
    o.value <= MAX_MONEY && |o.script| <= MAX_SCRIPT_SIZE
  }

  /** One input without scriptSig, bounded outputs, no witnesses. */
  predicate Unsigned(tx: Tx) {
    && |tx.inputs| == 1 && tx.inputs[0].scriptSig == [] && tx.witnesses == []
    && |tx.outputs| <= MAX_TX_OUTPUTS && (forall o :: o in tx.outputs ==> SmallOutput(o))
  }

  // ---- the reader and the writer are inverse ----

  lemma UnsignedInputRoundTrip(i: TxInput, t: Data)
    requires i.scriptSig == []
    ensures ReadUnsignedInput(SerInput(i) + t) == Got(i, t)
  {
    hide Le4, ReadWord32, ReadSize;
    SizeFirst(0);
    var d3 := Le4(i.sequence) + t;
    var d2 := Size(0) + d3;
    var d1 := Le4(i.vout) + d2;
    assert SerInput(i) + t == i.txid + d1;
    BytesRoundTrip(i.txid, d1);
    Word32RoundTrip(i.vout, d2);
    SizeRoundTrip(true, 0, d3);
    Word32RoundTrip(i.sequence, t);
  }

  lemma UnsignedInputInverse(d: Data)
    ensures var r := ReadUnsignedInput(d); r.Got? ==> d == SerInput(r.value) + r.rest && r.value.scriptSig == []
  {
    hide Le4, ReadWord32, ReadSize;
    var r := ReadUnsignedInput(d);
    if r.Got? {
      var d1 := d[32..];
      Word32Inverse(d1);
      var d2 := ReadWord32(d1).rest;
      SizeInverse(d2);
      var d3 := ReadSize(true, d2).rest;
      Word32Inverse(d3);
      SizeFirst(0);
      assert d == d[..32] + (Le4(r.value.vout) + ([0] + (Le4(r.value.sequence) + r.rest)));
    }
  }

  lemma StrictOutputRoundTrip(o: TxOutput, t: Data)
    ensures ReadStrictOutput(SerOutput(o) + t) == if SmallOutput(o) then Got(o, t) else Fail
  {
    hide Le8, Prefixed, ReadWord64, ReadBlob;
    assert SerOutput(o) + t == Le8(o.value) + (Prefixed(o.script) + t);
    Word64RoundTrip(o.value, Prefixed(o.script) + t);
    BlobRoundTrip(true, MAX_SCRIPT_SIZE, o.script, t);
  }

  lemma StrictOutputInverse(d: Data)
    ensures var r := ReadStrictOutput(d); r.Got? ==> d == SerOutput(r.value) + r.rest && SmallOutput(r.value)
  {
    hide Le8, Prefixed, ReadWord64, ReadBlob;
    Word64Inverse(d);
    var r := ReadStrictOutput(d);
    if r.Got? {
      BlobInverse(MAX_SCRIPT_SIZE, ReadWord64(d).rest);
      assert d == Le8(r.value.value) + (Prefixed(r.value.script) + r.rest);
    }
  }

  lemma WrittenUnsigned(tx: Tx)
    requires Unsigned(tx)
    ensures Serialize(tx) == Le4(tx.version)
      + (Size(1) + (SerInput(tx.inputs[0]) + (Counted(SerOutput, tx.outputs) + Le4(tx.locktime))))
  {
    hide Le4, Size, SerInput, Join;
    assert tx.inputs == [tx.inputs[0]];
    JoinOne(tx.inputs[0]);
  }

  lemma JoinOne(i: TxInput)
    ensures Join(SerInput, [i]) == SerInput(i)
  {
    assert Join(SerInput, []) == [];
  }

  lemma UnsignedRoundTrip(tx: Tx, t: Data)
    requires Unsigned(tx)
    ensures ReadUnsigned(Serialize(tx) + t) == Got(tx, t)
  {
    hide Le4, Size, SerInput, Counted, ReadWord32, ReadSize, ReadUnsignedInput, ReadStrictOutput, ReadCounted,
      Serialize, SmallOutput, SerOutput;
    var d4 := Le4(tx.locktime) + t;
    var d3 := Counted(SerOutput, tx.outputs) + d4;
    var d2 := SerInput(tx.inputs[0]) + d3;
    var d1 := Size(1) + d2;
    WrittenUnsigned(tx);
    assert Serialize(tx) + t == Le4(tx.version) + d1;
    Word32RoundTrip(tx.version, d1);
    SizeRoundTrip(true, 1, d2);
    UnsignedInputRoundTrip(tx.inputs[0], d3);
    forall o, t | o in tx.outputs ensures ReadStrictOutput(SerOutput(o) + t) == Got(o, t) {
      StrictOutputRoundTrip(o, t);
    }
    CountedRoundTrip(true, MAX_TX_OUTPUTS, ReadStrictOutput, SerOutput, tx.outputs, d4);
    Word32RoundTrip(tx.locktime, t);
    assert tx.inputs == [tx.inputs[0]];
  }

  lemma UnsignedInverse(d: Data)
    ensures var r := ReadUnsigned(d); r.Got? ==> d == Serialize(r.value) + r.rest && Unsigned(r.value)
  {
    hide Le4, Size, SerInput, Counted, ReadWord32, ReadSize, ReadUnsignedInput, ReadStrictOutput, ReadCounted,
      Serialize, SmallOutput, SerOutput;
    var r := ReadUnsigned(d);
    if r.Got? {
      var tx := r.value;
      Word32Inverse(d);
      var d1 := ReadWord32(d).rest;
      SizeInverse(d1);
      var d2 := ReadSize(true, d1).rest;
      UnsignedInputInverse(d2);
      var d3 := ReadUnsignedInput(d2).rest;
      forall d ensures ReadStrictOutput(d).Got? ==>
          d == SerOutput(ReadStrictOutput(d).value) + ReadStrictOutput(d).rest
            && SmallOutput(ReadStrictOutput(d).value) {
        StrictOutputInverse(d);
      }
      CountedInverse(MAX_TX_OUTPUTS, ReadStrictOutput, SerOutput, d3);
      CountedHolds(true, MAX_TX_OUTPUTS, ReadStrictOutput, SmallOutput, d3);
      var d4 := ReadCounted(true, MAX_TX_OUTPUTS, ReadStrictOutput, d3).rest;
      Word32Inverse(d4);
      WrittenUnsigned(tx);
      assert d == Le4(tx.version)
        + (Size(1) + (SerInput(tx.inputs[0]) + (Counted(SerOutput, tx.outputs) + (Le4(tx.locktime) + r.rest))));
    }
  }

  /** A byte string is accepted as a transaction exactly when it is the serialization of that transaction, which
      has one input without scriptSig and bounded outputs, and is within the size limit. */
  lemma UnsignedExact(data: Data, tx: Tx)
    ensures ParseUnsigned(data) == Some(tx) <==> |data| <= MAX_PSBT_SIZE && Unsigned(tx) && data == Serialize(tx)
  {
    hide ReadUnsigned, Serialize, Unsigned;
    UnsignedInverse(data);
    assert forall d: Data :: d + [] == d;
    if Unsigned(tx) { UnsignedRoundTrip(tx, []); }
  }

  // ---- the parser as it works ----

  method ParseUnsignedInput(data: Data, offset: nat) returns (r: Option<(TxInput, nat)>)
    requires offset <= |data|
    ensures At(r, ReadUnsignedInput(data[offset..]), data)
  {
    hide Word4, ReadSize;
    ghost var d := data[offset..];
    if |data| - offset < 32 { return None; }
    var txid := data[offset..offset + 32];
    if |data| - (offset + 32) < 4 { return None; }
    var vout := Word4(data[offset + 32..offset + 36]);
    assert txid == d[..32] && d[32..][..4] == data[offset + 32..offset + 36] && d[32..][4..] == data[offset + 36..];
    var size := DecodeVarint(true, data, offset + 36);
    if size.None? || size.value.0 != 0 { return None; }
    var pos := size.value.1;
    if |data| - pos < 4 { return None; }
    Slice(data, pos, 4);
    return Some((TxInput(txid, vout, [], Word4(data[pos..pos + 4])), pos + 4));
  }

  method ParseStrictOutputs(data: Data, offset: nat) returns (r: Option<(List<TxOutput>, nat)>)
    requires offset <= |data|
    ensures At(r, ReadCounted(true, MAX_TX_OUTPUTS, ReadStrictOutput, data[offset..]), data)
  {
    hide ReadSize, ReadBlob, Word8;
    var count := DecodeVarint(true, data, offset);
    if count.None? || count.value.0 > MAX_TX_OUTPUTS { return None; }
    var n := count.value.0;
    var pos: nat := count.value.1;
    var outputs: List<TxOutput> := [];
    ghost var start := data[pos..];
    for i := 0 to n
      invariant |outputs| == i && pos <= |data|
      invariant ReadList(ReadStrictOutput, n, start) == After(outputs, ReadList(ReadStrictOutput, n - i, data[pos..]))
    {
      AfterNext(ReadStrictOutput, outputs, n - i, data[pos..]);
      if |data| - pos < 8 { return None; }
      var value := Word8(data[pos..pos + 8]);
      Slice(data, pos, 8);
      if value > MAX_MONEY { return None; }
      var script := ParseScript(true, MAX_SCRIPT_SIZE, data, pos + 8);
      if script.None? { return None; }
      outputs, pos := outputs + [TxOutput(value, script.value.0)], script.value.1;
    }
    return Some((outputs, pos));
  }

  /** `_parse_tx`. */
  method ParseTx(data: Data) returns (r: Option<Tx>)
    ensures r == ParseUnsigned(data)
    ensures forall tx :: r == Some(tx) <==> |data| <= MAX_PSBT_SIZE && Unsigned(tx) && data == Serialize(tx)
  {
    hide Word4, ReadSize, ReadCounted, ReadUnsignedInput, Unsigned, Serialize;
    forall tx
      ensures ParseUnsigned(data) == Some(tx) <==> |data| <= MAX_PSBT_SIZE && Unsigned(tx) && data == Serialize(tx)
    {
      UnsignedExact(data, tx);
    }
    if |data| > MAX_PSBT_SIZE || |data| < 4 { return None; }
    var version := Word4(data[..4]);
    if |data| < 5 { ShortCount(data[4..]); return None; }
    if data[4] == 0 {
      ShortCount(data[4..]);
      if |data| < 6 || data[5] != 0 { return None; }
    }
    var count := DecodeVarint(true, data, 4);
    if count.None? || count.value.0 != 1 { return None; }
    var input := ParseUnsignedInput(data, count.value.1);
    if input.None? { return None; }
    var outputs := ParseStrictOutputs(data, input.value.1);
    if outputs.None? { return None; }
    var pos := outputs.value.1;
    if |data| - pos < 4 { return None; }
    Slice(data, pos, 4);
    var locktime := Word4(data[pos..pos + 4]);
    if pos + 4 != |data| { return None; }
    return Some(Tx(version, [input.value.0], outputs.value.0, [], locktime));
  }

  /** No input count of one starts with a zero byte. */
  lemma ShortCount(d: Data)
    requires d == [] || d[0] == 0
    ensures ReadSize(true, d).Fail? || ReadSize(true, d).value == 0
  {
  }

  // ---- the writer as it works: parts that are joined at the end ----

  function Flat(parts: seq<Data>): (d: Data) {
    if parts == [] then [] else Flat(parts[..|parts| - 1]) + parts[|parts| - 1]
  }

  lemma FlatNext(parts: seq<Data>, part: Data)
    ensures Flat(parts + [part]) == Flat(parts) + part
  {
    assert (parts + [part])[..|parts|] == parts;
  }

  method AppendInput(before: seq<Data>, i: TxInput) returns (parts: seq<Data>)
    ensures Flat(parts) == Flat(before) + SerInput(i)
  {
    hide Le4, Size, Flat, Prefixed;
    FlatNext(before, i.txid);
    parts := before + [i.txid];
    FlatNext(parts, Le4(i.vout));
    parts := parts + [Le4(i.vout)];
    ghost var front := Flat(parts);
    if i.scriptSig != [] {
      FlatNext(parts, Size(|i.scriptSig|));
      parts := parts + [Size(|i.scriptSig|)];
      FlatNext(parts, i.scriptSig);
      parts := parts + [i.scriptSig];
    } else {
      FlatNext(parts, [0]);
      parts := parts + [[0]];
    }
    PrefixedParts(i.scriptSig);
    assert Flat(parts) == front + Prefixed(i.scriptSig);
    FlatNext(parts, Le4(i.sequence));
    parts := parts + [Le4(i.sequence)];
  }

  method AppendInputs(before: seq<Data>, inputs: List<TxInput>) returns (parts: seq<Data>)
    ensures Flat(parts) == Flat(before) + Counted(SerInput, inputs)
  {
    hide SerInput, Size, Flat;
    parts := before + [Size(|inputs|)];
    FlatNext(before, Size(|inputs|));
    for k := 0 to |inputs|
      invariant Flat(parts) == Flat(before) + (Size(|inputs|) + Join(SerInput, inputs[..k]))
    {
      JoinNext(SerInput, inputs, k);
      parts := AppendInput(parts, inputs[k]);
    }
    assert inputs[..|inputs|] == inputs;
  }

  lemma PrefixedParts(b: Blob)
    ensures Prefixed(b) == if b == [] then [0] else Size(|b|) + b
  {
  }

  method AppendOutputs(before: seq<Data>, outputs: List<TxOutput>) returns (parts: seq<Data>)
    ensures Flat(parts) == Flat(before) + Counted(SerOutput, outputs)
  {
    hide Le8, Size, Flat;
    parts := before + [Size(|outputs|)];
    FlatNext(before, Size(|outputs|));
    for k := 0 to |outputs|
      invariant Flat(parts) == Flat(before) + (Size(|outputs|) + Join(SerOutput, outputs[..k]))
    {
      JoinNext(SerOutput, outputs, k);
      var o := outputs[k];
      ghost var start := parts;
      FlatNext(parts, Le8(o.value));
      parts := parts + [Le8(o.value)];
      FlatNext(parts, Size(|o.script|));
      parts := parts + [Size(|o.script|)];
      FlatNext(parts, o.script);
      parts := parts + [o.script];
      assert Flat(parts) == Flat(start) + SerOutput(o);
    }
    assert outputs[..|outputs|] == outputs;
  }

  method AppendStack(before: seq<Data>, stack: List<Blob>) returns (parts: seq<Data>)
    ensures Flat(parts) == Flat(before) + SerStack(stack)
  {
    hide Size, Flat;
    parts := before + [Size(|stack|)];
    FlatNext(before, Size(|stack|));
    for k := 0 to |stack|
      invariant Flat(parts) == Flat(before) + (Size(|stack|) + Join(Prefixed, stack[..k]))
    {
      JoinNext(Prefixed, stack, k);
      ghost var start := parts;
      FlatNext(parts, Size(|stack[k]|));
      parts := parts + [Size(|stack[k]|)];
      FlatNext(parts, stack[k]);
      parts := parts + [stack[k]];
      assert Flat(parts) == Flat(start) + Prefixed(stack[k]);
    }
    assert stack[..|stack|] == stack;
  }

  method AppendWitnesses(before: seq<Data>, witnesses: seq<List<Blob>>) returns (parts: seq<Data>)
    ensures Flat(parts) == Flat(before) + Join(SerStack, witnesses)
  {
    hide SerStack, Flat;
    parts := before;
    for k := 0 to |witnesses|
      invariant Flat(parts) == Flat(before) + Join(SerStack, witnesses[..k])
    {
      JoinNext(SerStack, witnesses, k);
      parts := AppendStack(parts, witnesses[k]);
    }
    assert witnesses[..|witnesses|] == witnesses;
  }

  lemma FlatOne(part: Data)
    ensures Flat([part]) == part
  {
    FlatNext([], part);
    assert [] + [part] == [part];
  }

  /** `_serialize_tx`, which writes witnesses whenever it is given any. */
  method SerializeTx(tx: Tx) returns (d: Data)
    ensures d == Written(tx.witnesses != [], tx)
    ensures HasLayout(tx.witnesses != [], tx, d)
  {
    hide Counted, Le4, SerStack, Flat, Join, HasLayout;
    var parts := [Le4(tx.version)];
    FlatOne(Le4(tx.version));
    if tx.witnesses != [] {
      FlatNext(parts, [0, 1]);
      parts := parts + [[0, 1]];
    }
    ghost var head := Flat(parts);
    parts := AppendInputs(parts, tx.inputs);
    parts := AppendOutputs(parts, tx.outputs);
    ghost var body := Flat(parts);
    assert body == head + SerBody(tx);
    if tx.witnesses != [] {
      parts := AppendWitnesses(parts, tx.witnesses);
    }
    FlatNext(parts, Le4(tx.locktime));
    parts := parts + [Le4(tx.locktime)];
    d := Flat(parts);
    WrittenBytes(tx.witnesses != [], tx, d);
  }
}
