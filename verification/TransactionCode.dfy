/** The library's transaction codec as it works: an offset that moves over the input, and a buffer that grows. */
module TransactionCode {
  import opened Types
  import opened Wire
  import opened Transactions

  /** A result with the new offset stands for a reader's result on the rest of the input. */
  ghost predicate At<T>(r: Option<(T, nat)>, read: Read<T>, data: Data) {
    match r
    case None => read.Fail?
    case Some(p) => p.1 <= |data| && read == Got(p.0, data[p.1..])
  }

  /** The bytes are a compact size with this value, perhaps not the shortest one. */
  predicate SizedAs(d: Data, n: int) {
    || (|d| == 1 && d[0] < 0xFD && n == d[0])
    || (|d| == 3 && d[0] == 0xFD && n == FromLe(d[1..]))
    || (|d| == 5 && d[0] == 0xFE && n == FromLe(d[1..]))
    || (|d| == 9 && d[0] == 0xFF && n == FromLe(d[1..]))
  }

  method DecodeVarint(strict: bool, data: Data, offset: nat) returns (r: Option<(Word64, nat)>)
    ensures offset > |data| ==> r.None?
    ensures offset <= |data| ==> At(r, ReadSize(strict, data[offset..]), data)
    ensures r.Some? ==> offset < r.value.1 <= |data| && SizedAs(data[offset..r.value.1], r.value.0)
  {
    hide Word2, Word4, Word8, FromLe;
    if offset >= |data| { return None; }
    var first := data[offset];
    ghost var d := data[offset..];
    if first < 0xFD { return Some((first, offset + 1)); }
    var end := offset + 1 + (if first == 0xFD then 2 else if first == 0xFE then 4 else 8);
    if end > |data| { return None; }
    var payload := data[offset + 1..end];
    assert payload == d[1..end - offset] && data[end..] == d[end - offset..];
    assert payload == data[offset..end][1..];
    WordsAreLittleEndian(payload);
    if first == 0xFD {
      if strict && Word2(payload) < 0xFD { return None; }
      return Some((Word2(payload), end));
    } else if first == 0xFE {
      if strict && Word4(payload) <= 0xFFFF { return None; }
      return Some((Word4(payload), end));
    }
    if strict && Word8(payload) <= 0xFFFF_FFFF { return None; }
    return Some((Word8(payload), end));
  }

  /** A byte string after its size, refused when longer than `limit` or than the input. */
  method ParseScript(strict: bool, limit: nat, data: Data, offset: nat) returns (r: Option<(Blob, nat)>)
    requires offset <= |data|
    ensures At(r, ReadBlob(strict, limit, data[offset..]), data)
  {
    hide ReadSize;
    var size := DecodeVarint(strict, data, offset);
    if size.None? { return None; }
    var (n, pos) := size.value;
    if n > limit || n > |data| - pos { return None; }
    Slice(data, pos, n);
    return Some((data[pos..pos + n], pos + n));
  }

  method ParseInput(data: Data, offset: nat) returns (r: Option<(TxInput, nat)>)
    requires offset <= |data|
    ensures At(r, ReadInput(data[offset..]), data)
  {
    hide Word4, ReadBlob;
    ghost var d := data[offset..];
    if |data| < offset + 36 {
      assert ReadBytes(32, d).Fail? || ReadWord32(ReadBytes(32, d).rest).Fail?;
      return None;
    }
    var txid := data[offset..offset + 32];
    var vout := Word4(data[offset + 32..offset + 36]);
    assert txid == d[..32] && d[32..][..4] == data[offset + 32..offset + 36] && d[32..][4..] == data[offset + 36..];
    var script := ParseScript(false, NO_LIMIT, data, offset + 36);
    if script.None? { return None; }
    var pos := script.value.1;
    if |data| < pos + 4 { return None; }
    Slice(data, pos, 4);
    return Some((TxInput(txid, vout, script.value.0, Word4(data[pos..pos + 4])), pos + 4));
  }

  /** The eight value bytes as a signed number. */
  function Signed(v: Word64): (i: int) {
    if v < 0x8000_0000_0000_0000 then v else v - 0x1_0000_0000_0000_0000
  }

  method ParseOutput(data: Data, offset: nat) returns (r: Option<(TxOutput, nat)>)
    requires offset <= |data|
    ensures At(r, ReadOutput(data[offset..]), data)
  {
    hide Word8, ReadBlob;
    ghost var d := data[offset..];
    if |data| < offset + 8 { return None; }
    var value := Signed(Word8(data[offset..offset + 8]));
    assert d[..8] == data[offset..offset + 8] && d[8..] == data[offset + 8..];
    if value < 0 || value > MAX_MONEY { return None; }
    var script := ParseScript(false, NO_LIMIT, data, offset + 8);
    if script.None? { return None; }
    return Some((TxOutput(value, script.value.0), script.value.1));
  }

  method ParseInputs(data: Data, offset: nat) returns (r: Option<(List<TxInput>, nat)>)
    requires offset <= |data|
    ensures At(r, ReadCounted(false, MAX_INPUTS, ReadInput, data[offset..]), data)
  {
    hide ReadSize, ReadInput;
    var count := DecodeVarint(false, data, offset);
    if count.None? || count.value.0 > MAX_INPUTS { return None; }
    var n := count.value.0;
    var pos: nat := count.value.1;
    var inputs: List<TxInput> := [];
    ghost var start := data[pos..];
    for i := 0 to n
      invariant |inputs| == i && pos <= |data|
      invariant ReadList(ReadInput, n, start) == After(inputs, ReadList(ReadInput, n - i, data[pos..]))
    {
      AfterNext(ReadInput, inputs, n - i, data[pos..]);
      var input := ParseInput(data, pos);
      if input.None? { return None; }
      inputs, pos := inputs + [input.value.0], input.value.1;
    }
    return Some((inputs, pos));
  }

  method ParseOutputs(data: Data, offset: nat) returns (r: Option<(List<TxOutput>, nat)>)
    requires offset <= |data|
    ensures At(r, ReadCounted(false, MAX_OUTPUTS, ReadOutput, data[offset..]), data)
  {
    hide ReadSize, ReadOutput;
    var count := DecodeVarint(false, data, offset);
    if count.None? || count.value.0 > MAX_OUTPUTS { return None; }
    var n := count.value.0;
    var pos: nat := count.value.1;
    var outputs: List<TxOutput> := [];
    ghost var start := data[pos..];
    for i := 0 to n
      invariant |outputs| == i && pos <= |data|
      invariant ReadList(ReadOutput, n, start) == After(outputs, ReadList(ReadOutput, n - i, data[pos..]))
    {
      AfterNext(ReadOutput, outputs, n - i, data[pos..]);
      var output := ParseOutput(data, pos);
      if output.None? { return None; }
      outputs, pos := outputs + [output.value.0], output.value.1;
    }
    return Some((outputs, pos));
  }

  method ParseStack(data: Data, offset: nat) returns (r: Option<(List<Blob>, nat)>)
    requires offset <= |data|
    ensures At(r, ReadStack(data[offset..]), data)
  {
    hide ReadSize, ReadBlob;
    var count := DecodeVarint(false, data, offset);
    if count.None? || count.value.0 > MAX_WITNESS_STACK_ITEMS { return None; }
    var n := count.value.0;
    var pos: nat := count.value.1;
    var items: List<Blob> := [];
    ghost var start := data[pos..];
    for i := 0 to n
      invariant |items| == i && pos <= |data|
      invariant ReadList(ReadItem, n, start) == After(items, ReadList(ReadItem, n - i, data[pos..]))
    {
      AfterNext(ReadItem, items, n - i, data[pos..]);
      var item := ParseScript(false, NO_LIMIT, data, pos);
      if item.None? { return None; }
      items, pos := items + [item.value.0], item.value.1;
    }
    return Some((items, pos));
  }

  method ParseWitnesses(marked: bool, n: nat, data: Data, offset: nat) returns (r: Option<(seq<List<Blob>>, nat)>)
    requires offset <= |data|
    ensures At(r, ReadWitnesses(marked, n, data[offset..]), data)
  {
    hide ReadStack;
    var witnesses: seq<List<Blob>> := [];
    var pos: nat := offset;
    if marked {
      for i := 0 to n
        invariant |witnesses| == i && pos <= |data|
        invariant ReadList(ReadStack, n, data[offset..]) == After(witnesses, ReadList(ReadStack, n - i, data[pos..]))
      {
        AfterNext(ReadStack, witnesses, n - i, data[pos..]);
        var stack := ParseStack(data, pos);
        if stack.None? { return None; }
        witnesses, pos := witnesses + [stack.value.0], stack.value.1;
      }
    }
    return Some((witnesses, pos));
  }

  /** `parse_transaction_bytes`. */
  method ParseTransactionBytes(data: Data) returns (r: Option<Parsed>)
    ensures r == match Parse(data) case Fail => None case Got(p, _) => Some(p)
    ensures r.Some? ==>
      |data| >= 4 && r.value.tx.version == FromLe(data[..4]) && r.value.tx.locktime == FromLe(data[|data| - 4..])
  {
    hide Word4, ReadCounted, ReadWitnesses, FromLe;
    if |data| < 4 { return None; }
    var version := Word4(data[..4]);
    WordsAreLittleEndian(data[..4]);
    var offset := 4;
    var marked := false;
    if |data| >= offset + 2 { marked := data[offset] == 0 && data[offset + 1] == 1; }
    assert marked == Marked(data[4..]);
    if marked { offset := offset + 2; }
    assert data[offset..] == if marked then data[4..][2..] else data[4..];
    var inputs := ParseInputs(data, offset);
    if inputs.None? { return None; }
    var outputs := ParseOutputs(data, inputs.value.1);
    if outputs.None? { return None; }
    var witnesses := ParseWitnesses(marked, |inputs.value.0|, data, outputs.value.1);
    if witnesses.None? { return None; }
    offset := witnesses.value.1;
    if |data| < offset + 4 { return None; }
    Slice(data, offset, 4);
    var locktime := Word4(data[offset..offset + 4]);
    if offset + 4 != |data| { return None; }
    assert data[|data| - 4..] == data[offset..offset + 4];
    WordsAreLittleEndian(data[offset..offset + 4]);
    return Some(Parsed(Tx(version, inputs.value.0, outputs.value.0, witnesses.value.0, locktime), marked));
  }

  // ---- writing ----

  method SerializeInput(i: TxInput) returns (d: Data)
    ensures d == SerInput(i)
  {
    hide Le4;
    d := i.txid + Le4(i.vout);
    if i.scriptSig != [] { d := d + Size(|i.scriptSig|) + i.scriptSig; } else { d := d + [0]; }
    d := d + Le4(i.sequence);
  }

  method SerializeStack(w: List<Blob>) returns (d: Data)
    ensures d == SerStack(w)
  {
    hide Size;
    d := Size(|w|);
    for i := 0 to |w|
      invariant d == Size(|w|) + Join(Prefixed, w[..i])
    {
      JoinNext(Prefixed, w, i);
      d := d + Size(|w[i]|);
      d := d + w[i];
    }
    assert w[..|w|] == w;
  }

  method SerializeInputs(inputs: List<TxInput>) returns (d: Data)
    ensures d == Counted(SerInput, inputs)
  {
    hide Size, SerInput;
    d := Size(|inputs|);
    for i := 0 to |inputs|
      invariant d == Size(|inputs|) + Join(SerInput, inputs[..i])
    {
      JoinNext(SerInput, inputs, i);
      var part := SerializeInput(inputs[i]);
      d := d + part;
    }
    assert inputs[..|inputs|] == inputs;
  }

  method SerializeOutputs(outputs: List<TxOutput>) returns (d: Data)
    ensures d == Counted(SerOutput, outputs)
  {
    hide Size, Le8;
    d := Size(|outputs|);
    for i := 0 to |outputs|
      invariant d == Size(|outputs|) + Join(SerOutput, outputs[..i])
    {
      JoinNext(SerOutput, outputs, i);
      var o := outputs[i];
      d := d + (Le8(o.value) + (Size(|o.script|) + o.script));
    }
    assert outputs[..|outputs|] == outputs;
  }

  method SerializeWitnesses(witnesses: seq<List<Blob>>) returns (d: Data)
    ensures d == Join(SerStack, witnesses)
  {
    hide SerStack;
    d := [];
    for i := 0 to |witnesses|
      invariant d == Join(SerStack, witnesses[..i])
    {
      JoinNext(SerStack, witnesses, i);
      var part := SerializeStack(witnesses[i]);
      d := d + part;
    }
    assert witnesses[..|witnesses|] == witnesses;
  }

  /** `serialize_transaction`. */
  method SerializeTransaction(tx: Tx) returns (d: Data)
    ensures d == Serialize(tx)
    ensures HasLayout(HasWitness(tx), tx, d)
  {
    hide Counted, Join, Le4, HasLayout;
    var hasWitness := exists i :: 0 <= i < |tx.witnesses| && tx.witnesses[i] != [];
    d := Le4(tx.version);
    if hasWitness { d := d + [0, 1]; }
    var part := SerializeInputs(tx.inputs);
    d := d + part;
    part := SerializeOutputs(tx.outputs);
    d := d + part;
    if hasWitness {
      part := SerializeWitnesses(tx.witnesses);
      d := d + part;
    }
    d := d + Le4(tx.locktime);
    WrittenBytes(hasWitness, tx, d);
  }
}
