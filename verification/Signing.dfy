/** The signer and the finalizer of a bond spend: the digest they sign and verify, and the transaction they give.
    The digest is that of section "Specification" of BIP 143; `hash` is the double SHA-256. */
module Signing {
  import opened Types
  import opened Wire
  import opened Transactions
  import opened UnsignedTx

  const SIGHASH_ALL: Word32 := 1

  type DerSignature = d: Data | |d| < 256

  // ---- the signer ----

  function Outpoint(i: TxInput): (d: Data) {
    i.txid + Le4(i.vout)
  }

  function SequenceOf(i: TxInput): (d: Data) {
    Le4(i.sequence)
  }

  /** `_compute_sighash_segwit`, before the last hash. */
  function SignerPreimage(hash: Data -> Hash, tx: Tx, index: nat, scriptCode: Blob, value: Word64,
      kind: Word32): (d: Data)
    requires index < |tx.inputs|
  {
    var i := tx.inputs[index];
    Le4(tx.version)
    + hash(Join(Outpoint, tx.inputs)) + hash(Join(SequenceOf, tx.inputs))
    + i.txid + Le4(i.vout)
    + Size(|scriptCode|) + scriptCode
    + Le8(value) + Le4(i.sequence)
    + hash(Join(SerOutput, tx.outputs))
    + Le4(tx.locktime) + Le4(kind)
  }

  /** The message of section "Specification" of BIP 143: version, hash of the outpoints, hash of the sequences, the
      outpoint of the input, its script code, its value and sequence, hash of the outputs, locktime and hash type. */
  predicate Bip143(hash: Data -> Hash, tx: Tx, index: nat, scriptCode: Blob, value: Word64, kind: Word32, p: Data)
    requires index < |tx.inputs|
  {
    var n := 104 + |Size(|scriptCode|)| + |scriptCode|;
    && |p| == n + 52
    && FromLe(p[..4]) == tx.version
    && p[4..36] == hash(Join(Outpoint, tx.inputs))
    && p[36..68] == hash(Join(SequenceOf, tx.inputs))
    && p[68..100] == tx.inputs[index].txid && FromLe(p[100..104]) == tx.inputs[index].vout
    && p[104..n] == Size(|scriptCode|) + scriptCode
    && FromLe(p[n..n + 8]) == value
    && FromLe(p[n + 8..n + 12]) == tx.inputs[index].sequence
    && p[n + 12..n + 44] == hash(Join(SerOutput, tx.outputs))
    && FromLe(p[n + 44..n + 48]) == tx.locktime
    && FromLe(p[n + 48..]) == kind
  }

  /** The outpoints and the sequences lie one after the other, 36 and 4 bytes each. */
  lemma HashedBytes(inputs: seq<TxInput>, i: nat)
    requires i < |inputs|
    ensures var o, s := Join(Outpoint, inputs), Join(SequenceOf, inputs);
            && |o| == 36 * |inputs| && |s| == 4 * |inputs|
            && o[36 * i..36 * i + 32] == inputs[i].txid && FromLe(o[36 * i + 32..36 * i + 36]) == inputs[i].vout
            && FromLe(s[4 * i..4 * i + 4]) == inputs[i].sequence
  {
    hide Le4, Join, FromLe;
    FixedItems(Outpoint, inputs, 36, i);
    FixedItems(SequenceOf, inputs, 4, i);
    WrittenLittleEndian4(inputs[i].vout, []);
    WrittenLittleEndian4(inputs[i].sequence, []);
    var o := Join(Outpoint, inputs);
    var item := o[36 * i..36 * i + 36];
    assert item[..32] == o[36 * i..36 * i + 32] && item[32..] == o[36 * i + 32..36 * i + 36];
    assert item[..32] == inputs[i].txid && item[32..] == Le4(inputs[i].vout);
  }

  /** What the signer hashes is the message of BIP 143, and nothing else is. */
  lemma SignsBip143(hash: Data -> Hash, tx: Tx, index: nat, scriptCode: Blob, value: Word64, kind: Word32, p: Data)
    requires index < |tx.inputs|
    ensures Bip143(hash, tx, index, scriptCode, value, kind, p) <==>
            p == SignerPreimage(hash, tx, index, scriptCode, value, kind)
  {
    PreimageIsBip143(hash, tx, index, scriptCode, value, kind);
    if Bip143(hash, tx, index, scriptCode, value, kind, p) {
      Bip143IsPreimage(hash, tx, index, scriptCode, value, kind, p);
    }
    hide Bip143, SignerPreimage;
  }

  function Front(hash: Data -> Hash, tx: Tx, index: nat): (d: Data)
    requires index < |tx.inputs|
  {
    var i := tx.inputs[index];
    Le4(tx.version) + hash(Join(Outpoint, tx.inputs)) + hash(Join(SequenceOf, tx.inputs)) + i.txid + Le4(i.vout)
  }

  function Back(hash: Data -> Hash, tx: Tx, index: nat, value: Word64, kind: Word32): (d: Data)
    requires index < |tx.inputs|
  {
    Le8(value) + Le4(tx.inputs[index].sequence) + hash(Join(SerOutput, tx.outputs)) + Le4(tx.locktime) + Le4(kind)
  }

  lemma Parts(hash: Data -> Hash, tx: Tx, index: nat, scriptCode: Blob, value: Word64, kind: Word32)
    requires index < |tx.inputs|
    ensures |Front(hash, tx, index)| == 104 && |Back(hash, tx, index, value, kind)| == 52
    ensures SignerPreimage(hash, tx, index, scriptCode, value, kind) ==
            Front(hash, tx, index) + ((Size(|scriptCode|) + scriptCode) + Back(hash, tx, index, value, kind))
  {
    hide Le4, Le8, Size, Join;
  }

  lemma PreimageIsBip143(hash: Data -> Hash, tx: Tx, index: nat, scriptCode: Blob, value: Word64, kind: Word32)
    requires index < |tx.inputs|
    ensures Bip143(hash, tx, index, scriptCode, value, kind, SignerPreimage(hash, tx, index, scriptCode, value, kind))
  {
    hide Le4, Le8, Size, Join, FromLe;
    var i, p := tx.inputs[index], SignerPreimage(hash, tx, index, scriptCode, value, kind);
    var n := 104 + |Size(|scriptCode|)| + |scriptCode|;
    WrittenLittleEndian4(tx.version, []);
    WrittenLittleEndian4(i.vout, []);
    WrittenLittleEndian8(value, []);
    WrittenLittleEndian4(i.sequence, []);
    WrittenLittleEndian4(tx.locktime, []);
    WrittenLittleEndian4(kind, []);
    var front, back := Front(hash, tx, index), Back(hash, tx, index, value, kind);
    var code := Size(|scriptCode|) + scriptCode;
    Parts(hash, tx, index, scriptCode, value, kind);
    Cut(front, code, back);
    assert front[..4] == Le4(tx.version) && front[100..] == Le4(i.vout);
    assert back[..8] == Le8(value) && back[8..12] == Le4(i.sequence);
    assert back[44..48] == Le4(tx.locktime) && back[48..] == Le4(kind);
    assert p[..4] == front[..4] && p[4..36] == front[4..36] && p[36..68] == front[36..68];
    assert p[68..100] == front[68..100] && p[100..104] == front[100..] && p[104..n] == code;
    assert p[n..n + 8] == back[..8] && p[n + 8..n + 12] == back[8..12] && p[n + 12..n + 44] == back[12..44];
    assert p[n + 44..n + 48] == back[44..48] && p[n + 48..] == back[48..];
  }

  lemma Bip143IsPreimage(hash: Data -> Hash, tx: Tx, index: nat, scriptCode: Blob, value: Word64, kind: Word32,
      p: Data)
    requires index < |tx.inputs| && Bip143(hash, tx, index, scriptCode, value, kind, p)
    ensures p == SignerPreimage(hash, tx, index, scriptCode, value, kind)
  {
    hide Le4, Le8, Size, Join, FromLe, Front, Back, SignerPreimage;
    var n := 104 + |Size(|scriptCode|)| + |scriptCode|;
    var f, b := p[..104], p[n..];
    assert f[..4] == p[..4] && f[4..36] == p[4..36] && f[36..68] == p[36..68] && f[68..100] == p[68..100];
    assert f[100..] == p[100..104];
    FrontIs(hash, tx, index, f);
    assert b[..8] == p[n..n + 8] && b[8..12] == p[n + 8..n + 12] && b[12..44] == p[n + 12..n + 44];
    assert b[44..48] == p[n + 44..n + 48] && b[48..] == p[n + 48..];
    BackIs(hash, tx, index, value, kind, b);
    Paste(p, 104, n);
    Parts(hash, tx, index, scriptCode, value, kind);
  }

  lemma FrontIs(hash: Data -> Hash, tx: Tx, index: nat, f: Data)
    requires index < |tx.inputs| && |f| == 104
    requires FromLe(f[..4]) == tx.version && f[4..36] == hash(Join(Outpoint, tx.inputs))
    requires f[36..68] == hash(Join(SequenceOf, tx.inputs))
    requires f[68..100] == tx.inputs[index].txid && FromLe(f[100..]) == tx.inputs[index].vout
    ensures f == Front(hash, tx, index)
  {
    hide Le4, Join, FromLe;
    WrittenLittleEndian4(tx.version, f[..4]);
    WrittenLittleEndian4(tx.inputs[index].vout, f[100..]);
    assert f == f[..4] + f[4..36] + f[36..68] + f[68..100] + f[100..];
  }

  lemma BackIs(hash: Data -> Hash, tx: Tx, index: nat, value: Word64, kind: Word32, b: Data)
    requires index < |tx.inputs| && |b| == 52
    requires FromLe(b[..8]) == value && FromLe(b[8..12]) == tx.inputs[index].sequence
    requires b[12..44] == hash(Join(SerOutput, tx.outputs))
    requires FromLe(b[44..48]) == tx.locktime && FromLe(b[48..]) == kind
    ensures b == Back(hash, tx, index, value, kind)
  {
    hide Le4, Le8, Join, FromLe;
    WrittenLittleEndian8(value, b[..8]);
    WrittenLittleEndian4(tx.inputs[index].sequence, b[8..12]);
    WrittenLittleEndian4(tx.locktime, b[44..48]);
    WrittenLittleEndian4(kind, b[48..]);
    assert b == b[..8] + b[8..12] + b[12..44] + b[44..48] + b[48..];
  }

  /** `sign_bond_transaction`; `sign` is the ECDSA signature of a digest in DER form. */
  method SignBondTransaction(hash: Data -> Hash, sign: Data -> DerSignature, unsignedTx: Data, script: Blob,
      value: Word64)
    returns (r: Option<Data>)
    ensures r.Some? <==> ParseUnsigned(unsignedTx).Some?
    ensures forall tx, p :: ParseUnsigned(unsignedTx) == Some(tx) && Bip143(hash, tx, 0, script, value, 1, p) ==>
            r == Some(Serialize(tx.(witnesses := [[sign(hash(p)) + [1], script]])))
  {
    hide SignerPreimage, Written, Bip143;
    var parsed := ParseTx(unsignedTx);
    if parsed.None? { return None; }
    var tx := parsed.value;
    if |tx.inputs| != 1 { return None; }
    var sighash := hash(SignerPreimage(hash, tx, 0, script, value, SIGHASH_ALL));
    var signature: Blob := sign(sighash) + [1];
    var signed := tx.(witnesses := [[signature, script]]);
    assert signed.witnesses[0] != [];
    var d := SerializeTx(signed);
    forall p | Bip143(hash, tx, 0, script, value, 1, p) ensures hash(p) == sighash {
      SignsBip143(hash, tx, 0, script, value, 1, p);
    }
    return Some(d);
  }

  // ---- the finalizer ----

  datatype Fields = Fields(version: Data, outpoint: Data, sequence: Data, outputs: Data, locktime: Data)

  /** The parts from the outpoint on, once the input count is read. */
  function SplitRest(version: Data, d: Data): (r: Option<Fields>) {
    if |d| < 36 then None
    else match ReadSize(false, d[36..])
      case Fail => None
      case Got(n, d1) =>
        if |d1| < n + 4 then None
        else match ReadSize(false, d1[n + 4..])
          case Fail => None
          case Got(count, d2) =>
            if count != 1 || |d2| < 8 then None
            else match ReadSize(false, d2[8..])
              case Fail => None
              case Got(m, d3) =>
                if |d3| != m + 4 then None
                else Some(Fields(version, d[..36], d1[n..n + 4], d2[..|d2| - 4], d3[m..]))
  }

  /** `_parse_unsigned_tx`. */
  function SplitUnsigned(u: Data): (r: Option<Fields>) {
    if |u| < 10 || (u[4] == 0 && u[5] != 0) then None
    else match ReadSize(false, u[4..])
      case Fail => None
      case Got(count, d) => if count != 1 then None else SplitRest(u[..4], d)
  }

  /** `_compute_bip143_sighash`, before the last hash. */
  function FinalizerPreimage(hash: Data -> Hash, f: Fields, script: Blob, value: Word64): (d: Data) {
    f.version + hash(f.outpoint) + hash(f.sequence) + f.outpoint
    + (Size(|script|) + script)
    + Le8(value) + f.sequence + hash(f.outputs) + f.locktime + Le4(SIGHASH_ALL)
  }

  /** The last lines of `finalize_bond_psbt`: marker, flag and one witness stack put into the unsigned bytes. */
  function Splice(u: Data, signature: Blob, script: Blob): (d: Data)
    requires |u| >= 8
  {
    var stack := Size(2) + Size(|signature|) + signature + Size(|script|) + script;
    u[..4] + [0, 1] + u[4..|u| - 4] + stack + u[|u| - 4..]
  }

  // ---- they agree ----

  function FieldsOf(tx: Tx): (f: Fields)
    requires |tx.inputs| == 1 && |tx.outputs| == 1
  {
    Fields(Le4(tx.version), Outpoint(tx.inputs[0]), Le4(tx.inputs[0].sequence), SerOutput(tx.outputs[0]),
      Le4(tx.locktime))
  }

  lemma JoinSingle<T>(ser: T -> Data, x: T)
    ensures Join(ser, [x]) == ser(x)
  {
    assert Join(ser, []) == [];
  }

  /** The rest after the count, for a transaction with one input and any outputs. */
  lemma SplitOutputs(version: Data, i: TxInput, outs: List<TxOutput>, locktime: Data)
    requires i.scriptSig == [] && |locktime| == 4
    ensures var d := SerInput(i) + (Counted(SerOutput, outs) + locktime);
            SplitRest(version, d) ==
              if |outs| == 1 then Some(Fields(version, Outpoint(i), Le4(i.sequence), SerOutput(outs[0]), locktime))
              else None
  {
    hide Le4, ReadSize, Join, Size, SerOutput;
    ZeroSize();
    var d2 := Join(SerOutput, outs) + locktime;
    var d1 := Le4(i.sequence) + (Size(|outs|) + d2);
    var d := SerInput(i) + (Counted(SerOutput, outs) + locktime);
    assert d == Outpoint(i) + (Size(0) + d1);
    assert d[..36] == Outpoint(i) && d[36..] == Size(0) + d1;
    SizeRoundTrip(false, 0, d1);
    assert d1[4..] == Size(|outs|) + d2 && d1[0..4] == Le4(i.sequence);
    SizeRoundTrip(false, |outs|, d2);
    if |outs| == 1 {
      var o := outs[0];
      assert outs == [o];
      JoinSingle(SerOutput, o);
      SplitOutput(o, locktime);
      assert d2[..|d2| - 4] == SerOutput(o);
    }
  }

  lemma ZeroSize()
    ensures Size(0) == [0] && Prefixed([]) == Size(0)
  {
  }

  lemma SplitOutput(o: TxOutput, locktime: Data)
    ensures var d := SerOutput(o) + locktime;
            |d| >= 8 && ReadSize(false, d[8..]) == Got(|o.script|, o.script + locktime)
  {
    hide Le8, Size, ReadSize;
    var d := SerOutput(o) + locktime;
    assert d[8..] == Size(|o.script|) + (o.script + locktime);
    SizeRoundTrip(false, |o.script|, o.script + locktime);
  }

  /** The finalizer splits what the strict parser accepts into the same fields, exactly when there is one output. */
  lemma SplitAgrees(tx: Tx)
    requires Unsigned(tx)
    ensures SplitUnsigned(Serialize(tx)) == if |tx.outputs| == 1 then Some(FieldsOf(tx)) else None
  {
    hide Le4, SerInput, SerOutput, Counted, Serialize, SplitRest, ReadSize;
    var u := Serialize(tx);
    var d := SerInput(tx.inputs[0]) + (Counted(SerOutput, tx.outputs) + Le4(tx.locktime));
    WrittenUnsigned(tx);
    SizeFirst(1);
    UnsignedLength(tx);
    assert u[..4] == Le4(tx.version) && u[4..] == Size(1) + d;
    SizeRoundTrip(false, 1, d);
    SplitOutputs(Le4(tx.version), tx.inputs[0], tx.outputs, Le4(tx.locktime));
  }

  lemma UnsignedLength(tx: Tx)
    requires Unsigned(tx)
    ensures |Serialize(tx)| >= 10
  {
    WrittenUnsigned(tx);
    hide Le4, Counted, Size, Prefixed, Serialize;
  }

  /** For a spend with one output, the finalizer verifies the signature over the very bytes that the signer signs. */
  lemma SighashesAgree(hash: Data -> Hash, u: Data, tx: Tx, script: Blob, value: Word64)
    requires ParseUnsigned(u) == Some(tx) && |tx.outputs| == 1
    ensures var f := SplitUnsigned(u);
            && f.Some?
            && FinalizerPreimage(hash, f.value, script, value) ==
               SignerPreimage(hash, tx, 0, script, value, SIGHASH_ALL)
            && Bip143(hash, tx, 0, script, value, 1, FinalizerPreimage(hash, f.value, script, value))
  {
    hide Le4, Le8, Size, SplitUnsigned, SerOutput, Serialize, Join, ParseUnsigned, Bip143;
    PreimageIsBip143(hash, tx, 0, script, value, SIGHASH_ALL);
    UnsignedExact(u, tx);
    SplitAgrees(tx);
    assert tx.inputs == [tx.inputs[0]] && tx.outputs == [tx.outputs[0]];
    JoinSingle(Outpoint, tx.inputs[0]);
    JoinSingle(SequenceOf, tx.inputs[0]);
    JoinSingle(SerOutput, tx.outputs[0]);
  }

  lemma SplicedStack(signature: Blob, script: Blob)
    ensures Join<List<Blob>>(SerStack, [[signature, script]]) ==
            Size(2) + Size(|signature|) + signature + Size(|script|) + script
  {
    var w: List<Blob> := [signature, script];
    JoinSingle(SerStack, w);
    assert Join(Prefixed, w) == Prefixed(signature) + Join(Prefixed, w[1..]);
    assert w[1..] == [script];
    JoinSingle(Prefixed, script);
    hide Size, Join;
  }

  /** The spliced bytes are the signer's serialization for the same signature, and the library's parser reads
      them back as the unsigned transaction with that witness. */
  lemma SpliceAgrees(u: Data, tx: Tx, signature: Blob, script: Blob)
    requires ParseUnsigned(u) == Some(tx)
    ensures |u| >= 10
    ensures Splice(u, signature, script) == Serialize(tx.(witnesses := [[signature, script]]))
    ensures |tx.outputs| <= MAX_OUTPUTS ==>
            Parse(Splice(u, signature, script)) == Got(Parsed(tx.(witnesses := [[signature, script]]), true), [])
  {
    hide Parse, Le4, Size, Join, ParseUnsigned, SerBody;
    UnsignedExact(u, tx);
    UnsignedLength(tx);
    SplicedStack(signature, script);
    var signed := tx.(witnesses := [[signature, script]]);
    assert signed.witnesses[0] != [];
    SameParts(tx, signed);
    var head, body, tail := Le4(tx.version), SerBody(tx), Le4(tx.locktime);
    assert u == head + (body + tail);
    assert u[..4] == Le4(tx.version) && u[4..|u| - 4] == SerBody(tx) && u[|u| - 4..] == Le4(tx.locktime);
    if |tx.outputs| <= MAX_OUTPUTS { TransactionRoundTrip(signed); }
  }

  lemma SameParts(tx: Tx, signed: Tx)
    requires signed == tx.(witnesses := signed.witnesses)
    ensures SerBody(signed) == SerBody(tx)
  {
  }
}
