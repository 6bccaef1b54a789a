/** Partially signed transactions, section "Specification" of BIP 174: key-value maps, and the writer. */
module Psbt {
  import opened Types
  import opened Wire
  import opened Transactions
  import opened TransactionCode

  const MAX_PSBT_MAP_ENTRIES: nat := 1_000
  const MAGIC: Data := [0x70, 0x73, 0x62, 0x74, 0xFF]

  datatype Record = Record(key: Blob, value: Blob)

  // ---- maps ----

  function SerRecord(r: Record): (d: Data) {
    Prefixed(r.key) + Prefixed(r.value)
  }

  function SerMap(records: seq<Record>): (d: Data) {
    Join(SerRecord, records) + [0]
  }

  predicate HasKey(records: seq<Record>, key: Blob) {
    exists i :: 0 <= i < |records| && records[i].key == key
  }

  /** A map with its end; `seen` are the records read before. */
  function ReadMap(d: Data, seen: seq<Record>): (r: Read<seq<Record>>)
    decreases |d|
  {
    if d == [] then Fail
    else if d[0] == 0 then Got([], d[1..])
    else if |seen| >= MAX_PSBT_MAP_ENTRIES then Fail
    else
      var (key, d1) :- ReadBlob(true, NO_LIMIT, d);
      var (value, d2) :- ReadBlob(true, NO_LIMIT, d1);
      if key == [] || HasKey(seen, key) then Fail
      else
        var (rest, d3) :- ReadMap(d2, seen + [Record(key, value)]);
        Got([Record(key, value)] + rest, d3)
  }

  function ReadWholeMap(d: Data): (r: Read<seq<Record>>) {
    ReadMap(d, [])
  }

  ghost predicate IsMap(records: seq<Record>) {
    && |records| <= MAX_PSBT_MAP_ENTRIES
    && (forall i :: 0 <= i < |records| ==> records[i].key != [])
    && (forall i, j :: 0 <= i < j < |records| ==> records[i].key != records[j].key)
  }

  lemma MapFirst(records: seq<Record>, t: Data)
    requires records != [] && records[0].key != []
    ensures var d := SerMap(records) + t;
            && d == Prefixed(records[0].key) + (Prefixed(records[0].value) + (SerMap(records[1..]) + t))
            && d[0] != 0
  {
    hide Size, Join;
    var r := records[0];
    SizeFirst(|r.key|);
    var rest := Join(SerRecord, records[1..]);
    JoinFirst(records);
    assert SerMap(records) + t == ((Prefixed(r.key) + Prefixed(r.value)) + rest) + ([0] + t);
    assert SerMap(records[1..]) + t == rest + ([0] + t);
  }

  lemma JoinFirst(records: seq<Record>)
    requires records != []
    ensures Join(SerRecord, records) == SerRecord(records[0]) + Join(SerRecord, records[1..])
  {
  }

  /** A written map is read back when its keys are distinct and it is not too long; otherwise it is refused. */
  lemma {:induction false} MapRoundTrip(records: seq<Record>, seen: seq<Record>, t: Data)
    requires IsMap(seen) && (forall i :: 0 <= i < |records| ==> records[i].key != [])
    ensures IsMap(seen + records) ==> ReadMap(SerMap(records) + t, seen) == Got(records, t)
    ensures !IsMap(seen + records) ==> ReadMap(SerMap(records) + t, seen) == Fail
    decreases |records|
  {
    hide Prefixed, SerMap, ReadBlob, Size;
    if records == [] {
      EmptyMap(t);
      assert seen + records == seen;
    } else {
      var r := records[0];
      MapFirst(records, t);
      BlobRoundTrip(true, NO_LIMIT, r.key, Prefixed(r.value) + (SerMap(records[1..]) + t));
      BlobRoundTrip(true, NO_LIMIT, r.value, SerMap(records[1..]) + t);
      assert records == [r] + records[1..] && seen + records == (seen + [r]) + records[1..];
      if |seen| < MAX_PSBT_MAP_ENTRIES && !HasKey(seen, r.key) {
        MapRoundTrip(records[1..], seen + [r], t);
      } else if HasKey(seen, r.key) {
        var i :| 0 <= i < |seen| && seen[i].key == r.key;
        assert (seen + records)[i].key == (seen + records)[|seen|].key;
      }
    }
  }

  lemma EmptyMap(t: Data)
    ensures SerMap([]) + t == [0] + t && ([0] + t)[1..] == t
  {
  }

  /** What is read as a map is the writing of that map. */
  lemma {:induction false} MapInverse(d: Data, seen: seq<Record>)
    requires IsMap(seen)
    ensures var r := ReadMap(d, seen); r.Got? ==> d == SerMap(r.value) + r.rest && IsMap(seen + r.value)
    decreases |d|
  {
    hide Prefixed, ReadBlob, SerMap;
    var r := ReadMap(d, seen);
    if r.Got? {
      if d[0] == 0 {
        EmptyMap(d[1..]);
        assert seen + r.value == seen;
      } else {
        BlobInverse(NO_LIMIT, d);
        var d1 := ReadBlob(true, NO_LIMIT, d).rest;
        BlobInverse(NO_LIMIT, d1);
        var d2 := ReadBlob(true, NO_LIMIT, d1).rest;
        var x := r.value[0];
        assert r.value == [x] + r.value[1..];
        MapInverse(d2, seen + [x]);
        assert seen + r.value == (seen + [x]) + r.value[1..];
        MapFirst(r.value, r.rest);
      }
    }
  }

  // ---- the writer ----

  type PublicKey = d: Data | |d| == 33 witness seq(33, i => 0)
  type Fingerprint = d: Data | |d| == 4 witness seq(4, i => 0)

  // Sizes that leave room for the rest of their record.
  type Path = p: seq<Word32> | 4 * |p| + 4 < 0x1_0000_0000_0000_0000
  type UtxoScript = d: Data | |d| + 17 < 0x1_0000_0000_0000_0000

  datatype Derivation = Derivation(pubkey: PublicKey, fingerprint: Fingerprint, path: Path)

  datatype PsbtInput = PsbtInput(utxoValue: Word64, utxoScript: UtxoScript, witnessScript: Blob,
                                 sighash: Word32, derivations: seq<Derivation>)

  lemma {:induction false} PathLength(path: seq<Word32>)
    ensures |Join(Le4, path)| == 4 * |path|
  {
    hide Le4;
    if path != [] { PathLength(path[1..]); }
  }

  function DerivationRecord(d: Derivation): (r: Record) {
    PathLength(d.path);
    Record([6] + d.pubkey, d.fingerprint + Join(Le4, d.path))
  }

  lemma UtxoLength(value: Word64, script: UtxoScript)
    ensures |SerOutput(TxOutput(value, script))| <= |script| + 17
  {
    hide Le8, Le4, Le2;
  }

  function UtxoRecord(pi: PsbtInput): (r: Record) {
    UtxoLength(pi.utxoValue, pi.utxoScript);
    Record([1], SerOutput(TxOutput(pi.utxoValue, pi.utxoScript)))
  }

  function InputRecords(pi: PsbtInput): (records: seq<Record>) {
    [UtxoRecord(pi), Record([3], Le4(pi.sighash))]
    + (if pi.witnessScript != [] then [Record([5], pi.witnessScript)] else [])
    + Derived(pi.derivations)
  }

  function Derived(ds: seq<Derivation>): (records: seq<Record>) {
    seq(|ds|, i requires 0 <= i < |ds| => DerivationRecord(ds[i]))
  }

  function SerPsbtInput(pi: PsbtInput): (d: Data) {
    SerMap(InputRecords(pi))
  }

  function Zeros(n: nat): (d: Data) {
    seq(n, i => 0)
  }

  function SerPsbt(tx: Tx, inputs: seq<PsbtInput>): (d: Data)
    requires |Serialize(Stripped(tx))| < NO_LIMIT
  {
    MAGIC + (SerMap([Record([0], Serialize(Stripped(tx)))]) + (Join(SerPsbtInput, inputs) + Zeros(|tx.outputs|)))
  }

  lemma RecordsNext(records: seq<Record>, r: Record)
    ensures Join(SerRecord, records + [r]) == Join(SerRecord, records) + SerRecord(r)
  {
    JoinBoth(SerRecord, records, [r]);
    assert Join(SerRecord, [r]) == SerRecord(r) + Join(SerRecord, []);
  }

  /** The records of one input, appended in turn. */
  method WriteInput(pi: PsbtInput) returns (d: Data)
    ensures d == SerPsbtInput(pi)
  {
    hide Le4, Le8, SerRecord, Join;
    EmptyJoin();
    var utxo: Data := Le8(pi.utxoValue) + Size(|pi.utxoScript|) + pi.utxoScript;
    UtxoLength(pi.utxoValue, pi.utxoScript);
    assert utxo == SerOutput(TxOutput(pi.utxoValue, pi.utxoScript));
    var first, second := Record([1], utxo), Record([3], Le4(pi.sighash));
    d := SerRecord(first);
    RecordsNext([], first);
    assert [] + [first] == [first];
    d := d + SerRecord(second);
    RecordsNext([first], second);
    ghost var records := [first] + [second];
    if pi.witnessScript != [] {
      var script := Record([5], pi.witnessScript);
      d := d + SerRecord(script);
      RecordsNext(records, script);
      records := records + [script];
    }
    ghost var front := records;
    for i := 0 to |pi.derivations|
      invariant d == Join(SerRecord, records) && records == front + Derived(pi.derivations)[..i]
    {
      var one := DerivationRecord(pi.derivations[i]);
      d := d + SerRecord(one);
      RecordsNext(records, one);
      records := records + [one];
      assert Derived(pi.derivations)[..i + 1] == Derived(pi.derivations)[..i] + [one];
    }
    assert records == InputRecords(pi);
    d := d + [0];
  }

  lemma EmptyJoin()
    ensures Join(SerRecord, []) == []
  {
  }

  /** `create_psbt`. */
  method CreatePsbt(tx: Tx, inputs: seq<PsbtInput>) returns (r: Option<Data>)
    requires |Serialize(Stripped(tx))| < NO_LIMIT
    ensures r == if |tx.inputs| != |inputs| then None else Some(SerPsbt(tx, inputs))
    ensures r.Some? ==> [0x70, 0x73, 0x62, 0x74, 0xFF, 1, 0] <= r.value
  {
    hide Serialize, SerPsbtInput, Prefixed;
    if |tx.inputs| != |inputs| { return None; }
    var unsignedTx := SerializeTransaction(Stripped(tx));
    var d := MAGIC + (Prefixed([0]) + Prefixed(unsignedTx)) + [0];
    ghost var global := SerMap([Record([0], unsignedTx)]);
    GlobalMap(Record([0], unsignedTx));
    assert d == MAGIC + global;
    hide SerMap;
    for i := 0 to |inputs|
      invariant d == MAGIC + (global + Join(SerPsbtInput, inputs[..i]))
    {
      JoinNext(SerPsbtInput, inputs, i);
      var part := WriteInput(inputs[i]);
      d := d + part;
    }
    assert inputs[..|inputs|] == inputs;
    ghost var front := d;
    for i := 0 to |tx.outputs|
      invariant d == front + Zeros(i)
    {
      d := d + [0];
    }
    assert d == MAGIC + (global + (Join(SerPsbtInput, inputs) + Zeros(|tx.outputs|)));
    PsbtStart(tx, inputs);
    return Some(d);
  }

  lemma OneByteKey()
    ensures Prefixed([0]) == [1, 0]
  {
  }

  /** The magic and the key of the first record. */
  lemma PsbtStart(tx: Tx, inputs: seq<PsbtInput>)
    requires |Serialize(Stripped(tx))| < NO_LIMIT
    ensures [0x70, 0x73, 0x62, 0x74, 0xFF, 1, 0] <= SerPsbt(tx, inputs)
  {
    hide Serialize, SerPsbtInput, SerMap, Prefixed, Join;
    GlobalMap(Record([0], Serialize(Stripped(tx))));
    OneByteKey();
  }

  lemma GlobalMap(r: Record)
    ensures SerMap([r]) == (Prefixed(r.key) + Prefixed(r.value)) + [0]
  {
    assert [r][1..] == [];
    assert Join(SerRecord, [r]) == SerRecord(r) + Join(SerRecord, []);
    hide Prefixed;
  }
}
