/** What the signer accepts: a strictly read PSBT that spends one fidelity bond. Base64 is left aside;
    `sha` is SHA-256. */
module PsbtReview {
  import opened Types
  import opened Wire
  import opened Transactions
  import opened UnsignedTx
  import opened BondScript
  import opened Psbt

  const MAX_BIP32_PATH_DEPTH: nat := 255
  const LOCKTIME_THRESHOLD: nat := 500_000_000

  datatype Maps = Maps(globals: seq<Record>, unsignedTx: Data, tx: Tx, input: seq<Record>, outputs: seq<seq<Record>>)

  datatype Origin = Origin(fingerprint: Data, path: seq<Word32>)

  datatype BondSpend = BondSpend(unsignedTx: Data, tx: Tx, utxoValue: nat, utxoScript: Data, script: Data,
                                 locktime: int, key: Data, total: int, fee: int, origin: Option<Origin>)

  // ---- the maps ----

  function ValueIf(r: Record, key: Blob): (values: seq<Blob>) {
    if r.key == key then [r.value] else []
  }

  function ValuesOf(records: seq<Record>, key: Blob): (values: seq<Blob>) {
    if records == [] then [] else ValueIf(records[0], key) + ValuesOf(records[1..], key)
  }

  function RecordIf(r: Record, kind: Byte): (found: seq<Record>) {
    if r.key != [] && r.key[0] == kind then [r] else []
  }

  function OfKind(records: seq<Record>, kind: Byte): (found: seq<Record>) {
    if records == [] then [] else RecordIf(records[0], kind) + OfKind(records[1..], kind)
  }

  /** A key of this kind is its kind byte alone. */
  predicate Bare(records: seq<Record>, kind: Byte) {
    forall i :: 0 <= i < |records| && records[i].key != [] && records[i].key[0] == kind ==> |records[i].key| == 1
  }

  function ReadRest(globals: seq<Record>, unsignedTx: Data, tx: Tx, d: Data): (r: Option<Maps>)
    ensures r.Some? ==> r.value.tx == tx
  {
    match ReadWholeMap(d)
    case Fail => None
    case Got(input, d1) =>
      match ReadList(ReadWholeMap, |tx.outputs|, d1)
      case Fail => None
      case Got(outputs, d2) => if d2 == [] then Some(Maps(globals, unsignedTx, tx, input, outputs)) else None
  }

  function ReadPsbt(raw: Data): (r: Option<Maps>)
    ensures r.Some? ==> |r.value.tx.inputs| == 1
  {
    if |raw| > MAX_PSBT_SIZE || |raw| < 5 || raw[..5] != MAGIC then None
    else match ReadWholeMap(raw[5..])
      case Fail => None
      case Got(globals, d) =>
        var txs := ValuesOf(globals, [0]);
        if |txs| != 1 || !Bare(globals, 0) then None
        else match ParseUnsigned(txs[0])
          case None => None
          case Some(tx) => ReadRest(globals, txs[0], tx, d)
  }

  // ---- the checks on their contents ----

  function Total(outputs: seq<TxOutput>): (sum: nat) {
    if outputs == [] then 0 else Total(outputs[..|outputs| - 1]) + outputs[|outputs| - 1].value
  }

  /** The total of all outputs is that of any part and the rest. */
  lemma {:induction false} TotalBoth(xs: seq<TxOutput>, ys: seq<TxOutput>)
    ensures Total(xs + ys) == Total(xs) + Total(ys)
    ensures forall o :: Total([o]) == o.value
  {
    if ys == [] {
      assert xs + ys == xs;
      forall o ensures Total([o]) == o.value { assert [o][..0] == []; }
    } else {
      TotalBoth(xs, ys[..|ys| - 1]);
      assert (xs + ys)[..|xs + ys| - 1] == xs + ys[..|ys| - 1];
    }
  }

  function Words(d: Data): (ws: seq<Word32>)
    requires |d| % 4 == 0
  {
    if d == [] then [] else [Word4(d[..4])] + Words(d[4..])
  }

  /** `_parse_bip32_derivation`. */
  function ReadOrigin(r: Record): (res: Option<(Data, Origin)>) {
    if |r.key| != 34 || r.key[0] != 6 || (r.key[1] != 2 && r.key[1] != 3) then None
    else if |r.value| < 4 || (|r.value| - 4) % 4 != 0 || (|r.value| - 4) / 4 > MAX_BIP32_PATH_DEPTH then None
    else Some((r.key[1..], Origin(r.value[..4], Words(r.value[4..]))))
  }

  /** `_parse_witness_utxo`. */
  function ReadUtxo(value: Data): (r: Option<TxOutput>) {
    match ReadStrictOutput(value)
    case Fail => None
    case Got(o, rest) => if rest == [] then Some(o) else None
  }

  /** The rules of CHECKLOCKTIMEVERIFY in section "Summary" of BIP 65 for a script locktime. */
  predicate PassesCltv(locktime: int, txLocktime: int, sequence: int) {
    && locktime >= 0
    && (locktime < LOCKTIME_THRESHOLD <==> txLocktime < LOCKTIME_THRESHOLD)
    && locktime <= txLocktime
    && sequence != 0xFFFF_FFFF
  }

  /** The output's script is version 0 and the hash of the witness script. */
  predicate Commits(sha: Data -> Hash, utxoScript: Data, script: Data) {
    utxoScript == [0, 0x20] + sha(script)
  }

  /** The checks on the amounts, the scripts and the locktimes. */
  function ReviewSpend(sha: Data -> Hash, m: Maps, utxo: TxOutput, script: Blob,
      origins: seq<Record>): (r: Option<BondSpend>)
    requires |m.tx.inputs| == 1
  {
    match ParseBond(script)
    case None => None
    case Some((locktime, key)) =>
      if !Commits(sha, utxo.script, script) then None
      else if !PassesCltv(locktime, m.tx.locktime, m.tx.inputs[0].sequence) then None
      else if Total(m.tx.outputs) > utxo.value then None
      else
        var total := Total(m.tx.outputs);
        var spend := BondSpend(m.unsignedTx, m.tx, utxo.value, utxo.script, script, locktime, key, total,
          utxo.value - total, None);
        if origins == [] then Some(spend)
        else match ReadOrigin(origins[0])
          case None => None
          case Some((pubkey, origin)) => if pubkey == key then Some(spend.(origin := Some(origin))) else None
  }

  function Review(sha: Data -> Hash, m: Maps): (r: Option<BondSpend>)
    requires |m.tx.inputs| == 1
  {
    var utxos := ValuesOf(m.input, [1]);
    var scripts := ValuesOf(m.input, [5]);
    var origins := OfKind(m.input, 6);
    if |utxos| != 1 || |scripts| != 1 || !Bare(m.input, 1) || !Bare(m.input, 5) || |origins| > 1 then None
    else match ReadUtxo(utxos[0])
      case None => None
      case Some(utxo) => ReviewSpend(sha, m, utxo, scripts[0], origins)
  }

  function ParsePsbt(sha: Data -> Hash, raw: Data): (r: Option<BondSpend>) {
    match ReadPsbt(raw)
    case None => None
    case Some(m) => Review(sha, m)
  }

  // ---- what acceptance means ----

  lemma {:induction false} ValueFound(records: seq<Record>, key: Blob)
    requires |ValuesOf(records, key)| == 1
    ensures Record(key, ValuesOf(records, key)[0]) in records
  {
    if records[0].key != key {
      ValueFound(records[1..], key);
    } else {
      assert ValuesOf(records, key) == [records[0].value] + ValuesOf(records[1..], key);
    }
  }

  lemma MapsInverse(n: nat, d: Data)
    ensures var r := ReadList(ReadWholeMap, n, d); r.Got? ==> d == Join(SerMap, r.value) + r.rest
  {
    hide SerMap, ReadMap;
    forall d ensures ReadWholeMap(d).Got? ==> d == SerMap(ReadWholeMap(d).value) + ReadWholeMap(d).rest {
      MapInverse(d, []);
    }
    ListInverse(ReadWholeMap, SerMap, n, d);
  }

  /** The bytes are exactly the global map with the serialized transaction, the input map, and one map an output. */
  lemma PsbtInverse(raw: Data)
    requires ReadPsbt(raw).Some?
    ensures var m := ReadPsbt(raw).value;
            && raw == MAGIC + (SerMap(m.globals) + (SerMap(m.input) + Join(SerMap, m.outputs)))
            && |m.outputs| == |m.tx.outputs|
            && Unsigned(m.tx) && m.unsignedTx == Serialize(m.tx)
            && IsMap(m.globals) && IsMap(m.input) && |m.unsignedTx| < NO_LIMIT && Record([0], m.unsignedTx) in m.globals
  {
    hide SerMap, ReadMap, ParseUnsigned, Serialize, Unsigned, ValuesOf, Bare, ReadList, Join, IsMap;
    var m := ReadPsbt(raw).value;
    var d1 := ReadWholeMap(raw[5..]).rest;
    var d2 := ReadWholeMap(d1).rest;
    NoRecords();
    MapInverse(raw[5..], []);
    MapInverse(d1, []);
    assert [] + m.globals == m.globals && [] + m.input == m.input;
    MapsInverse(|m.tx.outputs|, d2);
    UnsignedExact(m.unsignedTx, m.tx);
    ValueFound(m.globals, [0]);
    assert raw == MAGIC + raw[5..];
    assert Join(SerMap, m.outputs) + [] == Join(SerMap, m.outputs);
  }

  lemma NoRecords()
    ensures IsMap([])
  {
  }

  /** An accepted spend pays its outputs and the fee from the bond, which its locktime lets it spend, and the
      script it signs for is the committed one. */
  lemma AcceptedSpend(sha: Data -> Hash, raw: Data, b: BondSpend)
    requires ParsePsbt(sha, raw) == Some(b)
    ensures Unsigned(b.tx) && b.unsignedTx == Serialize(b.tx)
    ensures b.utxoValue == Total(b.tx.outputs) + b.fee && b.fee >= 0 && b.utxoValue <= MAX_MONEY
    ensures b.total == Total(b.tx.outputs)
    ensures 0 < b.locktime <= b.tx.locktime && (b.locktime < 500_000_000 <==> b.tx.locktime < 500_000_000)
    ensures |b.tx.inputs| == 1 && b.tx.inputs[0].sequence < 0xFFFF_FFFF
    ensures b.locktime <= UINT32_MAX && IsKey(b.key) && b.script == Bond(b.locktime, b.key)
    ensures b.utxoScript == [0, 32] + sha(b.script)
    ensures b.origin.Some? ==> |b.origin.value.path| <= MAX_BIP32_PATH_DEPTH && |b.origin.value.fingerprint| == 4
  {
    hide ReadPsbt, Serialize, Unsigned, Review, Bond, Total, IsKey;
    PsbtInverse(raw);
    ReviewedSpend(sha, ReadPsbt(raw).value, b);
  }

  /** The records of one kind. */
  ghost predicate OnlyRecord(records: seq<Record>, kind: Byte, r: Record) {
    r in records && forall x :: x in records && x.key != [] && x.key[0] == kind ==> x == r
  }

  /** An accepted PSBT has one record each for the transaction, the spent output and the script, whose keys are just
      their kind, and at most one key origin; what was reviewed is in these records. */
  lemma AcceptedRecords(sha: Data -> Hash, raw: Data, b: BondSpend)
    requires ParsePsbt(sha, raw) == Some(b)
    ensures |b.unsignedTx| < NO_LIMIT && |b.script| < NO_LIMIT
    ensures var m := ReadPsbt(raw).value;
            && OnlyRecord(m.globals, 0, Record([0], b.unsignedTx))
            && OnlyRecord(m.input, 5, Record([5], b.script))
            && (exists v: Blob :: OnlyRecord(m.input, 1, Record([1], v))
                  && ReadUtxo(v) == Some(TxOutput(b.utxoValue, b.utxoScript)))
            && (if b.origin.None? then forall x :: x in m.input && x.key != [] ==> x.key[0] != 6
                else exists r :: OnlyRecord(m.input, 6, r) && ReadOrigin(r) == Some((b.key, b.origin.value)))
  {
    hide ReadWholeMap, ParseUnsigned, ReadUtxo, ParseBond, ReadOrigin, Commits, PassesCltv, Total, OnlyRecord, ReadRest;
    var m := ReadPsbt(raw).value;
    MapsOf(raw);
    OneValue(m.globals, 0);
    OneValue(m.input, 1);
    OneValue(m.input, 5);
    KindFound(m.input, 6);
  }

  lemma MapsOf(raw: Data)
    requires ReadPsbt(raw).Some?
    ensures var m := ReadPsbt(raw).value; IsMap(m.globals) && IsMap(m.input)
    ensures var m := ReadPsbt(raw).value;
            ValuesOf(m.globals, [0]) == [m.unsignedTx] && Bare(m.globals, 0)
  {
    PsbtInverse(raw);
    hide IsMap, ReadMap, ParseUnsigned;
  }

  lemma OneValue(records: seq<Record>, kind: Byte)
    requires IsMap(records) && |ValuesOf(records, [kind])| == 1 && Bare(records, kind)
    ensures OnlyRecord(records, kind, Record([kind], ValuesOf(records, [kind])[0]))
  {
    ValueFound(records, [kind]);
    var r := Record([kind], ValuesOf(records, [kind])[0]);
    hide ValuesOf;
    forall x | x in records && x.key != [] && x.key[0] == kind ensures x == r {
      var i :| 0 <= i < |records| && records[i] == x;
      var j :| 0 <= j < |records| && records[j] == r;
      assert x.key == [kind];
    }
  }

  lemma {:induction false} KindFound(records: seq<Record>, kind: Byte)
    ensures forall x :: x in OfKind(records, kind) <==> x in records && x.key != [] && x.key[0] == kind
    ensures |OfKind(records, kind)| == 1 ==> OnlyRecord(records, kind, OfKind(records, kind)[0])
  {
    if records != [] {
      KindFound(records[1..], kind);
      assert records == [records[0]] + records[1..];
    }
    var found := OfKind(records, kind);
    if |found| == 1 { assert found == [found[0]]; }
  }

  lemma ReviewedSpend(sha: Data -> Hash, m: Maps, b: BondSpend)
    requires |m.tx.inputs| == 1 && Review(sha, m) == Some(b)
    ensures b.tx == m.tx && b.unsignedTx == m.unsignedTx
    ensures b.utxoValue == Total(b.tx.outputs) + b.fee && b.fee >= 0 && b.utxoValue <= MAX_MONEY
    ensures b.total == Total(b.tx.outputs)
    ensures PassesCltv(b.locktime, b.tx.locktime, b.tx.inputs[0].sequence)
    ensures 0 < b.locktime <= UINT32_MAX && IsKey(b.key) && b.script == Bond(b.locktime, b.key)
    ensures Commits(sha, b.utxoScript, b.script)
    ensures b.origin.Some? ==> |b.origin.value.path| <= MAX_BIP32_PATH_DEPTH && |b.origin.value.fingerprint| == 4
  {
    hide ParseBond, Bond, ReadStrictOutput, ValuesOf, OfKind, Bare, Total, SerOutput, Commits, PassesCltv, IsKey,
      ReadOrigin;
    StrictOutputInverse(ValuesOf(m.input, [1])[0]);
    BondScriptExact(b.script, b.locktime, b.key);
    var origins := OfKind(m.input, 6);
    if origins != [] && ReadOrigin(origins[0]).Some? { OriginBounds(origins[0]); }
  }

  lemma OriginBounds(r: Record)
    requires ReadOrigin(r).Some?
    ensures var o := ReadOrigin(r).value.1; |o.path| <= MAX_BIP32_PATH_DEPTH && |o.fingerprint| == 4
  {
    WordsLength(r.value[4..]);
  }

  lemma {:induction false} WordsLength(d: Data)
    requires |d| % 4 == 0
    ensures 4 * |Words(d)| == |d|
  {
    if d != [] { WordsLength(d[4..]); }
  }
}
