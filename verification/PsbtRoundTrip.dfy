/** What the library writes as a PSBT is what the signer reads. */
module PsbtRoundTrip {
  import opened Types
  import opened Wire
  import opened Transactions
  import opened UnsignedTx
  import opened BondScript
  import opened Psbt
  import opened PsbtReview

  function Utxo(pi: PsbtInput): (o: TxOutput) {
    TxOutput(pi.utxoValue, pi.utxoScript)
  }

  /** At most one key origin, which names the script's key. */
  predicate OriginFits(pi: PsbtInput, key: Data) {
    pi.derivations == [] ||
    (|pi.derivations| == 1 && pi.derivations[0].pubkey == key && |pi.derivations[0].path| <= MAX_BIP32_PATH_DEPTH)
  }

  /** A spend of one bond that the signer can review: bounded, to a bond script, in funds and in time. */
  predicate Acceptable(sha: Data -> Hash, tx: Tx, pi: PsbtInput)
    requires |Serialize(Stripped(tx))| < NO_LIMIT && |tx.inputs| == 1
  {
    && |SerPsbt(tx, [pi])| <= MAX_PSBT_SIZE
    && Unsigned(Stripped(tx))
    && pi.utxoValue <= MAX_MONEY
    && ParseBond(pi.witnessScript).Some?
    && pi.utxoScript == [0, 32] + sha(pi.witnessScript)
    && InTime(ParseBond(pi.witnessScript).value.0, tx.locktime, tx.inputs[0].sequence)
    && Total(tx.outputs) <= pi.utxoValue
    && OriginFits(pi, ParseBond(pi.witnessScript).value.1)
  }

  /** The transaction may not be final before the bond's locktime, which is of the same kind, and its input is not
      marked final. */
  predicate InTime(bond: int, tx: Word32, sequence: Word32) {
    if bond < 500_000_000 then bond <= tx < 500_000_000 && sequence < 0xFFFF_FFFF
    else bond <= tx && sequence < 0xFFFF_FFFF
  }

  lemma InTimePasses(bond: int, tx: Word32, sequence: Word32)
    requires bond > 0
    ensures InTime(bond, tx, sequence) <==> PassesCltv(bond, tx, sequence)
  {
  }

  function SpendOf(tx: Tx, pi: PsbtInput): (b: BondSpend)
    requires ParseBond(pi.witnessScript).Some?
  {
    var (locktime, key) := ParseBond(pi.witnessScript).value;
    BondSpend(Serialize(Stripped(tx)), Stripped(tx), pi.utxoValue, pi.utxoScript, pi.witnessScript, locktime, key,
              Total(tx.outputs), pi.utxoValue - Total(tx.outputs),
              if pi.derivations == [] then None
              else Some(Origin(pi.derivations[0].fingerprint, pi.derivations[0].path)))
  }

  // ---- the maps ----

  function Empties(n: nat): (maps: seq<seq<Record>>) {
    seq(n, i => [])
  }

  lemma {:induction false} EmptyMaps(n: nat)
    ensures ReadList(ReadWholeMap, n, Zeros(n)) == Got(Empties(n), [])
  {
    if n == 0 {
      assert Zeros(0) == [] && Empties(0) == [];
    } else {
      EmptyMaps(n - 1);
      assert Zeros(n)[1..] == Zeros(n - 1);
      assert ReadWholeMap(Zeros(n)) == Got([], Zeros(n - 1));
      assert [[]] + Empties(n - 1) == Empties(n);
    }
  }

  lemma InputKeys(pi: PsbtInput, i: nat)
    requires i < |InputRecords(pi)|
    ensures var key := InputRecords(pi)[i].key;
            var w := if pi.witnessScript != [] then 3 else 2;
            && key != []
            && (i == 0 ==> key == [1]) && (i == 1 ==> key == [3]) && (2 <= i < w ==> key == [5])
            && (i >= w ==> i - w < |pi.derivations| && key == [6] + pi.derivations[i - w].pubkey)
  {
    hide UtxoRecord, Le4, Join;
    UtxoKey(pi);
  }

  lemma UtxoKey(pi: PsbtInput)
    ensures UtxoRecord(pi).key == [1] && UtxoRecord(pi).value == SerOutput(Utxo(pi))
  {
  }

  lemma InputIsMap(pi: PsbtInput)
    requires |pi.derivations| <= 1
    ensures IsMap(InputRecords(pi))
  {
    hide InputRecords;
    var records := InputRecords(pi);
    InputCount(pi);
    forall i | 0 <= i < |records| ensures records[i].key != [] { InputKeys(pi, i); }
    forall i, j | 0 <= i < j < |records| ensures records[i].key != records[j].key {
      InputKeys(pi, i);
      InputKeys(pi, j);
    }
  }

  lemma InputCount(pi: PsbtInput)
    ensures |InputRecords(pi)| == 2 + (if pi.witnessScript != [] then 1 else 0) + |pi.derivations|
  {
    hide UtxoRecord, Le4, Join;
  }

  lemma {:induction false} ValuesOfBoth(xs: seq<Record>, ys: seq<Record>, key: Blob)
    ensures ValuesOf(xs + ys, key) == ValuesOf(xs, key) + ValuesOf(ys, key)
  {
    hide ValueIf;
    if xs == [] {
      assert xs + ys == ys;
    } else {
      ValuesOfBoth(xs[1..], ys, key);
      Assoc(ValueIf(xs[0], key), ValuesOf(xs[1..], key), ValuesOf(ys, key));
      assert (xs + ys)[1..] == xs[1..] + ys;
    }
  }

  lemma {:induction false} OfKindBoth(xs: seq<Record>, ys: seq<Record>, kind: Byte)
    ensures OfKind(xs + ys, kind) == OfKind(xs, kind) + OfKind(ys, kind)
  {
    hide RecordIf;
    if xs == [] {
      assert xs + ys == ys;
    } else {
      OfKindBoth(xs[1..], ys, kind);
      Assoc(RecordIf(xs[0], kind), OfKind(xs[1..], kind), OfKind(ys, kind));
      assert (xs + ys)[1..] == xs[1..] + ys;
    }
  }

  lemma {:induction false} OnlyKind(records: seq<Record>, kind: Byte)
    requires forall i :: 0 <= i < |records| ==> records[i].key != [] && records[i].key[0] == kind
    ensures OfKind(records, kind) == records
    ensures forall key :: |key| == 1 && key[0] != kind ==> ValuesOf(records, key) == []
  {
    if records != [] {
      OnlyKind(records[1..], kind);
      assert records == [records[0]] + records[1..];
    }
  }

  lemma DerivedKinds(ds: seq<Derivation>)
    ensures OfKind(Derived(ds), 6) == Derived(ds) && ValuesOf(Derived(ds), [1]) == []
      && ValuesOf(Derived(ds), [5]) == [] && ValuesOf(Derived(ds), [3]) == []
  {
    hide Join;
    OnlyKind(Derived(ds), 6);
  }

  /** A key origin is the fingerprint and then the path, four bytes an index, lowest first; its key names the key. */
  lemma DerivationBytes(d: Derivation, i: nat)
    requires i < |d.path|
    ensures var r := DerivationRecord(d);
            && |r.key| == 34 && r.key[0] == 6 && r.key[1..] == d.pubkey
            && |r.value| == 4 + 4 * |d.path| && r.value[..4] == d.fingerprint
            && FromLe(r.value[4 + 4 * i..8 + 4 * i]) == d.path[i]
  {
    hide Le4, Join, FromLe;
    var v := DerivationRecord(d).value;
    FixedItems(Le4, d.path, 4, i);
    WrittenLittleEndian4(d.path[i], []);
    var p := Join(Le4, d.path);
    assert v[4 + 4 * i..8 + 4 * i] == p[4 * i..4 * i + 4];
  }

  /** The records of an input, sorted as the signer looks for them. */
  lemma InputFields(pi: PsbtInput)
    ensures ValuesOf(InputRecords(pi), [1]) == [SerOutput(Utxo(pi))]
    ensures ValuesOf(InputRecords(pi), [3]) == [Le4(pi.sighash)]
    ensures ValuesOf(InputRecords(pi), [5]) == if pi.witnessScript != [] then [pi.witnessScript] else []
    ensures OfKind(InputRecords(pi), 6) == Derived(pi.derivations)
    ensures Bare(InputRecords(pi), 1) && Bare(InputRecords(pi), 5)
  {
    hide UtxoRecord, Le4, Derived, SerOutput;
    UtxoKey(pi);
    DerivedKinds(pi.derivations);
    var two := [UtxoRecord(pi), Record([3], Le4(pi.sighash))];
    var script := if pi.witnessScript != [] then [Record([5], pi.witnessScript)] else [];
    ValuesOfBoth(two + script, Derived(pi.derivations), [1]);
    ValuesOfBoth(two, script, [1]);
    ValuesOfBoth(two + script, Derived(pi.derivations), [3]);
    ValuesOfBoth(two, script, [3]);
    ValuesOfBoth(two + script, Derived(pi.derivations), [5]);
    ValuesOfBoth(two, script, [5]);
    OfKindBoth(two + script, Derived(pi.derivations), 6);
    OfKindBoth(two, script, 6);
    TwoRecords(two[0], two[1]);
    InputBare(pi);
    hide InputRecords, Bare;
  }

  lemma TwoRecords(a: Record, b: Record)
    requires a.key == [1] && b.key == [3]
    ensures ValuesOf([a, b], [1]) == [a.value] && ValuesOf([a, b], [3]) == [b.value]
    ensures ValuesOf([a, b], [5]) == [] && OfKind([a, b], 6) == []
  {
    assert [a, b] == [a] + [b];
    ValuesOfBoth([a], [b], [1]);
    ValuesOfBoth([a], [b], [3]);
    ValuesOfBoth([a], [b], [5]);
    OfKindBoth([a], [b], 6);
    OneRecord(a);
    OneRecord(b);
    hide ValuesOf, OfKind;
  }

  lemma OneRecord(r: Record)
    ensures forall key :: ValuesOf([r], key) == ValueIf(r, key)
    ensures forall kind :: OfKind([r], kind) == RecordIf(r, kind)
  {
    assert [r][1..] == [];
    forall key ensures ValuesOf([r], key) == ValueIf(r, key) {
      assert ValuesOf([r], key) == ValueIf(r, key) + ValuesOf([], key);
    }
    forall kind ensures OfKind([r], kind) == RecordIf(r, kind) {
      assert OfKind([r], kind) == RecordIf(r, kind) + OfKind([], kind);
    }
    hide ValueIf, RecordIf;
  }

  lemma InputBare(pi: PsbtInput)
    ensures Bare(InputRecords(pi), 1) && Bare(InputRecords(pi), 5)
  {
    forall i | 0 <= i < |InputRecords(pi)|
      ensures InputRecords(pi)[i].key[0] in [1, 5] ==> |InputRecords(pi)[i].key| == 1
    {
      InputKeys(pi, i);
    }
    hide InputRecords;
  }

  // ---- the whole ----

  /** The unsigned transaction in the global map is read back, or refused for its own shape. */
  lemma UnsignedRead(u: Tx)
    requires u.witnesses == []
    ensures ParseUnsigned(Serialize(u)) == if |Serialize(u)| <= MAX_PSBT_SIZE && Unsigned(u) then Some(u) else None
  {
    hide Serialize, Unsigned, ParseUnsigned;
    UnsignedExact(Serialize(u), u);
    if ParseUnsigned(Serialize(u)).Some? {
      var v := ParseUnsigned(Serialize(u)).value;
      UnsignedExact(Serialize(u), v);
      NoWitnesses(v);
      SerializeInjective(u, v);
    }
  }

  lemma NoWitnesses(v: Tx)
    requires Unsigned(v)
    ensures v.witnesses == []
  {
  }

  lemma GlobalsRead(unsignedTx: Blob, t: Data)
    ensures ReadWholeMap(SerMap([Record([0], unsignedTx)]) + t) == Got([Record([0], unsignedTx)], t)
    ensures ValuesOf([Record([0], unsignedTx)], [0]) == [unsignedTx] && Bare([Record([0], unsignedTx)], 0)
  {
    hide SerMap, ReadMap;
    var records := [Record([0], unsignedTx)];
    NoRecords();
    assert [] + records == records;
    assert IsMap(records);
    MapRoundTrip(records, [], t);
    OneRecord(records[0]);
    hide ValuesOf;
  }

  lemma InputRead(pi: PsbtInput, t: Data)
    ensures IsMap(InputRecords(pi)) ==> ReadWholeMap(SerPsbtInput(pi) + t) == Got(InputRecords(pi), t)
    ensures !IsMap(InputRecords(pi)) ==> ReadWholeMap(SerPsbtInput(pi) + t) == Fail
  {
    hide InputRecords, SerMap, ReadMap, IsMap;
    var records := InputRecords(pi);
    NoRecords();
    assert [] + records == records;
    forall i | 0 <= i < |records| ensures records[i].key != [] { InputKeys(pi, i); }
    MapRoundTrip(records, [], t);
  }

  lemma Layout(tx: Tx, pi: PsbtInput)
    requires |Serialize(Stripped(tx))| < NO_LIMIT
    ensures var raw := SerPsbt(tx, [pi]);
            && |raw| >= 5 && raw[..5] == MAGIC && |Serialize(Stripped(tx))| <= |raw|
            && raw[5..] == SerMap([Record([0], Serialize(Stripped(tx)))]) + (SerPsbtInput(pi) + Zeros(|tx.outputs|))
  {
    hide Serialize, SerPsbtInput, Join, Stripped, Prefixed;
    var u := Serialize(Stripped(tx));
    OneJoin(pi);
    GlobalMap(Record([0], u));
    BlobIsLonger(u);
    hide SerMap;
  }

  lemma BlobIsLonger(b: Blob)
    ensures |Prefixed(b)| > |b|
  {
    SizeFirst(|b|);
    hide Size;
  }

  lemma OneJoin(pi: PsbtInput)
    ensures Join(SerPsbtInput, [pi]) == SerPsbtInput(pi)
  {
    assert [pi][1..] == [];
    assert Join(SerPsbtInput, [pi]) == SerPsbtInput(pi) + Join(SerPsbtInput, []);
    hide SerPsbtInput;
  }

  /** The maps that the signer finds in what the library wrote. */
  lemma PsbtRead(tx: Tx, pi: PsbtInput)
    requires |tx.inputs| == 1 && |Serialize(Stripped(tx))| < NO_LIMIT
    ensures var u := Serialize(Stripped(tx));
            ReadPsbt(SerPsbt(tx, [pi])) ==
              if |SerPsbt(tx, [pi])| <= MAX_PSBT_SIZE && Unsigned(Stripped(tx)) && IsMap(InputRecords(pi))
              then Some(Maps([Record([0], u)], u, Stripped(tx), InputRecords(pi), Empties(|tx.outputs|)))
              else None
  {
    hide Serialize, SerPsbtInput, SerMap, ReadWholeMap, Unsigned, IsMap, InputRecords, ValuesOf, Bare, ParseUnsigned,
      SerPsbt, ReadList;
    var u := Serialize(Stripped(tx));
    Layout(tx, pi);
    GlobalsRead(u, SerPsbtInput(pi) + Zeros(|tx.outputs|));
    UnsignedRead(Stripped(tx));
    InputRead(pi, Zeros(|tx.outputs|));
    EmptyMaps(|tx.outputs|);
  }

  // ---- the checks ----

  lemma {:induction false} WordsRoundTrip(path: seq<Word32>)
    ensures |Join(Le4, path)| % 4 == 0 && Words(Join(Le4, path)) == path
  {
    PathLength(path);
    if path != [] {
      WordsRoundTrip(path[1..]);
      Words4(path[0], Le4(path[0]));
      var d := Join(Le4, path);
      assert d[..4] == Le4(path[0]) && d[4..] == Join(Le4, path[1..]);
    }
    hide Le4, Word4;
  }

  lemma OriginRead(d: Derivation)
    ensures ReadOrigin(DerivationRecord(d)) ==
            if IsKey(d.pubkey) && |d.path| <= MAX_BIP32_PATH_DEPTH then Some((d.pubkey, Origin(d.fingerprint, d.path)))
              else None
  {
    PathLength(d.path);
    WordsRoundTrip(d.path);
    var r := DerivationRecord(d);
    assert r.key[1..] == d.pubkey && r.value[..4] == d.fingerprint && r.value[4..] == Join(Le4, d.path);
    hide Words, Join;
  }

  lemma UtxoRead(pi: PsbtInput)
    ensures ReadUtxo(SerOutput(Utxo(pi))) == if SmallOutput(Utxo(pi)) then Some(Utxo(pi)) else None
  {
    StrictOutputRoundTrip(Utxo(pi), []);
    assert SerOutput(Utxo(pi)) + [] == SerOutput(Utxo(pi));
    hide SerOutput, ReadStrictOutput;
  }

  lemma SpendRead(sha: Data -> Hash, m: Maps, pi: PsbtInput)
    requires |m.tx.inputs| == 1 && m.input == InputRecords(pi)
    ensures Review(sha, m) ==
            if |pi.derivations| <= 1 && pi.witnessScript != [] && SmallOutput(Utxo(pi))
            then ReviewSpend(sha, m, Utxo(pi), pi.witnessScript, Derived(pi.derivations)) else None
  {
    hide ValuesOf, OfKind, Bare, InputRecords, ReadUtxo, SmallOutput, SerOutput, ReviewSpend, DerivationRecord;
    InputFields(pi);
    UtxoRead(pi);
  }

  lemma ReviewRead(sha: Data -> Hash, m: Maps, pi: PsbtInput, tx: Tx)
    requires |tx.inputs| == 1 && |pi.derivations| <= 1 && m.tx == Stripped(tx)
      && m.unsignedTx == Serialize(Stripped(tx))
    ensures ReviewSpend(sha, m, Utxo(pi), pi.witnessScript, Derived(pi.derivations)) ==
            if ParseBond(pi.witnessScript).Some?
               && Commits(sha, pi.utxoScript, pi.witnessScript)
               && PassesCltv(ParseBond(pi.witnessScript).value.0, tx.locktime, tx.inputs[0].sequence)
               && Total(tx.outputs) <= pi.utxoValue
               && OriginFits(pi, ParseBond(pi.witnessScript).value.1)
            then Some(SpendOf(tx, pi)) else None
  {
    hide ParseBond, Commits, PassesCltv, Total, Serialize, ReadOrigin, DerivationRecord;
    if pi.derivations != [] {
      OriginRead(pi.derivations[0]);
      assert Derived(pi.derivations)[0] == DerivationRecord(pi.derivations[0]);
    }
    if ParseBond(pi.witnessScript).Some? {
      var (locktime, key) := ParseBond(pi.witnessScript).value;
      BondScriptExact(pi.witnessScript, locktime, key);
    }
    hide IsKey, Bond;
  }

  lemma CommitsSmall(sha: Data -> Hash, pi: PsbtInput)
    requires Commits(sha, pi.utxoScript, pi.witnessScript) && pi.utxoValue <= MAX_MONEY
    ensures SmallOutput(Utxo(pi))
  {
  }

  lemma CommitsTo(sha: Data -> Hash, pi: PsbtInput)
    ensures Commits(sha, pi.utxoScript, pi.witnessScript) <==> pi.utxoScript == [0, 32] + sha(pi.witnessScript)
  {
  }

  lemma EmptyIsNoBond()
    ensures ParseBond([]).None?
  {
  }

  /** The signer accepts what the library writes for one input exactly when the spend is acceptable, and then finds
      the same transaction, amounts, scripts and key origin. */
  lemma CreatedThenParsed(sha: Data -> Hash, tx: Tx, pi: PsbtInput)
    requires |tx.inputs| == 1 && |Serialize(Stripped(tx))| < NO_LIMIT
    ensures ParsePsbt(sha, SerPsbt(tx, [pi])) == if Acceptable(sha, tx, pi) then Some(SpendOf(tx, pi)) else None
  {
    hide SerPsbt, Serialize, InputRecords, ReadPsbt, Review, ReviewSpend, Unsigned, IsMap, ParseBond, Commits,
      PassesCltv, Total, SpendOf, SmallOutput, InTime, Bond, IsKey;
    PsbtRead(tx, pi);
    EmptyIsNoBond();
    CommitsTo(sha, pi);
    if ParseBond(pi.witnessScript).Some? {
      var (locktime, key) := ParseBond(pi.witnessScript).value;
      BondScriptExact(pi.witnessScript, locktime, key);
      InTimePasses(locktime, tx.locktime, tx.inputs[0].sequence);
    }
    if |pi.derivations| <= 1 { InputIsMap(pi); }
    if ReadPsbt(SerPsbt(tx, [pi])).Some? {
      var m := ReadPsbt(SerPsbt(tx, [pi])).value;
      SpendRead(sha, m, pi);
      if |pi.derivations| <= 1 { ReviewRead(sha, m, pi, tx); }
      if Commits(sha, pi.utxoScript, pi.witnessScript) && pi.utxoValue <= MAX_MONEY { CommitsSmall(sha, pi); }
      if SmallOutput(Utxo(pi)) { assert pi.utxoValue <= MAX_MONEY by { SmallValue(pi); } }
    }
  }

  lemma SmallValue(pi: PsbtInput)
    requires SmallOutput(Utxo(pi))
    ensures pi.utxoValue <= MAX_MONEY
  {
  }
}
