/** The signer's PSBT parser as it works: a position that moves over the maps, and the checks in turn. */
module PsbtCode {
  import opened Types
  import opened Wire
  import opened Transactions
  import opened TransactionCode
  import opened UnsignedTx
  import opened BondScript
  import opened Psbt
  import opened PsbtReview

  lemma MapNext(records: seq<Record>, d: Data)
    requires d != [] && d[0] != 0 && |records| < MAX_PSBT_MAP_ENTRIES
    ensures var k := ReadBlob(true, NO_LIMIT, d);
            k.Got? ==>
              var v := ReadBlob(true, NO_LIMIT, k.rest);
              v.Got? ==>
                After(records, ReadMap(d, records)) ==
                if k.value == [] || HasKey(records, k.value) then Fail
                else After(records + [Record(k.value, v.value)], ReadMap(v.rest, records + [Record(k.value, v.value)]))
    ensures ReadBlob(true, NO_LIMIT, d).Fail? || ReadBlob(true, NO_LIMIT, ReadBlob(true, NO_LIMIT, d).rest).Fail? ==>
            After(records, ReadMap(d, records)) == Fail
  {
    hide ReadBlob, HasKey;
    var k := ReadBlob(true, NO_LIMIT, d);
    if k.Got? && ReadBlob(true, NO_LIMIT, k.rest).Got? {
      var v := ReadBlob(true, NO_LIMIT, k.rest);
      var r := ReadMap(v.rest, records + [Record(k.value, v.value)]);
      if r.Got? { Assoc(records, [Record(k.value, v.value)], r.value); }
    }
  }

  /** `_parse_psbt_map`. */
  method ParseMap(raw: Data, offset: nat) returns (r: Option<(seq<Record>, nat)>)
    requires offset <= |raw|
    ensures At(r, ReadWholeMap(raw[offset..]), raw)
  {
    hide ReadBlob;
    var records: seq<Record> := [];
    var seen: set<Blob> := {};
    var pos: nat := offset;
    while true
      invariant pos <= |raw|
      invariant forall key :: key in seen <==> HasKey(records, key)
      invariant ReadWholeMap(raw[offset..]) == After(records, ReadMap(raw[pos..], records))
      decreases |raw| - pos
    {
      if |raw| - pos < 1 { return None; }
      if raw[pos] == 0 { return Some((records, pos + 1)); }
      if |records| >= MAX_PSBT_MAP_ENTRIES { return None; }
      MapNext(records, raw[pos..]);
      var key := ParseScript(true, NO_LIMIT, raw, pos);
      if key.None? || key.value.0 == [] { return None; }
      var value := ParseScript(true, NO_LIMIT, raw, key.value.1);
      if value.None? { return None; }
      if key.value.0 in seen { return None; }
      ghost var before := records;
      seen := seen + {key.value.0};
      records, pos := records + [Record(key.value.0, value.value.0)], value.value.1;
      KeysNext(before, records[|before|]);
    }
  }

  lemma KeysNext(records: seq<Record>, r: Record)
    ensures forall key :: HasKey(records + [r], key) <==> HasKey(records, key) || key == r.key
  {
    forall key ensures HasKey(records + [r], key) <==> HasKey(records, key) || key == r.key {
      var all := records + [r];
      if HasKey(records, key) {
        var i :| 0 <= i < |records| && records[i].key == key;
        assert all[i].key == key;
      }
      assert all[|records|].key == r.key;
    }
  }

  /** One map for each output. */
  method ParseOutputMaps(n: nat, raw: Data, offset: nat) returns (r: Option<(seq<seq<Record>>, nat)>)
    requires offset <= |raw|
    ensures At(r, ReadList(ReadWholeMap, n, raw[offset..]), raw)
  {
    hide ReadWholeMap;
    var maps: seq<seq<Record>> := [];
    var pos: nat := offset;
    for i := 0 to n
      invariant pos <= |raw|
      invariant ReadList(ReadWholeMap, n, raw[offset..]) == After(maps, ReadList(ReadWholeMap, n - i, raw[pos..]))
    {
      AfterNext(ReadWholeMap, maps, n - i, raw[pos..]);
      var one := ParseMap(raw, pos);
      if one.None? { return None; }
      maps, pos := maps + [one.value.0], one.value.1;
    }
    return Some((maps, pos));
  }

  method CheckBare(records: seq<Record>, kind: Byte) returns (ok: bool)
    ensures ok <==> Bare(records, kind)
  {
    for i := 0 to |records|
      invariant forall j :: 0 <= j < i && records[j].key != [] && records[j].key[0] == kind ==> |records[j].key| == 1
    {
      var key := records[i].key;
      if key != [] && key[0] == kind && |key| != 1 { return false; }
    }
    return true;
  }

  /** The maps of a PSBT, with the transaction of the global one. */
  method ParseMaps(raw: Data) returns (r: Option<Maps>)
    ensures r == ReadPsbt(raw)
  {
    hide ReadWholeMap, ParseUnsigned, ReadList, Bare, ValuesOf;
    if |raw| > MAX_PSBT_SIZE { return None; }
    if |raw| < 5 || raw[..5] != MAGIC { return None; }
    var globals := ParseMap(raw, 5);
    if globals.None? { return None; }
    var txs := ValuesOf(globals.value.0, [0]);
    if |txs| != 1 { return None; }
    var bare := CheckBare(globals.value.0, 0);
    if !bare { return None; }
    var tx := ParseTx(txs[0]);
    if tx.None? { return None; }
    var input := ParseMap(raw, globals.value.1);
    if input.None? { return None; }
    var outputs := ParseOutputMaps(|tx.value.outputs|, raw, input.value.1);
    if outputs.None? { return None; }
    if outputs.value.1 != |raw| { return None; }
    return Some(Maps(globals.value.0, txs[0], tx.value, input.value.0, outputs.value.0));
  }

  /** The running total, given up as soon as it exceeds the amount of the bond. */
  method SumOutputs(outputs: seq<TxOutput>, utxoValue: nat) returns (total: Option<nat>)
    ensures total == if Total(outputs) <= utxoValue then Some(Total(outputs)) else None
  {
    var sum := 0;
    for i := 0 to |outputs|
      invariant sum == Total(outputs[..i]) <= Total(outputs) && sum <= utxoValue
    {
      TotalGrows(outputs, i + 1);
      assert outputs[..i + 1][..i] == outputs[..i];
      sum := sum + outputs[i].value;
      if sum > utxoValue { return None; }
    }
    assert outputs[..|outputs|] == outputs;
    return Some(sum);
  }

  lemma {:induction false} TotalGrows(outputs: seq<TxOutput>, i: nat)
    requires i <= |outputs|
    ensures Total(outputs[..i]) <= Total(outputs)
    decreases |outputs|
  {
    if i == |outputs| {
      assert outputs[..i] == outputs;
    } else {
      TotalGrows(outputs[..|outputs| - 1], i);
      assert outputs[..|outputs| - 1][..i] == outputs[..i];
    }
  }

  /** `parse_psbt`, after the base64 layer. */
  method ParseRawPsbt(sha: Data -> Hash, raw: Data) returns (r: Option<BondSpend>)
    ensures r == ParsePsbt(sha, raw)
  {
    hide ReadPsbt, ValuesOf, OfKind, Bare, ReadUtxo, ParseBond, ReadOrigin, Total, Commits;
    var maps := ParseMaps(raw);
    if maps.None? { return None; }
    var m := maps.value;
    var utxos := ValuesOf(m.input, [1]);
    if |utxos| != 1 { return None; }
    var scripts := ValuesOf(m.input, [5]);
    if |scripts| != 1 { return None; }
    var bareUtxo := CheckBare(m.input, 1);
    var bareScript := CheckBare(m.input, 5);
    if !bareUtxo || !bareScript { return None; }
    var origins := OfKind(m.input, 6);
    if |origins| > 1 { return None; }
    var utxo := ReadUtxo(utxos[0]);
    if utxo.None? { return None; }
    var script := scripts[0];
    if !Commits(sha, utxo.value.script, script) { return None; }
    var bond := ParseBond(script);
    if bond.None? { return None; }
    BondScriptExact(script, bond.value.0, bond.value.1);
    if m.tx.locktime < bond.value.0 { return None; }
    if (m.tx.locktime < LOCKTIME_THRESHOLD) != (bond.value.0 < LOCKTIME_THRESHOLD) { return None; }
    if m.tx.inputs[0].sequence == UINT32_MAX { return None; }
    var total := SumOutputs(m.tx.outputs, utxo.value.value);
    if total.None? { return None; }
    var fee := utxo.value.value - total.value;
    var spend := BondSpend(m.unsignedTx, m.tx, utxo.value.value, utxo.value.script, script, bond.value.0, bond.value.1,
      total.value, fee, None);
    if origins == [] { return Some(spend); }
    var origin := ReadOrigin(origins[0]);
    if origin.None? || origin.value.0 != bond.value.1 { return None; }
    return Some(spend.(origin := Some(origin.value.1)));
  }
}
