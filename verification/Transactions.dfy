/** The transaction format of section "Serialization" of BIP 144, as the library writes and reads it. */
module Transactions {
  import opened Types
  import opened Wire

  const MAX_MONEY: nat := 2_100_000_000_000_000
  const MAX_INPUTS: nat := 10_000
  const MAX_OUTPUTS: nat := 10_000
  const MAX_WITNESS_STACK_ITEMS: nat := 1_000
  const NO_LIMIT: nat := 0x1_0000_0000_0000_0000

  type Hash = d: Data | |d| == 32 witness seq(32, i => 0)

  datatype TxInput = TxInput(txid: Hash, vout: Word32, scriptSig: Blob, sequence: Word32)

  datatype TxOutput = TxOutput(value: Word64, script: Blob)

  datatype Tx = Tx(version: Word32, inputs: List<TxInput>, outputs: List<TxOutput>,
                   witnesses: seq<List<Blob>>, locktime: Word32)

  datatype Parsed = Parsed(tx: Tx, hasWitness: bool)

  // ---- writing ----

  function SerInput(i: TxInput): (d: Data) {
    i.txid + (Le4(i.vout) + (Prefixed(i.scriptSig) + Le4(i.sequence)))
  }

  function SerOutput(o: TxOutput): (d: Data) {
    Le8(o.value) + Prefixed(o.script)
  }

  function SerStack(w: List<Blob>): (d: Data) {
    Counted(Prefixed, w)
  }

  predicate HasWitness(tx: Tx) {
    exists i :: 0 <= i < |tx.witnesses| && tx.witnesses[i] != []
  }

  function SerBody(tx: Tx): (d: Data) {
    Counted(SerInput, tx.inputs) + Counted(SerOutput, tx.outputs)
  }

  /** A transaction with or without the marker and the witnesses. */
  function Written(marked: bool, tx: Tx): (d: Data) {
    if marked then Le4(tx.version) + ([0, 1] + (SerBody(tx) + (Join(SerStack, tx.witnesses) + Le4(tx.locktime))))
    else Le4(tx.version) + (SerBody(tx) + Le4(tx.locktime))
  }

  function Serialize(tx: Tx): (d: Data) {
    Written(HasWitness(tx), tx)
  }

  function Stripped(tx: Tx): (tx': Tx) {
    tx.(witnesses := [])
  }

  // ---- reading ----

  function ReadInput(d: Data): (r: Read<TxInput>) {
    var (txid, d1) :- ReadBytes(32, d);
    var (vout, d2) :- ReadWord32(d1);
    var (script, d3) :- ReadBlob(false, NO_LIMIT, d2);
    var (sequence, d4) :- ReadWord32(d3);
    Got(TxInput(txid, vout, script, sequence), d4)
  }

  /** An output of any value, as the size scanner sees it. */
  function ReadAnyOutput(d: Data): (r: Read<TxOutput>) {
    var (value, d1) :- ReadWord64(d);
    var (script, d2) :- ReadBlob(false, NO_LIMIT, d1);
    Got(TxOutput(value, script), d2)
  }

  function ReadOutput(d: Data): (r: Read<TxOutput>) {
    var (o, rest) :- ReadAnyOutput(d);
    if o.value > MAX_MONEY then Fail else Got(o, rest)
  }

  function ReadItem(d: Data): (r: Read<Blob>) {
    ReadBlob(false, NO_LIMIT, d)
  }

  function ReadStack(d: Data): (r: Read<List<Blob>>) {
    ReadCounted(false, MAX_WITNESS_STACK_ITEMS, ReadItem, d)
  }

  /** A stack of any length, as the size scanner sees it. */
  function ReadAnyStack(d: Data): (r: Read<List<Blob>>) {
    ReadCounted(false, NO_LIMIT, ReadItem, d)
  }

  /** A segregated-witness transaction starts its input list with the marker. */
  predicate Marked(d: Data) {
    |d| >= 2 && d[0] == 0 && d[1] == 1
  }

  function ReadWitnesses(marked: bool, n: nat, d: Data): (r: Read<seq<List<Blob>>>) {
    if marked then ReadList(ReadStack, n, d) else Got([], d)
  }

  function Parse(data: Data): (r: Read<Parsed>) {
    var (version, d1) :- ReadWord32(data);
    var marked := Marked(d1);
    var (inputs, d2) :- ReadCounted(false, MAX_INPUTS, ReadInput, if marked then d1[2..] else d1);
    var (outputs, d3) :- ReadCounted(false, MAX_OUTPUTS, ReadOutput, d2);
    var (witnesses, d4) :- ReadWitnesses(marked, |inputs|, d3);
    var (locktime, d5) :- ReadWord32(d4);
    if d5 != [] then Fail else Got(Parsed(Tx(version, inputs, outputs, witnesses, locktime), marked), d5)
  }

  // ---- which bytes are written ----

  lemma InputBytes(i: TxInput)
    ensures var d := SerInput(i);
            && |d| >= 41 && d[..32] == i.txid && FromLe(d[32..36]) == i.vout
            && d[36..|d| - 4] == Size(|i.scriptSig|) + i.scriptSig && FromLe(d[|d| - 4..]) == i.sequence
  {
    hide Le4, Size, FromLe;
    var d := SerInput(i);
    WrittenLittleEndian4(i.vout, []);
    WrittenLittleEndian4(i.sequence, []);
    SizeFirst(|i.scriptSig|);
    assert d[32..36] == Le4(i.vout) && d[|d| - 4..] == Le4(i.sequence);
  }

  lemma OutputBytes(o: TxOutput)
    ensures var d := SerOutput(o);
            |d| >= 9 && FromLe(d[..8]) == o.value && d[8..] == Size(|o.script|) + o.script
  {
    hide Le8, Size, FromLe;
    WrittenLittleEndian8(o.value, []);
    SizeFirst(|o.script|);
    assert SerOutput(o)[..8] == Le8(o.value);
  }

  /** The inputs with their number in front, then the outputs with theirs. */
  function BodyBytes(tx: Tx): (d: Data) {
    Size(|tx.inputs|) + Join(SerInput, tx.inputs) + Size(|tx.outputs|) + Join(SerOutput, tx.outputs)
  }

  /** The version is in the first four bytes and the locktime in the last four, lowest byte first; the marker is in
      between exactly for a transaction with witnesses, and the inputs come before the outputs. */
  predicate HasLayout(marked: bool, tx: Tx, d: Data) {
    var h := if marked then 6 else 4;
    var body := BodyBytes(tx);
    && |d| >= h + |body| + 4
    && FromLe(d[..4]) == tx.version && FromLe(d[|d| - 4..]) == tx.locktime
    && (marked ==> d[4] == 0 && d[5] == 1)
    && d[h..h + |body|] == body
    && d[h + |body|..|d| - 4] == if marked then Join(SerStack, tx.witnesses) else []
  }

  lemma WrittenBytes(marked: bool, tx: Tx, d: Data)
    ensures d == Written(marked, tx) <==> HasLayout(marked, tx, d)
  {
    LaidOut(marked, tx);
    if HasLayout(marked, tx, d) { PutTogether(marked, tx, d); }
    hide Written, HasLayout;
  }

  lemma SameBytes(tx: Tx)
    ensures SerBody(tx) == BodyBytes(tx)
  {
    hide Size, Join;
  }

  lemma LaidOut(marked: bool, tx: Tx)
    ensures HasLayout(marked, tx, Written(marked, tx))
  {
    hide Le4, FromLe, Join, SerBody, BodyBytes;
    var d := Written(marked, tx);
    WrittenLittleEndian4(tx.version, []);
    WrittenLittleEndian4(tx.locktime, []);
    SameBytes(tx);
    var head := if marked then Le4(tx.version) + [0, 1] else Le4(tx.version);
    var stacks := if marked then Join(SerStack, tx.witnesses) else [];
    assert d == head + (BodyBytes(tx) + (stacks + Le4(tx.locktime)));
    Quarter(d, head, BodyBytes(tx), stacks, Le4(tx.locktime));
    assert d[..4] == head[..4];
  }

  lemma Quarter(d: Data, a: Data, b: Data, c: Data, e: Data)
    ensures d == a + (b + (c + e)) <==>
            && |d| == |a| + |b| + |c| + |e|
            && d[..|a|] == a && d[|a|..|a| + |b|] == b && d[|a| + |b|..|d| - |e|] == c && d[|d| - |e|..] == e
  {
    if |d| == |a| + |b| + |c| + |e| {
      assert d == d[..|a|] + (d[|a|..|a| + |b|] + (d[|a| + |b|..|d| - |e|] + d[|d| - |e|..]));
    }
  }

  lemma PutTogether(marked: bool, tx: Tx, d: Data)
    requires HasLayout(marked, tx, d)
    ensures d == Written(marked, tx)
  {
    hide Le4, FromLe, Join, SerBody, BodyBytes;
    WrittenLittleEndian4(tx.version, d[..4]);
    WrittenLittleEndian4(tx.locktime, d[|d| - 4..]);
    SameBytes(tx);
    var head := if marked then Le4(tx.version) + [0, 1] else Le4(tx.version);
    var stacks := if marked then Join(SerStack, tx.witnesses) else [];
    assert d[..|head|] == head;
    Quarter(d, head, BodyBytes(tx), stacks, Le4(tx.locktime));
  }

  // ---- writing and reading are inverse ----

  lemma InputRoundTrip(i: TxInput, t: Data)
    ensures ReadInput(SerInput(i) + t) == Got(i, t)
  {
    hide Le4, Prefixed, ReadWord32, ReadBlob;
    var d3 := Le4(i.sequence) + t;
    var d2 := Prefixed(i.scriptSig) + d3;
    var d1 := Le4(i.vout) + d2;
    assert SerInput(i) + t == i.txid + d1;
    BytesRoundTrip(i.txid, d1);
    Word32RoundTrip(i.vout, d2);
    BlobRoundTrip(false, NO_LIMIT, i.scriptSig, d3);
    Word32RoundTrip(i.sequence, t);
  }

  lemma AnyOutputRoundTrip(o: TxOutput, t: Data)
    ensures ReadAnyOutput(SerOutput(o) + t) == Got(o, t)
  {
    hide Le8, Prefixed, ReadWord64, ReadBlob;
    assert SerOutput(o) + t == Le8(o.value) + (Prefixed(o.script) + t);
    Word64RoundTrip(o.value, Prefixed(o.script) + t);
    BlobRoundTrip(false, NO_LIMIT, o.script, t);
  }

  lemma OutputRoundTrip(o: TxOutput, t: Data)
    ensures ReadOutput(SerOutput(o) + t) == if o.value <= MAX_MONEY then Got(o, t) else Fail
  {
    AnyOutputRoundTrip(o, t);
  }

  lemma ItemRoundTrip(b: Blob, t: Data)
    ensures ReadItem(Prefixed(b) + t) == Got(b, t)
  {
    BlobRoundTrip(false, NO_LIMIT, b, t);
  }

  lemma StackRoundTrip(w: List<Blob>, t: Data)
    ensures ReadStack(SerStack(w) + t) == if |w| <= MAX_WITNESS_STACK_ITEMS then Got(w, t) else Fail
  {
    forall b, t ensures ReadItem(Prefixed(b) + t) == Got(b, t) { ItemRoundTrip(b, t); }
    CountedRoundTrip(false, MAX_WITNESS_STACK_ITEMS, ReadItem, Prefixed, w, t);
  }

  lemma AnyStackRoundTrip(w: List<Blob>, t: Data)
    ensures ReadAnyStack(SerStack(w) + t) == Got(w, t)
  {
    forall b, t ensures ReadItem(Prefixed(b) + t) == Got(b, t) { ItemRoundTrip(b, t); }
    CountedRoundTrip(false, NO_LIMIT, ReadItem, Prefixed, w, t);
  }

  /** What the parser's limits allow. */
  predicate InLimits(tx: Tx) {
    && |tx.inputs| <= MAX_INPUTS && |tx.outputs| <= MAX_OUTPUTS
    && (forall o :: o in tx.outputs ==> o.value <= MAX_MONEY)
    && (HasWitness(tx) ==> forall w :: w in tx.witnesses ==> |w| <= MAX_WITNESS_STACK_ITEMS)
  }

  /** The empty input list and the number of outputs read as the witness marker. */
  predicate LooksMarked(tx: Tx) {
    !HasWitness(tx) && tx.inputs == [] && |tx.outputs| == 1
  }

  /** A list of empty witness stacks is not written, so it comes back as no witnesses. */
  function Normal(tx: Tx): (p: Parsed) {
    if HasWitness(tx) then Parsed(tx, true) else Parsed(Stripped(tx), false)
  }

  lemma ListsRoundTrip(tx: Tx, t: Data)
    requires |tx.inputs| <= MAX_INPUTS && |tx.outputs| <= MAX_OUTPUTS
      && (forall o :: o in tx.outputs ==> o.value <= MAX_MONEY)
    ensures ReadCounted(false, MAX_INPUTS, ReadInput, SerBody(tx) + t) ==
            Got(tx.inputs, Counted(SerOutput, tx.outputs) + t)
    ensures ReadCounted(false, MAX_OUTPUTS, ReadOutput, Counted(SerOutput, tx.outputs) + t) == Got(tx.outputs, t)
  {
    hide ReadInput, ReadOutput, SerInput, SerOutput, Counted, ReadCounted;
    forall i, t ensures ReadInput(SerInput(i) + t) == Got(i, t) { InputRoundTrip(i, t); }
    forall o, t | o in tx.outputs ensures ReadOutput(SerOutput(o) + t) == Got(o, t) { OutputRoundTrip(o, t); }
    CountedRoundTrip(false, MAX_INPUTS, ReadInput, SerInput, tx.inputs, Counted(SerOutput, tx.outputs) + t);
    assert SerBody(tx) + t == Counted(SerInput, tx.inputs) + (Counted(SerOutput, tx.outputs) + t);
    CountedRoundTrip(false, MAX_OUTPUTS, ReadOutput, SerOutput, tx.outputs, t);
  }

  lemma AnyListsRoundTrip(tx: Tx, t: Data)
    ensures ReadCounted(false, NO_LIMIT, ReadInput, SerBody(tx) + t) ==
            Got(tx.inputs, Counted(SerOutput, tx.outputs) + t)
    ensures ReadCounted(false, NO_LIMIT, ReadAnyOutput, Counted(SerOutput, tx.outputs) + t) == Got(tx.outputs, t)
  {
    hide ReadInput, ReadAnyOutput, SerInput, SerOutput, Counted, ReadCounted;
    forall i, t ensures ReadInput(SerInput(i) + t) == Got(i, t) { InputRoundTrip(i, t); }
    forall o, t ensures ReadAnyOutput(SerOutput(o) + t) == Got(o, t) { AnyOutputRoundTrip(o, t); }
    CountedRoundTrip(false, NO_LIMIT, ReadInput, SerInput, tx.inputs, Counted(SerOutput, tx.outputs) + t);
    assert SerBody(tx) + t == Counted(SerInput, tx.inputs) + (Counted(SerOutput, tx.outputs) + t);
    CountedRoundTrip(false, NO_LIMIT, ReadAnyOutput, SerOutput, tx.outputs, t);
  }

  /** Without witnesses, no two transactions have the same serialization. */
  lemma SerializeInjective(a: Tx, b: Tx)
    requires a.witnesses == [] && b.witnesses == [] && Serialize(a) == Serialize(b)
    ensures a == b
  {
    hide Le4, SerBody, ReadCounted, ReadWord32, Counted;
    var ta, tb := Le4(a.locktime), Le4(b.locktime);
    Word32RoundTrip(a.version, SerBody(a) + ta);
    Word32RoundTrip(b.version, SerBody(b) + tb);
    AnyListsRoundTrip(a, ta);
    AnyListsRoundTrip(b, tb);
    Word32RoundTrip(a.locktime, []);
    Word32RoundTrip(b.locktime, []);
    assert ta + [] == ta && tb + [] == tb;
  }

  lemma WitnessesRoundTrip(tx: Tx, t: Data)
    requires forall w :: w in tx.witnesses ==> |w| <= MAX_WITNESS_STACK_ITEMS
    ensures ReadList(ReadStack, |tx.witnesses|, Join(SerStack, tx.witnesses) + t) == Got(tx.witnesses, t)
  {
    hide ReadStack, SerStack;
    forall w, t | w in tx.witnesses ensures ReadStack(SerStack(w) + t) == Got(w, t) { StackRoundTrip(w, t); }
    ListRoundTrip(ReadStack, SerStack, tx.witnesses, t);
  }

  lemma BodyMarked(tx: Tx, t: Data)
    ensures Marked(SerBody(tx) + t) <==> tx.inputs == [] && |tx.outputs| == 1
  {
    SizeFirst(|tx.inputs|);
    SizeFirst(|tx.outputs|);
    var d := SerBody(tx) + t;
    assert d[0] == Size(|tx.inputs|)[0];
    if tx.inputs == [] {
      assert Counted(SerInput, tx.inputs) == [0];
      assert d[1] == Counted(SerOutput, tx.outputs)[0] == Size(|tx.outputs|)[0];
    }
  }

  lemma ParseMarked(tx: Tx)
    requires HasWitness(tx) && |tx.witnesses| == |tx.inputs| && InLimits(tx)
    ensures Parse(Serialize(tx)) == Got(Normal(tx), [])
  {
    var d4 := Le4(tx.locktime);
    var d3 := Join(SerStack, tx.witnesses) + d4;
    var d2 := [0, 1] + (SerBody(tx) + d3);
    assert Marked(d2) && d2[2..] == SerBody(tx) + d3;
    Word32RoundTrip(tx.version, d2);
    ListsRoundTrip(tx, d3);
    WitnessesRoundTrip(tx, d4);
    Word32RoundTrip(tx.locktime, []);
    assert d4 + [] == d4;
    hide SerBody, Le4, Join, ReadWord32, ReadCounted, Marked, Counted, ReadList, HasWitness;
  }

  lemma ParseUnmarked(tx: Tx)
    requires !HasWitness(tx) && !LooksMarked(tx) && InLimits(tx)
    ensures Parse(Serialize(tx)) == Got(Normal(tx), [])
  {
    var d3 := Le4(tx.locktime);
    Word32RoundTrip(tx.version, SerBody(tx) + d3);
    BodyMarked(tx, d3);
    ListsRoundTrip(tx, d3);
    Word32RoundTrip(tx.locktime, []);
    assert d3 + [] == d3;
    hide SerBody, Le4, ReadWord32, ReadCounted, Marked, Counted, HasWitness;
  }

  lemma ParseMarkedAnyway(tx: Tx)
    requires LooksMarked(tx)
    ensures Parse(Serialize(tx)).Got? ==> Parse(Serialize(tx)).value.hasWitness
  {
    var d3 := Le4(tx.locktime);
    Word32RoundTrip(tx.version, SerBody(tx) + d3);
    BodyMarked(tx, d3);
    hide SerBody, Le4, ReadWord32, ReadCounted, Marked, Counted, HasWitness;
  }

  predicate Payable(o: TxOutput) { o.value <= MAX_MONEY }

  predicate ShortStack(w: List<Blob>) { |w| <= MAX_WITNESS_STACK_ITEMS }

  /** The parser never returns a transaction beyond its limits. */
  lemma ParsedInLimits(data: Data)
    ensures Parse(data).Got? ==> InLimits(Parse(data).value.tx)
  {
    hide ReadWord32, ReadInput, ReadCounted, ReadStack;
    if Parse(data).Got? {
      var d1 := ReadWord32(data).rest;
      var marked := Marked(d1);
      var ins := ReadCounted(false, MAX_INPUTS, ReadInput, if marked then d1[2..] else d1);
      forall d ensures ReadOutput(d).Got? ==> Payable(ReadOutput(d).value) {}
      CountedHolds(false, MAX_OUTPUTS, ReadOutput, Payable, ins.rest);
      var outs := ReadCounted(false, MAX_OUTPUTS, ReadOutput, ins.rest);
      forall d ensures ReadStack(d).Got? ==> ShortStack(ReadStack(d).value) { StackInLimits(d); }
      ListHolds(ReadStack, ShortStack, |ins.value|, outs.rest);
      var tx := Parse(data).value.tx;
      assert forall o :: o in tx.outputs ==> Payable(o);
      assert forall w :: w in tx.witnesses ==> ShortStack(w);
    }
  }

  lemma StackInLimits(d: Data)
    ensures ReadStack(d).Got? ==> ShortStack(ReadStack(d).value)
  {
  }

  /** What the limited list readers accept is what they were written from. */
  lemma ListsReadBack(tx: Tx, t: Data)
    ensures var r := ReadCounted(false, MAX_INPUTS, ReadInput, SerBody(tx) + t);
            r.Got? ==> r == Got(tx.inputs, Counted(SerOutput, tx.outputs) + t)
    ensures var r := ReadCounted(false, MAX_OUTPUTS, ReadOutput, Counted(SerOutput, tx.outputs) + t);
            r.Got? ==> r == Got(tx.outputs, t)
  {
    hide ReadInput, SerBody, Counted, ReadCounted, ReadAnyOutput;
    AnyListsRoundTrip(tx, t);
    CountedWeaker(false, MAX_INPUTS, NO_LIMIT, ReadInput, ReadInput, SerBody(tx) + t);
    forall d ensures ReadOutput(d).Got? ==> ReadAnyOutput(d) == ReadOutput(d) {}
    CountedWeaker(false, MAX_OUTPUTS, NO_LIMIT, ReadOutput, ReadAnyOutput, Counted(SerOutput, tx.outputs) + t);
  }

  lemma StackWeaker(d: Data)
    ensures ReadStack(d).Got? ==> ReadAnyStack(d) == ReadStack(d)
  {
    hide ReadItem;
    CountedWeaker(false, MAX_WITNESS_STACK_ITEMS, NO_LIMIT, ReadItem, ReadItem, d);
  }

  lemma WitnessesReadBack(tx: Tx, t: Data)
    ensures var r := ReadList(ReadStack, |tx.witnesses|, Join(SerStack, tx.witnesses) + t);
            r.Got? ==> r == Got(tx.witnesses, t)
  {
    hide ReadStack, ReadAnyStack, SerStack;
    forall w, t ensures ReadAnyStack(SerStack(w) + t) == Got(w, t) { AnyStackRoundTrip(w, t); }
    ListRoundTrip(ReadAnyStack, SerStack, tx.witnesses, t);
    forall d ensures ReadStack(d).Got? ==> ReadAnyStack(d) == ReadStack(d) { StackWeaker(d); }
    ListWeaker(ReadStack, ReadAnyStack, |tx.witnesses|, Join(SerStack, tx.witnesses) + t);
  }

  lemma MarkedReadBack(tx: Tx)
    requires HasWitness(tx) && |tx.witnesses| == |tx.inputs|
    ensures var r := Parse(Serialize(tx));
            r.Got? ==>
              r.value.tx.inputs == tx.inputs && r.value.tx.outputs == tx.outputs && r.value.tx.witnesses == tx.witnesses
  {
    hide SerBody, Le4, Join, ReadWord32, ReadCounted, Marked, Counted, ReadList;
    var d4 := Le4(tx.locktime);
    var d3 := Join(SerStack, tx.witnesses) + d4;
    var d2 := [0, 1] + (SerBody(tx) + d3);
    MarkerFirst(SerBody(tx) + d3);
    Word32RoundTrip(tx.version, d2);
    ListsReadBack(tx, d3);
    WitnessesReadBack(tx, d4);
  }

  lemma MarkerFirst(d: Data)
    ensures Marked([0, 1] + d) && ([0, 1] + d)[2..] == d
  {
  }

  lemma UnmarkedReadBack(tx: Tx)
    requires !HasWitness(tx) && !LooksMarked(tx)
    ensures var r := Parse(Serialize(tx)); r.Got? ==> r.value.tx.inputs == tx.inputs && r.value.tx.outputs == tx.outputs
  {
    hide SerBody, Le4, ReadWord32, ReadCounted, Marked, Counted;
    var d3 := Le4(tx.locktime);
    Word32RoundTrip(tx.version, SerBody(tx) + d3);
    BodyMarked(tx, d3);
    ListsReadBack(tx, d3);
  }

  /** Beyond its limits the parser refuses. */
  lemma BeyondLimits(tx: Tx)
    requires !InLimits(tx) && !LooksMarked(tx) && (HasWitness(tx) ==> |tx.witnesses| == |tx.inputs|)
    ensures Parse(Serialize(tx)).Fail?
  {
    hide Parse, Serialize;
    ParsedInLimits(Serialize(tx));
    if HasWitness(tx) { MarkedReadBack(tx); } else { UnmarkedReadBack(tx); }
  }

  /** Parsing the serialization of a transaction gives it back exactly when it is within the parser's limits
      and does not have one output and no input; beyond the limits it is refused. */
  lemma TransactionRoundTrip(tx: Tx)
    requires HasWitness(tx) ==> |tx.witnesses| == |tx.inputs|
    ensures Parse(Serialize(tx)) == Got(Normal(tx), []) <==> InLimits(tx) && !LooksMarked(tx)
    ensures !InLimits(tx) && !LooksMarked(tx) ==> Parse(Serialize(tx)).Fail?
  {
    hide Parse, Serialize;
    if LooksMarked(tx) {
      ParseMarkedAnyway(tx);
    } else if InLimits(tx) {
      if HasWitness(tx) { ParseMarked(tx); } else { ParseUnmarked(tx); }
    } else {
      BeyondLimits(tx);
    }
  }

  // ---- transaction ids ----

  function Reversed(d: Data): (r: Data) {
    seq(|d|, i requires 0 <= i < |d| => d[|d| - 1 - i])
  }

  /** The same number, read from the other end. */
  lemma {:induction false} ReversedReads(d: Data)
    ensures |Reversed(d)| == |d| && BigEndian(Reversed(d)) == FromLe(d)
  {
    if d != [] {
      ReversedReads(d[1..]);
      var r := Reversed(d);
      assert r[..|d| - 1] == Reversed(d[1..]) && r[|d| - 1] == d[0];
    }
  }

  function GetTxid(hash: Data -> Data, data: Data): (r: Option<Data>) {
    match Parse(data)
    case Fail => None
    case Got(p, _) => Some(Reversed(hash(Serialize(Stripped(p.tx)))))
  }

  /** The id shows the hash of the transaction without witnesses as a number, highest byte first. */
  lemma TxidShowsHash(hash: Data -> Data, data: Data)
    ensures GetTxid(hash, data).Some? <==> Parse(data).Got?
    ensures Parse(data).Got? ==>
            var h, id := hash(Serialize(Stripped(Parse(data).value.tx))), GetTxid(hash, data).value;
            |id| == |h| && BigEndian(id) == FromLe(h)
  {
    hide Parse, Serialize;
    if Parse(data).Got? { ReversedReads(hash(Serialize(Stripped(Parse(data).value.tx)))); }
  }

  lemma StrippedSame(tx: Tx)
    requires !HasWitness(tx)
    ensures Serialize(tx) == Serialize(Stripped(tx)) && !HasWitness(Stripped(tx))
  {
    hide Counted;
  }

  /** The id does not depend on the witnesses, if and only if they do not take the transaction beyond the parser's
      limits; within the limits it hashes the serialization without them. */
  lemma TxidIgnoresWitnesses(hash: Data -> Data, tx: Tx)
    requires HasWitness(tx) ==> |tx.witnesses| == |tx.inputs|
    ensures GetTxid(hash, Serialize(tx)) == GetTxid(hash, Serialize(Stripped(tx)))
            <==> (InLimits(Stripped(tx)) ==> InLimits(tx))
    ensures InLimits(tx) && !LooksMarked(tx) ==>
            GetTxid(hash, Serialize(tx)) == Some(Reversed(hash(Serialize(Stripped(tx)))))
  {
    hide Parse, Serialize, Reversed;
    if HasWitness(tx) {
      TransactionRoundTrip(tx);
      TransactionRoundTrip(Stripped(tx));
    } else {
      StrippedSame(tx);
      if InLimits(tx) && !LooksMarked(tx) { ParseUnmarked(tx); }
    }
  }
}
