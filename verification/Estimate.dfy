/** The size estimate made before signing, against the size of the signed transaction. */
module Estimate {
  import opened Types
  import opened Wire
  import opened Transactions
  import opened VirtualSize

  const BASE_WEIGHT: nat := 42

  function InputWeight(kind: string): (w: nat) {
    if kind == "p2wpkh" then 41 * 4 + 108
    else if kind == "p2wsh" then 41 * 4 + 118
    else if kind == "p2tr" then 41 * 4 + 66
    else 272
  }

  function OutputWeight(kind: string): (w: nat) {
    if kind == "p2wpkh" then 31 * 4
    else if kind == "p2wsh" then 43 * 4
    else if kind == "p2tr" then 43 * 4
    else if kind == "p2pkh" then 34 * 4
    else if kind == "p2sh" then 32 * 4
    else 124
  }

  function EstimatedWeight(inputs: seq<string>, outputs: seq<string>): (w: nat) {
    BASE_WEIGHT + SumBy(InputWeight, inputs) + SumBy(OutputWeight, outputs)
  }

  /** `estimate_vsize`. */
  method EstimateVsize(inputs: seq<string>, outputs: seq<string>) returns (vsize: nat)
    ensures vsize == Quarters(EstimatedWeight(inputs, outputs))
  {
    hide InputWeight, OutputWeight;
    var weight := BASE_WEIGHT;
    for i := 0 to |inputs|
      invariant weight == BASE_WEIGHT + SumBy(InputWeight, inputs[..i])
    {
      SumNext(InputWeight, inputs, i);
      weight := weight + InputWeight(inputs[i]);
    }
    assert inputs[..|inputs|] == inputs;
    for i := 0 to |outputs|
      invariant weight == BASE_WEIGHT + SumBy(InputWeight, inputs) + SumBy(OutputWeight, outputs[..i])
    {
      SumNext(OutputWeight, outputs, i);
      weight := weight + OutputWeight(outputs[i]);
    }
    assert outputs[..|outputs|] == outputs;
    return (weight + 3) / 4;
  }

  lemma SumNext(f: string -> nat, xs: seq<string>, i: nat)
    requires i < |xs|
    ensures SumBy(f, xs[..i + 1]) == SumBy(f, xs[..i]) + f(xs[i])
  {
    SumAppend(f, xs[..i], [xs[i]]);
    assert xs[..i + 1] == xs[..i] + [xs[i]];
    assert SumBy(f, [xs[i]]) == f(xs[i]) + SumBy(f, []);
  }

  // ---- what the kinds stand for ----

  /** A signed input of the kind: a compressed key, a bond script of at most 43 bytes, or a key path. */
  predicate Spends(kind: string, i: TxInput, w: List<Blob>) {
    i.scriptSig == [] &&
    if kind == "p2wpkh" then |w| == 2 && |w[0]| <= 72 && |w[1]| == 33
    else if kind == "p2wsh" then |w| == 2 && |w[0]| <= 72 && |w[1]| <= 43
    else kind == "p2tr" && |w| == 1 && |w[0]| <= 64
  }

  predicate Pays(kind: string, o: TxOutput) {
    if kind == "p2wpkh" then |o.script| == 22
    else if kind == "p2wsh" then |o.script| == 34
    else if kind == "p2tr" then |o.script| == 34
    else if kind == "p2pkh" then |o.script| == 25
    else kind == "p2sh" && |o.script| == 23
  }

  /** Signatures and scripts are as long as they can be. */
  predicate Longest(kind: string, w: List<Blob>) {
    if kind == "p2wpkh" then |w| == 2 && |w[0]| == 72
    else if kind == "p2wsh" then |w| == 2 && |w[0]| == 72 && |w[1]| == 43
    else |w| == 1 && |w[0]| == 64
  }

  ghost predicate AllSpend(kinds: seq<string>, ins: seq<TxInput>, ws: seq<List<Blob>>) {
    |kinds| == |ins| == |ws| && forall i :: 0 <= i < |kinds| ==> Spends(kinds[i], ins[i], ws[i])
  }

  ghost predicate AllPay(kinds: seq<string>, outs: seq<TxOutput>) {
    |kinds| == |outs| && forall i :: 0 <= i < |kinds| ==> Pays(kinds[i], outs[i])
  }

  ghost predicate AllLongest(kinds: seq<string>, ws: seq<List<Blob>>) {
    |kinds| == |ws| && forall i :: 0 <= i < |kinds| ==> Longest(kinds[i], ws[i])
  }

  lemma PrefixedLength(b: Blob)
    requires |b| <= 252
    ensures |Prefixed(b)| == 1 + |b|
  {
  }

  lemma StackLength(w: List<Blob>)
    requires 1 <= |w| <= 2 && |w[0]| <= 252 && |w[|w| - 1]| <= 252
    ensures |SerStack(w)| == if |w| == 1 then 2 + |w[0]| else 3 + |w[0]| + |w[1]|
  {
    PrefixedLength(w[0]);
    PrefixedLength(w[|w| - 1]);
    assert Join(Prefixed, w) == Prefixed(w[0]) + Join(Prefixed, w[1..]);
    if |w| == 2 { assert Join(Prefixed, w[1..]) == Prefixed(w[1]) + Join(Prefixed, w[1..][1..]); }
    hide Prefixed;
  }

  lemma InputLength(i: TxInput)
    requires i.scriptSig == []
    ensures |SerInput(i)| == 41
  {
    PrefixedLength([]);
    hide Le4, Prefixed;
  }

  lemma SpendWeight(kind: string, i: TxInput, w: List<Blob>)
    requires Spends(kind, i, w)
    ensures 4 * |SerInput(i)| + |SerStack(w)| <= InputWeight(kind)
    ensures Longest(kind, w) ==> 4 * |SerInput(i)| + |SerStack(w)| == InputWeight(kind)
  {
    InputLength(i);
    StackLength(w);
    hide SerInput, SerStack;
  }

  lemma PayWeight(kind: string, o: TxOutput)
    requires Pays(kind, o)
    ensures 4 * |SerOutput(o)| == OutputWeight(kind)
  {
    PrefixedLength(o.script);
    hide Le8, Prefixed;
  }

  lemma {:induction false} InputsWeight(kinds: seq<string>, ins: seq<TxInput>, ws: seq<List<Blob>>)
    requires AllSpend(kinds, ins, ws)
    ensures 4 * |Join(SerInput, ins)| + |Join(SerStack, ws)| <= SumBy(InputWeight, kinds)
    ensures AllLongest(kinds, ws) ==> 4 * |Join(SerInput, ins)| + |Join(SerStack, ws)| == SumBy(InputWeight, kinds)
  {
    hide SerInput, SerStack, Spends, Longest, InputWeight;
    if kinds != [] {
      SpendWeight(kinds[0], ins[0], ws[0]);
      InputsWeight(kinds[1..], ins[1..], ws[1..]);
    }
  }

  lemma {:induction false} OutputsWeight(kinds: seq<string>, outs: seq<TxOutput>)
    requires AllPay(kinds, outs)
    ensures 4 * |Join(SerOutput, outs)| == SumBy(OutputWeight, kinds)
  {
    hide SerOutput, Pays, OutputWeight;
    if kinds != [] {
      PayWeight(kinds[0], outs[0]);
      OutputsWeight(kinds[1..], outs[1..]);
    }
  }

  lemma WeightOf(tx: Tx)
    requires |tx.inputs| <= 252 && |tx.outputs| <= 252
    ensures Bip141Weight(tx) == 40 + 4 * |Join(SerInput, tx.inputs)| + 4 * |Join(SerOutput, tx.outputs)|
                                + if HasWitness(tx) then 2 + |Join(SerStack, tx.witnesses)| else 0
  {
    SameBody(tx);
    hide Le4, HasWitness, Join, SerInput, SerOutput, SerStack;
  }

  /** The estimate is never below the virtual size of a signed transaction of the announced kinds, and meets it
      when signatures and scripts are as long as they can be. */
  lemma EstimateIsUpperBound(tx: Tx, inputs: seq<string>, outputs: seq<string>)
    requires |tx.inputs| <= 252 && |tx.outputs| <= 252
    requires AllSpend(inputs, tx.inputs, tx.witnesses) && AllPay(outputs, tx.outputs)
    ensures Quarters(Bip141Weight(tx)) <= Quarters(EstimatedWeight(inputs, outputs))
    ensures inputs != [] && AllLongest(inputs, tx.witnesses) ==> Bip141Weight(tx) == EstimatedWeight(inputs, outputs)
  {
    WeightOf(tx);
    InputsWeight(inputs, tx.inputs, tx.witnesses);
    OutputsWeight(outputs, tx.outputs);
    if inputs != [] { assert Spends(inputs[0], tx.inputs[0], tx.witnesses[0]); }
    hide Bip141Weight, Join, SumBy;
  }
}
