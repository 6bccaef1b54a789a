/** Identifiers shared by the directory server modules. */
module Types {

  // A nick and a public key are opaque values with equality.
  type Nick(==, !new)
  type PubKey(==, !new)

  // A connection id is the index of the handler task that drew it, so it is
  // never drawn twice.
  type ConnId = nat

  datatype Option<+T> = None | Some(value: T)

  /** One connection generation of a nick. */
  datatype Gen = Gen(nick: Nick, conn: ConnId)

  /** `order` walks the set `keys` once, in some order. */
  ghost predicate Lists<T(!new)>(order: seq<T>, keys: set<T>) {
    && (forall i, j :: 0 <= i < j < |order| ==> order[i] != order[j])
    && (forall k :: k in order <==> k in keys)
  }

  lemma MapInsertCard<K, V>(m: map<K, V>, k: K, v: V)
    ensures |m[k := v]| == |m| + (if k in m then 0 else 1)
  {
    assert m[k := v].Keys == m.Keys + {k};
    assert |m[k := v]| == |m[k := v].Keys| && |m| == |m.Keys|;
    if k in m { assert m.Keys + {k} == m.Keys; }
  }

  lemma MapRemoveCard<K, V>(m: map<K, V>, k: K)
    ensures |m - {k}| == |m| - (if k in m then 1 else 0)
  {
    assert (m - {k}).Keys == m.Keys - {k};
    assert |m - {k}| == |(m - {k}).Keys| && |m| == |m.Keys|;
  }

  function SumBy<T>(f: T -> nat, xs: seq<T>): (n: nat) {
    if xs == [] then 0 else f(xs[0]) + SumBy(f, xs[1..])
  }

  lemma {:induction false} SumUpdate<T>(f: T -> nat, xs: seq<T>, i: nat, x: T)
    requires i < |xs|
    ensures SumBy(f, xs[i := x]) == SumBy(f, xs) - f(xs[i]) + f(x)
  {
    if i == 0 {
      assert xs[i := x][1..] == xs[1..];
    } else {
      SumUpdate(f, xs[1..], i - 1, x);
      assert xs[i := x][1..] == xs[1..][i - 1 := x];
    }
  }

  lemma {:induction false} SumAppend<T>(f: T -> nat, xs: seq<T>, ys: seq<T>)
    ensures SumBy(f, xs + ys) == SumBy(f, xs) + SumBy(f, ys)
  {
    if xs == [] {
      assert xs + ys == ys;
    } else {
      SumAppend(f, xs[1..], ys);
      assert (xs + ys)[1..] == xs[1..] + ys;
    }
  }

  lemma {:induction false} SumConstant<T>(f: T -> nat, xs: seq<T>, k: nat)
    requires forall x :: x in xs ==> f(x) == k
    ensures SumBy(f, xs) == k * |xs|
  {
    if xs != [] {
      assert xs[0] in xs;
      SumConstant(f, xs[1..], k);
    }
  }

  lemma Cut<T>(a: seq<T>, b: seq<T>, c: seq<T>)
    ensures var d := a + (b + c); d[..|a|] == a && d[|a|..|a| + |b|] == b && d[|a| + |b|..] == c
  {
  }

  lemma Slice<T>(d: seq<T>, i: nat, k: nat)
    requires i + k <= |d|
    ensures d[i..][..k] == d[i..i + k] && d[i..][k..] == d[i + k..]
  {
  }

  lemma Paste<T>(d: seq<T>, i: nat, j: nat)
    requires i <= j <= |d|
    ensures d == d[..i] + (d[i..j] + d[j..])
  {
  }

  lemma Assoc<T>(a: seq<T>, b: seq<T>, c: seq<T>)
    ensures a + (b + c) == (a + b) + c
  {
  }
}
