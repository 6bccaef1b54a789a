/** A broadcast with its cascade of failed sends, one sender after the other.

    A failed write removes its target, the removal broadcasts a disconnect, whose writes may fail in turn.
    The writes are numbered; `ok(k)` is the outcome of write `k`. */
module Cascade {
  import opened Types
  import opened PeerRegistry
  import opened Directory
  import opened Protocol

  datatype Write = Write(target: Gen, ok: bool)

  /** The targets of failed writes. */
  function Failed(log: seq<Write>): (dead: set<Gen>) {
    set w | w in log && !w.ok :: w.target
  }

  /** Every generation in `sent` was written to. */
  ghost predicate Wrote(log: seq<Write>, sent: seq<Gen>) {
    forall g :: g in sent ==> exists i :: 0 <= i < |log| && log[i].target == g
  }

  predicate Serves(d: Dir, g: Gen) {
    Live(d, g) && IsHandshaked(d.reg, g.nick)
  }

  ghost predicate Ready(d: Dir) {
    MapsAgree(d) && (forall n :: n in d.reg.owners ==> d.reg.owners[n].conn in d.pool)
  }

  predicate KeptAt(d: Dir, d': Dir, dead: set<Gen>, n: Nick) {
    && (n in d'.reg.owners <==> n in d.reg.owners && Gen(n, d.reg.owners[n].conn) !in dead)
    && (n in d'.reg.owners && n in d.reg.owners ==>
          && d'.reg.owners[n] == d.reg.owners[n]
          && d.reg.owners[n].conn in d.reg.infos && d.reg.owners[n].conn in d'.reg.infos
          && d'.reg.infos[d.reg.owners[n].conn] == d.reg.infos[d.reg.owners[n].conn])
  }

  /** Exactly the generations `dead` have lost their nick; all other owners are as they were. */
  ghost predicate Kept(d: Dir, d': Dir, dead: set<Gen>) {
    (forall n :: KeptAt(d, d', dead, n)) && (forall g :: g in dead ==> Live(d, g))
  }

  /** `log` holds the outcomes of the writes `k`, `k + 1`, ... */
  ghost predicate Records(log: seq<Write>, k: nat, ok: nat -> bool) {
    forall i :: 0 <= i < |log| ==> log[i].ok == ok(k + i)
  }

  lemma KeptTrans(d0: Dir, d1: Dir, d2: Dir, log1: seq<Write>, log2: seq<Write>)
    requires Kept(d0, d1, Failed(log1)) && Kept(d1, d2, Failed(log2))
    ensures Kept(d0, d2, Failed(log1 + log2))
  {
    assert Failed(log1 + log2) == Failed(log1) + Failed(log2);
    forall n ensures KeptAt(d0, d2, Failed(log1 + log2), n) {
      assert KeptAt(d0, d1, Failed(log1), n) && KeptAt(d1, d2, Failed(log2), n);
    }
    forall g | g in Failed(log2) ensures Live(d0, g) { assert KeptAt(d0, d1, Failed(log1), g.nick); }
  }

  lemma RemoveKept(d: Dir, g: Gen)
    requires Ready(d) && Live(d, g)
    ensures Kept(d, RemoveGen(d, g), {g}) && Ready(RemoveGen(d, g))
    ensures |RemoveGen(d, g).reg.peers| < |d.reg.peers|
  {
    RemoveKeepsMaps(d, g);
    MapRemoveCard(d.reg.peers, g.nick);
  }

  lemma CloseKept(d: Dir, g: Gen)
    requires Ready(d) && (forall n :: n in d.reg.owners ==> d.reg.owners[n].conn != g.conn)
    ensures Kept(d, CloseConn(d, g.conn), {}) && Ready(CloseConn(d, g.conn))
  {
  }

  // ---- the broadcast loop ----

  predicate Wanted(g: Gen, skip: Skip) {
    g.nick != skip.nick && (skip.conn.Some? ==> g.conn != skip.conn.value)
  }

  ghost predicate Distinct<T>(xs: seq<T>) {
    forall i, j :: 0 <= i < j < |xs| ==> xs[i] != xs[j]
  }

  /** Every owner outside `skip` that is served in `d'` has been sent to, once; nobody else has. */
  ghost predicate SentAll(d: Dir, d': Dir, skip: Skip, sent: seq<Gen>) {
    && Distinct(sent)
    && (forall g :: Serves(d', g) && Wanted(g, skip) ==> g in sent)
    && (forall g :: g in sent ==> Serves(d, g) && Wanted(g, skip))
  }

  method ListKeys(keys: set<Nick>) returns (order: seq<Nick>)
    ensures Lists(order, keys)
  {
    order := [];
    var left := keys;
    while left != {}
      invariant left <= keys && Lists(order, keys - left)
      decreases left
    {
      var n :| n in left;
      left := left - {n};
      order := order + [n];
    }
    assert keys - left == keys;
  }

  /** The items of the registry as generations, each once. */
  lemma {:induction false} SnapshotItems(d: Dir, order: seq<Nick>)
    requires MapsAgree(d) && (forall i, j :: 0 <= i < j < |order| ==> order[i] != order[j])
    ensures var items := Snapshot(d.reg, order);
            && (forall g :: g in items <==> Live(d, g) && g.nick in order)
            && Distinct(items)
  {
    if order != [] {
      SnapshotItems(d, order[1..]);
      assert order == [order[0]] + order[1..];
    }
  }

  lemma ServesBefore(d: Dir, d': Dir, dead: set<Gen>, g: Gen)
    requires Kept(d, d', dead) && MapsAgree(d) && MapsAgree(d')
    ensures Serves(d', g) <==> Serves(d, g) && g !in dead
  {
    assert KeptAt(d, d', dead, g.nick);
  }

  /** What any part of a cascade does: exactly the targets of its failed writes are gone. */
  ghost predicate After(d: Dir, d': Dir, log: seq<Write>, k: nat, ok: nat -> bool) {
    && Ready(d) && Ready(d')
    && Kept(d, d', Failed(log)) && Records(log, k, ok)
    && |d'.reg.peers| <= |d.reg.peers|
  }

  lemma AfterNothing(d: Dir, k: nat, ok: nat -> bool)
    requires Ready(d)
    ensures After(d, d, [], k, ok)
  {
    assert Failed([]) == {};
  }

  lemma AfterBoth(d0: Dir, d1: Dir, d2: Dir, log1: seq<Write>, log2: seq<Write>, k: nat, ok: nat -> bool)
    requires After(d0, d1, log1, k, ok) && After(d1, d2, log2, k + |log1|, ok)
    ensures After(d0, d2, log1 + log2, k, ok)
    ensures forall g :: Serves(d2, g) ==> Serves(d1, g)
    ensures forall g :: Serves(d1, g) ==> Serves(d0, g)
  {
    KeptTrans(d0, d1, d2, log1, log2);
    forall g | Serves(d2, g) ensures Serves(d1, g) { ServesBefore(d1, d2, Failed(log2), g); }
    forall g | Serves(d1, g) ensures Serves(d0, g) { ServesBefore(d0, d1, Failed(log1), g); }
  }

  lemma AfterSuccess(d: Dir, g: Gen, k: nat, ok: nat -> bool)
    requires Ready(d) && ok(k)
    ensures After(d, d, [Write(g, true)], k, ok)
  {
    assert Failed([Write(g, true)]) == {};
  }

  lemma AfterRemoval(d: Dir, g: Gen, k: nat, ok: nat -> bool)
    requires Ready(d) && Serves(d, g) && !ok(k)
    ensures After(d, RemoveGen(d, g), [Write(g, false)], k, ok)
    ensures |RemoveGen(d, g).reg.peers| < |d.reg.peers|
  {
    assert Failed([Write(g, false)]) == {g};
    RemoveKept(d, g);
    hide RemoveGen;
  }

  lemma AfterClose(d: Dir, d': Dir, g: Gen, log: seq<Write>, k: nat, ok: nat -> bool)
    requires After(d, d', log, k, ok) && Serves(d, g) && Write(g, false) in log
    ensures After(d, CloseConn(d', g.conn), log, k, ok)
  {
    assert g in Failed(log);
    GoneStaysGone(d, d', g, log);
    CloseKept(d', g);
    assert Failed([]) == {} && log + [] == log;
    KeptTrans(d, d', CloseConn(d', g.conn), log, []);
  }

  lemma GoneStaysGone(d: Dir, d': Dir, g: Gen, log: seq<Write>)
    requires MapsAgree(d) && Live(d, g) && Kept(d, d', Failed(log)) && g in Failed(log)
    ensures forall n :: n in d'.reg.owners ==> d'.reg.owners[n].conn != g.conn
  {
    forall n | n in d'.reg.owners ensures d'.reg.owners[n].conn != g.conn {
      assert KeptAt(d, d', Failed(log), n);
      if d'.reg.owners[n].conn == g.conn { OwnersAreInjective(d, n, g.nick); }
    }
  }

  /** `_safe_send`: a write to a served generation; a failure removes it and announces that. */
  method SafeSend(d: Dir, g: Gen, size: nat, k: nat, ok: nat -> bool) returns (d': Dir, log: seq<Write>)
    requires Ready(d)
    ensures After(d, d', log, k, ok)
    ensures if Serves(d, g) then log != [] && log[0] == Write(g, ok(k)) else log == []
    decreases |d.reg.peers|, 0
  {
    hide Ready, After, Serves, RemoveGen, SentAll;
    if !Serves(d, g) {
      AfterNothing(d, k, ok);
      return d, [];
    }
    log := [Write(g, ok(k))];
    if ok(k) {
      AfterSuccess(d, g, k, ok);
      return d, log;
    }
    AfterRemoval(d, g, k, ok);
    var d1 := RemoveGen(d, g);
    AfterReady(d, d1, log, k, ok);
    var d2, more, sent := Broadcast(d1, Skip(g.nick, Some(g.conn)), size, k + 1, ok);
    AfterBoth(d, d1, d2, log, more, k, ok);
    log := log + more;
    AfterClose(d, d2, g, log, k, ok);
    d' := CloseConn(d2, g.conn);
  }

  lemma AfterReady(d: Dir, d': Dir, log: seq<Write>, k: nat, ok: nat -> bool)
    requires After(d, d', log, k, ok)
    ensures Ready(d') && |d'.reg.peers| <= |d.reg.peers|
  {
  }

  lemma WroteNothing()
    ensures Wrote([], [])
  {
  }

  lemma WroteBoth(log: seq<Write>, sent: seq<Gen>, more: seq<Write>, part: seq<Gen>)
    requires Wrote(log, sent)
    requires Wrote(more, part) || (exists g :: part == [g] && more != [] && more[0].target == g) || part == []
    ensures Wrote(log + more, sent + part)
  {
    forall g | g in sent + part ensures exists i :: 0 <= i < |log + more| && (log + more)[i].target == g {
      if g in sent {
        var i :| 0 <= i < |log| && log[i].target == g;
        assert (log + more)[i].target == g;
      } else {
        assert g in part;
        var i :| 0 <= i < |more| && more[i].target == g;
        assert (log + more)[|log| + i].target == g;
      }
    }
  }

  /** The senders of one batch, in turn. */
  method SendBatch(d: Dir, batch: seq<Gen>, size: nat, k: nat, ok: nat -> bool)
      returns (d': Dir, log: seq<Write>, sent: seq<Gen>)
    requires Ready(d)
    ensures After(d, d', log, k, ok)
    ensures forall g :: g in sent ==> g in batch && Serves(d, g)
    ensures forall g :: g in batch && Serves(d', g) ==> g in sent
    ensures Distinct(batch) ==> Distinct(sent)
    ensures Wrote(log, sent)
    decreases |d.reg.peers|, 1
  {
    hide Ready, After, Serves, Wrote;
    d', log, sent := d, [], [];
    WroteNothing();
    AfterNothing(d, k, ok);
    for i := 0 to |batch|
      invariant After(d, d', log, k, ok)
      invariant forall g :: Serves(d', g) ==> Serves(d, g)
      invariant forall g :: g in sent ==> g in batch[..i] && Serves(d, g)
      invariant forall g :: g in batch[..i] && Serves(d', g) ==> g in sent
      invariant Distinct(batch) ==> Distinct(sent)
      invariant Wrote(log, sent)
    {
      var g := batch[i];
      AfterReady(d, d', log, k, ok);
      var d1, more := SafeSend(d', g, size, k + |log|, ok);
      AfterBoth(d, d', d1, log, more, k, ok);
      var one := if Serves(d', g) then [g] else [];
      WroteBoth(log, sent, more, one);
      sent := sent + one;
      d', log := d1, log + more;
      assert batch[..i + 1] == batch[..i] + [g];
    }
    assert batch[..|batch|] == batch;
  }

  lemma YieldsServed(d: Dir, g: Gen, skip: Skip)
    requires MapsAgree(d) && Live(d, g)
    ensures Yields(d.reg, g, skip) <==> Serves(d, g) && Wanted(g, skip)
  {
  }

  lemma GoneYieldsNot(d: Dir, d': Dir, log: seq<Write>, k: nat, ok: nat -> bool, g: Gen, skip: Skip)
    requires After(d, d', log, k, ok) && Live(d, g)
    ensures Yields(d'.reg, g, skip) <==> Serves(d', g) && Wanted(g, skip)
    ensures Serves(d', g) ==> Serves(d, g)
  {
    assert KeptAt(d, d', Failed(log), g.nick);
    if g.nick in d'.reg.owners { YieldsServed(d', g, skip); }
    ServesBefore(d, d', Failed(log), g);
  }

  /** Of the items `done`, those still served are sent to or in the batch. */
  ghost predicate Walked(d: Dir, d': Dir, skip: Skip, done: seq<Gen>, sent: seq<Gen>, batch: seq<Gen>) {
    && Distinct(sent + batch)
    && (forall g :: g in sent + batch ==> g in done && Serves(d, g) && Wanted(g, skip))
    && (forall g :: g in done && Serves(d', g) && Wanted(g, skip) ==> g in sent + batch)
  }

  lemma WalkItem(d: Dir, d': Dir, skip: Skip, done: seq<Gen>, sent: seq<Gen>, batch: seq<Gen>, g: Gen)
    requires Walked(d, d', skip, done, sent, batch) && g !in done && (Serves(d', g) ==> Serves(d, g))
    ensures Walked(d, d', skip, done + [g], sent, if Serves(d', g) && Wanted(g, skip) then batch + [g] else batch)
  {
    assert sent + (batch + [g]) == (sent + batch) + [g];
    hide Serves, Wanted;
  }

  lemma WalkFlush(d: Dir, d': Dir, d1: Dir, skip: Skip, done: seq<Gen>, sent: seq<Gen>, batch: seq<Gen>, part: seq<Gen>)
    requires Walked(d, d', skip, done, sent, batch) && (Distinct(batch) ==> Distinct(part))
    requires forall g :: Serves(d1, g) ==> Serves(d', g)
    requires forall g :: g in part ==> g in batch
    requires forall g :: g in batch && Serves(d1, g) ==> g in part
    ensures Walked(d, d1, skip, done, sent + part, [])
  {
    hide Serves, Wanted;
    assert (sent + part) + [] == sent + part;
    forall i, j | 0 <= i < j < |batch| ensures batch[i] != batch[j] {
      assert (sent + batch)[|sent| + i] != (sent + batch)[|sent| + j];
    }
    forall i, j | 0 <= i < |sent| && 0 <= j < |part| ensures sent[i] != part[j] {
      assert part[j] in batch;
      var b :| 0 <= b < |batch| && batch[b] == part[j];
      assert (sent + batch)[i] != (sent + batch)[|sent| + b];
    }
    forall i, j | 0 <= i < j < |sent| ensures sent[i] != sent[j] { assert (sent + batch)[i] != (sent + batch)[j]; }
  }

  /** Send the batch and go on with an empty one. */
  method Flush(d: Dir, dNow: Dir, log: seq<Write>, skip: Skip, ghost done: seq<Gen>, sent: seq<Gen>, batch: seq<Gen>,
      size: nat, k: nat, ok: nat -> bool)
    returns (d': Dir, log': seq<Write>, sent': seq<Gen>)
    requires After(d, dNow, log, k, ok) && Walked(d, dNow, skip, done, sent, batch) && Wrote(log, sent)
    ensures After(d, d', log', k, ok) && Walked(d, d', skip, done, sent', []) && Wrote(log', sent')
    decreases |d.reg.peers|, 2
  {
    AfterReady(d, dNow, log, k, ok);
    hide After, Ready, Serves, Walked, Distinct, Wrote;
    var d1, more, part := SendBatch(dNow, batch, size, k + |log|, ok);
    AfterBoth(d, dNow, d1, log, more, k, ok);
    WalkFlush(d, dNow, d1, skip, done, sent, batch, part);
    WroteBoth(log, sent, more, part);
    return d1, log + more, sent + part;
  }

  lemma WholeSnapshot(d: Dir, order: seq<Nick>)
    requires Ready(d) && Lists(order, d.reg.peers.Keys)
    ensures Distinct(Snapshot(d.reg, order)) && (forall g :: g in Snapshot(d.reg, order) <==> Live(d, g))
  {
    SnapshotItems(d, order);
    hide Snapshot;
  }

  /** `_batched_broadcast_iter` over the registered peers outside `skip`. */
  method Broadcast(d: Dir, skip: Skip, size: nat, k: nat, ok: nat -> bool)
      returns (d': Dir, log: seq<Write>, sent: seq<Gen>)
    requires Ready(d)
    ensures After(d, d', log, k, ok) && SentAll(d, d', skip, sent) && Wrote(log, sent)
    decreases |d.reg.peers|, 3
  {
    hide Ready, After, Snapshot, Yields, Serves, Walked, Wanted, Lists, Wrote, Live, SentAll;
    var order := ListKeys(d.reg.peers.Keys);
    var items := Snapshot(d.reg, order);
    WholeSnapshot(d, order);
    AfterNothing(d, k, ok);
    d', log, sent := d, [], [];
    var batch: seq<Gen> := [];
    WalkNothing(d, skip);
    WroteNothing();
    for i := 0 to |items|
      invariant After(d, d', log, k, ok) && Walked(d, d', skip, items[..i], sent, batch) && Wrote(log, sent)
    {
      var g := items[i];
      GoneYieldsNot(d, d', log, k, ok, g, skip);
      WalkItem(d, d', skip, items[..i], sent, batch, g);
      assert items[..i + 1] == items[..i] + [g];
      if Yields(d'.reg, g, skip) { batch := batch + [g]; }
      if |batch| >= size {
        d', log, sent := Flush(d, d', log, skip, items[..i + 1], sent, batch, size, k, ok);
        batch := [];
      }
    }
    assert items[..|items|] == items;
    if batch != [] {
      d', log, sent := Flush(d, d', log, skip, items, sent, batch, size, k, ok);
    }
    WalkedAll(d, d', log, k, ok, skip, items, sent);
  }

  lemma WalkNothing(d: Dir, skip: Skip)
    ensures Walked(d, d, skip, [], [], [])
  {
  }

  lemma WalkedAll(d: Dir, d': Dir, log: seq<Write>, k: nat, ok: nat -> bool, skip: Skip, items: seq<Gen>,
      sent: seq<Gen>)
    requires After(d, d', log, k, ok) && Walked(d, d', skip, items, sent, []) && (forall g :: Live(d, g) ==> g in items)
    ensures SentAll(d, d', skip, sent)
  {
    assert sent + [] == sent;
    forall g | Serves(d', g) ensures Serves(d, g) { ServesBefore(d, d', Failed(log), g); }
  }
}
