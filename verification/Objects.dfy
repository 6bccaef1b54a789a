/** The mutable objects of the directory server. Their methods change fields step by step; each is proved
    to compute the function that the transition system uses for the same operation. */
module Objects {
  import opened Types
  import opened PeerRegistry
  import opened MessageRouter
  import opened Directory
  import opened Protocol

  datatype Outcome = Accepted(displaced: Option<ConnId>) | NickConflict | RegistryFull

  class RegistryObject {
    const maxPeers: nat
    var infos: map<ConnId, PeerInfo>
    var peers: map<Nick, ConnId>
    var owners: map<Nick, Owner>

    ghost function Model(): (r: Registry)
      reads this
    {
      Registry(maxPeers, infos, peers, owners)
    }

    constructor (maxPeers: nat)
      ensures Model() == Registry(maxPeers, map[], map[], map[])
    {
      this.maxPeers := maxPeers;
      infos, peers, owners := map[], map[], map[];
    }

    method DropEntry(n: Nick)
      modifies `peers, `owners
      ensures Model() == Remove(old(Model()), n)
    {
      if n in peers {
        peers := peers - {n};
        owners := owners - {n};
      }
    }

    method Register(c: ConnId, info: PeerInfo, key: Option<PubKey>, now: int) returns (res: Outcome)
      modifies this
      ensures match PeerRegistry.Register(old(Model()), c, info, key, now)
              case Registered(reg, displaced) => Model() == reg && res == Accepted(displaced)
              case Conflict => Model() == old(Model()) && res == NickConflict
              case Full => Model() == old(Model()) && res == RegistryFull
    {
      var n := info.nick;
      var displaced: Option<ConnId> := None;
      if n in peers && n in owners {
        if key.None? { return NickConflict; }
        if owners[n].key.Some? && owners[n].key != key { return NickConflict; }
        displaced := Some(owners[n].conn);
      }
      if |peers| - (if displaced.Some? then 1 else 0) >= maxPeers { return RegistryFull; }
      ghost var was := Model();
      if displaced.Some? { DropEntry(n); }
      peers := peers[n := c];
      owners := owners[n := Owner(c, key)];
      infos := infos[c := info.(lastSeen := now)];
      assert peers == was.peers[n := c] && owners == was.owners[n := Owner(c, key)];
      return Accepted(displaced);
    }

    method Unregister(n: Nick, expected: Option<ConnId>) returns (removed: bool)
      modifies `peers, `owners
      ensures Model() == PeerRegistry.Unregister(old(Model()), n, expected)
      ensures removed <==> IsCurrentOwner(old(Model()), n, expected) && n in old(peers)
    {
      removed := false;
      if n in owners && (expected.None? || owners[n].conn == expected.value) {
        removed := n in peers;
        DropEntry(n);
      }
    }

    method UpdateStatus(n: Nick, status: Status, expected: Option<ConnId>, now: int) returns (updated: bool)
      modifies `infos
      ensures Model() == PeerRegistry.UpdateStatus(old(Model()), n, status, expected, now)
      ensures updated <==> IsCurrentOwner(old(Model()), n, expected) && Known(old(Model()), n)
    {
      updated := n in owners && (expected.None? || owners[n].conn == expected.value) && n in peers && peers[n] in infos;
      if updated {
        var p := infos[peers[n]].(status := status);
        if !status.Disconnected? { p := p.(lastSeen := now); }
        infos := infos[peers[n] := p];
      }
    }

    method UpdateLastSeen(n: Nick, expected: Option<ConnId>, now: int) returns (updated: bool)
      modifies `infos
      ensures Model() == PeerRegistry.UpdateLastSeen(old(Model()), n, expected, now)
      ensures updated <==> IsCurrentOwner(old(Model()), n, expected) && Known(old(Model()), n)
    {
      updated := n in owners && (expected.None? || owners[n].conn == expected.value) && n in peers && peers[n] in infos;
      if updated { infos := infos[peers[n] := infos[peers[n]].(lastSeen := now)]; }
    }

    /** `order` is the order in which the dictionary is walked. */
    method GetPeersIdleSince(order: seq<Nick>, cutoff: int) returns (idle: seq<Idler>)
      ensures idle == IdleSince(Model(), order, cutoff)
    {
      idle := [];
      for i := 0 to |order|
        invariant idle + IdleSince(Model(), order[i..], cutoff) == IdleSince(Model(), order, cutoff)
      {
        var n := order[i];
        assert order[i..] == [n] + order[i + 1..];
        if n in owners && n in peers && peers[n] in infos && infos[peers[n]].status.Handshaked?
          && infos[peers[n]].lastSeen < cutoff {
          idle := idle + [Idler(Gen(n, owners[n].conn), infos[peers[n]].lastSeen)];
        }
      }
    }
  }

  // ---- the router ----

  predicate IsOfferCommand(word: string) {
    word in ["!absorder", "!absoffer", "!reloffer", "!relorder",
             "sw0absorder", "sw0absoffer", "sw0reloffer", "sw0relorder",
             "tr0absorder", "tr0absoffer", "tr0reloffer", "tr0relorder"]
  }

  predicate IsDecimal(word: string) {
    word != "" && forall i :: 0 <= i < |word| ==> '0' <= word[i] <= '9'
  }

  /** What a public message with these words does to the offer table. */
  function Classify(words: seq<string>): (kind: PubKind) {
    if |words| >= 2 && IsOfferCommand(words[0]) then Offer(words[1])
    else if |words| == 2 && words[0] in ["cancel", "!cancel"] && IsDecimal(words[1]) then Cancel(words[1])
    else Plain
  }

  /** The second word of an accepted offer message is an offer afterwards, that of a cancellation is none, and other
      messages leave the offers. */
  lemma WordsTrack(rt: Router, g: Gen, words: seq<string>, admit: bool)
    requires BoundedOffers(rt) && admit && Accepts(rt, g, Classify(words))
    ensures var ids := OffersOf(Ingress(rt, g, Classify(words), admit), g);
            if |words| >= 2 && IsOfferCommand(words[0]) then ids == OffersOf(rt, g) + {words[1]}
            else if |words| == 2 && words[0] in ["cancel", "!cancel"] && IsDecimal(words[1])
            then ids == OffersOf(rt, g) - {words[1]}
            else ids == OffersOf(rt, g)
  {
    var ids := OffersOf(Ingress(rt, g, Classify(words), admit), g);
    forall id
      ensures id in ids <==>
              Classify(words) == Offer(id) || (id in OffersOf(rt, g) && Classify(words) != Cancel(id))
    {
      IngressTracks(rt, g, Classify(words), admit, id);
    }
    hide Ingress, IsOfferCommand, IsDecimal;
  }

  class RouterObject {
    var offers: map<Gen, set<string>>
    var buckets: set<Gen>
    var drops: map<Gen, nat>

    ghost function Model(): (rt: Router)
      reads this
    {
      Router(offers, buckets, drops)
    }

    constructor ()
      ensures Model() == Router(map[], {}, map[])
    {
      offers, buckets, drops := map[], {}, map[];
    }

    method RecordPublicDrop(g: Gen)
      modifies `drops
      ensures Model() == RecordDrop(old(Model()), g)
    {
      var count := if g in drops then drops[g] else 0;
      drops := drops[g := count + 1];
    }

    /** The part of `_handle_public_message` between the sender checks and the broadcast. */
    method TrackPublicMessage(g: Gen, words: seq<string>, admit: bool) returns (relay: bool)
      modifies this
      ensures Model() == Ingress(old(Model()), g, Classify(words), admit)
      ensures relay <==> admit && Accepts(old(Model()), g, Classify(words))
    {
      if g !in buckets { buckets := buckets + {g}; }
      assert buckets == old(buckets) + {g};
      if !admit { RecordPublicDrop(g); return false; }
      if |words| >= 1 && IsOfferCommand(words[0]) && |words| >= 2 {
        if |words[1]| > MAX_OFFER_ID_LENGTH { RecordPublicDrop(g); return false; }
        var ids := if g in offers then offers[g] else {};
        if words[1] !in ids && |ids| >= MAX_OFFERS_PER_OWNER { RecordPublicDrop(g); return false; }
        offers := offers[g := ids + {words[1]}];
      } else if |words| == 2 && words[0] in ["cancel", "!cancel"] && IsDecimal(words[1]) {
        if g in offers {
          offers := offers[g := offers[g] - {words[1]}];
          if offers[g] == {} { offers := offers - {g}; }
          assert offers == CancelOffer(old(Model()), g, words[1]).offers;
        } else {
          assert offers == offers - {g};
        }
      }
      return true;
    }

    method RemovePeerOffers(g: Gen)
      modifies this
      ensures Model() == Forget(old(Model()), g)
    {
      offers := offers - {g};
      buckets := buckets - {g};
      drops := drops - {g};
    }

    /** `get_offer_stats`: offers of the generations that are current in `reg`, and how many have any. */
    method GetOfferStats(reg: Registry) returns (total: nat, makers: nat)
      ensures total == Offered(CurrentOffers(Model(), reg))
      ensures makers == |NotEmpty(CurrentOffers(Model(), reg))|
      ensures BoundedOffers(Model()) ==>
        makers == |CurrentOffers(Model(), reg)| && makers <= total <= MAX_OFFERS_PER_OWNER * makers
    {
      hide NotEmpty, Counted, BoundedOffers;
      total, makers := 0, 0;
      var left := offers.Keys;
      NothingCounted(Model(), reg);
      while left != {}
        invariant left <= offers.Keys
        invariant total == Offered(Counted(Model(), reg, left)) && makers == |NotEmpty(Counted(Model(), reg, left))|
        decreases left
      {
        var g :| g in left;
        CountNext(Model(), reg, left, g);
        left := left - {g};
        if Current(reg, g.nick, g.conn) {
          total := total + |offers[g]|;
          if offers[g] != {} { makers := makers + 1; }
        }
      }
      AllCounted(Model(), reg);
    }
  }

  /** The current offers of the generations outside `left`. */
  ghost function Counted(rt: Router, reg: Registry, left: set<Gen>): (m: map<Gen, set<string>>) {
    map g | g in rt.offers && g !in left && Current(reg, g.nick, g.conn) :: rt.offers[g]
  }

  lemma NothingCounted(rt: Router, reg: Registry)
    ensures var m := Counted(rt, reg, rt.offers.Keys); Offered(m) == 0 && |NotEmpty(m)| == 0
  {
    assert Counted(rt, reg, rt.offers.Keys) == map[] && NotEmpty(map[]) == map[];
  }

  lemma CountNext(rt: Router, reg: Registry, left: set<Gen>, g: Gen)
    requires g in left && left <= rt.offers.Keys
    ensures var m, m' := Counted(rt, reg, left), Counted(rt, reg, left - {g});
            if Current(reg, g.nick, g.conn)
            then Offered(m') == Offered(m) + |rt.offers[g]|
              && |NotEmpty(m')| == |NotEmpty(m)| + (if rt.offers[g] == {} then 0 else 1)
            else m' == m
  {
    hide NotEmpty;
    var m := Counted(rt, reg, left);
    if Current(reg, g.nick, g.conn) {
      assert Counted(rt, reg, left - {g}) == m[g := rt.offers[g]];
      OfferedInsert(m, g, rt.offers[g]);
      NotEmptyInsert(m, g, rt.offers[g]);
    } else {
      assert Counted(rt, reg, left - {g}) == m;
    }
  }

  lemma AllCounted(rt: Router, reg: Registry)
    ensures var m := CurrentOffers(rt, reg);
            && Counted(rt, reg, {}) == m
            && (BoundedOffers(rt) ==> NotEmpty(m) == m && |m| <= Offered(m) <= MAX_OFFERS_PER_OWNER * |m|)
  {
    assert Counted(rt, reg, {}) == CurrentOffers(rt, reg);
    if BoundedOffers(rt) { OfferedBounds(CurrentOffers(rt, reg)); }
  }

  function NotEmpty(m: map<Gen, set<string>>): (m': map<Gen, set<string>>) {
    map g | g in m && m[g] != {} :: m[g]
  }

  lemma NotEmptyInsert(m: map<Gen, set<string>>, g: Gen, ids: set<string>)
    requires g !in m
    ensures |NotEmpty(m[g := ids])| == |NotEmpty(m)| + (if ids == {} then 0 else 1)
  {
    if ids == {} {
      assert NotEmpty(m[g := ids]) == NotEmpty(m);
    } else {
      assert NotEmpty(m[g := ids]) == NotEmpty(m)[g := ids];
      MapInsertCard(NotEmpty(m), g, ids);
    }
  }

  function CurrentOffers(rt: Router, reg: Registry): (m: map<Gen, set<string>>) {
    map g | g in rt.offers && Current(reg, g.nick, g.conn) :: rt.offers[g]
  }

  /** The number of offers in a table. */
  ghost function Offered(m: map<Gen, set<string>>): (n: nat)
    decreases |m|
  {
    if m == map[] then 0
    else
      var g :| g in m;
      MapRemoveCard(m, g);
      |m[g]| + Offered(m - {g})
  }

  /** The number of offers does not depend on the order of counting. */
  lemma {:induction false} OfferedRemove(m: map<Gen, set<string>>, g: Gen)
    requires g in m
    ensures Offered(m) == |m[g]| + Offered(m - {g})
    decreases |m|
  {
    var h :| h in m && Offered(m) == |m[h]| + Offered(m - {h});
    if h != g {
      MapRemoveCard(m, h);
      OfferedRemove(m - {h}, g);
      MapRemoveCard(m, g);
      OfferedRemove(m - {g}, h);
      assert (m - {h}) - {g} == (m - {g}) - {h};
    }
  }

  lemma OfferedInsert(m: map<Gen, set<string>>, g: Gen, ids: set<string>)
    requires g !in m
    ensures Offered(m[g := ids]) == Offered(m) + |ids|
  {
    OfferedRemove(m[g := ids], g);
    assert m[g := ids] - {g} == m;
  }

  lemma {:induction false} OfferedBounds(m: map<Gen, set<string>>)
    requires forall g :: g in m ==> 1 <= |m[g]| <= MAX_OFFERS_PER_OWNER
    ensures |m| <= Offered(m) <= MAX_OFFERS_PER_OWNER * |m|
    decreases |m|
  {
    if m != map[] {
      var g :| g in m;
      OfferedRemove(m, g);
      MapRemoveCard(m, g);
      OfferedBounds(m - {g});
    }
  }

  /** With consistent tables the current-owner filter of the statistics removes nothing. */
  lemma StatsSeeEverything(d: Dir)
    requires TablesLive(d)
    ensures CurrentOffers(d.router, d.reg) == d.router.offers
  {
  }

  // ---- the heartbeat's set ----

  class HeartbeatObject {
    var pong: set<Gen>

    constructor () ensures pong == {} { pong := {}; }

    /** `connection` is left open when the caller does not know it; the registry then supplies it. */
    method HandlePong(reg: Registry, n: Nick, connection: Option<ConnId>)
      modifies this
      ensures pong == if connection.Some? then old(pong) - {Gen(n, connection.value)}
                      else if n in reg.owners then old(pong) - {Gen(n, reg.owners[n].conn)}
                      else old(pong)
    {
      var c := if connection.Some? then connection else if n in reg.owners then Some(reg.owners[n].conn) else None;
      if c.Some? && Gen(n, c.value) in pong { pong := pong - {Gen(n, c.value)}; }
    }

    method ForgetOwner(g: Gen)
      modifies this
      ensures pong == old(pong) - {g}
    {
      pong := pong - {g};
    }
  }

  // ---- the server's tables together ----

  class ServerObject {
    const registry: RegistryObject
    const router: RouterObject
    const heartbeat: HeartbeatObject
    var connOf: map<Nick, ConnId>
    var pool: set<ConnId>

    ghost function Model(): (d: Dir)
      reads this, registry, router, heartbeat
    {
      Dir(registry.Model(), router.Model(), heartbeat.pong, connOf, pool)
    }

    constructor (maxPeers: nat)
      ensures Model() == Dir(Registry(maxPeers, map[], map[], map[]), Router(map[], {}, map[]), {}, map[], {})
      ensures fresh(registry) && fresh(router) && fresh(heartbeat)
    {
      registry := new RegistryObject(maxPeers);
      router := new RouterObject();
      heartbeat := new HeartbeatObject();
      connOf, pool := map[], {};
    }

    /** What `_activate_registration` and `_remove_owned_peer_state` drop for a generation. */
    method ForgetGeneration(g: Gen)
      modifies `connOf, router, heartbeat
      ensures Model() == ForgetGen(old(Model()), g)
    {
      heartbeat.ForgetOwner(g);
      router.RemovePeerOffers(g);
      if g.nick in connOf && connOf[g.nick] == g.conn { connOf := connOf - {g.nick}; }
    }

    /** `_register_peer` under the owner lock. */
    method RegisterPeer(c: ConnId, info: PeerInfo, key: Option<PubKey>, now: int) returns (res: Outcome)
      modifies this, registry, router, heartbeat
      ensures match Directory.RegisterPeer(old(Model()), c, info, key, now)
              case Admitted(d, displaced) => Model() == d && res == Accepted(displaced)
              case Refused => Model() == old(Model()) && !res.Accepted?
    {
      res := registry.Register(c, info, key, now);
      if !res.Accepted? { return; }
      if res.displaced.Some? { ForgetGeneration(Gen(info.nick, res.displaced.value)); }
      connOf := connOf[info.nick := c];
    }

    /** `_remove_owned_peer_state` under the owner lock; a visible peer is to be announced as gone. */
    method RemoveOwnedPeerState(g: Gen) returns (removed: bool, visible: bool)
      modifies this, registry, router, heartbeat
      ensures removed <==> Removable(old(Model()), g)
      ensures visible <==> removed && IsHandshaked(old(Model()).reg, g.nick)
      ensures Model() == if removed then RemoveGen(old(Model()), g) else old(Model())
    {
      removed, visible := false, false;
      if !(g.nick in registry.owners && registry.owners[g.nick].conn == g.conn) { return; }
      if g.nick !in registry.peers { return; }
      removed := true;
      var c := registry.peers[g.nick];
      visible := c in registry.infos && registry.infos[c].status.Handshaked?;
      var _ := registry.UpdateStatus(g.nick, Disconnected, Some(g.conn), 0);
      var _ := registry.Unregister(g.nick, Some(g.conn));
      ForgetGeneration(g);
    }
  }
}
