/** The tables that the tasks of the directory server share, and the atomic changes made to them. */
module Directory {
  import opened Types
  import opened PeerRegistry
  import opened MessageRouter

  /** `connOf` is `peer_key_to_conn_id`, `pong` is `_pong_pending`, `pool` the open connections. */
  datatype Dir = Dir(reg: Registry, router: Router, pong: set<Gen>, connOf: map<Nick, ConnId>, pool: set<ConnId>)

  datatype DirRegistration = Admitted(dir: Dir, displaced: Option<ConnId>) | Refused

  predicate Live(d: Dir, g: Gen) {
    Current(d.reg, g.nick, g.conn)
  }

  /** All state kept for one generation outside the registry is dropped. */
  function ForgetGen(d: Dir, g: Gen): (d': Dir) {
    d.(router := Forget(d.router, g), pong := d.pong - {g},
       connOf := if g.nick in d.connOf && d.connOf[g.nick] == g.conn then d.connOf - {g.nick} else d.connOf)
  }

  /** `register` followed by `_activate_registration`. */
  function RegisterPeer(d: Dir, c: ConnId, info: PeerInfo, key: Option<PubKey>, now: int): (res: DirRegistration) {
    match Register(d.reg, c, info, key, now)
    case Registered(reg, displaced) =>
      var d1 := if displaced.Some? then ForgetGen(d, Gen(info.nick, displaced.value)) else d;
      Admitted(d1.(reg := reg, connOf := d1.connOf[info.nick := c]), displaced)
    case Conflict => Refused
    case Full => Refused
  }

  /** The critical section of `_remove_owned_peer_state` for a current owner. */
  function RemoveGen(d: Dir, g: Gen): (d': Dir) {
    var reg := UpdateStatus(d.reg, g.nick, Disconnected, Some(g.conn), 0);
    ForgetGen(d.(reg := Unregister(reg, g.nick, Some(g.conn))), g)
  }

  function Promote(d: Dir, g: Gen, now: int): (d': Dir) {
    d.(reg := UpdateStatus(d.reg, g.nick, Handshaked, Some(g.conn), now))
  }

  function Touch(d: Dir, g: Gen, now: int): (d': Dir) {
    d.(reg := UpdateLastSeen(d.reg, g.nick, Some(g.conn), now))
  }

  function Publish(d: Dir, g: Gen, kind: PubKind, admit: bool): (d': Dir) {
    d.(router := Ingress(d.router, g, kind, admit))
  }

  function AddPong(d: Dir, g: Gen): (d': Dir) { d.(pong := d.pong + {g}) }

  function DropPong(d: Dir, g: Gen): (d': Dir) { d.(pong := d.pong - {g}) }

  function CloseConn(d: Dir, c: ConnId): (d': Dir) { d.(pool := d.pool - {c}) }

  /** The registry, the routing map and the per-generation tables agree. */
  ghost predicate MapsAgree(d: Dir) {
    && d.reg.peers.Keys == d.reg.owners.Keys
    && d.connOf.Keys == d.reg.owners.Keys
    && (forall n :: n in d.reg.owners ==>
          && d.reg.peers[n] == d.reg.owners[n].conn
          && d.connOf[n] == d.reg.owners[n].conn
          && d.reg.owners[n].conn in d.reg.infos
          && d.reg.infos[d.reg.owners[n].conn].nick == n)
  }

  ghost predicate TablesLive(d: Dir) {
    && (forall g :: g in d.router.offers ==> Live(d, g))
    && (forall g :: g in d.router.buckets ==> Live(d, g))
    && (forall g :: g in d.router.drops ==> Live(d, g))
    && (forall g :: g in d.pong ==> Live(d, g))
  }

  ghost predicate Consistent(d: Dir) {
    MapsAgree(d) && TablesLive(d) && BoundedOffers(d.router) && |d.reg.peers| <= d.reg.maxPeers
  }

  lemma OwnersAreInjective(d: Dir, n: Nick, m: Nick)
    requires MapsAgree(d) && n in d.reg.owners && m in d.reg.owners
    requires d.reg.owners[n].conn == d.reg.owners[m].conn
    ensures n == m
  {
  }

  lemma RegisterKeepsMaps(d: Dir, c: ConnId, info: PeerInfo, key: Option<PubKey>, now: int)
    requires MapsAgree(d) && c !in d.reg.infos
    requires RegisterPeer(d, c, info, key, now).Admitted?
    ensures MapsAgree(RegisterPeer(d, c, info, key, now).dir)
  {
  }

  lemma RegisterKeepsCapacity(d: Dir, c: ConnId, info: PeerInfo, key: Option<PubKey>, now: int)
    requires MapsAgree(d) && |d.reg.peers| <= d.reg.maxPeers
    requires Register(d.reg, c, info, key, now).Registered?
    ensures var reg := Register(d.reg, c, info, key, now).reg; |reg.peers| <= reg.maxPeers
  {
    MapInsertCard(d.reg.peers, info.nick, c);
  }

  lemma RegisterKeepsTables(d: Dir, c: ConnId, info: PeerInfo, key: Option<PubKey>, now: int)
    requires Consistent(d) && RegisterPeer(d, c, info, key, now).Admitted?
    ensures var d' := RegisterPeer(d, c, info, key, now).dir;
            TablesLive(d') && BoundedOffers(d'.router)
  {
  }

  lemma RemoveKeepsMaps(d: Dir, g: Gen)
    requires MapsAgree(d) && Live(d, g)
    ensures MapsAgree(RemoveGen(d, g))
  {
  }

  lemma RemoveKeepsTables(d: Dir, g: Gen)
    requires Consistent(d) && Live(d, g)
    ensures TablesLive(RemoveGen(d, g)) && BoundedOffers(RemoveGen(d, g).router)
  {
  }

  lemma RemoveKeepsConsistent(d: Dir, g: Gen)
    requires Consistent(d) && Live(d, g)
    ensures Consistent(RemoveGen(d, g))
  {
    RemoveKeepsMaps(d, g);
    RemoveKeepsTables(d, g);
    MapRemoveCard(d.reg.peers, g.nick);
  }

  lemma PublishKeepsConsistent(d: Dir, g: Gen, kind: PubKind, admit: bool)
    requires Consistent(d) && Live(d, g)
    ensures Consistent(Publish(d, g, kind, admit))
  {
    IngressKeepsBounds(d.router, g, kind, admit);
  }
}
