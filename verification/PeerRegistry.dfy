/** The peer registry: which connection generation owns each nick. */
module PeerRegistry {
  import opened Types

  datatype Status = Connected | Handshaked | Disconnected

  datatype PeerInfo = PeerInfo(nick: Nick, pings: bool, maker: bool, status: Status, lastSeen: int)

  datatype Owner = Owner(conn: ConnId, key: Option<PubKey>)

  /** The registry as a value.

      A `PeerInfo` is an object that other code keeps a reference to after the registry
      has dropped it. It is kept in `infos` under the connection that created it, and
      `peers` holds the reference. */
  datatype Registry = Registry(maxPeers: nat, infos: map<ConnId, PeerInfo>,
                               peers: map<Nick, ConnId>, owners: map<Nick, Owner>)

  datatype Registration =
    | Registered(reg: Registry, displaced: Option<ConnId>)
    | Conflict
    | Full

  predicate Current(r: Registry, n: Nick, c: ConnId) {
    n in r.owners && r.owners[n].conn == c
  }

  /** `is_current_owner`, whose expected connection may be left open. */
  predicate IsCurrentOwner(r: Registry, n: Nick, expected: Option<ConnId>) {
    n in r.owners && (expected.None? || r.owners[n].conn == expected.value)
  }

  function Register(r: Registry, c: ConnId, info: PeerInfo, key: Option<PubKey>, now: int): (res: Registration) {
    var n := info.nick;
    var live := n in r.peers && n in r.owners;
    if live && (key.None? || (r.owners[n].key.Some? && r.owners[n].key != key)) then Conflict
    else if |r.peers| - (if live then 1 else 0) >= r.maxPeers then Full
    else Registered(r.(infos := r.infos[c := info.(lastSeen := now)],
                       peers := r.peers[n := c],
                       owners := r.owners[n := Owner(c, key)]),
                    if live then Some(r.owners[n].conn) else None)
  }

  function Remove(r: Registry, n: Nick): (r': Registry) {
    if n in r.peers then r.(peers := r.peers - {n}, owners := r.owners - {n}) else r
  }

  function Unregister(r: Registry, n: Nick, expected: Option<ConnId>): (r': Registry) {
    if IsCurrentOwner(r, n, expected) then Remove(r, n) else r
  }

  function SetInfo(r: Registry, n: Nick, info: PeerInfo): (r': Registry)
    requires n in r.peers
  {
    r.(infos := r.infos[r.peers[n] := info])
  }

  predicate Known(r: Registry, n: Nick) {
    n in r.peers && r.peers[n] in r.infos
  }

  function UpdateStatus(r: Registry, n: Nick, status: Status, expected: Option<ConnId>, now: int): (r': Registry) {
    if IsCurrentOwner(r, n, expected) && Known(r, n) then
      var p := r.infos[r.peers[n]];
      SetInfo(r, n, p.(status := status, lastSeen := if status.Disconnected? then p.lastSeen else now))
    else r
  }

  function UpdateLastSeen(r: Registry, n: Nick, expected: Option<ConnId>, now: int): (r': Registry) {
    if IsCurrentOwner(r, n, expected) && Known(r, n) then
      SetInfo(r, n, r.infos[r.peers[n]].(lastSeen := now))
    else r
  }

  predicate IsHandshaked(r: Registry, n: Nick) {
    Known(r, n) && r.infos[r.peers[n]].status.Handshaked?
  }

  // ---- what a registration decides ----

  /** May a connection with this key have the nick? It is free, or its owner is unverified or has the same key. */
  predicate MayOwn(r: Registry, n: Nick, key: Option<PubKey>) {
    n !in r.owners || (key.Some? && (r.owners[n].key.None? || r.owners[n].key == key))
  }

  /** A registration fails for the key, or else for lack of room beside the other nicks, or else is made. */
  lemma RegisterDecides(r: Registry, c: ConnId, info: PeerInfo, key: Option<PubKey>, now: int)
    requires r.peers.Keys == r.owners.Keys
    ensures var res, n, others := Register(r, c, info, key, now), info.nick, |r.peers - {info.nick}|;
            && (res.Conflict? <==> !MayOwn(r, n, key))
            && (res.Full? <==> MayOwn(r, n, key) && others >= r.maxPeers)
            && (res.Registered? <==> MayOwn(r, n, key) && others < r.maxPeers)
  {
    MapRemoveCard(r.peers, info.nick);
  }

  /** A registration gives the nick to the connection and reports the connection it takes it from; every other nick
      and every other `PeerInfo` stays as it was. */
  lemma RegisterGives(r: Registry, c: ConnId, info: PeerInfo, key: Option<PubKey>, now: int, m: Nick, b: ConnId)
    requires r.peers.Keys == r.owners.Keys && Register(r, c, info, key, now).Registered?
    ensures var reg, n := Register(r, c, info, key, now).reg, info.nick;
            && reg.owners.Keys == r.owners.Keys + {n} == reg.peers.Keys && reg.maxPeers == r.maxPeers
            && reg.owners[n] == Owner(c, key) && reg.peers[n] == c
            && c in reg.infos && reg.infos[c] == PeerInfo(n, info.pings, info.maker, info.status, now)
            && (m != n && m in r.owners ==> reg.owners[m] == r.owners[m] && reg.peers[m] == r.peers[m])
            && (b != c ==> (b in reg.infos <==> b in r.infos) && (b in r.infos ==> reg.infos[b] == r.infos[b]))
            && Register(r, c, info, key, now).displaced ==
               if n in r.owners then Some(r.owners[n].conn) else None
  {
  }
}
