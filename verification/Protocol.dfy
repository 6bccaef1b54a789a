/** The directory server as a transition system.

    asyncio runs one task at a time, so the code between two suspending awaits is one
    step. A step of task `t` is the function `MoveOf` of the shared tables, the task and an
    oracle that stands for everything outside the server: received bytes, the outcome of
    a write, token buckets, the proof check, the clock, the order in which a dictionary is
    walked. Returning from an awaited call is a step of its own, which only adds
    interleavings. */
module Protocol {
  import opened Types
  import opened PeerRegistry
  import opened MessageRouter
  import opened Directory
  import opened Handshake

  const MAX_PENDING_HANDSHAKES: nat := 128

  datatype Config = Config(maxPeers: nat, batchSize: nat, policy: Policy, idleThreshold: int, hardEvict: int)

  function PendingCap(cfg: Config): (cap: nat) {
    if cfg.maxPeers < MAX_PENDING_HANDSHAKES then cfg.maxPeers else MAX_PENDING_HANDSHAKES
  }

  /** The first message of a client, as far as the server uses it. */
  datatype Greeting = BadGreeting | Greeting(nick: Nick, pings: bool, maker: bool, offersAuth: bool)

  /** A later message. `Hangup` ends the message loop without a message, `Bye` with one. */
  datatype Msg = Hangup | Bye | Ignored | Pub(kind: PubKind) | Priv(to: Nick) | GetPeerlist | Ping | Pong

  datatype Oracle = Oracle(ok: bool, now: int, listing: seq<Nick>, greeting: Greeting,
                           key: Option<PubKey>, msg: Msg, admit: bool, relay: bool)

  // ---- tasks ----

  /** Why a task wants the owner lock of a nick. */
  datatype Want =
    | ToRegister | ToConfirm | ToRespond | ToPromote
    | ToSend(conn: ConnId)
    | ToRemove(conn: ConnId, announce: bool)

  /** Targets a broadcast leaves out: a nick, or one generation with its nick. */
  datatype Skip = Skip(nick: Nick, conn: Option<ConnId>)

  /** Where a task is suspended. */
  datatype Act =
    | Running                                                      // at an await outside every owner lock
    | Waiting(nick: Nick, want: Want)                              // for the owner lock of `nick`
    | Writing(nick: Nick, want: Want)                              // at a write to the owner of `nick`
    | Gathering(rest: seq<Gen>, skip: Skip, lo: nat, hi: nat)      // for the senders with ids in lo..hi
    | Returned(ok: bool)                                           // an awaited call has returned or raised

  /** What the message loop of a client is doing for the current message. */
  datatype Job = NoJob | Relay(to: Gen) | Locate(to: Gen) | Reply | Reap(dead: Gen)

  datatype Phase =
    | Hello
    | Refusing
    | Auth(info: PeerInfo)
    | Registering(info: PeerInfo, key: Option<PubKey>)
    | Displacing(nick: Nick, prior: Option<ConnId>)
    | ClosingOld(nick: Nick)
    | Confirming(nick: Nick)
    | Responding(nick: Nick)
    | Pausing(nick: Nick)
    | Promoting(nick: Nick)
    | RollingBack(nick: Nick)
    | Serving(nick: Nick, job: Job)
    | Leaving(nick: Nick)
    | Closing
    | Finished

  datatype Stage = Fresh | Sending | Reaping | Done

  /** An entry of `get_peers_idle_since`: the generation and the `last_seen` it was listed with. */
  datatype Idler = Idler(gen: Gen, seen: int)

  datatype Probe = NoProbe | PingProbe(who: Idler) | BookProbe(who: Idler) | DeadProbe(who: Idler)

  datatype Sweep =
    | Asleep
    | Evicting(now: int, todo: seq<Idler>, evicted: set<Gen>)
    | Probing(now: int, todo: seq<Idler>, evicted: set<Gen>, pinged: seq<Idler>, probe: Probe)
    | AwaitingPongs(now: int, pinged: seq<Idler>)
    | TimingOut(now: int, todo: seq<Idler>)

  datatype Role =
    | Handler(phase: Phase)                    // the task with index c serves connection c
    | Sender(target: Gen, stage: Stage)        // one `_safe_send` of a broadcast batch
    | Heart(sweep: Sweep)                      // the heartbeat loop

  datatype Task = Task(role: Role, act: Act)

  /** `told` counts disconnect broadcasts, `seen` collects the connections that became HANDSHAKED. */
  datatype State = State(dir: Dir, locks: map<Nick, nat>, tasks: seq<Task>, pending: int,
                         told: multiset<ConnId>, seen: set<ConnId>)

  /** The effect of one step: new tables, new task, senders to start, the owner lock the task is inside of
      at its next await, a disconnect broadcast that begins, and whether the task leaves the handshake or
      makes its connection visible. */
  datatype Move = Move(dir: Dir, task: Task, kids: seq<Gen>, holds: Option<Nick>, told: Option<ConnId>,
                       leaves: bool, shown: bool)

  /** To the next await outside every `async with` of an owner lock. */
  function Stay(d: Dir, role: Role, act: Act): (m: Move) {
    Move(d, Task(role, act), [], None, None, false, false)
  }

  /** Into the `async with` of the owner lock of `n` and to the write inside it. */
  function Inside(d: Dir, role: Role, n: Nick, want: Want): (m: Move) {
    Move(d, Task(role, Writing(n, want)), [], Some(n), None, false, false)
  }

  // ---- broadcasts ----

  /** The items of `_peers` in the order they are walked. */
  function Snapshot(r: Registry, listing: seq<Nick>): (items: seq<Gen>)
    ensures |items| <= |listing|
  {
    if listing == [] then []
    else if listing[0] in r.peers then [Gen(listing[0], r.peers[listing[0]])] + Snapshot(r, listing[1..])
    else Snapshot(r, listing[1..])
  }

  /** Does the target generator yield the item `g` when it is reached? */
  predicate Yields(r: Registry, g: Gen, skip: Skip) {
    && g.nick in r.owners
    && g.conn in r.infos && r.infos[g.conn].status.Handshaked?
    && g.nick != skip.nick
    && (skip.conn.Some? ==> r.owners[g.nick].conn != skip.conn.value)
  }

  datatype Batch = Batch(targets: seq<Gen>, rest: seq<Gen>)

  /** Pull at most `room` targets from the items not walked yet. */
  function Pull(r: Registry, rest: seq<Gen>, skip: Skip, room: nat): (b: Batch)
    ensures |b.targets| <= room && |b.targets| + |b.rest| <= |rest|
  {
    if rest == [] || room == 0 then Batch([], rest)
    else if Yields(r, rest[0], skip) then
      var b := Pull(r, rest[1..], skip, room - 1);
      Batch([Gen(rest[0].nick, r.owners[rest[0].nick].conn)] + b.targets, b.rest)
    else Pull(r, rest[1..], skip, room)
  }

  /** A batch is sent once it is as long as the batch size, so it has at least one target. */
  function Room(cfg: Config): (n: nat) {
    if cfg.batchSize == 0 then 1 else cfg.batchSize
  }

  datatype Fan = Fan(act: Act, kids: seq<Gen>)

  function NextBatch(cfg: Config, r: Registry, rest: seq<Gen>, skip: Skip, base: nat): (f: Fan)
    ensures || f == Fan(Returned(true), [])
            || (f.act.Gathering? && f.act.lo == base < f.act.hi == base + |f.kids|)
  {
    var b := Pull(r, rest, skip, Room(cfg));
    if b.targets == [] then Fan(Returned(true), [])
    else Fan(Gathering(b.rest, skip, base, base + |b.targets|), b.targets)
  }

  function Broadcast(cfg: Config, d: Dir, skip: Skip, listing: seq<Nick>, base: nat): (f: Fan)
    ensures || f == Fan(Returned(true), [])
            || (f.act.Gathering? && f.act.lo == base < f.act.hi == base + |f.kids|)
  {
    NextBatch(cfg, d.reg, Snapshot(d.reg, listing), skip, base)
  }

  // ---- steps shared by all tasks ----

  /** The checks of `_send_to_peer` under the owner lock. */
  predicate SendReady(d: Dir, g: Gen) {
    && g.nick in d.connOf && d.connOf[g.nick] == g.conn
    && IsHandshaked(d.reg, g.nick)
    && Live(d, g)
    && g.conn in d.pool
  }

  predicate Removable(d: Dir, g: Gen) {
    Live(d, g) && g.nick in d.reg.peers
  }

  /** `_remove_owned_peer_state` once its lock is free. */
  function RemoveMove(cfg: Config, d: Dir, role: Role, g: Gen, announce: bool, o: Oracle, base: nat): (m: Move) {
    if !Removable(d, g) then Stay(d, role, Returned(false))
    else
      var d' := RemoveGen(d, g);
      if announce && IsHandshaked(d.reg, g.nick) then
        var f := Broadcast(cfg, d', Skip(g.nick, Some(g.conn)), o.listing, base);
        Move(d', Task(role, f.act), f.kids, None, Some(g.conn), false, false)
      else Stay(d', role, Returned(true))
  }

  /** `_handle_send_failed` and `_evict_peer` up to the lock of the removal. */
  function RemovalOf(d: Dir, g: Gen): (a: Act) {
    if Removable(d, g) then Waiting(g.nick, ToRemove(g.conn, true)) else Returned(false)
  }

  function SendTo(g: Gen): (a: Act) { Waiting(g.nick, ToSend(g.conn)) }

  // ---- client handlers ----

  /** The handshake returns no key: `finally` blocks of `_handle_client` up to the close. */
  function Exit(d: Dir, c: ConnId): (m: Move) {
    Move(CloseConn(d, c), Task(Handler(Closing), Running), [], None, None, true, false)
  }

  function Enter(d: Dir, n: Nick): (m: Move) {
    Move(d, Task(Handler(Serving(n, NoJob)), Running), [], None, None, true, true)
  }

  function GreetMove(cfg: Config, d: Dir, c: ConnId, o: Oracle): (m: Move) {
    match o.greeting
    case BadGreeting => Exit(d, c)
    case Greeting(nick, pings, maker, offersAuth) =>
      var info := PeerInfo(nick, pings, maker, Connected, 0);
      if !o.ok then Exit(d, c)
      else if !Accepted(cfg.policy, offersAuth) then Stay(d, Handler(Refusing), Running)
      else if NegotiatesNickAuth(cfg.policy, offersAuth) then Stay(d, Handler(Auth(info)), Running)
      else Stay(d, Handler(Registering(info, None)), Waiting(nick, ToRegister))
  }

  function RegisterMove(d: Dir, c: ConnId, info: PeerInfo, key: Option<PubKey>, o: Oracle): (m: Move) {
    match RegisterPeer(d, c, info, key, o.now)
    case Refused => Stay(d, Handler(Refusing), Running)
    case Admitted(d', displaced) =>
      if key.Some? then Stay(d', Handler(Displacing(info.nick, displaced)), Running)
      else Stay(d', Handler(Responding(info.nick)), Waiting(info.nick, ToRespond))
  }

  /** `_close_displaced_connections`: a displaced HANDSHAKED peer is announced as gone. */
  function DisplaceMove(cfg: Config, d: Dir, n: Nick, prior: Option<ConnId>, o: Oracle, base: nat): (m: Move) {
    if prior.None? then Stay(d, Handler(Confirming(n)), Waiting(n, ToConfirm))
    else if prior.value in d.reg.infos && d.reg.infos[prior.value].status.Handshaked? then
      var f := Broadcast(cfg, d, Skip(n, prior), o.listing, base);
      Move(d, Task(Handler(ClosingOld(n)), f.act), f.kids, None, prior, false, false)
    else Stay(d, Handler(ClosingOld(n)), Returned(true))
  }

  function RollBack(d: Dir, c: ConnId, n: Nick): (m: Move) {
    Stay(d, Handler(RollingBack(n)), Waiting(n, ToRemove(c, false)))
  }

  /** The last status change of either handshake. */
  function PromoteMove(d: Dir, c: ConnId, n: Nick, o: Oracle): (m: Move) {
    if Current(d.reg, n, c) && Known(d.reg, n) then Enter(Promote(d, Gen(n, c), o.now), n) else Exit(d, c)
  }

  /** One received message of the serving loop. */
  function ServeMove(cfg: Config, d0: Dir, c: ConnId, n: Nick, o: Oracle, base: nat): (m: Move) {
    var g := Gen(n, c);
    var d := if o.msg.Hangup? then d0 else Touch(d0, g, o.now);
    if o.msg.Hangup? || o.msg.Bye? || !Current(d0.reg, n, c) || !Known(d0.reg, n) then
      Stay(d, Handler(Leaving(n)), Waiting(n, ToRemove(c, true)))
    else if !IsHandshaked(d.reg, n) then Stay(d, Handler(Serving(n, NoJob)), Running)
    else match o.msg
      case Pub(kind) =>
        var d' := Publish(d, g, kind, o.admit);
        if !o.admit || !Accepts(d.router, g, kind) || !o.relay then Stay(d', Handler(Serving(n, NoJob)), Running)
        else
          var f := Broadcast(cfg, d', Skip(n, None), o.listing, base);
          Move(d', Task(Handler(Serving(n, NoJob)), f.act), f.kids, None, None, false, false)
      case Priv(to) =>
        if IsHandshaked(d.reg, to) && to in d.reg.owners then
          var h := Gen(to, d.reg.owners[to].conn);
          Stay(d, Handler(Serving(n, Relay(h))), SendTo(h))
        else Stay(d, Handler(Serving(n, NoJob)), Running)
      case GetPeerlist => Stay(d, Handler(Serving(n, Reply)), SendTo(g))
      case Ping => Stay(d, Handler(Serving(n, Reply)), SendTo(g))
      case Pong => Stay(DropPong(d, g), Handler(Serving(n, NoJob)), Running)
      case _ => Stay(d, Handler(Serving(n, NoJob)), Running)
  }

  /** The serving loop after an awaited call. */
  function JobMove(d: Dir, c: ConnId, n: Nick, job: Job, ok: bool, o: Oracle): (m: Move) {
    var back := Stay(d, Handler(Serving(n, NoJob)), Running);
    match job
    case NoJob => back
    case Relay(h) =>
      if !ok then Stay(d, Handler(Serving(n, Reap(h))), RemovalOf(d, h))
      else if c in d.reg.infos && d.reg.infos[c].maker && Live(d, h) then
        Stay(d, Handler(Serving(n, Locate(h))), SendTo(h))
      else back
    case Locate(_) => back
    case Reply =>
      if ok && o.ok && Current(d.reg, n, c) then Stay(d, Handler(Serving(n, Reply)), SendTo(Gen(n, c))) else back
    case Reap(h) => if ok then Stay(CloseConn(d, h.conn), Handler(Serving(n, NoJob)), Running) else back
  }

  function HandlerMove(cfg: Config, d: Dir, c: ConnId, phase: Phase, act: Act, o: Oracle, base: nat): (m: Move) {
    match phase
    case Hello => GreetMove(cfg, d, c, o)
    case Refusing => Exit(d, c)
    case Auth(info) =>
      if o.key.Some? then Stay(d, Handler(Registering(info, o.key)), Waiting(info.nick, ToRegister)) else Exit(d, c)
    case Registering(info, key) => RegisterMove(d, c, info, key, o)
    case Displacing(n, prior) => DisplaceMove(cfg, d, n, prior, o, base)
    case ClosingOld(n) => Stay(d, Handler(Confirming(n)), Waiting(n, ToConfirm))
    case Confirming(n) =>
      if !act.Writing? then
        if Current(d.reg, n, c) then Inside(d, Handler(phase), n, ToConfirm) else Exit(d, c)
      else if o.ok then PromoteMove(d, c, n, o)
      else RollBack(d, c, n)
    case Responding(n) =>
      if !act.Writing? then
        if Current(d.reg, n, c) then Inside(d, Handler(phase), n, ToRespond) else Exit(d, c)
      else if o.ok then Stay(d, Handler(Pausing(n)), Running)
      else RollBack(d, c, n)
    case Pausing(n) => Stay(d, Handler(Promoting(n)), Waiting(n, ToPromote))
    case Promoting(n) => PromoteMove(d, c, n, o)
    case RollingBack(n) => Exit(d, c)
    case Serving(n, job) =>
      if act.Returned? then JobMove(d, c, n, job, act.ok, o) else ServeMove(cfg, d, c, n, o, base)
    case Leaving(n) => Stay(CloseConn(d, c), Handler(Closing), Running)
    case Closing => Stay(d, Handler(Finished), Running)
    case Finished => Stay(d, Handler(Finished), Running)
  }

  // ---- broadcast senders ----

  /** `_safe_send` to one generation. */
  function SenderMove(d: Dir, g: Gen, stage: Stage, act: Act): (m: Move) {
    var done := Stay(d, Sender(g, Done), Running);
    match stage
    case Fresh => if IsHandshaked(d.reg, g.nick) && Live(d, g) then Stay(d, Sender(g, Sending), SendTo(g)) else done
    case Sending => if act == Returned(true) then done else Stay(d, Sender(g, Reaping), RemovalOf(d, g))
    case Reaping => if act == Returned(true) then Stay(CloseConn(d, g.conn), Sender(g, Done), Running) else done
    case Done => done
  }

  // ---- heartbeat ----

  /** `get_peers_idle_since`. */
  function IdleSince(r: Registry, listing: seq<Nick>, cutoff: int): (idle: seq<Idler>)
    ensures forall i :: 0 <= i < |idle| ==>
      && idle[i].seen < cutoff
      && IsHandshaked(r, idle[i].gen.nick) && idle[i].seen == r.infos[r.peers[idle[i].gen.nick]].lastSeen
      && Current(r, idle[i].gen.nick, idle[i].gen.conn)
    ensures forall n :: n in listing && n in r.owners && IsHandshaked(r, n) && r.infos[r.peers[n]].lastSeen < cutoff ==>
      Idler(Gen(n, r.owners[n].conn), r.infos[r.peers[n]].lastSeen) in idle
  {
    if listing == [] then []
    else
      var n, rest := listing[0], IdleSince(r, listing[1..], cutoff);
      if n in r.owners && IsHandshaked(r, n) && r.infos[r.peers[n]].lastSeen < cutoff then
        [Idler(Gen(n, r.owners[n].conn), r.infos[r.peers[n]].lastSeen)] + rest
      else rest
  }

  /** The idle entries that still owe a pong. */
  function Unanswered(pinged: seq<Idler>, pong: set<Gen>): (late: seq<Idler>)
    ensures forall x :: x in late ==> x in pinged && x.gen in pong
    ensures forall x :: x in pinged && x.gen in pong ==> x in late
  {
    if pinged == [] then []
    else (if pinged[0].gen in pong then [pinged[0]] else []) + Unanswered(pinged[1..], pong)
  }

  /** After an eviction the connection of the removed generation is closed. */
  function AfterEvict(d: Dir, x: Idler, removed: bool): (d': Dir) {
    if removed then CloseConn(d, x.gen.conn) else d
  }

  function EvictingMove(cfg: Config, d: Dir, now: int, todo: seq<Idler>, evicted: set<Gen>, act: Act,
      o: Oracle): (m: Move) {
    if todo == [] then
      Stay(d, Heart(Probing(now, IdleSince(d.reg, o.listing, now - cfg.idleThreshold), evicted, [], NoProbe)), Running)
    else if act.Returned? then
      Stay(AfterEvict(d, todo[0], act.ok), Heart(Evicting(now, todo[1..], evicted)), Running)
    else
      var d' := DropPong(d, todo[0].gen);
      Stay(d', Heart(Evicting(now, todo, evicted + {todo[0].gen})), RemovalOf(d', todo[0].gen))
  }

  /** The next idle peer: ping it, ask a maker for its offers, or pass over it. */
  function ProbeMove(d: Dir, now: int, x: Idler, todo: seq<Idler>, evicted: set<Gen>, pinged: seq<Idler>): (m: Move) {
    if x.gen in evicted || !Live(d, x.gen) || !Known(d.reg, x.gen.nick) then
      Stay(d, Heart(Probing(now, todo, evicted, pinged, NoProbe)), Running)
    else
      var p := d.reg.infos[d.reg.peers[x.gen.nick]];
      if p.pings then Stay(AddPong(d, x.gen), Heart(Probing(now, todo, evicted, pinged, PingProbe(x))), SendTo(x.gen))
      else if p.maker then Stay(d, Heart(Probing(now, todo, evicted, pinged, BookProbe(x))), SendTo(x.gen))
      else Stay(d, Heart(Probing(now, todo, evicted, pinged, NoProbe)), Running)
  }

  function ProbingMove(d: Dir, now: int, todo: seq<Idler>, evicted: set<Gen>, pinged: seq<Idler>, probe: Probe,
      act: Act): (m: Move) {
    match probe
    case NoProbe =>
      if todo == [] then Stay(d, Heart(if pinged == [] then Asleep else AwaitingPongs(now, pinged)), Running)
      else ProbeMove(d, now, todo[0], todo[1..], evicted, pinged)
    case PingProbe(x) =>
      if act == Returned(true) then Stay(d, Heart(Probing(now, todo, evicted, pinged + [x], NoProbe)), Running)
      else
        var d' := DropPong(d, x.gen);
        Stay(d', Heart(Probing(now, todo, evicted, pinged, DeadProbe(x))), RemovalOf(d', x.gen))
    case BookProbe(_) => Stay(d, Heart(Probing(now, todo, evicted, pinged, NoProbe)), Running)
    case DeadProbe(x) =>
      Stay(AfterEvict(d, x, act == Returned(true)), Heart(Probing(now, todo, evicted, pinged, NoProbe)), Running)
  }

  function TimingOutMove(d: Dir, now: int, todo: seq<Idler>, act: Act): (m: Move) {
    if todo == [] then Stay(d, Heart(Asleep), Running)
    else if act.Returned? then Stay(AfterEvict(d, todo[0], act.ok), Heart(TimingOut(now, todo[1..])), Running)
    else
      var d' := DropPong(d, todo[0].gen);
      Stay(d', Heart(TimingOut(now, todo)), RemovalOf(d', todo[0].gen))
  }

  function HeartMove(cfg: Config, d: Dir, sw: Sweep, act: Act, o: Oracle): (m: Move) {
    match sw
    case Asleep =>
      Stay(d, Heart(Evicting(o.now, IdleSince(d.reg, o.listing, o.now - cfg.hardEvict), {})), Running)
    case Evicting(now, todo, evicted) => EvictingMove(cfg, d, now, todo, evicted, act, o)
    case Probing(now, todo, evicted, pinged, probe) => ProbingMove(d, now, todo, evicted, pinged, probe, act)
    case AwaitingPongs(now, pinged) => Stay(d, Heart(TimingOut(now, Unanswered(pinged, d.pong))), Running)
    case TimingOut(now, todo) => TimingOutMove(d, now, todo, act)
  }

  // ---- the transition relation ----

  /** Is the task inside a call that all tasks make: a routed write, a removal, a broadcast? */
  predicate InSharedCall(a: Act) {
    a.Gathering? || ((a.Waiting? || a.Writing?) && (a.want.ToSend? || a.want.ToRemove?))
  }

  function SharedMove(cfg: Config, d: Dir, task: Task, base: nat, o: Oracle): (m: Move)
    requires InSharedCall(task.act)
  {
    match task.act
    case Gathering(rest, skip, _, _) =>
      var f := NextBatch(cfg, d.reg, rest, skip, base);
      Move(d, Task(task.role, f.act), f.kids, None, None, false, false)
    case Writing(_, _) => Stay(d, task.role, Returned(o.ok))
    case Waiting(n, ToSend(c)) =>
      if SendReady(d, Gen(n, c)) then Inside(d, task.role, n, ToSend(c)) else Stay(d, task.role, Returned(false))
    case Waiting(n, ToRemove(c, announce)) => RemoveMove(cfg, d, task.role, Gen(n, c), announce, o, base)
  }

  function OwnMove(cfg: Config, d: Dir, t: nat, task: Task, base: nat, o: Oracle): (m: Move) {
    match task.role
    case Handler(phase) => HandlerMove(cfg, d, t, phase, task.act, o, base)
    case Sender(g, stage) => SenderMove(d, g, stage, task.act)
    case Heart(sw) => HeartMove(cfg, d, sw, task.act, o)
  }

  function MoveOf(cfg: Config, d: Dir, t: nat, task: Task, base: nat, o: Oracle): (m: Move) {
    if InSharedCall(task.act) then SharedMove(cfg, d, task, base, o) else OwnMove(cfg, d, t, task, base, o)
  }

  predicate Over(task: Task) {
    task.role == Handler(Finished) || (task.role.Sender? && task.role.stage.Done?)
  }

  ghost predicate Enabled(s: State, t: nat, o: Oracle) {
    && t < |s.tasks| && !Over(s.tasks[t])
    && Lists(o.listing, s.dir.reg.peers.Keys)
    && (s.tasks[t].act.Waiting? ==> s.tasks[t].act.nick !in s.locks)
    && (s.tasks[t].act.Gathering? ==>
          forall k :: s.tasks[t].act.lo <= k < s.tasks[t].act.hi && k < |s.tasks| ==> Over(s.tasks[k]))
  }

  /** The senders a step starts. */
  function Kids(targets: seq<Gen>): (ts: seq<Task>)
    ensures |ts| == |targets|
    ensures forall i :: 0 <= i < |ts| ==> ts[i] == Task(Sender(targets[i], Fresh), Running)
  {
    seq(|targets|, i requires 0 <= i < |targets| => Task(Sender(targets[i], Fresh), Running))
  }

  /** At its next await the task holds exactly the lock that its move says. */
  function Relock(locks: map<Nick, nat>, t: nat, holds: Option<Nick>): (locks': map<Nick, nat>) {
    var freed := map n | n in locks && locks[n] != t :: locks[n];
    if holds.Some? then freed[holds.value := t] else freed
  }

  function Apply(s: State, t: nat, m: Move): (s': State)
    requires t < |s.tasks|
  {
    State(m.dir, Relock(s.locks, t, m.holds),
          s.tasks[t := m.task] + Kids(m.kids),
          s.pending - (if m.leaves then 1 else 0),
          if m.told.Some? then s.told + multiset{m.told.value} else s.told,
          if m.shown then s.seen + {t} else s.seen)
  }

  function Step(cfg: Config, s: State, t: nat, o: Oracle): (s': State)
    requires t < |s.tasks|
  {
    Apply(s, t, MoveOf(cfg, s.dir, t, s.tasks[t], |s.tasks|, o))
  }

  /** A new connection: refused at the handshake cap, dropped when the pool is full, else admitted. */
  function Connect(cfg: Config, s: State): (s': State) {
    var c := |s.tasks|;
    if s.pending >= PendingCap(cfg) || |s.dir.pool| >= cfg.maxPeers + PendingCap(cfg) then
      s.(tasks := s.tasks + [Task(Handler(Closing), Running)])
    else
      s.(tasks := s.tasks + [Task(Handler(Hello), Running)], pending := s.pending + 1,
         dir := s.dir.(pool := s.dir.pool + {c}))
  }

  /** One step of the server: a new connection, or one task runs to its next await. */
  datatype Event = Arrive | Run(task: nat, oracle: Oracle)

  ghost predicate Next(cfg: Config, s: State, e: Event, s': State) {
    match e
    case Arrive => s' == Connect(cfg, s)
    case Run(t, o) => Enabled(s, t, o) && s' == Step(cfg, s, t, o)
  }

  function Init(cfg: Config): (s: State) {
    State(Dir(Registry(cfg.maxPeers, map[], map[], map[]), Router(map[], {}, map[]), {}, map[], {}),
          map[], [Task(Heart(Asleep), Running)], 0, multiset{}, {})
  }

  ghost predicate StepAt(cfg: Config, states: seq<State>, events: seq<Event>, i: nat)
    requires i < |events| < |states|
  {
    Next(cfg, states[i], events[i], states[i + 1])
  }

  /** A run of the server: states linked by events. */
  ghost predicate IsRun(cfg: Config, states: seq<State>, events: seq<Event>) {
    && |states| == |events| + 1
    && states[0] == Init(cfg)
    && (forall i :: 0 <= i < |events| ==> StepAt(cfg, states, events, i))
  }
}
