/** What one step can change: the frame conditions behind every invariant of the server. */
module Frames {
  import opened Types
  import opened PeerRegistry
  import opened MessageRouter
  import opened Directory
  import opened Protocol
  import opened Shapes

  /** The owner lock a suspended task waits for or holds. */
  predicate Guards(a: Act, n: Nick) {
    (a.Waiting? || a.Writing?) && a.nick == n
  }

  predicate NickSame(d: Dir, d': Dir, n: Nick) {
    && (n in d.reg.owners <==> n in d'.reg.owners)
    && (n in d.reg.owners && n in d'.reg.owners ==> d.reg.owners[n] == d'.reg.owners[n])
    && (n in d.reg.peers <==> n in d'.reg.peers)
    && (n in d.reg.peers && n in d'.reg.peers ==> d.reg.peers[n] == d'.reg.peers[n])
    && (n in d.connOf <==> n in d'.connOf)
    && (n in d.connOf && n in d'.connOf ==> d.connOf[n] == d'.connOf[n])
  }

  /** The `PeerInfo` of `c` is the same up to its `last_seen`. */
  predicate InfoSame(d: Dir, d': Dir, c: ConnId) {
    && c in d.reg.infos ==>
      c in d'.reg.infos && d'.reg.infos[c] == d.reg.infos[c].(lastSeen := d'.reg.infos[c].lastSeen)
  }

  ghost predicate Framed(d: Dir, d': Dir, a: Act) {
    && d'.reg.maxPeers == d.reg.maxPeers
    && (forall n :: !Guards(a, n) ==> NickSame(d, d', n))
    && (forall c :: !((a.Waiting? || a.Writing?) && Current(d.reg, a.nick, c)) ==> InfoSame(d, d', c))
  }

  /** Ownership, status and routing are those of `d`; only `last_seen`, the per-generation tables
      and the pool may differ. */
  ghost predicate Quiet(d: Dir, d': Dir) {
    && d'.reg.maxPeers == d.reg.maxPeers && d'.reg.peers == d.reg.peers && d'.reg.owners == d.reg.owners
    && d'.connOf == d.connOf
    && d'.reg.infos.Keys == d.reg.infos.Keys
    && (forall c :: InfoSame(d, d', c))
  }

  lemma RegisterFramedAt(d: Dir, c: ConnId, info: PeerInfo, key: Option<PubKey>, now: int, n: Nick)
    requires RegisterPeer(d, c, info, key, now).Admitted? && n != info.nick
    ensures NickSame(d, RegisterPeer(d, c, info, key, now).dir, n)
  {
  }

  lemma RegisterFramed(d: Dir, c: ConnId, info: PeerInfo, key: Option<PubKey>, now: int)
    requires RegisterPeer(d, c, info, key, now).Admitted? && c !in d.reg.infos
    ensures Framed(d, RegisterPeer(d, c, info, key, now).dir, Waiting(info.nick, ToRegister))
  {
    var d' := RegisterPeer(d, c, info, key, now).dir;
    assert d'.reg.infos == d.reg.infos[c := info.(lastSeen := now)] && d'.reg.maxPeers == d.reg.maxPeers;
    forall n | n != info.nick ensures NickSame(d, d', n) {
      RegisterFramedAt(d, c, info, key, now, n);
    }
    hide RegisterPeer;
  }

  lemma RemoveFramed(d: Dir, g: Gen, want: Want)
    requires MapsAgree(d) && Live(d, g)
    ensures Framed(d, RemoveGen(d, g), Waiting(g.nick, want))
  {
  }

  lemma PromoteFramed(d: Dir, g: Gen, now: int, a: Act)
    requires MapsAgree(d) && Live(d, g) && Guards(a, g.nick)
    ensures Framed(d, Promote(d, g, now), a)
  {
  }

  lemma TouchQuiet(d: Dir, g: Gen, now: int)
    requires MapsAgree(d)
    ensures Quiet(d, Touch(d, g, now))
  {
  }

  lemma QuietTables(d: Dir, d1: Dir, d': Dir)
    requires Quiet(d, d1) && d'.reg == d1.reg && d'.connOf == d1.connOf
    ensures Quiet(d, d')
  {
    forall c ensures InfoSame(d, d', c) { assert InfoSame(d, d1, c); }
  }

  // ---- the effect of a step on the tables ----

  datatype Effect =
    | NoEffect
    | Closes(conn: ConnId)
    | Registers(info: PeerInfo, key: Option<PubKey>)
    | Promotes(nick: Nick)
    | Removes(gen: Gen)
    | Touches(nick: Nick)
    | Publishes(nick: Nick, kind: PubKind)
    | Answers(nick: Nick)
    | AddsPong(gen: Gen)
    | DropsPong(gen: Gen)

  function Do(d: Dir, t: nat, e: Effect, o: Oracle): (d': Dir) {
    match e
    case NoEffect => d
    case Closes(c) => CloseConn(d, c)
    case Registers(info, key) =>
      var res := RegisterPeer(d, t, info, key, o.now);
      if res.Admitted? then res.dir else d
    case Promotes(n) => Promote(d, Gen(n, t), o.now)
    case Removes(g) => RemoveGen(d, g)
    case Touches(n) => Touch(d, Gen(n, t), o.now)
    case Publishes(n, kind) => Publish(Touch(d, Gen(n, t), o.now), Gen(n, t), kind, o.admit)
    case Answers(n) => DropPong(Touch(d, Gen(n, t), o.now), Gen(n, t))
    case AddsPong(g) => AddPong(d, g)
    case DropsPong(g) => DropPong(d, g)
  }

  /** The generation a sweep is about to act on. */
  predicate HeartNames(sw: Sweep, g: Gen) {
    match sw
    case Evicting(_, todo, _) => todo != [] && todo[0].gen == g
    case Probing(_, todo, _, _, NoProbe) => todo != [] && todo[0].gen == g
    case Probing(_, _, _, _, PingProbe(x)) => x.gen == g
    case TimingOut(_, todo) => todo != [] && todo[0].gen == g
    case _ => false
  }

  /** Which task may have which effect, and under which lock. */
  predicate Allowed(d: Dir, t: nat, task: Task, e: Effect, o: Oracle) {
    match e
    case NoEffect => true
    case Closes(_) => true
    case Registers(info, key) =>
      && task.role == Handler(Registering(info, key)) && Guards(task.act, info.nick)
      && RegisterPeer(d, t, info, key, o.now).Admitted?
    case Promotes(n) =>
      (task.role == Handler(Confirming(n)) || task.role == Handler(Promoting(n))) && Guards(task.act, n)
        && Live(d, Gen(n, t))
    case Removes(g) => task.act.Waiting? && task.act.want.ToRemove? && g == Gen(task.act.nick, task.act.want.conn)
      && Removable(d, g)
    case Touches(n) => task.role.Handler? && task.role.phase.Serving? && task.role.phase.nick == n
    case Publishes(n, _) => task.role.Handler? && task.role.phase.Serving? && task.role.phase.nick == n
      && Live(d, Gen(n, t))
    case Answers(n) => task.role.Handler? && task.role.phase.Serving? && task.role.phase.nick == n
    case AddsPong(g) => task.role.Heart? && HeartNames(task.role.sweep, g) && Live(d, g)
    case DropsPong(g) => task.role.Heart? && HeartNames(task.role.sweep, g)
  }

  function ServeEffect(d: Dir, c: ConnId, n: Nick, o: Oracle): (e: Effect) {
    if o.msg.Hangup? then NoEffect
    else if Current(d.reg, n, c) && Known(d.reg, n) && IsHandshaked(Touch(d, Gen(n, c), o.now).reg, n) then
      if o.msg.Pub? then Publishes(n, o.msg.kind)
      else if o.msg.Pong? then Answers(n)
      else Touches(n)
    else Touches(n)
  }

  function HandlerEffect(d: Dir, c: ConnId, phase: Phase, a: Act, o: Oracle, d': Dir): (e: Effect) {
    var closes := if d' == d then NoEffect else Closes(c);
    match phase
    case Registering(info, key) => if RegisterPeer(d, c, info, key, o.now).Admitted? then Registers(info, key)
      else NoEffect
    case Confirming(n) => if a.Writing? && o.ok && Current(d.reg, n, c) && Known(d.reg, n) then Promotes(n) else closes
    case Promoting(n) => if Current(d.reg, n, c) && Known(d.reg, n) then Promotes(n) else closes
    case Serving(n, job) =>
      if !a.Returned? then ServeEffect(d, c, n, o)
      else if job.Reap? && a.ok then Closes(job.dead.conn) else NoEffect
    case _ => closes
  }

  function RestEffect(d: Dir, role: Role, a: Act, d': Dir): (e: Effect) {
    if d' == d then NoEffect
    else match role
      case Sender(g, _) => Closes(g.conn)
      case Heart(Evicting(_, todo, _)) =>
        if todo == [] then NoEffect else if a.Returned? then Closes(todo[0].gen.conn) else DropsPong(todo[0].gen)
      case Heart(TimingOut(_, todo)) =>
        if todo == [] then NoEffect else if a.Returned? then Closes(todo[0].gen.conn) else DropsPong(todo[0].gen)
      case Heart(Probing(_, todo, _, _, NoProbe)) => if todo == [] then NoEffect else AddsPong(todo[0].gen)
      case Heart(Probing(_, _, _, _, PingProbe(x))) => DropsPong(x.gen)
      case Heart(Probing(_, _, _, _, DeadProbe(x))) => Closes(x.gen.conn)
      case _ => NoEffect
  }

  function EffectOf(d: Dir, t: nat, task: Task, o: Oracle, d': Dir): (e: Effect) {
    if InSharedCall(task.act) then
      if task.act.Waiting? && task.act.want.ToRemove? && Removable(d, Gen(task.act.nick, task.act.want.conn))
      then Removes(Gen(task.act.nick, task.act.want.conn)) else NoEffect
    else if task.role.Handler? then HandlerEffect(d, t, task.role.phase, task.act, o, d')
    else RestEffect(d, task.role, task.act, d')
  }

  lemma ServeDoes(cfg: Config, d: Dir, c: ConnId, n: Nick, o: Oracle, base: nat)
    ensures ServeMove(cfg, d, c, n, o, base).dir == Do(d, c, ServeEffect(d, c, n, o), o)
  {
    hide Broadcast, Publish, Touch, IsHandshaked, Known, RegisterPeer;
  }

  lemma HandlerDoes(cfg: Config, d: Dir, c: ConnId, phase: Phase, a: Act, o: Oracle, base: nat)
    requires HandlerShape(c, phase, a) && !InSharedCall(a)
    ensures var d' := HandlerMove(cfg, d, c, phase, a, o, base).dir;
            var e := HandlerEffect(d, c, phase, a, o, d');
            d' == Do(d, c, e, o) && Allowed(d, c, Task(Handler(phase), a), e, o)
  {
    hide Broadcast, ServeMove, RegisterPeer, Publish, Touch, Promote, Known;
    if phase.Serving? { ServeDoes(cfg, d, c, phase.nick, o, base); }
  }

  lemma RestDoes(cfg: Config, d: Dir, t: nat, task: Task, base: nat, o: Oracle)
    requires !InSharedCall(task.act) && !task.role.Handler?
    ensures var d' := OwnMove(cfg, d, t, task, base, o).dir;
            var e := RestEffect(d, task.role, task.act, d');
            d' == Do(d, t, e, o) && Allowed(d, t, task, e, o)
  {
    hide IdleSince, Removable, Unanswered, Known;
  }

  /** Every step has the effect `EffectOf`, and only where that effect is allowed. */
  lemma MoveDoes(cfg: Config, d: Dir, t: nat, task: Task, base: nat, o: Oracle)
    requires Shape(t, task, base)
    ensures var d' := MoveOf(cfg, d, t, task, base, o).dir;
            var e := EffectOf(d, t, task, o, d');
            d' == Do(d, t, e, o) && Allowed(d, t, task, e, o)
  {
    if InSharedCall(task.act) {
    } else if task.role.Handler? {
      HandlerDoes(cfg, d, t, task.role.phase, task.act, o, base);
    } else {
      RestDoes(cfg, d, t, task, base, o);
    }
    hide NextBatch, Broadcast, RemoveGen, HandlerMove, HandlerEffect, RestEffect, RegisterPeer, Publish, Touch, Promote;
  }

  function StepMove(cfg: Config, s: State, t: nat, o: Oracle): (m: Move)
    requires t < |s.tasks|
  {
    MoveOf(cfg, s.dir, t, s.tasks[t], |s.tasks|, o)
  }

  function StepEffect(cfg: Config, s: State, t: nat, o: Oracle): (e: Effect)
    requires t < |s.tasks|
  {
    EffectOf(s.dir, t, s.tasks[t], o, StepMove(cfg, s, t, o).dir)
  }

  /** A registering handler has no `PeerInfo` in the registry yet. */
  predicate Unregistered(d: Dir, t: nat, task: Task) {
    task.role.Handler? && task.role.phase.Registering? ==> t !in d.reg.infos
  }

  /** A step changes ownership and status only of the nick whose lock it has. */
  lemma DoFramed(d: Dir, t: nat, task: Task, e: Effect, o: Oracle)
    requires MapsAgree(d) && Allowed(d, t, task, e, o) && Unregistered(d, t, task)
    ensures Framed(d, Do(d, t, e, o), task.act)
  {
    hide Ingress, RegisterPeer, Promote, RemoveGen, Touch;
    match e
    case Registers(info, key) => RegisterFramed(d, t, info, key, o.now);
    case Promotes(n) => PromoteFramed(d, Gen(n, t), o.now, task.act);
    case Removes(g) => RemoveFramed(d, g, task.act.want);
    case Touches(n) => TouchQuiet(d, Gen(n, t), o.now);
    case Publishes(n, _) => TouchQuiet(d, Gen(n, t), o.now); QuietTables(d, Touch(d, Gen(n, t), o.now), Do(d, t, e, o));
    case Answers(n) => TouchQuiet(d, Gen(n, t), o.now); QuietTables(d, Touch(d, Gen(n, t), o.now), Do(d, t, e, o));
    case _ =>
  }

  lemma TouchConsistent(d: Dir, g: Gen, now: int)
    requires Consistent(d)
    ensures Consistent(Touch(d, g, now))
  {
  }

  lemma PromoteConsistent(d: Dir, g: Gen, now: int)
    requires Consistent(d)
    ensures Consistent(Promote(d, g, now))
  {
  }

  lemma RegisterConsistent(d: Dir, c: ConnId, info: PeerInfo, key: Option<PubKey>, now: int)
    requires Consistent(d) && c !in d.reg.infos && RegisterPeer(d, c, info, key, now).Admitted?
    ensures Consistent(RegisterPeer(d, c, info, key, now).dir)
  {
    RegisterKeepsMaps(d, c, info, key, now);
    RegisterKeepsTables(d, c, info, key, now);
    RegisterKeepsCapacity(d, c, info, key, now);
    hide Register, MapsAgree, TablesLive, BoundedOffers, ForgetGen;
  }

  lemma PongConsistent(d: Dir, d': Dir)
    requires Consistent(d) && d' == d.(pong := d'.pong, pool := d'.pool)
    requires forall g :: g in d'.pong ==> g in d.pong || Live(d, g)
    ensures Consistent(d')
  {
  }

  lemma DoConsistent(d: Dir, t: nat, task: Task, e: Effect, o: Oracle)
    requires Consistent(d) && Allowed(d, t, task, e, o) && Unregistered(d, t, task)
    ensures Consistent(Do(d, t, e, o))
  {
    hide RegisterPeer, Promote, RemoveGen, Touch, Publish, Consistent;
    match e
    case NoEffect =>
    case Registers(info, key) => RegisterConsistent(d, t, info, key, o.now);
    case Promotes(n) => PromoteConsistent(d, Gen(n, t), o.now);
    case Removes(g) => RemoveKeepsConsistent(d, g);
    case Touches(n) => TouchConsistent(d, Gen(n, t), o.now);
    case Publishes(n, kind) =>
      TouchConsistent(d, Gen(n, t), o.now);
      TouchQuiet(d, Gen(n, t), o.now) by { assert MapsAgree(d) by { AgreeOf(d); } }
      PublishKeepsConsistent(Touch(d, Gen(n, t), o.now), Gen(n, t), kind, o.admit);
    case Answers(n) =>
      TouchConsistent(d, Gen(n, t), o.now);
      PongConsistent(Touch(d, Gen(n, t), o.now), Do(d, t, e, o));
    case _ => PongConsistent(d, Do(d, t, e, o));
  }

  lemma AgreeOf(d: Dir)
    requires Consistent(d)
    ensures MapsAgree(d)
  {
  }
}
