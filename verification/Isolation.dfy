/** A generation is only touched by its own handler, by a registration of its nick, by a removal that
    names it and by the heartbeat when it names it; late work for an older generation cannot reach it. */
module Isolation {
  import opened Types
  import opened PeerRegistry
  import opened MessageRouter
  import opened Directory
  import opened Protocol
  import opened Shapes
  import opened Frames
  import opened Ownership
  import opened Announcements

  predicate Removed(a: Act) {
    a.Gathering? || a == Returned(true)
  }

  /** The generation a task has removed and whose connection it is about to close. */
  function Reaps(task: Task): (g: Option<Gen>) {
    if !Removed(task.act) then None
    else match task.role
      case Handler(Serving(_, Reap(h))) => Some(h)
      case Sender(h, Reaping) => Some(h)
      case Heart(Evicting(_, todo, _)) => if todo == [] then None else Some(todo[0].gen)
      case Heart(TimingOut(_, todo)) => if todo == [] then None else Some(todo[0].gen)
      case Heart(Probing(_, _, _, _, DeadProbe(x))) => Some(x.gen)
      case _ => None
  }

  predicate ReapSafe(d: Dir, task: Task) {
    Reaps(task).Some? ==> Reaps(task).value.conn in d.reg.infos && !Owned(d, Reaps(task).value.conn)
  }

  predicate Opened(d: Dir, t: nat, task: Task) {
    task.role.Handler? && Early(task.role.phase) ==> t in d.pool
  }

  /** Every current owner has its connection in the pool. */
  ghost predicate OwnersPooled(s: State) {
    && (forall n :: n in s.dir.reg.owners ==> s.dir.reg.owners[n].conn in s.dir.pool)
    && (forall t :: 0 <= t < |s.tasks| ==> Opened(s.dir, t, s.tasks[t]) && ReapSafe(s.dir, s.tasks[t]))
  }

  // ---- who closes a connection ----

  lemma HandlerCloses(cfg: Config, d: Dir, c: ConnId, phase: Phase, a: Act, o: Oracle, base: nat)
    requires HandlerShape(c, phase, a) && !InSharedCall(a)
    ensures var m := HandlerMove(cfg, d, c, phase, a, o, base);
            var e := HandlerEffect(d, c, phase, a, o, m.dir);
            && (e.Closes? ==>
                  || (Reaps(Task(Handler(phase), a)).Some? && Reaps(Task(Handler(phase), a)).value.conn == e.conn)
                  || (e.conn == c && m.task.role == Handler(Closing)))
            && Reaps(m.task).None?
            && m.task.role.Handler?
            && (Early(m.task.role.phase) ==> Early(phase) && !e.Closes?)
  {
    if phase.Serving? && !a.Returned? { ServeReaps(cfg, d, c, phase.nick, o, base); }
    hide Broadcast, ServeMove, RegisterPeer, Promote, Touch, Publish, Known, Current, IsHandshaked;
  }

  lemma ServeReaps(cfg: Config, d: Dir, c: ConnId, n: Nick, o: Oracle, base: nat)
    ensures var m := ServeMove(cfg, d, c, n, o, base);
            && Reaps(m.task).None? && m.task.role.Handler? && (m.task.role.phase.Serving? || m.task.role.phase.Leaving?)
            && !ServeEffect(d, c, n, o).Closes?
  {
    hide Broadcast, Publish, Touch, IsHandshaked, Known, Current;
  }

  lemma RestCloses(cfg: Config, d: Dir, t: nat, task: Task, base: nat, o: Oracle)
    requires Shape(t, task, base) && !task.role.Handler? && !InSharedCall(task.act)
    ensures var m := OwnMove(cfg, d, t, task, base, o);
            var e := RestEffect(d, task.role, task.act, m.dir);
            && (e.Closes? ==> Reaps(task).Some? && Reaps(task).value.conn == e.conn)
            && Reaps(m.task).None? && !m.task.role.Handler?
  {
    hide IdleSince, Unanswered, Known, Removable;
  }

  ghost predicate CloseStep(d: Dir, t: nat, task: Task, m: Move, e: Effect) {
    && (e.Closes? ==>
          || (Reaps(task).Some? && Reaps(task).value.conn == e.conn)
          || (e.conn == t && m.task.role == Handler(Closing)))
    && (Reaps(m.task).Some? ==> Reaps(task) == Reaps(m.task) || (e.Removes? && Reaps(m.task) == Some(e.gen)))
    && (m.task.role.Handler? && Early(m.task.role.phase) ==>
          task.role.Handler? && Early(task.role.phase) && !e.Closes?)
  }

  lemma SharedCloses(cfg: Config, d: Dir, t: nat, task: Task, base: nat, o: Oracle)
    requires Shape(t, task, base) && InSharedCall(task.act)
    ensures var m := SharedMove(cfg, d, task, base, o); CloseStep(d, t, task, m, EffectOf(d, t, task, o, m.dir))
  {
    hide Broadcast, NextBatch, RemoveGen, Removable, IsHandshaked, SendReady;
  }

  lemma MoveCloses(cfg: Config, d: Dir, t: nat, task: Task, base: nat, o: Oracle)
    requires Shape(t, task, base)
    ensures var m := MoveOf(cfg, d, t, task, base, o); CloseStep(d, t, task, m, EffectOf(d, t, task, o, m.dir))
  {
    if InSharedCall(task.act) { SharedCloses(cfg, d, t, task, base, o); }
    else if task.role.Handler? { HandlerCloses(cfg, d, t, task.role.phase, task.act, o, base); }
    else { RestCloses(cfg, d, t, task, base, o); }
    hide SharedMove, HandlerMove, HandlerEffect, RestEffect, SenderMove, HeartMove, Reaps;
  }

  // ---- owners stay pooled ----

  lemma DoPoolExact(d: Dir, t: nat, e: Effect, o: Oracle)
    ensures Do(d, t, e, o).pool == if e.Closes? then d.pool - {e.conn} else d.pool
  {
    hide Ingress;
  }

  lemma OwnerPooledAfter(s: State, t: nat, m: Move, e: Effect, o: Oracle, n: Nick)
    requires MapsAgree(s.dir) && OwnersServed(s) && OwnersPooled(s)
    requires OwnStep(s, t, m, e, o) && CloseStep(s.dir, t, s.tasks[t], m, e) && n in m.dir.reg.owners
    ensures m.dir.reg.owners[n].conn in m.dir.pool
  {
    var c := m.dir.reg.owners[n].conn;
    DoPoolExact(s.dir, t, e, o);
    DoOwners(s.dir, t, s.tasks[t], e, o, n, c);
    assert Opened(s.dir, t, s.tasks[t]) && ReapSafe(s.dir, s.tasks[t]);
    if Current(s.dir.reg, n, c) {
      CurrentKnown(s.dir, n, c);
      assert ServedBy(s.tasks, n, c);
    }
    hide Do, MapsAgree, Reaps;
  }

  lemma TaskPooledAfter(s: State, t: nat, m: Move, e: Effect, o: Oracle, u: nat)
    requires OwnStep(s, t, m, e, o) && u < |s.tasks|
    requires MapsAgree(s.dir) && OwnersPooled(s) && Unregistered(s.dir, t, s.tasks[t])
    requires CloseStep(s.dir, t, s.tasks[t], m, e) && InfosServed(s)
    ensures var task' := if u == t then m.task else s.tasks[u]; Opened(m.dir, u, task') && ReapSafe(m.dir, task')
  {
    DoPoolExact(s.dir, t, e, o);
    var task' := if u == t then m.task else s.tasks[u];
    assert Opened(s.dir, u, s.tasks[u]) && ReapSafe(s.dir, s.tasks[u]) && ReapSafe(s.dir, s.tasks[t]);
    if Reaps(task').Some? {
      var c := Reaps(task').value.conn;
      if e.Removes? && c == e.gen.conn { CurrentKnown(s.dir, e.gen.nick, c); }
      DoOwned(s.dir, t, s.tasks[t], e, o, c);
      DoKeepsInfos(s.dir, t, e, o, c);
    }
    hide Do, MapsAgree, Reaps, RegisterPeer, Displaces;
  }

  lemma DoKeepsInfos(d: Dir, t: nat, e: Effect, o: Oracle, c: ConnId)
    requires c in d.reg.infos
    ensures c in Do(d, t, e, o).reg.infos
  {
    hide Ingress;
  }

  lemma StepKeepsPooled(cfg: Config, s: State, t: nat, o: Oracle)
    requires Core(s) && OwnersPooled(s) && Enabled(s, t, o)
    ensures OwnersPooled(Step(cfg, s, t, o))
  {
    var m, e, s' := StepMove(cfg, s, t, o), StepEffect(cfg, s, t, o), Step(cfg, s, t, o);
    assert Shape(t, s.tasks[t], |s.tasks|);
    StepOwn(cfg, s, t, o);
    EarlyUnregistered(s, t);
    MoveCloses(cfg, s.dir, t, s.tasks[t], |s.tasks|, o);
    assert MapsAgree(s.dir);
    hide MoveOf, EffectOf, OwnStep, CloseStep, MapsAgree, Shaped, Locked, WritesSafe, TablesLive, BoundedOffers, Opened,
      ReapSafe;
    forall n | n in s'.dir.reg.owners ensures s'.dir.reg.owners[n].conn in s'.dir.pool {
      OwnerPooledAfter(s, t, m, e, o, n);
    }
    forall u | 0 <= u < |s'.tasks| ensures Opened(s'.dir, u, s'.tasks[u]) && ReapSafe(s'.dir, s'.tasks[u]) {
      if u < |s.tasks| {
        TaskPooledAfter(s, t, m, e, o, u);
        assert s'.tasks[u] == if u == t then m.task else s.tasks[u];
      } else {
        NewPooled(s'.dir, u, s'.tasks[u]);
      }
    }
  }

  lemma NewPooled(d: Dir, u: nat, task: Task)
    requires task.role.Sender? && task.act.Running?
    ensures Opened(d, u, task) && ReapSafe(d, task)
  {
  }

  // ---- isolation ----

  /** Everything kept for `g`: ownership, `PeerInfo`, routing entry, pool entry, offers, buckets, drop count,
      pending pong. */
  predicate SliceSame(d: Dir, d': Dir, g: Gen) {
    && NickSame(d, d', g.nick)
    && (g.conn in d.reg.infos <==> g.conn in d'.reg.infos)
    && (g.conn in d.reg.infos && g.conn in d'.reg.infos ==> d.reg.infos[g.conn] == d'.reg.infos[g.conn])
    && (g.conn in d.pool <==> g.conn in d'.pool)
    && (g in d.router.offers <==> g in d'.router.offers)
    && (g in d.router.offers && g in d'.router.offers ==> d.router.offers[g] == d'.router.offers[g])
    && (g in d.router.buckets <==> g in d'.router.buckets)
    && (g in d.router.drops <==> g in d'.router.drops)
    && (g in d.router.drops && g in d'.router.drops ==> d.router.drops[g] == d'.router.drops[g])
    && (g in d.pong <==> g in d'.pong)
  }

  /** The tasks that act for `g`. */
  predicate ActsFor(t: nat, task: Task, g: Gen) {
    || t == g.conn
    || (task.act.Waiting? && task.act.nick == g.nick && task.act.want.ToRegister?)
    || (task.act.Waiting? && task.act.nick == g.nick && task.act.want.ToRemove? && task.act.want.conn == g.conn)
    || (task.role.Heart? && HeartNames(task.role.sweep, g))
  }

  lemma RegisterIsolated(d: Dir, c: ConnId, info: PeerInfo, key: Option<PubKey>, now: int, g: Gen)
    requires RegisterPeer(d, c, info, key, now).Admitted? && c != g.conn && info.nick != g.nick
    ensures SliceSame(d, RegisterPeer(d, c, info, key, now).dir, g)
  {
    RegisterFramedAt(d, c, info, key, now, g.nick);
  }

  lemma RemoveIsolated(d: Dir, h: Gen, g: Gen)
    requires MapsAgree(d) && Live(d, h) && Live(d, g) && h != g
    ensures SliceSame(d, RemoveGen(d, h), g)
  {
  }

  lemma DoIsolated(d: Dir, t: nat, task: Task, e: Effect, o: Oracle, g: Gen)
    requires MapsAgree(d) && Allowed(d, t, task, e, o) && Live(d, g) && !ActsFor(t, task, g)
    requires e.Closes? ==> e.conn != g.conn
    requires e.Registers? ==> task.act == Waiting(e.info.nick, ToRegister)
    ensures SliceSame(d, Do(d, t, e, o), g)
  {
    match e
    case Registers(info, key) => RegisterIsolated(d, t, info, key, o.now, g); hide RegisterPeer;
    case Removes(h) => RemoveIsolated(d, h, g); hide RemoveGen;
    case Publishes(n, kind) => IngressIsLocal(d.router, Gen(n, t), kind, o.admit, g); hide Ingress;
    case _ =>
  }

  /** A step of a task that does not act for the current owner `g` leaves all of `g`'s state as it was. */
  lemma GenerationIsolated(cfg: Config, s: State, t: nat, o: Oracle, g: Gen)
    requires Core(s) && OwnersPooled(s) && Enabled(s, t, o)
    requires Live(s.dir, g) && !ActsFor(t, s.tasks[t], g)
    ensures SliceSame(s.dir, Step(cfg, s, t, o).dir, g)
  {
    hide MoveOf, Do, EffectOf, SliceSame, Reaps, WritesSafe, Locked;
    var task, base, e := s.tasks[t], |s.tasks|, StepEffect(cfg, s, t, o);
    assert Shape(t, task, base) && ReapSafe(s.dir, task);
    MoveDoes(cfg, s.dir, t, task, base, o);
    MoveCloses(cfg, s.dir, t, task, base, o);
    CurrentKnown(s.dir, g.nick, g.conn);
    DoIsolated(s.dir, t, task, e, o, g);
  }

  lemma WaiterHoldsNothing(s: State, t: nat)
    requires Locked(s) && t < |s.tasks| && !s.tasks[t].act.Writing?
    ensures Relock(s.locks, t, None) == s.locks
  {
  }

  /** Work that is still in flight for a generation that no longer owns its nick changes no table:
      a removal (failed send, pong timeout, eviction, clean-up) or a write for it ends without effect. */
  lemma StaleIsHarmless(cfg: Config, s: State, t: nat, o: Oracle, g: Gen)
    requires Core(s) && Enabled(s, t, o) && !Live(s.dir, g)
    requires s.tasks[t].act.Waiting? && s.tasks[t].act.nick == g.nick
    requires (s.tasks[t].act.want.ToRemove? || s.tasks[t].act.want.ToSend?) && s.tasks[t].act.want.conn == g.conn
    ensures var s' := Step(cfg, s, t, o);
            s' == s.(tasks := s.tasks[t := Task(s.tasks[t].role, Returned(false))])
  {
    hide RemoveGen, NextBatch, WritesSafe, OwnersServed, InfosServed, Consistent;
    var s' := Step(cfg, s, t, o);
    WaiterHoldsNothing(s, t);
    assert StepMove(cfg, s, t, o) == Stay(s.dir, s.tasks[t].role, Returned(false));
    assert s'.tasks == s.tasks[t := Task(s.tasks[t].role, Returned(false))] + [];
  }
}
