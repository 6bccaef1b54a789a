/** Who owns a nick: every owner is served by an unfinished handler, and every owner lock protects its owner. */
module Ownership {
  import opened Types
  import opened PeerRegistry
  import opened MessageRouter
  import opened Directory
  import opened Protocol
  import opened Shapes
  import opened Frames

  /** The nick a handler has registered and has not given back. */
  function KeyOf(phase: Phase): (key: Option<Nick>) {
    match phase
    case Displacing(n, _) => Some(n)
    case ClosingOld(n) => Some(n)
    case Confirming(n) => Some(n)
    case Responding(n) => Some(n)
    case Pausing(n) => Some(n)
    case Promoting(n) => Some(n)
    case RollingBack(n) => Some(n)
    case Serving(n, _) => Some(n)
    case Leaving(n) => Some(n)
    case _ => None
  }

  /** The handler has not registered. */
  predicate Early(phase: Phase) {
    phase.Hello? || phase.Refusing? || phase.Auth? || phase.Registering?
  }

  /** The handler has given its registration back. */
  predicate Released(task: Task) {
    task.role.Handler? && !task.act.Waiting? && (task.role.phase.RollingBack? || task.role.phase.Leaving?)
  }

  predicate ServedBy(tasks: seq<Task>, n: Nick, c: ConnId) {
    0 < c < |tasks| && tasks[c].role.Handler? && KeyOf(tasks[c].role.phase) == Some(n)
  }

  ghost predicate OwnersServed(s: State) {
    && (forall n :: n in s.dir.reg.owners ==> ServedBy(s.tasks, n, s.dir.reg.owners[n].conn))
    && (forall t :: 0 <= t < |s.tasks| && Released(s.tasks[t]) ==> !Current(s.dir.reg, s.tasks[t].role.phase.nick, t))
  }

  /** Only registered connections have a `PeerInfo`. */
  ghost predicate InfosServed(s: State) {
    forall c :: c in s.dir.reg.infos ==> 0 < c < |s.tasks| && s.tasks[c].role.Handler? && !Early(s.tasks[c].role.phase)
  }

  ghost predicate Locked(s: State) {
    && (forall n :: n in s.locks ==>
          && s.locks[n] < |s.tasks|
          && s.tasks[s.locks[n]].act.Writing? && s.tasks[s.locks[n]].act.nick == n)
    && (forall t :: 0 <= t < |s.tasks| && s.tasks[t].act.Writing? ==>
          s.tasks[t].act.nick in s.locks && s.locks[s.tasks[t].act.nick] == t)
  }

  /** The generation a task writes to while it holds the lock of `a.nick`. */
  function WrittenGen(t: nat, a: Act): (g: Gen)
    requires a.Writing?
  {
    Gen(a.nick, if a.want.ToSend? then a.want.conn else t)
  }

  /** While a write is in progress under the owner lock, its connection is the current owner, and
      for a routed write that owner is HANDSHAKED. */
  predicate WriteSafe(d: Dir, t: nat, a: Act) {
    a.Writing? ==>
      && Live(d, WrittenGen(t, a))
      && (a.want.ToSend? ==> IsHandshaked(d.reg, a.nick))
  }

  ghost predicate WritesSafe(s: State) {
    forall t :: 0 <= t < |s.tasks| ==> WriteSafe(s.dir, t, s.tasks[t].act)
  }

  ghost predicate Core(s: State) {
    Shaped(s) && Consistent(s.dir) && Locked(s) && OwnersServed(s) && InfosServed(s) && WritesSafe(s)
  }

  lemma EarlyUnregistered(s: State, t: nat)
    requires InfosServed(s) && t < |s.tasks|
    ensures Unregistered(s.dir, t, s.tasks[t])
  {
  }

  // ---- locks ----

  /** A move ends inside an owner lock exactly when it ends at a write to the owner of that nick. */
  predicate HoldsWhatItWrites(m: Move) {
    m.holds == if m.task.act.Writing? then Some(m.task.act.nick) else None
  }

  lemma StepKeepsLocked(cfg: Config, s: State, t: nat, m: Move)
    requires Locked(s) && t < |s.tasks| && HoldsWhatItWrites(m)
    requires m.task.act.Writing? ==> Guards(s.tasks[t].act, m.task.act.nick)
    requires s.tasks[t].act.Waiting? ==> s.tasks[t].act.nick !in s.locks
    ensures Locked(Apply(s, t, m))
  {
    var s' := Apply(s, t, m);
    forall u | 0 <= u < |s'.tasks| && s'.tasks[u].act.Writing?
      ensures s'.tasks[u].act.nick in s'.locks && s'.locks[s'.tasks[u].act.nick] == u
    {
      assert u < |s.tasks|;
      assert u != t ==> s'.tasks[u] == s.tasks[u];
    }
  }

  /** A move that ends at a write is inside the lock it waited for, and the write is safe. */
  ghost predicate HoldStep(d: Dir, t: nat, task: Task, m: Move) {
    && HoldsWhatItWrites(m)
    && (m.task.act.Writing? ==> m.dir == d && Guards(task.act, m.task.act.nick) && WriteSafe(d, t, m.task.act))
  }

  lemma SharedHolds(cfg: Config, d: Dir, t: nat, task: Task, base: nat, o: Oracle)
    requires InSharedCall(task.act)
    ensures HoldStep(d, t, task, SharedMove(cfg, d, task, base, o))
  {
    hide Broadcast, NextBatch, RemoveGen, Removable, IsHandshaked;
  }

  lemma ServeHolds(cfg: Config, d: Dir, c: ConnId, n: Nick, o: Oracle, base: nat)
    ensures var m := ServeMove(cfg, d, c, n, o, base); !m.task.act.Writing? && m.holds.None?
  {
    hide Broadcast, Publish, Touch, IsHandshaked, Known, Current;
  }

  lemma HandlerHolds(cfg: Config, d: Dir, c: ConnId, phase: Phase, a: Act, o: Oracle, base: nat)
    requires HandlerShape(c, phase, a) && !InSharedCall(a)
    ensures HoldStep(d, c, Task(Handler(phase), a), HandlerMove(cfg, d, c, phase, a, o, base))
  {
    hide Broadcast, ServeMove, RegisterPeer, Promote, Removable, Known, IsHandshaked;
    if phase.Serving? && !a.Returned? { ServeHolds(cfg, d, c, phase.nick, o, base); }
  }

  lemma RestHolds(cfg: Config, d: Dir, t: nat, task: Task, base: nat, o: Oracle)
    requires !task.role.Handler?
    ensures var m := OwnMove(cfg, d, t, task, base, o); !m.task.act.Writing? && m.holds.None?
  {
    hide IdleSince, Unanswered, Removable, Known, IsHandshaked;
  }

  lemma HoldsAfter(cfg: Config, d: Dir, t: nat, task: Task, base: nat, o: Oracle)
    requires Shape(t, task, base)
    ensures HoldStep(d, t, task, MoveOf(cfg, d, t, task, base, o))
  {
    if InSharedCall(task.act) { SharedHolds(cfg, d, t, task, base, o); }
    else if task.role.Handler? { HandlerHolds(cfg, d, t, task.role.phase, task.act, o, base); }
    else { RestHolds(cfg, d, t, task, base, o); }
    hide SharedMove, HandlerMove, SenderMove, HeartMove;
  }

  // ---- writes in progress ----

  /** A write under the lock of another nick stays safe. */
  lemma FramedWrite(d: Dir, d': Dir, a: Act, u: nat, au: Act)
    requires MapsAgree(d) && Framed(d, d', a) && au.Writing? && !Guards(a, au.nick) && WriteSafe(d, u, au)
    ensures WriteSafe(d', u, au)
  {
    var g := WrittenGen(u, au);
    assert NickSame(d, d', g.nick);
    if (a.Waiting? || a.Writing?) && Current(d.reg, a.nick, g.conn) { OwnersAreInjective(d, a.nick, g.nick); }
    assert InfoSame(d, d', g.conn);
  }

  lemma StepKeepsWrites(cfg: Config, s: State, t: nat, o: Oracle)
    requires Core(s) && Enabled(s, t, o)
    ensures WritesSafe(Step(cfg, s, t, o))
  {
    var task, base := s.tasks[t], |s.tasks|;
    var m := MoveOf(cfg, s.dir, t, task, base, o);
    assert Shape(t, task, base);
    EarlyUnregistered(s, t);
    MoveDoes(cfg, s.dir, t, task, base, o);
    var e := StepEffect(cfg, s, t, o);
    DoFramed(s.dir, t, task, e, o);
    HoldsAfter(cfg, s.dir, t, task, base, o);
    hide MoveOf, Do, Framed, WriteSafe;
    var s' := Apply(s, t, m);
    forall u | 0 <= u < |s'.tasks| ensures WriteSafe(s'.dir, u, s'.tasks[u].act) {
      if u != t && u < base {
        assert s'.tasks[u] == s.tasks[u];
        if s.tasks[u].act.Writing? { FramedWrite(s.dir, m.dir, task.act, u, s.tasks[u].act); }
        else { NoWrite(m.dir, u, s.tasks[u].act); }
      } else if u == t {
        assert s'.tasks[u] == m.task;
        if !m.task.act.Writing? { NoWrite(m.dir, u, m.task.act); }
      } else {
        NoWrite(m.dir, u, Running);
      }
    }
  }

  lemma NoWrite(d: Dir, t: nat, a: Act)
    requires !a.Writing?
    ensures WriteSafe(d, t, a)
  {
  }

  // ---- owners ----

  /** A connection becomes an owner only by its own registration. */
  lemma DoOwners(d: Dir, t: nat, task: Task, e: Effect, o: Oracle, n: Nick, c: ConnId)
    requires Allowed(d, t, task, e, o) && Current(Do(d, t, e, o).reg, n, c)
    ensures Current(d.reg, n, c) || (e.Registers? && c == t && n == e.info.nick)
  {
    hide Ingress;
  }

  lemma RemoveEnds(d: Dir, g: Gen)
    requires MapsAgree(d)
    ensures !Live(RemoveGen(d, g), g) || !Live(d, g)
    ensures Live(d, g) ==> Removable(d, g)
  {
  }

  /** How a step of a handler changes the nick the handler answers for. */
  ghost predicate KeyStep(d': Dir, t: nat, phase: Phase, task': Task) {
    && task'.role.Handler?
    && (Early(task'.role.phase) ==> Early(phase))
    && (Released(task') ==> !Current(d'.reg, task'.role.phase.nick, t))
    && (KeyOf(phase).Some? ==>
          || KeyOf(task'.role.phase) == KeyOf(phase)
          || (KeyOf(task'.role.phase).None? && !Current(d'.reg, KeyOf(phase).value, t)))
  }

  lemma SharedKeyMove(cfg: Config, d: Dir, t: nat, task: Task, base: nat, o: Oracle)
    requires MapsAgree(d) && Shape(t, task, base) && task.role.Handler? && InSharedCall(task.act)
    requires Released(task) ==> !Current(d.reg, task.role.phase.nick, t)
    ensures var m := SharedMove(cfg, d, task, base, o); KeyStep(m.dir, t, task.role.phase, m.task)
  {
    if task.act.Waiting? && task.act.want.ToRemove? { RemoveEnds(d, Gen(task.act.nick, task.act.want.conn)); }
    hide Broadcast, NextBatch, RemoveGen, Removable, IsHandshaked;
  }

  lemma CurrentKnown(d: Dir, n: Nick, c: ConnId)
    requires MapsAgree(d) && Current(d.reg, n, c)
    ensures Known(d.reg, n) && d.reg.peers[n] == c && d.reg.infos[c].nick == n
  {
  }

  lemma ServeKeyMove(cfg: Config, d: Dir, c: ConnId, n: Nick, job: Job, o: Oracle, base: nat)
    ensures var m := ServeMove(cfg, d, c, n, o, base); KeyStep(m.dir, c, Serving(n, job), m.task)
  {
    hide Broadcast, Publish, Touch, IsHandshaked, Known, Current;
  }

  lemma HandlerKeyMove(cfg: Config, d: Dir, c: ConnId, phase: Phase, a: Act, o: Oracle, base: nat)
    requires MapsAgree(d) && HandlerShape(c, phase, a) && !InSharedCall(a)
    requires Released(Task(Handler(phase), a)) ==> !Current(d.reg, phase.nick, c)
    ensures var m := HandlerMove(cfg, d, c, phase, a, o, base); KeyStep(m.dir, c, phase, m.task)
  {
    hide Broadcast, ServeMove, RegisterPeer, Promote, Removable, MapsAgree, Known, Current;
    if phase.Promoting? || phase.Confirming? {
      if Current(d.reg, phase.nick, c) { CurrentKnown(d, phase.nick, c); }
    }
    if phase.Serving? && !a.Returned? { ServeKeyMove(cfg, d, c, phase.nick, phase.job, o, base); }
  }

  lemma RestKeepsRole(cfg: Config, d: Dir, t: nat, task: Task, base: nat, o: Oracle)
    requires !task.role.Handler?
    ensures !MoveOf(cfg, d, t, task, base, o).task.role.Handler?
  {
    hide Broadcast, NextBatch, RemoveGen, IdleSince, Unanswered, Removable;
  }

  lemma RegisterEnters(cfg: Config, d: Dir, t: nat, task: Task, base: nat, o: Oracle, e: Effect)
    requires Shape(t, task, base) && e.Registers? && Allowed(d, t, task, e, o)
    ensures var m := MoveOf(cfg, d, t, task, base, o);
            m.task.role.Handler? && KeyOf(m.task.role.phase) == Some(e.info.nick) && !Early(m.task.role.phase)
  {
    hide RegisterPeer;
  }

  lemma DoInfos(d: Dir, t: nat, e: Effect, o: Oracle, c: ConnId)
    requires MapsAgree(d) && c in Do(d, t, e, o).reg.infos
    ensures c in d.reg.infos || (e.Registers? && c == t)
  {
    hide Ingress;
  }

  /** The facts about one step that the ownership invariants need. */
  ghost predicate OwnStep(s: State, t: nat, m: Move, e: Effect, o: Oracle) {
    && t < |s.tasks|
    && m.dir == Do(s.dir, t, e, o) && Allowed(s.dir, t, s.tasks[t], e, o)
    && (s.tasks[t].role.Handler? ==> KeyStep(m.dir, t, s.tasks[t].role.phase, m.task))
    && (!s.tasks[t].role.Handler? ==> !m.task.role.Handler?)
    && (e.Registers? ==>
          m.task.role.Handler? && KeyOf(m.task.role.phase) == Some(e.info.nick) && !Early(m.task.role.phase))
  }

  lemma StepOwn(cfg: Config, s: State, t: nat, o: Oracle)
    requires Core(s) && Enabled(s, t, o)
    ensures OwnStep(s, t, StepMove(cfg, s, t, o), StepEffect(cfg, s, t, o), o)
  {
    var task, base := s.tasks[t], |s.tasks|;
    assert Shape(t, task, base);
    MoveDoes(cfg, s.dir, t, task, base, o);
    var e := StepEffect(cfg, s, t, o);
    if e.Registers? { RegisterEnters(cfg, s.dir, t, task, base, o, e); }
    if task.role.Handler? {
      if InSharedCall(task.act) { SharedKeyMove(cfg, s.dir, t, task, base, o); }
      else { HandlerKeyMove(cfg, s.dir, t, task.role.phase, task.act, o, base); }
    } else {
      RestKeepsRole(cfg, s.dir, t, task, base, o);
    }
    hide SharedMove, HandlerMove, Do, Allowed, Consistent, Locked, WritesSafe, KeyStep;
  }

  lemma ServedAfter(s: State, t: nat, m: Move, e: Effect, o: Oracle, n: Nick)
    requires OwnersServed(s) && OwnStep(s, t, m, e, o) && n in m.dir.reg.owners && (e.Registers? ==> t > 0)
    ensures ServedBy(Apply(s, t, m).tasks, n, m.dir.reg.owners[n].conn)
  {
    var c := m.dir.reg.owners[n].conn;
    DoOwners(s.dir, t, s.tasks[t], e, o, n, c);
    hide Do, Allowed;
    var tasks' := Apply(s, t, m).tasks;
    if Current(s.dir.reg, n, c) {
      assert ServedBy(s.tasks, n, c);
      assert tasks'[c] == if c == t then m.task else s.tasks[c];
    } else {
      assert tasks'[c] == m.task;
    }
  }

  lemma ReleasedAfter(s: State, t: nat, m: Move, e: Effect, o: Oracle, u: nat)
    requires OwnersServed(s) && OwnStep(s, t, m, e, o) && u < |s.tasks|
    requires Released(Apply(s, t, m).tasks[u])
    ensures !Current(m.dir.reg, Apply(s, t, m).tasks[u].role.phase.nick, u)
  {
    hide Do, Allowed;
    assert Apply(s, t, m).tasks[u] == if u == t then m.task else s.tasks[u];
    if u != t && Current(m.dir.reg, s.tasks[u].role.phase.nick, u) {
      DoOwners(s.dir, t, s.tasks[t], e, o, s.tasks[u].role.phase.nick, u);
    }
  }

  lemma StepKeepsOwners(cfg: Config, s: State, t: nat, o: Oracle)
    requires Core(s) && Enabled(s, t, o)
    ensures OwnersServed(Step(cfg, s, t, o))
  {
    var m := MoveOf(cfg, s.dir, t, s.tasks[t], |s.tasks|, o);
    StepOwn(cfg, s, t, o);
    var e := StepEffect(cfg, s, t, o);
    assert e.Registers? ==> t > 0 by { assert Shape(t, s.tasks[t], |s.tasks|); }
    hide MoveOf, OwnStep, ServedBy, Released, Consistent, Locked, WritesSafe;
    var s' := Apply(s, t, m);
    forall n | n in s'.dir.reg.owners ensures ServedBy(s'.tasks, n, s'.dir.reg.owners[n].conn) {
      ServedAfter(s, t, m, e, o, n);
    }
    forall u | 0 <= u < |s'.tasks| && Released(s'.tasks[u])
      ensures !Current(s'.dir.reg, s'.tasks[u].role.phase.nick, u)
    {
      if u < |s.tasks| { ReleasedAfter(s, t, m, e, o, u); } else { NewNotReleased(s, t, m, u); }
    }
  }

  lemma NewNotReleased(s: State, t: nat, m: Move, u: nat)
    requires t < |s.tasks| <= u < |Apply(s, t, m).tasks|
    ensures !Released(Apply(s, t, m).tasks[u])
  {
  }

  lemma StepKeepsInfos(cfg: Config, s: State, t: nat, o: Oracle)
    requires Core(s) && Enabled(s, t, o)
    ensures InfosServed(Step(cfg, s, t, o))
  {
    var m := MoveOf(cfg, s.dir, t, s.tasks[t], |s.tasks|, o);
    StepOwn(cfg, s, t, o);
    var e := StepEffect(cfg, s, t, o);
    assert e.Registers? ==> t > 0 by { assert Shape(t, s.tasks[t], |s.tasks|); }
    hide MoveOf, Do, Allowed;
    var s' := Apply(s, t, m);
    forall c | c in s'.dir.reg.infos
      ensures 0 < c < |s'.tasks| && s'.tasks[c].role.Handler? && !Early(s'.tasks[c].role.phase)
    {
      DoInfos(s.dir, t, e, o, c);
      assert s'.tasks[c] == if c == t then m.task else s.tasks[c];
    }
  }

  lemma StepKeepsCore(cfg: Config, s: State, t: nat, o: Oracle)
    requires Core(s) && Enabled(s, t, o)
    ensures Core(Step(cfg, s, t, o))
  {
    var task, base := s.tasks[t], |s.tasks|;
    assert Shape(t, task, base);
    StepKeepsShapes(cfg, s, t, o);
    StepKeepsWrites(cfg, s, t, o);
    StepKeepsOwners(cfg, s, t, o);
    StepKeepsInfos(cfg, s, t, o);
    EarlyUnregistered(s, t);
    MoveDoes(cfg, s.dir, t, task, base, o);
    var e := StepEffect(cfg, s, t, o);
    DoConsistent(s.dir, t, task, e, o);
    HoldsAfter(cfg, s.dir, t, task, base, o);
    StepKeepsLocked(cfg, s, t, MoveOf(cfg, s.dir, t, task, base, o));
    hide MoveOf, Do, Consistent, Locked, OwnersServed, InfosServed, WritesSafe, Shaped;
  }
}
