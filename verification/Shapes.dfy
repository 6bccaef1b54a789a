/** At which awaits each kind of task can be suspended. */
module Shapes {
  import opened Types
  import opened PeerRegistry
  import opened Directory
  import opened Protocol

  predicate AtSend(a: Act, g: Gen) {
    a.Returned? || a == Waiting(g.nick, ToSend(g.conn)) || a == Writing(g.nick, ToSend(g.conn))
  }

  predicate AtRemoval(a: Act, g: Gen) {
    a.Returned? || a.Gathering? || a == Waiting(g.nick, ToRemove(g.conn, true))
  }

  predicate HandlerShape(c: ConnId, phase: Phase, a: Act) {
    match phase
    case Auth(info) => a.Running? && info.status.Connected?
    case Registering(info, _) => a == Waiting(info.nick, ToRegister) && info.status.Connected?
    case ClosingOld(n) => a.Gathering? || a.Returned?
    case Confirming(n) => a == Waiting(n, ToConfirm) || a == Writing(n, ToConfirm)
    case Responding(n) => a == Waiting(n, ToRespond) || a == Writing(n, ToRespond)
    case Promoting(n) => a == Waiting(n, ToPromote)
    case RollingBack(n) => a.Returned? || a == Waiting(n, ToRemove(c, false))
    case Serving(n, NoJob) => a.Running? || a.Gathering? || a.Returned?
    case Serving(n, Relay(g)) => AtSend(a, g)
    case Serving(n, Locate(g)) => AtSend(a, g)
    case Serving(n, Reply) => AtSend(a, Gen(n, c))
    case Serving(n, Reap(g)) => AtRemoval(a, g)
    case Leaving(n) => AtRemoval(a, Gen(n, c))
    case _ => a.Running?
  }

  predicate SenderShape(g: Gen, stage: Stage, a: Act) {
    match stage
    case Fresh => a.Running?
    case Sending => AtSend(a, g)
    case Reaping => AtRemoval(a, g)
    case Done => a.Running?
  }

  predicate HeartShape(sw: Sweep, a: Act) {
    match sw
    case Evicting(_, todo, _) => a.Running? || (todo != [] && AtRemoval(a, todo[0].gen))
    case Probing(_, _, _, _, PingProbe(x)) => AtSend(a, x.gen)
    case Probing(_, _, _, _, BookProbe(x)) => AtSend(a, x.gen)
    case Probing(_, _, _, _, DeadProbe(x)) => AtRemoval(a, x.gen)
    case TimingOut(_, todo) => a.Running? || (todo != [] && AtRemoval(a, todo[0].gen))
    case _ => a.Running?
  }

  /** Task 0 is the heartbeat; the senders a task waits for were started after it. */
  predicate Shape(t: nat, task: Task, count: nat) {
    && (task.act.Gathering? ==> t < task.act.lo < task.act.hi <= count)
    && match task.role
       case Handler(phase) => t > 0 && HandlerShape(t, phase, task.act)
       case Sender(g, stage) => t > 0 && SenderShape(g, stage, task.act)
       case Heart(sw) => t == 0 && HeartShape(sw, task.act)
  }

  ghost predicate Shaped(s: State) {
    forall t :: 0 <= t < |s.tasks| ==> Shape(t, s.tasks[t], |s.tasks|)
  }

  /** A call that every task makes the same way keeps the shape of the caller. */
  lemma SharedKeepsShape(cfg: Config, d: Dir, t: nat, task: Task, base: nat, o: Oracle)
    requires Shape(t, task, base) && t < base && InSharedCall(task.act)
    ensures var m := SharedMove(cfg, d, task, base, o); Shape(t, m.task, base + |m.kids|)
  {
    hide NextBatch, Broadcast, RemoveGen, Removable, SendReady;
  }

  lemma ServeKeepsShape(cfg: Config, d: Dir, c: ConnId, n: Nick, o: Oracle, base: nat)
    requires 0 < c < base
    ensures var m := ServeMove(cfg, d, c, n, o, base); Shape(c, m.task, base + |m.kids|)
  {
    hide Broadcast, Touch, Publish, Known, IsHandshaked;
  }

  lemma HandlerKeepsShape(cfg: Config, d: Dir, c: ConnId, phase: Phase, a: Act, o: Oracle, base: nat)
    requires 0 < c < base && HandlerShape(c, phase, a) && !InSharedCall(a)
    ensures var m := HandlerMove(cfg, d, c, phase, a, o, base); Shape(c, m.task, base + |m.kids|)
  {
    hide Broadcast, ServeMove, RegisterPeer, Promote, Removable;
    if phase.Serving? && !a.Returned? {
      ServeKeepsShape(cfg, d, c, phase.nick, o, base);
    }
  }

  lemma StepKeepsShapes(cfg: Config, s: State, t: nat, o: Oracle)
    requires Shaped(s) && Enabled(s, t, o)
    ensures Shaped(Step(cfg, s, t, o))
  {
    var task, base := s.tasks[t], |s.tasks|;
    var m := MoveOf(cfg, s.dir, t, task, base, o);
    assert Shape(t, task, base);
    if InSharedCall(task.act) {
      SharedKeepsShape(cfg, s.dir, t, task, base, o);
    } else if task.role.Handler? {
      HandlerKeepsShape(cfg, s.dir, t, task.role.phase, task.act, o, base);
    } else {
      RestKeepsShape(cfg, s.dir, t, task, base, o);
    }
    hide MoveOf;
  }

  lemma RestKeepsShape(cfg: Config, d: Dir, t: nat, task: Task, base: nat, o: Oracle)
    requires Shape(t, task, base) && t < base && !InSharedCall(task.act) && !task.role.Handler?
    ensures var m := OwnMove(cfg, d, t, task, base, o); Shape(t, m.task, base + |m.kids|)
  {
    hide IdleSince, Removable, Unanswered;
  }
}
