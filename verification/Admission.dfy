/** Admission: the handshake counter, the connection pool, verified ownership. */
module Admission {
  import opened Types
  import opened PeerRegistry
  import opened MessageRouter
  import opened Directory
  import opened Protocol
  import opened Shapes
  import opened Frames
  import opened Ownership

  // ---- the pending-handshake counter ----

  predicate InHandshake(task: Task) {
    task.role.Handler? && !task.role.phase.Serving? && !task.role.phase.Leaving?
    && !task.role.phase.Closing? && !task.role.phase.Finished?
  }

  function HandshakeWeight(task: Task): (n: nat) { if InHandshake(task) then 1 else 0 }

  function Handshakes(tasks: seq<Task>): (n: nat) { SumBy(HandshakeWeight, tasks) }

  ghost predicate PendingExact(cfg: Config, s: State) {
    s.pending == Handshakes(s.tasks) && s.pending <= PendingCap(cfg)
  }

  lemma SharedLeaves(cfg: Config, d: Dir, t: nat, task: Task, base: nat, o: Oracle)
    requires InSharedCall(task.act)
    ensures var m := SharedMove(cfg, d, task, base, o); !m.leaves && m.task.role == task.role
  {
    hide Broadcast, NextBatch, RemoveGen, Removable, IsHandshaked;
  }

  lemma ServeLeaves(cfg: Config, d: Dir, c: ConnId, n: Nick, o: Oracle, base: nat)
    ensures var m := ServeMove(cfg, d, c, n, o, base); !m.leaves && !InHandshake(m.task)
  {
    hide Broadcast, Publish, Touch, IsHandshaked, Known, Current;
  }

  lemma HandlerLeaves(cfg: Config, d: Dir, c: ConnId, phase: Phase, a: Act, o: Oracle, base: nat)
    requires HandlerShape(c, phase, a)
    ensures var m := HandlerMove(cfg, d, c, phase, a, o, base);
            InHandshake(m.task) == (InHandshake(Task(Handler(phase), a)) && !m.leaves)
              && (m.leaves ==> InHandshake(Task(Handler(phase), a)))
  {
    if phase.Serving? && !a.Returned? { ServeLeaves(cfg, d, c, phase.nick, o, base); }
    hide Broadcast, ServeMove, RegisterPeer, Promote, Removable, Touch, Publish, Known, Current, IsHandshaked;
  }

  lemma RestLeaves(cfg: Config, d: Dir, t: nat, task: Task, base: nat, o: Oracle)
    requires !task.role.Handler?
    ensures var m := OwnMove(cfg, d, t, task, base, o); !m.leaves && !m.task.role.Handler?
  {
    hide IdleSince, Removable, Unanswered, Known;
  }

  /** A step leaves the handshake exactly when it decrements the counter. */
  lemma MoveLeaves(cfg: Config, d: Dir, t: nat, task: Task, base: nat, o: Oracle)
    requires Shape(t, task, base)
    ensures var m := MoveOf(cfg, d, t, task, base, o);
            (if m.leaves then 1 else 0) == (if InHandshake(task) then 1 else 0) - (if InHandshake(m.task) then 1 else 0)
  {
    if InSharedCall(task.act) { SharedLeaves(cfg, d, t, task, base, o); }
    else if task.role.Handler? { HandlerLeaves(cfg, d, t, task.role.phase, task.act, o, base); }
    else { RestLeaves(cfg, d, t, task, base, o); }
    hide SharedMove, HandlerMove, SenderMove, HeartMove;
  }

  lemma StepKeepsPending(cfg: Config, s: State, t: nat, o: Oracle)
    requires PendingExact(cfg, s) && Shaped(s) && Enabled(s, t, o)
    ensures PendingExact(cfg, Step(cfg, s, t, o))
  {
    var m := StepMove(cfg, s, t, o);
    assert Shape(t, s.tasks[t], |s.tasks|);
    MoveLeaves(cfg, s.dir, t, s.tasks[t], |s.tasks|, o);
    SumUpdate(HandshakeWeight, s.tasks, t, m.task);
    SumAppend(HandshakeWeight, s.tasks[t := m.task], Kids(m.kids));
    SumConstant(HandshakeWeight, Kids(m.kids), 0);
    hide MoveOf, InHandshake, Shaped;
  }

  // ---- the connection pool ----

  /** A pooled connection belongs to a handler that has not closed it. */
  predicate Pooled(tasks: seq<Task>, c: ConnId) {
    0 < c < |tasks| && tasks[c].role.Handler? && !tasks[c].role.phase.Closing? && !tasks[c].role.phase.Finished?
  }

  ghost predicate PoolServed(s: State) {
    forall c :: c in s.dir.pool ==> Pooled(s.tasks, c)
  }

  lemma DoPool(d: Dir, t: nat, e: Effect, o: Oracle, c: ConnId)
    requires c in Do(d, t, e, o).pool
    ensures c in d.pool
  {
    hide Ingress;
  }

  lemma HandlerPool(cfg: Config, d: Dir, c: ConnId, phase: Phase, a: Act, o: Oracle, base: nat)
    requires HandlerShape(c, phase, a)
    ensures var m := HandlerMove(cfg, d, c, phase, a, o, base);
            && m.task.role.Handler?
            && (m.task.role.phase.Closing? ==> c !in m.dir.pool)
            && (m.task.role.phase.Finished? ==> phase.Closing? || phase.Finished?)
  {
    if phase.Serving? && !a.Returned? { ServePool(cfg, d, c, phase.nick, o, base); }
    hide Broadcast, ServeMove, RegisterPeer, Promote, Removable, Touch, Publish, Known, Current, IsHandshaked;
  }

  lemma ServePool(cfg: Config, d: Dir, c: ConnId, n: Nick, o: Oracle, base: nat)
    ensures var m := ServeMove(cfg, d, c, n, o, base);
            m.task.role.Handler? && (m.task.role.phase.Serving? || m.task.role.phase.Leaving?)
  {
    hide Broadcast, Publish, Touch, IsHandshaked, Known, Current;
  }

  lemma MovePool(cfg: Config, d: Dir, t: nat, task: Task, base: nat, o: Oracle)
    requires Shape(t, task, base) && task.role.Handler?
    ensures var m := MoveOf(cfg, d, t, task, base, o);
            && m.task.role.Handler?
            && (m.task.role.phase.Closing? ==> task.role.phase.Closing? || t !in m.dir.pool)
            && (m.task.role.phase.Finished? ==> task.role.phase.Closing? || task.role.phase.Finished?)
  {
    if InSharedCall(task.act) { SharedLeaves(cfg, d, t, task, base, o); }
    else { HandlerPool(cfg, d, t, task.role.phase, task.act, o, base); }
    hide SharedMove, HandlerMove;
  }

  lemma StepKeepsPool(cfg: Config, s: State, t: nat, o: Oracle)
    requires PoolServed(s) && Shaped(s) && Enabled(s, t, o)
    ensures PoolServed(Step(cfg, s, t, o))
  {
    var task, base, s' := s.tasks[t], |s.tasks|, Step(cfg, s, t, o);
    assert Shape(t, task, base);
    MoveDoes(cfg, s.dir, t, task, base, o);
    if task.role.Handler? { MovePool(cfg, s.dir, t, task, base, o); }
    hide MoveOf, Do, EffectOf, Allowed, Shaped;
    forall c | c in s'.dir.pool ensures Pooled(s'.tasks, c) {
      DoPool(s.dir, t, StepEffect(cfg, s, t, o), o, c);
      assert Pooled(s.tasks, c);
      assert c != t ==> s'.tasks[c] == s.tasks[c];
    }
  }

  // ---- verified owners ----

  predicate VerifiedTask(task: Task) {
    task.role.Handler? && task.role.phase.Registering? ==> task.role.phase.key.Some?
  }

  ghost predicate AllVerified(s: State) {
    && (forall n :: n in s.dir.reg.owners ==> s.dir.reg.owners[n].key.Some?)
    && (forall t :: 0 <= t < |s.tasks| ==> VerifiedTask(s.tasks[t]))
  }

  /** The owner of a nick changes only by a registration, which a verified owner survives only with its own key. */
  ghost predicate Succeeds(was: Owner, now: Owner) {
    now == was || (now.key.Some? && (was.key.Some? ==> now.key == was.key))
  }

  lemma DoOwnerKeys(d: Dir, t: nat, task: Task, e: Effect, o: Oracle, n: Nick)
    requires MapsAgree(d) && Allowed(d, t, task, e, o) && n in Do(d, t, e, o).reg.owners
    ensures var owner := Do(d, t, e, o).reg.owners[n];
            if n in d.reg.owners then Succeeds(d.reg.owners[n], owner)
            else e.Registers? && n == e.info.nick && owner == Owner(t, e.key)
  {
    hide Ingress;
  }

  lemma HandlerVerified(cfg: Config, d: Dir, c: ConnId, phase: Phase, a: Act, o: Oracle, base: nat)
    requires cfg.policy.mode.RequireVerified? && VerifiedTask(Task(Handler(phase), a))
    ensures VerifiedTask(HandlerMove(cfg, d, c, phase, a, o, base).task)
  {
    if phase.Serving? && !a.Returned? { ServePool(cfg, d, c, phase.nick, o, base); }
    hide Broadcast, ServeMove, RegisterPeer, Promote, Removable, Touch, Publish, Known, Current, IsHandshaked;
  }

  lemma MoveVerified(cfg: Config, d: Dir, t: nat, task: Task, base: nat, o: Oracle)
    requires cfg.policy.mode.RequireVerified? && VerifiedTask(task)
    ensures VerifiedTask(MoveOf(cfg, d, t, task, base, o).task)
  {
    if InSharedCall(task.act) { SharedLeaves(cfg, d, t, task, base, o); }
    else if task.role.Handler? { HandlerVerified(cfg, d, t, task.role.phase, task.act, o, base); }
    else { RestLeaves(cfg, d, t, task, base, o); }
    hide SharedMove, HandlerMove, SenderMove, HeartMove;
  }

  lemma StepKeepsVerified(cfg: Config, s: State, t: nat, o: Oracle)
    requires AllVerified(s) && Core(s) && Enabled(s, t, o) && cfg.policy.mode.RequireVerified?
    ensures AllVerified(Step(cfg, s, t, o))
  {
    var task, base, s' := s.tasks[t], |s.tasks|, Step(cfg, s, t, o);
    assert Shape(t, task, base);
    MoveDoes(cfg, s.dir, t, task, base, o);
    MoveVerified(cfg, s.dir, t, task, base, o);
    var e := StepEffect(cfg, s, t, o);
    assert VerifiedTask(task);
    assert e.Registers? ==> e.key.Some?;
    hide MoveOf, Do, EffectOf, Allowed, Shaped, VerifiedTask, Locked, WritesSafe, OwnersServed, InfosServed, TablesLive,
      BoundedOffers;
    forall n | n in s'.dir.reg.owners ensures s'.dir.reg.owners[n].key.Some? {
      DoOwnerKeys(s.dir, t, task, e, o, n);
    }
    forall u | 0 <= u < |s'.tasks| ensures VerifiedTask(s'.tasks[u]) {
      if u < base && u != t { assert s'.tasks[u] == s.tasks[u]; }
      else if u >= base { NewVerified(s'.tasks[u]); }
    }
  }

  lemma NewVerified(task: Task)
    requires task.role.Sender?
    ensures VerifiedTask(task)
  {
  }
}
