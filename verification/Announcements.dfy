/** Every connection that became visible is announced as gone exactly once. */
module Announcements {
  import opened Types
  import opened PeerRegistry
  import opened MessageRouter
  import opened Directory
  import opened Protocol
  import opened Shapes
  import opened Frames
  import opened Ownership

  /** Connection `c` owns the nick it registered. */
  predicate Owned(d: Dir, c: ConnId) {
    c in d.reg.infos && Current(d.reg, d.reg.infos[c].nick, c)
  }

  predicate Shows(d: Dir, c: ConnId) {
    c in d.reg.infos && d.reg.infos[c].status.Handshaked?
  }

  /** The task has displaced `c` and has not yet dealt with its announcement. */
  predicate Owes(task: Task, c: ConnId) {
    task.role.Handler? && task.role.phase.Displacing? && task.role.phase.prior == Some(c)
  }

  /** Registered, but not yet visible to other peers. */
  predicate Hidden(task: Task) {
    task.role.Handler? && KeyOf(task.role.phase).Some? && !task.role.phase.Serving? && !task.role.phase.Leaving?
  }

  ghost predicate Visible(s: State) {
    && (forall c :: Shows(s.dir, c) ==> c in s.seen)
    && (forall c :: c in s.seen ==> c in s.dir.reg.infos && (Owned(s.dir, c) ==> Shows(s.dir, c)))
    && (forall t :: 0 <= t < |s.tasks| && Hidden(s.tasks[t]) ==> t !in s.seen)
  }

  predicate DebtOk(s: State, t: nat, c: ConnId) {
    t < |s.tasks| && Owes(s.tasks[t], c) ==>
      && c in s.dir.reg.infos && !Owned(s.dir, c) && s.told[c] == 0
      && (c in s.seen ==> Shows(s.dir, c))
  }

  predicate OneDebtor(s: State, t: nat, u: nat, c: ConnId) {
    t < |s.tasks| && u < |s.tasks| && Owes(s.tasks[t], c) && Owes(s.tasks[u], c) ==> t == u
  }

  ghost predicate Debts(s: State) {
    (forall t, c :: DebtOk(s, t, c)) && (forall t, u, c :: OneDebtor(s, t, u, c))
  }

  /** At most one announcement, and only of a connection that was visible and is gone. */
  ghost predicate AtMostOnce(s: State) {
    forall c :: s.told[c] > 0 ==> s.told[c] == 1 && c in s.seen && !Owned(s.dir, c)
  }

  ghost predicate SomeoneOwes(tasks: seq<Task>, c: ConnId) {
    exists t :: 0 <= t < |tasks| && Owes(tasks[t], c)
  }

  /** No announcement is lost: a visible connection is an owner, announced, or about to be. */
  ghost predicate NeverLost(s: State) {
    forall c :: c in s.seen ==> Owned(s.dir, c) || s.told[c] == 1 || SomeoneOwes(s.tasks, c)
  }

  // ---- one effect on ownership and visibility ----

  predicate Displaces(d: Dir, t: nat, e: Effect, o: Oracle, c: ConnId) {
    e.Registers? && var res := RegisterPeer(d, t, e.info, e.key, o.now); res.Admitted? && res.displaced == Some(c)
  }

  lemma RegisterOwned(d: Dir, t: nat, info: PeerInfo, key: Option<PubKey>, now: int, c: ConnId)
    requires MapsAgree(d) && t !in d.reg.infos
    ensures var res := RegisterPeer(d, t, info, key, now);
            res.Admitted? ==>
              if c == t then Owned(res.dir, c) && !Owned(d, c)
              else if res.displaced == Some(c) then !Owned(res.dir, c) && Owned(d, c)
              else (Owned(res.dir, c) <==> Owned(d, c))
  {
  }

  lemma RemoveOwned(d: Dir, g: Gen, c: ConnId)
    requires MapsAgree(d) && Live(d, g)
    ensures var d' := RemoveGen(d, g);
            if c == g.conn then !Owned(d', c) && Owned(d, c) else (Owned(d', c) <==> Owned(d, c))
  {
  }

  lemma DoOwned(d: Dir, t: nat, task: Task, e: Effect, o: Oracle, c: ConnId)
    requires MapsAgree(d) && Allowed(d, t, task, e, o) && Unregistered(d, t, task)
    ensures var d' := Do(d, t, e, o);
            if e.Registers? && c == t then Owned(d', c) && !Owned(d, c)
            else if (e.Removes? && c == e.gen.conn) || Displaces(d, t, e, o, c) then !Owned(d', c) && Owned(d, c)
            else (Owned(d', c) <==> Owned(d, c))
  {
    if e.Registers? { RegisterOwned(d, t, e.info, e.key, o.now, c); }
    if e.Removes? { RemoveOwned(d, e.gen, c); }
    hide Ingress, RegisterPeer, RemoveGen, MapsAgree;
  }

  lemma DisplacedWasOwner(d: Dir, t: nat, e: Effect, o: Oracle, c: ConnId)
    requires MapsAgree(d) && Displaces(d, t, e, o, c)
    ensures Owned(d, c)
  {
  }

  lemma RegisterShows(d: Dir, t: nat, info: PeerInfo, key: Option<PubKey>, now: int, c: ConnId)
    requires t !in d.reg.infos && info.status.Connected?
    ensures var res := RegisterPeer(d, t, info, key, now);
            res.Admitted? ==> (c in d.reg.infos ==> c in res.dir.reg.infos) && (Shows(res.dir, c) <==> Shows(d, c))
  {
  }

  lemma RemoveShows(d: Dir, g: Gen, c: ConnId)
    requires MapsAgree(d) && Live(d, g)
    ensures var d' := RemoveGen(d, g);
            && (c in d.reg.infos ==> c in d'.reg.infos)
            && if c == g.conn then !Shows(d', c) else (Shows(d', c) <==> Shows(d, c))
  {
  }

  lemma DoShows(d: Dir, t: nat, task: Task, e: Effect, o: Oracle, c: ConnId)
    requires MapsAgree(d) && Allowed(d, t, task, e, o) && Unregistered(d, t, task)
    requires e.Registers? ==> e.info.status.Connected?
    ensures var d' := Do(d, t, e, o);
            && (c in d.reg.infos ==> c in d'.reg.infos)
            && (if e.Promotes? && c == t then Shows(d', c)
                else if e.Removes? && c == e.gen.conn then !Shows(d', c)
                else (Shows(d', c) <==> Shows(d, c)))
  {
    if e.Registers? { RegisterShows(d, t, e.info, e.key, o.now, c); }
    if e.Removes? { RemoveShows(d, e.gen, c); }
    hide Ingress, RegisterPeer, RemoveGen;
  }

  // ---- what a step announces ----

  /** The task waits to remove an owner whose disconnect will be announced. */
  predicate Aloud(a: Act) {
    a.Waiting? && a.want.ToRemove? && a.want.announce
  }

  ghost predicate TellStep(d: Dir, t: nat, task: Task, m: Move, e: Effect, o: Oracle) {
    && (m.shown <==> e.Promotes?)
    && (forall c :: Owes(m.task, c) <==> Displaces(d, t, e, o, c))
    && (forall c :: m.told == Some(c) <==>
          Shows(d, c) && (Owes(task, c) || (e.Removes? && e.gen.conn == c && Aloud(task.act))))
    && (e.Removes? ==> Aloud(task.act) || (Hidden(task) && e.gen.conn == t))
    && (Hidden(m.task) ==> !e.Promotes? && (Hidden(task) || e.Registers?))
    && (e.Registers? ==> e.info.status.Connected?)
  }

  lemma OwnerShows(d: Dir, g: Gen)
    requires MapsAgree(d) && Removable(d, g)
    ensures IsHandshaked(d.reg, g.nick) <==> Shows(d, g.conn)
  {
  }

  lemma SharedTells(cfg: Config, d: Dir, t: nat, task: Task, base: nat, o: Oracle)
    requires MapsAgree(d) && Shape(t, task, base) && InSharedCall(task.act)
    ensures var m := SharedMove(cfg, d, task, base, o); TellStep(d, t, task, m, EffectOf(d, t, task, o, m.dir), o)
  {
    hide Broadcast, NextBatch, RemoveGen, RegisterPeer, MapsAgree, SendReady, IsHandshaked, Shows, Removable;
    if task.act.Waiting? && Removable(d, Gen(task.act.nick, task.act.want.conn)) {
      OwnerShows(d, Gen(task.act.nick, task.act.want.conn));
    }
  }

  lemma ServeTells(cfg: Config, d: Dir, c: ConnId, n: Nick, o: Oracle, base: nat)
    ensures var m := ServeMove(cfg, d, c, n, o, base);
            && !m.shown && m.told.None? && !Hidden(m.task)
            && m.task.role.Handler? && (m.task.role.phase.Serving? || m.task.role.phase.Leaving?)
  {
    hide Broadcast, Publish, Touch, IsHandshaked, Known, Current;
  }

  lemma JobTells(d: Dir, c: ConnId, n: Nick, job: Job, ok: bool, o: Oracle)
    ensures var m := JobMove(d, c, n, job, ok, o);
            !m.shown && m.told.None? && m.task.role.Handler? && m.task.role.phase.Serving?
  {
    hide Removable, Current;
  }

  lemma HandlerTells(cfg: Config, d: Dir, c: ConnId, phase: Phase, a: Act, o: Oracle, base: nat)
    requires HandlerShape(c, phase, a) && !InSharedCall(a)
    ensures var m := HandlerMove(cfg, d, c, phase, a, o, base);
            TellStep(d, c, Task(Handler(phase), a), m, HandlerEffect(d, c, phase, a, o, m.dir), o)
  {
    hide Broadcast, ServeMove, JobMove, RegisterPeer, Promote, Removable, Touch, Publish, Known, Current, IsHandshaked;
    if phase.Registering? { DisplacedIsVerified(d, c, phase.info, phase.key, o.now); }
    if phase.Serving? {
      ServeTells(cfg, d, c, phase.nick, o, base);
      if a.Returned? { JobTells(d, c, phase.nick, phase.job, a.ok, o); }
    }
  }

  /** Only a verified registration displaces an owner. */
  lemma DisplacedIsVerified(d: Dir, c: ConnId, info: PeerInfo, key: Option<PubKey>, now: int)
    ensures var res := RegisterPeer(d, c, info, key, now); res.Admitted? && res.displaced.Some? ==> key.Some?
  {
  }

  lemma RestTells(cfg: Config, d: Dir, t: nat, task: Task, base: nat, o: Oracle)
    requires !task.role.Handler? && !InSharedCall(task.act)
    ensures var m := OwnMove(cfg, d, t, task, base, o);
            TellStep(d, t, task, m, RestEffect(d, task.role, task.act, m.dir), o)
  {
    hide IdleSince, Removable, Unanswered, Known, RegisterPeer;
  }

  lemma MoveTells(cfg: Config, d: Dir, t: nat, task: Task, base: nat, o: Oracle)
    requires MapsAgree(d) && Shape(t, task, base)
    ensures var m := MoveOf(cfg, d, t, task, base, o); TellStep(d, t, task, m, EffectOf(d, t, task, o, m.dir), o)
  {
    if InSharedCall(task.act) { SharedTells(cfg, d, t, task, base, o); }
    else if task.role.Handler? { HandlerTells(cfg, d, t, task.role.phase, task.act, o, base); }
    else { RestTells(cfg, d, t, task, base, o); }
    hide SharedMove, HandlerMove, TellStep, HandlerEffect, RestEffect;
  }

  // ---- the invariants over a step ----

  ghost predicate Told(s: State) {
    Visible(s) && Debts(s) && AtMostOnce(s) && NeverLost(s)
  }

  /** One step, seen from connection `c`. */
  ghost predicate Seen(s: State, t: nat, m: Move, e: Effect, o: Oracle, c: ConnId) {
    && t < |s.tasks| && TellStep(s.dir, t, s.tasks[t], m, e, o)
    && (c in s.dir.reg.infos ==> c in m.dir.reg.infos)
    && (if e.Promotes? && c == t then Shows(m.dir, c) && Owned(s.dir, c)
        else if e.Removes? && c == e.gen.conn then !Shows(m.dir, c)
        else (Shows(m.dir, c) <==> Shows(s.dir, c)))
    && (if e.Registers? && c == t then Owned(m.dir, c) && c !in s.dir.reg.infos
        else if (e.Removes? && c == e.gen.conn) || Displaces(s.dir, t, e, o, c) then !Owned(m.dir, c) && Owned(s.dir, c)
        else (Owned(m.dir, c) <==> Owned(s.dir, c)))
    && (Displaces(s.dir, t, e, o, c) ==> e.Registers? && Owned(s.dir, c))
    && (e.Registers? ==> forall b :: !Owes(s.tasks[t], b))
  }

  lemma StepSeen(cfg: Config, s: State, t: nat, o: Oracle, c: ConnId)
    requires Core(s) && Enabled(s, t, o)
    ensures Seen(s, t, StepMove(cfg, s, t, o), StepEffect(cfg, s, t, o), o, c)
  {
    var task, base, e := s.tasks[t], |s.tasks|, StepEffect(cfg, s, t, o);
    assert Shape(t, task, base);
    EarlyUnregistered(s, t);
    MoveDoes(cfg, s.dir, t, task, base, o);
    MoveTells(cfg, s.dir, t, task, base, o);
    DoOwned(s.dir, t, task, e, o, c);
    DoShows(s.dir, t, task, e, o, c);
    if Displaces(s.dir, t, e, o, c) { DisplacedWasOwner(s.dir, t, e, o, c); }
    if e.Promotes? { CurrentKnown(s.dir, e.nick, t); }
    hide MoveOf, Do, EffectOf, RegisterPeer, MapsAgree, Shaped, Locked, WritesSafe, OwnersServed, InfosServed, TellStep,
      TablesLive, Owned;
  }

  lemma VisibleAfter(s: State, t: nat, m: Move, e: Effect, o: Oracle, c: ConnId)
    requires Visible(s) && t < |s.tasks| && Seen(s, t, m, e, o, c)
    ensures var s' := Apply(s, t, m);
            && (Shows(s'.dir, c) ==> c in s'.seen)
            && (c in s'.seen ==> c in s'.dir.reg.infos && (Owned(s'.dir, c) ==> Shows(s'.dir, c)))
            && (c < |s'.tasks| && Hidden(s'.tasks[c]) ==> c !in s'.seen)
  {
    hide Displaces;
    var s' := Apply(s, t, m);
    if c < |s'.tasks| && c != t && c < |s.tasks| { assert s'.tasks[c] == s.tasks[c]; }
  }

  lemma DebtAfter(s: State, t: nat, m: Move, e: Effect, o: Oracle, u: nat, c: ConnId)
    requires Visible(s) && Debts(s) && AtMostOnce(s) && Seen(s, t, m, e, o, c)
    requires u < |Apply(s, t, m).tasks| && Owes(Apply(s, t, m).tasks[u], c)
    ensures var s' := Apply(s, t, m);
            && c in s'.dir.reg.infos && !Owned(s'.dir, c) && s'.told[c] == 0
            && (c in s'.seen ==> Shows(s'.dir, c))
            && (u == t || (u < |s.tasks| && s'.tasks[u] == s.tasks[u] && !Displaces(s.dir, t, e, o, c)))
  {
    hide Displaces;
    var s' := Apply(s, t, m);
    assert u < |s.tasks|;
    assert DebtOk(s, u, c) && DebtOk(s, t, c) && OneDebtor(s, t, u, c);
    if u != t { assert s'.tasks[u] == s.tasks[u]; } else { assert s'.tasks[u] == m.task; }
  }

  lemma ToldAfter(s: State, t: nat, m: Move, e: Effect, o: Oracle, c: ConnId)
    requires Visible(s) && Debts(s) && AtMostOnce(s) && Seen(s, t, m, e, o, c) && Apply(s, t, m).told[c] > 0
    ensures var s' := Apply(s, t, m); s'.told[c] == 1 && c in s'.seen && !Owned(s'.dir, c)
  {
    assert DebtOk(s, t, c);
    hide Displaces;
  }

  lemma KeptAfter(s: State, t: nat, m: Move, e: Effect, o: Oracle, c: ConnId)
    requires Told(s) && Seen(s, t, m, e, o, c) && c in Apply(s, t, m).seen
    ensures var s' := Apply(s, t, m); Owned(s'.dir, c) || s'.told[c] == 1 || SomeoneOwes(s'.tasks, c)
  {
    hide Displaces;
    var s' := Apply(s, t, m);
    if s'.told[c] > 0 {
      ToldAfter(s, t, m, e, o, c);
    } else if Displaces(s.dir, t, e, o, c) {
      assert s'.tasks[t] == m.task && Owes(s'.tasks[t], c);
    } else if c in s.seen && !Owned(s.dir, c) {
      var u :| 0 <= u < |s.tasks| && Owes(s.tasks[u], c);
      assert DebtOk(s, u, c);
      assert u != t;
      assert s'.tasks[u] == s.tasks[u];
    }
  }

  lemma StepKeepsVisible(cfg: Config, s: State, t: nat, o: Oracle)
    requires Core(s) && Told(s) && Enabled(s, t, o)
    ensures Visible(Step(cfg, s, t, o)) && AtMostOnce(Step(cfg, s, t, o)) && NeverLost(Step(cfg, s, t, o))
  {
    var m, e, s' := StepMove(cfg, s, t, o), StepEffect(cfg, s, t, o), Step(cfg, s, t, o);
    assert s' == Apply(s, t, m);
    hide StepMove, StepEffect, Step, Seen, Core, Apply, Shows, Owned, Hidden, SomeoneOwes, Enabled;
    forall c: ConnId
      ensures (Shows(s'.dir, c) ==> c in s'.seen)
      ensures (c in s'.seen ==> c in s'.dir.reg.infos && (Owned(s'.dir, c) ==> Shows(s'.dir, c)))
      ensures (c < |s'.tasks| && Hidden(s'.tasks[c]) ==> c !in s'.seen)
      ensures s'.told[c] > 0 ==> s'.told[c] == 1 && c in s'.seen && !Owned(s'.dir, c)
      ensures c in s'.seen ==> Owned(s'.dir, c) || s'.told[c] == 1 || SomeoneOwes(s'.tasks, c)
    {
      StepSeen(cfg, s, t, o, c);
      VisibleAfter(s, t, m, e, o, c);
      if s'.told[c] > 0 { ToldAfter(s, t, m, e, o, c); }
      if c in s'.seen { KeptAfter(s, t, m, e, o, c); }
    }
  }

  lemma DebtUnique(s: State, t: nat, m: Move, e: Effect, o: Oracle, u: nat, v: nat, c: ConnId)
    requires Visible(s) && Debts(s) && AtMostOnce(s) && Seen(s, t, m, e, o, c)
    requires u < |Apply(s, t, m).tasks| && v < |Apply(s, t, m).tasks|
    requires Owes(Apply(s, t, m).tasks[u], c) && Owes(Apply(s, t, m).tasks[v], c)
    ensures u == v
  {
    DebtAfter(s, t, m, e, o, u, c);
    DebtAfter(s, t, m, e, o, v, c);
    assert Apply(s, t, m).tasks[t] == m.task;
    assert OneDebtor(s, u, v, c);
    hide Displaces;
  }

  lemma StepDebt(cfg: Config, s: State, t: nat, o: Oracle, u: nat, c: ConnId)
    requires Core(s) && Told(s) && Enabled(s, t, o)
    ensures DebtOk(Step(cfg, s, t, o), u, c)
  {
    var s' := Step(cfg, s, t, o);
    if u < |s'.tasks| && Owes(s'.tasks[u], c) {
      StepSeen(cfg, s, t, o, c);
      DebtAfter(s, t, StepMove(cfg, s, t, o), StepEffect(cfg, s, t, o), o, u, c);
    }
    hide MoveOf, StepEffect, Seen, Core, Apply, Owes, Enabled, Told;
  }

  lemma StepOneDebtor(cfg: Config, s: State, t: nat, o: Oracle, u: nat, v: nat, c: ConnId)
    requires Core(s) && Told(s) && Enabled(s, t, o)
    ensures OneDebtor(Step(cfg, s, t, o), u, v, c)
  {
    var s' := Step(cfg, s, t, o);
    if u < |s'.tasks| && v < |s'.tasks| && Owes(s'.tasks[u], c) && Owes(s'.tasks[v], c) {
      StepSeen(cfg, s, t, o, c);
      DebtUnique(s, t, StepMove(cfg, s, t, o), StepEffect(cfg, s, t, o), o, u, v, c);
    }
    hide MoveOf, StepEffect, Seen, Core, Apply, Owes, Enabled, Told;
  }

  lemma StepKeepsDebts(cfg: Config, s: State, t: nat, o: Oracle)
    requires Core(s) && Told(s) && Enabled(s, t, o)
    ensures Debts(Step(cfg, s, t, o))
  {
    assert t < |s.tasks|;
    hide Step, Core, Enabled, Told, DebtOk, OneDebtor;
    forall u, c ensures DebtOk(Step(cfg, s, t, o), u, c) { StepDebt(cfg, s, t, o, u, c); }
    forall u, v, c ensures OneDebtor(Step(cfg, s, t, o), u, v, c) { StepOneDebtor(cfg, s, t, o, u, v, c); }
  }

  lemma StepKeepsTold(cfg: Config, s: State, t: nat, o: Oracle)
    requires Core(s) && Told(s) && Enabled(s, t, o)
    ensures Told(Step(cfg, s, t, o))
  {
    StepKeepsVisible(cfg, s, t, o);
    StepKeepsDebts(cfg, s, t, o);
    hide Step, Visible, AtMostOnce, NeverLost, Debts;
  }
}
