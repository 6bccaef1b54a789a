/** What the server does for one client: admission, the handshake, private messages and replies. */
module Clients {
  import opened Types
  import opened PeerRegistry
  import opened Directory
  import opened Protocol
  import opened Shapes
  import opened Ownership
  import opened Admission
  import opened Isolation
  import opened Runs
  import opened Theorems
  import opened Cascade
  import opened Deliveries

  // ---- admission and handshake ----

  /** A connection is served exactly when fewer handshakes are pending than allowed and the pool has room; it is
      then the only change to the pool. */
  lemma ConnectDecides(cfg: Config, s: State)
    ensures var s', c := Connect(cfg, s), |s.tasks|;
            var cap := if cfg.maxPeers <= 128 then cfg.maxPeers else 128;
            var served := s.pending < cap && |s.dir.pool| < cfg.maxPeers + cap;
            && |s'.tasks| == c + 1
            && s'.tasks[c] == Task(Handler(if served then Hello else Closing), Running)
            && s'.dir.pool == (if served then s.dir.pool + {c} else s.dir.pool)
            && s'.pending == s.pending + (if served then 1 else 0)
  {
  }

  /** A well-formed greeting leads to a refusal exactly when the server requires verification and it is not
      negotiated; to a proof exactly when server and client both offer it; and else to an unverified registration. */
  lemma GreetDecides(cfg: Config, d: Dir, c: ConnId, o: Oracle)
    requires o.greeting.Greeting? && o.ok
    ensures var proof := !cfg.policy.mode.Disabled? && cfg.policy.directoryId != "" && o.greeting.offersAuth;
            var m := HandlerMove(cfg, d, c, Hello, Running, o, 0);
            && m.dir == d && m.task.role.Handler?
            && (m.task.role.phase.Refusing? <==> cfg.policy.mode.RequireVerified? && !proof)
            && (m.task.role.phase.Auth? <==> proof)
            && (m.task.role.phase.Registering? <==> !proof && !cfg.policy.mode.RequireVerified?)
            && (m.task.role.phase.Registering? ==> m.task.role.phase.key.None?)
            && (m.task.role.phase.Registering? || m.task.role.phase.Auth? ==>
                  var info := m.task.role.phase.info;
                  && info.nick == o.greeting.nick && info.pings == o.greeting.pings
                  && info.maker == o.greeting.maker && info.status.Connected?)
  {
  }

  /** A proof leads to a registration with the key it proves, and a failed one ends the connection. */
  lemma ProofDecides(cfg: Config, d: Dir, c: ConnId, info: PeerInfo, o: Oracle)
    ensures var m := HandlerMove(cfg, d, c, Auth(info), Running, o, 0);
            if o.key.Some? then
              m.dir == d && m.task == Task(Handler(Registering(info, o.key)), Waiting(info.nick, ToRegister))
            else m.dir == CloseConn(d, c) && m.task == Task(Handler(Closing), Running) && m.leaves
  {
  }

  lemma PromotesNow(cfg: Config, d: Dir, c: ConnId, n: Nick, phase: Phase, a: Act, o: Oracle, base: nat)
    requires MapsAgree(d) && Live(d, Gen(n, c))
    requires (phase == Confirming(n) && a.Writing? && o.ok) || phase == Promoting(n)
    ensures var m := HandlerMove(cfg, d, c, phase, a, o, base);
            && m.task == Task(Handler(Serving(n, NoJob)), Running) && m.leaves && m.shown && m.kids == []
            && Serves(m.dir, Gen(n, c))
  {
    CurrentKnown(d, n, c);
  }

  /** A current owner whose handshake reply has been written is HANDSHAKED and served after that step; with a proof
      the reply and the promotion are one step, without one a pause lies in between. */
  lemma HandshakeCompletes(cfg: Config, s: State, t: nat, o: Oracle, n: Nick)
    requires Inv(cfg, s) && Enabled(s, t, o) && Live(s.dir, Gen(n, t))
    requires || (s.tasks[t] == Task(Handler(Confirming(n)), Writing(n, ToConfirm)) && o.ok)
             || s.tasks[t] == Task(Handler(Promoting(n)), Waiting(n, ToPromote))
    ensures var s' := Step(cfg, s, t, o);
            && t < |s'.tasks| && s'.tasks[t] == Task(Handler(Serving(n, NoJob)), Running)
            && Serves(s'.dir, Gen(n, t)) && t in s'.seen && s'.pending == s.pending - 1
  {
    hide Inv, Enabled, HandlerMove, Serves, Live;
    StepFacts(cfg, s, t, o);
    PromotesNow(cfg, s.dir, t, n, s.tasks[t].role.phase, s.tasks[t].act, o, |s.tasks|);
  }

  /** A handler whose client hangs up or has to be cut off, or that finds its nick taken, asks for its own removal,
      to be announced. */
  lemma GoodbyeLeaves(cfg: Config, s: State, t: nat, o: Oracle, n: Nick)
    requires Inv(cfg, s) && Enabled(s, t, o) && s.tasks[t] == Task(Handler(Serving(n, NoJob)), Running)
    requires o.msg.Hangup? || o.msg.Bye? || !Live(s.dir, Gen(n, t))
    ensures var s' := Step(cfg, s, t, o);
            t < |s'.tasks| && s'.tasks[t] == Task(Handler(Leaving(n)), Waiting(n, ToRemove(t, true)))
  {
    hide Inv, Step, Enabled, Touch;
    StepFacts(cfg, s, t, o);
  }

  /** A task that has removed a generation closes its connection next. */
  lemma RemovedIsClosed(cfg: Config, s: State, t: nat, o: Oracle)
    requires Inv(cfg, s) && Enabled(s, t, o) && s.tasks[t].act == Returned(true) && Reaps(s.tasks[t]).Some?
    ensures Reaps(s.tasks[t]).value.conn !in Step(cfg, s, t, o).dir.pool
  {
    hide Inv, Step, Enabled;
    StepFacts(cfg, s, t, o);
  }

  // ---- private messages ----

  /** The handler of `c` takes a message from its client. */
  predicate Takes(s: State, e: Event, c: ConnId, n: Nick) {
    && e.Run? && e.task == c && c < |s.tasks|
    && s.tasks[c] == Task(Handler(Serving(n, NoJob)), Running) && Serves(s.dir, Gen(n, c))
  }

  /** The generation a handler is relaying to, or cleaning up after that. */
  function RelaysTo(task: Task): (g: Option<Gen>) {
    match task.role
    case Handler(Serving(_, Relay(h))) => Some(h)
    case Handler(Serving(_, Locate(h))) => Some(h)
    case Handler(Serving(_, Reap(h))) => Some(h)
    case _ => None
  }

  lemma TouchKeepsStatus(d: Dir, g: Gen, now: int, n: Nick)
    requires MapsAgree(d)
    ensures IsHandshaked(Touch(d, g, now).reg, n) <==> IsHandshaked(d.reg, n)
    ensures Touch(d, g, now).reg.owners == d.reg.owners
  {
  }

  lemma ServesPrivate(cfg: Config, d: Dir, c: ConnId, n: Nick, o: Oracle, base: nat)
    requires MapsAgree(d) && Serves(d, Gen(n, c)) && o.msg.Priv?
    ensures var task := ServeMove(cfg, d, c, n, o, base).task;
            if IsHandshaked(d.reg, o.msg.to) then
              && o.msg.to in d.reg.owners
              && var h := Gen(o.msg.to, d.reg.owners[o.msg.to].conn);
                 task == Task(Handler(Serving(n, Relay(h))), Waiting(h.nick, ToSend(h.conn)))
            else task == Task(Handler(Serving(n, NoJob)), Running)
  {
    hide Touch;
    CurrentKnown(d, n, c);
    TouchKeepsStatus(d, Gen(n, c), o.now, n);
    TouchKeepsStatus(d, Gen(n, c), o.now, o.msg.to);
  }

  lemma ServesReply(cfg: Config, d: Dir, c: ConnId, n: Nick, o: Oracle, base: nat)
    requires MapsAgree(d) && Serves(d, Gen(n, c)) && (o.msg.Ping? || o.msg.GetPeerlist?)
    ensures ServeMove(cfg, d, c, n, o, base).task == Task(Handler(Serving(n, Reply)), Waiting(n, ToSend(c)))
  {
    hide Touch, IsHandshaked;
    CurrentKnown(d, n, c);
    TouchKeepsStatus(d, Gen(n, c), o.now, n);
  }

  lemma TakenStep(cfg: Config, s: State, e: Event, s': State, c: ConnId, n: Nick)
    requires Inv(cfg, s) && Next(cfg, s, e, s') && Takes(s, e, c, n)
    ensures MapsAgree(s.dir) && c < |s'.tasks|
    ensures s'.tasks[c] == ServeMove(cfg, s.dir, c, n, e.oracle, |s.tasks|).task
  {
    hide Inv, Step, ServeMove, Enabled;
    StepFacts(cfg, s, c, e.oracle);
  }

  /** A private message goes to the HANDSHAKED owner of its nick, and to nobody if there is none. */
  lemma PrivateGoesToOwner(cfg: Config, s: State, e: Event, s': State, c: ConnId, n: Nick)
    requires Inv(cfg, s) && Next(cfg, s, e, s') && Takes(s, e, c, n) && e.oracle.msg.Priv?
    ensures var to := e.oracle.msg.to;
            c < |s'.tasks| &&
            if IsHandshaked(s.dir.reg, to) then
              && to in s.dir.reg.owners
              && var h := Gen(to, s.dir.reg.owners[to].conn);
                 s'.tasks[c] == Task(Handler(Serving(n, Relay(h))), Waiting(to, ToSend(h.conn)))
            else s'.tasks[c] == Task(Handler(Serving(n, NoJob)), Running)
  {
    hide Inv, Next, ServeMove, IsHandshaked;
    TakenStep(cfg, s, e, s', c, n);
    ServesPrivate(cfg, s.dir, c, n, e.oracle, |s.tasks|);
  }

  /** The reply to a ping or to a request for the peer list goes to the client that sent it. */
  lemma RepliesGoBack(cfg: Config, s: State, e: Event, s': State, c: ConnId, n: Nick)
    requires Inv(cfg, s) && Next(cfg, s, e, s') && Takes(s, e, c, n)
    requires e.oracle.msg.Ping? || e.oracle.msg.GetPeerlist?
    ensures c < |s'.tasks| && s'.tasks[c] == Task(Handler(Serving(n, Reply)), Waiting(n, ToSend(c)))
  {
    hide Inv, Next, ServeMove, IsHandshaked;
    TakenStep(cfg, s, e, s', c, n);
    ServesReply(cfg, s.dir, c, n, e.oracle, |s.tasks|);
  }

  /** A written private message of a maker is followed by its location, to the same generation while it is current. */
  lemma LocationFollows(cfg: Config, s: State, e: Event, s': State, c: ConnId, n: Nick, h: Gen)
    requires Next(cfg, s, e, s') && e.Run? && e.task == c
    requires s.tasks[c] == Task(Handler(Serving(n, Relay(h))), Returned(true))
    requires c in s.dir.reg.infos
    ensures c < |s'.tasks|
    ensures s'.tasks[c] == if s.dir.reg.infos[c].maker && Live(s.dir, h)
            then Task(Handler(Serving(n, Locate(h))), Waiting(h.nick, ToSend(h.conn)))
            else Task(Handler(Serving(n, NoJob)), Running)
  {
  }

  /** A private message that could not be written leads to the removal of its target, if that still owns the nick. */
  lemma FailedRelayRemoves(cfg: Config, s: State, e: Event, s': State, c: ConnId, n: Nick, h: Gen)
    requires Inv(cfg, s) && Next(cfg, s, e, s') && e.Run? && e.task == c
    requires s.tasks[c] == Task(Handler(Serving(n, Relay(h))), Returned(false))
    ensures c < |s'.tasks|
    ensures s'.tasks[c] == Task(Handler(Serving(n, Reap(h))),
              if Live(s.dir, h) then Waiting(h.nick, ToRemove(h.conn, true)) else Returned(false))
  {
    hide Inv, Step, Enabled, Live, Removable;
    StepFacts(cfg, s, c, e.oracle);
    RemoveEnds(s.dir, h);
    if Removable(s.dir, h) { RemovableIsLive(s.dir, h); }
  }

  lemma RemovableIsLive(d: Dir, h: Gen)
    requires Removable(d, h)
    ensures Live(d, h)
  {
  }

  lemma RelayStays(cfg: Config, s: State, e: Event, s': State, c: ConnId, h: Gen)
    requires Inv(cfg, s) && Next(cfg, s, e, s') && c < |s.tasks| && RelaysTo(s.tasks[c]) == Some(h)
    ensures c < |s'.tasks| && (RelaysTo(s'.tasks[c]).Some? ==> RelaysTo(s'.tasks[c]) == Some(h))
  {
    hide Inv, Step, Connect, MoveOf;
    if e.Arrive? {
      ArriveFacts(cfg, s);
    } else {
      StepFacts(cfg, s, e.task, e.oracle);
      if e.task == c { RelayMove(cfg, s.dir, c, s.tasks[c], |s.tasks|, e.oracle, h); }
    }
  }

  lemma RelayMove(cfg: Config, d: Dir, c: ConnId, task: Task, base: nat, o: Oracle, h: Gen)
    requires Shape(c, task, base) && RelaysTo(task) == Some(h)
    ensures var m := MoveOf(cfg, d, c, task, base, o); RelaysTo(m.task).Some? ==> RelaysTo(m.task) == Some(h)
  {
    if InSharedCall(task.act) { SharedLeaves(cfg, d, c, task, base, o); }
    hide SharedMove, ServeMove, Removable, Live;
  }

  /** The handler has been relaying since state `i`. */
  ghost predicate RelaysSince(states: seq<State>, c: ConnId, i: nat, j: nat) {
    j < |states| && forall k :: i <= k <= j ==> c < |states[k].tasks| && RelaysTo(states[k].tasks[c]).Some?
  }

  lemma {:induction false} OneRelay(cfg: Config, states: seq<State>, events: seq<Event>, c: ConnId, i: nat, j: nat)
    requires IsRun(cfg, states, events) && i <= j && RelaysSince(states, c, i, j)
    ensures RelaysTo(states[j].tasks[c]) == RelaysTo(states[i].tasks[c])
    decreases j
  {
    hide IsRun, Next, Inv, RelaysTo;
    if i < j {
      OneRelay(cfg, states, events, c, i, j - 1);
      RunNext(cfg, states, events, j);
      RelayStays(cfg, states[j - 1], events[j - 1], states[j], c, RelaysTo(states[i].tasks[c]).value);
    }
  }

  /** The task is at a routed write to `g` or a removal of it, or waits for one. */
  predicate CallsFor(a: Act, g: Gen) {
    && (a.Waiting? || a.Writing?) && a.nick == g.nick
    && (a.want.ToSend? || a.want.ToRemove?) && a.want.conn == g.conn
  }

  lemma RelayCalls(c: ConnId, task: Task, base: nat, g: Gen)
    requires Shape(c, task, base) && RelaysTo(task).Some? && CallsFor(task.act, g)
    ensures RelaysTo(task) == Some(g)
  {
  }

  lemma TakenPrivately(cfg: Config, states: seq<State>, events: seq<Event>, i: nat, c: ConnId, n: Nick)
    requires IsRun(cfg, states, events) && i < |events| && i + 1 < |states| && Takes(states[i], events[i], c, n)
    requires events[i].oracle.msg.Priv? && c < |states[i + 1].tasks| && RelaysTo(states[i + 1].tasks[c]).Some?
    ensures var to := events[i].oracle.msg.to;
            && to in states[i].dir.reg.owners
            && RelaysTo(states[i + 1].tasks[c]) == Some(Gen(to, states[i].dir.reg.owners[to].conn))
  {
    hide IsRun, Next, Inv, Serves, IsHandshaked, Takes;
    RunNext(cfg, states, events, i + 1);
    PrivateGoesToOwner(cfg, states[i], events[i], states[i + 1], c, n);
  }

  /** Every routed write that a handler makes while it relays a private message is to the generation that owned the
      nick of the message when it was taken; and so is every removal that it asks for meanwhile. */
  lemma PrivateReachesOnlyTarget(cfg: Config, states: seq<State>, events: seq<Event>, i: nat, j: nat, c: ConnId,
      n: Nick, g: Gen)
    requires IsRun(cfg, states, events) && i < j < |events| < |states| && Takes(states[i], events[i], c, n)
    requires events[i].oracle.msg.Priv? && RelaysSince(states, c, i + 1, j) && CallsFor(states[j].tasks[c].act, g)
    ensures var to := events[i].oracle.msg.to;
            to in states[i].dir.reg.owners && g == Gen(to, states[i].dir.reg.owners[to].conn)
  {
    hide IsRun, Takes, RelaysTo, CallsFor;
    TakenPrivately(cfg, states, events, i, c, n);
    OneRelay(cfg, states, events, c, i + 1, j);
    RunShape(cfg, states, events, j, c);
    RelayCalls(c, states[j].tasks[c], |states[j].tasks|, g);
  }
}
