/** Pings and answers over whole runs: who is timed out, who is evicted, and when a peer was last heard. */
module Answers {
  import opened Types
  import opened PeerRegistry
  import opened MessageRouter
  import opened Directory
  import opened Protocol
  import opened Shapes
  import opened Frames
  import opened Ownership
  import opened Announcements
  import opened Admission
  import opened Sweeps
  import opened Isolation
  import opened Runs
  import opened Theorems
  import opened Cascade
  import opened Deliveries

  function SweepOf(s: State): (sw: Sweep) {
    if |s.tasks| > 0 && s.tasks[0].role.Heart? then s.tasks[0].role.sweep else Asleep
  }

  // ---- every generation is listed once in a sweep ----

  ghost predicate OneEach(xs: seq<Idler>) {
    forall i, j :: 0 <= i < j < |xs| ==> xs[i].gen != xs[j].gen
  }

  /** The entries of a sweep in the order in which it deals with them. */
  function Entries(sw: Sweep): (xs: seq<Idler>) {
    match sw
    case Asleep => []
    case Evicting(_, todo, _) => todo
    case Probing(_, todo, _, pinged, probe) => pinged + (if probe.NoProbe? then [] else [probe.who]) + todo
    case AwaitingPongs(_, pinged) => pinged
    case TimingOut(_, todo) => todo
  }

  lemma {:induction false} IdleOnce(r: Registry, listing: seq<Nick>, cutoff: int)
    requires forall i, j :: 0 <= i < j < |listing| ==> listing[i] != listing[j]
    ensures OneEach(IdleSince(r, listing, cutoff))
    ensures forall x :: x in IdleSince(r, listing, cutoff) ==> x.gen.nick in listing
  {
    if listing != [] {
      IdleOnce(r, listing[1..], cutoff);
      assert listing == [listing[0]] + listing[1..];
    }
  }

  lemma {:induction false} UnansweredOnce(pinged: seq<Idler>, pong: set<Gen>)
    requires OneEach(pinged)
    ensures OneEach(Unanswered(pinged, pong))
  {
    if pinged != [] {
      UnansweredOnce(pinged[1..], pong);
      assert pinged == [pinged[0]] + pinged[1..];
    }
  }

  lemma Without(a: seq<Idler>, x: Idler, b: seq<Idler>)
    requires OneEach(a + [x] + b)
    ensures OneEach(a + b)
    ensures forall y :: y in a || y in b ==> y.gen != x.gen
  {
    var all := a + [x] + b;
    forall i, j | 0 <= i < j < |a + b| ensures (a + b)[i].gen != (a + b)[j].gen {
      var i', j' := if i < |a| then i else i + 1, if j < |a| then j else j + 1;
      assert all[i'] == (a + b)[i] && all[j'] == (a + b)[j];
    }
    forall y | y in a ensures y.gen != x.gen {
      var i :| 0 <= i < |a| && a[i] == y;
      assert all[i] == y && all[|a|] == x;
    }
    forall y | y in b ensures y.gen != x.gen {
      var i :| 0 <= i < |b| && b[i] == y;
      assert all[|a| + 1 + i] == y && all[|a|] == x;
    }
  }

  lemma ProbeOnce(d: Dir, sw: Sweep, a: Act)
    requires sw.Probing? && OneEach(Entries(sw))
    ensures var m := ProbingMove(d, sw.now, sw.todo, sw.evicted, sw.pinged, sw.probe, a);
            m.task.role.Heart? && OneEach(Entries(m.task.role.sweep))
  {
    hide Removable, Known, Live, OneEach;
    if sw.probe.NoProbe? {
      if sw.todo != [] {
        var x, rest := sw.todo[0], sw.todo[1..];
        assert Entries(sw) == sw.pinged + [x] + rest;
        Without(sw.pinged, x, rest);
        assert sw.pinged + [] + rest == sw.pinged + rest;
      } else {
        assert Entries(sw) == sw.pinged;
        if sw.pinged == [] { assert Entries(Asleep) == sw.pinged; }
      }
    } else {
      var x := sw.probe.who;
      Without(sw.pinged, x, sw.todo);
      assert sw.pinged + [] + sw.todo == sw.pinged + sw.todo;
      assert (sw.pinged + [x]) + [] + sw.todo == sw.pinged + [x] + sw.todo;
    }
  }

  lemma RestOnce(xs: seq<Idler>)
    requires OneEach(xs) && xs != []
    ensures OneEach(xs[1..])
  {
  }

  lemma HeartOnce(cfg: Config, d: Dir, sw: Sweep, a: Act, o: Oracle)
    requires OneEach(Entries(sw)) && Lists(o.listing, d.reg.peers.Keys)
    ensures var m := HeartMove(cfg, d, sw, a, o); m.task.role.Heart? && OneEach(Entries(m.task.role.sweep))
  {
    hide OneEach, IdleSince, Removable, Unanswered, ProbingMove;
    match sw {
      case Asleep => IdleOnce(d.reg, o.listing, o.now - cfg.hardEvict);
      case Evicting(now, todo, evicted) =>
        var idle := IdleSince(d.reg, o.listing, now - cfg.idleThreshold);
        IdleOnce(d.reg, o.listing, now - cfg.idleThreshold);
        assert [] + [] + idle == idle;
        if todo != [] { RestOnce(todo); }
      case Probing(_, _, _, _, _) => ProbeOnce(d, sw, a);
      case AwaitingPongs(_, pinged) => UnansweredOnce(pinged, d.pong);
      case TimingOut(_, todo) => if todo != [] { RestOnce(todo); } else { assert Entries(Asleep) == todo; }
    }
  }

  lemma {:induction false} RunOnce(cfg: Config, states: seq<State>, events: seq<Event>, j: nat)
    requires IsRun(cfg, states, events) && j < |states|
    ensures OneEach(Entries(SweepOf(states[j])))
    decreases j
  {
    if j == 0 {
      RunStart(cfg, states, events);
    } else {
      hide IsRun, HeartMove, OneEach, Entries, Lists;
      RunOnce(cfg, states, events, j - 1);
      RunHeartStep(cfg, states, events, j);
      var s, s' := states[j - 1], states[j];
      if s'.tasks[0].role != s.tasks[0].role {
        var o: Oracle :| Lists(o.listing, s.dir.reg.peers.Keys)
          && s'.tasks[0] == HeartMove(cfg, s.dir, s.tasks[0].role.sweep, s.tasks[0].act, o).task;
        HeartOnce(cfg, s.dir, s.tasks[0].role.sweep, s.tasks[0].act, o);
      }
    }
  }

  // ---- what a step does to the pending pongs ----

  /** A PONG of the current, HANDSHAKED generation `g` is received. */
  predicate PongArrives(s: State, e: Event, g: Gen) {
    && e.Run? && e.task == g.conn && g.conn < |s.tasks|
    && s.tasks[g.conn].role.Handler? && s.tasks[g.conn].role.phase.Serving?
    && s.tasks[g.conn].role.phase.nick == g.nick && s.tasks[g.conn].act.Running?
    && e.oracle.msg.Pong? && Serves(s.dir, g)
  }

  /** The step is one of the sweep itself, outside a write, a removal or a broadcast. */
  predicate HeartOwn(s: State, e: Event) {
    e.Run? && e.task == 0 && |s.tasks| > 0 && !InSharedCall(s.tasks[0].act)
  }

  lemma TouchedStatus(d: Dir, g: Gen, now: int)
    requires MapsAgree(d)
    ensures IsHandshaked(Touch(d, g, now).reg, g.nick) <==> IsHandshaked(d.reg, g.nick)
  {
  }

  lemma AnswersEffect(d: Dir, t: nat, task: Task, base: nat, o: Oracle, d': Dir, g: Gen)
    requires MapsAgree(d) && Shape(t, task, base)
    ensures EffectOf(d, t, task, o, d') == Answers(g.nick) && t == g.conn <==>
            && t == g.conn && task.role.Handler? && task.role.phase.Serving? && task.role.phase.nick == g.nick
            && task.act.Running? && o.msg.Pong? && Serves(d, g)
  {
    hide RegisterPeer, Touch, Removable;
    TouchedStatus(d, g, o.now);
    if Live(d, g) { CurrentKnown(d, g.nick, g.conn); }
    hide IsHandshaked, MapsAgree;
  }

  lemma OnlyHeartPings(d: Dir, t: nat, task: Task, base: nat, o: Oracle, d': Dir)
    requires Shape(t, task, base) && (t != 0 || InSharedCall(task.act))
    ensures var e := EffectOf(d, t, task, o, d'); !e.AddsPong? && !e.DropsPong?
  {
    hide RegisterPeer, Touch, Removable, IsHandshaked, Known, Current;
  }

  /** A pending pong goes with its generation or with its answer, and in no other way outside the sweep. */
  lemma DoPongs(d: Dir, t: nat, task: Task, e: Effect, o: Oracle, g: Gen)
    requires MapsAgree(d) && Allowed(d, t, task, e, o) && Unregistered(d, t, task)
    requires !e.AddsPong? && !e.DropsPong? && (g in d.pong ==> Live(d, g))
    ensures g in Do(d, t, e, o).pong <==>
            g in d.pong && Live(Do(d, t, e, o), g) && !(e == Answers(g.nick) && t == g.conn)
  {
    hide Ingress;
  }

  lemma NextPongs(cfg: Config, s: State, e: Event, s': State, g: Gen)
    requires Inv(cfg, s) && Next(cfg, s, e, s') && !HeartOwn(s, e)
    ensures g in s'.dir.pong <==> g in s.dir.pong && Live(s'.dir, g) && !PongArrives(s, e, g)
    ensures SweepOf(s') == SweepOf(s)
  {
    hide Inv, Step, Connect, Do, EffectOf, StepMove, Allowed;
    PongsLive(cfg, s, g);
    if e.Arrive? {
      ArriveDir(cfg, s);
    } else {
      var t, o := e.task, e.oracle;
      StepFacts(cfg, s, t, o);
      StepDoes(cfg, s, t, o);
      StepUnregistered(cfg, s, t);
      var task, x := s.tasks[t], StepEffect(cfg, s, t, o);
      OnlyHeartPings(s.dir, t, task, |s.tasks|, o, StepMove(cfg, s, t, o).dir);
      AnswersEffect(s.dir, t, task, |s.tasks|, o, StepMove(cfg, s, t, o).dir, g);
      DoPongs(s.dir, t, task, x, o, g);
      if t == 0 { HeartMidCall(cfg, s, o); }
    }
  }

  lemma PongsLive(cfg: Config, s: State, g: Gen)
    requires Inv(cfg, s)
    ensures g in s.dir.pong ==> Live(s.dir, g)
    ensures MapsAgree(s.dir) && |s.tasks| > 0 && s.tasks[0].role.Heart?
  {
  }

  lemma ArriveDir(cfg: Config, s: State)
    requires |s.tasks| > 0
    ensures var s' := Connect(cfg, s);
            && s'.dir.pong == s.dir.pong && s'.dir.reg == s.dir.reg
            && |s'.tasks| > 0 && s'.tasks[0] == s.tasks[0]
  {
  }

  lemma StepUnregistered(cfg: Config, s: State, t: nat)
    requires Inv(cfg, s) && t < |s.tasks|
    ensures Unregistered(s.dir, t, s.tasks[t])
  {
    EarlyUnregistered(s, t);
  }

  lemma HeartMidCall(cfg: Config, s: State, o: Oracle)
    requires |s.tasks| > 0 && InSharedCall(s.tasks[0].act)
    ensures StepMove(cfg, s, 0, o).task.role == s.tasks[0].role
  {
    SharedLeaves(cfg, s.dir, 0, s.tasks[0], |s.tasks|, o);
    hide SharedMove;
  }

  lemma HeartStays(cfg: Config, d: Dir, sw: Sweep, a: Act, o: Oracle)
    ensures HeartMove(cfg, d, sw, a, o).task.role.Heart?
  {
    hide IdleSince, Removable, Known, Unanswered;
  }

  lemma SweepStep(cfg: Config, s: State, e: Event, s': State)
    requires Inv(cfg, s) && Next(cfg, s, e, s') && HeartOwn(s, e)
    ensures var m := HeartMove(cfg, s.dir, SweepOf(s), s.tasks[0].act, e.oracle);
            && |s'.tasks| > 0 && s'.dir == m.dir && s'.tasks[0] == m.task && m.task.role.Heart?
            && HeartShape(SweepOf(s), s.tasks[0].act) && Lists(e.oracle.listing, s.dir.reg.peers.Keys)
  {
    hide Step, HeartMove, Told, PendingExact, PoolServed, OwnersPooled, Locked, OwnersServed, InfosServed, WritesSafe;
    StepFacts(cfg, s, 0, e.oracle);
    HeartStays(cfg, s.dir, SweepOf(s), s.tasks[0].act, e.oracle);
  }

  lemma SweepLeavesOwners(cfg: Config, d: Dir, sw: Sweep, a: Act, o: Oracle)
    ensures HeartMove(cfg, d, sw, a, o).dir.reg == d.reg
  {
    hide IdleSince, Removable, Known, Unanswered, Live;
  }

  // ---- the pong of one ping ----

  /** The sweep counts on an answer of `x`. */
  predicate Awaits(sw: Sweep, x: Idler) {
    || (sw.Probing? && (sw.probe == PingProbe(x) || x in sw.pinged))
    || (sw.AwaitingPongs? && x in sw.pinged)
  }

  ghost predicate NotAhead(sw: Sweep, g: Gen) {
    sw.Probing? ==> forall y :: y in sw.todo ==> y.gen != g
  }

  /** While an answer is awaited, the pong is pending exactly until it arrives or the generation loses its nick. */
  ghost predicate PongKnown(d: Dir, sw: Sweep, x: Idler, answered: bool) {
    && !sw.Asleep? && !sw.Evicting? && NotAhead(sw, x.gen)
    && (Awaits(sw, x) ==> (x.gen in d.pong <==> Live(d, x.gen) && !answered))
  }

  lemma ProbePong(d: Dir, sw: Sweep, a: Act, x: Idler, answered: bool)
    requires sw.Probing? && PongKnown(d, sw, x, answered) && OneEach(Entries(sw))
    ensures var m := ProbingMove(d, sw.now, sw.todo, sw.evicted, sw.pinged, sw.probe, a);
            m.task.role.Heart? && (m.task.role.sweep.Asleep? || PongKnown(m.dir, m.task.role.sweep, x, answered))
  {
    hide Removable, Known, OneEach, Entries;
    if sw.probe.NoProbe? {
      if sw.todo != [] { assert sw.todo[0].gen != x.gen; }
    } else {
      ProbedApart(sw);
    }
  }

  lemma ProbedApart(sw: Sweep)
    requires sw.Probing? && !sw.probe.NoProbe? && OneEach(Entries(sw))
    ensures forall y :: y in sw.pinged || y in sw.todo ==> y.gen != sw.probe.who.gen
  {
    hide OneEach;
    Without(sw.pinged, sw.probe.who, sw.todo);
  }

  lemma SweepPong(cfg: Config, d: Dir, sw: Sweep, a: Act, o: Oracle, x: Idler, answered: bool)
    requires PongKnown(d, sw, x, answered) && OneEach(Entries(sw))
    ensures var m := HeartMove(cfg, d, sw, a, o);
            m.task.role.Heart? && (m.task.role.sweep.Asleep? || PongKnown(m.dir, m.task.role.sweep, x, answered))
  {
    hide Removable, Unanswered, OneEach, ProbingMove, Live, Entries;
    if sw.Probing? { ProbePong(d, sw, a, x, answered); }
  }

  /** The step with which the sweep begins to ping `x`. */
  predicate PingStarts(s: State, s': State, x: Idler) {
    var sw, sw' := SweepOf(s), SweepOf(s');
    && sw.Probing? && sw.probe.NoProbe? && sw.todo != [] && sw.todo[0] == x
    && sw'.Probing? && sw'.probe == PingProbe(x)
  }

  lemma PingBegins(cfg: Config, s: State, e: Event, s': State, x: Idler)
    requires Inv(cfg, s) && Next(cfg, s, e, s') && PingStarts(s, s', x) && OneEach(Entries(SweepOf(s)))
    ensures PongKnown(s'.dir, SweepOf(s'), x, false)
  {
    hide Inv, Next, HeartMove, OneEach;
    if HeartOwn(s, e) {
      SweepStep(cfg, s, e, s');
      ProbeBegins(s.dir, SweepOf(s), s.tasks[0].act, x);
      HeartIsProbing(cfg, s.dir, SweepOf(s), s.tasks[0].act, e.oracle);
    } else {
      NextPongs(cfg, s, e, s', x.gen);
    }
  }

  lemma HeartIsProbing(cfg: Config, d: Dir, sw: Sweep, a: Act, o: Oracle)
    requires sw.Probing?
    ensures HeartMove(cfg, d, sw, a, o) == ProbingMove(d, sw.now, sw.todo, sw.evicted, sw.pinged, sw.probe, a)
  {
    hide ProbingMove;
  }

  lemma ProbeBegins(d: Dir, sw: Sweep, a: Act, x: Idler)
    requires sw.Probing? && sw.probe.NoProbe? && sw.todo != [] && sw.todo[0] == x && OneEach(Entries(sw))
    ensures var m := ProbingMove(d, sw.now, sw.todo, sw.evicted, sw.pinged, sw.probe, a);
            m.task.role.Heart? && (m.task.role.sweep.Probing? && m.task.role.sweep.probe == PingProbe(x) ==>
              PongKnown(m.dir, m.task.role.sweep, x, false))
  {
    hide OneEach, Known;
    assert Entries(sw) == sw.pinged + [x] + sw.todo[1..];
    Without(sw.pinged, x, sw.todo[1..]);
  }

  /** An answer of `g` has arrived after state `p` and before state `j`. */
  ghost predicate Answered(states: seq<State>, events: seq<Event>, p: nat, j: nat, g: Gen) {
    exists k :: p < k < j && k < |events| && k < |states| && PongArrives(states[k], events[k], g)
  }

  /** In all states from `i` to `j` the same sweep is running. */
  ghost predicate SameSweep(states: seq<State>, i: nat, j: nat) {
    j < |states| && forall k :: i <= k <= j ==> !SweepOf(states[k]).Asleep?
  }

  lemma NextPongKnown(cfg: Config, s: State, e: Event, s': State, x: Idler, b: bool)
    requires Inv(cfg, s) && Next(cfg, s, e, s') && OneEach(Entries(SweepOf(s))) && !SweepOf(s').Asleep?
    requires PongKnown(s.dir, SweepOf(s), x, b) && x.gen.conn in s.dir.reg.infos
    ensures PongKnown(s'.dir, SweepOf(s'), x, b || PongArrives(s, e, x.gen))
  {
    hide Inv, Next, HeartMove, OneEach, Live, PongArrives;
    if HeartOwn(s, e) {
      SweepStep(cfg, s, e, s');
      SweepPong(cfg, s.dir, SweepOf(s), s.tasks[0].act, e.oracle, x, b);
      NoPongFromHeart(cfg, s, e, x.gen);
    } else {
      NextPongs(cfg, s, e, s', x.gen);
      if !Live(s.dir, x.gen) { StaysGone(cfg, s, e, s', x.gen); }
    }
  }

  lemma NoPongFromHeart(cfg: Config, s: State, e: Event, g: Gen)
    requires Inv(cfg, s) && HeartOwn(s, e)
    ensures !PongArrives(s, e, g)
  {
    PongsLive(cfg, s, g);
  }

  lemma AnsweredNext(states: seq<State>, events: seq<Event>, p: nat, j: nat, g: Gen)
    requires p < j < |events| && j < |states|
    ensures Answered(states, events, p, j + 1, g) <==>
            Answered(states, events, p, j, g) || PongArrives(states[j], events[j], g)
  {
    hide PongArrives;
    if Answered(states, events, p, j + 1, g) && !PongArrives(states[j], events[j], g) {
      var k :| p < k < j + 1 && k < |events| && k < |states| && PongArrives(states[k], events[k], g);
      assert k < j;
    }
  }

  lemma EntryKnown(cfg: Config, states: seq<State>, events: seq<Event>, j: nat, g: Gen)
    requires IsRun(cfg, states, events) && j < |states| && g.conn in states[j].seen
    ensures g.conn in states[j].dir.reg.infos
  {
    hide IsRun, Inv;
    RunInv(cfg, states, events, j);
    SeenKnown(cfg, states[j], g);
  }

  lemma {:induction false} SeenStays(cfg: Config, states: seq<State>, events: seq<Event>, i: nat, j: nat, c: ConnId)
    requires IsRun(cfg, states, events) && i <= j < |states| && c in states[i].seen
    ensures c in states[j].seen
    decreases j
  {
    hide IsRun, Next, Inv;
    if i < j {
      SeenStays(cfg, states, events, i, j - 1, c);
      RunNext(cfg, states, events, j);
      NextGrows(cfg, states[j - 1], events[j - 1], states[j]);
    }
  }

  lemma ListedSeen(cfg: Config, states: seq<State>, events: seq<Event>, i: nat, x: Idler)
    requires IsRun(cfg, states, events) && i < |states| && InSweep(SweepOf(states[i]), x)
    ensures x.gen.conn in states[i].seen
  {
    hide IsRun;
    RunHeartSeen(cfg, states, events, i);
  }

  lemma {:induction false} RunPongKnown(cfg: Config, states: seq<State>, events: seq<Event>, p: nat, j: nat, x: Idler)
    requires IsRun(cfg, states, events) && p < j < |states| && PingStarts(states[p], states[p + 1], x)
    requires SameSweep(states, p + 1, j)
    ensures PongKnown(states[j].dir, SweepOf(states[j]), x, Answered(states, events, p, j, x.gen))
    decreases j
  {
    hide IsRun, Next, Inv, OneEach, PongKnown, PongArrives, Init;
    RunStart(cfg, states, events);
    RunNext(cfg, states, events, j);
    RunOnce(cfg, states, events, j - 1);
    if j == p + 1 {
      PingBegins(cfg, states[p], events[p], states[j], x);
      assert !Answered(states, events, p, j, x.gen);
    } else {
      RunPongKnown(cfg, states, events, p, j - 1, x);
      ListedSeen(cfg, states, events, p, x);
      SeenStays(cfg, states, events, p, j - 1, x.gen.conn);
      EntryKnown(cfg, states, events, j - 1, x.gen);
      NextPongKnown(cfg, states[j - 1], events[j - 1], states[j], x, Answered(states, events, p, j - 1, x.gen));
      AnsweredNext(states, events, p, j - 1, x.gen);
    }
  }

  lemma WaitEnds(cfg: Config, s: State, e: Event, s': State, x: Idler)
    requires Inv(cfg, s) && Next(cfg, s, e, s') && SweepOf(s).AwaitingPongs? && SweepOf(s').TimingOut?
    ensures x in SweepOf(s').todo <==> x in SweepOf(s).pinged && x.gen in s.dir.pong
  {
    hide Inv, Next, Unanswered;
    if HeartOwn(s, e) { SweepStep(cfg, s, e, s'); } else { NextPongs(cfg, s, e, s', x.gen); }
  }

  /** When the wait for pongs ends, a pinged peer is to be timed out if and only if its generation still owns the nick
      and no PONG of it has arrived since the sweep began to ping it. */
  lemma TimesOutTheSilent(cfg: Config, states: seq<State>, events: seq<Event>, p: nat, j: nat, x: Idler)
    requires IsRun(cfg, states, events) && p < j && j + 1 < |states| && PingStarts(states[p], states[p + 1], x)
    requires SameSweep(states, p + 1, j) && SweepOf(states[j]).AwaitingPongs? && x in SweepOf(states[j]).pinged
    requires SweepOf(states[j + 1]).TimingOut?
    ensures x in SweepOf(states[j + 1]).todo <==>
            Live(states[j].dir, x.gen) && !Answered(states, events, p, j, x.gen)
  {
    hide IsRun, Next, Inv, Answered, Live;
    RunPongKnown(cfg, states, events, p, j, x);
    RunNext(cfg, states, events, j + 1);
    WaitEnds(cfg, states[j], events[j], states[j + 1], x);
  }

  /** `g` has answered and will not be timed out by the sweep. */
  ghost predicate Cleared(d: Dir, sw: Sweep, g: Gen) {
    && !sw.Asleep? && !sw.Evicting? && NotAhead(sw, g)
    && (sw.Probing? || sw.AwaitingPongs? ==> g !in d.pong)
    && (sw.TimingOut? ==> forall y :: y in sw.todo ==> y.gen != g)
  }

  lemma SweepKeepsCleared(cfg: Config, d: Dir, sw: Sweep, a: Act, o: Oracle, g: Gen)
    requires Cleared(d, sw, g)
    ensures var m := HeartMove(cfg, d, sw, a, o);
            m.task.role.Heart? && (m.task.role.sweep.Asleep? || Cleared(m.dir, m.task.role.sweep, g))
  {
    hide IdleSince, Removable, Known, Unanswered, Live;
  }

  lemma NextCleared(cfg: Config, s: State, e: Event, s': State, g: Gen)
    requires Inv(cfg, s) && Next(cfg, s, e, s') && Cleared(s.dir, SweepOf(s), g) && !SweepOf(s').Asleep?
    ensures Cleared(s'.dir, SweepOf(s'), g)
  {
    hide Inv, Next, HeartMove, Live, PongArrives;
    if HeartOwn(s, e) {
      SweepStep(cfg, s, e, s');
      SweepKeepsCleared(cfg, s.dir, SweepOf(s), s.tasks[0].act, e.oracle, g);
    } else {
      NextPongs(cfg, s, e, s', g);
    }
  }

  lemma {:induction false} StaysCleared(cfg: Config, states: seq<State>, events: seq<Event>, i: nat, j: nat, g: Gen)
    requires IsRun(cfg, states, events) && i <= j && SameSweep(states, i, j)
    requires Cleared(states[i].dir, SweepOf(states[i]), g)
    ensures Cleared(states[j].dir, SweepOf(states[j]), g)
    decreases j
  {
    hide IsRun, Next, Inv, Cleared;
    if i < j {
      StaysCleared(cfg, states, events, i, j - 1, g);
      RunNext(cfg, states, events, j);
      NextCleared(cfg, states[j - 1], events[j - 1], states[j], g);
    }
  }

  lemma PongClears(cfg: Config, s: State, e: Event, s': State, g: Gen, h: Gen)
    requires Inv(cfg, s) && Next(cfg, s, e, s') && PongArrives(s, e, g)
    ensures g !in s'.dir.pong && SweepOf(s') == SweepOf(s)
    ensures h != g && Live(s'.dir, h) ==> (h in s'.dir.pong <==> h in s.dir.pong)
  {
    hide Inv, Next, Live;
    if HeartOwn(s, e) { NoPongFromHeart(cfg, s, e, g); }
    NextPongs(cfg, s, e, s', g);
    NextPongs(cfg, s, e, s', h);
    if PongArrives(s, e, h) { OneTask(s, e, g, h); }
  }

  lemma OneTask(s: State, e: Event, g: Gen, h: Gen)
    requires PongArrives(s, e, g) && PongArrives(s, e, h)
    ensures g == h
  {
  }

  /** A peer whose PONG arrives after the sweep began to ping it and before the wait is over is in no list of peers to
      be timed out in that sweep. */
  lemma AnswerSaves(cfg: Config, states: seq<State>, events: seq<Event>, p: nat, k: nat, j: nat, x: Idler)
    requires IsRun(cfg, states, events) && p < k < j && k < |events| && PingStarts(states[p], states[p + 1], x)
    requires SameSweep(states, p + 1, j) && PongArrives(states[k], events[k], x.gen)
    requires SweepOf(states[k]).Probing? || SweepOf(states[k]).AwaitingPongs?
    ensures SweepOf(states[j]).TimingOut? ==> forall y :: y in SweepOf(states[j]).todo ==> y.gen != x.gen
  {
    hide IsRun, Next, Inv, PongArrives, Answered, Live;
    RunPongKnown(cfg, states, events, p, k, x);
    RunNext(cfg, states, events, k + 1);
    PongClears(cfg, states[k], events[k], states[k + 1], x.gen, x.gen);
    assert SameSweep(states, k + 1, j);
    StaysCleared(cfg, states, events, k + 1, j, x.gen);
  }

  // ---- whoever is listed for removal goes ----

  /** Is the call that removes an owner past its critical section? */
  predicate PastRemoval(a: Act) {
    a.Returned? || a.Gathering?
  }

  ghost predicate Gone(d: Dir, g: Gen) {
    g.conn in d.reg.infos && !Live(d, g)
  }

  /** The generation a sweep is removing. */
  function Removing(sw: Sweep): (g: Option<Gen>) {
    match sw
    case Evicting(_, todo, _) => if todo == [] then None else Some(todo[0].gen)
    case TimingOut(_, todo) => if todo == [] then None else Some(todo[0].gen)
    case Probing(_, _, _, _, DeadProbe(x)) => Some(x.gen)
    case _ => None
  }

  ghost predicate RemovalsDone(d: Dir, sw: Sweep, a: Act) {
    && (Removing(sw).Some? && PastRemoval(a) ==> Gone(d, Removing(sw).value))
    && (sw.Evicting? ==> forall g :: g in sw.evicted ==>
          Gone(d, g) || (!a.Running? && Removing(sw) == Some(g)))
    && (sw.Probing? ==> forall g :: g in sw.evicted ==> Gone(d, g))
  }

  lemma SweepRemoves(cfg: Config, d: Dir, sw: Sweep, a: Act, o: Oracle)
    requires MapsAgree(d) && HeartShape(sw, a) && !InSharedCall(a) && RemovalsDone(d, sw, a)
    requires forall x :: InSweep(sw, x) ==> x.gen.conn in d.reg.infos
    ensures var m := HeartMove(cfg, d, sw, a, o);
            m.task.role.Heart? && RemovalsDone(m.dir, m.task.role.sweep, m.task.act)
  {
    hide IdleSince, Known, Unanswered;
    match sw {
      case Evicting(_, todo, _) => if todo != [] { assert InSweep(sw, todo[0]); RemoveEnds(d, todo[0].gen); }
      case TimingOut(_, todo) => if todo != [] { assert InSweep(sw, todo[0]); RemoveEnds(d, todo[0].gen); }
      case Probing(_, _, _, _, PingProbe(x)) => assert InSweep(sw, x); RemoveEnds(d, x.gen);
      case _ =>
    }
  }

  lemma GoneStays(cfg: Config, s: State, e: Event, s': State, g: Gen)
    requires Inv(cfg, s) && Next(cfg, s, e, s') && Gone(s.dir, g)
    ensures Gone(s'.dir, g)
  {
    hide Inv, Next, Live;
    StaysGone(cfg, s, e, s', g);
  }

  lemma KnownStays(cfg: Config, s: State, e: Event, s': State, c: ConnId)
    requires Inv(cfg, s) && Next(cfg, s, e, s') && c in s.dir.reg.infos
    ensures c in s'.dir.reg.infos
  {
    hide Inv, Step, Connect, Do, EffectOf, StepMove, Allowed;
    PongsLive0(cfg, s);
    if e.Arrive? {
      ArriveDir(cfg, s);
    } else {
      StepFacts(cfg, s, e.task, e.oracle);
      StepDoes(cfg, s, e.task, e.oracle);
      DoKeepsInfos(s.dir, e.task, StepEffect(cfg, s, e.task, e.oracle), e.oracle, c);
    }
  }

  lemma PongsLive0(cfg: Config, s: State)
    requires Inv(cfg, s)
    ensures MapsAgree(s.dir) && |s.tasks| > 0 && s.tasks[0].role.Heart? && Shape(0, s.tasks[0], |s.tasks|)
  {
  }

  /** The call of the sweep's removal goes on. */
  lemma CallRemoves(cfg: Config, s: State, o: Oracle)
    requires Inv(cfg, s) && Enabled(s, 0, o) && InSharedCall(s.tasks[0].act) && Removing(SweepOf(s)).Some?
    ensures var m := StepMove(cfg, s, 0, o);
            PastRemoval(m.task.act) && (PastRemoval(s.tasks[0].act) || !Live(m.dir, Removing(SweepOf(s)).value))
  {
    hide Inv, Enabled, SharedMove, Live, SendReady;
    PongsLive0(cfg, s);
    SharedGoesOn(cfg, s.dir, s.tasks[0], |s.tasks|, o);
    RemovingCall(SweepOf(s), s.tasks[0].act);
  }

  lemma RemovingCall(sw: Sweep, a: Act)
    requires HeartShape(sw, a) && InSharedCall(a) && Removing(sw).Some?
    ensures a.Gathering? || a == Waiting(Removing(sw).value.nick, ToRemove(Removing(sw).value.conn, true))
  {
  }

  lemma NextRemovals(cfg: Config, s: State, e: Event, s': State)
    requires Inv(cfg, s) && Next(cfg, s, e, s') && HeartSeen(s)
    requires RemovalsDone(s.dir, SweepOf(s), s.tasks[0].act)
    ensures |s'.tasks| > 0 && RemovalsDone(s'.dir, SweepOf(s'), s'.tasks[0].act)
  {
    hide Inv, Next, HeartMove, Gone, InSweep;
    PongsLive0(cfg, s);
    var sw, a := SweepOf(s), s.tasks[0].act;
    forall x | InSweep(sw, x) ensures x.gen.conn in s.dir.reg.infos { SeenKnown(cfg, s, x.gen); }
    if HeartOwn(s, e) {
      SweepStep(cfg, s, e, s');
      SweepRemoves(cfg, s.dir, sw, a, e.oracle);
    } else {
      OtherStep(cfg, s, e, s');
      forall g | Gone(s.dir, g) ensures Gone(s'.dir, g) { GoneStays(cfg, s, e, s', g); }
      if Removing(sw).Some? && !PastRemoval(a) && PastRemoval(s'.tasks[0].act) {
        RemovingListed(sw);
        KnownStays(cfg, s, e, s', Removing(sw).value.conn);
        RemovalPassed(cfg, s, e, s');
        MakesGone(s'.dir, Removing(sw).value);
      }
    }
  }

  lemma MakesGone(d: Dir, g: Gen)
    requires g.conn in d.reg.infos && !Live(d, g)
    ensures Gone(d, g)
  {
  }

  lemma RemovingListed(sw: Sweep)
    requires Removing(sw).Some?
    ensures exists x :: InSweep(sw, x) && x.gen == Removing(sw).value
  {
    match sw {
      case Evicting(_, todo, _) => assert InSweep(sw, todo[0]);
      case TimingOut(_, todo) => assert InSweep(sw, todo[0]);
      case Probing(_, _, _, _, DeadProbe(x)) => assert InSweep(sw, x);
    }
  }

  lemma OtherStep(cfg: Config, s: State, e: Event, s': State)
    requires Inv(cfg, s) && Next(cfg, s, e, s') && !HeartOwn(s, e)
    ensures |s'.tasks| > 0 && SweepOf(s') == SweepOf(s)
    ensures s'.tasks[0] == s.tasks[0] || (e.Run? && e.task == 0 && InSharedCall(s.tasks[0].act))
    ensures s'.tasks[0].act.Running? ==> s.tasks[0].act.Running?
  {
    hide Inv, Step, Connect, StepMove;
    PongsLive0(cfg, s);
    if e.Arrive? {
      ArriveDir(cfg, s);
    } else {
      StepFacts(cfg, s, e.task, e.oracle);
      if e.task == 0 { HeartMidCall(cfg, s, e.oracle); NotRunningYet(cfg, s, e.oracle); }
    }
  }

  lemma NotRunningYet(cfg: Config, s: State, o: Oracle)
    requires |s.tasks| > 0 && InSharedCall(s.tasks[0].act)
    ensures !StepMove(cfg, s, 0, o).task.act.Running?
  {
    hide NextBatch, Protocol.Broadcast, RemoveGen, Removable, SendReady, IsHandshaked;
  }

  lemma RemovalPassed(cfg: Config, s: State, e: Event, s': State)
    requires Inv(cfg, s) && Next(cfg, s, e, s') && !HeartOwn(s, e) && |s.tasks| > 0 && |s'.tasks| > 0
    requires Removing(SweepOf(s)).Some? && !PastRemoval(s.tasks[0].act) && PastRemoval(s'.tasks[0].act)
    ensures !Live(s'.dir, Removing(SweepOf(s)).value)
  {
    hide Inv, Step, Connect, StepMove, Live;
    OtherStep(cfg, s, e, s');
    StepFacts(cfg, s, 0, e.oracle);
    CallRemoves(cfg, s, e.oracle);
  }

  lemma {:induction false} RunRemovals(cfg: Config, states: seq<State>, events: seq<Event>, j: nat)
    requires IsRun(cfg, states, events) && j < |states|
    ensures |states[j].tasks| > 0 && RemovalsDone(states[j].dir, SweepOf(states[j]), states[j].tasks[0].act)
    decreases j
  {
    hide IsRun, Next, Inv, RemovalsDone, HeartSeen, Init;
    if j == 0 {
      RunStart(cfg, states, events);
      InitRemovals(cfg);
    } else {
      RunRemovals(cfg, states, events, j - 1);
      RunHeartSeen(cfg, states, events, j - 1);
      RunNext(cfg, states, events, j);
      NextRemovals(cfg, states[j - 1], events[j - 1], states[j]);
    }
  }

  lemma InitRemovals(cfg: Config)
    ensures var s := Init(cfg); |s.tasks| > 0 && RemovalsDone(s.dir, SweepOf(s), s.tasks[0].act)
  {
  }

  /** The sweep has `x` on its list of peers to remove, for being idle too long or for a missing pong. */
  predicate ToGo(sw: Sweep, x: Idler) {
    (sw.Evicting? || sw.TimingOut?) && x in sw.todo
  }

  lemma SweepPasses(cfg: Config, d: Dir, sw: Sweep, a: Act, o: Oracle, x: Idler)
    requires ToGo(sw, x) && RemovalsDone(d, sw, a)
    ensures var m := HeartMove(cfg, d, sw, a, o);
            m.task.role.Heart? && (ToGo(m.task.role.sweep, x) || Gone(m.dir, x.gen))
  {
    hide IdleSince, Removable, Known, Unanswered;
  }

  /** Whoever is on a list of peers to remove stays on it until it has lost its nick for good. */
  lemma {:induction false} ListedMustGo(cfg: Config, states: seq<State>, events: seq<Event>, i: nat, j: nat, x: Idler)
    requires IsRun(cfg, states, events) && i <= j < |states| && ToGo(SweepOf(states[i]), x)
    ensures ToGo(SweepOf(states[j]), x) || Gone(states[j].dir, x.gen)
    decreases j
  {
    hide IsRun, Next, Inv, Gone, HeartMove, RemovalsDone;
    if i < j {
      ListedMustGo(cfg, states, events, i, j - 1, x);
      RunNext(cfg, states, events, j);
      RunRemovals(cfg, states, events, j - 1);
      var s, e, s' := states[j - 1], events[j - 1], states[j];
      if Gone(s.dir, x.gen) {
        GoneStays(cfg, s, e, s', x.gen);
      } else if HeartOwn(s, e) {
        SweepStep(cfg, s, e, s');
        SweepPasses(cfg, s.dir, SweepOf(s), s.tasks[0].act, e.oracle, x);
      } else {
        OtherStep(cfg, s, e, s');
      }
    }
  }

  // ---- every idle peer is settled ----

  /** What is still to be done about the idle peer `x`, unless it has answered or lost its nick. */
  ghost predicate Unsettled(d: Dir, sw: Sweep, x: Idler) {
    match sw
    case Probing(_, todo, _, pinged, probe) =>
      || x in todo || probe == DeadProbe(x)
      || ((probe == PingProbe(x) || x in pinged) && x.gen in d.pong)
    case AwaitingPongs(_, pinged) => x in pinged && x.gen in d.pong
    case TimingOut(_, todo) => x in todo
    case _ => false
  }

  lemma ProbingSettles(cfg: Config, d: Dir, sw: Sweep, a: Act, o: Oracle, x: Idler)
    requires MapsAgree(d) && HeartShape(sw, a) && !InSharedCall(a) && RemovalsDone(d, sw, a) && OneEach(Entries(sw))
    requires Pings(d, x.gen) && Unsettled(d, sw, x) && sw.Probing?
    ensures var m := HeartMove(cfg, d, sw, a, o);
            m.task.role.Heart? && (Unsettled(m.dir, m.task.role.sweep, x) || !Live(m.dir, x.gen))
  {
    hide OneEach, Entries, Removable;
    if !sw.probe.NoProbe? { ProbedApart(sw); }
    if Live(d, x.gen) { CurrentKnown(d, x.gen.nick, x.gen.conn); }
    hide MapsAgree, EvictingMove, TimingOutMove;
  }

  lemma SweepSettles(cfg: Config, d: Dir, sw: Sweep, a: Act, o: Oracle, x: Idler)
    requires MapsAgree(d) && HeartShape(sw, a) && !InSharedCall(a) && RemovalsDone(d, sw, a) && OneEach(Entries(sw))
    requires Pings(d, x.gen) && Unsettled(d, sw, x)
    ensures var m := HeartMove(cfg, d, sw, a, o);
            m.task.role.Heart? && (Unsettled(m.dir, m.task.role.sweep, x) || !Live(m.dir, x.gen))
  {
    hide IdleSince, Unanswered, OneEach, Entries, Removable, MapsAgree, ProbingMove;
    if sw.Probing? { ProbingSettles(cfg, d, sw, a, o, x); }
  }

  lemma NextPings(cfg: Config, s: State, e: Event, s': State, g: Gen)
    requires Inv(cfg, s) && Next(cfg, s, e, s') && Pings(s.dir, g)
    ensures Pings(s'.dir, g)
  {
    hide Inv, Step, Connect, Do, EffectOf, StepMove, Allowed;
    PongsLive0(cfg, s);
    if e.Arrive? {
      ArriveDir(cfg, s);
    } else {
      StepFacts(cfg, s, e.task, e.oracle);
      StepDoes(cfg, s, e.task, e.oracle);
      StepUnregistered(cfg, s, e.task);
      DoPings(s.dir, e.task, s.tasks[e.task], StepEffect(cfg, s, e.task, e.oracle), e.oracle, g);
    }
  }

  lemma NextSettles(cfg: Config, s: State, e: Event, s': State, x: Idler)
    requires Inv(cfg, s) && Next(cfg, s, e, s') && Pings(s.dir, x.gen) && Unsettled(s.dir, SweepOf(s), x)
    requires |s.tasks| > 0 && RemovalsDone(s.dir, SweepOf(s), s.tasks[0].act) && OneEach(Entries(SweepOf(s)))
    ensures Unsettled(s'.dir, SweepOf(s'), x) || !Live(s'.dir, x.gen) || PongArrives(s, e, x.gen)
  {
    hide Inv, Next, HeartMove, OneEach, Live, PongArrives, RemovalsDone, Pings;
    if HeartOwn(s, e) {
      PongsLive0(cfg, s);
      SweepStep(cfg, s, e, s');
      SweepSettles(cfg, s.dir, SweepOf(s), s.tasks[0].act, e.oracle, x);
    } else {
      NextPongs(cfg, s, e, s', x.gen);
    }
  }

  ghost predicate SettledBy(s: State, x: Idler, answered: bool) {
    Pings(s.dir, x.gen) && (Unsettled(s.dir, SweepOf(s), x) || Gone(s.dir, x.gen) || answered)
  }

  lemma NextSettled(cfg: Config, s: State, e: Event, s': State, x: Idler, b: bool)
    requires Inv(cfg, s) && Next(cfg, s, e, s') && SettledBy(s, x, b)
    requires |s.tasks| > 0 && RemovalsDone(s.dir, SweepOf(s), s.tasks[0].act) && OneEach(Entries(SweepOf(s)))
    ensures SettledBy(s', x, b || PongArrives(s, e, x.gen))
  {
    hide Inv, Next, Gone, RemovalsDone, OneEach, PongArrives, Unsettled, Live, Pings;
    NextPings(cfg, s, e, s', x.gen);
    PingsKnown(s'.dir, x.gen);
    if Gone(s.dir, x.gen) {
      GoneStays(cfg, s, e, s', x.gen);
    } else if Unsettled(s.dir, SweepOf(s), x) {
      NextSettles(cfg, s, e, s', x);
      if !Live(s'.dir, x.gen) { MakesGone(s'.dir, x.gen); }
    }
  }

  lemma RunSettledStep(cfg: Config, states: seq<State>, events: seq<Event>, j: nat, x: Idler, b: bool)
    requires IsRun(cfg, states, events) && 0 < j < |states| && SettledBy(states[j - 1], x, b)
    ensures j <= |events| && SettledBy(states[j], x, b || PongArrives(states[j - 1], events[j - 1], x.gen))
  {
    hide IsRun, Next, Inv, RemovalsDone, OneEach, PongArrives, SettledBy;
    RunNext(cfg, states, events, j);
    RunRemovals(cfg, states, events, j - 1);
    RunOnce(cfg, states, events, j - 1);
    NextSettled(cfg, states[j - 1], events[j - 1], states[j], x, b);
  }

  lemma {:induction false} Settled(cfg: Config, states: seq<State>, events: seq<Event>, i: nat, j: nat, x: Idler)
    requires IsRun(cfg, states, events) && 0 < i <= j < |states|
    requires SweepOf(states[i]).Probing? && x in SweepOf(states[i]).todo && Pings(states[i].dir, x.gen)
    ensures SettledBy(states[j], x, Answered(states, events, i - 1, j, x.gen))
    decreases j
  {
    if i < j {
      hide IsRun, PongArrives, SettledBy, Answered, Pings;
      Settled(cfg, states, events, i, j - 1, x);
      RunSettledStep(cfg, states, events, j, x, Answered(states, events, i - 1, j - 1, x.gen));
      AnsweredNext(states, events, i - 1, j - 1, x.gen);
    }
  }

  lemma PingsKnown(d: Dir, g: Gen)
    requires Pings(d, g)
    ensures g.conn in d.reg.infos
  {
  }

  /** When a sweep is over, every idle peer with ping support that it listed has answered with a PONG or has lost its
      nick for good. */
  lemma IdleAnswerOrGo(cfg: Config, states: seq<State>, events: seq<Event>, i: nat, j: nat, x: Idler)
    requires IsRun(cfg, states, events) && 0 < i <= j < |states|
    requires SweepOf(states[i]).Probing? && x in SweepOf(states[i]).todo && Pings(states[i].dir, x.gen)
    requires SweepOf(states[j]).Asleep?
    ensures Gone(states[j].dir, x.gen) || Answered(states, events, i - 1, j, x.gen)
  {
    Settled(cfg, states, events, i, j, x);
    hide IsRun, Gone, Answered, Pings;
  }

  /** A sweep lists every HANDSHAKED owner that was last seen before its cutoff: the hard one at its start, the idle
      one when the evictions are done. */
  lemma ListsAllIdle(cfg: Config, s: State, e: Event, s': State, g: Gen)
    requires Inv(cfg, s) && Next(cfg, s, e, s') && Serves(s.dir, g)
    ensures g.conn in s.dir.reg.infos
    ensures var x := Idler(g, s.dir.reg.infos[g.conn].lastSeen);
            && (SweepOf(s).Asleep? && SweepOf(s').Evicting? && x.seen < SweepOf(s').now - cfg.hardEvict ==>
                  x in SweepOf(s').todo)
            && (SweepOf(s).Evicting? && SweepOf(s').Probing? && x.seen < SweepOf(s').now - cfg.idleThreshold ==>
                  x in SweepOf(s').todo)
  {
    hide Inv, Next;
    PongsLive0(cfg, s);
    CurrentKnown(s.dir, g.nick, g.conn);
    if HeartOwn(s, e) {
      SweepStep(cfg, s, e, s');
      assert g.nick in e.oracle.listing;
      hide IdleSince, Removable;
    } else {
      NextPongs(cfg, s, e, s', g);
    }
  }

  /** When its turn comes, an idle peer that still owns its nick and was not evicted before is pinged if it supports
      that, is asked for its offers if it is a maker, and is passed over otherwise. */
  lemma ProbesByKind(cfg: Config, d: Dir, sw: Sweep, o: Oracle)
    requires sw.Probing? && sw.probe.NoProbe? && sw.todo != [] && MapsAgree(d)
    requires Live(d, sw.todo[0].gen) && sw.todo[0].gen !in sw.evicted
    ensures sw.todo[0].gen.conn in d.reg.infos
    ensures var m, x := HeartMove(cfg, d, sw, Running, o), sw.todo[0];
            var info := d.reg.infos[x.gen.conn];
            && m.task.act == (if info.pings || info.maker then Waiting(x.gen.nick, ToSend(x.gen.conn)) else Running)
            && m.dir.pong == (if info.pings then d.pong + {x.gen} else d.pong)
            && m.task.role == Heart(Probing(sw.now, sw.todo[1..], sw.evicted, sw.pinged,
                 if info.pings then PingProbe(x) else if info.maker then BookProbe(x) else NoProbe))
  {
    CurrentKnown(d, sw.todo[0].gen.nick, sw.todo[0].gen.conn);
    hide MapsAgree;
  }

  // ---- when a peer was last heard ----

  /** The step registers `g`, completes its handshake, or takes a message from it. */
  predicate HearsIn(task: Task, o: Oracle, g: Gen) {
    match task.role
    case Handler(Registering(info, _)) => info.nick == g.nick
    case Handler(Confirming(_)) => task.act.Writing? && o.ok
    case Handler(Promoting(_)) => true
    case Handler(Serving(_, _)) => task.act.Running? && !o.msg.Hangup?
    case _ => false
  }

  predicate Hears(s: State, e: Event, g: Gen) {
    e.Run? && e.task == g.conn && g.conn < |s.tasks| && HearsIn(s.tasks[g.conn], e.oracle, g)
  }

  /** The time of the last step before state `j` that heard `g`. */
  function LastHeard(states: seq<State>, events: seq<Event>, j: nat, g: Gen): (now: Option<int>)
    requires j <= |events| <= |states|
    decreases j
  {
    if j == 0 then None
    else if Hears(states[j - 1], events[j - 1], g) then Some(events[j - 1].oracle.now)
    else LastHeard(states, events, j - 1, g)
  }

  /** The effects that set a time. */
  predicate Stamps(e: Effect) {
    e.Registers? || e.Promotes? || e.Touches? || e.Publishes? || e.Answers?
  }

  /** The time kept for `g`. */
  function Seen(d: Dir, g: Gen): (now: Option<int>) {
    if Live(d, g) && g.conn in d.reg.infos then Some(d.reg.infos[g.conn].lastSeen) else None
  }

  lemma RegisterTimes(d: Dir, c: ConnId, info: PeerInfo, key: Option<PubKey>, now: int, g: Gen)
    requires MapsAgree(d) && c !in d.reg.infos && RegisterPeer(d, c, info, key, now).Admitted?
    ensures var d' := RegisterPeer(d, c, info, key, now).dir;
            && (Live(d', g) && c == g.conn ==> g.nick == info.nick && Seen(d', g) == Some(now))
            && (Live(d', g) && c != g.conn ==> Seen(d', g) == Seen(d, g) && Seen(d, g).Some?)
  {
  }

  lemma RemoveTimes(d: Dir, h: Gen, g: Gen)
    requires MapsAgree(d) && Live(d, h) && Live(RemoveGen(d, h), g)
    ensures Seen(RemoveGen(d, h), g) == Seen(d, g) && Seen(d, g).Some?
  {
  }

  lemma StampTimes(d: Dir, h: Gen, now: int, g: Gen)
    requires MapsAgree(d)
    ensures Seen(Touch(d, h, now), g) == if h == g && Live(d, g) then Some(now) else Seen(d, g)
    ensures Seen(Promote(d, h, now), g) == if h == g && Live(d, g) then Some(now) else Seen(d, g)
    ensures Live(d, g) ==> Seen(d, g).Some?
  {
  }

  lemma DoTimes(d: Dir, t: nat, task: Task, e: Effect, o: Oracle, g: Gen)
    requires MapsAgree(d) && Allowed(d, t, task, e, o) && Unregistered(d, t, task) && Live(Do(d, t, e, o), g)
    requires Stamps(e) && !e.Registers? && t == g.conn && Live(d, g) ==> e.nick == g.nick
    ensures Seen(Do(d, t, e, o), g) == if Stamps(e) && t == g.conn then Some(o.now) else Seen(d, g)
    ensures Seen(Do(d, t, e, o), g).Some?
  {
    hide RegisterPeer, RemoveGen, Touch, Promote, Ingress;
    match e {
      case Registers(info, key) => RegisterTimes(d, t, info, key, o.now, g);
      case Removes(h) => RemoveTimes(d, h, g);
      case Promotes(n) => StampTimes(d, Gen(n, t), o.now, g); StampOwners(d, Gen(n, t), o.now, g);
      case Touches(n) => StampTimes(d, Gen(n, t), o.now, g); StampOwners(d, Gen(n, t), o.now, g);
      case Publishes(n, _) => StampTimes(d, Gen(n, t), o.now, g); StampOwners(d, Gen(n, t), o.now, g);
      case Answers(n) => StampTimes(d, Gen(n, t), o.now, g); StampOwners(d, Gen(n, t), o.now, g);
      case _ => StampTimes(d, g, o.now, g);
    }
  }

  lemma StampOwners(d: Dir, h: Gen, now: int, g: Gen)
    ensures Live(Touch(d, h, now), g) <==> Live(d, g)
    ensures Live(Promote(d, h, now), g) <==> Live(d, g)
  {
  }

  /** The steps that set a time are those that hear the client. */
  lemma HearsStamps(d: Dir, t: nat, task: Task, base: nat, o: Oracle, d': Dir, g: Gen)
    requires MapsAgree(d) && Shape(t, task, base) && t == g.conn
    requires Live(d, g) ==> task.role.Handler? && KeyOf(task.role.phase) == Some(g.nick)
    ensures var e := EffectOf(d, t, task, o, d');
            && (Stamps(e) && !e.Registers? && Live(d, g) ==> e.nick == g.nick)
            && (Live(d, g) ==> (Stamps(e) <==> HearsIn(task, o, g)))
            && (Stamps(e) && e.Registers? && e.info.nick == g.nick ==> HearsIn(task, o, g))
  {
    hide RegisterPeer, Touch, Removable, IsHandshaked;
    if Live(d, g) { CurrentKnown(d, g.nick, t); }
    hide MapsAgree;
  }

  lemma OwnerServed(cfg: Config, s: State, g: Gen)
    requires Inv(cfg, s) && Live(s.dir, g)
    ensures g.conn < |s.tasks| && s.tasks[g.conn].role.Handler? && KeyOf(s.tasks[g.conn].role.phase) == Some(g.nick)
  {
    assert ServedBy(s.tasks, g.nick, g.conn);
  }

  lemma NextHeard(cfg: Config, s: State, e: Event, s': State, g: Gen)
    requires Inv(cfg, s) && Next(cfg, s, e, s') && Live(s'.dir, g)
    ensures Seen(s'.dir, g) == (if Hears(s, e, g) then Some(e.oracle.now) else Seen(s.dir, g)) && Seen(s'.dir, g).Some?
    ensures Live(s.dir, g) || Hears(s, e, g)
  {
    hide Inv, Step, Connect, Do, EffectOf, StepMove, Allowed, HearsIn, Live, Stamps;
    PongsLive0(cfg, s);
    if Live(s.dir, g) { OwnerServed(cfg, s, g); }
    if e.Arrive? {
      ArriveDir(cfg, s);
      SameTimes(s.dir, s'.dir, g);
    } else {
      var t, o := e.task, e.oracle;
      StepFacts(cfg, s, t, o);
      StepDoes(cfg, s, t, o);
      StepUnregistered(cfg, s, t);
      var task, x := s.tasks[t], StepEffect(cfg, s, t, o);
      if t == g.conn { HearsStamps(s.dir, t, task, |s.tasks|, o, StepMove(cfg, s, t, o).dir, g); }
      DoTimes(s.dir, t, task, x, o, g);
      BecomesOwner(s.dir, t, task, x, o, g);
    }
  }

  lemma BecomesOwner(d: Dir, t: nat, task: Task, e: Effect, o: Oracle, g: Gen)
    requires Allowed(d, t, task, e, o) && Live(Do(d, t, e, o), g)
    ensures Live(d, g) || (e.Registers? && g.conn == t && g.nick == e.info.nick && Stamps(e))
  {
    hide Do, Allowed;
    DoOwners(d, t, task, e, o, g.nick, g.conn);
  }

  lemma SameTimes(d: Dir, d': Dir, g: Gen)
    requires MapsAgree(d) && d'.reg == d.reg && Live(d', g)
    ensures Live(d, g) && Seen(d', g) == Seen(d, g) && Seen(d, g).Some?
  {
  }

  lemma RunHeardStep(cfg: Config, states: seq<State>, events: seq<Event>, j: nat, g: Gen)
    requires IsRun(cfg, states, events) && 0 < j < |states| && Live(states[j].dir, g)
    ensures j <= |events|
    ensures Live(states[j - 1].dir, g) || Hears(states[j - 1], events[j - 1], g)
    ensures Seen(states[j].dir, g) ==
            if Hears(states[j - 1], events[j - 1], g) then Some(events[j - 1].oracle.now)
            else Seen(states[j - 1].dir, g)
  {
    hide IsRun, Next, Inv, Live, Hears, Seen;
    RunNext(cfg, states, events, j);
    NextHeard(cfg, states[j - 1], events[j - 1], states[j], g);
  }

  lemma NobodyYet(cfg: Config, g: Gen)
    ensures !Live(Init(cfg).dir, g)
  {
  }

  lemma {:induction false} SeenIsHeard(cfg: Config, states: seq<State>, events: seq<Event>, j: nat, g: Gen)
    requires IsRun(cfg, states, events) && j < |states| && Live(states[j].dir, g)
    ensures j <= |events| <= |states| && LastHeard(states, events, j, g) == Seen(states[j].dir, g)
    decreases j
  {
    hide IsRun, Live, Hears, Init, Seen;
    RunStart(cfg, states, events);
    if j == 0 {
      NobodyYet(cfg, g);
    } else {
      RunHeardStep(cfg, states, events, j, g);
      if Live(states[j - 1].dir, g) { SeenIsHeard(cfg, states, events, j - 1, g); }
    }
  }

  /** In every run, the time kept for a current owner is that of its registration, of the end of its handshake or of
      its last message, whichever was last. */
  lemma LastSeenIsLastHeard(cfg: Config, states: seq<State>, events: seq<Event>, j: nat, g: Gen)
    requires IsRun(cfg, states, events) && j < |states| && Live(states[j].dir, g)
    ensures g.conn in states[j].dir.reg.infos && j <= |events| <= |states|
    ensures LastHeard(states, events, j, g) == Some(states[j].dir.reg.infos[g.conn].lastSeen)
  {
    hide IsRun, LastHeard;
    SeenIsHeard(cfg, states, events, j, g);
    RunMapsAgree(cfg, states, events, j);
    CurrentKnown(states[j].dir, g.nick, g.conn);
  }

  /** Whoever the heartbeat asks to remove had not been heard since the idle cutoff of the sweep when it was listed. */
  lemma EvictedWasSilent(cfg: Config, states: seq<State>, events: seq<Event>, j: nat)
    returns (g: Gen, now: int, i: nat)
    requires IsRun(cfg, states, events) && j < |states| && cfg.hardEvict >= cfg.idleThreshold
    requires |states[j].tasks| > 0 && states[j].tasks[0].act.Waiting? && states[j].tasks[0].act.want.ToRemove?
    ensures g == Gen(states[j].tasks[0].act.nick, states[j].tasks[0].act.want.conn)
    ensures i < j <= |events| <= |states| && !SweepOf(states[j]).Asleep? && SweepOf(states[j]).now == now
    ensures LastHeard(states, events, i, g).Some? && LastHeard(states, events, i, g).value < now - cfg.idleThreshold
    ensures SameSweep(states, i + 1, j)
  {
    hide IsRun, LastHeard, Init;
    RunStart(cfg, states, events);
    var x;
    x, now := EvictedWasIdle(cfg, states, events, j);
    g := x.gen;
    i :| 0 <= i < j < |states| && Idled(states[i].dir.reg, x)
      && (forall k :: i < k <= j ==>
            |states[k].tasks| > 0 && states[k].tasks[0].role.Heart? && !states[k].tasks[0].role.sweep.Asleep?);
    LastSeenIsLastHeard(cfg, states, events, i, g);
    RunMapsAgree(cfg, states, events, i);
    CurrentKnown(states[i].dir, g.nick, g.conn);
  }
}
