/** What becomes of a routed write while other tasks run: who loses its nick over it, and who received it.

    The history of a task and a generation says whether the task has written to it with success, has failed to,
    and whether the generation was not served at some moment of the task. */
module Deliveries {
  import opened Types
  import opened PeerRegistry
  import opened MessageRouter
  import opened Directory
  import opened Protocol
  import opened Shapes
  import opened Frames
  import opened Ownership
  import opened Announcements
  import opened Admission
  import opened Sweeps
  import opened Isolation
  import opened Runs
  import opened Theorems
  import opened Cascade
  import opened Coverage

  datatype History = History(good: bool, bad: bool, gap: bool)

  /** The step ends a routed write of task `u` to `g`. */
  predicate WriteEnds(s: State, e: Event, u: nat, g: Gen, ok: bool) {
    && e.Run? && e.task == u && u < |s.tasks|
    && s.tasks[u].act == Writing(g.nick, ToSend(g.conn)) && e.oracle.ok == ok
  }

  predicate Gap(s: State, u: nat, g: Gen) {
    u < |s.tasks| && !Serves(s.dir, g)
  }

  function Extend(h: History, s: State, e: Event, s': State, u: nat, g: Gen): (h': History) {
    History(h.good || WriteEnds(s, e, u, g, true), h.bad || WriteEnds(s, e, u, g, false), h.gap || Gap(s', u, g))
  }

  function HistoryOf(states: seq<State>, events: seq<Event>, j: nat, u: nat, g: Gen): (h: History)
    requires j <= |events| < |states|
    decreases j
  {
    if j == 0 then History(false, false, Gap(states[0], u, g))
    else Extend(HistoryOf(states, events, j - 1, u, g), states[j - 1], events[j - 1], states[j], u, g)
  }

  // ---- what a task's position says about its writes ----

  predicate SendTracked(d: Dir, seen: set<ConnId>, a: Act, g: Gen, h: History) {
    g.conn in seen && (a == Returned(false) ==> h.bad || !Live(d, g))
  }

  predicate SenderTracked(d: Dir, seen: set<ConnId>, stage: Stage, a: Act, g: Gen, h: History) {
    match stage
    case Fresh => !h.good && !h.bad
    case Sending =>
      && SendTracked(d, seen, a, g, h)
      && (a.Waiting? || a.Writing? ==> !h.bad) && (a == Returned(true) ==> h.good && !h.bad)
    case Reaping => g.conn in seen && (if a.Waiting? then h.bad else !Live(d, g))
    case Done => (h.good || h.gap) && (h.bad ==> g.conn in seen && !Live(d, g))
  }

  predicate Tracked(d: Dir, seen: set<ConnId>, task: Task, g: Gen, h: History) {
    match task.role
    case Sender(x, stage) => x == g ==> SenderTracked(d, seen, stage, task.act, g, h)
    case Handler(Serving(_, Relay(x))) => x == g ==> SendTracked(d, seen, task.act, g, h)
    case Handler(Serving(_, Reap(x))) => x == g && task.act.Waiting? ==> h.bad
    case Heart(Probing(_, _, _, _, PingProbe(x))) => x.gen == g ==> SendTracked(d, seen, task.act, g, h)
    case Heart(Probing(_, _, _, _, DeadProbe(x))) => x.gen == g && task.act.Waiting? ==> h.bad
    case _ => true
  }

  predicate TrackedAt(s: State, u: nat, g: Gen, h: History) {
    if u < |s.tasks| then Tracked(s.dir, s.seen, s.tasks[u], g, h) && (Gap(s, u, g) ==> h.gap)
    else h == History(false, false, false)
  }

  /** The sweep works only with connections that became visible. */
  ghost predicate SweepSeen(sw: Sweep, seen: set<ConnId>) {
    forall x :: InSweep(sw, x) ==> x.gen.conn in seen
  }

  ghost predicate HeartSeen(s: State) {
    |s.tasks| > 0 && s.tasks[0].role.Heart? && SweepSeen(s.tasks[0].role.sweep, s.seen)
  }

  // ---- facts about reachable states ----

  lemma ServedSeen(cfg: Config, s: State, g: Gen)
    requires Inv(cfg, s) && Serves(s.dir, g)
    ensures g.conn in s.seen
  {
    CurrentKnown(s.dir, g.nick, g.conn);
    assert Shows(s.dir, g.conn);
  }

  lemma SeenKnown(cfg: Config, s: State, g: Gen)
    requires Inv(cfg, s) && g.conn in s.seen
    ensures g.conn in s.dir.reg.infos && (SendReady(s.dir, g) || !Live(s.dir, g))
  {
    if Live(s.dir, g) {
      CurrentKnown(s.dir, g.nick, g.conn);
      assert Owned(s.dir, g.conn) && Shows(s.dir, g.conn);
      assert g.conn in s.dir.pool;
    }
  }

  /** A registered connection that does not own the nick will not own it after any step. */
  lemma StaysGone(cfg: Config, s: State, e: Event, s': State, g: Gen)
    requires Inv(cfg, s) && Next(cfg, s, e, s') && g.conn in s.dir.reg.infos && !Live(s.dir, g)
    ensures !Live(s'.dir, g) && g.conn in s'.dir.reg.infos
  {
    hide MoveOf, Do, EffectOf, Told, PendingExact, PoolServed, HeartOk, OwnersPooled, Locked, OwnersServed, WritesSafe;
    if e.Run? {
      var t, o := e.task, e.oracle;
      assert Shape(t, s.tasks[t], |s.tasks|);
      EarlyUnregistered(s, t);
      MoveDoes(cfg, s.dir, t, s.tasks[t], |s.tasks|, o);
      var x := StepEffect(cfg, s, t, o);
      if Live(s'.dir, g) { DoOwners(s.dir, t, s.tasks[t], x, o, g.nick, g.conn); }
      DoKeepsInfos(s.dir, t, x, o, g.conn);
    }
  }

  // ---- one step of the task itself ----

  /** The history after a step that began at `act`. */
  predicate Follows(h: History, act: Act, o: Oracle, g: Gen, h': History) {
    var ends := act == Writing(g.nick, ToSend(g.conn));
    && h'.good == (h.good || (ends && o.ok)) && h'.bad == (h.bad || (ends && !o.ok))
    && (h.gap ==> h'.gap)
  }

  /** How a write, a removal or a broadcast goes on. */
  ghost predicate CallGoesOn(d: Dir, d': Dir, a: Act, a': Act, ok: bool) {
    match a
    case Writing(_, ToSend(_)) => d' == d && a' == Returned(ok)
    case Waiting(n, ToSend(c)) =>
      d' == d && (a' == Writing(n, ToSend(c)) || (a' == Returned(false) && !SendReady(d, Gen(n, c))))
    case Waiting(n, ToRemove(c, _)) => (a'.Returned? || a'.Gathering?) && !Live(d', Gen(n, c))
    case Gathering(_, _, _, _) => d' == d && (a'.Gathering? || a' == Returned(true))
    case _ => true
  }

  lemma SharedGoesOn(cfg: Config, d: Dir, task: Task, base: nat, o: Oracle)
    requires MapsAgree(d) && InSharedCall(task.act)
    ensures var m := SharedMove(cfg, d, task, base, o);
            m.task.role == task.role && CallGoesOn(d, m.dir, task.act, m.task.act, o.ok)
  {
    if task.act.Waiting? { RemoveEnds(d, Gen(task.act.nick, task.act.want.conn)); }
    hide MapsAgree, RemoveGen, NextBatch, Protocol.Broadcast, SendReady, IsHandshaked, Live;
  }

  lemma SharedTracked(cfg: Config, d: Dir, seen: set<ConnId>, t: nat, task: Task, base: nat, o: Oracle, g: Gen,
                      h: History, h': History)
    requires MapsAgree(d) && Shape(t, task, base) && InSharedCall(task.act)
    requires Tracked(d, seen, task, g, h) && Follows(h, task.act, o, g, h')
    requires g.conn in seen ==> SendReady(d, g) || !Live(d, g)
    ensures var m := SharedMove(cfg, d, task, base, o); Tracked(m.dir, seen, m.task, g, h')
  {
    hide SharedMove, MapsAgree, SendReady, Live;
    SharedGoesOn(cfg, d, task, base, o);
  }

  lemma SenderMoveTracked(d: Dir, seen: set<ConnId>, x: Gen, stage: Stage, a: Act, g: Gen, h: History, h': History)
    requires MapsAgree(d) && SenderShape(x, stage, a) && !InSharedCall(a)
    requires Tracked(d, seen, Task(Sender(x, stage), a), g, h)
    requires h'.good == h.good && h'.bad == h.bad && (h.gap || !Serves(d, g) ==> h'.gap)
    requires Serves(d, g) ==> g.conn in seen
    ensures var m := SenderMove(d, x, stage, a); Tracked(m.dir, seen, m.task, g, h')
  {
    RemoveEnds(d, g);
    hide MapsAgree, IsHandshaked;
  }

  lemma ServeTracked(cfg: Config, d: Dir, c: ConnId, n: Nick, o: Oracle, base: nat, seen: set<ConnId>, g: Gen,
      h: History)
    requires MapsAgree(d)
    requires Serves(ServeMove(cfg, d, c, n, o, base).dir, g) ==> g.conn in seen
    ensures var m := ServeMove(cfg, d, c, n, o, base); Tracked(m.dir, seen, m.task, g, h)
  {
    hide Protocol.Broadcast, Publish, Touch, Known, IsHandshaked;
  }

  lemma HandlerTracked(cfg: Config, d: Dir, c: ConnId, phase: Phase, a: Act, o: Oracle, base: nat,
                       seen: set<ConnId>, g: Gen, h: History)
    requires MapsAgree(d) && HandlerShape(c, phase, a) && !InSharedCall(a)
    requires Tracked(d, seen, Task(Handler(phase), a), g, h)
    requires Serves(HandlerMove(cfg, d, c, phase, a, o, base).dir, g) ==> g.conn in seen
    ensures var m := HandlerMove(cfg, d, c, phase, a, o, base); Tracked(m.dir, seen, m.task, g, h)
  {
    hide Protocol.Broadcast, ServeMove, RegisterPeer, Promote, Known, IsHandshaked, MapsAgree;
    if phase.Serving? && !a.Returned? { ServeTracked(cfg, d, c, phase.nick, o, base, seen, g, h); }
  }

  lemma HeartTracked(cfg: Config, d: Dir, sw: Sweep, a: Act, o: Oracle, seen: set<ConnId>, g: Gen, h: History)
    requires MapsAgree(d) && HeartShape(sw, a) && !InSharedCall(a) && SweepSeen(sw, seen)
    requires Tracked(d, seen, Task(Heart(sw), a), g, h)
    ensures var m := HeartMove(cfg, d, sw, a, o); Tracked(m.dir, seen, m.task, g, h)
  {
    RemoveEnds(d, g);
    if sw.Probing? && sw.probe.NoProbe? && sw.todo != [] { assert InSweep(sw, sw.todo[0]); }
    hide MapsAgree, IdleSince, Unanswered, Known, IsHandshaked;
  }

  lemma StepFacts(cfg: Config, s: State, t: nat, o: Oracle)
    requires Inv(cfg, s) && Enabled(s, t, o)
    ensures t < |s.tasks| && MapsAgree(s.dir) && Shape(t, s.tasks[t], |s.tasks|)
    ensures var m, s' := StepMove(cfg, s, t, o), Step(cfg, s, t, o);
            && |s.tasks| <= |s'.tasks| && s'.dir == m.dir && s'.tasks[t] == m.task && s.seen <= s'.seen
            && (forall u :: 0 <= u < |s.tasks| && u != t ==> s'.tasks[u] == s.tasks[u])
            && (forall u :: |s.tasks| <= u < |s'.tasks| ==> s'.tasks[u].role.Sender? && s'.tasks[u].role.stage.Fresh?)
  {
    hide MoveOf, Told, PendingExact, PoolServed, HeartOk, OwnersPooled, Locked, OwnersServed, InfosServed, WritesSafe;
  }

  lemma MoreSweepSeen(sw: Sweep, seen: set<ConnId>, seen': set<ConnId>)
    requires SweepSeen(sw, seen) && seen <= seen'
    ensures SweepSeen(sw, seen')
  {
  }

  lemma OwnTracked(cfg: Config, s: State, t: nat, o: Oracle, s': State, g: Gen, h: History, h': History)
    requires Inv(cfg, s) && Inv(cfg, s') && Enabled(s, t, o) && s' == Step(cfg, s, t, o) && HeartSeen(s)
    requires TrackedAt(s, t, g, h) && h' == Extend(h, s, Run(t, o), s', t, g) && !InSharedCall(s.tasks[t].act)
    ensures Tracked(s'.dir, s'.seen, s'.tasks[t], g, h')
  {
    StepFacts(cfg, s, t, o);
    hide Inv, Step, MapsAgree, Serves, HandlerMove, SenderMove, HeartMove, SharedMove, Tracked, Enabled, SweepSeen;
    var task, m := s.tasks[t], StepMove(cfg, s, t, o);
    if Serves(s.dir, g) { ServedSeen(cfg, s, g); }
    if Serves(s'.dir, g) { ServedSeen(cfg, s', g); }
    MoreSeen(s.dir, s.seen, s'.seen, task, g, h);
    if task.role.Heart? { MoreSweepSeen(task.role.sweep, s.seen, s'.seen); }
    match task.role {
      case Sender(x, stage) => SenderMoveTracked(s.dir, s'.seen, x, stage, task.act, g, h, h');
      case Handler(phase) =>
        HandlerTracked(cfg, s.dir, t, phase, task.act, o, |s.tasks|, s'.seen, g, h);
        MoreGaps(m.dir, s'.seen, m.task, g, h, h');
      case Heart(sw) =>
        HeartTracked(cfg, s.dir, sw, task.act, o, s'.seen, g, h);
        MoreGaps(m.dir, s'.seen, m.task, g, h, h');
    }
  }

  lemma MoreSeen(d: Dir, seen: set<ConnId>, seen': set<ConnId>, task: Task, g: Gen, h: History)
    requires Tracked(d, seen, task, g, h) && seen <= seen'
    ensures Tracked(d, seen', task, g, h)
  {
    hide Live;
  }

  lemma MoreGaps(d: Dir, seen: set<ConnId>, task: Task, g: Gen, h: History, h': History)
    requires Tracked(d, seen, task, g, h) && h'.good == h.good && h'.bad == h.bad && (h.gap ==> h'.gap)
    ensures Tracked(d, seen, task, g, h')
  {
    hide Live;
  }

  // ---- one step of another task ----

  lemma OtherTracked(d: Dir, d': Dir, seen: set<ConnId>, seen': set<ConnId>, task: Task, g: Gen, h: History,
      h': History)
    requires Tracked(d, seen, task, g, h) && seen <= seen'
    requires g.conn in seen && !Live(d, g) ==> !Live(d', g)
    requires h'.good == h.good && h'.bad == h.bad && (h.gap ==> h'.gap)
    ensures Tracked(d', seen', task, g, h')
  {
    hide Live;
  }

  lemma NextTracked(cfg: Config, s: State, e: Event, s': State, u: nat, g: Gen, h: History)
    requires Inv(cfg, s) && Inv(cfg, s') && Next(cfg, s, e, s') && HeartSeen(s) && TrackedAt(s, u, g, h)
    ensures TrackedAt(s', u, g, Extend(h, s, e, s', u, g))
  {
    hide Inv, Step, Connect, Enabled, Live, Tracked, Serves, SweepSeen, InSharedCall, StepMove;
    var h' := Extend(h, s, e, s', u, g);
    if g.conn in s.seen {
      SeenKnown(cfg, s, g);
      if !Live(s.dir, g) { StaysGone(cfg, s, e, s', g); }
    }
    if e.Arrive? {
      ArriveFacts(cfg, s);
      if u < |s.tasks| { OtherTracked(s.dir, s'.dir, s.seen, s'.seen, s.tasks[u], g, h, h'); }
      else if u < |s'.tasks| { NewTracked(s'.dir, s'.seen, s'.tasks[u], g, h'); }
    } else {
      var t, o := e.task, e.oracle;
      StepFacts(cfg, s, t, o);
      if u >= |s.tasks| {
        if u < |s'.tasks| { NewTracked(s'.dir, s'.seen, s'.tasks[u], g, h'); }
      } else if u != t {
        OtherTracked(s.dir, s'.dir, s.seen, s'.seen, s.tasks[u], g, h, h');
      } else if InSharedCall(s.tasks[t].act) {
        CallTracked(cfg, s, t, o, s', g, h, h');
      } else {
        OwnTracked(cfg, s, t, o, s', g, h, h');
      }
    }
  }

  lemma CallTracked(cfg: Config, s: State, t: nat, o: Oracle, s': State, g: Gen, h: History, h': History)
    requires Inv(cfg, s) && Enabled(s, t, o) && s' == Step(cfg, s, t, o)
    requires TrackedAt(s, t, g, h) && h' == Extend(h, s, Run(t, o), s', t, g) && InSharedCall(s.tasks[t].act)
    ensures Tracked(s'.dir, s'.seen, s'.tasks[t], g, h')
  {
    StepFacts(cfg, s, t, o);
    hide Inv, Step, MapsAgree, SharedMove, Tracked, Enabled, SendReady, Live;
    if g.conn in s.seen { SeenKnown(cfg, s, g); }
    SharedTracked(cfg, s.dir, s.seen, t, s.tasks[t], |s.tasks|, o, g, h, h');
    MoreSeen(s'.dir, s.seen, s'.seen, s'.tasks[t], g, h');
  }

  lemma ArriveFacts(cfg: Config, s: State)
    ensures var s' := Connect(cfg, s);
            && |s'.tasks| == |s.tasks| + 1 && s'.seen == s.seen
            && (forall u :: 0 <= u < |s.tasks| ==> s'.tasks[u] == s.tasks[u])
            && s'.tasks[|s.tasks|].role.Handler? && !s'.tasks[|s.tasks|].role.phase.Serving?
  {
  }

  lemma NewTracked(d: Dir, seen: set<ConnId>, task: Task, g: Gen, h: History)
    requires (task.role.Sender? && task.role.stage.Fresh?) || (task.role.Handler? && !task.role.phase.Serving?)
    requires !h.good && !h.bad
    ensures Tracked(d, seen, task, g, h)
  {
  }

  // ---- whole runs ----

  lemma NextHeartSeen(cfg: Config, s: State, s': State)
    requires Inv(cfg, s) && HeartSeen(s) && HeartStep(cfg, s, s') && s.seen <= s'.seen
    ensures HeartSeen(s')
  {
    hide HeartMove, Idled, InSweep, HeartOk, PendingExact, PoolServed;
    forall x | InSweep(s'.tasks[0].role.sweep, x) ensures x.gen.conn in s'.seen {
      if s'.tasks[0].role != s.tasks[0].role {
        var o :| s'.tasks[0] == HeartMove(cfg, s.dir, s.tasks[0].role.sweep, s.tasks[0].act, o).task;
        HeartEntries(cfg, s.dir, s.tasks[0].role.sweep, s.tasks[0].act, o, x);
        if !InSweep(s.tasks[0].role.sweep, x) { IdledServed(s.dir, x); ServedSeen(cfg, s, x.gen); }
      }
    }
  }

  lemma IdledServed(d: Dir, x: Idler)
    requires Idled(d.reg, x)
    ensures Serves(d, x.gen)
  {
  }

  lemma NextGrows(cfg: Config, s: State, e: Event, s': State)
    requires Next(cfg, s, e, s')
    ensures |s.tasks| <= |s'.tasks| && s.seen <= s'.seen
  {
    hide MoveOf;
  }

  lemma RunStart(cfg: Config, states: seq<State>, events: seq<Event>)
    requires IsRun(cfg, states, events)
    ensures |states| == |events| + 1 && states[0] == Init(cfg)
  {
    hide Init;
  }

  lemma InitHeartSeen(cfg: Config)
    ensures HeartSeen(Init(cfg))
  {
  }

  lemma InitTracked(cfg: Config, u: nat, g: Gen)
    ensures TrackedAt(Init(cfg), u, g, History(false, false, Gap(Init(cfg), u, g)))
  {
  }

  lemma RunHeartSeenStep(cfg: Config, states: seq<State>, events: seq<Event>, i: nat)
    requires IsRun(cfg, states, events) && 0 < i < |states| && HeartSeen(states[i - 1])
    ensures HeartSeen(states[i])
  {
    hide IsRun, Next, Inv, HeartSeen, HeartStep;
    RunNext(cfg, states, events, i);
    RunHeartStep(cfg, states, events, i);
    NextGrows(cfg, states[i - 1], events[i - 1], states[i]);
    NextHeartSeen(cfg, states[i - 1], states[i]);
  }

  lemma {:induction false} RunHeartSeen(cfg: Config, states: seq<State>, events: seq<Event>, i: nat)
    requires IsRun(cfg, states, events) && i < |states|
    ensures HeartSeen(states[i])
    decreases i
  {
    hide IsRun, HeartSeen, Init;
    if i == 0 {
      RunStart(cfg, states, events);
      InitHeartSeen(cfg);
    } else {
      RunHeartSeen(cfg, states, events, i - 1);
      RunHeartSeenStep(cfg, states, events, i);
    }
  }

  lemma RunTrackedStep(cfg: Config, states: seq<State>, events: seq<Event>, j: nat, u: nat, g: Gen, h: History)
    requires IsRun(cfg, states, events) && 0 < j < |states| && TrackedAt(states[j - 1], u, g, h)
    ensures j <= |events| && TrackedAt(states[j], u, g, Extend(h, states[j - 1], events[j - 1], states[j], u, g))
  {
    hide IsRun, Next, Inv, HeartSeen, TrackedAt, Extend;
    RunNext(cfg, states, events, j);
    RunInv(cfg, states, events, j);
    RunHeartSeen(cfg, states, events, j - 1);
    NextTracked(cfg, states[j - 1], events[j - 1], states[j], u, g, h);
  }

  lemma {:induction false} RunTracked(cfg: Config, states: seq<State>, events: seq<Event>, j: nat, u: nat, g: Gen)
    requires IsRun(cfg, states, events) && j < |states|
    ensures j <= |events| < |states| && TrackedAt(states[j], u, g, HistoryOf(states, events, j, u, g))
    decreases j
  {
    hide IsRun, TrackedAt, Extend, Init, Gap;
    RunStart(cfg, states, events);
    if j == 0 {
      InitTracked(cfg, u, g);
    } else {
      RunTracked(cfg, states, events, j - 1, u, g);
      RunTrackedStep(cfg, states, events, j, u, g, HistoryOf(states, events, j - 1, u, g));
    }
  }

  /** Task `u` has ended a routed write to `g` before state `j`. */
  ghost predicate WroteTo(states: seq<State>, events: seq<Event>, j: nat, u: nat, g: Gen, ok: bool) {
    exists i :: 0 <= i < j && i < |events| && i < |states| && WriteEnds(states[i], events[i], u, g, ok)
  }

  lemma {:induction false} HistoryMeans(states: seq<State>, events: seq<Event>, j: nat, u: nat, g: Gen)
    requires j <= |events| < |states|
    ensures var h := HistoryOf(states, events, j, u, g);
            && h.good == WroteTo(states, events, j, u, g, true) && h.bad == WroteTo(states, events, j, u, g, false)
            && (h.gap ==> exists i :: 0 <= i <= j && Gap(states[i], u, g))
    decreases j
  {
    hide WriteEnds, Gap;
    if j > 0 {
      HistoryMeans(states, events, j - 1, u, g);
      if WriteEnds(states[j - 1], events[j - 1], u, g, true) { assert WroteTo(states, events, j, u, g, true); }
      if WriteEnds(states[j - 1], events[j - 1], u, g, false) { assert WroteTo(states, events, j, u, g, false); }
    } else {
      assert HistoryOf(states, events, j, u, g).gap ==> Gap(states[0], u, g);
    }
  }

  // ---- who is removed, and why ----

  /** The task that waits to remove `g` is its own handler, or the heartbeat for its silence, or has failed to
      write to it. */
  ghost predicate Cause(states: seq<State>, events: seq<Event>, j: nat, u: nat, g: Gen)
    requires j < |states| && u < |states[j].tasks|
  {
    || u == g.conn
    || (states[j].tasks[u].role.Heart?
      && (states[j].tasks[u].role.sweep.Evicting? || states[j].tasks[u].role.sweep.TimingOut?))
    || WroteTo(states, events, j, u, g, false)
  }

  lemma RemovalsHaveCause(cfg: Config, states: seq<State>, events: seq<Event>, j: nat, u: nat, g: Gen)
    requires IsRun(cfg, states, events) && j < |states| && u < |states[j].tasks|
    requires states[j].tasks[u].act.Waiting? && states[j].tasks[u].act.nick == g.nick
    requires states[j].tasks[u].act.want.ToRemove? && states[j].tasks[u].act.want.conn == g.conn
    ensures Cause(states, events, j, u, g)
  {
    RunTracked(cfg, states, events, j, u, g);
    HistoryMeans(states, events, j, u, g);
    RunShape(cfg, states, events, j, u);
    hide IsRun, HistoryOf, WroteTo, Live, Serves;
  }

  lemma RunShape(cfg: Config, states: seq<State>, events: seq<Event>, j: nat, u: nat)
    requires IsRun(cfg, states, events) && j < |states| && u < |states[j].tasks|
    ensures Shape(u, states[j].tasks[u], |states[j].tasks|)
  {
    hide IsRun, Told, PendingExact, PoolServed, HeartOk, OwnersPooled, Locked, OwnersServed, InfosServed, WritesSafe;
    RunInv(cfg, states, events, j);
  }

  /** A nick is lost in two ways only: to a registration of the same nick, or to a removal with a cause. */
  lemma LostForCause(cfg: Config, states: seq<State>, events: seq<Event>, i: nat, g: Gen)
    requires IsRun(cfg, states, events) && i < |events|
    requires Live(states[i].dir, g) && !Live(states[i + 1].dir, g)
    ensures events[i].Run? && events[i].task < |states[i].tasks|
    ensures var u := events[i].task;
            var a := states[i].tasks[u].act;
            && a.Waiting? && a.nick == g.nick
            && (a.want.ToRegister? || (a.want.ToRemove? && a.want.conn == g.conn && Cause(states, events, i, u, g)))
  {
    hide IsRun, Init, Inv, Next, Live, Cause;
    RunStart(cfg, states, events);
    RunNext(cfg, states, events, i + 1);
    LostByStep(cfg, states[i], events[i], states[i + 1], g);
    var u := events[i].task;
    if states[i].tasks[u].act.want.ToRemove? { RemovalsHaveCause(cfg, states, events, i, u, g); }
  }

  lemma LostByStep(cfg: Config, s: State, e: Event, s': State, g: Gen)
    requires Inv(cfg, s) && Next(cfg, s, e, s') && Live(s.dir, g) && !Live(s'.dir, g)
    ensures e.Run? && e.task < |s.tasks|
    ensures var a := s.tasks[e.task].act;
            a.Waiting? && a.nick == g.nick && (a.want.ToRegister? || (a.want.ToRemove? && a.want.conn == g.conn))
  {
    hide Inv, Step, StepMove, StepEffect, Do, Allowed, Enabled;
    if e.Run? {
      StepFacts(cfg, s, e.task, e.oracle);
      StepDoes(cfg, s, e.task, e.oracle);
      var x := StepEffect(cfg, s, e.task, e.oracle);
      DoLoses(s.dir, e.task, s.tasks[e.task], x, e.oracle, g);
      LosingAct(s.dir, e.task, s.tasks[e.task], |s.tasks|, x, e.oracle, g);
    }
  }

  lemma StepDoes(cfg: Config, s: State, t: nat, o: Oracle)
    requires t < |s.tasks| && Shape(t, s.tasks[t], |s.tasks|)
    ensures var e := StepEffect(cfg, s, t, o);
            StepMove(cfg, s, t, o).dir == Do(s.dir, t, e, o) && Allowed(s.dir, t, s.tasks[t], e, o)
  {
    hide MoveOf, EffectOf, Do, Allowed;
    MoveDoes(cfg, s.dir, t, s.tasks[t], |s.tasks|, o);
  }

  lemma LosingAct(d: Dir, t: nat, task: Task, base: nat, e: Effect, o: Oracle, g: Gen)
    requires Shape(t, task, base) && Allowed(d, t, task, e, o)
    requires (e.Registers? && e.info.nick == g.nick) || e == Removes(g)
    ensures var a := task.act;
            a.Waiting? && a.nick == g.nick && (a.want.ToRegister? || (a.want.ToRemove? && a.want.conn == g.conn))
  {
    hide RegisterPeer, Removable;
  }

  lemma DoLoses(d: Dir, t: nat, task: Task, e: Effect, o: Oracle, g: Gen)
    requires Allowed(d, t, task, e, o) && Live(d, g) && !Live(Do(d, t, e, o), g)
    ensures (e.Registers? && e.info.nick == g.nick) || e == Removes(g)
  {
    hide Ingress;
  }

  // ---- a failed write ----

  /** A registered generation that has lost its nick never owns it again. */
  lemma {:induction false} GoneForGood(cfg: Config, states: seq<State>, events: seq<Event>, i: nat, j: nat, g: Gen)
    requires IsRun(cfg, states, events) && i <= j < |states|
    requires g.conn in states[i].dir.reg.infos && !Live(states[i].dir, g)
    ensures g.conn in states[j].dir.reg.infos && !Live(states[j].dir, g)
    decreases j
  {
    hide IsRun, Next, Inv, Live;
    if i < j {
      GoneForGood(cfg, states, events, i, j - 1, g);
      RunNext(cfg, states, events, j);
      StaysGone(cfg, states[j - 1], events[j - 1], states[j], g);
    }
  }

  /** Once a sender whose write failed is done, its target does not own the nick, and never will again. */
  lemma FailedIsGone(cfg: Config, states: seq<State>, events: seq<Event>, j: nat, k: nat, u: nat, g: Gen)
    requires IsRun(cfg, states, events) && j <= k < |states| && u < |states[j].tasks|
    requires states[j].tasks[u].role == Sender(g, Done) && WroteTo(states, events, j, u, g, false)
    ensures !Live(states[k].dir, g)
  {
    hide IsRun, HistoryOf, WroteTo, Live, Serves, Inv;
    RunTracked(cfg, states, events, j, u, g);
    HistoryMeans(states, events, j, u, g);
    RunInv(cfg, states, events, j);
    SeenKnown(cfg, states[j], g);
    GoneForGood(cfg, states, events, j, k, g);
  }

  // ---- a successful broadcast ----

  /** Sender `u` to `g` belongs to the batch that task `t` gathers, or is over. */
  predicate InBatch(s: State, t: nat, u: nat, g: Gen) {
    && u < |s.tasks| && s.tasks[u].role.Sender? && s.tasks[u].role.target == g
    && (Over(s.tasks[u]) || (Gathers(s, t) && s.tasks[t].act.lo <= u < s.tasks[t].act.hi))
  }

  lemma SenderKeepsTarget(cfg: Config, s: State, u: nat, o: Oracle)
    requires u < |s.tasks| && s.tasks[u].role.Sender?
    ensures var role := StepMove(cfg, s, u, o).task.role; role.Sender? && role.target == s.tasks[u].role.target
  {
    hide NextBatch, Protocol.Broadcast, RemoveGen, Removable, SendReady, IsHandshaked, Live;
  }

  lemma NextInBatch(cfg: Config, s: State, e: Event, s': State, t: nat, u: nat, g: Gen)
    requires Next(cfg, s, e, s') && InBatch(s, t, u, g) && t != u
    ensures InBatch(s', t, u, g)
  {
    if e.Run? && e.task == u { SenderKeepsTarget(cfg, s, u, e.oracle); }
    if e.Run? {
      var m := StepMove(cfg, s, e.task, e.oracle);
      assert s' == Apply(s, e.task, m);
      hide MoveOf;
      assert s'.tasks[u] == if e.task == u then m.task else s.tasks[u];
      assert t < |s.tasks| ==> s'.tasks[t] == if e.task == t then m.task else s.tasks[t];
    }
    hide MoveOf;
  }

  lemma {:induction false} StaysInBatch(cfg: Config, states: seq<State>, events: seq<Event>, t: nat, u: nat, g: Gen,
      k: nat, j: nat)
    requires IsRun(cfg, states, events) && k <= j < |states| && t != u && InBatch(states[k], t, u, g)
    ensures InBatch(states[j], t, u, g)
    decreases j
  {
    hide IsRun, Next, Inv, InBatch;
    if k < j {
      StaysInBatch(cfg, states, events, t, u, g, k, j - 1);
      RunNext(cfg, states, events, j);
      NextInBatch(cfg, states[j - 1], events[j - 1], states[j], t, u, g);
    }
  }

  /** A step that starts senders goes on to gather them. */
  lemma KidsGathered(cfg: Config, d: Dir, t: nat, task: Task, base: nat, o: Oracle)
    ensures var m := MoveOf(cfg, d, t, task, base, o);
            m.kids != [] ==> m.task.act.Gathering? && m.task.act.lo == base && m.task.act.hi == base + |m.kids|
  {
    hide NextBatch, Protocol.Broadcast, RemoveGen, Removable, SendReady, IsHandshaked, Live, RegisterPeer, Promote,
         Touch, Publish, Known, Current, IdleSince, Unanswered;
  }

  /** A step that hands `g` to a sender starts one, in the batch that the task then gathers. */
  lemma HitStarts(cfg: Config, s: State, e: Event, s': State, t: nat, g: Gen) returns (u: nat)
    requires Next(cfg, s, e, s') && Hits(cfg, s, e, t, g) > 0
    ensures |s.tasks| <= u && u != t && InBatch(s', t, u, g) && Gathers(s', t)
  {
    hide MoveOf, Enabled;
    var m := StepMove(cfg, s, t, e.oracle);
    KidsGathered(cfg, s.dir, t, s.tasks[t], |s.tasks|, e.oracle);
    assert g in m.kids;
    var k :| 0 <= k < |m.kids| && m.kids[k] == g;
    u := |s.tasks| + k;
    assert s'.tasks == s.tasks[t := m.task] + Kids(m.kids);
    assert s'.tasks[t] == m.task && s'.tasks[u] == Kids(m.kids)[k];
  }

  lemma {:induction false} SomeHit(cfg: Config, states: seq<State>, events: seq<Event>, t: nat, i: nat, j: nat, g: Gen)
      returns (k: nat)
    requires i <= j <= |events| <= |states| && Targeted(cfg, states, events, t, i, j, g) > 0
    ensures i <= k < j && Hits(cfg, states[k], events[k], t, g) > 0
    decreases j - i
  {
    hide Hits;
    k := i;
    if Hits(cfg, states[i], events[i], t, g) == 0 { k := SomeHit(cfg, states, events, t, i + 1, j, g); }
  }

  lemma {:induction false} TasksGrow(cfg: Config, states: seq<State>, events: seq<Event>, i: nat, j: nat)
    requires IsRun(cfg, states, events) && i <= j < |states|
    ensures |states[i].tasks| <= |states[j].tasks|
    decreases j
  {
    hide IsRun, Next, Inv;
    if i < j {
      TasksGrow(cfg, states, events, i, j - 1);
      RunNext(cfg, states, events, j);
      NextGrows(cfg, states[j - 1], events[j - 1], states[j]);
    }
  }

  /** A peer that is served from the step that begins a broadcast until it is over, and is not left out of it, has
      received it: the broadcast starts one sender to it, which is done and has written to it with success. */
  lemma BroadcastDelivers(cfg: Config, states: seq<State>, events: seq<Event>, t: nat, skip: Skip, i: nat, j: nat,
      g: Gen)
    returns (u: nat, w: nat)
    requires IsRun(cfg, states, events) && i < j < |states| && Begins(cfg, states[i], events[i], t, skip)
    requires GathersUntil(states, t, i + 1, j) && !Gathers(states[j], t)
    requires ServedUntil(states, g, i, j) && Wanted(g, skip)
    ensures Targeted(cfg, states, events, t, i, j, g) == 1
    ensures |states[i].tasks| <= u < |states[j].tasks| && states[j].tasks[u].role == Sender(g, Done)
    ensures i < w < j && WriteEnds(states[w], events[w], u, g, true)
  {
    hide IsRun, Begins, Wanted, Serves, Next, Inv, Hits, InBatch, Targeted, TrackedAt, Init;
    RunStart(cfg, states, events);
    BroadcastCovers(cfg, states, events, t, skip, i, j, g);
    var k := SomeHit(cfg, states, events, t, i, j, g);
    RunNext(cfg, states, events, k + 1);
    u := HitStarts(cfg, states[k], events[k], states[k + 1], t, g);
    StaysInBatch(cfg, states, events, t, u, g, k + 1, j);
    TasksGrow(cfg, states, events, i, k);
    BatchOver(states[j], t, u, g);
    w := DoneWrote(cfg, states, events, u, g, k, j);
  }

  lemma BatchOver(s: State, t: nat, u: nat, g: Gen)
    requires InBatch(s, t, u, g) && !Gathers(s, t)
    ensures u < |s.tasks| && s.tasks[u].role == Sender(g, Done)
  {
  }

  /** A sender that is done, and whose target was served all its life, has written to it. */
  lemma DoneWrote(cfg: Config, states: seq<State>, events: seq<Event>, u: nat, g: Gen, k: nat, j: nat) returns (w: nat)
    requires IsRun(cfg, states, events) && k < j < |states| && |states[k].tasks| <= u < |states[j].tasks|
    requires states[j].tasks[u].role == Sender(g, Done) && ServedUntil(states, g, k, j)
    ensures k < w < j && w < |events| && WriteEnds(states[w], events[w], u, g, true)
  {
    hide IsRun, HistoryOf, Live, Serves, Inv, Init;
    RunStart(cfg, states, events);
    RunTracked(cfg, states, events, j, u, g);
    HistoryMeans(states, events, j, u, g);
    forall x | 0 <= x <= j ensures !Gap(states[x], u, g) {
      if x <= k { TasksGrow(cfg, states, events, x, k); }
    }
    assert WroteTo(states, events, j, u, g, true);
    w :| 0 <= w < j && w < |events| && w < |states| && WriteEnds(states[w], events[w], u, g, true);
    if w <= k { TasksGrow(cfg, states, events, w, k); assert false; }
  }
}
