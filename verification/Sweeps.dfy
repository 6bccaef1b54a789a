/** Heartbeat sweeps: no pong is left pending, and nobody is evicted who was not idle. */
module Sweeps {
  import opened Types
  import opened PeerRegistry
  import opened MessageRouter
  import opened Directory
  import opened Protocol
  import opened Shapes
  import opened Frames
  import opened Ownership
  import opened Admission

  function Gens(xs: seq<Idler>): (gs: set<Gen>) {
    set x | x in xs :: x.gen
  }

  predicate Pings(d: Dir, g: Gen) {
    g.conn in d.reg.infos && d.reg.infos[g.conn].pings
  }

  /** Every entry was last seen before `cutoff`. */
  ghost predicate SeenBefore(xs: seq<Idler>, cutoff: int) {
    forall x :: x in xs ==> x.seen < cutoff
  }

  ghost predicate AllPing(d: Dir, xs: seq<Idler>) {
    forall x :: x in xs ==> Pings(d, x.gen)
  }

  /** What the sweep may rely on at each of its awaits. */
  ghost predicate SweepOk(cfg: Config, d: Dir, sw: Sweep, a: Act) {
    match sw
    case Asleep => d.pong == {}
    case Evicting(now, todo, _) => d.pong == {} && SeenBefore(todo, now - cfg.hardEvict)
    case Probing(now, todo, _, pinged, probe) =>
      && SeenBefore(todo, now - cfg.idleThreshold) && SeenBefore(pinged, now - cfg.idleThreshold) && AllPing(d, pinged)
      && (match probe
          case NoProbe => d.pong <= Gens(pinged)
          case PingProbe(x) => d.pong <= Gens(pinged) + {x.gen} && Pings(d, x.gen) && x.seen < now - cfg.idleThreshold
          case BookProbe(x) => d.pong <= Gens(pinged)
          case DeadProbe(x) => d.pong <= Gens(pinged) && Pings(d, x.gen) && x.seen < now - cfg.idleThreshold)
    case AwaitingPongs(now, pinged) =>
      SeenBefore(pinged, now - cfg.idleThreshold) && AllPing(d, pinged) && d.pong <= Gens(pinged)
    case TimingOut(now, todo) =>
      && SeenBefore(todo, now - cfg.idleThreshold) && AllPing(d, todo) && d.pong <= Gens(todo)
      && (!a.Running? && todo != [] ==> todo[0].gen !in d.pong)
  }

  ghost predicate HeartOk(cfg: Config, s: State) {
    |s.tasks| > 0 && s.tasks[0].role.Heart? && SweepOk(cfg, s.dir, s.tasks[0].role.sweep, s.tasks[0].act)
  }

  // ---- steps of other tasks ----

  lemma DoPong(d: Dir, t: nat, e: Effect, o: Oracle)
    requires !e.AddsPong?
    ensures Do(d, t, e, o).pong <= d.pong
  {
    hide Ingress;
  }

  lemma DoPings(d: Dir, t: nat, task: Task, e: Effect, o: Oracle, g: Gen)
    requires MapsAgree(d) && Allowed(d, t, task, e, o) && Unregistered(d, t, task) && Pings(d, g)
    ensures Pings(Do(d, t, e, o), g)
  {
    hide Ingress;
  }

  lemma SweepStable(cfg: Config, d: Dir, d': Dir, sw: Sweep, a: Act)
    requires SweepOk(cfg, d, sw, a) && d'.pong <= d.pong && (forall g :: Pings(d, g) ==> Pings(d', g))
    ensures SweepOk(cfg, d', sw, a)
  {
    hide Pings;
  }

  // ---- steps of the heartbeat ----

  lemma PopGens(xs: seq<Idler>)
    requires xs != []
    ensures Gens(xs) == Gens(xs[1..]) + {xs[0].gen}
    ensures forall x :: x in xs[1..] ==> x in xs
  {
    assert xs == [xs[0]] + xs[1..];
  }

  lemma PushGens(xs: seq<Idler>, x: Idler)
    ensures Gens(xs + [x]) == Gens(xs) + {x.gen}
    ensures forall y :: y in xs + [x] <==> y in xs || y == x
  {
  }

  lemma IdleSinceSeen(r: Registry, listing: seq<Nick>, cutoff: int)
    ensures SeenBefore(IdleSince(r, listing, cutoff), cutoff)
  {
    hide IdleSince;
  }

  lemma ProbeOk(cfg: Config, d: Dir, now: int, todo: seq<Idler>, evicted: set<Gen>, pinged: seq<Idler>)
    requires todo != [] && SweepOk(cfg, d, Probing(now, todo, evicted, pinged, NoProbe), Running) && MapsAgree(d)
    ensures var m := ProbeMove(d, now, todo[0], todo[1..], evicted, pinged);
            m.task.role.Heart? && SweepOk(cfg, m.dir, m.task.role.sweep, m.task.act)
  {
    PopGens(todo);
    assert todo[0] in todo;
    hide Gens;
  }

  lemma ProbingOk(cfg: Config, d: Dir, sw: Sweep, a: Act)
    requires sw.Probing? && SweepOk(cfg, d, sw, a) && MapsAgree(d) && HeartShape(sw, a) && !InSharedCall(a)
    ensures var m := ProbingMove(d, sw.now, sw.todo, sw.evicted, sw.pinged, sw.probe, a);
            m.task.role.Heart? && SweepOk(cfg, m.dir, m.task.role.sweep, m.task.act)
  {
    if sw.probe.NoProbe? && sw.todo != [] { ProbeOk(cfg, d, sw.now, sw.todo, sw.evicted, sw.pinged); }
    if sw.probe.PingProbe? { PushGens(sw.pinged, sw.probe.who); }
    hide Gens, Removable, ProbeMove;
    if sw.pinged == [] { NoGens(); }
  }

  lemma NoGens()
    ensures Gens([]) == {}
  {
  }

  lemma HeartKeepsSweep(cfg: Config, d: Dir, sw: Sweep, a: Act, o: Oracle)
    requires SweepOk(cfg, d, sw, a) && MapsAgree(d) && HeartShape(sw, a) && !InSharedCall(a)
    ensures var m := HeartMove(cfg, d, sw, a, o);
            m.task.role.Heart? && SweepOk(cfg, m.dir, m.task.role.sweep, m.task.act)
  {
    match sw
    case Asleep => IdleSinceSeen(d.reg, o.listing, o.now - cfg.hardEvict); hide IdleSince;
    case Evicting(now, todo, evicted) =>
      IdleSinceSeen(d.reg, o.listing, now - cfg.idleThreshold);
      hide IdleSince, Removable;
      if todo != [] { PopGens(todo); }
    case Probing(now, todo, evicted, pinged, probe) => ProbingOk(cfg, d, sw, a); hide ProbingMove;
    case AwaitingPongs(now, pinged) => hide Unanswered, Pings;
      assert d.pong <= Gens(Unanswered(pinged, d.pong));
    case TimingOut(now, todo) =>
      hide Removable, Pings;
      if todo != [] { PopGens(todo); } else { NoGens(); }
  }

  lemma SweepMidCall(cfg: Config, d: Dir, sw: Sweep, a: Act, a': Act)
    requires SweepOk(cfg, d, sw, a) && !a.Running?
    ensures SweepOk(cfg, d, sw, a')
  {
  }

  /** A step that is not the heartbeat's own leaves the sweep as it was, up to the call it is in. */
  lemma OtherKeepsHeart(cfg: Config, s: State, t: nat, o: Oracle)
    requires Core(s) && HeartOk(cfg, s) && Enabled(s, t, o) && (t != 0 || InSharedCall(s.tasks[0].act))
    ensures var m := StepMove(cfg, s, t, o);
            if t == 0 then m.task.role == s.tasks[0].role && SweepOk(cfg, m.dir, s.tasks[0].role.sweep, m.task.act)
            else SweepOk(cfg, m.dir, s.tasks[0].role.sweep, s.tasks[0].act)
  {
    var task, base, m, e := s.tasks[t], |s.tasks|, StepMove(cfg, s, t, o), StepEffect(cfg, s, t, o);
    var sw, a := s.tasks[0].role.sweep, s.tasks[0].act;
    assert Shape(t, task, base) && Shape(0, s.tasks[0], base);
    MoveDoes(cfg, s.dir, t, task, base, o);
    EarlyUnregistered(s, t);
    assert t != 0 ==> !task.role.Heart?;
    assert !e.AddsPong?;
    hide MoveOf, Do, SweepOk, Pings, EffectOf, Locked, WritesSafe, OwnersServed, InfosServed, Shaped;
    DoPong(s.dir, t, e, o);
    forall g | Pings(s.dir, g) ensures Pings(m.dir, g) { DoPings(s.dir, t, task, e, o, g); }
    SweepStable(cfg, s.dir, m.dir, sw, a);
    if t == 0 {
      SharedLeaves(cfg, s.dir, t, task, base, o);
      SweepMidCall(cfg, m.dir, sw, a, m.task.act);
    }
  }

  lemma StepKeepsHeart(cfg: Config, s: State, t: nat, o: Oracle)
    requires Core(s) && HeartOk(cfg, s) && Enabled(s, t, o)
    ensures HeartOk(cfg, Step(cfg, s, t, o))
  {
    hide SweepOk, Locked, WritesSafe, OwnersServed, InfosServed;
    var m := StepMove(cfg, s, t, o);
    var sw, a := s.tasks[0].role.sweep, s.tasks[0].act;
    assert Shape(0, s.tasks[0], |s.tasks|);
    assert Step(cfg, s, t, o).tasks[0] == if t == 0 then m.task else s.tasks[0];
    if t == 0 && !InSharedCall(a) {
      HeartKeepsSweep(cfg, s.dir, sw, a, o);
      assert m == HeartMove(cfg, s.dir, sw, a, o);
    } else {
      OtherKeepsHeart(cfg, s, t, o);
    }
    hide MoveOf;
  }

  /** Whenever the heartbeat asks for a removal, the generation was past the idle threshold when it was
      listed in this sweep; a peer that is not past the hard cutoff is only removed if it can be pinged. */
  lemma EvictionsAreDue(cfg: Config, s: State)
    requires Core(s) && HeartOk(cfg, s) && cfg.hardEvict >= cfg.idleThreshold
    requires s.tasks[0].act.Waiting? && s.tasks[0].act.want.ToRemove?
    ensures var sw, g := s.tasks[0].role.sweep, Gen(s.tasks[0].act.nick, s.tasks[0].act.want.conn);
            exists x: Idler :: x.gen == g && match sw {
              case Evicting(now, todo, _) => todo != [] && x == todo[0]
                && x.seen < now - cfg.hardEvict <= now - cfg.idleThreshold
              case Probing(now, _, _, _, probe) => probe == DeadProbe(x) && Pings(s.dir, g)
                && x.seen < now - cfg.idleThreshold
              case TimingOut(now, todo) => todo != [] && x == todo[0] && Pings(s.dir, g)
                && x.seen < now - cfg.idleThreshold
              case _ => false
            }
  {
    var sw := s.tasks[0].role.sweep;
    assert Shape(0, s.tasks[0], |s.tasks|);
    var x := match sw
      case Evicting(_, todo, _) => todo[0]
      case Probing(_, _, _, _, probe) => probe.who
      case TimingOut(_, todo) => todo[0];
  }
}
