/** What holds in every reachable state and along every run of the directory server. */
module Theorems {
  import opened Types
  import opened PeerRegistry
  import opened MessageRouter
  import opened Directory
  import opened Protocol
  import opened Shapes
  import opened Frames
  import opened Ownership
  import opened Announcements
  import opened Admission
  import opened Sweeps
  import opened Isolation
  import opened Progress
  import opened Runs

  /** The five structures agree after every step. */
  lemma TablesAgree(cfg: Config, states: seq<State>, events: seq<Event>, i: nat)
    requires IsRun(cfg, states, events) && i < |states|
    ensures var d := states[i].dir;
            && d.reg.peers.Keys == d.reg.owners.Keys == d.connOf.Keys
            && (forall n :: n in d.reg.owners ==>
                  d.connOf[n] == d.reg.owners[n].conn && d.reg.peers[n] == d.reg.owners[n].conn)
            && (forall n, m ::
                  n in d.reg.owners && m in d.reg.owners && d.reg.owners[n].conn == d.reg.owners[m].conn ==> n == m)
            && TablesLive(d) && BoundedOffers(d.router) && |d.reg.peers| <= cfg.maxPeers
  {
    RunInv(cfg, states, events, i);
    hide IsRun, Told, PendingExact, PoolServed, HeartOk, OwnersPooled, Shaped, Locked, OwnersServed, InfosServed,
      WritesSafe, TablesLive, BoundedOffers;
    var d := states[i].dir;
    forall n, m | n in d.reg.owners && m in d.reg.owners && d.reg.owners[n].conn == d.reg.owners[m].conn
      ensures n == m
    {
      OwnersAreInjective(d, n, m);
    }
  }

  /** A routed write only ever runs on the connection of the current, HANDSHAKED owner, which has its pool
      entry; a handshake reply only runs on the current owner. */
  lemma WritesReachOwners(cfg: Config, states: seq<State>, events: seq<Event>, i: nat, t: nat, n: Nick, c: ConnId)
    requires IsRun(cfg, states, events) && i < |states| && t < |states[i].tasks|
    requires states[i].tasks[t].act == Writing(n, ToSend(c))
    ensures var d := states[i].dir;
            && n in d.reg.owners && d.reg.owners[n].conn == c
            && n in d.connOf && d.connOf[n] == c
            && c in d.reg.infos && d.reg.infos[c].status == Handshaked
            && c in d.pool
            && n in states[i].locks && states[i].locks[n] == t
  {
    RunInv(cfg, states, events, i);
    assert WriteSafe(states[i].dir, t, states[i].tasks[t].act);
    CurrentKnown(states[i].dir, n, c);
    hide IsRun, Told, PendingExact, PoolServed, HeartOk, Shaped, OwnersServed, InfosServed, TablesLive, BoundedOffers;
  }

  /** The disconnect of a connection is announced at most once, only after it was visible and lost its nick;
      and once no handler still owes it, a visible connection that is gone has been announced. */
  lemma AnnouncedExactlyOnce(cfg: Config, states: seq<State>, events: seq<Event>, i: nat, c: ConnId)
    requires IsRun(cfg, states, events) && i < |states|
    ensures var s := states[i];
            && s.told[c] <= 1
            && (s.told[c] == 1 ==> c in s.seen && !Owned(s.dir, c))
            && (c in s.seen && !Owned(s.dir, c) && (forall t :: 0 <= t < |s.tasks| ==> !Owes(s.tasks[t], c)) ==>
              s.told[c] == 1)
  {
    RunInv(cfg, states, events, i);
    hide IsRun, Core, PendingExact, PoolServed, HeartOk, OwnersPooled, Owned, Owes;
  }

  /** No registration outlives its handler, and the admission counter is exact. */
  lemma NoOrphanOwners(cfg: Config, states: seq<State>, events: seq<Event>, i: nat)
    requires IsRun(cfg, states, events) && i < |states|
    ensures var s := states[i];
            && (forall n :: n in s.dir.reg.owners ==>
                  var c := s.dir.reg.owners[n].conn;
                  && 0 < c < |s.tasks| && s.tasks[c].role.Handler? && !s.tasks[c].role.phase.Closing?
                    && !s.tasks[c].role.phase.Finished?
                  && c in s.dir.pool)
            && (forall c :: c in s.dir.pool ==> Pooled(s.tasks, c))
            && s.pending == Handshakes(s.tasks) <= PendingCap(cfg)
  {
    RunInv(cfg, states, events, i);
    var s := states[i];
    forall n | n in s.dir.reg.owners
      ensures ServedBy(s.tasks, n, s.dir.reg.owners[n].conn) && s.dir.reg.owners[n].conn in s.dir.pool {}
    hide IsRun, Told, HeartOk, OwnersPooled, Shaped, Consistent, Locked, OwnersServed, InfosServed, WritesSafe, Pooled;
  }

  lemma VerifiedOnly(cfg: Config, states: seq<State>, events: seq<Event>, i: nat, n: Nick)
    requires IsRun(cfg, states, events) && i < |states| && cfg.policy.mode.RequireVerified?
    requires n in states[i].dir.reg.owners
    ensures states[i].dir.reg.owners[n].key.Some?
  {
    RunInv(cfg, states, events, i);
    hide IsRun, Core, Told, PendingExact, PoolServed, HeartOk, OwnersPooled;
  }

  lemma NextSucceeds(cfg: Config, s: State, e: Event, s': State, n: Nick)
    requires Inv(cfg, s) && Next(cfg, s, e, s') && n in s.dir.reg.owners && n in s'.dir.reg.owners
    ensures Succeeds(s.dir.reg.owners[n], s'.dir.reg.owners[n])
  {
    hide Told, PendingExact, PoolServed, HeartOk, OwnersPooled, Locked, OwnersServed, InfosServed, WritesSafe, EffectOf,
      MoveOf;
    match e
    case Arrive =>
    case Run(t, o) =>
      assert Shape(t, s.tasks[t], |s.tasks|);
      MoveDoes(cfg, s.dir, t, s.tasks[t], |s.tasks|, o);
      DoOwnerKeys(s.dir, t, s.tasks[t], StepEffect(cfg, s, t, o), o, n);
  }

  lemma RunNext(cfg: Config, states: seq<State>, events: seq<Event>, j: nat)
    requires IsRun(cfg, states, events) && 0 < j < |states|
    ensures j <= |events| && Inv(cfg, states[j - 1]) && Next(cfg, states[j - 1], events[j - 1], states[j])
  {
    hide Next, Inv, Init;
    RunInv(cfg, states, events, j - 1);
    assert StepAt(cfg, states, events, j - 1);
  }

  lemma RunSucceeds(cfg: Config, states: seq<State>, events: seq<Event>, j: nat, n: Nick)
    requires IsRun(cfg, states, events) && 0 < j < |states|
    requires n in states[j - 1].dir.reg.owners && n in states[j].dir.reg.owners
    ensures Succeeds(states[j - 1].dir.reg.owners[n], states[j].dir.reg.owners[n])
  {
    hide Next, Inv, IsRun, Succeeds;
    RunNext(cfg, states, events, j);
    NextSucceeds(cfg, states[j - 1], events[j - 1], states[j], n);
  }

  /** As long as a nick stays registered, its owners are at most one unverified owner followed by
      verified owners that all have the same key. */
  lemma {:induction false} OwnerLineage(cfg: Config, states: seq<State>, events: seq<Event>, i: nat, j: nat, n: Nick)
    requires IsRun(cfg, states, events) && i <= j < |states|
    requires forall k :: i <= k <= j ==> n in states[k].dir.reg.owners
    ensures Succeeds(states[i].dir.reg.owners[n], states[j].dir.reg.owners[n])
    decreases j
  {
    hide IsRun;
    if i < j {
      OwnerLineage(cfg, states, events, i, j - 1, n);
      RunSucceeds(cfg, states, events, j, n);
    }
  }

  /** Between two sweeps no pong is pending. */
  lemma SweepsEndClean(cfg: Config, states: seq<State>, events: seq<Event>, i: nat)
    requires IsRun(cfg, states, events) && i < |states|
    ensures |states[i].tasks| > 0 && states[i].tasks[0].role.Heart?
    ensures states[i].tasks[0].role.sweep.Asleep? ==> states[i].dir.pong == {}
  {
    RunInv(cfg, states, events, i);
    hide IsRun, Core, Told, PendingExact, PoolServed, OwnersPooled;
  }

  /** No task holds an owner lock while it waits for another one, or for the senders of a broadcast. */
  lemma NeverHoldsAndWaits(cfg: Config, states: seq<State>, events: seq<Event>, i: nat, t: nat, n: Nick)
    requires IsRun(cfg, states, events) && i < |states| && t < |states[i].tasks|
    requires states[i].tasks[t].act.Waiting? || states[i].tasks[t].act.Gathering?
    ensures n in states[i].locks ==> states[i].locks[n] != t
  {
    RunInv(cfg, states, events, i);
    NoHoldAndWait(states[i], t, n);
    hide IsRun, Told, PendingExact, PoolServed, HeartOk, OwnersPooled;
  }

  /** In no reachable state do tasks wait for each other in a circle. */
  lemma NeverInCircles(cfg: Config, states: seq<State>, events: seq<Event>, i: nat, path: seq<nat>)
    requires IsRun(cfg, states, events) && i < |states| && |path| > 1 && WaitPath(states[i], path)
    ensures path[0] != path[|path| - 1]
  {
    RunInv(cfg, states, events, i);
    NoWaitCycle(states[i], path);
    hide IsRun, Core, Told, PendingExact, PoolServed, HeartOk, OwnersPooled;
  }

  /** In every reachable state, a task that is not over can run or waits, through others, for one that can. */
  lemma NeverDeadlocked(cfg: Config, states: seq<State>, events: seq<Event>, i: nat, t: nat, o: Oracle)
    returns (path: seq<nat>)
    requires IsRun(cfg, states, events) && i < |states|
    requires t < |states[i].tasks| && !Over(states[i].tasks[t]) && Lists(o.listing, states[i].dir.reg.peers.Keys)
    ensures path != [] && path[0] == t && WaitPath(states[i], path) && Enabled(states[i], path[|path| - 1], o)
  {
    RunInv(cfg, states, events, i);
    path := WaitsEnd(states[i], t, o);
    hide IsRun, Core, Told, PendingExact, PoolServed, HeartOk, OwnersPooled, Enabled, WaitPath;
  }

  // ---- who is evicted ----

  /** The idle entries a sweep still works with. */
  predicate InSweep(sw: Sweep, x: Idler) {
    match sw
    case Asleep => false
    case Evicting(_, todo, _) => x in todo
    case Probing(_, todo, _, pinged, probe) => x in todo || x in pinged || (!probe.NoProbe? && probe.who == x)
    case AwaitingPongs(_, pinged) => x in pinged
    case TimingOut(_, todo) => x in todo
  }

  predicate Idled(r: Registry, x: Idler) {
    && IsHandshaked(r, x.gen.nick) && Current(r, x.gen.nick, x.gen.conn)
    && r.infos[r.peers[x.gen.nick]].lastSeen == x.seen
  }

  /** In the sweep that is running at `j`, the registry listed `x` as HANDSHAKED, current and last seen at `x.seen`. */
  ghost predicate ListedInSweep(states: seq<State>, j: nat, x: Idler) {
    exists i :: 0 <= i < j < |states| && Idled(states[i].dir.reg, x)
      && (forall k :: i < k <= j ==>
            |states[k].tasks| > 0 && states[k].tasks[0].role.Heart? && !states[k].tasks[0].role.sweep.Asleep?)
  }

  lemma HeartEntries(cfg: Config, d: Dir, sw: Sweep, a: Act, o: Oracle, x: Idler)
    requires var m := HeartMove(cfg, d, sw, a, o); m.task.role.Heart? && InSweep(m.task.role.sweep, x)
    ensures InSweep(sw, x) || Idled(d.reg, x)
  {
    hide Removable, Known;
  }

  /** One step leaves the heartbeat where it was in its sweep, or is a step of the sweep. */
  ghost predicate HeartStep(cfg: Config, s: State, s': State) {
    && |s.tasks| > 0 && |s'.tasks| > 0 && s.tasks[0].role.Heart? && s'.tasks[0].role.Heart?
    && (|| s'.tasks[0].role == s.tasks[0].role
        || (exists o: Oracle :: Lists(o.listing, s.dir.reg.peers.Keys)
              && s'.tasks[0] == HeartMove(cfg, s.dir, s.tasks[0].role.sweep, s.tasks[0].act, o).task))
  }

  lemma NextHeart(cfg: Config, s: State, e: Event, s': State)
    requires Inv(cfg, s) && Next(cfg, s, e, s')
    requires |s'.tasks| > 0 && s'.tasks[0].role.Heart?
    ensures HeartStep(cfg, s, s')
  {
    hide HeartMove, Told, PendingExact, PoolServed, OwnersPooled, Locked, OwnersServed, InfosServed, WritesSafe;
    if e.Run? && e.task == 0 {
      var task := s.tasks[0];
      assert Shape(0, task, |s.tasks|);
      assert s'.tasks[0] == StepMove(cfg, s, 0, e.oracle).task;
      if InSharedCall(task.act) { SharedLeaves(cfg, s.dir, 0, task, |s.tasks|, e.oracle); }
    } else {
      assert s'.tasks[0] == s.tasks[0];
    }
    hide SharedMove;
  }

  lemma RunHeartStep(cfg: Config, states: seq<State>, events: seq<Event>, j: nat)
    requires IsRun(cfg, states, events) && 0 < j < |states|
    ensures HeartStep(cfg, states[j - 1], states[j])
  {
    hide Next, Inv, IsRun, HeartStep;
    RunNext(cfg, states, events, j);
    RunHeart(cfg, states, events, j);
    NextHeart(cfg, states[j - 1], events[j - 1], states[j]);
  }

  lemma RunEntries(cfg: Config, states: seq<State>, events: seq<Event>, j: nat, x: Idler)
    requires IsRun(cfg, states, events) && 0 < j < |states|
    requires |states[j].tasks| > 0 && states[j].tasks[0].role.Heart? && InSweep(states[j].tasks[0].role.sweep, x)
    ensures |states[j - 1].tasks| > 0 && states[j - 1].tasks[0].role.Heart?
    ensures InSweep(states[j - 1].tasks[0].role.sweep, x) || Idled(states[j - 1].dir.reg, x)
  {
    hide IsRun, Idled, InSweep, HeartMove;
    RunHeartStep(cfg, states, events, j);
    var s, s' := states[j - 1], states[j];
    if s'.tasks[0].role != s.tasks[0].role {
      var o :| s'.tasks[0] == HeartMove(cfg, s.dir, s.tasks[0].role.sweep, s.tasks[0].act, o).task;
      HeartEntries(cfg, s.dir, s.tasks[0].role.sweep, s.tasks[0].act, o, x);
    }
  }

  lemma {:induction false} EntriesWereListed(cfg: Config, states: seq<State>, events: seq<Event>, j: nat, x: Idler)
    requires IsRun(cfg, states, events) && j < |states|
    requires |states[j].tasks| > 0 && states[j].tasks[0].role.Heart? && InSweep(states[j].tasks[0].role.sweep, x)
    ensures ListedInSweep(states, j, x)
    decreases j
  {
    assert j > 0;
    hide IsRun, Idled;
    RunEntries(cfg, states, events, j, x);
    if InSweep(states[j - 1].tasks[0].role.sweep, x) {
      EntriesWereListed(cfg, states, events, j - 1, x);
    }
  }

  lemma RunHeart(cfg: Config, states: seq<State>, events: seq<Event>, i: nat)
    requires IsRun(cfg, states, events) && i < |states|
    ensures |states[i].tasks| > 0 && states[i].tasks[0].role.Heart?
  {
    SweepsEndClean(cfg, states, events, i);
  }

  /** Whoever the heartbeat asks to remove was listed in the same sweep with a `last_seen` before the idle
      cutoff of that sweep. */
  lemma EvictedWasIdle(cfg: Config, states: seq<State>, events: seq<Event>, j: nat) returns (x: Idler, now: int)
    requires IsRun(cfg, states, events) && j < |states| && cfg.hardEvict >= cfg.idleThreshold
    requires |states[j].tasks| > 0 && states[j].tasks[0].act.Waiting? && states[j].tasks[0].act.want.ToRemove?
    ensures x.gen == Gen(states[j].tasks[0].act.nick, states[j].tasks[0].act.want.conn)
    ensures ListedInSweep(states, j, x) && x.seen < now - cfg.idleThreshold
    ensures states[j].tasks[0].role.Heart? && !states[j].tasks[0].role.sweep.Asleep?
      && states[j].tasks[0].role.sweep.now == now
    ensures x.seen < now - cfg.hardEvict || Pings(states[j].dir, x.gen)
  {
    RunInv(cfg, states, events, j);
    EvictionsAreDue(cfg, states[j]);
    var sw := states[j].tasks[0].role.sweep;
    assert Shape(0, states[j].tasks[0], |states[j].tasks|);
    now := sw.now;
    x := match sw
      case Evicting(_, todo, _) => todo[0]
      case Probing(_, _, _, _, probe) => probe.who
      case TimingOut(_, todo) => todo[0];
    EntriesWereListed(cfg, states, events, j, x);
  }

  // ---- who times out ----

  predicate PingedIn(sw: Sweep, x: Idler) {
    (sw.Probing? || sw.AwaitingPongs?) && x in sw.pinged
  }

  /** The ping to `x` has just been written. */
  predicate JustPinged(s: State, x: Idler) {
    && |s.tasks| > 0 && s.tasks[0].role.Heart? && s.tasks[0].act == Returned(true)
    && s.tasks[0].role.sweep.Probing? && s.tasks[0].role.sweep.probe == PingProbe(x)
  }

  ghost predicate PingedInSweep(states: seq<State>, j: nat, x: Idler) {
    exists i :: 0 <= i < j < |states| && JustPinged(states[i], x)
      && (forall k :: i <= k <= j ==>
            |states[k].tasks| > 0 && states[k].tasks[0].role.Heart? && !states[k].tasks[0].role.sweep.Asleep?)
  }

  /** The wait for pongs was over and `x` still owed one. */
  predicate WaitOver(s: State, x: Idler) {
    && |s.tasks| > 0 && s.tasks[0].role.Heart? && s.tasks[0].role.sweep.AwaitingPongs?
    && x in s.tasks[0].role.sweep.pinged && x.gen in s.dir.pong
  }

  ghost predicate LateInSweep(states: seq<State>, j: nat, x: Idler) {
    exists i :: 0 <= i < j < |states| && WaitOver(states[i], x) && PingedInSweep(states, i, x)
      && (forall k :: i < k <= j ==>
            |states[k].tasks| > 0 && states[k].tasks[0].role.Heart? && states[k].tasks[0].role.sweep.TimingOut?)
  }

  lemma HeartPinged(cfg: Config, d: Dir, sw: Sweep, a: Act, o: Oracle, x: Idler)
    requires var m := HeartMove(cfg, d, sw, a, o); m.task.role.Heart? && PingedIn(m.task.role.sweep, x)
    ensures PingedIn(sw, x) || (sw.Probing? && sw.probe == PingProbe(x) && a == Returned(true))
  {
    hide Removable, Known, IdleSince;
  }

  lemma HeartLate(cfg: Config, d: Dir, sw: Sweep, a: Act, o: Oracle, x: Idler)
    requires var m := HeartMove(cfg, d, sw, a, o);
             m.task.role.Heart? && m.task.role.sweep.TimingOut? && x in m.task.role.sweep.todo
    ensures (sw.TimingOut? && x in sw.todo) || (sw.AwaitingPongs? && x in sw.pinged && x.gen in d.pong)
  {
    hide Removable, Known, IdleSince, Unanswered;
  }

  /** Whoever a sweep counts as pinged had its ping written in that sweep. */
  lemma {:induction false} PingsWereWritten(cfg: Config, states: seq<State>, events: seq<Event>, j: nat, x: Idler)
    requires IsRun(cfg, states, events) && j < |states|
    requires |states[j].tasks| > 0 && states[j].tasks[0].role.Heart? && PingedIn(states[j].tasks[0].role.sweep, x)
    ensures PingedInSweep(states, j, x)
    decreases j
  {
    assert j > 0;
    hide IsRun, HeartMove;
    RunHeartStep(cfg, states, events, j);
    var s, s' := states[j - 1], states[j];
    if s'.tasks[0].role != s.tasks[0].role {
      var o :| s'.tasks[0] == HeartMove(cfg, s.dir, s.tasks[0].role.sweep, s.tasks[0].act, o).task;
      HeartPinged(cfg, s.dir, s.tasks[0].role.sweep, s.tasks[0].act, o, x);
    }
    if PingedIn(s.tasks[0].role.sweep, x) { PingsWereWritten(cfg, states, events, j - 1, x); }
    else { assert JustPinged(s, x); }
  }

  /** Whoever is to be evicted for a missing pong was pinged in the same sweep and owed the pong when the wait ended. */
  lemma {:induction false} TimedOutWasPinged(cfg: Config, states: seq<State>, events: seq<Event>, j: nat, x: Idler)
    requires IsRun(cfg, states, events) && j < |states|
    requires |states[j].tasks| > 0 && states[j].tasks[0].role.Heart?
    requires states[j].tasks[0].role.sweep.TimingOut? && x in states[j].tasks[0].role.sweep.todo
    ensures LateInSweep(states, j, x)
    decreases j
  {
    assert j > 0;
    hide IsRun, HeartMove, PingedInSweep;
    RunHeartStep(cfg, states, events, j);
    var s, s' := states[j - 1], states[j];
    if s'.tasks[0].role != s.tasks[0].role {
      var o :| s'.tasks[0] == HeartMove(cfg, s.dir, s.tasks[0].role.sweep, s.tasks[0].act, o).task;
      HeartLate(cfg, s.dir, s.tasks[0].role.sweep, s.tasks[0].act, o, x);
    }
    if s.tasks[0].role.sweep.TimingOut? {
      TimedOutWasPinged(cfg, states, events, j - 1, x);
    } else {
      PingsWereWritten(cfg, states, events, j - 1, x);
      assert WaitOver(s, x);
    }
  }

  // ---- isolation and cascades in reachable states ----

  /** A step of a task that does not act for a current owner leaves everything kept for that owner as it was. */
  lemma OwnersAreIsolated(cfg: Config, states: seq<State>, events: seq<Event>, i: nat, t: nat, o: Oracle, g: Gen)
    requires IsRun(cfg, states, events) && i < |states| && Enabled(states[i], t, o)
    requires Live(states[i].dir, g) && !ActsFor(t, states[i].tasks[t], g)
    ensures SliceSame(states[i].dir, Step(cfg, states[i], t, o).dir, g)
  {
    hide IsRun, Core, Told, PendingExact, PoolServed, HeartOk, OwnersPooled, Enabled, ActsFor, SliceSame, Step, Live;
    RunInv(cfg, states, events, i);
    GenerationIsolated(cfg, states[i], t, o, g);
  }

  /** From any reachable state, steps that only carry on writes, removals and broadcasts come to an end. */
  lemma CascadesEnd(cfg: Config, states: seq<State>, events: seq<Event>, i: nat, cascade: seq<State>, ts: seq<nat>,
      os: seq<Oracle>)
    requires IsRun(cfg, states, events) && i < |states|
    requires CascadeRun(cfg, cascade, ts, os) && cascade[0] == states[i]
    ensures |ts| <= Measure(states[i])
  {
    hide IsRun, Core, Told, PendingExact, PoolServed, HeartOk, OwnersPooled, CascadeAt, Measure;
    RunInv(cfg, states, events, i);
    CascadesTerminate(cfg, cascade, ts, os);
  }
}
