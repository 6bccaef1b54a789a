/** Whom a broadcast reaches while other tasks run: every peer that stays served from its start to its end is
    the target of exactly one sender, and no generation is the target of two. */
module Coverage {
  import opened Types
  import opened PeerRegistry
  import opened MessageRouter
  import opened Directory
  import opened Protocol
  import opened Frames
  import opened Runs
  import opened Cascade

  predicate HasNick(items: seq<Gen>, n: Nick) {
    exists i :: 0 <= i < |items| && items[i].nick == n
  }

  ghost predicate OnePerNick(items: seq<Gen>) {
    forall i, j :: 0 <= i < j < |items| ==> items[i].nick != items[j].nick
  }

  // ---- one batch ----

  lemma HasNickFirst(items: seq<Gen>, n: Nick)
    requires items != []
    ensures HasNick(items, n) <==> items[0].nick == n || HasNick(items[1..], n)
  {
    if HasNick(items[1..], n) {
      var i :| 0 <= i < |items| - 1 && items[1..][i].nick == n;
      assert items[i + 1].nick == n;
    }
  }

  /** The targets that the walk of `items` yields, in its order. */
  function Targets(r: Registry, items: seq<Gen>, skip: Skip): (ts: seq<Gen>) {
    if items == [] then []
    else if Yields(r, items[0], skip) then
      [Gen(items[0].nick, r.owners[items[0].nick].conn)] + Targets(r, items[1..], skip)
    else Targets(r, items[1..], skip)
  }

  /** A batch is what the walk yields from the items it uses up; it is full, or the walk is at its end. */
  lemma {:induction false} PullExact(r: Registry, rest: seq<Gen>, skip: Skip, room: nat)
    ensures var b := Pull(r, rest, skip, room);
            var k := |rest| - |b.rest|;
            && b.rest == rest[k..] && b.targets == Targets(r, rest[..k], skip)
            && (|b.targets| == room || b.rest == [])
  {
    hide Yields;
    if rest != [] && room > 0 {
      var first := Yields(r, rest[0], skip);
      if first { YieldsOwned(r, rest[0], skip); }
      PullExact(r, rest[1..], skip, if first then room - 1 else room);
      var b := Pull(r, rest, skip, room);
      var k := |rest| - |b.rest|;
      assert rest[..k][1..] == rest[1..][..k - 1] && rest[k..] == rest[1..][k - 1..];
    }
  }

  /** A batch names no generation twice, nor one whose nick is still to come. */
  lemma {:induction false} PullOnce(r: Registry, rest: seq<Gen>, skip: Skip, room: nat, g: Gen)
    requires OnePerNick(rest)
    ensures var b := Pull(r, rest, skip, room);
            && OnePerNick(b.rest)
            && (HasNick(b.rest, g.nick) ==> HasNick(rest, g.nick))
            && multiset(b.targets)[g] <= 1
            && (multiset(b.targets)[g] == 1 ==> HasNick(rest, g.nick) && !HasNick(b.rest, g.nick))
  {
    hide Yields, HasNick;
    if rest != [] && room > 0 {
      HasNickFirst(rest, g.nick);
      var first := rest[0];
      NickNotLater(rest);
      if Yields(r, first, skip) {
        PullOnce(r, rest[1..], skip, room - 1, g);
        PullOnce(r, rest[1..], skip, room - 1, first);
        YieldsOwned(r, first, skip);
      } else {
        PullOnce(r, rest[1..], skip, room, g);
      }
    }
  }

  lemma YieldsOwned(r: Registry, g: Gen, skip: Skip)
    requires Yields(r, g, skip)
    ensures g.nick in r.owners
  {
  }

  lemma NickNotLater(rest: seq<Gen>)
    requires rest != [] && OnePerNick(rest)
    ensures OnePerNick(rest[1..]) && !HasNick(rest[1..], rest[0].nick)
  {
  }

  /** A served target that the walk still has before it is in this batch or stays before the walk. */
  lemma {:induction false} PullTakes(r: Registry, rest: seq<Gen>, skip: Skip, room: nat, g: Gen)
    requires room > 0 && g in rest && Yields(r, g, skip) && Current(r, g.nick, g.conn)
    ensures var b := Pull(r, rest, skip, room); b.targets != [] && (g in b.targets || g in b.rest)
  {
    hide Yields;
    if rest[0] != g {
      assert g in rest[1..];
      if Yields(r, rest[0], skip) {
        if room > 1 { PullTakes(r, rest[1..], skip, room - 1, g); }
      } else {
        PullTakes(r, rest[1..], skip, room, g);
      }
    }
  }

  // ---- one step ----

  /** What a step of task `t` hands to new senders for `g`. */
  function Hits(cfg: Config, s: State, e: Event, t: nat, g: Gen): (n: nat) {
    if e.Run? && e.task == t && t < |s.tasks| then multiset(StepMove(cfg, s, t, e.oracle).kids)[g] else 0
  }

  /** How often task `t` starts a sender to `g` between two states of a run. */
  function Targeted(cfg: Config, states: seq<State>, events: seq<Event>, t: nat, i: nat, j: nat, g: Gen): (n: nat)
    requires i <= j <= |events| <= |states|
    decreases j - i
  {
    if i == j then 0 else Hits(cfg, states[i], events[i], t, g) + Targeted(cfg, states, events, t, i + 1, j, g)
  }

  predicate Gathers(s: State, t: nat) {
    t < |s.tasks| && s.tasks[t].act.Gathering?
  }

  /** A gathering task takes its next batch, or is left alone. */
  ghost predicate BatchStep(cfg: Config, s: State, e: Event, s': State, t: nat)
    requires Gathers(s, t)
  {
    var a := s.tasks[t].act;
    t < |s'.tasks| &&
    if e.Run? && e.task == t then
      var b := Pull(s.dir.reg, a.rest, a.skip, Room(cfg));
      && StepMove(cfg, s, t, e.oracle).kids == b.targets
      && (if b.targets == [] then s'.tasks[t].act == Returned(true)
          else s'.tasks[t].act.Gathering? && s'.tasks[t].act.rest == b.rest && s'.tasks[t].act.skip == a.skip)
    else s'.tasks[t] == s.tasks[t]
  }

  lemma NextBatchStep(cfg: Config, s: State, e: Event, s': State, t: nat)
    requires Next(cfg, s, e, s') && Gathers(s, t)
    ensures BatchStep(cfg, s, e, s', t)
  {
    hide Pull, OwnMove;
  }

  lemma RunLength(cfg: Config, states: seq<State>, events: seq<Event>)
    requires IsRun(cfg, states, events)
    ensures |states| == |events| + 1
  {
  }

  lemma RunBatchStep(cfg: Config, states: seq<State>, events: seq<Event>, i: nat, t: nat)
    requires IsRun(cfg, states, events) && i < |events| && Gathers(states[i], t)
    ensures BatchStep(cfg, states[i], events[i], states[i + 1], t)
  {
    hide Init, Next, BatchStep;
    assert StepAt(cfg, states, events, i);
    NextBatchStep(cfg, states[i], events[i], states[i + 1], t);
  }

  // ---- the whole broadcast ----

  /** The task gathers in all states from `i` up to `j`. */
  ghost predicate GathersUntil(states: seq<State>, t: nat, i: nat, j: nat) {
    j < |states| && forall k :: i <= k < j ==> Gathers(states[k], t)
  }

  /** A generation whose nick lies behind the walk is no target any more. */
  lemma {:induction false} Never(cfg: Config, states: seq<State>, events: seq<Event>, t: nat, i: nat, j: nat, g: Gen)
    requires IsRun(cfg, states, events) && i < j && GathersUntil(states, t, i, j)
    requires OnePerNick(states[i].tasks[t].act.rest) && !HasNick(states[i].tasks[t].act.rest, g.nick)
    ensures Targeted(cfg, states, events, t, i, j, g) == 0
    decreases j - i
  {
    hide IsRun, Pull, HasNick, OnePerNick, StepMove;
    RunLength(cfg, states, events);
    RunBatchStep(cfg, states, events, i, t);
    var a := states[i].tasks[t].act;
    PullOnce(states[i].dir.reg, a.rest, a.skip, Room(cfg), g);
    if i + 1 < j { Never(cfg, states, events, t, i + 1, j, g); }
  }

  lemma {:induction false} AtMostOneTarget(cfg: Config, states: seq<State>, events: seq<Event>, t: nat, i: nat, j: nat,
      g: Gen)
    requires IsRun(cfg, states, events) && i < j && GathersUntil(states, t, i, j)
    requires OnePerNick(states[i].tasks[t].act.rest)
    ensures Targeted(cfg, states, events, t, i, j, g) <= 1
    decreases j - i
  {
    hide IsRun, Pull, HasNick, OnePerNick, StepMove;
    RunLength(cfg, states, events);
    RunBatchStep(cfg, states, events, i, t);
    var a := states[i].tasks[t].act;
    PullOnce(states[i].dir.reg, a.rest, a.skip, Room(cfg), g);
    if i + 1 < j {
      if Hits(cfg, states[i], events[i], t, g) == 0 { AtMostOneTarget(cfg, states, events, t, i + 1, j, g); }
      else { Never(cfg, states, events, t, i + 1, j, g); }
    }
  }

  ghost predicate ServedUntil(states: seq<State>, g: Gen, i: nat, j: nat) {
    j < |states| && forall k :: i <= k <= j ==> Serves(states[k].dir, g)
  }

  lemma ServedYields(cfg: Config, states: seq<State>, events: seq<Event>, i: nat, g: Gen, skip: Skip)
    requires IsRun(cfg, states, events) && i < |states| && Serves(states[i].dir, g) && Wanted(g, skip)
    ensures Yields(states[i].dir.reg, g, skip) && Current(states[i].dir.reg, g.nick, g.conn)
  {
    hide IsRun;
    RunMapsAgree(cfg, states, events, i);
    YieldsServed(states[i].dir, g, skip);
  }

  lemma {:induction false} OneTarget(cfg: Config, states: seq<State>, events: seq<Event>, t: nat, i: nat, j: nat,
      g: Gen)
    requires IsRun(cfg, states, events) && i < j && GathersUntil(states, t, i, j)
    requires !Gathers(states[j], t) && ServedUntil(states, g, i, j)
    requires var a := states[i].tasks[t].act; OnePerNick(a.rest) && g in a.rest && Wanted(g, a.skip)
    ensures Targeted(cfg, states, events, t, i, j, g) == 1
    decreases j - i
  {
    hide IsRun, Pull, HasNick, OnePerNick, StepMove, Serves, Wanted, Yields, Current;
    RunLength(cfg, states, events);
    RunBatchStep(cfg, states, events, i, t);
    var a := states[i].tasks[t].act;
    PullOnce(states[i].dir.reg, a.rest, a.skip, Room(cfg), g);
    ServedYields(cfg, states, events, i, g, a.skip);
    PullTakes(states[i].dir.reg, a.rest, a.skip, Room(cfg), g);
    if Hits(cfg, states[i], events[i], t, g) == 0 { OneTarget(cfg, states, events, t, i + 1, j, g); }
    else { Never(cfg, states, events, t, i + 1, j, g); }
  }

  /** The step with which task `t` begins a broadcast. */
  ghost predicate Begins(cfg: Config, s: State, e: Event, t: nat, skip: Skip) {
    && e.Run? && e.task == t && Enabled(s, t, e.oracle)
    && var m := StepMove(cfg, s, t, e.oracle);
       var b := Pull(m.dir.reg, Snapshot(m.dir.reg, e.oracle.listing), skip, Room(cfg));
       && m.kids == b.targets
       && (if b.targets == [] then !m.task.act.Gathering?
           else m.task.act.Gathering? && m.task.act.rest == b.rest && m.task.act.skip == skip)
  }

  lemma {:induction false} SnapshotOnce(r: Registry, listing: seq<Nick>)
    requires forall i, j :: 0 <= i < j < |listing| ==> listing[i] != listing[j]
    ensures OnePerNick(Snapshot(r, listing))
    ensures forall g :: g in Snapshot(r, listing) ==> g.nick in listing
    ensures forall n :: n in listing && n in r.peers ==> Gen(n, r.peers[n]) in Snapshot(r, listing)
  {
    if listing != [] {
      SnapshotOnce(r, listing[1..]);
      assert listing == [listing[0]] + listing[1..];
    }
  }

  lemma StepDir(cfg: Config, s: State, e: Event, s': State, t: nat)
    requires Next(cfg, s, e, s') && e.Run? && e.task == t
    ensures t < |s.tasks| && t < |s'.tasks| && s'.dir == StepMove(cfg, s, t, e.oracle).dir
      && s'.tasks[t] == StepMove(cfg, s, t, e.oracle).task
  {
    hide MoveOf;
  }

  /** A peer that is served from the step that begins a broadcast until the broadcast is over, and is not left out
      of it, is the target of exactly one of its senders, however the other tasks interleave. */
  lemma BroadcastCovers(cfg: Config, states: seq<State>, events: seq<Event>, t: nat, skip: Skip, i: nat, j: nat, g: Gen)
    requires IsRun(cfg, states, events) && i < j < |states| && Begins(cfg, states[i], events[i], t, skip)
    requires GathersUntil(states, t, i + 1, j) && !Gathers(states[j], t)
    requires ServedUntil(states, g, i, j) && Wanted(g, skip)
    ensures Targeted(cfg, states, events, t, i, j, g) == 1
  {
    hide IsRun, StepMove, Snapshot, Pull, Yields, Wanted, OnePerNick, HasNick, Next, Enabled;
    RunLength(cfg, states, events);
    RunStepAt(cfg, states, events, i);
    StepDir(cfg, states[i], events[i], states[i + 1], t);
    ServedYields(cfg, states, events, i + 1, g, skip);
    BeginsWith(cfg, states, events, i, t, skip, g);
    var d := states[i + 1].dir;
    var items := Snapshot(d.reg, events[i].oracle.listing);
    PullOnce(d.reg, items, skip, Room(cfg), g);
    PullTakes(d.reg, items, skip, Room(cfg), g);
    if Hits(cfg, states[i], events[i], t, g) == 0 { OneTarget(cfg, states, events, t, i + 1, j, g); }
    else { Never(cfg, states, events, t, i + 1, j, g); }
  }

  /** No broadcast has two senders to one generation. */
  lemma NoTargetTwice(cfg: Config, states: seq<State>, events: seq<Event>, t: nat, skip: Skip, i: nat, j: nat, g: Gen)
    requires IsRun(cfg, states, events) && i < j < |states| && Begins(cfg, states[i], events[i], t, skip)
    requires GathersUntil(states, t, i + 1, j)
    ensures Targeted(cfg, states, events, t, i, j, g) <= 1
  {
    hide IsRun, StepMove, Snapshot, Pull, OnePerNick, HasNick, Next;
    RunLength(cfg, states, events);
    RunStepAt(cfg, states, events, i);
    StepDir(cfg, states[i], events[i], states[i + 1], t);
    var d := states[i + 1].dir;
    SnapshotOnce(d.reg, events[i].oracle.listing);
    PullOnce(d.reg, Snapshot(d.reg, events[i].oracle.listing), skip, Room(cfg), g);
    if i + 1 < j {
      if Hits(cfg, states[i], events[i], t, g) == 0 { AtMostOneTarget(cfg, states, events, t, i + 1, j, g); }
      else { Never(cfg, states, events, t, i + 1, j, g); }
    }
  }

  lemma RunStepAt(cfg: Config, states: seq<State>, events: seq<Event>, i: nat)
    requires IsRun(cfg, states, events) && i < |events|
    ensures Next(cfg, states[i], events[i], states[i + 1])
  {
    hide Next, Init;
    assert StepAt(cfg, states, events, i);
  }

  /** The walk of a new broadcast has every served peer before it, each nick once. */
  lemma BeginsWith(cfg: Config, states: seq<State>, events: seq<Event>, i: nat, t: nat, skip: Skip, g: Gen)
    requires IsRun(cfg, states, events) && i < |events| && Begins(cfg, states[i], events[i], t, skip)
    requires Serves(states[i].dir, g) && Serves(states[i + 1].dir, g)
    ensures var items := Snapshot(states[i + 1].dir.reg, events[i].oracle.listing); OnePerNick(items) && g in items
  {
    hide IsRun, StepMove, Snapshot, Pull;
    RunLength(cfg, states, events);
    RunMapsAgree(cfg, states, events, i);
    RunMapsAgree(cfg, states, events, i + 1);
    SnapshotOnce(states[i + 1].dir.reg, events[i].oracle.listing);
  }

  lemma {:induction false} PulledAreOwners(r: Registry, rest: seq<Gen>, skip: Skip, room: nat)
    ensures forall g :: g in Pull(r, rest, skip, room).targets ==>
      Current(r, g.nick, g.conn) && g.nick != skip.nick && Some(g.conn) != skip.conn
  {
    if rest != [] && room > 0 {
      PulledAreOwners(r, rest[1..], skip, if Yields(r, rest[0], skip) then room - 1 else room);
    }
  }

  /** Every target of a broadcast is a current owner when its sender starts, and is neither the nick nor the connection
      that the broadcast leaves out. */
  lemma TargetsAreOwners(cfg: Config, s: State, t: nat, o: Oracle, g: Gen)
    requires t < |s.tasks| && g in StepMove(cfg, s, t, o).kids
    ensures var m := StepMove(cfg, s, t, o);
            && m.task.act.Gathering? && Live(m.dir, g)
            && g.nick != m.task.act.skip.nick && Some(g.conn) != m.task.act.skip.conn
  {
    hide MoveOf, Pull;
    var m := StepMove(cfg, s, t, o);
    KidsArePulled(cfg, s, t, o);
    var rest :| m.kids == Pull(m.dir.reg, rest, m.task.act.skip, Room(cfg)).targets;
    PulledAreOwners(m.dir.reg, rest, m.task.act.skip, Room(cfg));
  }

  /** What a step starts are the targets of one batch. */
  ghost predicate OneBatch(cfg: Config, m: Move) {
    m.kids != [] ==>
      && m.task.act.Gathering?
      && exists rest :: m.kids == Pull(m.dir.reg, rest, m.task.act.skip, Room(cfg)).targets
  }

  lemma SharedBatch(cfg: Config, d: Dir, task: Task, base: nat, o: Oracle)
    requires InSharedCall(task.act)
    ensures OneBatch(cfg, SharedMove(cfg, d, task, base, o))
  {
    hide Pull, Snapshot, RemoveGen, Removable, SendReady, IsHandshaked, Room;
  }

  lemma ServeBatch(cfg: Config, d: Dir, c: ConnId, n: Nick, o: Oracle, base: nat)
    ensures OneBatch(cfg, ServeMove(cfg, d, c, n, o, base))
  {
    hide Pull, Snapshot, IsHandshaked, Touch, Publish, Known, Current, Room;
  }

  lemma HandlerBatch(cfg: Config, d: Dir, c: ConnId, phase: Phase, a: Act, o: Oracle, base: nat)
    ensures OneBatch(cfg, HandlerMove(cfg, d, c, phase, a, o, base))
  {
    if phase.Serving? && !a.Returned? { ServeBatch(cfg, d, c, phase.nick, o, base); }
    hide ServeMove, Pull, Snapshot, RegisterPeer, Promote, Known, Current, Removable, Room;
  }

  lemma RestBatch(cfg: Config, d: Dir, t: nat, task: Task, base: nat, o: Oracle)
    requires !task.role.Handler?
    ensures OwnMove(cfg, d, t, task, base, o).kids == []
  {
    hide Pull, Removable, IsHandshaked, Live, Known, IdleSince, Unanswered;
  }

  lemma KidsArePulled(cfg: Config, s: State, t: nat, o: Oracle)
    requires t < |s.tasks|
    ensures OneBatch(cfg, StepMove(cfg, s, t, o))
  {
    var task := s.tasks[t];
    if InSharedCall(task.act) { SharedBatch(cfg, s.dir, task, |s.tasks|, o); }
    else if task.role.Handler? { HandlerBatch(cfg, s.dir, t, task.role.phase, task.act, o, |s.tasks|); }
    else { RestBatch(cfg, s.dir, t, task, |s.tasks|, o); }
    hide OneBatch, SharedMove, HandlerMove, SenderMove, HeartMove;
  }

  /** No step starts more senders than the batch size, or one if that is zero. */
  lemma BatchesAreBounded(cfg: Config, s: State, t: nat, o: Oracle)
    requires t < |s.tasks|
    ensures |StepMove(cfg, s, t, o).kids| <= if cfg.batchSize == 0 then 1 else cfg.batchSize
  {
    hide MoveOf, Pull;
    KidsArePulled(cfg, s, t, o);
  }

  // ---- what begins a broadcast ----

  /** The announcement of a disconnect is such a broadcast, to all but the nick and the connection that are gone. */
  lemma AnnouncementBegins(cfg: Config, s: State, t: nat, o: Oracle) returns (n: Nick)
    requires Enabled(s, t, o) && StepMove(cfg, s, t, o).told.Some?
    ensures Begins(cfg, s, Run(t, o), t, Skip(n, StepMove(cfg, s, t, o).told))
  {
    var task := s.tasks[t];
    hide Pull, Snapshot, RemoveGen, Removable, Enabled, ServeMove, JobMove, HeartMove, SenderMove, GreetMove,
      RegisterMove, PromoteMove;
    if InSharedCall(task.act) {
      n := task.act.nick;
      hide OwnMove;
    } else {
      ToldByDisplacing(cfg, s, t, o);
      n := task.role.phase.nick;
    }
  }

  lemma ToldByDisplacing(cfg: Config, s: State, t: nat, o: Oracle)
    requires t < |s.tasks| && !InSharedCall(s.tasks[t].act) && StepMove(cfg, s, t, o).told.Some?
    ensures s.tasks[t].role.Handler? && s.tasks[t].role.phase.Displacing?
  {
    hide NextBatch, IdleSince, Unanswered, RegisterPeer, Removable, Known, Current, IsHandshaked, Touch, Publish,
      Promote;
  }

  /** An accepted public message of a served peer is such a broadcast, to all but its sender. */
  lemma PublicMessageBegins(cfg: Config, s: State, t: nat, o: Oracle, n: Nick)
    requires Enabled(s, t, o) && s.tasks[t] == Task(Handler(Serving(n, NoJob)), Running)
    requires Serves(s.dir, Gen(n, t)) && o.msg.Pub? && o.admit && o.relay
      && Accepts(s.dir.router, Gen(n, t), o.msg.kind)
    ensures Begins(cfg, s, Run(t, o), t, Skip(n, None))
  {
    hide Pull, Snapshot, Ingress, Enabled;
  }
}
