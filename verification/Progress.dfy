/** Waiting tasks: no cycle of waits, and no run of internal steps goes on forever. */
module Progress {
  import opened Types
  import opened PeerRegistry
  import opened Directory
  import opened Protocol
  import opened Shapes
  import opened Frames
  import opened Ownership

  // ---- no deadlock ----

  /** Task `t` cannot run before task `u` does: `u` holds the lock `t` waits for, or is a sender `t` gathers. */
  predicate WaitsFor(s: State, t: nat, u: nat) {
    && t < |s.tasks| && u < |s.tasks|
    && var a := s.tasks[t].act;
       || (a.Waiting? && a.nick in s.locks && s.locks[a.nick] == u)
       || (a.Gathering? && a.lo <= u < a.hi && !Over(s.tasks[u]))
  }

  ghost predicate WaitPath(s: State, path: seq<nat>) {
    forall i :: 0 <= i < |path| - 1 ==> WaitsFor(s, path[i], path[i + 1])
  }

  /** A task that waits for a lock or for its senders holds no owner lock. */
  lemma NoHoldAndWait(s: State, t: nat, n: Nick)
    requires Locked(s) && t < |s.tasks| && (s.tasks[t].act.Waiting? || s.tasks[t].act.Gathering?)
    ensures n in s.locks ==> s.locks[n] != t
  {
  }

  /** Past its first edge a wait path only follows gathered senders, which are younger than their parent. */
  lemma {:induction false} PathClimbs(s: State, path: seq<nat>, k: nat)
    requires Core(s) && WaitPath(s, path) && 0 < k < |path| - 1
    ensures path[0] < path[k]
  {
    assert WaitsFor(s, path[0], path[1]) && WaitsFor(s, path[k - 1], path[k]) && WaitsFor(s, path[k], path[k + 1]);
    assert Shape(path[k - 1], s.tasks[path[k - 1]], |s.tasks|);
    if k > 1 { PathClimbs(s, path, k - 1); }
  }

  lemma NoWaitCycle(s: State, path: seq<nat>)
    requires Core(s) && |path| > 1 && WaitPath(s, path)
    ensures path[0] != path[|path| - 1]
  {
    var n := |path| - 1;
    if path[0] == path[n] {
      var longer := path + [path[1]];
      assert WaitsFor(s, path[0], path[1]);
      forall i | 0 <= i < |longer| - 1 ensures WaitsFor(s, longer[i], longer[i + 1]) {
        if i < n { assert WaitsFor(s, path[i], path[i + 1]); }
      }
      PathClimbs(s, longer, n);
    }
  }

  /** From a task that is not over, the tasks it waits for lead to one that can take a step. */
  lemma {:induction false} WaitsEnd(s: State, t: nat, o: Oracle) returns (path: seq<nat>)
    requires Core(s) && t < |s.tasks| && !Over(s.tasks[t]) && Lists(o.listing, s.dir.reg.peers.Keys)
    ensures path != [] && path[0] == t && WaitPath(s, path) && Enabled(s, path[|path| - 1], o)
    decreases |s.tasks| - t
  {
    hide Consistent, OwnersServed, InfosServed, WritesSafe, Lists;
    var a := s.tasks[t].act;
    assert Shape(t, s.tasks[t], |s.tasks|);
    if a.Waiting? && a.nick in s.locks {
      var u := s.locks[a.nick];
      assert Shape(u, s.tasks[u], |s.tasks|);
      path := [t, u];
    } else if k :| a.Gathering? && a.lo <= k < a.hi && !Over(s.tasks[k]) {
      var rest := WaitsEnd(s, k, o);
      path := [t] + rest;
      PathCons(s, t, rest);
    } else {
      path := [t];
    }
  }

  lemma PathCons(s: State, t: nat, rest: seq<nat>)
    requires rest != [] && WaitsFor(s, t, rest[0]) && WaitPath(s, rest)
    ensures WaitPath(s, [t] + rest)
  {
    var path := [t] + rest;
    forall i | 0 <= i < |path| - 1 ensures WaitsFor(s, path[i], path[i + 1]) {
      if i > 0 { assert WaitsFor(s, rest[i - 1], rest[i]); }
    }
  }

  // ---- cascades terminate ----

  /** A step of a cascade: a broadcast sender runs, or a task inside a write, a removal or a broadcast. */
  predicate CascadeStep(s: State, t: nat) {
    t < |s.tasks| && !Over(s.tasks[t]) && (s.tasks[t].role.Sender? || InSharedCall(s.tasks[t].act))
  }

  function ActCost(a: Act): (n: nat) {
    match a
    case Waiting(_, ToSend(_)) => 2
    case Writing(_, ToSend(_)) => 1
    case Waiting(_, ToRemove(_, _)) => 1
    case Gathering(rest, _, _, _) => 1 + 7 * |rest|
    case _ => 0
  }

  /** The cascade steps a task can still take, not counting those of the removals it may cause. */
  function Cost(task: Task): (n: nat) {
    ActCost(task.act) +
    match task.role
    case Sender(_, Fresh) => 6
    case Sender(_, Sending) => 3
    case Sender(_, Reaping) => 1
    case _ => 0
  }

  /** Room for the disconnect broadcasts of `peers` removals. */
  function Budget(peers: nat): (n: nat) {
    if peers == 0 then 0 else Budget(peers - 1) + 7 * peers + 1
  }

  function Measure(s: State): (n: nat) {
    Budget(|s.dir.reg.peers|) + SumBy(Cost, s.tasks)
  }

  lemma NextBatchCost(cfg: Config, r: Registry, rest: seq<Gen>, skip: Skip, base: nat)
    ensures var f := NextBatch(cfg, r, rest, skip, base);
            ActCost(f.act) + 6 * |f.kids| < 1 + 7 * |rest|
  {
  }

  lemma SnapshotSize(r: Registry, listing: seq<Nick>, keys: set<Nick>)
    requires Lists(listing, keys) && r.peers.Keys <= keys
    ensures |Snapshot(r, listing)| <= |keys|
  {
    ListingSize(listing, keys);
  }

  lemma {:induction false} ListingSize<T(!new)>(order: seq<T>, keys: set<T>)
    requires Lists(order, keys)
    ensures |order| == |keys|
    decreases |order|
  {
    if order == [] {
      assert keys == {};
    } else {
      assert order[0] in keys && order[0] !in order[1..];
      ListingSize(order[1..], keys - {order[0]});
    }
  }

  lemma RemovedPeers(d: Dir, g: Gen)
    requires Removable(d, g)
    ensures RemoveGen(d, g).reg.peers == d.reg.peers - {g.nick}
    ensures |RemoveGen(d, g).reg.peers| + 1 == |d.reg.peers|
  {
    MapRemoveCard(d.reg.peers, g.nick);
  }

  lemma RemoveCost(cfg: Config, d: Dir, role: Role, g: Gen, announce: bool, o: Oracle, base: nat)
    requires Lists(o.listing, d.reg.peers.Keys)
    ensures var m := RemoveMove(cfg, d, role, g, announce, o, base);
            && m.task.role == role
            && ActCost(m.task.act) + 6 * |m.kids| + Budget(|m.dir.reg.peers|) < 1 + Budget(|d.reg.peers|)
  {
    if Removable(d, g) {
      var d' := RemoveGen(d, g);
      RemovedPeers(d, g);
      SnapshotSize(d'.reg, o.listing, d.reg.peers.Keys);
      NextBatchCost(cfg, d'.reg, Snapshot(d'.reg, o.listing), Skip(g.nick, Some(g.conn)), base);
    }
    hide RemoveGen, NextBatch, Snapshot, Removable, Lists;
  }

  lemma SharedCost(cfg: Config, d: Dir, task: Task, base: nat, o: Oracle)
    requires Lists(o.listing, d.reg.peers.Keys) && InSharedCall(task.act)
      && !(task.act.Writing? && task.act.want.ToRemove?)
    ensures var m := SharedMove(cfg, d, task, base, o);
            && m.task.role == task.role
            && ActCost(m.task.act) + 6 * |m.kids| + Budget(|m.dir.reg.peers|)
               < ActCost(task.act) + Budget(|d.reg.peers|)
  {
    if task.act.Gathering? {
      NextBatchCost(cfg, d.reg, task.act.rest, task.act.skip, base);
    } else if task.act.Waiting? && task.act.want.ToRemove? {
      RemoveCost(cfg, d, task.role, Gen(task.act.nick, task.act.want.conn), task.act.want.announce, o, base);
    }
    hide NextBatch, RemoveMove, Budget, Lists;
  }

  lemma SenderCost(d: Dir, g: Gen, stage: Stage, a: Act)
    requires SenderShape(g, stage, a) && !InSharedCall(a) && !stage.Done?
    ensures var m := SenderMove(d, g, stage, a);
            m.kids == [] && m.dir.reg == d.reg && Cost(m.task) < Cost(Task(Sender(g, stage), a))
  {
    hide Removable, IsHandshaked;
  }

  lemma MoveCost(cfg: Config, d: Dir, t: nat, task: Task, base: nat, o: Oracle)
    requires Shape(t, task, base) && Lists(o.listing, d.reg.peers.Keys) && !Over(task)
    requires task.role.Sender? || InSharedCall(task.act)
    ensures var m := MoveOf(cfg, d, t, task, base, o);
            Cost(m.task) + 6 * |m.kids| + Budget(|m.dir.reg.peers|) < Cost(task) + Budget(|d.reg.peers|)
  {
    if InSharedCall(task.act) {
      SharedCost(cfg, d, task, base, o);
    } else {
      SenderCost(d, task.role.target, task.role.stage, task.act);
    }
    hide SharedMove, SenderMove, Budget, Lists;
  }

  /** Every cascade step, whatever the writes return, brings the end of all cascades closer. */
  lemma CascadeDecreases(cfg: Config, s: State, t: nat, o: Oracle)
    requires Core(s) && Enabled(s, t, o) && CascadeStep(s, t)
    ensures Measure(Step(cfg, s, t, o)) < Measure(s)
  {
    var m := StepMove(cfg, s, t, o);
    assert Shape(t, s.tasks[t], |s.tasks|);
    MoveCost(cfg, s.dir, t, s.tasks[t], |s.tasks|, o);
    SumUpdate(Cost, s.tasks, t, m.task);
    SumAppend(Cost, s.tasks[t := m.task], Kids(m.kids));
    SumConstant(Cost, Kids(m.kids), 6);
    hide MoveOf, Budget, Core, Lists, ActCost;
  }

  /** A run that consists of cascade steps only. */
  ghost predicate CascadeRun(cfg: Config, states: seq<State>, ts: seq<nat>, os: seq<Oracle>) {
    && |states| == |ts| + 1 == |os| + 1
    && (forall i :: 0 <= i < |ts| ==> CascadeAt(cfg, states[i], ts[i], os[i], states[i + 1]))
  }

  ghost predicate CascadeAt(cfg: Config, s: State, t: nat, o: Oracle, s': State) {
    Enabled(s, t, o) && CascadeStep(s, t) && s' == Step(cfg, s, t, o)
  }

  /** Broadcast, failed send, removal, disconnect broadcast, and so on: from any state this ends within
      `Measure` steps, for every outcome of the writes and every interleaving, unless somebody registers
      or sends a message. */
  lemma {:induction false} CascadesTerminate(cfg: Config, states: seq<State>, ts: seq<nat>, os: seq<Oracle>)
    requires CascadeRun(cfg, states, ts, os) && Core(states[0])
    ensures Core(states[|ts|]) && |ts| + Measure(states[|ts|]) <= Measure(states[0])
    decreases |ts|
  {
    hide Core, Measure, CascadeAt;
    if |ts| > 0 {
      CascadeAdvances(cfg, states[0], ts[0], os[0], states[1]);
      CascadesTerminate(cfg, states[1..], ts[1..], os[1..]);
    }
  }

  lemma CascadeAdvances(cfg: Config, s: State, t: nat, o: Oracle, s': State)
    requires Core(s) && CascadeAt(cfg, s, t, o, s')
    ensures Core(s') && Measure(s') < Measure(s)
  {
    hide Core, Measure, Enabled;
    StepKeepsCore(cfg, s, t, o);
    CascadeDecreases(cfg, s, t, o);
  }
}
