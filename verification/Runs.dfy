/** The properties of the directory server over every run and every reachable state. */
module Runs {
  import opened Types
  import opened MessageRouter
  import opened Directory
  import opened Protocol
  import opened Shapes
  import opened Frames
  import opened Ownership
  import opened Announcements
  import opened Admission
  import opened Sweeps
  import opened Isolation

  ghost predicate Inv(cfg: Config, s: State) {
    && Core(s) && Told(s) && PendingExact(cfg, s) && PoolServed(s) && HeartOk(cfg, s) && OwnersPooled(s)
    && s.dir.reg.maxPeers == cfg.maxPeers
    && (cfg.policy.mode.RequireVerified? ==> AllVerified(s))
  }

  // ---- a new connection ----

  /** Adding a handler that owns nothing, and perhaps a pool entry for it. */
  ghost predicate Grown(s: State, s': State) {
    && |s'.tasks| == |s.tasks| + 1 && (forall t :: 0 <= t < |s.tasks| ==> s'.tasks[t] == s.tasks[t])
    && (s'.tasks[|s.tasks|] == Task(Handler(Closing), Running) || s'.tasks[|s.tasks|] == Task(Handler(Hello), Running))
    && s'.dir == s.dir.(pool := s'.dir.pool) && s.dir.pool <= s'.dir.pool
    && s'.locks == s.locks && s'.told == s.told && s'.seen == s.seen
  }

  lemma ConnectGrows(cfg: Config, s: State)
    ensures Grown(s, Connect(cfg, s))
  {
  }

  lemma GrownShaped(s: State, s': State)
    requires Shaped(s) && Grown(s, s') && |s.tasks| > 0
    ensures Shaped(s')
  {
    forall t | 0 <= t < |s'.tasks| ensures Shape(t, s'.tasks[t], |s'.tasks|) {
      if t < |s.tasks| { assert Shape(t, s.tasks[t], |s.tasks|); }
    }
  }

  lemma GrownConsistent(d: Dir, d': Dir)
    requires Consistent(d) && d' == d.(pool := d'.pool)
    ensures Consistent(d')
  {
  }

  lemma GrownOwners(s: State, s': State)
    requires Core(s) && Grown(s, s')
    ensures OwnersServed(s') && InfosServed(s')
  {
    hide Shaped, Consistent, Locked, WritesSafe;
    forall n | n in s'.dir.reg.owners ensures ServedBy(s'.tasks, n, s'.dir.reg.owners[n].conn) {
      assert ServedBy(s.tasks, n, s.dir.reg.owners[n].conn);
    }
  }

  lemma GrownLocked(s: State, s': State)
    requires Locked(s) && Grown(s, s')
    ensures Locked(s')
  {
  }

  lemma GrownWrites(s: State, s': State)
    requires WritesSafe(s) && Grown(s, s')
    ensures WritesSafe(s')
  {
    forall t | 0 <= t < |s'.tasks| ensures WriteSafe(s'.dir, t, s'.tasks[t].act) {
      if t < |s.tasks| { assert WriteSafe(s.dir, t, s.tasks[t].act); }
    }
  }

  lemma GrownCore(s: State, s': State)
    requires Core(s) && Grown(s, s') && |s.tasks| > 0
    ensures Core(s')
  {
    GrownShaped(s, s');
    GrownConsistent(s.dir, s'.dir);
    GrownOwners(s, s');
    GrownLocked(s, s');
    GrownWrites(s, s');
    hide Shaped, Consistent, OwnersServed, InfosServed, Locked, WritesSafe;
  }

  lemma GrownTold(s: State, s': State)
    requires Told(s) && Grown(s, s') && InfosServed(s)
    ensures Told(s')
  {
    assert forall c :: Owned(s'.dir, c) == Owned(s.dir, c) && Shows(s'.dir, c) == Shows(s.dir, c);
    forall t, c ensures DebtOk(s', t, c) { assert DebtOk(s, t, c); }
    forall t, u, c ensures OneDebtor(s', t, u, c) { assert OneDebtor(s, t, u, c); }
    forall c | c in s'.seen ensures Owned(s'.dir, c) || s'.told[c] == 1 || SomeoneOwes(s'.tasks, c) {
      if SomeoneOwes(s.tasks, c) {
        var t :| 0 <= t < |s.tasks| && Owes(s.tasks[t], c);
        assert Owes(s'.tasks[t], c);
      }
    }
    hide Owned, Shows;
  }

  lemma GrownPooled(s: State, s': State)
    requires OwnersPooled(s) && Grown(s, s') && (s'.tasks[|s.tasks|].role.phase.Hello? ==> |s.tasks| in s'.dir.pool)
    ensures OwnersPooled(s')
  {
    forall t | 0 <= t < |s'.tasks| ensures Opened(s'.dir, t, s'.tasks[t]) && ReapSafe(s'.dir, s'.tasks[t]) {
      if t < |s.tasks| { assert Opened(s.dir, t, s.tasks[t]) && ReapSafe(s.dir, s.tasks[t]); }
    }
  }

  lemma NotIdle(cfg: Config, s: State)
    requires Core(s) && HeartOk(cfg, s)
    ensures |s.tasks| > 0 && InfosServed(s)
  {
  }

  lemma ConnectKeepsInv(cfg: Config, s: State)
    requires Inv(cfg, s)
    ensures Inv(cfg, Connect(cfg, s))
  {
    hide Core, Told, OwnersPooled, PoolServed, HeartOk, AllVerified;
    var s' := Connect(cfg, s);
    NotIdle(cfg, s);
    ConnectGrows(cfg, s);
    GrownCore(s, s');
    GrownTold(s, s');
    GrownPooled(s, s');
    SumAppend(HandshakeWeight, s.tasks, s'.tasks[|s.tasks|..]);
    assert s'.tasks == s.tasks + s'.tasks[|s.tasks|..];
    assert SumBy(HandshakeWeight, s'.tasks[|s.tasks|..]) == HandshakeWeight(s'.tasks[|s.tasks|]);
    ConnectRest(cfg, s);
  }

  lemma ConnectRest(cfg: Config, s: State)
    requires PoolServed(s) && HeartOk(cfg, s)
    ensures var s' := Connect(cfg, s); PoolServed(s') && HeartOk(cfg, s') && (AllVerified(s) ==> AllVerified(s'))
  {
    var s' := Connect(cfg, s);
    ConnectGrows(cfg, s);
    forall c | c in s'.dir.pool ensures Pooled(s'.tasks, c) {
      if c in s.dir.pool { assert Pooled(s.tasks, c); }
    }
    if AllVerified(s) {
      forall t | 0 <= t < |s'.tasks| ensures VerifiedTask(s'.tasks[t]) {
        if t < |s.tasks| { assert VerifiedTask(s.tasks[t]); }
      }
    }
    SweepStable(cfg, s.dir, s'.dir, s.tasks[0].role.sweep, s.tasks[0].act);
    hide SweepOk;
  }

  lemma StepKeepsInv(cfg: Config, s: State, t: nat, o: Oracle)
    requires Inv(cfg, s) && Enabled(s, t, o)
    ensures Inv(cfg, Step(cfg, s, t, o))
  {
    StepKeepsCore(cfg, s, t, o);
    StepKeepsTold(cfg, s, t, o);
    StepKeepsPending(cfg, s, t, o);
    StepKeepsPool(cfg, s, t, o);
    StepKeepsHeart(cfg, s, t, o);
    StepKeepsPooled(cfg, s, t, o);
    if cfg.policy.mode.RequireVerified? { StepKeepsVerified(cfg, s, t, o); }
    StepKeepsLimit(cfg, s, t, o);
    hide Step, Told, PendingExact, PoolServed, HeartOk, OwnersPooled, AllVerified, Consistent, Locked, OwnersServed,
      InfosServed, WritesSafe, Enabled, Shaped;
  }

  lemma StepKeepsLimit(cfg: Config, s: State, t: nat, o: Oracle)
    requires Core(s) && Enabled(s, t, o)
    ensures Step(cfg, s, t, o).dir.reg.maxPeers == s.dir.reg.maxPeers
  {
    assert Shape(t, s.tasks[t], |s.tasks|);
    EarlyUnregistered(s, t);
    MoveDoes(cfg, s.dir, t, s.tasks[t], |s.tasks|, o);
    DoFramed(s.dir, t, s.tasks[t], StepEffect(cfg, s, t, o), o);
    hide MoveOf, Do, EffectOf;
  }

  lemma InitInv(cfg: Config)
    ensures Inv(cfg, Init(cfg))
  {
  }

  /** Every state of every run satisfies the invariant. */
  lemma {:induction false} RunInv(cfg: Config, states: seq<State>, events: seq<Event>, i: nat)
    requires IsRun(cfg, states, events) && i < |states|
    ensures Inv(cfg, states[i])
  {
    hide Inv, Init, Connect, Step, Enabled;
    if i == 0 {
      InitInv(cfg);
    } else {
      RunInv(cfg, states, events, i - 1);
      assert StepAt(cfg, states, events, i - 1);
      NextKeepsInv(cfg, states[i - 1], events[i - 1], states[i]);
    }
  }

  lemma RunMapsAgree(cfg: Config, states: seq<State>, events: seq<Event>, i: nat)
    requires IsRun(cfg, states, events) && i < |states|
    ensures MapsAgree(states[i].dir)
  {
    hide IsRun, Told, PendingExact, PoolServed, HeartOk, OwnersPooled, Shaped, Locked, OwnersServed, InfosServed,
      WritesSafe, TablesLive, BoundedOffers;
    RunInv(cfg, states, events, i);
  }

  lemma NextKeepsInv(cfg: Config, s: State, e: Event, s': State)
    requires Inv(cfg, s) && Next(cfg, s, e, s')
    ensures Inv(cfg, s')
  {
    hide Inv, Connect, Enabled;
    match e
    case Arrive => ConnectKeepsInv(cfg, s);
    case Run(t, o) => StepKeepsInv(cfg, s, t, o);
  }
}
