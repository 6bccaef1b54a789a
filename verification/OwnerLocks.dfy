/** The weak dictionary of owner locks: a lock without users may vanish from it at any moment, and a nick
    without an entry gets a new lock. The transition system has one lock per nick instead. */
module OwnerLocks {
  import opened Types

  type LockId = nat
  type User = nat

  datatype Use = Use(nick: Nick, lock: LockId)

  /** `uses` holds the references that tasks keep; `made` counts the locks created so far. */
  datatype Locks = Locks(table: map<Nick, LockId>, uses: map<User, Use>, made: nat)

  datatype Op = Ask(user: User, nick: Nick) | Leave(user: User) | Collect(nick: Nick)

  predicate InUse(l: Locks, lock: LockId) {
    exists u :: u in l.uses && l.uses[u].lock == lock
  }

  function OwnerLock(l: Locks, user: User, n: Nick): (l': Locks) {
    if n in l.table then l.(uses := l.uses[user := Use(n, l.table[n])])
    else Locks(l.table[n := l.made], l.uses[user := Use(n, l.made)], l.made + 1)
  }

  function Apply(l: Locks, op: Op): (l': Locks) {
    match op
    case Ask(u, n) => OwnerLock(l, u, n)
    case Leave(u) => l.(uses := l.uses - {u})
    case Collect(n) => if n in l.table && !InUse(l, l.table[n]) then l.(table := l.table - {n}) else l
  }

  function Run(l: Locks, ops: seq<Op>): (l': Locks)
    decreases |ops|
  {
    if ops == [] then l else Run(Apply(l, ops[0]), ops[1..])
  }

  ghost predicate Sound(l: Locks) {
    && (forall n :: n in l.table ==> l.table[n] < l.made)
    && (forall n, m :: n in l.table && m in l.table && l.table[n] == l.table[m] ==> n == m)
    && (forall u :: u in l.uses ==> l.uses[u].nick in l.table && l.table[l.uses[u].nick] == l.uses[u].lock)
  }

  lemma {:induction false} RunSound(l: Locks, ops: seq<Op>)
    requires Sound(l)
    ensures Sound(Run(l, ops))
    decreases |ops|
  {
    if ops != [] { RunSound(Apply(l, ops[0]), ops[1..]); }
  }

  /** However locks are asked for, left and collected, two users hold the same lock exactly when they asked
      for the same nick. */
  lemma OneLockPerNick(ops: seq<Op>, u: User, v: User)
    requires var l := Run(Locks(map[], map[], 0), ops); u in l.uses && v in l.uses
    ensures var l := Run(Locks(map[], map[], 0), ops);
            l.uses[u].lock == l.uses[v].lock <==> l.uses[u].nick == l.uses[v].nick
  {
    RunSound(Locks(map[], map[], 0), ops);
  }
}
