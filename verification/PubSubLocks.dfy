// Mutual exclusion and deadlock freedom of the four kinds of mutex.
module PubSubLocks {
  import opened Wrappers
  import opened PubSub

  /** The owner table says of each taken mutex which task holds it, and of no other. */
  ghost predicate Consistent(holds: Tid -> set<Lock>, owner: map<Lock, Tid>) {
    && (forall tid, lock | lock in holds(tid) :: lock in owner && owner[lock] == tid)
    && (forall lock | lock in owner :: lock in holds(owner[lock]))
  }

  ghost function HoldsOf(s: State): Tid -> set<Lock> { tid => Holds(s, tid) }

  /** The owner of a taken mutex is the one task whose program point holds it; indices are in range. */
  ghost predicate LockInv(s: State) {
    && Consistent(HoldsOf(s), s.owner)
    && (forall c | 0 <= c < |s.clients| :: InBounds(s.clients[c], |s.topics|))
  }

  lemma OwnerIs(holds: Tid -> set<Lock>, owner: map<Lock, Tid>, tid: Tid, lock: Lock)
    requires Consistent(holds, owner) && lock in holds(tid)
    ensures lock in owner && owner[lock] == tid
  {
  }

  /** No two tasks are ever inside sections guarded by the same mutex. */
  lemma MutualExclusion(s: State, a: Tid, b: Tid)
    requires LockInv(s) && a != b
    ensures Holds(s, a) !! Holds(s, b)
  {
    var holds := HoldsOf(s);
    forall lock | lock in holds(a) && lock in holds(b) ensures false {
      OwnerIs(holds, s.owner, a, lock);
      OwnerIs(holds, s.owner, b, lock);
    }
    assert holds(a) == Holds(s, a) && holds(b) == Holds(s, b);
  }

  datatype Effect = Nothing | Takes(lock: Lock) | Gives(lock: Lock)

  /** One task changes what it holds, in step with the owner table. */
  ghost predicate Move(holds: Tid -> set<Lock>, holds': Tid -> set<Lock>, owner: map<Lock, Tid>,
                       owner': map<Lock, Tid>, tid: Tid, e: Effect) {
    && (forall t | t != tid :: holds'(t) == holds(t))
    && match e
       case Nothing => holds'(tid) == holds(tid) && owner' == owner
       case Takes(lock) =>
         lock !in owner && holds'(tid) == holds(tid) + {lock} && owner' == owner[lock := tid]
       case Gives(lock) =>
         lock in holds(tid) && holds'(tid) == holds(tid) - {lock} && owner' == owner - {lock}
  }

  lemma MoveKeeps(holds: Tid -> set<Lock>, holds': Tid -> set<Lock>, owner: map<Lock, Tid>,
                  owner': map<Lock, Tid>, tid: Tid, e: Effect)
    requires Consistent(holds, owner) && Move(holds, holds', owner, owner', tid, e)
    ensures Consistent(holds', owner')
  {
    forall t, lock | lock in holds'(t) ensures lock in owner' && owner'[lock] == t {
      if t != tid {
        assert lock in holds(t);
        assert owner[lock] == t;
        if e.Gives? { assert owner[e.lock] == tid; }
      } else if !e.Takes? || lock != e.lock {
        assert lock in holds(tid);
      }
    }
    forall lock | lock in owner' ensures lock in holds'(owner'[lock]) {
      if !e.Takes? || lock != e.lock {
        assert lock in holds(owner[lock]);
      }
    }
  }

  ghost predicate LockMove(s: State, s': State, tid: Tid, e: Effect) {
    Move(HoldsOf(s), HoldsOf(s'), s.owner, s'.owner, tid, e)
  }

  /** What the next step of a task does to the mutexes. */
  function EffectOf(s: State, tid: Tid): Effect {
    if Wants(s, tid).Some? then Takes(Wants(s, tid).value) else
      match tid
      case Client(c) =>
        if c >= |s.clients| then Nothing else
          (match s.clients[c]
           case InPool(_, _) => Gives(PoolLock)
           case LeaveTopic(i, _) => Gives(TopicLock(i))
           case LeaveTopics(_, _) => Gives(TopicsLock)
           case LeaveHandler(_) => Gives(HandlerLock)
           case _ => Nothing)
      case Task(i) =>
        if i >= |s.topics| then Nothing else
          (match s.topics[i].task
           case InFree(_) => Gives(PoolLock)
           case Unlocking => Gives(TopicLock(i))
           case _ => Nothing)
  }

  /** Only client c's program point differs, as far as mutexes and indices are concerned. */
  ghost predicate OnlyClient(s: State, s': State, c: nat, pc: Pc) {
    && c < |s.clients| && s'.clients == s.clients[c := pc]
    && |s'.topics| >= |s.topics|
    && (forall i | 0 <= i < |s.topics| :: s'.topics[i].task == s.topics[i].task)
    && (forall i | |s.topics| <= i < |s'.topics| :: s'.topics[i].task == Receiving)
    && InBounds(pc, |s'.topics|)
  }

  lemma OnlyClientKeeps(s: State, s': State, c: nat, pc: Pc, e: Effect)
    requires LockInv(s) && OnlyClient(s, s', c, pc)
    requires match e
      case Nothing => PcHolds(pc) == PcHolds(s.clients[c]) && s'.owner == s.owner
      case Takes(lock) =>
        lock !in s.owner && PcHolds(pc) == PcHolds(s.clients[c]) + {lock} && s'.owner == s.owner[lock := Client(c)]
      case Gives(lock) =>
        && lock in PcHolds(s.clients[c])
        && PcHolds(pc) == PcHolds(s.clients[c]) - {lock} && s'.owner == s.owner - {lock}
    ensures LockInv(s') && LockMove(s, s', Client(c), e)
  {
    var holds, holds' := HoldsOf(s), HoldsOf(s');
    forall t | t != Client(c) ensures holds'(t) == holds(t) {}
    forall d | 0 <= d < |s'.clients| ensures InBounds(s'.clients[d], |s'.topics|) {
      if d != c { assert InBounds(s.clients[d], |s.topics|); }
    }
    MoveKeeps(holds, holds', s.owner, s'.owner, Client(c), e);
  }

  /** A pool call returns to a point that holds what its caller held around the call. */
  lemma ResumeHolds(s: State, c: nat, k: Cont, r: Option<Ptr>)
    requires c < |s.clients| && ContInBounds(k, |s.topics|)
    ensures var s' := Resume(s, c, k, r);
      && OnlyClient(s, s', c, s'.clients[c])
      && PcHolds(s'.clients[c]) == ContHolds(k) && s'.owner == s.owner
  {
  }

  lemma PoolCallMoves(s: State, c: nat, env: Env)
    requires Enabled(s, Run(c, env)) && s.clients[c].InPool? && PoolLock in PcHolds(s.clients[c])
    ensures var s' := Next(s, Run(c, env));
      && OnlyClient(s, s', c, s'.clients[c])
      && PcHolds(s'.clients[c]) == PcHolds(s.clients[c]) - {PoolLock} && s'.owner == s.owner - {PoolLock}
  {
    var InPool(op, k) := s.clients[c];
    match op
    case Malloc(size) =>
      var (pool, r) := BlockList.Alloc(s.pool, HEADER, size);
      ResumeHolds(Give(s.(pool := pool), PoolLock), c, k, r);
    case Release(p) =>
      ResumeHolds(Give(s.(pool := BlockList.Free(s.pool, HEADER, p)), PoolLock), c, k, None);
  }

  ghost predicate SameHolds(s: State, s': State, c: nat)
    requires c < |s.clients|
  {
    && c < |s'.clients| && OnlyClient(s, s', c, s'.clients[c])
    && PcHolds(s'.clients[c]) == PcHolds(s.clients[c]) && s'.owner == s.owner
  }

  lemma PublishMoves(s: State, c: nat, call: Call, env: Env)
    requires c < |s.clients| && s.clients[c] == InTopics(call) && call.Publish?
    ensures SameHolds(s, UnderTopics(s, c, call, env), c)
  {
  }

  lemma UnderTopicsMoves(s: State, c: nat, call: Call, env: Env)
    requires c < |s.clients| && s.clients[c] == InTopics(call)
    ensures SameHolds(s, UnderTopics(s, c, call, env), c)
  {
    assert {TopicsLock} + {} == {TopicsLock};
    if call.Publish? { PublishMoves(s, c, call, env); }
  }

  lemma UnderTopicMoves(s: State, c: nat, i: nat, call: Call)
    requires c < |s.clients| && s.clients[c] == InTopic(i, call) && InBounds(s.clients[c], |s.topics|)
    ensures SameHolds(s, UnderTopic(s, c, i, call), c)
  {
  }

  lemma SendMoves(s: State, c: nat, job: Job, i: nat, data: Option<Ptr>, now: nat)
    requires c < |s.clients| && s.clients[c] == Sending(job, i, data) && i < |s.topics|
    ensures SameHolds(s, Send(s, c, job, i, data, now), c)
  {
  }

  /** Inside a critical section the mutexes held do not change. */
  lemma BodyMoves(s: State, c: nat, env: Env)
    requires Enabled(s, Run(c, env)) && EffectOf(s, Client(c)).Nothing?
    ensures SameHolds(s, Next(s, Run(c, env)), c)
  {
    match s.clients[c]
    case InTopics(call) => UnderTopicsMoves(s, c, call, env);
    case InTopic(i, call) => UnderTopicMoves(s, c, i, call);
    case Sending(job, i, data) => SendMoves(s, c, job, i, data, env.now);
    case _ =>
  }

  lemma ClientKeepsLocks(s: State, c: nat, env: Env)
    requires LockInv(s) && Enabled(s, Run(c, env))
    ensures LockInv(Next(s, Run(c, env)))
    ensures LockMove(s, Next(s, Run(c, env)), Client(c), EffectOf(s, Client(c)))
  {
    var s' := Next(s, Run(c, env));
    var pc, e := s.clients[c], EffectOf(s, Client(c));
    match e {
      case Nothing => BodyMoves(s, c, env);
      case Takes(lock) => assert PcHolds(s'.clients[c]) == PcHolds(pc) + {lock};
      case Gives(lock) =>
        if pc.InPool? { PoolCallMoves(s, c, env); }
        else { assert PcHolds(s'.clients[c]) == PcHolds(pc) - {lock}; }
    }
    OnlyClientKeeps(s, s', c, s'.clients[c], e);
  }

  lemma TaskMoves(s: State, i: nat)
    requires Enabled(s, RunTask(i)) && TaskHolds(i, s.topics[i].task) <= s.owner.Keys
    ensures var s' := Next(s, RunTask(i));
      var before, after, e := TaskHolds(i, s.topics[i].task), TaskHolds(i, s'.topics[i].task), EffectOf(s, Task(i));
      && s'.clients == s.clients && |s'.topics| == |s.topics|
      && (forall j | 0 <= j < |s.topics| && j != i :: s'.topics[j] == s.topics[j])
      && match e
         case Nothing => after == before && s'.owner == s.owner
         case Takes(lock) => lock !in s.owner && after == before + {lock} && s'.owner == s.owner[lock := Task(i)]
         case Gives(lock) => lock in before && after == before - {lock} && s'.owner == s.owner - {lock}
  {
  }

  lemma TaskKeepsLocks(s: State, i: nat)
    requires LockInv(s) && Enabled(s, RunTask(i))
    ensures LockInv(Next(s, RunTask(i)))
    ensures LockMove(s, Next(s, RunTask(i)), Task(i), EffectOf(s, Task(i)))
  {
    var s' := Next(s, RunTask(i));
    var holds, holds' := HoldsOf(s), HoldsOf(s');
    forall lock | lock in TaskHolds(i, s.topics[i].task) ensures lock in s.owner {
      assert lock in holds(Task(i));
    }
    TaskMoves(s, i);
    forall t | t != Task(i) ensures holds'(t) == holds(t) {}
    MoveKeeps(holds, holds', s.owner, s'.owner, Task(i), EffectOf(s, Task(i)));
  }

  lemma StepKeepsLocks(s: State, a: Action)
    requires LockInv(s) && Enabled(s, a)
    ensures LockInv(Next(s, a))
  {
    var s' := Next(s, a);
    match a
    case Begin(c, request) =>
      OnlyClientKeeps(s, s', c, s'.clients[c], Nothing);
    case Fire(ticket) =>
      OnlyClientKeeps(s, s', 0, s'.clients[0], Nothing);
    case Run(c, env) => ClientKeepsLocks(s, c, env);
    case RunTask(i) => TaskKeepsLocks(s, i);
  }

  // ---------------------------------------------------------------- deadlock freedom

  /** The order in which every task takes its mutexes. */
  function Rank(lock: Lock): nat {
    match lock
    case HandlerLock => 0
    case TopicsLock => 1
    case TopicLock(_) => 2
    case PoolLock => 3
  }

  lemma LocksAreOrdered(s: State, tid: Tid)
    requires Wants(s, tid).Some?
    ensures forall lock | lock in Holds(s, tid) :: Rank(lock) < Rank(Wants(s, tid).value)
  {
  }

  ghost predicate CanStep(s: State, tid: Tid) {
    match tid
    case Client(c) => forall env :: Enabled(s, Run(c, env))
    case Task(i) => Enabled(s, RunTask(i))
  }

  /** Behind every blocked task there is one that can step: the last owner in the chain of waits. */
  lemma {:induction false} SomeoneCanStep(s: State, tid: Tid) returns (runner: Tid)
    requires LockInv(s) && Wants(s, tid).Some?
    ensures CanStep(s, runner)
    ensures runner == tid || Holds(s, runner) != {}
    decreases 3 - Rank(Wants(s, tid).value)
  {
    var lock := Wants(s, tid).value;
    if lock !in s.owner { return tid; }
    runner := s.owner[lock];
    var holds := HoldsOf(s);
    assert lock in holds(runner);
    if Wants(s, runner).Some? {
      LocksAreOrdered(s, runner);
      runner := SomeoneCanStep(s, runner);
    }
  }

  lemma {:induction false} LocksInRuns(s: State, run: seq<Action>)
    requires LockInv(s) && Legal(s, run)
    ensures LockInv(Exec(s, run))
    decreases |run|
  {
    if run != [] {
      StepKeepsLocks(s, run[0]);
      LocksInRuns(Next(s, run[0]), run[1..]);
    }
  }

  lemma BootLocks(clients: nat, retries: nat)
    ensures LockInv(Boot(clients, retries))
  {
  }

  /** In every reachable state in which some task waits for a mutex, some task can step. */
  lemma DeadlockFree(clients: nat, retries: nat, run: seq<Action>, waiting: Tid)
    requires Legal(Boot(clients, retries), run)
    requires Wants(Exec(Boot(clients, retries), run), waiting).Some?
    ensures exists runner :: CanStep(Exec(Boot(clients, retries), run), runner)
  {
    BootLocks(clients, retries);
    LocksInRuns(Boot(clients, retries), run);
    var runner := SomeoneCanStep(Exec(Boot(clients, retries), run), waiting);
  }
}
