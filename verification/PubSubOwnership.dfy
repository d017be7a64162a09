// Every live pool block has exactly one owner, in every interleaving.
module PubSubOwnership {
  import opened Wrappers
  import opened BlockList
  import opened PoolTheorems
  import opened PubSub

  /** How often the elements of xs refer to p. */
  function Sum<A>(xs: seq<A>, refs: (A, Ptr) -> nat, p: Ptr): nat {
    if xs == [] then 0 else refs(xs[0], p) + Sum(xs[1..], refs, p)
  }

  function Is(q: Ptr, p: Ptr): nat { if q == p then 1 else 0 }

  function Opt(q: Option<Ptr>, p: Ptr): nat { if q.Some? then Is(q.value, p) else 0 }

  function MsgRefs(m: Msg, p: Ptr): nat { Opt(m.data, p) }

  function SubscriberRefs(s: Subscriber, p: Ptr): nat { Is(s.node, p) }

  function PendingRefs(m: Pending, p: Ptr): nat { Is(m.node, p) + Is(m.data, p) }

  function TaskRefs(pc: TaskPc, p: Ptr): nat {
    match pc
    case Received(m) => MsgRefs(m, p)
    case Delivering(m, _, _) => MsgRefs(m, p)
    case WaitFree(q) => Is(q, p)
    case InFree(q) => Is(q, p)
    case _ => 0
  }

  function TopicRefs(t: Topic, p: Ptr): nat {
    Sum(t.subscribers, SubscriberRefs, p) + Sum(t.queue, MsgRefs, p) + TaskRefs(t.task, p)
  }

  function OpRefs(op: PoolCall, p: Ptr): nat { if op.Release? then Is(op.p, p) else 0 }

  function ContRefs(k: Cont, p: Ptr): nat {
    match k
    case PendingData(_, _, _, node) => Is(node, p)
    case PendingDataFreed(node) => Is(node, p)
    case _ => 0
  }

  function PcRefs(pc: Pc, p: Ptr): nat {
    match pc
    case WaitPool(op, k) => OpRefs(op, p) + ContRefs(k, p)
    case InPool(op, k) => OpRefs(op, p) + ContRefs(k, p)
    case Sending(_, _, data) => Opt(data, p)
    case MakeTimer(_, _, _, node, block) => Is(node, p) + Is(block, p)
    case _ => 0
  }

  /** How many places hold p: subscriber lists, queues, messages in flight, pending entries, calls under way. */
  function Owners(s: State, p: Ptr): nat {
    Sum(s.topics, TopicRefs, p) + Sum(s.clients, PcRefs, p) + Sum(s.handler.pending, PendingRefs, p)
  }

  ghost predicate IsLive(pool: Pool, p: Ptr) { p in Live(pool.blocks) }

  predicate Allocates(k: Cont) { k.PublishCopy? || k.SubscribeLink? || k.PendingStruct? || k.PendingData? }

  /** Only a caller that keeps the result asks the pool for a block. */
  predicate Matched(pc: Pc) {
    (pc.WaitPool? || pc.InPool?) && pc.op.Malloc? ==> Allocates(pc.k)
  }

  /** Every live block has exactly one owner, and nothing else is referred to. */
  ghost predicate OwnInv(s: State) {
    && Inv(s.pool, HEADER, POOL_SIZE)
    && (forall p :: Owners(s, p) == if IsLive(s.pool, p) then 1 else 0)
    && (forall c | 0 <= c < |s.clients| :: Matched(s.clients[c]))
  }

  // ---------------------------------------------------------------- sums

  lemma {:induction false} SumCat<A>(xs: seq<A>, ys: seq<A>, refs: (A, Ptr) -> nat, p: Ptr)
    ensures Sum(xs + ys, refs, p) == Sum(xs, refs, p) + Sum(ys, refs, p)
  {
    if xs == [] {
      assert xs + ys == ys;
    } else {
      assert (xs + ys)[1..] == xs[1..] + ys;
      SumCat(xs[1..], ys, refs, p);
    }
  }

  lemma SumCons<A>(x: A, xs: seq<A>, refs: (A, Ptr) -> nat, p: Ptr)
    ensures Sum([x] + xs, refs, p) == refs(x, p) + Sum(xs, refs, p)
    ensures Sum(xs + [x], refs, p) == refs(x, p) + Sum(xs, refs, p)
  {
    SumCat([x], xs, refs, p);
    SumCat(xs, [x], refs, p);
  }

  lemma SumAt<A>(xs: seq<A>, i: nat, refs: (A, Ptr) -> nat, p: Ptr)
    requires i < |xs|
    ensures Sum(xs, refs, p) == Sum(xs[..i] + xs[i + 1..], refs, p) + refs(xs[i], p)
  {
    assert xs == xs[..i] + ([xs[i]] + xs[i + 1..]);
    SumCat(xs[..i], [xs[i]] + xs[i + 1..], refs, p);
    SumCons(xs[i], xs[i + 1..], refs, p);
    SumCat(xs[..i], xs[i + 1..], refs, p);
  }

  lemma SumUpdate<A>(xs: seq<A>, i: nat, x: A, refs: (A, Ptr) -> nat, p: Ptr)
    requires i < |xs|
    ensures Sum(xs[i := x], refs, p) + refs(xs[i], p) == Sum(xs, refs, p) + refs(x, p)
    ensures refs(xs[i], p) <= Sum(xs, refs, p)
  {
    SumAt(xs, i, refs, p);
    SumAt(xs[i := x], i, refs, p);
    assert xs[i := x][..i] + xs[i := x][i + 1..] == xs[..i] + xs[i + 1..];
  }

  // ---------------------------------------------------------------- steps

  lemma ClientRefs(s: State, c: nat, pc: Pc, p: Ptr)
    requires c < |s.clients|
    ensures Owners(WithPc(s, c, pc), p) + PcRefs(s.clients[c], p) == Owners(s, p) + PcRefs(pc, p)
    ensures PcRefs(s.clients[c], p) <= Owners(s, p)
  {
    SumUpdate(s.clients, c, pc, PcRefs, p);
  }

  lemma OneTopicRefs(s: State, i: nat, t: Topic, p: Ptr)
    requires i < |s.topics|
    ensures Owners(WithTopic(s, i, t), p) + TopicRefs(s.topics[i], p) == Owners(s, p) + TopicRefs(t, p)
    ensures TopicRefs(s.topics[i], p) <= Owners(s, p)
  {
    SumUpdate(s.topics, i, t, TopicRefs, p);
  }

  /** Linking a subscriber or counting one down. */
  lemma ResumeListRefs(s: State, c: nat, k: Cont, r: Option<Ptr>, p: Ptr)
    requires c < |s.clients| && ContInBounds(k, |s.topics|)
    requires (k.SubscribeLink? && r.Some?) || (k.UnsubscribeDone? && r.None?)
    ensures Owners(Resume(s, c, k, r), p) + PcRefs(s.clients[c], p) == Owners(s, p) + ContRefs(k, p) + Opt(r, p)
    ensures Resume(s, c, k, r).pool == s.pool
  {
    var s' := Resume(s, c, k, r);
    var u := s'.topics[k.i];
    if k.SubscribeLink? { SumCons(u.subscribers[0], s.topics[k.i].subscribers, SubscriberRefs, p); }
    OneTopicRefs(s, k.i, u, p);
    ClientRefs(WithTopic(s, k.i, u), c, s'.clients[c], p);
  }

  /** The caller of a pool call keeps what it had and takes charge of the result. */
  lemma ResumeRefs(s: State, c: nat, k: Cont, r: Option<Ptr>, p: Ptr)
    requires c < |s.clients| && ContInBounds(k, |s.topics|)
    requires r.Some? ==> Allocates(k)
    ensures Owners(Resume(s, c, k, r), p) + PcRefs(s.clients[c], p) == Owners(s, p) + ContRefs(k, p) + Opt(r, p)
    ensures Resume(s, c, k, r).pool == s.pool
  {
    if (k.SubscribeLink? && r.Some?) || k.UnsubscribeDone? {
      ResumeListRefs(s, c, k, r, p);
    } else {
      ClientRefs(s, c, Resume(s, c, k, r).clients[c], p);
    }
  }

  lemma UnderTopicsRefs(s: State, c: nat, call: Call, env: Env, p: Ptr)
    requires c < |s.clients| && s.clients[c] == InTopics(call)
    ensures Owners(UnderTopics(s, c, call, env), p) == Owners(s, p)
  {
    var s' := UnderTopics(s, c, call, env);
    ClientRefs(s, c, s'.clients[c], p);
    if |s'.topics| > |s.topics| {
      SumCons(s'.topics[|s.topics|], s.topics, TopicRefs, p);
    }
  }

  lemma UnderTopicRefs(s: State, c: nat, i: nat, call: Call, p: Ptr)
    requires c < |s.clients| && i < |s.topics| && !call.Create? && !call.Publish?
    requires s.clients[c] == InTopic(i, call)
    ensures Owners(UnderTopic(s, c, i, call), p) == Owners(s, p)
  {
    var s' := UnderTopic(s, c, i, call);
    var t, u := s.topics[i], s'.topics[i];
    var at := Position(t.subscribers, call.callback);
    if call.Unsubscribe? && at.Some? {
      SumAt(t.subscribers, at.value, SubscriberRefs, p);
      OneTopicRefs(s, i, u, p);
      ClientRefs(WithTopic(s, i, u), c, s'.clients[c], p);
    } else {
      ClientRefs(s, c, s'.clients[c], p);
    }
  }

  /** The queue takes over what the message refers to. */
  lemma QueuedRefs(t: Topic, u: Topic, m: Msg, p: Ptr)
    requires u.subscribers == t.subscribers && u.task == t.task
    requires u.queue == [m] + t.queue || u.queue == t.queue + [m]
    ensures TopicRefs(u, p) == TopicRefs(t, p) + MsgRefs(m, p)
  {
    SumCons(m, t.queue, MsgRefs, p);
  }

  lemma AcceptedRefs(s: State, c: nat, job: Job, i: nat, data: Option<Ptr>, now: nat, p: Ptr)
    requires c < |s.clients| && i < |s.topics| && s.clients[c] == Sending(job, i, data)
    requires |s.topics[i].queue| < MAX_QUEUE_SIZE
    ensures Owners(Send(s, c, job, i, data, now), p) == Owners(s, p)
  {
    var s' := Send(s, c, job, i, data, now);
    var t, u := s.topics[i], s'.topics[i];
    QueuedRefs(t, u, Msg(Truncate(job.topic), data, |job.data|, job.priority, now, job.data, |t.accepted|), p);
    OneTopicRefs(s, i, u, p);
    ClientRefs(WithTopic(s, i, u), c, LeaveTopics(job.origin, Okay), p);
  }

  lemma SendRefs(s: State, c: nat, job: Job, i: nat, data: Option<Ptr>, now: nat, p: Ptr)
    requires c < |s.clients| && i < |s.topics| && s.clients[c] == Sending(job, i, data)
    ensures Owners(Send(s, c, job, i, data, now), p) == Owners(s, p)
  {
    if |s.topics[i].queue| < MAX_QUEUE_SIZE {
      AcceptedRefs(s, c, job, i, data, now, p);
    } else {
      ClientRefs(s, c, Send(s, c, job, i, data, now).clients[c], p);
    }
  }

  lemma StartRefs(s: State, c: nat, job: Job, id: nat, ticket: nat, node: Ptr, block: Ptr, granted: bool, p: Ptr)
    requires c < |s.clients| && s.clients[c] == MakeTimer(job, id, ticket, node, block)
    ensures Owners(StartRetrying(s, c, job, id, ticket, node, block, granted), p) == Owners(s, p)
  {
    var s' := StartRetrying(s, c, job, id, ticket, node, block, granted);
    ClientRefs(s, c, s'.clients[c], p);
    if granted {
      SumCons(s'.handler.pending[0], s.handler.pending, PendingRefs, p);
    }
  }

  lemma RetriedRefs(s: State, c: nat, ticket: nat, p: Ptr)
    requires c < |s.clients| && s.clients[c] == Retried(ticket)
    ensures Owners(WithPc(s.(handler := CountRetry(s.handler, ticket)), c, Idle(Okay)), p) == Owners(s, p)
  {
    var h := s.handler;
    if HasTicket(h.pending, ticket) {
      var k := PendingIndex(h.pending, ticket);
      SumUpdate(h.pending, k, CountRetry(h, ticket).pending[k], PendingRefs, p);
    }
    ClientRefs(s, c, Idle(Okay), p);
  }

  lemma FireRefs(s: State, ticket: nat, p: Ptr)
    requires 0 < |s.clients| && s.clients[0].Idle? && HasTicket(s.handler.pending, ticket)
    ensures Owners(FireTimer(s, ticket), p) == Owners(s, p)
  {
    var k := PendingIndex(s.handler.pending, ticket);
    var s' := FireTimer(s, ticket);
    SumUpdate(s.handler.pending, k, s'.handler.pending[k], PendingRefs, p);
    ClientRefs(s, 0, s'.clients[0], p);
  }

  lemma DequeueRefs(t: Topic, m: Msg, p: Ptr)
    requires t.queue != [] && t.task.Receiving? && m == t.queue[0]
    ensures TopicRefs(t.(task := Received(m), queue := t.queue[1..]), p) == TopicRefs(t, p)
  {
    assert t.queue == [m] + t.queue[1..];
    SumCons(m, t.queue[1..], MsgRefs, p);
  }

  lemma TaskRefsKept(s: State, i: nat, p: Ptr)
    requires Enabled(s, RunTask(i)) && !s.topics[i].task.InFree?
    ensures Owners(StepTask(s, i), p) == Owners(s, p)
  {
    var t := s.topics[i];
    var u := StepTask(s, i).topics[i];
    if t.task.Receiving? { DequeueRefs(t, t.queue[0], p); }
    assert TopicRefs(u, p) == TopicRefs(t, p);
    OneTopicRefs(s, i, u, p);
  }

  // ---------------------------------------------------------------- pool calls

  /** memory_pool_free of an owned pointer hits a live block and leaves it to nobody. */
  lemma FreeBalances(s: State, p: Ptr)
    requires OwnInv(s) && Owners(s, p) > 0
    ensures IsLive(s.pool, p)
    ensures var pool := BlockList.Free(s.pool, HEADER, p);
      && Inv(pool, HEADER, POOL_SIZE)
      && forall q :: IsLive(pool, q) <==> IsLive(s.pool, q) && q != p
  {
    FreeKeeps(s.pool, HEADER, POOL_SIZE, p);
  }

  /** memory_pool_alloc grants a block nobody refers to. */
  lemma MallocBalances(s: State, size: nat)
    requires OwnInv(s)
    ensures var (pool, r) := Alloc(s.pool, HEADER, size);
      && Inv(pool, HEADER, POOL_SIZE)
      && (forall q :: IsLive(pool, q) <==> IsLive(s.pool, q) || r == Some(q))
      && (r.Some? ==> Owners(s, r.value) == 0 && r.value.size >= RoundUp(size))
  {
    AllocKeeps(s.pool, HEADER, POOL_SIZE, size);
  }

  lemma MallocOwned(s: State, c: nat, size: nat, k: Cont)
    requires OwnInv(s) && c < |s.clients| && s.clients[c] == InPool(Malloc(size), k)
    requires ContInBounds(k, |s.topics|)
    ensures var s' := CallPool(s, c, Malloc(size), k);
      && Inv(s'.pool, HEADER, POOL_SIZE)
      && forall p :: Owners(s', p) == if IsLive(s'.pool, p) then 1 else 0
  {
    assert Matched(s.clients[c]);
    var (pool, r) := Alloc(s.pool, HEADER, size);
    var t := Give(s.(pool := pool), PoolLock);
    MallocBalances(s, size);
    forall p ensures Owners(Resume(t, c, k, r), p) == if IsLive(pool, p) then 1 else 0 {
      ResumeRefs(t, c, k, r, p);
      assert Owners(t, p) == Owners(s, p);
    }
    ResumeRefs(t, c, k, r, Block(0, 0, true));
  }

  lemma ReleaseOwned(s: State, c: nat, q: Ptr, k: Cont)
    requires OwnInv(s) && c < |s.clients| && s.clients[c] == InPool(Release(q), k)
    requires ContInBounds(k, |s.topics|)
    ensures var s' := CallPool(s, c, Release(q), k);
      && Inv(s'.pool, HEADER, POOL_SIZE)
      && forall p :: Owners(s', p) == if IsLive(s'.pool, p) then 1 else 0
  {
    var pool := BlockList.Free(s.pool, HEADER, q);
    var t := Give(s.(pool := pool), PoolLock);
    ClientRefs(s, c, Idle(Okay), q);
    FreeBalances(s, q);
    forall p ensures Owners(Resume(t, c, k, None), p) == if IsLive(pool, p) then 1 else 0 {
      ResumeRefs(t, c, k, None, p);
      assert Owners(t, p) == Owners(s, p);
    }
    ResumeRefs(t, c, k, None, q);
  }

  lemma TaskFreeOwned(s: State, i: nat)
    requires OwnInv(s) && i < |s.topics| && s.topics[i].task.InFree?
    ensures OwnInv(StepTask(s, i))
  {
    var t := s.topics[i];
    var q, u := t.task.p, t.(task := Unlocking);
    OneTopicRefs(s, i, u, q);
    FreeBalances(s, q);
    var s' := StepTask(s, i);
    forall p ensures Owners(s', p) == if IsLive(s'.pool, p) then 1 else 0 {
      OneTopicRefs(s, i, u, p);
      assert Owners(s', p) == Owners(WithTopic(s, i, u), p);
    }
  }

  // ---------------------------------------------------------------- every step

  /** Steps that only take or give a mutex, or count an id. */
  predicate Plain(pc: Pc) {
    !pc.InPool? && !pc.InTopics? && !pc.InTopic? && !pc.Sending? && !pc.MakeTimer? && !pc.Retried? && !pc.Idle?
  }

  lemma PlainRefs(s: State, c: nat, env: Env, p: Ptr)
    requires Enabled(s, Run(c, env)) && Plain(s.clients[c])
    ensures Owners(RunClient(s, c, env), p) == Owners(s, p)
  {
    var s' := RunClient(s, c, env);
    assert PcRefs(s'.clients[c], p) == PcRefs(s.clients[c], p);
    ClientRefs(s, c, s'.clients[c], p);
  }

  /** Outside the pool, pointers move between owners; none is added, dropped or copied. */
  lemma QuietRefs(s: State, c: nat, env: Env, p: Ptr)
    requires Enabled(s, Run(c, env)) && !s.clients[c].InPool?
    ensures Owners(RunClient(s, c, env), p) == Owners(s, p)
  {
    var pc := s.clients[c];
    if Plain(pc) { PlainRefs(s, c, env, p); }
    else if pc.InTopics? { UnderTopicsRefs(s, c, pc.call, env, p); }
    else if pc.InTopic? { UnderTopicRefs(s, c, pc.i, pc.call, p); }
    else if pc.Sending? { SendRefs(s, c, pc.job, pc.i, pc.data, env.now, p); }
    else if pc.MakeTimer? { StartRefs(s, c, pc.job, pc.id, pc.ticket, pc.node, pc.block, env.granted, p); }
    else { RetriedRefs(s, c, pc.ticket, p); }
  }

  lemma QuietPool(s: State, c: nat, env: Env)
    requires Enabled(s, Run(c, env)) && !s.clients[c].InPool?
    ensures RunClient(s, c, env).pool == s.pool
  {
  }

  /** Client c moved to a point that is Matched, the other clients did not move. */
  predicate MovedMatched(s: State, s': State, c: nat)
    requires c < |s.clients|
  {
    c < |s'.clients| && s'.clients == s.clients[c := s'.clients[c]] && Matched(s'.clients[c])
  }

  lemma ResumeMatched(s: State, c: nat, k: Cont, r: Option<Ptr>)
    requires c < |s.clients| && ContInBounds(k, |s.topics|)
    ensures MovedMatched(s, Resume(s, c, k, r), c)
  {
  }

  lemma PoolCallMatched(s: State, c: nat, op: PoolCall, k: Cont)
    requires c < |s.clients| && ContInBounds(k, |s.topics|)
    ensures MovedMatched(s, CallPool(s, c, op, k), c)
  {
    match op
    case Malloc(size) =>
      var (pool, r) := Alloc(s.pool, HEADER, size);
      ResumeMatched(Give(s.(pool := pool), PoolLock), c, k, r);
    case Release(p) =>
      ResumeMatched(Give(s.(pool := BlockList.Free(s.pool, HEADER, p)), PoolLock), c, k, None);
  }

  lemma UnderTopicsMatched(s: State, c: nat, call: Call, env: Env)
    requires c < |s.clients|
    ensures MovedMatched(s, UnderTopics(s, c, call, env), c)
  {
  }

  lemma UnderTopicMatched(s: State, c: nat, i: nat, call: Call)
    requires c < |s.clients| && i < |s.topics| && !call.Create? && !call.Publish?
    ensures MovedMatched(s, UnderTopic(s, c, i, call), c)
  {
  }

  lemma ClientMatched(s: State, c: nat, env: Env)
    requires Enabled(s, Run(c, env)) && Matched(s.clients[c])
    ensures MovedMatched(s, RunClient(s, c, env), c)
  {
    var pc := s.clients[c];
    if pc.InPool? { PoolCallMatched(s, c, pc.op, pc.k); }
    else if pc.InTopics? { UnderTopicsMatched(s, c, pc.call, env); }
    else if pc.InTopic? { UnderTopicMatched(s, c, pc.i, pc.call); }
  }

  lemma StaysMatched(s: State, a: Action)
    requires Enabled(s, a) && forall c | 0 <= c < |s.clients| :: Matched(s.clients[c])
    ensures forall c | 0 <= c < |Next(s, a).clients| :: Matched(Next(s, a).clients[c])
  {
    if a.Run? { ClientMatched(s, a.c, a.env); }
    else if a.RunTask? { assert StepTask(s, a.t).clients == s.clients; }
  }

  lemma StepKeepsOwners(s: State, a: Action)
    requires OwnInv(s) && Enabled(s, a)
    ensures OwnInv(Next(s, a))
  {
    var s' := Next(s, a);
    StaysMatched(s, a);
    match a {
      case Begin(c, request) =>
        forall p ensures Owners(s', p) == Owners(s, p) { ClientRefs(s, c, BeginPc(request), p); }
      case Fire(ticket) =>
        forall p ensures Owners(s', p) == Owners(s, p) { FireRefs(s, ticket, p); }
      case Run(c, env) =>
        if s.clients[c].InPool? {
          var InPool(op, k) := s.clients[c];
          match op
          case Malloc(size) => MallocOwned(s, c, size, k);
          case Release(q) => ReleaseOwned(s, c, q, k);
        } else {
          QuietPool(s, c, env);
          forall p ensures Owners(s', p) == Owners(s, p) { QuietRefs(s, c, env, p); }
        }
      case RunTask(i) =>
        if s.topics[i].task.InFree? {
          TaskFreeOwned(s, i);
        } else {
          forall p ensures Owners(s', p) == Owners(s, p) { TaskRefsKept(s, i, p); }
        }
    }
  }

  lemma BootOwners(clients: nat, retries: nat)
    ensures OwnInv(Boot(clients, retries))
  {
    var s := Boot(clients, retries);
    forall p ensures Owners(s, p) == 0 { IdleRefs(s.clients, p); }
  }

  lemma {:induction false} IdleRefs(pcs: seq<Pc>, p: Ptr)
    requires forall pc | pc in pcs :: pc.Idle?
    ensures Sum(pcs, PcRefs, p) == 0
  {
    if pcs != [] {
      assert pcs[0] in pcs;
      IdleRefs(pcs[1..], p);
    }
  }

  lemma {:induction false} OwnersInRuns(s: State, run: seq<Action>)
    requires OwnInv(s) && Legal(s, run)
    ensures OwnInv(Exec(s, run))
    decreases |run|
  {
    if run != [] {
      StepKeepsOwners(s, run[0]);
      OwnersInRuns(Next(s, run[0]), run[1..]);
    }
  }

  /** In every interleaving each live block has exactly one owner: no leak, no sharing, no stale pointer. */
  lemma ExactlyOneOwner(clients: nat, retries: nat, run: seq<Action>, p: Ptr)
    requires Legal(Boot(clients, retries), run)
    ensures var s := Exec(Boot(clients, retries), run);
      Owners(s, p) == if IsLive(s.pool, p) then 1 else 0
  {
    BootOwners(clients, retries);
    OwnersInRuns(Boot(clients, retries), run);
  }

  /** Every call of memory_pool_free, from a client or a topic task, is about a block that is live. */
  lemma FreesAreOfLiveBlocks(clients: nat, retries: nat, run: seq<Action>, tid: Tid, p: Ptr)
    requires Legal(Boot(clients, retries), run)
    requires var s := Exec(Boot(clients, retries), run);
      match tid
      case Client(c) => c < |s.clients| && s.clients[c].InPool? && s.clients[c].op == Release(p)
      case Task(i) => i < |s.topics| && s.topics[i].task == InFree(p)
    ensures IsLive(Exec(Boot(clients, retries), run).pool, p)
  {
    var s := Exec(Boot(clients, retries), run);
    ExactlyOneOwner(clients, retries, run, p);
    match tid
    case Client(c) => ClientRefs(s, c, Idle(Okay), p);
    case Task(i) => OneTopicRefs(s, i, s.topics[i], p);
  }

  /** The nodes of a subscriber list are live. */
  lemma ListedNodesAreLive(clients: nat, retries: nat, run: seq<Action>, i: nat, k: nat)
    requires Legal(Boot(clients, retries), run)
    requires var s := Exec(Boot(clients, retries), run);
      i < |s.topics| && k < |s.topics[i].subscribers|
    ensures var s := Exec(Boot(clients, retries), run);
      IsLive(s.pool, s.topics[i].subscribers[k].node)
  {
    var s := Exec(Boot(clients, retries), run);
    var t := s.topics[i];
    var p := t.subscribers[k].node;
    ExactlyOneOwner(clients, retries, run, p);
    SumAt(t.subscribers, k, SubscriberRefs, p);
    OneTopicRefs(s, i, t, p);
  }
}
