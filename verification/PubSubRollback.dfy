// Calls that come to nothing leave the pool as it was.
module PubSubRollback {
  import opened Octets
  import opened Wrappers
  import opened BlockList
  import opened PoolTheorems
  import opened PubSub
  import opened PubSubOwnership
  import opened PubSubPaths

  /** Same block list and used_size; only peak_use may differ. */
  predicate SamePool(p: Pool, q: Pool) { p.blocks == q.blocks && p.used == q.used }

  lemma SameOwnersSamePool(s: State, s': State)
    requires OwnInv(s) && OwnInv(s') && forall p :: Owners(s, p) == Owners(s', p)
    ensures SamePool(s.pool, s'.pool)
  {
    forall p ensures p in Live(s.pool.blocks) <==> p in Live(s'.pool.blocks) {
      assert Owners(s, p) == Owners(s', p);
      assert IsLive(s.pool, p) <==> IsLive(s'.pool, p);
    }
    assert Live(s.pool.blocks) == Live(s'.pool.blocks);
    UsedOfLive(s.pool, s'.pool, HEADER, POOL_SIZE);
  }

  /** The parts of a topic that refer to blocks. */
  predicate SameBlocks(t: Topic, u: Topic) {
    t.subscribers == u.subscribers && t.queue == u.queue && t.task == u.task
  }

  lemma {:induction false} SameTopicsSameRefs(ts: seq<Topic>, us: seq<Topic>, p: Ptr)
    requires |ts| == |us| && forall i | 0 <= i < |ts| :: SameBlocks(ts[i], us[i])
    ensures Sum(ts, TopicRefs, p) == Sum(us, TopicRefs, p)
  {
    if ts != [] {
      assert SameBlocks(ts[0], us[0]);
      forall i | 0 <= i < |ts[1..]| ensures SameBlocks(ts[1..][i], us[1..][i]) {
        assert SameBlocks(ts[i + 1], us[i + 1]);
      }
      SameTopicsSameRefs(ts[1..], us[1..], p);
    }
  }

  lemma {:induction false} SameRefsSameSum(pcs: seq<Pc>, qcs: seq<Pc>, p: Ptr)
    requires |pcs| == |qcs| && forall c | 0 <= c < |pcs| :: PcRefs(pcs[c], p) == PcRefs(qcs[c], p)
    ensures Sum(pcs, PcRefs, p) == Sum(qcs, PcRefs, p)
  {
    if pcs != [] {
      forall c | 0 <= c < |pcs[1..]| ensures PcRefs(pcs[1..][c], p) == PcRefs(qcs[1..][c], p) {
        assert PcRefs(pcs[c + 1], p) == PcRefs(qcs[c + 1], p);
      }
      SameRefsSameSum(pcs[1..], qcs[1..], p);
    }
  }

  /** The same struct and data, whatever has been counted on the entry. */
  predicate SameEntryBlocks(p: Pending, q: Pending) { p.node == q.node && p.data == q.data }

  lemma {:induction false} SameEntriesSameRefs(ps: seq<Pending>, qs: seq<Pending>, p: Ptr)
    requires |ps| == |qs| && forall k | 0 <= k < |ps| :: SameEntryBlocks(ps[k], qs[k])
    ensures Sum(ps, PendingRefs, p) == Sum(qs, PendingRefs, p)
  {
    if ps != [] {
      assert SameEntryBlocks(ps[0], qs[0]);
      forall k | 0 <= k < |ps[1..]| ensures SameEntryBlocks(ps[1..][k], qs[1..][k]) {
        assert SameEntryBlocks(ps[k + 1], qs[k + 1]);
      }
      SameEntriesSameRefs(ps[1..], qs[1..], p);
    }
  }

  /** The same blocks in lists, queues, deliveries and pending entries. */
  ghost predicate SameTables(s: State, s': State) {
    && |s'.topics| == |s.topics| && (forall i | 0 <= i < |s.topics| :: SameBlocks(s.topics[i], s'.topics[i]))
    && |s'.handler.pending| == |s.handler.pending|
    && forall k | 0 <= k < |s.handler.pending| :: SameEntryBlocks(s.handler.pending[k], s'.handler.pending[k])
  }

  /** A call under way that holds no block. */
  predicate Empty(pc: Pc) {
    pc.Idle? || pc.WaitTopics? || pc.InTopics? || pc.LeaveTopics? || pc.LeaveHandler? || pc.Retried?
  }

  /** Two reachable states with the same subscriber lists and queues, the same blocks in their pending entries and no
      block in a client's hands have the same pool, whatever happened between them, timers that fired included: a
      subscription and its cancellation, refused publishes and failed pending entries leave no trace. */
  lemma NoTrace(clients: nat, retries: nat, run: seq<Action>, more: seq<Action>)
    requires Legal(Boot(clients, retries), run) && Legal(Exec(Boot(clients, retries), run), more)
    requires var s := Exec(Boot(clients, retries), run);
      var s' := Exec(s, more);
      && SameTables(s, s') && |s'.clients| == |s.clients|
      && (forall c | 0 <= c < |s.clients| :: Empty(s.clients[c]) && Empty(s'.clients[c]))
    ensures var s := Exec(Boot(clients, retries), run); SamePool(s.pool, Exec(s, more).pool)
  {
    BootOwners(clients, retries);
    OwnersInRuns(Boot(clients, retries), run);
    var s := Exec(Boot(clients, retries), run);
    OwnersInRuns(s, more);
    NoTraceBetween(s, Exec(s, more));
  }

  lemma NoTraceBetween(s: State, s': State)
    requires OwnInv(s) && OwnInv(s') && SameTables(s, s') && |s'.clients| == |s.clients|
    requires forall c | 0 <= c < |s.clients| :: Empty(s.clients[c]) && Empty(s'.clients[c])
    ensures SamePool(s.pool, s'.pool)
  {
    forall p ensures Owners(s, p) == Owners(s', p) {
      SameTopicsSameRefs(s.topics, s'.topics, p);
      SameEntriesSameRefs(s.handler.pending, s'.handler.pending, p);
      SameRefsSameSum(s.clients, s'.clients, p);
    }
    SameOwnersSamePool(s, s');
  }

  // ---------------------------------------------------------------- the rollbacks step by step

  /** The pool and the result of one call. */
  function Answer(pool: Pool, op: PoolCall): (Pool, Option<Ptr>) {
    match op
    case Malloc(size) => Alloc(pool, HEADER, size)
    case Release(p) => (BlockList.Free(pool, HEADER, p), None)
  }

  lemma TakePool(s: State, c: nat, env: Env)
    requires c < |s.clients| && s.clients[c].WaitPool? && ContInBounds(s.clients[c].k, |s.topics|)
    requires PoolLock !in s.owner
    ensures Enabled(s, Run(c, env))
    ensures Next(s, Run(c, env)) ==
      s.(clients := s.clients[c := InPool(s.clients[c].op, s.clients[c].k)], owner := s.owner[PoolLock := Client(c)])
  {
  }

  lemma CallFrom(s: State, c: nat, env: Env, op: PoolCall, k: Cont)
    requires c < |s.clients| && ContInBounds(k, |s.topics|) && PoolLock !in s.owner
    ensures var t := s.(clients := s.clients[c := InPool(op, k)], owner := s.owner[PoolLock := Client(c)]);
      var (pool, r) := Answer(s.pool, op);
      && Enabled(t, Run(c, env))
      && Next(t, Run(c, env)) == Resume(t.(pool := pool, owner := s.owner), c, k, r)
  {
    assert s.owner[PoolLock := Client(c)] - {PoolLock} == s.owner;
  }

  /** Where a client is after its pool call. */
  function Called(s: State, c: nat): State
    requires c < |s.clients| && s.clients[c].WaitPool? && ContInBounds(s.clients[c].k, |s.topics|)
  {
    var WaitPool(op, k) := s.clients[c];
    var (pool, r) := Answer(s.pool, op);
    Resume(s.(pool := pool, clients := s.clients[c := InPool(op, k)]), c, k, r)
  }

  /** With the pool mutex free, these are two steps: taking the mutex, then the call. */
  lemma PoolCallAlone(s: State, c: nat, env: Env)
    requires c < |s.clients| && s.clients[c].WaitPool? && ContInBounds(s.clients[c].k, |s.topics|)
    requires PoolLock !in s.owner
    ensures Alone(s, Run(c, env), 2, Called(s, c))
  {
    var a := Run(c, env);
    TakePool(s, c, env);
    CallFrom(s, c, env, s.clients[c].op, s.clients[c].k);
    AloneOnce(s, a, Next(s, a));
    AloneOnce(Next(s, a), a, Called(s, c));
    AloneOn(s, a, 1, Next(s, a), 1, Called(s, c));
  }

  lemma PoolCallRuns(s: State, c: nat, env: Env)
    requires c < |s.clients| && s.clients[c].WaitPool? && ContInBounds(s.clients[c].k, |s.topics|)
    requires PoolLock !in s.owner
    ensures Legal(s, [Run(c, env), Run(c, env)]) && Exec(s, [Run(c, env), Run(c, env)]) == Called(s, c)
  {
    var a := Run(c, env);
    PoolCallAlone(s, c, env);
    assert Times(a, 0) + [a] == [a] && Times(a, 1) + [a] == [a, a];
    LeadsIsRun(s, [a, a], Called(s, c));
  }

  /** Only the client and the pool's peak may differ: the call has left no trace. */
  predicate Undone(s: State, t: State, c: nat, pc: Pc) {
    && c < |s.clients| && t.clients == s.clients[c := pc] && SamePool(s.pool, t.pool)
    && t.topics == s.topics && t.handler == s.handler && t.owner == s.owner
  }

  /** A publish refused by a full queue: allocated, refused, freed, and the pool is as it was. */
  lemma RefusedPublish(s: State, c: nat, job: Job, i: nat, now: nat)
    requires OwnInv(s) && c < |s.clients| && i < |s.topics|
    requires s.clients[c] == WaitPool(Malloc(|job.data|), PublishCopy(job, i))
    requires |s.topics[i].queue| >= MAX_QUEUE_SIZE && Alloc(s.pool, HEADER, |job.data|).1.Some?
    ensures var s1 := Called(s, c);
      && s1.clients[c].Sending?
      && var s2 := Send(s1, c, job, i, s1.clients[c].data, now);
         && s2.clients[c].WaitPool? && ContInBounds(s2.clients[c].k, |s2.topics|)
         && Undone(s, Called(s2, c), c, LeaveTopics(job.origin, QueueFull))
  {
    AllocThenFree(s.pool, HEADER, POOL_SIZE, |job.data|);
  }

  /** Allocating two blocks and freeing them in reverse order. */
  lemma TwoBlocksBack(p: Pool, m: nat, n: nat)
    requires Inv(p, HEADER, POOL_SIZE) && Alloc(p, HEADER, m).1.Some?
    requires Alloc(Alloc(p, HEADER, m).0, HEADER, n).1.Some?
    ensures var (q, a) := Alloc(p, HEADER, m);
      var (q', b) := Alloc(q, HEADER, n);
      SamePool(p, BlockList.Free(BlockList.Free(q', HEADER, b.value), HEADER, a.value))
  {
    var (q, a) := Alloc(p, HEADER, m);
    var (q', b) := Alloc(q, HEADER, n);
    AllocThenFree(p, HEADER, POOL_SIZE, m);
    AllocKeeps(p, HEADER, POOL_SIZE, m);
    AllocThenFree(q, HEADER, POOL_SIZE, n);
    FreeIgnoresPeak(q, BlockList.Free(q', HEADER, b.value), a.value);
  }

  lemma FreeIgnoresPeak(p: Pool, q: Pool, b: Ptr)
    requires SamePool(p, q)
    ensures SamePool(BlockList.Free(p, HEADER, b), BlockList.Free(q, HEADER, b))
  {
  }

  /** create_pending_message out of memory for the data: the struct is freed again. */
  lemma FailedPendingData(s: State, c: nat, job: Job, id: nat, ticket: nat)
    requires OwnInv(s) && c < |s.clients|
    requires s.clients[c] == WaitPool(Malloc(PENDING), PendingStruct(job, id, ticket))
    requires var (q, node) := Alloc(s.pool, HEADER, PENDING); node.Some? && Alloc(q, HEADER, |job.data|).1.None?
    ensures var s1 := Called(s, c);
      && s1.clients[c].WaitPool? && ContInBounds(s1.clients[c].k, |s1.topics|)
      && var s2 := Called(s1, c);
         && s2.clients[c].WaitPool? && ContInBounds(s2.clients[c].k, |s2.topics|)
         && Undone(s, Called(s2, c), c, LeaveHandler(NoMemory))
  {
    AllocThenFree(s.pool, HEADER, POOL_SIZE, PENDING);
  }

  lemma TimerRefused(s: State, c: nat, job: Job, id: nat, ticket: nat, node: Ptr, block: Ptr)
    requires c < |s.clients| && s.clients[c] == MakeTimer(job, id, ticket, node, block)
    ensures var s1 := StartRetrying(s, c, job, id, ticket, node, block, false);
      && s1.clients[c].WaitPool? && ContInBounds(s1.clients[c].k, |s1.topics|)
      && var s2 := Called(s1, c);
         && s2.clients[c].WaitPool? && ContInBounds(s2.clients[c].k, |s2.topics|)
         && Called(s2, c) == s.(clients := s.clients[c := LeaveHandler(NoMemory)],
                                pool := BlockList.Free(BlockList.Free(s.pool, HEADER, block), HEADER, node))
  {
  }

  lemma PendingMade(s: State, c: nat, job: Job, id: nat, ticket: nat)
    requires c < |s.clients| && s.clients[c] == WaitPool(Malloc(PENDING), PendingStruct(job, id, ticket))
    requires var (q, node) := Alloc(s.pool, HEADER, PENDING); node.Some? && Alloc(q, HEADER, |job.data|).1.Some?
    ensures var (q, node) := Alloc(s.pool, HEADER, PENDING);
      var (q', block) := Alloc(q, HEADER, |job.data|);
      var s1 := Called(s, c);
      && s1.clients[c].WaitPool? && ContInBounds(s1.clients[c].k, |s1.topics|)
      && var s2 := Called(s1, c);
         && s2.clients == s.clients[c := MakeTimer(job, id, ticket, node.value, block.value)] && s2.pool == q'
         && s2.topics == s.topics && s2.handler == s.handler && s2.owner == s.owner
  {
  }

  /** create_pending_message without a timer: data and struct are freed again. */
  lemma FailedPendingTimer(s: State, c: nat, job: Job, id: nat, ticket: nat)
    requires OwnInv(s) && c < |s.clients|
    requires s.clients[c] == WaitPool(Malloc(PENDING), PendingStruct(job, id, ticket))
    requires var (q, node) := Alloc(s.pool, HEADER, PENDING); node.Some? && Alloc(q, HEADER, |job.data|).1.Some?
    ensures var s1 := Called(s, c);
      && s1.clients[c].WaitPool? && ContInBounds(s1.clients[c].k, |s1.topics|)
      && var s2 := Called(s1, c);
         && s2.clients[c].MakeTimer?
         && var s3 := StartRetrying(s2, c, job, id, ticket, s2.clients[c].node, s2.clients[c].block, false);
            && s3.clients[c].WaitPool? && ContInBounds(s3.clients[c].k, |s3.topics|)
            && var s4 := Called(s3, c);
               && s4.clients[c].WaitPool? && ContInBounds(s4.clients[c].k, |s4.topics|)
               && Undone(s, Called(s4, c), c, LeaveHandler(NoMemory))
  {
    PendingMade(s, c, job, id, ticket);
    var s2 := Called(Called(s, c), c);
    TimerRefused(s2, c, job, id, ticket, s2.clients[c].node, s2.clients[c].block);
    TwoBlocksBack(s.pool, PENDING, |job.data|);
  }

  // ---------------------------------------------------------------- subscribing and unsubscribing, action by action

  /** The topic's lock is held on the way to and from the list. */
  function Inside(s: State, c: nat, i: nat, pc: Pc): State
    requires c < |s.clients|
  {
    s.(clients := s.clients[c := pc], owner := s.owner[TopicsLock := Client(c)][TopicLock(i) := Client(c)])
  }

  lemma EnterTopic(s: State, c: nat, env: Env, call: Call, i: nat)
    requires c < |s.clients| && s.clients[c] == WaitTopics(call) && (call.Subscribe? || call.Unsubscribe?)
    requires Find(s.topics, call.name) == Some(i) && TopicsLock !in s.owner && TopicLock(i) !in s.owner
    ensures Alone(s, Run(c, env), 3, Inside(s, c, i, InTopic(i, call)))
  {
    var a, locked := Run(c, env), s.owner[TopicsLock := Client(c)];
    var s1 := s.(clients := s.clients[c := InTopics(call)], owner := locked);
    var s2 := s.(clients := s.clients[c := WaitTopic(i, call)], owner := locked);
    AloneOnce(s, a, s1);
    AloneOnce(s1, a, s2);
    AloneOnce(s2, a, Inside(s, c, i, InTopic(i, call)));
    AloneOn(s, a, 1, s1, 1, s2);
    AloneOn(s, a, 2, s2, 1, Inside(s, c, i, InTopic(i, call)));
  }

  lemma LeaveAlone(s: State, c: nat, env: Env, i: nat, code: Code)
    requires c < |s.clients| && i < |s.topics| && TopicsLock !in s.owner && TopicLock(i) !in s.owner
    ensures Alone(Inside(s, c, i, LeaveTopic(i, code)), Run(c, env), 2, s.(clients := s.clients[c := Idle(code)]))
  {
    var a, s0, locked := Run(c, env), Inside(s, c, i, LeaveTopic(i, code)), s.owner[TopicsLock := Client(c)];
    var s1 := s.(clients := s.clients[c := LeaveTopics(Direct, code)], owner := locked);
    assert s0.owner - {TopicLock(i)} == locked && locked - {TopicsLock} == s.owner;
    AloneOnce(s0, a, s1);
    AloneOnce(s1, a, s.(clients := s.clients[c := Idle(code)]));
    AloneOn(s0, a, 1, s1, 1, s.(clients := s.clients[c := Idle(code)]));
  }

  /** The locks a call on topic i takes are free. */
  predicate Open(s: State, i: nat) { TopicsLock !in s.owner && TopicLock(i) !in s.owner && PoolLock !in s.owner }

  function Newest(s: State, callback: Callback, userData: nat): Subscriber
    requires Alloc(s.pool, HEADER, SUBSCRIBER).1.Some?
  {
    Subscriber(callback, userData, Alloc(s.pool, HEADER, SUBSCRIBER).1.value)
  }

  function LinkedIn(t: Topic, n: Subscriber): Topic {
    t.(subscribers := [n] + t.subscribers, count := t.count + 1)
  }

  lemma LinkAlone(s: State, c: nat, env: Env, i: nat, name: string, callback: Callback, userData: nat)
    requires c < |s.clients| && i < |s.topics| && Open(s, i)
    requires Position(s.topics[i].subscribers, callback).None? && s.topics[i].count < MAX_SUBSCRIBERS_PER_TOPIC
    requires Alloc(s.pool, HEADER, SUBSCRIBER).1.Some?
    ensures var n := Newest(s, callback, userData);
      var t := s.(pool := Alloc(s.pool, HEADER, SUBSCRIBER).0, topics := s.topics[i := LinkedIn(s.topics[i], n)]);
      Alone(Inside(s, c, i, InTopic(i, Subscribe(name, callback, userData))), Run(c, env), 3,
            Inside(t, c, i, LeaveTopic(i, Okay)))
  {
    var a, s0 := Run(c, env), Inside(s, c, i, InTopic(i, Subscribe(name, callback, userData)));
    var s1 := Inside(s, c, i, WaitPool(Malloc(SUBSCRIBER), SubscribeLink(i, callback, userData)));
    AloneOnce(s0, a, s1);
    PoolCallAlone(s1, c, env);
    AloneOn(s0, a, 1, s1, 2, Called(s1, c));
  }

  /** pubsub_subscribe from call to return. */
  lemma Subscribes(s: State, c: nat, env: Env, i: nat, name: string, callback: Callback, userData: nat)
    requires 0 < c < |s.clients| && s.clients[c].Idle? && Find(s.topics, name) == Some(i) && Open(s, i)
    requires Position(s.topics[i].subscribers, callback).None? && s.topics[i].count < MAX_SUBSCRIBERS_PER_TOPIC
    requires Alloc(s.pool, HEADER, SUBSCRIBER).1.Some?
    ensures var n := Newest(s, callback, userData);
      Leads(s, Turn(Begin(c, ReqSubscribe(name, callback, userData)), Run(c, env), 8),
            s.(clients := s.clients[c := Idle(Okay)], pool := Alloc(s.pool, HEADER, SUBSCRIBER).0,
               topics := s.topics[i := LinkedIn(s.topics[i], n)]))
  {
    var a, b := Run(c, env), Begin(c, ReqSubscribe(name, callback, userData));
    var call := Subscribe(name, callback, userData);
    var s1 := s.(clients := s.clients[c := WaitTopics(call)]);
    var t := s.(pool := Alloc(s.pool, HEADER, SUBSCRIBER).0,
                topics := s.topics[i := LinkedIn(s.topics[i], Newest(s, callback, userData))]);
    assert StepOk(s, b, s1);
    EnterTopic(s1, c, env, call, i);
    assert Inside(s1, c, i, InTopic(i, call)) == Inside(s, c, i, InTopic(i, call));
    LinkAlone(s, c, env, i, name, callback, userData);
    LeaveAlone(t, c, env, i, Okay);
    var u := t.(clients := t.clients[c := Idle(Okay)]);
    AloneOn(s1, a, 3, Inside(s, c, i, InTopic(i, call)), 3, Inside(t, c, i, LeaveTopic(i, Okay)));
    AloneOn(s1, a, 6, Inside(t, c, i, LeaveTopic(i, Okay)), 2, u);
    TurnLeads(s, b, a, s1, 8, u);
  }

  /** Topic t with its newest subscriber unlinked and not yet counted down. */
  function HalfOut(t: Topic): Topic { t.(count := t.count + 1) }

  lemma UnlinkStep(s: State, c: nat, env: Env, i: nat, name: string, t: Topic, n: Subscriber)
    requires c < |s.clients| && i < |s.topics| && s.topics[i] == LinkedIn(t, n)
    ensures StepOk(Inside(s, c, i, InTopic(i, Unsubscribe(name, n.callback))), Run(c, env),
                   Inside(s.(topics := s.topics[i := HalfOut(t)]), c, i,
                          WaitPool(Release(n.node), UnsubscribeDone(i))))
  {
    var subs := [n] + t.subscribers;
    assert Position(subs, n.callback) == Some(0) && subs[..0] + subs[1..] == t.subscribers;
  }

  lemma CountedDown(s: State, c: nat, i: nat, t: Topic, p: Ptr)
    requires c < |s.clients| && i < |s.topics| && t.count < UINT32_MOD && s.topics[i] == HalfOut(t)
    ensures Called(Inside(s, c, i, WaitPool(Release(p), UnsubscribeDone(i))), c) ==
            Inside(s.(topics := s.topics[i := t], pool := BlockList.Free(s.pool, HEADER, p)), c, i, LeaveTopic(i, Okay))
  {
  }

  /** Unlinking the newest subscriber n of topic t. */
  lemma UnlinkAlone(s: State, c: nat, env: Env, i: nat, name: string, t: Topic, n: Subscriber)
    requires c < |s.clients| && i < |s.topics| && Open(s, i) && t.count < UINT32_MOD
    requires s.topics[i] == LinkedIn(t, n)
    ensures Alone(Inside(s, c, i, InTopic(i, Unsubscribe(name, n.callback))), Run(c, env), 3,
                  Inside(s.(topics := s.topics[i := t], pool := BlockList.Free(s.pool, HEADER, n.node)), c, i,
                         LeaveTopic(i, Okay)))
  {
    var a, s0 := Run(c, env), Inside(s, c, i, InTopic(i, Unsubscribe(name, n.callback)));
    var half := s.(topics := s.topics[i := HalfOut(t)]);
    var s1 := Inside(half, c, i, WaitPool(Release(n.node), UnsubscribeDone(i)));
    UnlinkStep(s, c, env, i, name, t, n);
    AloneOnce(s0, a, s1);
    PoolCallAlone(s1, c, env);
    CountedDown(half, c, i, t, n.node);
    assert half.topics[i := t] == s.topics[i := t];
    AloneOn(s0, a, 1, s1, 2, Called(s1, c));
  }

  /** pubsub_unsubscribe of the newest subscriber, from call to return. */
  lemma Unsubscribes(s: State, c: nat, env: Env, i: nat, name: string, t: Topic, n: Subscriber)
    requires 0 < c < |s.clients| && s.clients[c].Idle? && Find(s.topics, name) == Some(i) && Open(s, i)
    requires s.topics[i] == LinkedIn(t, n) && t.count < UINT32_MOD
    ensures Leads(s, Turn(Begin(c, ReqUnsubscribe(name, n.callback)), Run(c, env), 8),
                  s.(clients := s.clients[c := Idle(Okay)], topics := s.topics[i := t],
                     pool := BlockList.Free(s.pool, HEADER, n.node)))
  {
    var a, b, call := Run(c, env), Begin(c, ReqUnsubscribe(name, n.callback)), Unsubscribe(name, n.callback);
    var s1 := s.(clients := s.clients[c := WaitTopics(call)]);
    var t' := s.(topics := s.topics[i := t], pool := BlockList.Free(s.pool, HEADER, n.node));
    assert StepOk(s, b, s1);
    EnterTopic(s1, c, env, call, i);
    assert Inside(s1, c, i, InTopic(i, call)) == Inside(s, c, i, InTopic(i, call));
    UnlinkAlone(s, c, env, i, name, t, n);
    LeaveAlone(t', c, env, i, Okay);
    var u := t'.(clients := t'.clients[c := Idle(Okay)]);
    AloneOn(s1, a, 3, Inside(s, c, i, InTopic(i, call)), 3, Inside(t', c, i, LeaveTopic(i, Okay)));
    AloneOn(s1, a, 6, Inside(t', c, i, LeaveTopic(i, Okay)), 2, u);
    TurnLeads(s, b, a, s1, 8, u);
  }

  lemma {:induction false} FindSameNames(ts: seq<Topic>, us: seq<Topic>, name: string)
    requires |ts| == |us| && forall j | 0 <= j < |ts| :: us[j].name == ts[j].name
    ensures Find(us, name) == Find(ts, name)
  {
    var r, q := Find(ts, name), Find(us, name);
    if r.Some? { assert us[r.value].name == name; }
    if q.Some? { assert ts[q.value].name == name; }
  }

  /** A client that subscribes and then unsubscribes a callback, undisturbed, is told Okay twice and leaves lists,
      counts and pool as they were. */
  lemma SubscribeThenUnsubscribe(s: State, c: nat, env: Env, i: nat, name: string, callback: Callback, userData: nat)
    requires OwnInv(s) && 0 < c < |s.clients| && s.clients[c].Idle? && Find(s.topics, name) == Some(i) && Open(s, i)
    requires Position(s.topics[i].subscribers, callback).None? && s.topics[i].count < MAX_SUBSCRIBERS_PER_TOPIC
    requires Alloc(s.pool, HEADER, SUBSCRIBER).1.Some?
    ensures var there := Turn(Begin(c, ReqSubscribe(name, callback, userData)), Run(c, env), 8);
      var back := Turn(Begin(c, ReqUnsubscribe(name, callback)), Run(c, env), 8);
      && Legal(s, there) && |Exec(s, there).clients| == |s.clients| && Exec(s, there).clients[c] == Idle(Okay)
      && Legal(s, there + back) && Undone(s, Exec(s, there + back), c, Idle(Okay))
  {
    var there := Turn(Begin(c, ReqSubscribe(name, callback, userData)), Run(c, env), 8);
    var back := Turn(Begin(c, ReqUnsubscribe(name, callback)), Run(c, env), 8);
    var n := Newest(s, callback, userData);
    var s1 := s.(clients := s.clients[c := Idle(Okay)], pool := Alloc(s.pool, HEADER, SUBSCRIBER).0,
                 topics := s.topics[i := LinkedIn(s.topics[i], n)]);
    Subscribes(s, c, env, i, name, callback, userData);
    LeadsIsRun(s, there, s1);
    FindSameNames(s.topics, s1.topics, name);
    Unsubscribes(s1, c, env, i, name, s.topics[i], n);
    var s2 := s1.(clients := s1.clients[c := Idle(Okay)], topics := s1.topics[i := s.topics[i]],
                  pool := BlockList.Free(s1.pool, HEADER, n.node));
    Compose(s, there, s1, back, s2);
    LeadsIsRun(s, there + back, s2);
    AllocThenFree(s.pool, HEADER, POOL_SIZE, SUBSCRIBER);
    assert s2.topics == s.topics;
  }
}
