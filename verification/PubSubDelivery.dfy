// The bytes given at publish are the bytes every listed subscriber is called with, exactly once.
module PubSubDelivery {
  import opened Octets
  import opened Wrappers
  import opened PubSub
  import opened PubSubFrames
  import opened PubSubLocks
  import opened PubSubOwnership

  // ---------------------------------------------------------------- payloads in memory

  /** A NULL pointer stands for no bytes; any other points at a block that holds them. */
  ghost predicate DataOk(mem: map<Ptr, Bytes>, data: Option<Ptr>, bytes: Bytes) {
    match data
    case None => bytes == []
    case Some(p) => p in mem && mem[p] == bytes && |bytes| <= p.size
  }

  ghost predicate MsgOk(mem: map<Ptr, Bytes>, m: Msg) {
    DataOk(mem, m.data, m.bytes) && m.len == |m.bytes|
  }

  ghost predicate TaskData(mem: map<Ptr, Bytes>, task: TaskPc) {
    match task
    case Received(m) => MsgOk(mem, m)
    case Delivering(m, _, _) => MsgOk(mem, m)
    case _ => true
  }

  ghost predicate TopicData(mem: map<Ptr, Bytes>, t: Topic) {
    (forall m | m in t.queue :: MsgOk(mem, m)) && TaskData(mem, t.task)
  }

  ghost predicate PendingOk(mem: map<Ptr, Bytes>, p: Pending) {
    DataOk(mem, Some(p.data), p.bytes) && p.len == |p.bytes| <= SIZE_T_MAX
  }

  /** The largest request whose rounding does not wrap. */
  const SIZE_T_MAX := BlockList.SIZE_T_MOD - 8

  predicate CallFits(call: Call) { call.Publish? ==> |call.job.data| <= SIZE_T_MAX }

  predicate ContFits(op: PoolCall, k: Cont) {
    match k
    case PublishCopy(job, _) => |job.data| <= SIZE_T_MAX && op == Malloc(|job.data|)
    case PendingData(job, _, _, _) => |job.data| <= SIZE_T_MAX && op == Malloc(|job.data|)
    case PendingStruct(job, _, _) => |job.data| <= SIZE_T_MAX
    case _ => true
  }

  ghost predicate PcData(mem: map<Ptr, Bytes>, pc: Pc) {
    match pc
    case WaitTopics(call) => CallFits(call)
    case InTopics(call) => CallFits(call)
    case WaitHandler(job, _) => |job.data| <= SIZE_T_MAX
    case InHandler(job, _) => |job.data| <= SIZE_T_MAX
    case WaitPool(op, k) => ContFits(op, k)
    case InPool(op, k) => ContFits(op, k)
    case Sending(job, _, data) => DataOk(mem, data, job.data)
    case MakeTimer(job, _, _, _, block) => DataOk(mem, Some(block), job.data) && |job.data| <= SIZE_T_MAX
    case _ => true
  }

  ghost predicate DataInv(s: State) {
    && (forall t | t in s.topics :: TopicData(s.mem, t))
    && (forall pc | pc in s.clients :: PcData(s.mem, pc))
    && (forall p | p in s.handler.pending :: PendingOk(s.mem, p))
  }

  lemma {:induction false} NotReferred<A>(xs: seq<A>, refs: (A, Ptr) -> nat, p: Ptr)
    requires Sum(xs, refs, p) == 0
    ensures forall x | x in xs :: refs(x, p) == 0
  {
    if xs != [] {
      NotReferred(xs[1..], refs, p);
      assert forall x | x in xs :: x == xs[0] || x in xs[1..];
    }
  }

  /** A block nobody owns can be written without disturbing any payload. */
  lemma FreshWriteKeepsTopic(mem: map<Ptr, Bytes>, mem': map<Ptr, Bytes>, r: Ptr, t: Topic)
    requires TopicData(mem, t) && MemKept(mem, mem', Some(r)) && TopicRefs(t, r) == 0
    ensures TopicData(mem', t)
  {
    NotReferred(t.queue, MsgRefs, r);
    forall m | m in t.queue ensures MsgOk(mem', m) {
      assert MsgOk(mem, m) && MsgRefs(m, r) == 0;
    }
  }

  lemma FreshWriteKeeps(s: State, mem': map<Ptr, Bytes>, r: Ptr)
    requires DataInv(s) && MemKept(s.mem, mem', Some(r)) && Owners(s, r) == 0
    ensures DataInv(s.(mem := mem'))
  {
    NotReferred(s.topics, TopicRefs, r);
    NotReferred(s.clients, PcRefs, r);
    NotReferred(s.handler.pending, PendingRefs, r);
    forall t | t in s.topics ensures TopicData(mem', t) {
      FreshWriteKeepsTopic(s.mem, mem', r, t);
    }
    forall pc | pc in s.clients ensures PcData(mem', pc) {
      assert PcData(s.mem, pc) && PcRefs(pc, r) == 0;
    }
    forall p | p in s.handler.pending ensures PendingOk(mem', p) {
      assert PendingOk(s.mem, p) && PendingRefs(p, r) == 0;
    }
  }

  ghost predicate OneMoved(s: State, s': State, c: nat)
    requires c < |s.clients|
  {
    c < |s'.clients| && s'.clients == s.clients[c := s'.clients[c]]
  }

  /** A client that moves to a point in order, with topics and pending entries kept, keeps everything in order. */
  lemma MoveKeepsData(s: State, s': State, c: nat, held: set<Lock>)
    requires c < |s.clients| && DataInv(s.(mem := s'.mem)) && OneMoved(s, s', c) && TopicsKept(s, s', held)
    requires PcData(s'.mem, s'.clients[c])
    requires forall p | p in s'.handler.pending :: PendingOk(s'.mem, p)
    ensures DataInv(s')
  {
    forall t | t in s'.topics ensures TopicData(s'.mem, t) {
      var j :| 0 <= j < |s'.topics| && s'.topics[j] == t;
      if j < |s.topics| { assert s.topics[j] in s.topics && SameTraffic(s.topics[j], t); }
    }
    forall pc | pc in s'.clients ensures PcData(s'.mem, pc) {
      var d :| 0 <= d < |s'.clients| && s'.clients[d] == pc;
      if d != c { assert s.clients[d] in s.clients; }
    }
  }

  lemma ResumeMoves(s: State, c: nat, k: Cont, r: Option<Ptr>)
    requires c < |s.clients| && ContInBounds(k, |s.topics|)
    requires r.Some? && (k.PublishCopy? || k.PendingData?) ==> |k.job.data| <= r.value.size
    requires k.PublishCopy? || k.PendingData? || k.PendingStruct? ==> |k.job.data| <= SIZE_T_MAX
    ensures var s' := Resume(s, c, k, r); OneMoved(s, s', c) && PcData(s'.mem, s'.clients[c])
  {
  }

  lemma PoolCallKeepsData(s: State, c: nat, op: PoolCall, k: Cont)
    requires DataInv(s) && OwnInv(s) && c < |s.clients| && s.clients[c] == InPool(op, k)
    requires ContInBounds(k, |s.topics|)
    ensures DataInv(CallPool(s, c, op, k))
  {
    assert PcData(s.mem, s.clients[c]);
    var s' := CallPool(s, c, op, k);
    PoolCallFrame(s, c, op, k);
    match op {
      case Malloc(size) =>
        MallocBalances(s, size);
        var (pool, r) := BlockList.Alloc(s.pool, HEADER, size);
        PoolTheorems.RoundUpCovers(if size < BlockList.SIZE_T_MOD then size else 0);
        ResumeMoves(Give(s.(pool := pool), PoolLock), c, k, r);
        if r.Some? { FreshWriteKeeps(s, s'.mem, r.value); } else { SameMemKeeps(s, s'.mem); }
      case Release(p) =>
        ResumeMoves(Give(s.(pool := BlockList.Free(s.pool, HEADER, p)), PoolLock), c, k, None);
        SameMemKeeps(s, s'.mem);
    }
    MoveKeepsData(s, s', c, ContHolds(k));
  }

  lemma SameMemKeeps(s: State, mem': map<Ptr, Bytes>)
    requires DataInv(s) && MemKept(s.mem, mem', None)
    ensures DataInv(s.(mem := mem'))
  {
    forall t | t in s.topics ensures TopicData(mem', t) {
      assert TopicData(s.mem, t);
      forall m | m in t.queue ensures MsgOk(mem', m) { assert MsgOk(s.mem, m); }
    }
    forall pc | pc in s.clients ensures PcData(mem', pc) { assert PcData(s.mem, pc); }
    forall p | p in s.handler.pending ensures PendingOk(mem', p) { assert PendingOk(s.mem, p); }
  }

  lemma UnderTopicsKeepsData(s: State, c: nat, call: Call, env: Env)
    requires DataInv(s) && c < |s.clients| && s.clients[c] == InTopics(call)
    ensures DataInv(UnderTopics(s, c, call, env))
  {
    assert PcData(s.mem, s.clients[c]);
    UnderTopicsFrame(s, c, call, env);
    MoveKeepsData(s, UnderTopics(s, c, call, env), c, {});
  }

  lemma UnderTopicKeepsData(s: State, c: nat, i: nat, call: Call)
    requires DataInv(s) && c < |s.clients| && i < |s.topics| && !call.Create? && !call.Publish?
    ensures DataInv(UnderTopic(s, c, i, call))
  {
    UnderTopicFrame(s, c, i, call);
    MoveKeepsData(s, UnderTopic(s, c, i, call), c, {TopicLock(i)});
  }

  lemma SendKeepsData(s: State, c: nat, job: Job, i: nat, data: Option<Ptr>, now: nat)
    requires DataInv(s) && c < |s.clients| && i < |s.topics| && s.clients[c] == Sending(job, i, data)
    ensures DataInv(Send(s, c, job, i, data, now))
  {
    var s', t := Send(s, c, job, i, data, now), s.topics[i];
    assert PcData(s.mem, s.clients[c]) && t in s.topics;
    var s1 := WithPc(s, c, s'.clients[c]);
    MoveKeepsData(s, s1, c, {});
    if |t.queue| < MAX_QUEUE_SIZE {
      assert TopicData(s.mem, t);
      assert TopicData(s.mem, s'.topics[i]);
      forall u | u in s'.topics ensures TopicData(s.mem, u) {
        var j :| 0 <= j < |s'.topics| && s'.topics[j] == u;
        if j != i { assert s.topics[j] in s.topics; }
      }
    }
  }

  lemma StartKeepsData(s: State, c: nat, job: Job, id: nat, ticket: nat, node: Ptr, block: Ptr, granted: bool)
    requires DataInv(s) && c < |s.clients| && s.clients[c] == MakeTimer(job, id, ticket, node, block)
    ensures DataInv(StartRetrying(s, c, job, id, ticket, node, block, granted))
  {
    var s' := StartRetrying(s, c, job, id, ticket, node, block, granted);
    assert PcData(s.mem, s.clients[c]);
    assert PcData(s.mem, s'.clients[c]);
    MoveKeepsData(s, s', c, {});
  }

  lemma {:induction false} CountRetryKeepsData(mem: map<Ptr, Bytes>, h: Handler, ticket: nat)
    requires forall p | p in h.pending :: PendingOk(mem, p)
    ensures forall p | p in CountRetry(h, ticket).pending :: PendingOk(mem, p)
  {
    if HasTicket(h.pending, ticket) {
      var k := PendingIndex(h.pending, ticket);
      assert PendingOk(mem, h.pending[k]);
      forall p | p in CountRetry(h, ticket).pending ensures PendingOk(mem, p) {
        var j :| 0 <= j < |h.pending| && CountRetry(h, ticket).pending[j] == p;
        assert PendingOk(mem, h.pending[j]);
      }
    }
  }

  lemma DrawingKeepsPcData(s: State, c: nat, job: Job, qos: nat)
    requires c < |s.clients| && PcData(s.mem, InHandler(job, qos))
    ensures PcData(s.mem, UnderHandler(s, c, job, qos).clients[c])
  {
  }

  lemma PlainMoves(s: State, c: nat, env: Env)
    requires Enabled(s, Run(c, env)) && Plain(s.clients[c])
    ensures var s' := RunClient(s, c, env);
      && s'.topics == s.topics && s'.mem == s.mem && s'.handler.pending == s.handler.pending
      && |s'.clients| == |s.clients| && s'.clients == s.clients[c := s'.clients[c]]
  {
  }

  lemma PlainKeepsPcData(s: State, c: nat, env: Env)
    requires Enabled(s, Run(c, env)) && Plain(s.clients[c]) && PcData(s.mem, s.clients[c])
    ensures var s' := RunClient(s, c, env); c < |s'.clients| && PcData(s.mem, s'.clients[c])
  {
    if s.clients[c].InHandler? { DrawingKeepsPcData(s, c, s.clients[c].job, s.clients[c].qos); }
  }

  /** A step that leaves topics, memory and pending entries as they are. */
  lemma PlainKeepsData(s: State, c: nat, env: Env)
    requires DataInv(s) && Enabled(s, Run(c, env)) && Plain(s.clients[c])
    ensures DataInv(RunClient(s, c, env))
  {
    assert PcData(s.mem, s.clients[c]);
    PlainMoves(s, c, env);
    PlainKeepsPcData(s, c, env);
    MoveKeepsData(s, RunClient(s, c, env), c, {});
  }

  lemma RetriedKeepsData(s: State, c: nat, ticket: nat)
    requires DataInv(s) && c < |s.clients| && s.clients[c] == Retried(ticket)
    ensures DataInv(WithPc(s.(handler := CountRetry(s.handler, ticket)), c, Idle(Okay)))
  {
    CountRetryKeepsData(s.mem, s.handler, ticket);
    MoveKeepsData(s, WithPc(s.(handler := CountRetry(s.handler, ticket)), c, Idle(Okay)), c, {});
  }

  lemma ClientKeepsData(s: State, c: nat, env: Env)
    requires DataInv(s) && OwnInv(s) && Enabled(s, Run(c, env))
    ensures DataInv(RunClient(s, c, env))
  {
    var pc := s.clients[c];
    if Plain(pc) { PlainKeepsData(s, c, env); }
    else if pc.InPool? { PoolCallKeepsData(s, c, pc.op, pc.k); }
    else if pc.InTopics? { UnderTopicsKeepsData(s, c, pc.call, env); }
    else if pc.InTopic? { UnderTopicKeepsData(s, c, pc.i, pc.call); }
    else if pc.Sending? { SendKeepsData(s, c, pc.job, pc.i, pc.data, env.now); }
    else if pc.MakeTimer? { StartKeepsData(s, c, pc.job, pc.id, pc.ticket, pc.node, pc.block, env.granted); }
    else { RetriedKeepsData(s, c, pc.ticket); }
  }

  lemma FireKeepsData(s: State, ticket: nat)
    requires DataInv(s) && 0 < |s.clients| && s.clients[0].Idle? && HasTicket(s.handler.pending, ticket)
    ensures DataInv(FireTimer(s, ticket))
  {
    var k := PendingIndex(s.handler.pending, ticket);
    var s', p := FireTimer(s, ticket), s.handler.pending[k];
    assert p in s.handler.pending && PendingOk(s.mem, p);
    forall q | q in s'.handler.pending ensures PendingOk(s.mem, q) {
      var j :| 0 <= j < |s'.handler.pending| && s'.handler.pending[j] == q;
      assert s.handler.pending[j] in s.handler.pending;
    }
    if p.retryCount < p.maxRetries { MoveKeepsData(s, s', 0, {}); }
  }

  lemma TaskKeepsData(s: State, i: nat)
    requires DataInv(s) && Enabled(s, RunTask(i))
    ensures DataInv(StepTask(s, i))
  {
    TaskFrame(s, i);
    var t, s' := s.topics[i], StepTask(s, i);
    var u := NextOfTask(t, s.mem);
    assert TopicData(s.mem, t);
    assert TopicData(s.mem, u) by {
      forall m | m in u.queue ensures MsgOk(s.mem, m) { assert m in t.queue; }
    }
    forall v | v in s'.topics ensures TopicData(s'.mem, v) {
      var j :| 0 <= j < |s'.topics| && s'.topics[j] == v;
      if j != i { assert s.topics[j] in s.topics; }
    }
  }

  lemma BeginKeepsData(s: State, c: nat, request: Request)
    requires DataInv(s) && Enabled(s, Begin(c, request))
    ensures DataInv(WithPc(s, c, BeginPc(request)))
  {
    MoveKeepsData(s, WithPc(s, c, BeginPc(request)), c, {});
  }

  lemma StepKeepsData(s: State, a: Action)
    requires DataInv(s) && OwnInv(s) && Enabled(s, a)
    ensures DataInv(Next(s, a))
  {
    match a
    case Begin(c, request) => BeginKeepsData(s, c, request);
    case Fire(ticket) => FireKeepsData(s, ticket);
    case Run(c, env) => ClientKeepsData(s, c, env);
    case RunTask(i) => TaskKeepsData(s, i);
  }

  // ---------------------------------------------------------------- rounds of callbacks

  /** Every listener once, in list order, with these bytes. */
  function CallsFor(listeners: seq<Subscriber>, bytes: Bytes): (r: seq<Invocation>)
    ensures |r| == |listeners|
  {
    seq(|listeners|, k requires 0 <= k < |listeners| =>
      Invocation(listeners[k].callback, listeners[k].userData, bytes))
  }

  ghost predicate RoundDone(r: Round) { r.calls == CallsFor(r.listeners, r.msg.bytes) }

  ghost predicate RoundsOk(t: Topic) {
    && (forall r | r in t.rounds :: RoundDone(r))
    && (t.task.Delivering? ==>
          var Delivering(m, next, round) := t.task;
          && round.msg == m && round.listeners == t.subscribers && next <= |t.subscribers|
          && round.calls == CallsFor(t.subscribers[..next], m.bytes))
  }

  ghost predicate RoundInv(s: State) {
    forall i | 0 <= i < |s.topics| :: RoundsOk(s.topics[i])
  }

  lemma TaskKeepsRounds(t: Topic, mem: map<Ptr, Bytes>)
    requires RoundsOk(t) && TopicData(mem, t) && (t.task.Receiving? ==> t.queue != [])
    ensures RoundsOk(NextOfTask(t, mem))
  {
    if t.task.Delivering? {
      var Delivering(m, next, round) := t.task;
      if next < |t.subscribers| {
        assert t.subscribers[..next + 1] == t.subscribers[..next] + [t.subscribers[next]];
        assert Load(mem, m.data) == m.bytes;
        assert CallsFor(t.subscribers[..next + 1], m.bytes)
            == CallsFor(t.subscribers[..next], m.bytes)
               + [Invocation(t.subscribers[next].callback, t.subscribers[next].userData, m.bytes)];
      } else {
        assert t.subscribers[..next] == t.subscribers;
      }
    }
  }

  lemma TaskStepKeepsRounds(s: State, i: nat)
    requires RoundInv(s) && DataInv(s) && Enabled(s, RunTask(i))
    ensures RoundInv(StepTask(s, i))
  {
    TaskFrame(s, i);
    assert s.topics[i] in s.topics && RoundsOk(s.topics[i]);
    TaskKeepsRounds(s.topics[i], s.mem);
    forall j | 0 <= j < |s.topics| && j != i ensures RoundsOk(StepTask(s, i).topics[j]) {
      assert RoundsOk(s.topics[j]);
    }
  }

  /** While a task delivers, it holds the topic lock, so no client touches its subscriber list. */
  lemma ClientKeepsRounds(s: State, c: nat, env: Env)
    requires RoundInv(s) && LockInv(s) && Enabled(s, Run(c, env))
    ensures RoundInv(RunClient(s, c, env))
  {
    var pc, s' := s.clients[c], RunClient(s, c, env);
    if pc.Sending? {
      forall j | 0 <= j < |s'.topics| ensures RoundsOk(s'.topics[j]) { assert RoundsOk(s.topics[j]); }
    } else {
      ClientFrame(s, c, env);
      forall j | 0 <= j < |s'.topics| ensures RoundsOk(s'.topics[j]) {
        if j < |s.topics| {
          assert RoundsOk(s.topics[j]) && SameTraffic(s.topics[j], s'.topics[j]);
          MutualExclusion(s, Client(c), Task(j));
          if s.topics[j].task.Delivering? {
            assert TopicLock(j) in Holds(s, Task(j));
            assert TopicLock(j) !in Holds(s, Client(c));
          }
        } else {
          assert Blank(s'.topics[j]);
        }
      }
    }
  }

  lemma StepKeepsRounds(s: State, a: Action)
    requires RoundInv(s) && LockInv(s) && DataInv(s) && Enabled(s, a)
    ensures RoundInv(Next(s, a))
  {
    match a
    case Begin(c, request) => assert Next(s, a).topics == s.topics;
    case Fire(ticket) => assert Next(s, a).topics == s.topics;
    case Run(c, env) => ClientKeepsRounds(s, c, env);
    case RunTask(i) => TaskStepKeepsRounds(s, i);
  }

  // ---------------------------------------------------------------- runs

  ghost predicate DeliveryInv(s: State) { LockInv(s) && OwnInv(s) && DataInv(s) && RoundInv(s) }

  lemma StepKeepsDelivery(s: State, a: Action)
    requires DeliveryInv(s) && Enabled(s, a)
    ensures DeliveryInv(Next(s, a))
  {
    StepKeepsLocks(s, a);
    StepKeepsOwners(s, a);
    StepKeepsData(s, a);
    StepKeepsRounds(s, a);
  }

  lemma {:induction false} DeliveryInRuns(s: State, run: seq<Action>)
    requires DeliveryInv(s) && Legal(s, run)
    ensures DeliveryInv(Exec(s, run))
    decreases |run|
  {
    if run != [] {
      StepKeepsDelivery(s, run[0]);
      DeliveryInRuns(Next(s, run[0]), run[1..]);
    }
  }

  lemma BootDelivers(clients: nat, retries: nat)
    ensures DeliveryInv(Boot(clients, retries))
  {
    BootLocks(clients, retries);
    BootOwners(clients, retries);
  }

  /** In every run, each finished delivery called every subscriber listed when the lock was taken,
      exactly once and in list order, with the bytes given at publish. */
  lemma EveryListenerOnce(clients: nat, retries: nat, run: seq<Action>, i: nat, k: nat)
    requires Legal(Boot(clients, retries), run)
    requires var s := Exec(Boot(clients, retries), run);
      i < |s.topics| && k < |s.topics[i].rounds|
    ensures var r := Exec(Boot(clients, retries), run).topics[i].rounds[k];
      && |r.calls| == |r.listeners|
      && forall j | 0 <= j < |r.calls| ::
           r.calls[j] == Invocation(r.listeners[j].callback, r.listeners[j].userData, r.msg.bytes)
  {
    BootDelivers(clients, retries);
    DeliveryInRuns(Boot(clients, retries), run);
    var t := Exec(Boot(clients, retries), run).topics[i];
    assert RoundsOk(t) && t.rounds[k] in t.rounds;
  }

  /** While topic_task delivers, the list it walks is the one it found when it took the lock, and every node
      of it, visited or to be visited, is live: none is freed under it. */
  lemma VisitedNodesStayLive(clients: nat, retries: nat, run: seq<Action>, i: nat, k: nat)
    requires Legal(Boot(clients, retries), run)
    requires var s := Exec(Boot(clients, retries), run);
      i < |s.topics| && s.topics[i].task.Delivering? && k < |s.topics[i].task.round.listeners|
    ensures var s := Exec(Boot(clients, retries), run);
      var round := s.topics[i].task.round;
      s.topics[i].subscribers == round.listeners && IsLive(s.pool, round.listeners[k].node)
  {
    BootDelivers(clients, retries);
    DeliveryInRuns(Boot(clients, retries), run);
    assert RoundsOk(Exec(Boot(clients, retries), run).topics[i]);
    ListedNodesAreLive(clients, retries, run, i, k);
  }
}
