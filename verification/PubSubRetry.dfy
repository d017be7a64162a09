// Message ids and bounded retries of message_handler.c, however often the timers fire.
module PubSubRetry {
  import opened Octets
  import opened Wrappers
  import opened PubSub
  import opened PubSubFrames
  import opened PubSubLocks
  import opened PubSubOwnership
  import opened PubSubDelivery

  function OriginTicket(o: Origin): Option<nat> { if o.ViaTimer? then Some(o.ticket) else None }

  /** The pending entry on whose behalf a client is inside pubsub_publish. */
  function PcTicket(pc: Pc): Option<nat> {
    match pc
    case WaitTopics(call) => OriginTicket(CallOrigin(call))
    case InTopics(call) => OriginTicket(CallOrigin(call))
    case Sending(job, _, _) => OriginTicket(job.origin)
    case WaitPool(_, k) => ContTicket(k)
    case InPool(_, k) => ContTicket(k)
    case LeaveTopics(o, _) => OriginTicket(o)
    case Retried(ticket) => Some(ticket)
    case _ => None
  }

  function ContTicket(k: Cont): Option<nat> {
    if k.PublishCopy? || k.PublishUndone? then OriginTicket(k.job.origin) else None
  }

  /** A client is creating a pending entry for the id drawn last. */
  predicate PcCreates(pc: Pc, h: Handler) {
    match pc
    case WaitPool(_, k) => ContCreates(k, h)
    case InPool(_, k) => ContCreates(k, h)
    case MakeTimer(_, id, ticket, _, _) => ticket == h.issued && id == ticket % UINT32_MOD
    case _ => true
  }

  predicate ContCreates(k: Cont, h: Handler) {
    k.PendingStruct? || k.PendingData? ==> k.ticket == h.issued && k.id == k.ticket % UINT32_MOD
  }

  predicate Creating(pc: Pc) {
    pc.MakeTimer? || ((pc.WaitPool? || pc.InPool?) && (pc.k.PendingStruct? || pc.k.PendingData?))
  }

  function InFlight(s: State, ticket: nat): nat {
    if 0 < |s.clients| && PcTicket(s.clients[0]) == Some(ticket) then 1 else 0
  }

  /** One pending entry: its id, and its publish attempts against its retries. */
  predicate EntryOk(p: Pending, h: Handler, inFlight: nat) {
    && p.ticket <= h.issued && p.msgId == p.ticket % UINT32_MOD
    && p.maxRetries == h.retries
    && p.retryCount + inFlight <= p.maxRetries
    && p.attempts == 1 + p.retryCount + inFlight
  }

  ghost predicate Decreasing(pending: seq<Pending>) {
    forall a, b | 0 <= a < b < |pending| :: pending[a].ticket > pending[b].ticket
  }

  ghost predicate RetryInv(s: State) {
    var h := s.handler;
    && h.nextMsgId == (h.issued + 1) % UINT32_MOD
    && Decreasing(h.pending)
    && (forall k | 0 <= k < |h.pending| :: EntryOk(h.pending[k], h, InFlight(s, h.pending[k].ticket)))
    && (forall c | 0 < c < |s.clients| :: PcTicket(s.clients[c]) == None)
    && (forall c | 0 <= c < |s.clients| :: PcCreates(s.clients[c], h))
    && (forall c, k | 0 <= c < |s.clients| && 0 <= k < |h.pending| ::
          Creating(s.clients[c]) ==> h.pending[k].ticket < h.issued)
    && (0 < |s.clients| && PcTicket(s.clients[0]).Some? ==> HasTicket(h.pending, PcTicket(s.clients[0]).value))
  }

  // ---------------------------------------------------------------- steps that leave the handler alone

  lemma SameHandlerKeeps(s: State, s': State, c: nat)
    requires RetryInv(s) && s'.handler == s.handler
    requires c < |s.clients| == |s'.clients| && s'.clients == s.clients[c := s'.clients[c]]
    requires PcTicket(s'.clients[c]) == PcTicket(s.clients[c])
    requires PcCreates(s'.clients[c], s.handler) && (Creating(s'.clients[c]) ==> Creating(s.clients[c]))
    ensures RetryInv(s')
  {
    forall d | 0 <= d < |s'.clients| ensures PcCreates(s'.clients[d], s.handler) {
      if d != c { assert PcCreates(s.clients[d], s.handler); }
    }
    forall d | 0 < d < |s'.clients| ensures PcTicket(s'.clients[d]) == None {
      assert PcTicket(s.clients[d]) == None;
    }
  }

  lemma ResumeKeepsTicket(s: State, c: nat, k: Cont, r: Option<Ptr>)
    requires c < |s.clients| && ContInBounds(k, |s.topics|) && ContCreates(k, s.handler)
    ensures var s' := Resume(s, c, k, r); var pc := s'.clients[c];
      && PcTicket(pc) == ContTicket(k) && PcCreates(pc, s.handler)
      && (Creating(pc) ==> k.PendingStruct? || k.PendingData?)
  {
  }

  lemma PoolCallKeepsRetry(s: State, c: nat, op: PoolCall, k: Cont)
    requires RetryInv(s) && c < |s.clients| && s.clients[c] == InPool(op, k) && ContInBounds(k, |s.topics|)
    ensures RetryInv(CallPool(s, c, op, k))
  {
    PoolCallFrame(s, c, op, k);
    PoolCallMatched(s, c, op, k);
    assert PcCreates(s.clients[c], s.handler);
    match op {
      case Malloc(size) =>
        var (pool, r) := BlockList.Alloc(s.pool, HEADER, size);
        ResumeKeepsTicket(Give(s.(pool := pool), PoolLock), c, k, r);
      case Release(p) =>
        ResumeKeepsTicket(Give(s.(pool := BlockList.Free(s.pool, HEADER, p)), PoolLock), c, k, None);
    }
    SameHandlerKeeps(s, CallPool(s, c, op, k), c);
  }

  lemma UnderTopicsKeepsRetry(s: State, c: nat, call: Call, env: Env)
    requires RetryInv(s) && c < |s.clients| && s.clients[c] == InTopics(call)
    ensures RetryInv(UnderTopics(s, c, call, env))
  {
    SameHandlerKeeps(s, UnderTopics(s, c, call, env), c);
  }

  lemma UnderTopicKeepsRetry(s: State, c: nat, i: nat, call: Call)
    requires RetryInv(s) && c < |s.clients| && s.clients[c] == InTopic(i, call)
    requires i < |s.topics| && !call.Create? && !call.Publish?
    ensures RetryInv(UnderTopic(s, c, i, call))
  {
    SameHandlerKeeps(s, UnderTopic(s, c, i, call), c);
  }

  lemma SendKeepsRetry(s: State, c: nat, job: Job, i: nat, data: Option<Ptr>, now: nat)
    requires RetryInv(s) && c < |s.clients| && s.clients[c] == Sending(job, i, data) && i < |s.topics|
    ensures RetryInv(Send(s, c, job, i, data, now))
  {
    SameHandlerKeeps(s, Send(s, c, job, i, data, now), c);
  }

  /** The remaining steps that only take or give back a mutex. */
  lemma PlainKeepsRetry(s: State, c: nat, env: Env)
    requires RetryInv(s) && Enabled(s, Run(c, env)) && Plain(s.clients[c]) && !s.clients[c].InHandler?
    ensures RetryInv(RunClient(s, c, env))
  {
    assert PcCreates(s.clients[c], s.handler);
    SameHandlerKeeps(s, RunClient(s, c, env), c);
  }

  // ---------------------------------------------------------------- steps on the handler

  lemma AloneWithHandler(s: State, c: nat, d: nat)
    requires LockInv(s) && c < |s.clients| && d < |s.clients| && c != d && HandlerLock in PcHolds(s.clients[c])
    ensures !Creating(s.clients[d])
  {
    MutualExclusion(s, Client(c), Client(d));
    assert HandlerLock in Holds(s, Client(c)) && HandlerLock !in Holds(s, Client(d));
  }

  /** Drawing an id: nobody else is creating an entry. */
  lemma UnderHandlerKeepsRetry(s: State, c: nat, job: Job, qos: nat)
    requires RetryInv(s) && LockInv(s) && c < |s.clients| && s.clients[c] == InHandler(job, qos)
    ensures RetryInv(UnderHandler(s, c, job, qos))
  {
    var s' := UnderHandler(s, c, job, qos);
    var h, h' := s.handler, s'.handler;
    forall d | 0 <= d < |s'.clients| ensures PcCreates(s'.clients[d], h') {
      if d != c { AloneWithHandler(s, c, d); }
    }
    forall k | 0 <= k < |h.pending| ensures EntryOk(h'.pending[k], h', InFlight(s', h'.pending[k].ticket)) {
      assert EntryOk(h.pending[k], h, InFlight(s, h.pending[k].ticket));
    }
    assert forall d | 0 < d < |s.clients| :: PcTicket(s.clients[d]) == None;
  }

  lemma PushKeepsTickets(p: Pending, pending: seq<Pending>)
    ensures forall t | HasTicket(pending, t) :: HasTicket([p] + pending, t)
  {
    forall t | HasTicket(pending, t) ensures HasTicket([p] + pending, t) {
      var j :| 0 <= j < |pending| && pending[j].ticket == t;
      assert ([p] + pending)[j + 1].ticket == t;
    }
  }

  /** The new entry has the largest ticket; nobody else is creating one. */
  lemma PushKeeps(s: State, s': State, c: nat, p: Pending)
    requires RetryInv(s) && LockInv(s) && c < |s.clients| && s.clients[c].MakeTimer?
    requires p.ticket == s.clients[c].ticket && EntryOk(p, s.handler, 0)
    requires s'.handler == s.handler.(pending := [p] + s.handler.pending)
    requires |s'.clients| == |s.clients| && s'.clients == s.clients[c := s'.clients[c]]
    requires PcTicket(s'.clients[c]) == None && PcTicket(s.clients[c]) == None
    requires PcCreates(s'.clients[c], s'.handler) && !Creating(s'.clients[c])
    ensures RetryInv(s')
  {
    var h, h' := s.handler, s'.handler;
    assert PcCreates(s.clients[c], h) && Creating(s.clients[c]);
    forall d | 0 <= d < |s'.clients| ensures PcCreates(s'.clients[d], h') && !Creating(s'.clients[d]) {
      if d != c { AloneWithHandler(s, c, d); assert PcCreates(s.clients[d], h); }
    }
    forall k | 0 <= k < |h'.pending| ensures EntryOk(h'.pending[k], h', InFlight(s', h'.pending[k].ticket)) {
      if k > 0 { assert EntryOk(h.pending[k - 1], h, InFlight(s, h.pending[k - 1].ticket)); }
    }
    PushKeepsTickets(p, h.pending);
    assert forall d | 0 < d < |s.clients| :: PcTicket(s.clients[d]) == None;
  }

  lemma StartKeepsRetry(s: State, c: nat, job: Job, id: nat, ticket: nat, node: Ptr, block: Ptr, granted: bool)
    requires RetryInv(s) && LockInv(s) && c < |s.clients|
    requires s.clients[c] == MakeTimer(job, id, ticket, node, block)
    ensures RetryInv(StartRetrying(s, c, job, id, ticket, node, block, granted))
  {
    var s' := StartRetrying(s, c, job, id, ticket, node, block, granted);
    assert PcCreates(s.clients[c], s.handler);
    if granted {
      PushKeeps(s, s', c, s'.handler.pending[0]);
    } else {
      SameHandlerKeeps(s, s', c);
    }
  }

  /** Replacing one entry by another with the same ticket keeps the list in order. */
  lemma UpdateKeepsOrder(pending: seq<Pending>, k: nat, p: Pending)
    requires Decreasing(pending) && k < |pending| && p.ticket == pending[k].ticket
    ensures Decreasing(pending[k := p])
    ensures forall ticket | HasTicket(pending, ticket) :: HasTicket(pending[k := p], ticket)
  {
    forall ticket | HasTicket(pending, ticket) ensures HasTicket(pending[k := p], ticket) {
      var j :| 0 <= j < |pending| && pending[j].ticket == ticket;
      assert pending[k := p][j].ticket == ticket;
    }
  }

  /** One entry and the timer daemon change together. */
  lemma EntryKeeps(s: State, s': State, k: nat, p: Pending)
    requires RetryInv(s) && 0 < |s.clients| == |s'.clients| && s'.clients == s.clients[0 := s'.clients[0]]
    requires k < |s.handler.pending| && p.ticket == s.handler.pending[k].ticket
    requires s'.handler == s.handler.(pending := s.handler.pending[k := p])
    requires PcTicket(s.clients[0]) == None || PcTicket(s.clients[0]) == Some(p.ticket)
    requires PcTicket(s'.clients[0]) == None || PcTicket(s'.clients[0]) == Some(p.ticket)
    requires EntryOk(p, s.handler, InFlight(s', p.ticket))
    requires !Creating(s'.clients[0]) && PcCreates(s'.clients[0], s'.handler)
    ensures RetryInv(s')
  {
    var h, h' := s.handler, s'.handler;
    UpdateKeepsOrder(h.pending, k, p);
    forall j | 0 <= j < |h'.pending| ensures EntryOk(h'.pending[j], h', InFlight(s', h'.pending[j].ticket)) {
      if j != k { assert EntryOk(h.pending[j], h, InFlight(s, h.pending[j].ticket)); }
    }
    forall d | 0 <= d < |s'.clients| ensures PcCreates(s'.clients[d], h') {
      if d != 0 { assert PcCreates(s.clients[d], h); }
    }
    forall d | 0 < d < |s'.clients| ensures PcTicket(s'.clients[d]) == None {
      assert PcTicket(s.clients[d]) == None;
    }
    assert h'.pending[k].ticket == p.ticket;
  }

  lemma FireKeepsRetry(s: State, ticket: nat)
    requires RetryInv(s) && 0 < |s.clients| && s.clients[0].Idle? && HasTicket(s.handler.pending, ticket)
    ensures RetryInv(FireTimer(s, ticket))
  {
    var k := PendingIndex(s.handler.pending, ticket);
    var s', p := FireTimer(s, ticket), s.handler.pending[k];
    assert EntryOk(p, s.handler, InFlight(s, ticket));
    if p.retryCount < p.maxRetries { EntryKeeps(s, s', k, s'.handler.pending[k]); }
  }

  lemma RetriedKeepsRetry(s: State, c: nat, ticket: nat)
    requires RetryInv(s) && c < |s.clients| && s.clients[c] == Retried(ticket)
    ensures RetryInv(WithPc(s.(handler := CountRetry(s.handler, ticket)), c, Idle(Okay)))
  {
    assert c == 0 && HasTicket(s.handler.pending, ticket);
    var k := PendingIndex(s.handler.pending, ticket);
    var p := s.handler.pending[k];
    assert EntryOk(p, s.handler, InFlight(s, ticket));
    EntryKeeps(s, WithPc(s.(handler := CountRetry(s.handler, ticket)), c, Idle(Okay)), k,
               p.(retryCount := p.retryCount + 1));
  }

  // ---------------------------------------------------------------- every step, every run

  lemma ClientKeepsRetry(s: State, c: nat, env: Env)
    requires RetryInv(s) && LockInv(s) && Enabled(s, Run(c, env))
    ensures RetryInv(RunClient(s, c, env))
  {
    var pc := s.clients[c];
    if pc.InHandler? { UnderHandlerKeepsRetry(s, c, pc.job, pc.qos); }
    else if Plain(pc) { PlainKeepsRetry(s, c, env); }
    else if pc.InPool? { PoolCallKeepsRetry(s, c, pc.op, pc.k); }
    else if pc.InTopics? { UnderTopicsKeepsRetry(s, c, pc.call, env); }
    else if pc.InTopic? { UnderTopicKeepsRetry(s, c, pc.i, pc.call); }
    else if pc.Sending? { SendKeepsRetry(s, c, pc.job, pc.i, pc.data, env.now); }
    else if pc.MakeTimer? { StartKeepsRetry(s, c, pc.job, pc.id, pc.ticket, pc.node, pc.block, env.granted); }
    else { RetriedKeepsRetry(s, c, pc.ticket); }
  }

  lemma BeginKeepsRetry(s: State, c: nat, request: Request)
    requires RetryInv(s) && Enabled(s, Begin(c, request))
    ensures RetryInv(WithPc(s, c, BeginPc(request)))
  {
    SameHandlerKeeps(s, WithPc(s, c, BeginPc(request)), c);
  }

  lemma SameKeeps(s: State, s': State)
    requires RetryInv(s) && s'.handler == s.handler && s'.clients == s.clients
    ensures RetryInv(s')
  {
    forall k | 0 <= k < |s.handler.pending|
      ensures EntryOk(s.handler.pending[k], s.handler, InFlight(s', s.handler.pending[k].ticket))
    {
      assert EntryOk(s.handler.pending[k], s.handler, InFlight(s, s.handler.pending[k].ticket));
    }
  }

  lemma StepKeepsRetry(s: State, a: Action)
    requires RetryInv(s) && LockInv(s) && Enabled(s, a)
    ensures RetryInv(Next(s, a))
  {
    match a
    case Begin(c, request) => BeginKeepsRetry(s, c, request);
    case Fire(ticket) => FireKeepsRetry(s, ticket);
    case Run(c, env) => ClientKeepsRetry(s, c, env);
    case RunTask(i) =>
      TaskFrame(s, i);
      SameKeeps(s, Next(s, a));
  }

  lemma {:induction false} RetryInRuns(s: State, run: seq<Action>)
    requires RetryInv(s) && LockInv(s) && Legal(s, run)
    ensures RetryInv(Exec(s, run)) && Exec(s, run).handler.retries == s.handler.retries
    decreases |run|
  {
    if run != [] {
      StepKeepsRetry(s, run[0]);
      StepKeepsLocks(s, run[0]);
      RetriesConstant(s, run[0]);
      RetryInRuns(Next(s, run[0]), run[1..]);
    }
  }

  lemma RetriesConstant(s: State, a: Action)
    requires Enabled(s, a)
    ensures Next(s, a).handler.retries == s.handler.retries
  {
    if a.Run? && s.clients[a.c].InPool? {
      PoolCallFrame(s, a.c, s.clients[a.c].op, s.clients[a.c].k);
    } else if a.RunTask? {
      TaskFrame(s, a.t);
    }
  }

  /** However long the timers fire, one QoS message is published at most 1 + retry_count times. */
  lemma AttemptsAreBounded(clients: nat, retries: nat, run: seq<Action>, k: nat)
    requires Legal(Boot(clients, retries), run)
    requires k < |Exec(Boot(clients, retries), run).handler.pending|
    ensures var p := Exec(Boot(clients, retries), run).handler.pending[k];
      1 <= p.attempts <= 1 + retries && p.retryCount <= retries
  {
    BootLocks(clients, retries);
    RetryInRuns(Boot(clients, retries), run);
    var s := Exec(Boot(clients, retries), run);
    assert EntryOk(s.handler.pending[k], s.handler, InFlight(s, s.handler.pending[k].ticket));
  }

  lemma IdsOrdered(s: State, a: nat, b: nat)
    requires RetryInv(s) && a < b < |s.handler.pending| && s.handler.issued < UINT32_MOD - 1
    ensures s.handler.pending[b].msgId < s.handler.pending[a].msgId < s.handler.nextMsgId
  {
    var h := s.handler;
    assert EntryOk(h.pending[a], h, InFlight(s, h.pending[a].ticket));
    assert EntryOk(h.pending[b], h, InFlight(s, h.pending[b].ticket));
  }

  /** Until the 32-bit counter wraps, ids strictly decrease from the head of the list and stay below next_msg_id. */
  lemma IdsDecrease(clients: nat, retries: nat, run: seq<Action>, a: nat, b: nat)
    requires Legal(Boot(clients, retries), run)
    requires var h := Exec(Boot(clients, retries), run).handler;
      a < b < |h.pending| && h.issued < UINT32_MOD - 1
    ensures var h := Exec(Boot(clients, retries), run).handler;
      h.pending[b].msgId < h.pending[a].msgId < h.nextMsgId
  {
    BootLocks(clients, retries);
    RetryInRuns(Boot(clients, retries), run);
    IdsOrdered(Exec(Boot(clients, retries), run), a, b);
  }

  /** A retry offers pubsub_publish the bytes, topic and priority recorded when the entry was made. */
  lemma RetriesRepeat(clients: nat, retries: nat, run: seq<Action>, ticket: nat)
    requires Legal(Boot(clients, retries), run)
    requires var s := Exec(Boot(clients, retries), run);
      Enabled(s, Fire(ticket)) && !Next(s, Fire(ticket)).clients[0].Idle?
    ensures var s := Exec(Boot(clients, retries), run);
      var p := s.handler.pending[PendingIndex(s.handler.pending, ticket)];
      Next(s, Fire(ticket)).clients[0] == WaitTopics(Publish(Job(p.topic, p.bytes, p.priority, ViaTimer(ticket))))
  {
    BootDelivers(clients, retries);
    DeliveryInRuns(Boot(clients, retries), run);
    var s := Exec(Boot(clients, retries), run);
    var p := s.handler.pending[PendingIndex(s.handler.pending, ticket)];
    assert p in s.handler.pending && PendingOk(s.mem, p);
  }
}
