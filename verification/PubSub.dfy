// The publish/subscribe core and the QoS retry handler as one shared state changed by atomic steps.
// A step is what one task does between two lock operations, or one operation on a FreeRTOS queue.
module PubSub {
  import opened Octets
  import opened Wrappers
  import opened BlockList

  const MAX_TOPICS := 50
  const MAX_TOPIC_NAME_LENGTH := 64
  const MAX_SUBSCRIBERS_PER_TOPIC := 20
  const MAX_QUEUE_SIZE := 100

  const POOL_SIZE := 12800   // MEMORY_POOL_BLOCKS * MEMORY_BLOCK_SIZE
  const HEADER := 12         // sizeof(block_header_t) on the 32-bit target
  const SUBSCRIBER := 12     // sizeof(subscriber_t)
  const PENDING := 100       // sizeof(pending_message_t)

  /** A pointer into the pool, named by the block it was granted for. */
  type Ptr = Block
  type Callback = nat

  datatype Priority = Low | Normal | High | Critical

  datatype Code = Okay | InvalidParam | NoMemory | TopicExists | TopicNotFound | QueueFull | MaxSubscribers

  /** pubsub_msg_t; the last two fields are history only: the publisher's bytes and its place among the accepted. */
  datatype Msg = Msg(topic: string, data: Option<Ptr>, len: nat, priority: Priority, timestamp: nat,
                     bytes: Bytes, serial: nat)

  datatype Subscriber = Subscriber(callback: Callback, userData: nat, node: Ptr)

  /** One callback invocation, with the payload as the callback finds it in memory. */
  datatype Invocation = Invocation(callback: Callback, userData: nat, payload: Bytes)

  /** History of one delivery: the message, the subscribers when the lock was taken, the calls made. */
  datatype Round = Round(msg: Msg, listeners: seq<Subscriber>, calls: seq<Invocation>)

  /** Where topic_task is. */
  datatype TaskPc =
    | Receiving                        // in xQueueReceive
    | Received(m: Msg)                 // waiting for topic->lock
    | Delivering(m: Msg, next: nat, round: Round)  // next is the position of current in topic->subscribers
    | WaitFree(p: Ptr)                 // waiting for the pool mutex
    | InFree(p: Ptr)
    | Unlocking

  datatype Topic = Topic(name: string, subscribers: seq<Subscriber>, count: nat, queue: seq<Msg>, task: TaskPc,
                         accepted: seq<Msg>, rounds: seq<Round>)

  /** pending_message_t; node is the struct itself, the last three fields are history only. */
  datatype Pending = Pending(msgId: nat, topic: string, data: Ptr, len: nat, priority: Priority,
                             retryCount: nat, maxRetries: nat, node: Ptr,
                             ticket: nat, bytes: Bytes, attempts: nat)

  /** message_handler_ctx; issued counts the ids given out so far. */
  datatype Handler = Handler(retries: nat, pending: seq<Pending>, nextMsgId: nat, issued: nat)

  datatype Lock = HandlerLock | TopicsLock | TopicLock(i: nat) | PoolLock

  /** Who called pubsub_publish. */
  datatype Origin = Direct | ViaHandler | ViaTimer(ticket: nat)

  datatype Job = Job(topic: string, data: Bytes, priority: Priority, origin: Origin)

  /** What is done under topics_lock. */
  datatype Call =
    | Create(name: string)
    | Publish(job: Job)
    | Subscribe(name: string, callback: Callback, userData: nat)
    | Unsubscribe(name: string, callback: Callback)

  datatype PoolCall = Malloc(size: nat) | Release(p: Ptr)

  /** The caller a pool call returns to. */
  datatype Cont =
    | PublishCopy(job: Job, i: nat)
    | PublishUndone(job: Job)
    | SubscribeLink(i: nat, callback: Callback, userData: nat)
    | UnsubscribeDone(i: nat)
    | PendingStruct(job: Job, id: nat, ticket: nat)
    | PendingData(job: Job, id: nat, ticket: nat, node: Ptr)
    | PendingDataFreed(node: Ptr)
    | PendingUndone

  datatype Pc =
    | Idle(last: Code)
    | WaitTopics(call: Call)
    | InTopics(call: Call)
    | WaitTopic(i: nat, call: Call)
    | InTopic(i: nat, call: Call)
    | WaitPool(op: PoolCall, k: Cont)
    | InPool(op: PoolCall, k: Cont)
    | Sending(job: Job, i: nat, data: Option<Ptr>)
    | LeaveTopic(i: nat, code: Code)
    | LeaveTopics(origin: Origin, code: Code)
    | WaitHandler(job: Job, qos: nat)
    | InHandler(job: Job, qos: nat)
    | MakeTimer(job: Job, id: nat, ticket: nat, node: Ptr, block: Ptr)
    | LeaveHandler(code: Code)
    | Retried(ticket: nat)

  datatype Tid = Client(c: nat) | Task(t: nat)

  /** Client 0 is the timer daemon, the others are application tasks. */
  datatype State = State(pool: Pool, mem: map<Ptr, Bytes>, topics: seq<Topic>, clients: seq<Pc>,
                         handler: Handler, owner: map<Lock, Tid>)

  datatype Request =
    | ReqCreate(name: string)
    | ReqPublish(name: string, data: Bytes, priority: Priority)
    | ReqSubscribe(name: string, callback: Callback, userData: nat)
    | ReqUnsubscribe(name: string, callback: Callback)
    | ReqPublishQos(name: string, data: Bytes, priority: Priority, qos: nat)

  /** What the environment decides: the clock, and whether FreeRTOS grants a queue, mutex, task or timer. */
  datatype Env = Env(now: nat, granted: bool)

  datatype Action = Begin(c: nat, request: Request) | Fire(ticket: nat) | Run(c: nat, env: Env) | RunTask(t: nat)

  // ---------------------------------------------------------------- helpers

  function Boot(clients: nat, retries: nat): State {
    State(BlockList.Init(HEADER, POOL_SIZE), map[], [], seq(clients, _ => Idle(Okay)),
          Handler(retries, [], 1, 0), map[])
  }

  function Load(mem: map<Ptr, Bytes>, p: Option<Ptr>): Bytes {
    if p.Some? && p.value in mem then mem[p.value] else []
  }

  /** strncpy into a topic field of MAX_TOPIC_NAME_LENGTH bytes. */
  function Truncate(name: string): string {
    if |name| < MAX_TOPIC_NAME_LENGTH then name else name[..MAX_TOPIC_NAME_LENGTH - 1]
  }

  /** The lookup loop over topics. */
  function Find(topics: seq<Topic>, name: string): (r: Option<nat>)
    ensures r.Some? ==> r.value < |topics| && topics[r.value].name == name
                        && forall j | 0 <= j < r.value :: topics[j].name != name
    ensures r.None? ==> forall j | 0 <= j < |topics| :: topics[j].name != name
  {
    FindFrom(topics, name, 0)
  }

  function FindFrom(topics: seq<Topic>, name: string, from: nat): (r: Option<nat>)
    requires from <= |topics|
    ensures r.Some? ==> from <= r.value < |topics| && topics[r.value].name == name
                        && forall j | from <= j < r.value :: topics[j].name != name
    ensures r.None? ==> forall j | from <= j < |topics| :: topics[j].name != name
    decreases |topics| - from
  {
    if from == |topics| then None
    else if topics[from].name == name then Some(from)
    else FindFrom(topics, name, from + 1)
  }

  /** The position of a callback in the subscriber list. */
  function Position(subs: seq<Subscriber>, callback: Callback): (r: Option<nat>)
    ensures r.Some? ==> r.value < |subs| && subs[r.value].callback == callback
                        && forall j | 0 <= j < r.value :: subs[j].callback != callback
    ensures r.None? ==> forall j | 0 <= j < |subs| :: subs[j].callback != callback
  {
    if subs == [] then None
    else if subs[0].callback == callback then Some(0)
    else
      var r := Position(subs[1..], callback);
      assert forall j | 0 < j < |subs| :: subs[j] == subs[1..][j - 1];
      if r.None? then None else Some(r.value + 1)
  }

  function WithPc(s: State, c: nat, pc: Pc): State
    requires c < |s.clients|
  {
    s.(clients := s.clients[c := pc])
  }

  function WithTopic(s: State, i: nat, t: Topic): State
    requires i < |s.topics|
  {
    s.(topics := s.topics[i := t])
  }

  function Take(s: State, lock: Lock, tid: Tid): State { s.(owner := s.owner[lock := tid]) }

  function Give(s: State, lock: Lock): State { s.(owner := s.owner - {lock}) }

  // ---------------------------------------------------------------- locks

  function OriginHolds(o: Origin): set<Lock> { if o.ViaHandler? then {HandlerLock} else {} }

  function CallOrigin(call: Call): Origin { if call.Publish? then call.job.origin else Direct }

  function ContHolds(k: Cont): set<Lock> {
    match k
    case PublishCopy(job, _) => {TopicsLock} + OriginHolds(job.origin)
    case PublishUndone(job) => {TopicsLock} + OriginHolds(job.origin)
    case SubscribeLink(i, _, _) => {TopicsLock, TopicLock(i)}
    case UnsubscribeDone(i) => {TopicsLock, TopicLock(i)}
    case PendingStruct(_, _, _) => {HandlerLock}
    case PendingData(_, _, _, _) => {HandlerLock}
    case PendingDataFreed(_) => {HandlerLock}
    case PendingUndone => {HandlerLock}
  }

  function PcHolds(pc: Pc): set<Lock> {
    match pc
    case Idle(_) => {}
    case WaitTopics(call) => OriginHolds(CallOrigin(call))
    case InTopics(call) => {TopicsLock} + OriginHolds(CallOrigin(call))
    case WaitTopic(_, _) => {TopicsLock}
    case InTopic(i, _) => {TopicsLock, TopicLock(i)}
    case WaitPool(_, k) => ContHolds(k)
    case InPool(_, k) => {PoolLock} + ContHolds(k)
    case Sending(job, _, _) => {TopicsLock} + OriginHolds(job.origin)
    case LeaveTopic(i, _) => {TopicsLock, TopicLock(i)}
    case LeaveTopics(o, _) => {TopicsLock} + OriginHolds(o)
    case WaitHandler(_, _) => {}
    case InHandler(_, _) => {HandlerLock}
    case MakeTimer(_, _, _, _, _) => {HandlerLock}
    case LeaveHandler(_) => {HandlerLock}
    case Retried(_) => {}
  }

  function TaskHolds(i: nat, pc: TaskPc): set<Lock> {
    match pc
    case Receiving => {}
    case Received(_) => {}
    case Delivering(_, _, _) => {TopicLock(i)}
    case WaitFree(_) => {TopicLock(i)}
    case InFree(_) => {TopicLock(i), PoolLock}
    case Unlocking => {TopicLock(i)}
  }

  function Holds(s: State, tid: Tid): set<Lock> {
    match tid
    case Client(c) => if c < |s.clients| then PcHolds(s.clients[c]) else {}
    case Task(i) => if i < |s.topics| then TaskHolds(i, s.topics[i].task) else {}
  }

  /** The lock a task is blocked on until it is free. */
  function Wants(s: State, tid: Tid): Option<Lock> {
    match tid
    case Client(c) =>
      if c >= |s.clients| then None else
        (match s.clients[c]
         case WaitTopics(_) => Some(TopicsLock)
         case WaitTopic(i, _) => Some(TopicLock(i))
         case WaitPool(_, _) => Some(PoolLock)
         case WaitHandler(_, _) => Some(HandlerLock)
         case _ => None)
    case Task(i) =>
      if i >= |s.topics| then None else
        (match s.topics[i].task
         case Received(_) => Some(TopicLock(i))
         case WaitFree(_) => Some(PoolLock)
         case _ => None)
  }

  /** The topic a client step indexes exists. */
  predicate InBounds(pc: Pc, n: nat) {
    match pc
    case WaitTopic(i, call) => i < n && !call.Create? && !call.Publish?
    case InTopic(i, call) => i < n && !call.Create? && !call.Publish?
    case Sending(_, i, _) => i < n
    case LeaveTopic(i, _) => i < n
    case WaitPool(_, k) => ContInBounds(k, n)
    case InPool(_, k) => ContInBounds(k, n)
    case _ => true
  }

  predicate ContInBounds(k: Cont, n: nat) {
    match k
    case PublishCopy(_, i) => i < n
    case SubscribeLink(i, _, _) => i < n
    case UnsubscribeDone(i) => i < n
    case _ => true
  }

  predicate LockFree(s: State, tid: Tid) {
    Wants(s, tid).None? || Wants(s, tid).value !in s.owner
  }

  predicate HasTicket(pending: seq<Pending>, ticket: nat) {
    exists k | 0 <= k < |pending| :: pending[k].ticket == ticket
  }

  predicate Enabled(s: State, a: Action) {
    match a
    case Begin(c, request) =>
      && 0 < c < |s.clients| && s.clients[c].Idle?
      // A caller's buffer and a block header fit in the address space together.
      && (request.ReqPublish? ==> |request.data| <= SIZE_T_MOD - 8)
      && (request.ReqPublishQos? ==> |request.data| <= SIZE_T_MOD - 8)
    case Fire(ticket) =>
      0 < |s.clients| && s.clients[0].Idle? && HasTicket(s.handler.pending, ticket)
    case Run(c, _) =>
      && c < |s.clients| && !s.clients[c].Idle?
      && InBounds(s.clients[c], |s.topics|) && LockFree(s, Client(c))
    case RunTask(i) =>
      && i < |s.topics| && LockFree(s, Task(i))
      && (s.topics[i].task.Receiving? ==> s.topics[i].queue != [])
  }

  // ---------------------------------------------------------------- steps

  function Next(s: State, a: Action): State
    requires Enabled(s, a)
  {
    match a
    case Begin(c, request) => WithPc(s, c, BeginPc(request))
    case Fire(ticket) => FireTimer(s, ticket)
    case Run(c, env) => RunClient(s, c, env)
    case RunTask(i) => StepTask(s, i)
  }

  /** Argument checks made before any lock is taken. */
  function BeginPc(request: Request): Pc {
    match request
    case ReqCreate(name) =>
      if |name| >= MAX_TOPIC_NAME_LENGTH then Idle(InvalidParam) else WaitTopics(Create(name))
    case ReqPublish(name, data, priority) => WaitTopics(Publish(Job(name, data, priority, Direct)))
    case ReqSubscribe(name, callback, userData) => WaitTopics(Subscribe(name, callback, userData))
    case ReqUnsubscribe(name, callback) => WaitTopics(Unsubscribe(name, callback))
    case ReqPublishQos(name, data, priority, qos) =>
      if data == [] then Idle(InvalidParam) else WaitHandler(Job(name, data, priority, ViaHandler), qos)
  }

  function PendingIndex(pending: seq<Pending>, ticket: nat): (k: nat)
    requires HasTicket(pending, ticket)
    ensures k < |pending| && pending[k].ticket == ticket
  {
    if pending[0].ticket == ticket then 0 else
      assert forall j | 0 < j < |pending| :: pending[j] == pending[1..][j - 1];
      1 + PendingIndex(pending[1..], ticket)
  }

  /** retry_timer_callback up to its call of pubsub_publish. */
  function FireTimer(s: State, ticket: nat): State
    requires 0 < |s.clients| && HasTicket(s.handler.pending, ticket)
  {
    var k := PendingIndex(s.handler.pending, ticket);
    var p := s.handler.pending[k];
    if p.retryCount >= p.maxRetries then s else
      WithPc(s.(handler := s.handler.(pending := s.handler.pending[k := p.(attempts := p.attempts + 1)])), 0,
             WaitTopics(Publish(Job(p.topic, Load(s.mem, Some(p.data)), p.priority, ViaTimer(ticket)))))
  }

  function RunClient(s: State, c: nat, env: Env): State
    requires c < |s.clients| && !s.clients[c].Idle? && InBounds(s.clients[c], |s.topics|)
  {
    match s.clients[c]
    case WaitTopics(call) => WithPc(Take(s, TopicsLock, Client(c)), c, InTopics(call))
    case InTopics(call) => UnderTopics(s, c, call, env)
    case WaitTopic(i, call) => WithPc(Take(s, TopicLock(i), Client(c)), c, InTopic(i, call))
    case InTopic(i, call) => UnderTopic(s, c, i, call)
    case WaitPool(op, k) => WithPc(Take(s, PoolLock, Client(c)), c, InPool(op, k))
    case InPool(op, k) => CallPool(s, c, op, k)
    case Sending(job, i, data) => Send(s, c, job, i, data, env.now)
    case LeaveTopic(i, code) => WithPc(Give(s, TopicLock(i)), c, LeaveTopics(Direct, code))
    case LeaveTopics(o, code) => WithPc(Give(s, TopicsLock), c, AfterPublish(o, code))
    case WaitHandler(job, qos) => WithPc(Take(s, HandlerLock, Client(c)), c, InHandler(job, qos))
    case InHandler(job, qos) => UnderHandler(s, c, job, qos)
    case MakeTimer(job, id, ticket, node, block) => StartRetrying(s, c, job, id, ticket, node, block, env.granted)
    case LeaveHandler(code) => WithPc(Give(s, HandlerLock), c, Idle(code))
    case Retried(ticket) => WithPc(s.(handler := CountRetry(s.handler, ticket)), c, Idle(Okay))
    case Idle(_) => s
  }

  function AfterPublish(o: Origin, code: Code): Pc {
    match o
    case Direct => Idle(code)
    case ViaHandler => LeaveHandler(code)
    case ViaTimer(ticket) => Retried(ticket)
  }

  /** The body of each entry point after topics_lock has been taken. */
  function UnderTopics(s: State, c: nat, call: Call, env: Env): State
    requires c < |s.clients|
  {
    match call
    case Create(name) =>
      if Find(s.topics, name).Some? then WithPc(s, c, LeaveTopics(Direct, TopicExists))
      else if |s.topics| >= MAX_TOPICS || !env.granted then WithPc(s, c, LeaveTopics(Direct, NoMemory))
      else WithPc(s.(topics := s.topics + [Topic(name, [], 0, [], Receiving, [], [])]), c, LeaveTopics(Direct, Okay))
    case Publish(job) =>
      var i := Find(s.topics, job.topic);
      WithPc(s, c, if i.None? then LeaveTopics(job.origin, TopicNotFound)
                   else if job.data == [] then Sending(job, i.value, None)
                   else WaitPool(Malloc(|job.data|), PublishCopy(job, i.value)))
    case _ =>
      var i := Find(s.topics, call.name);
      WithPc(s, c, if i.None? then LeaveTopics(Direct, TopicNotFound) else WaitTopic(i.value, call))
  }

  /** subscribe and unsubscribe after topic->lock has been taken. */
  function UnderTopic(s: State, c: nat, i: nat, call: Call): State
    requires c < |s.clients| && i < |s.topics| && !call.Create? && !call.Publish?
  {
    var t := s.topics[i];
    var at := Position(t.subscribers, call.callback);
    match call
    case Subscribe(_, callback, userData) =>
      WithPc(s, c, if at.Some? then LeaveTopic(i, InvalidParam)
                   else if t.count >= MAX_SUBSCRIBERS_PER_TOPIC then LeaveTopic(i, MaxSubscribers)
                   else WaitPool(Malloc(SUBSCRIBER), SubscribeLink(i, callback, userData)))
    case Unsubscribe(_, _) =>
      if at.None? then WithPc(s, c, LeaveTopic(i, InvalidParam)) else
        var subs := t.subscribers[..at.value] + t.subscribers[at.value + 1..];
        WithPc(WithTopic(s, i, t.(subscribers := subs)), c,
               WaitPool(Release(t.subscribers[at.value].node), UnsubscribeDone(i)))
  }

  /** One call of memory_pool_alloc or memory_pool_free, up to and including the release of its mutex. */
  function CallPool(s: State, c: nat, op: PoolCall, k: Cont): State
    requires c < |s.clients| && ContInBounds(k, |s.topics|)
  {
    match op
    case Malloc(size) =>
      var (pool, r) := Alloc(s.pool, HEADER, size);
      Resume(Give(s.(pool := pool), PoolLock), c, k, r)
    case Release(p) =>
      Resume(Give(s.(pool := Free(s.pool, HEADER, p)), PoolLock), c, k, None)
  }

  /** The caller continues with the result of its pool call. */
  function Resume(s: State, c: nat, k: Cont, r: Option<Ptr>): State
    requires c < |s.clients| && ContInBounds(k, |s.topics|)
  {
    match k
    case PublishCopy(job, i) =>
      if r.None? then WithPc(s, c, LeaveTopics(job.origin, NoMemory))
      else WithPc(s.(mem := s.mem[r.value := job.data]), c, Sending(job, i, r))
    case PublishUndone(job) => WithPc(s, c, LeaveTopics(job.origin, QueueFull))
    case SubscribeLink(i, callback, userData) =>
      if r.None? then WithPc(s, c, LeaveTopic(i, NoMemory)) else
        var t := s.topics[i];
        var subs := [Subscriber(callback, userData, r.value)] + t.subscribers;
        WithPc(WithTopic(s, i, t.(subscribers := subs, count := t.count + 1)), c, LeaveTopic(i, Okay))
    case UnsubscribeDone(i) =>
      var t := s.topics[i];
      WithPc(WithTopic(s, i, t.(count := (t.count - 1) % UINT32_MOD)), c, LeaveTopic(i, Okay))
    case PendingStruct(job, id, ticket) =>
      if r.None? then WithPc(s, c, LeaveHandler(NoMemory))
      else WithPc(s, c, WaitPool(Malloc(|job.data|), PendingData(job, id, ticket, r.value)))
    case PendingData(job, id, ticket, node) =>
      if r.None? then WithPc(s, c, WaitPool(Release(node), PendingUndone))
      else WithPc(s.(mem := s.mem[r.value := job.data]), c, MakeTimer(job, id, ticket, node, r.value))
    case PendingDataFreed(node) => WithPc(s, c, WaitPool(Release(node), PendingUndone))
    case PendingUndone => WithPc(s, c, LeaveHandler(NoMemory))
  }

  /** xQueueSendToFront for critical messages, xQueueSend otherwise, and the rollback when the queue is full. */
  function Send(s: State, c: nat, job: Job, i: nat, data: Option<Ptr>, now: nat): State
    requires c < |s.clients| && i < |s.topics|
  {
    var t := s.topics[i];
    var m := Msg(Truncate(job.topic), data, |job.data|, job.priority, now, job.data, |t.accepted|);
    if |t.queue| < MAX_QUEUE_SIZE then
      var queue := if job.priority == Critical then [m] + t.queue else t.queue + [m];
      WithPc(WithTopic(s, i, t.(queue := queue, accepted := t.accepted + [m])), c, LeaveTopics(job.origin, Okay))
    else if data.Some? then WithPc(s, c, WaitPool(Release(data.value), PublishUndone(job)))
    else WithPc(s, c, LeaveTopics(job.origin, QueueFull))
  }

  /** message_publish_with_qos after the handler lock has been taken. */
  function UnderHandler(s: State, c: nat, job: Job, qos: nat): State
    requires c < |s.clients|
  {
    var h := s.handler;
    var s' := s.(handler := h.(nextMsgId := (h.nextMsgId + 1) % UINT32_MOD, issued := h.issued + 1));
    WithPc(s', c, if qos > 0 then WaitPool(Malloc(PENDING), PendingStruct(job, h.nextMsgId, h.issued + 1))
                  else WaitTopics(Publish(job.(origin := ViaHandler))))
  }

  /** The end of create_pending_message, the linking of the new entry and the start of its timer. */
  function StartRetrying(s: State, c: nat, job: Job, id: nat, ticket: nat, node: Ptr, block: Ptr, granted: bool): State
    requires c < |s.clients|
  {
    if granted then
      var p := Pending(id, Truncate(job.topic), block, |job.data|, job.priority,
                       0, s.handler.retries, node, ticket, job.data, 1);
      WithPc(s.(handler := s.handler.(pending := [p] + s.handler.pending)), c,
             WaitTopics(Publish(job.(origin := ViaHandler))))
    else WithPc(s, c, WaitPool(Release(block), PendingDataFreed(node)))
  }

  function CountRetry(h: Handler, ticket: nat): Handler {
    if HasTicket(h.pending, ticket) then
      var k := PendingIndex(h.pending, ticket);
      h.(pending := h.pending[k := h.pending[k].(retryCount := h.pending[k].retryCount + 1)])
    else h
  }

  /** What one step of topic_task does to its topic. */
  function NextOfTask(t: Topic, mem: map<Ptr, Bytes>): Topic
    requires t.task.Receiving? ==> t.queue != []
  {
    match t.task
    case Receiving => t.(task := Received(t.queue[0]), queue := t.queue[1..])
    case Received(m) => t.(task := Delivering(m, 0, Round(m, t.subscribers, [])))
    case Delivering(m, next, round) =>
      if next < |t.subscribers| then
        var sub := t.subscribers[next];
        var calls := round.calls + [Invocation(sub.callback, sub.userData, Load(mem, m.data))];
        t.(task := Delivering(m, next + 1, round.(calls := calls)))
      else
        t.(task := if m.data.Some? then WaitFree(m.data.value) else Unlocking, rounds := t.rounds + [round])
    case WaitFree(p) => t.(task := InFree(p))
    case InFree(_) => t.(task := Unlocking)
    case Unlocking => t.(task := Receiving)
  }

  /** What it does to the mutexes and the pool. */
  function AroundTask(s: State, i: nat): State
    requires i < |s.topics|
  {
    match s.topics[i].task
    case Received(_) => Take(s, TopicLock(i), Task(i))
    case WaitFree(_) => Take(s, PoolLock, Task(i))
    case InFree(p) => Give(s.(pool := Free(s.pool, HEADER, p)), PoolLock)
    case Unlocking => Give(s, TopicLock(i))
    case _ => s
  }

  /** One step of topic_task. */
  function StepTask(s: State, i: nat): State
    requires i < |s.topics|
    requires s.topics[i].task.Receiving? ==> s.topics[i].queue != []
  {
    WithTopic(AroundTask(s, i), i, NextOfTask(s.topics[i], s.mem))
  }

  // ---------------------------------------------------------------- runs

  predicate Legal(s: State, run: seq<Action>)
    decreases |run|
  {
    run == [] || (Enabled(s, run[0]) && Legal(Next(s, run[0]), run[1..]))
  }

  function Exec(s: State, run: seq<Action>): State
    requires Legal(s, run)
    decreases |run|
  {
    if run == [] then s else Exec(Next(s, run[0]), run[1..])
  }
}
