// What a call did to the shared tables, and what its result code says about it, in every interleaving.
module PubSubCalls {
  import opened Octets
  import opened Wrappers
  import opened BlockList
  import opened PubSub
  import opened PubSubFrames
  import opened PubSubDelivery
  import opened PubSubLocks
  import opened PubSubOwnership
  import opened PubSubSubscribers
  import opened PubSubOutcomes
  import opened Slices

  // ---------------------------------------------------------------- deeds, read off the tables

  /** One change of the shared tables. */
  datatype Deed =
    | Created(topic: string)
    | Accepted(topic: string, m: Msg)
    | Relisted(topic: string, before: seq<Subscriber>, after: seq<Subscriber>)
    | Kept(p: Pending)

  function Messages(name: string, ms: seq<Msg>): seq<Deed> {
    if ms == [] then [] else [Accepted(name, ms[0])] + Messages(name, ms[1..])
  }

  function Entries(ps: seq<Pending>): seq<Deed> {
    if ps == [] then [] else [Kept(ps[0])] + Entries(ps[1..])
  }

  /** The difference between two states of one topic: messages accepted, another subscriber list. */
  function TopicDeeds(t: Topic, u: Topic): seq<Deed> {
    (if |u.accepted| > |t.accepted| then Messages(t.name, u.accepted[|t.accepted|..]) else [])
    + (if u.subscribers != t.subscribers then [Relisted(t.name, t.subscribers, u.subscribers)] else [])
  }

  function TableDeeds(ts: seq<Topic>, us: seq<Topic>): seq<Deed>
    decreases |us|
  {
    if us == [] then []
    else if ts == [] then [Created(us[0].name)] + TableDeeds([], us[1..])
    else TopicDeeds(ts[0], us[0]) + TableDeeds(ts[1..], us[1..])
  }

  function EntryDeeds(ps: seq<Pending>, qs: seq<Pending>): seq<Deed> {
    if |qs| > |ps| then Entries(qs[..|qs| - |ps|]) else []
  }

  function Deeds(s: State, s': State): seq<Deed> {
    EntryDeeds(s.handler.pending, s'.handler.pending) + TableDeeds(s.topics, s'.topics)
  }

  /** The deeds of one action, if it is a step of client c. */
  function DeedsOf(s: State, a: Action, c: nat): seq<Deed>
    requires Enabled(s, a)
  {
    if a.Run? && a.c == c then Deeds(s, Next(s, a)) else []
  }

  /** What the steps of client c did in a run. */
  function DoneBy(s: State, run: seq<Action>, c: nat): seq<Deed>
    requires Legal(s, run)
    decreases |run|
  {
    if run == [] then [] else DeedsOf(s, run[0], c) + DoneBy(Next(s, run[0]), run[1..], c)
  }

  lemma NothingDone(t: Topic)
    ensures TopicDeeds(t, t) == []
  {
  }

  lemma {:induction false} SameTableNoDeeds(ts: seq<Topic>)
    ensures TableDeeds(ts, ts) == []
  {
    if ts != [] {
      NothingDone(ts[0]);
      SameTableNoDeeds(ts[1..]);
    }
  }

  /** A change of one topic is all that is found. */
  lemma {:induction false} OneTopicDeeds(ts: seq<Topic>, i: nat, u: Topic)
    requires i < |ts|
    ensures TableDeeds(ts, ts[i := u]) == TopicDeeds(ts[i], u)
    decreases |ts|
  {
    var us := ts[i := u];
    if i == 0 {
      assert us[1..] == ts[1..];
      SameTableNoDeeds(ts[1..]);
    } else {
      assert us[1..] == ts[1..][i - 1 := u] && us[0] == ts[0];
      NothingDone(ts[0]);
      OneTopicDeeds(ts[1..], i - 1, u);
    }
  }

  lemma {:induction false} NewTopicDeeds(ts: seq<Topic>, u: Topic)
    ensures TableDeeds(ts, ts + [u]) == [Created(u.name)]
  {
    if ts == [] {
      assert [u][1..] == [];
    } else {
      assert (ts + [u])[1..] == ts[1..] + [u] && (ts + [u])[0] == ts[0];
      NothingDone(ts[0]);
      NewTopicDeeds(ts[1..], u);
    }
  }

  // ---------------------------------------------------------------- what a call promises

  /** The message carries the caller's bytes and priority. */
  predicate Carries(m: Msg, data: Bytes, priority: Priority) {
    m.bytes == data && m.len == |data| && m.priority == priority
  }

  predicate AcceptedFor(d: Deed, name: string, data: Bytes, priority: Priority) {
    d.Accepted? && d.topic == name && d.m.topic == Truncate(name) && Carries(d.m, data, priority)
  }

  /** The pending entry a QoS call leaves: the caller's bytes and priority, its topic name cut to its field. */
  predicate KeptFor(p: Pending, q: Request) {
    && q.ReqPublishQos? && q.qos > 0
    && p.topic == Truncate(q.name) && p.bytes == q.data && p.len == |q.data| && p.priority == q.priority
  }

  /** The entry that precedes the publishing of a QoS message. */
  predicate Before(q: Request, done: seq<Deed>) {
    if q.ReqPublishQos? && q.qos > 0 then |done| == 1 && done[0].Kept? && KeptFor(done[0].p, q) else done == []
  }

  ghost predicate RelistedFor(d: Deed, q: Request)
    requires q.ReqSubscribe? || q.ReqUnsubscribe?
  {
    && d.Relisted? && d.topic == q.name
    && if q.ReqSubscribe? then
         && !Lists(d.before, q.callback) && d.after != [] && d.after[1..] == d.before
         && d.after[0].callback == q.callback && d.after[0].userData == q.userData
       else
         && !Lists(d.after, q.callback)
         && exists k | 0 <= k < |d.before| ::
              d.before[k].callback == q.callback && d.after == d.before[..k] + d.before[k + 1..]
  }

  /** Exactly what was asked for has been done, once. */
  ghost predicate Fulfilled(q: Request, done: seq<Deed>) {
    match q
    case ReqCreate(name) => done == [Created(name)]
    case ReqPublish(name, data, priority) => |done| == 1 && AcceptedFor(done[0], name, data, priority)
    case ReqSubscribe(_, _, _) => |done| == 1 && RelistedFor(done[0], q)
    case ReqUnsubscribe(_, _) => |done| == 1 && RelistedFor(done[0], q)
    case ReqPublishQos(name, data, priority, _) =>
      |done| > 0 && Before(q, done[..|done| - 1]) && AcceptedFor(done[|done| - 1], name, data, priority)
  }

  /** Nothing has been done, except that a QoS message may have been kept for its retries. */
  predicate Refused(q: Request, done: seq<Deed>) { done == [] || Before(q, done) }

  ghost predicate Over(code: Code, q: Request, done: seq<Deed>) {
    if code == Okay then Fulfilled(q, done) else Refused(q, done)
  }

  lemma NotBoth(q: Request, done: seq<Deed>)
    ensures !(Fulfilled(q, done) && Refused(q, done))
  {
  }

  // ---------------------------------------------------------------- where a call stands

  predicate NamedAt(topics: seq<Topic>, i: nat, name: string) { i < |topics| && topics[i].name == name }

  predicate JobOf(job: Job, q: Request) {
    match q
    case ReqPublish(name, data, priority) => job == Job(name, data, priority, Direct)
    case ReqPublishQos(name, data, priority, _) => job == Job(name, data, priority, ViaHandler)
    case _ => false
  }

  predicate CallOf(call: Call, q: Request) {
    match call
    case Create(name) => q == ReqCreate(name)
    case Publish(job) => JobOf(job, q)
    case Subscribe(name, callback, userData) => q == ReqSubscribe(name, callback, userData)
    case Unsubscribe(name, callback) => q == ReqUnsubscribe(name, callback)
  }

  predicate Listing(q: Request) { q.ReqSubscribe? || q.ReqUnsubscribe? }

  ghost predicate ContStands(topics: seq<Topic>, k: Cont, q: Request, done: seq<Deed>) {
    match k
    case PublishCopy(job, i) => JobOf(job, q) && NamedAt(topics, i, q.name) && Before(q, done)
    case PublishUndone(job) => JobOf(job, q) && Before(q, done)
    case SubscribeLink(i, callback, userData) =>
      q.ReqSubscribe? && q == ReqSubscribe(q.name, callback, userData) && NamedAt(topics, i, q.name) && done == []
    case UnsubscribeDone(_) => q.ReqUnsubscribe? && Fulfilled(q, done)
    case PendingStruct(job, _, _) => q.ReqPublishQos? && q.qos > 0 && JobOf(job, q) && done == []
    case PendingData(job, _, _, _) => q.ReqPublishQos? && q.qos > 0 && JobOf(job, q) && done == []
    case PendingDataFreed(_) => q.ReqPublishQos? && done == []
    case PendingUndone => q.ReqPublishQos? && done == []
  }

  /** A client at pc has call q under way and has done this so far. */
  ghost predicate Stands(topics: seq<Topic>, pc: Pc, q: Request, done: seq<Deed>) {
    match pc
    case Idle(code) => Over(code, q, done)
    case WaitTopics(call) => CallOf(call, q) && Before(q, done)
    case InTopics(call) => CallOf(call, q) && Before(q, done)
    case WaitTopic(i, call) => Listing(q) && CallOf(call, q) && NamedAt(topics, i, q.name) && done == []
    case InTopic(i, call) => Listing(q) && CallOf(call, q) && NamedAt(topics, i, q.name) && done == []
    case WaitPool(_, k) => ContStands(topics, k, q, done)
    case InPool(_, k) => ContStands(topics, k, q, done)
    case Sending(job, i, _) => JobOf(job, q) && NamedAt(topics, i, q.name) && Before(q, done)
    case LeaveTopic(_, code) => Listing(q) && Over(code, q, done)
    case LeaveTopics(o, code) => (o.ViaHandler? <==> q.ReqPublishQos?) && !o.ViaTimer? && Over(code, q, done)
    case WaitHandler(job, qos) => q.ReqPublishQos? && qos == q.qos && JobOf(job, q) && done == []
    case InHandler(job, qos) => q.ReqPublishQos? && qos == q.qos && JobOf(job, q) && done == []
    case MakeTimer(job, _, _, _, _) => q.ReqPublishQos? && q.qos > 0 && JobOf(job, q) && done == []
    case LeaveHandler(code) => q.ReqPublishQos? && Over(code, q, done)
    case Retried(_) => false
  }

  lemma BeginStands(topics: seq<Topic>, q: Request)
    ensures Stands(topics, BeginPc(q), q, [])
  {
  }

  // ---------------------------------------------------------------- the client's own steps

  ghost predicate StandsAfter(s: State, s': State, c: nat, q: Request, done: seq<Deed>) {
    c < |s.clients| == |s'.clients| && Stands(s'.topics, s'.clients[c], q, done + Deeds(s, s'))
  }

  lemma QuietStep(s: State, s': State, c: nat, q: Request, done: seq<Deed>)
    requires s'.topics == s.topics && s'.handler.pending == s.handler.pending
    requires c < |s.clients| == |s'.clients| && Stands(s'.topics, s'.clients[c], q, done)
    ensures StandsAfter(s, s', c, q, done)
  {
    SameTableNoDeeds(s.topics);
    assert Deeds(s, s') == [];
    assert done + [] == done;
  }

  /** One topic changes, and nothing else that leaves a deed. */
  lemma TopicStep(s: State, s': State, c: nat, i: nat, u: Topic, q: Request, done: seq<Deed>)
    requires i < |s.topics| && s'.topics == s.topics[i := u] && s'.handler.pending == s.handler.pending
    requires c < |s.clients| == |s'.clients|
    requires Stands(s'.topics, s'.clients[c], q, done + TopicDeeds(s.topics[i], u))
    ensures StandsAfter(s, s', c, q, done)
  {
    OneTopicDeeds(s.topics, i, u);
    assert Deeds(s, s') == TopicDeeds(s.topics[i], u);
  }

  lemma CreateStep(s: State, c: nat, name: string, env: Env, q: Request, done: seq<Deed>)
    requires c < |s.clients| && q == ReqCreate(name) && done == []
    ensures StandsAfter(s, UnderTopics(s, c, Create(name), env), c, q, done)
  {
    var s' := UnderTopics(s, c, Create(name), env);
    if |s'.topics| > |s.topics| {
      NewTopicDeeds(s.topics, s'.topics[|s.topics|]);
      assert Deeds(s, s') == [Created(name)];
    } else {
      QuietStep(s, s', c, q, done);
    }
  }

  lemma LookupStep(s: State, c: nat, call: Call, env: Env, q: Request, done: seq<Deed>)
    requires c < |s.clients| && !call.Create? && CallOf(call, q) && Before(q, done)
    ensures StandsAfter(s, UnderTopics(s, c, call, env), c, q, done)
  {
    QuietStep(s, UnderTopics(s, c, call, env), c, q, done);
  }

  lemma UnlinkDeed(t: Topic, u: Topic, q: Request, at: nat)
    requires q.ReqUnsubscribe? && t.name == q.name && Distinct(t.subscribers)
    requires at < |t.subscribers| && t.subscribers[at].callback == q.callback
    requires u == t.(subscribers := t.subscribers[..at] + t.subscribers[at + 1..])
    ensures TopicDeeds(t, u) == [Relisted(t.name, t.subscribers, u.subscribers)]
    ensures Fulfilled(q, TopicDeeds(t, u))
  {
    RemovedOnly(t.subscribers, at);
    assert |u.subscribers| < |t.subscribers|;
  }

  lemma ListStep(s: State, c: nat, i: nat, call: Call, q: Request, done: seq<Deed>)
    requires SubsInv(s) && c < |s.clients|
    requires Listing(q) && CallOf(call, q) && NamedAt(s.topics, i, q.name) && done == []
    ensures StandsAfter(s, UnderTopic(s, c, i, call), c, q, done)
  {
    var t, s' := s.topics[i], UnderTopic(s, c, i, call);
    var at := Position(t.subscribers, q.callback);
    if q.ReqUnsubscribe? && at.Some? {
      assert SubsOk(s, i);
      UnlinkDeed(t, s'.topics[i], q, at.value);
      TopicStep(s, s', c, i, s'.topics[i], q, done);
    } else {
      QuietStep(s, s', c, q, done);
    }
  }

  lemma LinkStep(s: State, c: nat, op: PoolCall, k: Cont, q: Request, done: seq<Deed>)
    requires c < |s.clients| && s.clients[c] == InPool(op, k) && k.SubscribeLink? && ContStands(s.topics, k, q, done)
    requires Absent(s.topics[k.i].subscribers, k.callback)
    ensures StandsAfter(s, CallPool(s, c, op, k), c, q, done)
  {
    var t, s' := s.topics[k.i], CallPool(s, c, op, k);
    var u := s'.topics[k.i];
    if |u.subscribers| > |t.subscribers| {
      assert u.subscribers[1..] == t.subscribers;
      assert TopicDeeds(t, u) == [Relisted(q.name, t.subscribers, u.subscribers)];
      TopicStep(s, s', c, k.i, u, q, done);
    } else {
      QuietStep(s, s', c, q, done);
    }
  }

  lemma CountStep(s: State, c: nat, op: PoolCall, k: Cont, q: Request, done: seq<Deed>)
    requires c < |s.clients| && k.UnsubscribeDone? && ContInBounds(k, |s.topics|) && ContStands(s.topics, k, q, done)
    ensures StandsAfter(s, CallPool(s, c, op, k), c, q, done)
  {
    var s' := CallPool(s, c, op, k);
    assert TopicDeeds(s.topics[k.i], s'.topics[k.i]) == [];
    assert done + [] == done;
    TopicStep(s, s', c, k.i, s'.topics[k.i], q, done);
  }

  /** Publishing and keeping go on after a pool call without touching a table. */
  lemma OtherResume(s: State, c: nat, k: Cont, r: Option<Ptr>, q: Request, done: seq<Deed>)
    requires c < |s.clients| && ContInBounds(k, |s.topics|) && ContStands(s.topics, k, q, done)
    requires !k.SubscribeLink? && !k.UnsubscribeDone?
    ensures var s' := Resume(s, c, k, r);
      && s'.topics == s.topics && s'.handler == s.handler
      && |s'.clients| == |s.clients| && Stands(s.topics, s'.clients[c], q, done)
  {
  }

  lemma OtherPoolStep(s: State, c: nat, op: PoolCall, k: Cont, q: Request, done: seq<Deed>)
    requires c < |s.clients| && ContInBounds(k, |s.topics|) && ContStands(s.topics, k, q, done)
    requires !k.SubscribeLink? && !k.UnsubscribeDone?
    ensures StandsAfter(s, CallPool(s, c, op, k), c, q, done)
  {
    match op {
      case Malloc(size) =>
        var (pool, r) := Alloc(s.pool, HEADER, size);
        OtherResume(Give(s.(pool := pool), PoolLock), c, k, r, q, done);
      case Release(p) =>
        OtherResume(Give(s.(pool := BlockList.Free(s.pool, HEADER, p)), PoolLock), c, k, None, q, done);
    }
    QuietStep(s, CallPool(s, c, op, k), c, q, done);
  }

  lemma OneMessage(t: Topic, u: Topic, m: Msg)
    requires u.accepted == t.accepted + [m] && u.subscribers == t.subscribers
    ensures TopicDeeds(t, u) == [Accepted(t.name, m)]
  {
    assert u.accepted[|t.accepted|..] == [m];
    assert [m][1..] == [];
    assert Messages(t.name, [m]) == [Accepted(t.name, m)];
  }

  lemma AcceptFulfils(q: Request, done: seq<Deed>, d: Deed)
    requires q.ReqPublish? || q.ReqPublishQos?
    requires Before(q, done) && AcceptedFor(d, q.name, q.data, q.priority)
    ensures Fulfilled(q, done + [d])
  {
    var all := done + [d];
    assert all[..|all| - 1] == done && all[|all| - 1] == d;
  }

  lemma SendStep(s: State, c: nat, job: Job, i: nat, data: Option<Ptr>, now: nat, q: Request, done: seq<Deed>)
    requires c < |s.clients| && JobOf(job, q) && NamedAt(s.topics, i, q.name) && Before(q, done)
    ensures StandsAfter(s, Send(s, c, job, i, data, now), c, q, done)
  {
    var t, s' := s.topics[i], Send(s, c, job, i, data, now);
    if |t.queue| < MAX_QUEUE_SIZE {
      var m := Msg(Truncate(job.topic), data, |job.data|, job.priority, now, job.data, |t.accepted|);
      OneMessage(t, s'.topics[i], m);
      AcceptFulfils(q, done, Accepted(t.name, m));
      TopicStep(s, s', c, i, s'.topics[i], q, done);
    } else {
      QuietStep(s, s', c, q, done);
    }
  }

  lemma StartStep(s: State, c: nat, job: Job, id: nat, ticket: nat, node: Ptr, block: Ptr, granted: bool, q: Request,
                  done: seq<Deed>)
    requires c < |s.clients| && q.ReqPublishQos? && q.qos > 0 && JobOf(job, q) && done == []
    ensures StandsAfter(s, StartRetrying(s, c, job, id, ticket, node, block, granted), c, q, done)
  {
    var s' := StartRetrying(s, c, job, id, ticket, node, block, granted);
    if granted {
      var p := s'.handler.pending[0];
      assert s'.handler.pending[..1] == [p];
      assert Entries([p]) == [Kept(p)] by { assert [p][1..] == []; }
      SameTableNoDeeds(s.topics);
      assert Deeds(s, s') == [Kept(p)];
    } else {
      QuietStep(s, s', c, q, done);
    }
  }

  lemma PoolStep(s: State, c: nat, op: PoolCall, k: Cont, q: Request, done: seq<Deed>)
    requires SubsInv(s) && c < |s.clients| && s.clients[c] == InPool(op, k) && ContInBounds(k, |s.topics|)
    requires ContStands(s.topics, k, q, done)
    ensures StandsAfter(s, CallPool(s, c, op, k), c, q, done)
  {
    if k.SubscribeLink? {
      assert SubsOk(s, k.i) && Agrees(s.topics[k.i], k.i, s.clients[c]);
      LinkStep(s, c, op, k, q, done);
    } else if k.UnsubscribeDone? {
      CountStep(s, c, op, k, q, done);
    } else {
      OtherPoolStep(s, c, op, k, q, done);
    }
  }

  lemma DrawStands(s: State, c: nat, job: Job, qos: nat, q: Request, done: seq<Deed>)
    requires c < |s.clients| && Stands(s.topics, InHandler(job, qos), q, done)
    ensures Stands(s.topics, UnderHandler(s, c, job, qos).clients[c], q, done)
  {
  }

  lemma PlainStands(s: State, c: nat, env: Env, q: Request, done: seq<Deed>)
    requires Enabled(s, Run(c, env)) && Plain(s.clients[c]) && Stands(s.topics, s.clients[c], q, done)
    ensures var s' := RunClient(s, c, env); c < |s'.clients| && Stands(s.topics, s'.clients[c], q, done)
  {
    if s.clients[c].InHandler? { DrawStands(s, c, s.clients[c].job, s.clients[c].qos, q, done); }
  }

  /** Steps that take or give back a mutex, or draw an id. */
  lemma PlainStep(s: State, c: nat, env: Env, q: Request, done: seq<Deed>)
    requires Enabled(s, Run(c, env)) && Plain(s.clients[c]) && Stands(s.topics, s.clients[c], q, done)
    ensures StandsAfter(s, RunClient(s, c, env), c, q, done)
  {
    PlainMoves(s, c, env);
    PlainStands(s, c, env, q, done);
    QuietStep(s, RunClient(s, c, env), c, q, done);
  }

  lemma OwnStep(s: State, c: nat, env: Env, q: Request, done: seq<Deed>)
    requires SubsInv(s) && Enabled(s, Run(c, env)) && Stands(s.topics, s.clients[c], q, done)
    ensures StandsAfter(s, RunClient(s, c, env), c, q, done)
  {
    var pc := s.clients[c];
    if Plain(pc) { PlainStep(s, c, env, q, done); }
    else if pc.InPool? { PoolStep(s, c, pc.op, pc.k, q, done); }
    else if pc.InTopics? {
      if pc.call.Create? { CreateStep(s, c, pc.call.name, env, q, done); }
      else { LookupStep(s, c, pc.call, env, q, done); }
    }
    else if pc.InTopic? { ListStep(s, c, pc.i, pc.call, q, done); }
    else if pc.Sending? { SendStep(s, c, pc.job, pc.i, pc.data, env.now, q, done); }
    else { StartStep(s, c, pc.job, pc.id, pc.ticket, pc.node, pc.block, env.granted, q, done); }
  }

  // ---------------------------------------------------------------- everybody else's steps

  ghost predicate NamesGrow(ts: seq<Topic>, us: seq<Topic>) {
    |us| >= |ts| && forall i | 0 <= i < |ts| :: us[i].name == ts[i].name
  }

  lemma StepGrowsNames(s: State, a: Action)
    requires Enabled(s, a)
    ensures NamesGrow(s.topics, Next(s, a).topics)
  {
    if a.Run? {
      if s.clients[a.c].Sending? {
        assert |Next(s, a).topics| == |s.topics|;
      } else {
        ClientFrame(s, a.c, a.env);
        forall i | 0 <= i < |s.topics| ensures Next(s, a).topics[i].name == s.topics[i].name {
          assert SameTraffic(s.topics[i], Next(s, a).topics[i]);
        }
      }
    } else if a.RunTask? {
      TaskFrame(s, a.t);
    }
  }

  lemma StandsStill(ts: seq<Topic>, us: seq<Topic>, pc: Pc, q: Request, done: seq<Deed>)
    requires NamesGrow(ts, us) && Stands(ts, pc, q, done)
    ensures Stands(us, pc, q, done)
  {
  }

  /** Nobody but client c and those it calls on moves client c. */
  predicate Foreign(a: Action, c: nat) { !((a.Run? || a.Begin?) && a.c == c) }

  lemma OthersLeaveClient(s: State, a: Action, c: nat)
    requires LockInv(s) && Enabled(s, a) && Foreign(a, c) && 0 < c < |s.clients|
    ensures |Next(s, a).clients| == |s.clients| && Next(s, a).clients[c] == s.clients[c]
  {
    if a.Run? { ClientMoves(s, a.c, a.env); }
    else if a.RunTask? { TaskFrame(s, a.t); }
  }

  // ---------------------------------------------------------------- runs

  /** Client c starts no other call. */
  predicate NoBegin(run: seq<Action>, c: nat) { forall a | a in run :: a.Begin? ==> a.c != c }

  ghost predicate CallInv(s: State, c: nat, q: Request, done: seq<Deed>) {
    LockInv(s) && SubsInv(s) && 0 < c < |s.clients| && Stands(s.topics, s.clients[c], q, done)
  }

  lemma StepKeepsCall(s: State, a: Action, c: nat, q: Request, done: seq<Deed>)
    requires CallInv(s, c, q, done) && Enabled(s, a) && !(a.Begin? && a.c == c)
    ensures CallInv(Next(s, a), c, q, done + DeedsOf(s, a, c))
  {
    StepKeepsLocks(s, a);
    StepKeepsSubs(s, a);
    if a.Run? && a.c == c {
      OwnStep(s, c, a.env, q, done);
    } else {
      OthersLeaveClient(s, a, c);
      StepGrowsNames(s, a);
      StandsStill(s.topics, Next(s, a).topics, s.clients[c], q, done);
      assert done + [] == done;
    }
  }

  /** The first action of a run, taken apart. */
  lemma FirstOfRun(s: State, run: seq<Action>, c: nat)
    requires Legal(s, run) && run != []
    ensures Enabled(s, run[0]) && Legal(Next(s, run[0]), run[1..])
    ensures DoneBy(s, run, c) == DeedsOf(s, run[0], c) + DoneBy(Next(s, run[0]), run[1..], c)
    ensures Exec(s, run) == Exec(Next(s, run[0]), run[1..])
  {
  }

  lemma {:induction false} CallInRuns(s: State, run: seq<Action>, c: nat, q: Request, done: seq<Deed>)
    requires CallInv(s, c, q, done) && Legal(s, run) && NoBegin(run, c)
    ensures CallInv(Exec(s, run), c, q, done + DoneBy(s, run, c))
    decreases |run|
  {
    if run == [] {
      assert done + [] == done;
    } else {
      var a, rest := run[0], run[1..];
      assert a in run;
      FirstOfRun(s, run, c);
      StepKeepsCall(s, a, c, q, done);
      CallInRuns(Next(s, a), rest, c, q, done + DeedsOf(s, a, c));
      Regroup(done, DeedsOf(s, a, c), DoneBy(Next(s, a), rest, c));
    }
  }

  lemma CallFromBegin(clients: nat, retries: nat, run: seq<Action>, c: nat, q: Request, more: seq<Action>)
    requires Legal(Boot(clients, retries), run) && Enabled(Exec(Boot(clients, retries), run), Begin(c, q))
    requires Legal(Next(Exec(Boot(clients, retries), run), Begin(c, q)), more) && NoBegin(more, c)
    ensures var s := Next(Exec(Boot(clients, retries), run), Begin(c, q));
      CallInv(Exec(s, more), c, q, DoneBy(s, more, c))
  {
    BootLocks(clients, retries);
    SubsInRuns(Boot(clients, retries), run);
    var s := Exec(Boot(clients, retries), run);
    StepKeepsLocks(s, Begin(c, q));
    StepKeepsSubs(s, Begin(c, q));
    BeginStands(s.topics, q);
    CallInRuns(Next(s, Begin(c, q)), more, c, q, []);
    assert [] + DoneBy(Next(s, Begin(c, q)), more, c) == DoneBy(Next(s, Begin(c, q)), more, c);
  }

  /** The result code tells what the call did. From the Begin of any call to the client's next return, in any
      interleaving: the code is Okay if and only if that call did exactly what was asked for, once, and otherwise it
      did nothing, but for the entry that retries a QoS message. */
  lemma CallOutcome(clients: nat, retries: nat, run: seq<Action>, c: nat, q: Request, more: seq<Action>)
    requires Legal(Boot(clients, retries), run) && Enabled(Exec(Boot(clients, retries), run), Begin(c, q))
    requires Legal(Next(Exec(Boot(clients, retries), run), Begin(c, q)), more) && NoBegin(more, c)
    requires var s' := Exec(Next(Exec(Boot(clients, retries), run), Begin(c, q)), more);
      c < |s'.clients| && s'.clients[c].Idle?
    ensures var s := Next(Exec(Boot(clients, retries), run), Begin(c, q));
      var done := DoneBy(s, more, c);
      && (Exec(s, more).clients[c] == Idle(Okay) <==> Fulfilled(q, done))
      && (Exec(s, more).clients[c] != Idle(Okay) <==> Refused(q, done))
  {
    CallFromBegin(clients, retries, run, c, q, more);
    NotBoth(q, DoneBy(Next(Exec(Boot(clients, retries), run), Begin(c, q)), more, c));
  }

  // ---------------------------------------------------------------- names that do not fit

  lemma {:induction false} AcceptedNamed(ts: seq<Topic>, us: seq<Topic>, d: Deed)
    requires d in TableDeeds(ts, us) && d.Accepted?
    ensures Named(ts, d.topic)
    decreases |us|
  {
    if ts == [] {
      AcceptedNamed([], us[1..], d);
    } else if d in TopicDeeds(ts[0], us[0]) {
      SameName(ts[0].name, us[0].accepted[|ts[0].accepted|..], d);
      assert ts[0].name == d.topic;
    } else {
      AcceptedNamed(ts[1..], us[1..], d);
      var j :| 0 <= j < |ts[1..]| && ts[1..][j].name == d.topic;
      assert ts[j + 1].name == d.topic;
    }
  }

  lemma {:induction false} SameName(name: string, ms: seq<Msg>, d: Deed)
    requires d in Messages(name, ms)
    ensures d.Accepted? && d.topic == name
  {
    if d != Accepted(name, ms[0]) { SameName(name, ms[1..], d); }
  }

  lemma {:induction false} EntriesKept(ps: seq<Pending>, d: Deed)
    requires d in Entries(ps)
    ensures d.Kept?
  {
    if d != Kept(ps[0]) { EntriesKept(ps[1..], d); }
  }

  /** Messages are accepted by topics of the table only, and their names fit. */
  lemma {:induction false} AcceptedNamesFit(s: State, run: seq<Action>, c: nat, d: Deed)
    requires TableInv(s) && Legal(s, run) && d in DoneBy(s, run, c) && d.Accepted?
    ensures |d.topic| < MAX_TOPIC_NAME_LENGTH
    decreases |run|
  {
    FirstOfRun(s, run, c);
    var s' := Next(s, run[0]);
    if d in DeedsOf(s, run[0], c) {
      var ps, qs := s.handler.pending, s'.handler.pending;
      if d in EntryDeeds(ps, qs) { EntriesKept(qs[..|qs| - |ps|], d); }
      AcceptedNamed(s.topics, s'.topics, d);
    } else {
      StepKeepsTable(s, run[0]);
      AcceptedNamesFit(s', run[1..], c, d);
    }
  }

  /** A publish, with or without QoS, to a name of 64 bytes or more is never Okay. */
  lemma LongNameRefused(clients: nat, retries: nat, run: seq<Action>, c: nat, q: Request, more: seq<Action>)
    requires Legal(Boot(clients, retries), run) && Enabled(Exec(Boot(clients, retries), run), Begin(c, q))
    requires Legal(Next(Exec(Boot(clients, retries), run), Begin(c, q)), more) && NoBegin(more, c)
    requires var s' := Exec(Next(Exec(Boot(clients, retries), run), Begin(c, q)), more);
      c < |s'.clients| && s'.clients[c].Idle?
    requires (q.ReqPublish? || q.ReqPublishQos?) && |q.name| >= MAX_TOPIC_NAME_LENGTH
    ensures Exec(Next(Exec(Boot(clients, retries), run), Begin(c, q)), more).clients[c] != Idle(Okay)
  {
    CallOutcome(clients, retries, run, c, q, more);
    TableInRuns(Boot(clients, retries), run);
    var s := Next(Exec(Boot(clients, retries), run), Begin(c, q));
    StepKeepsTable(Exec(Boot(clients, retries), run), Begin(c, q));
    NoLongDeed(s, more, c, q);
  }

  lemma AcceptedDeed(q: Request, done: seq<Deed>) returns (d: Deed)
    requires (q.ReqPublish? || q.ReqPublishQos?) && Fulfilled(q, done)
    ensures d in done && d.Accepted? && d.topic == q.name
  {
    d := done[|done| - 1];
  }

  lemma NoLongDeed(s: State, more: seq<Action>, c: nat, q: Request)
    requires TableInv(s) && Legal(s, more) && (q.ReqPublish? || q.ReqPublishQos?)
    requires |q.name| >= MAX_TOPIC_NAME_LENGTH
    ensures !Fulfilled(q, DoneBy(s, more, c))
  {
    var done := DoneBy(s, more, c);
    if Fulfilled(q, done) {
      var d := AcceptedDeed(q, done);
      AcceptedNamesFit(s, more, c, d);
    }
  }
}
