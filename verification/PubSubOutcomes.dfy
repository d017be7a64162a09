// What the result codes say, and the topic table in every run.
module PubSubOutcomes {
  import opened Wrappers
  import opened BlockList
  import opened PoolTheorems
  import opened PubSub
  import opened PubSubOwnership
  import opened PubSubFrames
  import opened PubSubLocks
  import opened PubSubSubscribers

  // ---------------------------------------------------------------- the topic table

  ghost predicate Named(topics: seq<Topic>, name: string) {
    exists j | 0 <= j < |topics| :: topics[j].name == name
  }

  /** At most MAX_TOPICS topics, no two of one name, every name short enough for its field. */
  ghost predicate TableOk(topics: seq<Topic>) {
    && |topics| <= MAX_TOPICS
    && (forall i, j | 0 <= i < j < |topics| :: topics[i].name != topics[j].name)
    && (forall i | 0 <= i < |topics| :: |topics[i].name| < MAX_TOPIC_NAME_LENGTH)
  }

  /** Only short names get past the argument check of pubsub_create_topic. */
  predicate Creates(pc: Pc) {
    && (pc.WaitTopics? && pc.call.Create? ==> |pc.call.name| < MAX_TOPIC_NAME_LENGTH)
    && (pc.InTopics? && pc.call.Create? ==> |pc.call.name| < MAX_TOPIC_NAME_LENGTH)
  }

  ghost predicate TableInv(s: State) {
    TableOk(s.topics) && forall c | 0 <= c < |s.clients| :: Creates(s.clients[c])
  }

  ghost predicate SameNames(ts: seq<Topic>, us: seq<Topic>) {
    |ts| == |us| && forall i | 0 <= i < |ts| :: us[i].name == ts[i].name
  }

  /** pubsub_create_topic: the code says why, and a topic is added exactly when it is Okay. */
  lemma CreateOutcome(s: State, c: nat, name: string, env: Env)
    requires c < |s.clients|
    ensures var s' := UnderTopics(s, c, Create(name), env);
      && |s'.clients| == |s.clients|
      && (s'.clients[c] == LeaveTopics(Direct, TopicExists) <==> Named(s.topics, name))
      && (s'.clients[c] == LeaveTopics(Direct, Okay) <==>
            !Named(s.topics, name) && |s.topics| < MAX_TOPICS && env.granted)
      && (s'.clients[c] == LeaveTopics(Direct, Okay) ==>
            |s'.topics| == |s.topics| + 1 && s'.topics[..|s.topics|] == s.topics && Named(s'.topics, name))
      && (s'.clients[c] != LeaveTopics(Direct, Okay) ==> s'.topics == s.topics)
      && s'.clients[c] in {LeaveTopics(Direct, TopicExists), LeaveTopics(Direct, Okay), LeaveTopics(Direct, NoMemory)}
  {
    var s' := UnderTopics(s, c, Create(name), env);
    if |s'.topics| > |s.topics| { assert s'.topics[|s.topics|].name == name; }
  }

  lemma PoolCallKeepsNames(s: State, c: nat, op: PoolCall, k: Cont)
    requires c < |s.clients| && ContInBounds(k, |s.topics|)
    ensures var s' := CallPool(s, c, op, k);
      SameNames(s.topics, s'.topics) && MovedMatched(s, s', c) && Creates(s'.clients[c])
  {
    PoolCallFrame(s, c, op, k);
    PoolCallMatched(s, c, op, k);
    forall i | 0 <= i < |s.topics| ensures CallPool(s, c, op, k).topics[i].name == s.topics[i].name {
      assert SameTraffic(s.topics[i], CallPool(s, c, op, k).topics[i]);
    }
  }

  ghost predicate NamesSame(s: State, s': State, c: nat)
    requires c < |s.clients|
  {
    SameNames(s.topics, s'.topics) && MovedTo(s, s', c)
  }

  predicate MovedTo(s: State, s': State, c: nat)
    requires c < |s.clients|
  {
    |s'.clients| == |s.clients| && s'.clients == s.clients[c := s'.clients[c]] && Creates(s'.clients[c])
  }

  lemma LookupKeepsNames(s: State, c: nat, call: Call, env: Env)
    requires c < |s.clients| && !call.Create?
    ensures NamesSame(s, UnderTopics(s, c, call, env), c)
  {
  }

  lemma ListKeepsNames(s: State, c: nat, i: nat, call: Call)
    requires c < |s.clients| && i < |s.topics| && !call.Create? && !call.Publish?
    ensures NamesSame(s, UnderTopic(s, c, i, call), c)
  {
  }

  lemma SendKeepsNames(s: State, c: nat, job: Job, i: nat, data: Option<Ptr>, now: nat)
    requires c < |s.clients| && i < |s.topics|
    ensures NamesSame(s, Send(s, c, job, i, data, now), c)
  {
  }

  /** Every other client step keeps the table of names. */
  lemma NamesKept(s: State, c: nat, env: Env)
    requires Enabled(s, Run(c, env)) && Creates(s.clients[c])
    requires !(s.clients[c].InTopics? && s.clients[c].call.Create?)
    ensures NamesSame(s, RunClient(s, c, env), c)
  {
    var pc := s.clients[c];
    if pc.InPool? { PoolCallKeepsNames(s, c, pc.op, pc.k); }
    else if pc.InTopics? { LookupKeepsNames(s, c, pc.call, env); }
    else if pc.InTopic? { ListKeepsNames(s, c, pc.i, pc.call); }
    else if pc.Sending? { SendKeepsNames(s, c, pc.job, pc.i, pc.data, env.now); }
    else { assert RunClient(s, c, env).topics == s.topics; }
  }

  lemma ClientKeepsTable(s: State, c: nat, env: Env)
    requires TableInv(s) && Enabled(s, Run(c, env))
    ensures TableInv(RunClient(s, c, env))
  {
    var pc, s' := s.clients[c], RunClient(s, c, env);
    assert Creates(pc);
    if pc.InTopics? && pc.call.Create? {
      CreateOutcome(s, c, pc.call.name, env);
    } else {
      NamesKept(s, c, env);
    }
  }

  lemma TaskKeepsTable(s: State, i: nat)
    requires TableInv(s) && Enabled(s, RunTask(i))
    ensures TableInv(StepTask(s, i))
  {
    TaskFrame(s, i);
    assert NextOfTask(s.topics[i], s.mem).name == s.topics[i].name;
  }

  lemma {:induction false} TableInRuns(s: State, run: seq<Action>)
    requires TableInv(s) && Legal(s, run)
    ensures TableInv(Exec(s, run))
    decreases |run|
  {
    if run != [] {
      StepKeepsTable(s, run[0]);
      TableInRuns(Next(s, run[0]), run[1..]);
    }
  }

  lemma StepKeepsTable(s: State, a: Action)
    requires TableInv(s) && Enabled(s, a)
    ensures TableInv(Next(s, a))
  {
    match a {
      case Begin(c, request) => assert Next(s, a).topics == s.topics && Creates(BeginPc(request));
      case Fire(ticket) => assert Next(s, a).topics == s.topics;
      case Run(c, env) => ClientKeepsTable(s, c, env);
      case RunTask(i) => TaskKeepsTable(s, i);
    }
  }

  /** In every run the lookup loop finds the one topic of a name: the table is never over-full or ambiguous. */
  lemma LookupFindsTheTopic(clients: nat, retries: nat, run: seq<Action>, i: nat)
    requires Legal(Boot(clients, retries), run)
    requires i < |Exec(Boot(clients, retries), run).topics|
    ensures var topics := Exec(Boot(clients, retries), run).topics;
      |topics| <= MAX_TOPICS && |topics[i].name| < MAX_TOPIC_NAME_LENGTH && Find(topics, topics[i].name) == Some(i)
  {
    TableInRuns(Boot(clients, retries), run);
    FindsIt(Exec(Boot(clients, retries), run).topics, i);
  }

  lemma FindsIt(topics: seq<Topic>, i: nat)
    requires TableOk(topics) && i < |topics|
    ensures Find(topics, topics[i].name) == Some(i)
  {
    var r := Find(topics, topics[i].name);
    assert r.Some?;
    assert topics[r.value].name == topics[i].name;
  }

  // ---------------------------------------------------------------- subscribe, unsubscribe, publish

  ghost predicate Lists(subs: seq<Subscriber>, callback: Callback) {
    exists k | 0 <= k < |subs| :: subs[k].callback == callback
  }

  ghost predicate Subscribed(t: Topic, callback: Callback) { Lists(t.subscribers, callback) }

  /** No contiguous free run of the pool holds a header and this many bytes rounded up. */
  ghost predicate Exhausted(pool: Pool, size: nat) {
    !HasFreeRun(pool.blocks, HEADER, POOL_SIZE, HEADER + RoundUp(size))
  }

  /** pubsub_subscribe under the topic lock: refused for exactly the two reasons documented. */
  lemma SubscribeOutcome(s: State, c: nat, i: nat, name: string, callback: Callback, userData: nat)
    requires LockInv(s) && SubsInv(s) && c < |s.clients| && i < |s.topics|
    requires s.clients[c] == InTopic(i, Subscribe(name, callback, userData))
    ensures var t := s.topics[i];
      var s' := UnderTopic(s, c, i, Subscribe(name, callback, userData));
      && (s'.clients[c] == LeaveTopic(i, InvalidParam) <==> Subscribed(t, callback))
      && (s'.clients[c] == LeaveTopic(i, MaxSubscribers) <==>
            !Subscribed(t, callback) && |t.subscribers| == MAX_SUBSCRIBERS_PER_TOPIC)
      && (s'.clients[c].WaitPool? <==> !Subscribed(t, callback) && |t.subscribers| < MAX_SUBSCRIBERS_PER_TOPIC)
      && s'.topics == s.topics
  {
    assert SubsOk(s, i);
    CountExact(s, c, i);
  }

  /** pubsub_unsubscribe under the topic lock: the callback is gone afterwards, the others keep their order. */
  lemma UnsubscribeOutcome(s: State, c: nat, i: nat, name: string, callback: Callback)
    requires SubsInv(s) && c < |s.clients| && i < |s.topics|
    requires s.clients[c] == InTopic(i, Unsubscribe(name, callback))
    ensures var t, s' := s.topics[i], UnderTopic(s, c, i, Unsubscribe(name, callback));
      && (s'.clients[c] == LeaveTopic(i, InvalidParam) <==> !Subscribed(t, callback))
      && (Subscribed(t, callback) ==>
            && !Subscribed(s'.topics[i], callback)
            && forall other | other != callback :: Subscribed(s'.topics[i], other) <==> Subscribed(t, other))
  {
    assert SubsOk(s, i);
    var t, at := s.topics[i], Position(s.topics[i].subscribers, callback);
    if at.Some? {
      RemovedOnly(t.subscribers, at.value);
    }
  }

  /** Taking one of several distinct callbacks off the list removes that one only. */
  lemma RemovedOnly(subs: seq<Subscriber>, at: nat)
    requires Distinct(subs) && at < |subs|
    ensures var rest := subs[..at] + subs[at + 1..];
      && !Lists(rest, subs[at].callback)
      && forall other | other != subs[at].callback :: Lists(rest, other) <==> Lists(subs, other)
  {
    var rest := subs[..at] + subs[at + 1..];
    assert forall k | 0 <= k < |rest| :: rest[k] == subs[if k < at then k else k + 1];
    forall other | other != subs[at].callback && Lists(subs, other) ensures Lists(rest, other) {
      var k :| 0 <= k < |subs| && subs[k].callback == other;
      assert rest[if k < at then k else k - 1] == subs[k];
    }
    forall other | Lists(rest, other) ensures Lists(subs, other) {
      var k :| 0 <= k < |rest| && rest[k].callback == other;
      assert subs[if k < at then k else k + 1] == rest[k];
    }
  }

  /** Where a caller goes when its allocation fails; the data of a pending entry takes its struct with it. */
  function Without(k: Cont): Pc
    requires Allocates(k)
  {
    match k
    case PublishCopy(job, _) => LeaveTopics(job.origin, NoMemory)
    case SubscribeLink(i, _, _) => LeaveTopic(i, NoMemory)
    case PendingStruct(_, _, _) => LeaveHandler(NoMemory)
    case PendingData(_, _, _, node) => WaitPool(Release(node), PendingUndone)
  }

  /** Each of the four allocations fails exactly when the pool is exhausted for it. */
  lemma NoMemoryOutcome(s: State, c: nat, size: nat, k: Cont)
    requires OwnInv(s) && c < |s.clients| && ContInBounds(k, |s.topics|) && size > 0 && Allocates(k)
    ensures var s' := CallPool(s, c, Malloc(size), k);
      && (Exhausted(s.pool, size) <==> s'.clients[c] == Without(k))
      && (Exhausted(s.pool, size) ==> s'.pool == s.pool && s'.topics == s.topics && s'.mem == s.mem)
  {
    AllocFailsOnlyWhenFull(s.pool, HEADER, POOL_SIZE, size);
  }
}
