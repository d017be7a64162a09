// What a client step leaves alone.
module PubSubFrames {
  import opened Octets
  import opened Wrappers
  import opened PubSub

  /** At most the subscriber list and its count differ. */
  ghost predicate SameTraffic(t: Topic, u: Topic) {
    u.(subscribers := t.subscribers, count := t.count) == t
  }

  ghost predicate Blank(t: Topic) {
    t == Topic(t.name, [], 0, [], Receiving, [], [])
  }

  /** Topics are only ever added, blank; traffic is left alone; subscribers change only under the topic's lock. */
  ghost predicate TopicsKept(s: State, s': State, held: set<Lock>) {
    && |s'.topics| >= |s.topics|
    && (forall j | 0 <= j < |s.topics| :: SameTraffic(s.topics[j], s'.topics[j]))
    && (forall j | |s.topics| <= j < |s'.topics| :: Blank(s'.topics[j]))
    && (forall j | 0 <= j < |s.topics| && TopicLock(j) !in held :: s'.topics[j] == s.topics[j])
  }

  /** Memory changes only where the pool has just granted a block. */
  ghost predicate MemKept(mem: map<Ptr, Bytes>, mem': map<Ptr, Bytes>, granted: Option<Ptr>) {
    forall p | p in mem && granted != Some(p) :: p in mem' && mem'[p] == mem[p]
  }

  lemma ResumeFrame(s: State, c: nat, k: Cont, r: Option<Ptr>)
    requires c < |s.clients| && ContInBounds(k, |s.topics|)
    ensures var s' := Resume(s, c, k, r);
      && TopicsKept(s, s', ContHolds(k)) && |s'.topics| == |s.topics|
      && MemKept(s.mem, s'.mem, r) && s'.handler == s.handler
  {
  }

  /** The block a pool call grants, if it is an allocation. */
  function Granted(s: State, pc: Pc): Option<Ptr> {
    if pc.InPool? && pc.op.Malloc? then BlockList.Alloc(s.pool, HEADER, pc.op.size).1 else None
  }

  lemma PoolCallFrame(s: State, c: nat, op: PoolCall, k: Cont)
    requires c < |s.clients| && ContInBounds(k, |s.topics|)
    ensures var s' := CallPool(s, c, op, k);
      && TopicsKept(s, s', ContHolds(k)) && |s'.topics| == |s.topics|
      && MemKept(s.mem, s'.mem, Granted(s, InPool(op, k))) && s'.handler == s.handler
  {
    match op
    case Malloc(size) =>
      var (pool, r) := BlockList.Alloc(s.pool, HEADER, size);
      ResumeFrame(Give(s.(pool := pool), PoolLock), c, k, r);
    case Release(p) =>
      ResumeFrame(Give(s.(pool := BlockList.Free(s.pool, HEADER, p)), PoolLock), c, k, None);
  }

  lemma UnderTopicsFrame(s: State, c: nat, call: Call, env: Env)
    requires c < |s.clients|
    ensures var s' := UnderTopics(s, c, call, env);
      TopicsKept(s, s', {}) && s'.mem == s.mem && s'.handler == s.handler
  {
  }

  lemma UnderTopicFrame(s: State, c: nat, i: nat, call: Call)
    requires c < |s.clients| && i < |s.topics| && !call.Create? && !call.Publish?
    ensures var s' := UnderTopic(s, c, i, call);
      TopicsKept(s, s', {TopicLock(i)}) && s'.mem == s.mem && s'.handler == s.handler
  {
  }

  lemma ClientFrame(s: State, c: nat, env: Env)
    requires Enabled(s, Run(c, env)) && !s.clients[c].Sending?
    ensures var s' := RunClient(s, c, env);
      TopicsKept(s, s', PcHolds(s.clients[c])) && MemKept(s.mem, s'.mem, Granted(s, s.clients[c]))
  {
    var pc := s.clients[c];
    if pc.InPool? { PoolCallFrame(s, c, pc.op, pc.k); }
    else if pc.InTopics? { UnderTopicsFrame(s, c, pc.call, env); }
    else if pc.InTopic? { UnderTopicFrame(s, c, pc.i, pc.call); }
    else { assert RunClient(s, c, env).topics == s.topics; }
  }

  lemma TaskFrame(s: State, i: nat)
    requires i < |s.topics| && (s.topics[i].task.Receiving? ==> s.topics[i].queue != [])
    ensures var s' := StepTask(s, i);
      && s'.topics == s.topics[i := NextOfTask(s.topics[i], s.mem)]
      && s'.mem == s.mem && s'.clients == s.clients && s'.handler == s.handler
  {
  }
}
