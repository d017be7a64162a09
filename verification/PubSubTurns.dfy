// Calls and firings of timers that nobody interrupts, each as one operation.
module PubSubTurns {
  import opened Wrappers
  import opened BlockList
  import opened PubSub
  import opened PubSubOwnership
  import opened PubSubOutcomes
  import opened PubSubPaths
  import opened PubSubRollback
  import PoolTheorems

  function At(s: State, c: nat, pc: Pc, held: map<Lock, Tid>): State
    requires c < |s.clients|
  {
    s.(clients := s.clients[c := pc], owner := held)
  }

  /** What a call leaves behind, its result code, and the steps it takes. */
  datatype Ending = Ending(state: State, code: Code, steps: nat)

  predicate CanPublish(held: map<Lock, Tid>) { TopicsLock !in held && PoolLock !in held }

  function Under(c: nat, held: map<Lock, Tid>): map<Lock, Tid> { held[TopicsLock := Client(c)] }

  // ---------------------------------------------------------------- pubsub_publish

  /** A topic name as its field holds it: at most 63 characters. */
  function Field(name: string): string { if |name| < 64 then name else name[..63] }

  /** pubsub_publish as one operation. */
  function Published(s: State, job: Job, now: nat): (e: Ending)
    ensures e.state.clients == s.clients && e.state.owner == s.owner
  {
    var i := Find(s.topics, job.topic);
    if i.None? then Ending(s, TopicNotFound, 3)
    else if job.data == [] then Sent(s, job, i.value, None, now, 3)
    else
      var (pool, copy) := Alloc(s.pool, 12, |job.data|);
      if copy.None? then Ending(s, NoMemory, 5)
      else Sent(s.(pool := pool, mem := s.mem[copy.value := job.data]), job, i.value, copy, now, 5)
  }

  /** The message goes to the front of the queue if it is critical and to its end otherwise; a queue of 100 messages
      takes none. */
  function Sent(s: State, job: Job, i: nat, data: Option<Ptr>, now: nat, steps: nat): (e: Ending)
    requires i < |s.topics|
    ensures e.state.clients == s.clients && e.state.owner == s.owner
  {
    var t := s.topics[i];
    if |t.queue| < 100 then
      var m := Msg(Field(job.topic), data, |job.data|, job.priority, now, job.data, |t.accepted|);
      var queue := if job.priority == Critical then [m] + t.queue else t.queue + [m];
      Ending(s.(topics := s.topics[i := t.(queue := queue, accepted := t.accepted + [m])]), Okay, steps + 1)
    else if data.Some? then Ending(s.(pool := Free(s.pool, 12, data.value)), QueueFull, steps + 3)
    else Ending(s, QueueFull, steps + 1)
  }

  lemma EnterAlone(s: State, c: nat, env: Env, call: Call, held: map<Lock, Tid>)
    requires c < |s.clients| && TopicsLock !in held
    ensures Alone(At(s, c, WaitTopics(call), held), Run(c, env), 1, At(s, c, InTopics(call), Under(c, held)))
  {
    AloneOnce(At(s, c, WaitTopics(call), held), Run(c, env), At(s, c, InTopics(call), Under(c, held)));
  }

  /** Where the lookup of the topic leads. */
  function LookedUp(s: State, job: Job): Pc {
    var i := Find(s.topics, job.topic);
    if i.None? then LeaveTopics(job.origin, TopicNotFound)
    else if job.data == [] then Sending(job, i.value, None)
    else WaitPool(Malloc(|job.data|), PublishCopy(job, i.value))
  }

  lemma LookupAlone(s: State, c: nat, env: Env, job: Job, held: map<Lock, Tid>)
    requires c < |s.clients| && TopicsLock !in held
    ensures Alone(At(s, c, WaitTopics(Publish(job)), held), Run(c, env), 2, At(s, c, LookedUp(s, job), Under(c, held)))
  {
    var s0, s1 := At(s, c, WaitTopics(Publish(job)), held), At(s, c, InTopics(Publish(job)), Under(c, held));
    EnterAlone(s, c, env, Publish(job), held);
    AloneOnce(s1, Run(c, env), At(s, c, LookedUp(s, job), Under(c, held)));
    AloneOn(s0, Run(c, env), 1, s1, 1, At(s, c, LookedUp(s, job), Under(c, held)));
  }

  lemma LeaveTopicsAlone(s: State, c: nat, env: Env, o: Origin, code: Code, held: map<Lock, Tid>)
    requires c < |s.clients| && TopicsLock !in held
    ensures Alone(At(s, c, LeaveTopics(o, code), Under(c, held)), Run(c, env), 1,
                  At(s, c, AfterPublish(o, code), held))
  {
    assert Under(c, held) - {TopicsLock} == held;
    AloneOnce(At(s, c, LeaveTopics(o, code), Under(c, held)), Run(c, env), At(s, c, AfterPublish(o, code), held));
  }

  lemma CopyAlone(s: State, c: nat, env: Env, job: Job, i: nat, held: map<Lock, Tid>)
    requires c < |s.clients| && i < |s.topics| && PoolLock !in held
    ensures var s0 := At(s, c, WaitPool(Malloc(|job.data|), PublishCopy(job, i)), held);
      var (pool, copy) := Alloc(s.pool, 12, |job.data|);
      if copy.None? then Alone(s0, Run(c, env), 2, At(s, c, LeaveTopics(job.origin, NoMemory), held))
      else Alone(s0, Run(c, env), 2,
                 At(s.(pool := pool, mem := s.mem[copy.value := job.data]), c, Sending(job, i, copy), held))
  {
    PoolCallAlone(At(s, c, WaitPool(Malloc(|job.data|), PublishCopy(job, i)), held), c, env);
  }

  lemma SentAtOnce(s: State, c: nat, env: Env, job: Job, i: nat, data: Option<Ptr>, held: map<Lock, Tid>, n: nat)
    requires c < |s.clients| && i < |s.topics| && (|s.topics[i].queue| < 100 || data.None?)
    ensures var e := Sent(s, job, i, data, env.now, n);
      e.steps == n + 1 && StepOk(At(s, c, Sending(job, i, data), held), Run(c, env),
                                 At(e.state, c, LeaveTopics(job.origin, e.code), held))
  {
  }

  lemma SentBack(s: State, c: nat, env: Env, job: Job, i: nat, p: Ptr, held: map<Lock, Tid>)
    requires c < |s.clients| && i < |s.topics| && |s.topics[i].queue| >= 100 && PoolLock !in held
    ensures Alone(At(s, c, Sending(job, i, Some(p)), held), Run(c, env), 3,
                  At(s.(pool := Free(s.pool, 12, p)), c, LeaveTopics(job.origin, QueueFull), held))
  {
    var a, s0 := Run(c, env), At(s, c, Sending(job, i, Some(p)), held);
    var s1 := At(s, c, WaitPool(Release(p), PublishUndone(job)), held);
    AloneOnce(s0, a, s1);
    PoolCallAlone(s1, c, env);
    AloneOn(s0, a, 1, s1, 2, At(s.(pool := Free(s.pool, 12, p)), c, LeaveTopics(job.origin, QueueFull), held));
  }

  /** From the send on, until topics_lock is given back. */
  lemma SendAlone(s: State, c: nat, env: Env, job: Job, i: nat, data: Option<Ptr>, held: map<Lock, Tid>, n: nat)
    requires c < |s.clients| && i < |s.topics| && CanPublish(held)
    ensures var e := Sent(s, job, i, data, env.now, n);
      e.steps > n && Alone(At(s, c, Sending(job, i, data), Under(c, held)), Run(c, env), e.steps - n + 1,
                           At(e.state, c, AfterPublish(job.origin, e.code), held))
  {
    var a, s0, e := Run(c, env), At(s, c, Sending(job, i, data), Under(c, held)), Sent(s, job, i, data, env.now, n);
    var last := At(e.state, c, LeaveTopics(job.origin, e.code), Under(c, held));
    if |s.topics[i].queue| >= 100 && data.Some? {
      SentBack(s, c, env, job, i, data.value, Under(c, held));
    } else {
      SentAtOnce(s, c, env, job, i, data, Under(c, held), n);
      AloneOnce(s0, a, last);
    }
    LeaveTopicsAlone(e.state, c, env, job.origin, e.code, held);
    AloneOn(s0, a, e.steps - n, last, 1, At(e.state, c, AfterPublish(job.origin, e.code), held));
  }

  lemma OfferAlone(s: State, c: nat, env: Env, job: Job, held: map<Lock, Tid>)
    requires c < |s.clients| && CanPublish(held) && job.data != []
    requires Find(s.topics, job.topic).Some? && Alloc(s.pool, 12, |job.data|).1.Some?
    ensures var i := Find(s.topics, job.topic).value;
      var (pool, copy) := Alloc(s.pool, 12, |job.data|);
      Alone(At(s, c, WaitTopics(Publish(job)), held), Run(c, env), 4,
            At(s.(pool := pool, mem := s.mem[copy.value := job.data]), c, Sending(job, i, copy), Under(c, held)))
  {
    var i := Find(s.topics, job.topic).value;
    var (pool, copy) := Alloc(s.pool, 12, |job.data|);
    LookupAlone(s, c, env, job, held);
    CopyAlone(s, c, env, job, i, Under(c, held));
    AloneOn(At(s, c, WaitTopics(Publish(job)), held), Run(c, env), 2,
            At(s, c, WaitPool(Malloc(|job.data|), PublishCopy(job, i)), Under(c, held)), 2,
            At(s.(pool := pool, mem := s.mem[copy.value := job.data]), c, Sending(job, i, copy), Under(c, held)));
  }

  lemma NoRoomAlone(s: State, c: nat, env: Env, job: Job, held: map<Lock, Tid>)
    requires c < |s.clients| && CanPublish(held) && job.data != []
    requires Find(s.topics, job.topic).Some? && Alloc(s.pool, 12, |job.data|).1.None?
    ensures Alone(At(s, c, WaitTopics(Publish(job)), held), Run(c, env), 4,
                  At(s, c, LeaveTopics(job.origin, NoMemory), Under(c, held)))
  {
    var i := Find(s.topics, job.topic).value;
    LookupAlone(s, c, env, job, held);
    CopyAlone(s, c, env, job, i, Under(c, held));
    AloneOn(At(s, c, WaitTopics(Publish(job)), held), Run(c, env), 2,
            At(s, c, WaitPool(Malloc(|job.data|), PublishCopy(job, i)), Under(c, held)), 2,
            At(s, c, LeaveTopics(job.origin, NoMemory), Under(c, held)));
  }

  /** Whoever calls pubsub_publish and is not interrupted carries it out as one operation. */
  lemma PublishAlone(s: State, c: nat, env: Env, job: Job, held: map<Lock, Tid>)
    requires c < |s.clients| && CanPublish(held)
    ensures var e := Published(s, job, env.now);
      Alone(At(s, c, WaitTopics(Publish(job)), held), Run(c, env), e.steps,
            At(e.state, c, AfterPublish(job.origin, e.code), held))
  {
    var a, s0, e := Run(c, env), At(s, c, WaitTopics(Publish(job)), held), Published(s, job, env.now);
    var u, i := At(e.state, c, AfterPublish(job.origin, e.code), held), Find(s.topics, job.topic);
    if i.None? {
      LookupAlone(s, c, env, job, held);
      LeaveTopicsAlone(s, c, env, job.origin, TopicNotFound, held);
      AloneOn(s0, a, 2, At(s, c, LookedUp(s, job), Under(c, held)), 1, u);
    } else if job.data == [] {
      LookupAlone(s, c, env, job, held);
      SendAlone(s, c, env, job, i.value, None, held, 3);
      AloneOn(s0, a, 2, At(s, c, LookedUp(s, job), Under(c, held)), e.steps - 2, u);
    } else if Alloc(s.pool, 12, |job.data|).1.None? {
      NoRoomAlone(s, c, env, job, held);
      LeaveTopicsAlone(s, c, env, job.origin, NoMemory, held);
      AloneOn(s0, a, 4, At(s, c, LeaveTopics(job.origin, NoMemory), Under(c, held)), 1, u);
    } else {
      var (pool, copy) := Alloc(s.pool, 12, |job.data|);
      var s1 := s.(pool := pool, mem := s.mem[copy.value := job.data]);
      OfferAlone(s, c, env, job, held);
      SendAlone(s1, c, env, job, i.value, copy, held, 5);
      AloneOn(s0, a, 4, At(s1, c, Sending(job, i.value, copy), Under(c, held)), e.steps - 4, u);
    }
  }

  // ---------------------------------------------------------------- message_publish_with_qos

  function Held(c: nat): map<Lock, Tid> { map[HandlerLock := Client(c)] }

  /** The handler after the id of a call has been drawn. */
  function Drawn(h: Handler): Handler {
    h.(nextMsgId := (h.nextMsgId + 1) % 0x1_0000_0000, issued := h.issued + 1)
  }

  function After(e: Ending, steps: nat): Ending { e.(steps := e.steps + steps) }

  /** message_publish_with_qos as one operation. */
  function PublishedQos(s: State, job: Job, qos: nat, env: Env): (e: Ending)
    ensures e.state.clients == s.clients && e.state.owner == s.owner
  {
    var s1 := s.(handler := Drawn(s.handler));
    if qos == 0 then After(Published(s1, job, env.now), 3)
    else Retained(s1, job, s.handler.nextMsgId, s.handler.issued + 1, env)
  }

  /** A pending entry is made for the message. */
  function Retained(s: State, job: Job, id: nat, ticket: nat, env: Env): (e: Ending)
    ensures e.state.clients == s.clients && e.state.owner == s.owner
  {
    var (pool, node) := Alloc(s.pool, 12, 100);
    if node.None? then Ending(s, NoMemory, 5)
    else FilledIn(s.(pool := pool), job, id, ticket, node.value, env)
  }

  /** The entry is filled in, listed and its timer started; then the message is published. */
  function FilledIn(s: State, job: Job, id: nat, ticket: nat, node: Ptr, env: Env): (e: Ending)
    ensures e.state.clients == s.clients && e.state.owner == s.owner
  {
    var (pool, block) := Alloc(s.pool, 12, |job.data|);
    if block.None? then Ending(s.(pool := Free(s.pool, 12, node)), NoMemory, 9) else
      var s1 := s.(pool := pool, mem := s.mem[block.value := job.data]);
      if !env.granted then Ending(s1.(pool := Free(Free(pool, 12, block.value), 12, node)), NoMemory, 12) else
        After(Published(Listed(s1, EntryFor(s, job, id, ticket, node, block.value)), job, env.now), 8)
  }

  function EntryFor(s: State, job: Job, id: nat, ticket: nat, node: Ptr, block: Ptr): Pending {
    Pending(id, Field(job.topic), block, |job.data|, job.priority, 0, s.handler.retries, node, ticket, job.data, 1)
  }

  function Listed(s: State, p: Pending): State {
    s.(handler := s.handler.(pending := [p] + s.handler.pending))
  }

  function Made(job: Job, qos: nat, h: Handler): Pc {
    if qos > 0 then WaitPool(Malloc(100), PendingStruct(job, h.nextMsgId, h.issued + 1))
    else WaitTopics(Publish(job))
  }

  lemma DrawAlone(s: State, c: nat, env: Env, job: Job, qos: nat)
    requires c < |s.clients| && job.origin == ViaHandler
    ensures Alone(At(s, c, WaitHandler(job, qos), map[]), Run(c, env), 2,
                  At(s.(handler := Drawn(s.handler)), c, Made(job, qos, s.handler), Held(c)))
  {
    var a, s0, s1 := Run(c, env), At(s, c, WaitHandler(job, qos), map[]), At(s, c, InHandler(job, qos), Held(c));
    var s2 := At(s.(handler := Drawn(s.handler)), c, Made(job, qos, s.handler), Held(c));
    assert map[][HandlerLock := Client(c)] == Held(c);
    AloneOnce(s0, a, s1);
    assert job.(origin := ViaHandler) == job;
    AloneOnce(s1, a, s2);
    AloneOn(s0, a, 1, s1, 1, s2);
  }

  lemma LeaveHandlerAlone(s: State, c: nat, env: Env, code: Code)
    requires c < |s.clients|
    ensures Alone(At(s, c, LeaveHandler(code), Held(c)), Run(c, env), 1, At(s, c, Idle(code), map[]))
  {
    assert Held(c) - {HandlerLock} == map[];
    AloneOnce(At(s, c, LeaveHandler(code), Held(c)), Run(c, env), At(s, c, Idle(code), map[]));
  }

  lemma StructAlone(s: State, c: nat, env: Env, job: Job, id: nat, ticket: nat)
    requires c < |s.clients|
    ensures var s0 := At(s, c, WaitPool(Malloc(100), PendingStruct(job, id, ticket)), Held(c));
      var (pool, node) := Alloc(s.pool, 12, 100);
      if node.None? then Alone(s0, Run(c, env), 2, At(s, c, LeaveHandler(NoMemory), Held(c)))
      else Alone(s0, Run(c, env), 2,
                 At(s.(pool := pool), c, WaitPool(Malloc(|job.data|), PendingData(job, id, ticket, node.value)),
                    Held(c)))
  {
    PoolCallAlone(At(s, c, WaitPool(Malloc(100), PendingStruct(job, id, ticket)), Held(c)), c, env);
  }

  lemma NodeBackAlone(s: State, c: nat, env: Env, node: Ptr)
    requires c < |s.clients|
    ensures Alone(At(s, c, WaitPool(Release(node), PendingUndone), Held(c)), Run(c, env), 3,
                  At(s.(pool := Free(s.pool, 12, node)), c, Idle(NoMemory), map[]))
  {
    var a, s0 := Run(c, env), At(s, c, WaitPool(Release(node), PendingUndone), Held(c));
    var s1 := s.(pool := Free(s.pool, 12, node));
    PoolCallAlone(s0, c, env);
    LeaveHandlerAlone(s1, c, env, NoMemory);
    AloneOn(s0, a, 2, At(s1, c, LeaveHandler(NoMemory), Held(c)), 1, At(s1, c, Idle(NoMemory), map[]));
  }

  lemma DataAlone(s: State, c: nat, env: Env, job: Job, id: nat, ticket: nat, node: Ptr)
    requires c < |s.clients|
    ensures var s0 := At(s, c, WaitPool(Malloc(|job.data|), PendingData(job, id, ticket, node)), Held(c));
      var (pool, block) := Alloc(s.pool, 12, |job.data|);
      if block.None? then Alone(s0, Run(c, env), 5, At(s.(pool := Free(s.pool, 12, node)), c, Idle(NoMemory), map[]))
      else Alone(s0, Run(c, env), 2, At(s.(pool := pool, mem := s.mem[block.value := job.data]), c,
                                        MakeTimer(job, id, ticket, node, block.value), Held(c)))
  {
    var s0 := At(s, c, WaitPool(Malloc(|job.data|), PendingData(job, id, ticket, node)), Held(c));
    PoolCallAlone(s0, c, env);
    if Alloc(s.pool, 12, |job.data|).1.None? {
      NodeBackAlone(s, c, env, node);
      AloneOn(s0, Run(c, env), 2, At(s, c, WaitPool(Release(node), PendingUndone), Held(c)), 3,
              At(s.(pool := Free(s.pool, 12, node)), c, Idle(NoMemory), map[]));
    }
  }

  lemma DataBackAlone(s: State, c: nat, env: Env, job: Job, id: nat, ticket: nat, node: Ptr, block: Ptr)
    requires c < |s.clients| && !env.granted
    ensures Alone(At(s, c, MakeTimer(job, id, ticket, node, block), Held(c)), Run(c, env), 3,
                  At(s.(pool := Free(s.pool, 12, block)), c, WaitPool(Release(node), PendingUndone), Held(c)))
  {
    var a, s0 := Run(c, env), At(s, c, MakeTimer(job, id, ticket, node, block), Held(c));
    var s1 := At(s, c, WaitPool(Release(block), PendingDataFreed(node)), Held(c));
    AloneOnce(s0, a, s1);
    PoolCallAlone(s1, c, env);
    AloneOn(s0, a, 1, s1, 2,
            At(s.(pool := Free(s.pool, 12, block)), c, WaitPool(Release(node), PendingUndone), Held(c)));
  }

  lemma NoTimerAlone(s: State, c: nat, env: Env, job: Job, id: nat, ticket: nat, node: Ptr, block: Ptr)
    requires c < |s.clients| && !env.granted
    ensures Alone(At(s, c, MakeTimer(job, id, ticket, node, block), Held(c)), Run(c, env), 6,
                  At(s.(pool := Free(Free(s.pool, 12, block), 12, node)), c, Idle(NoMemory), map[]))
  {
    var t := s.(pool := Free(s.pool, 12, block));
    DataBackAlone(s, c, env, job, id, ticket, node, block);
    NodeBackAlone(t, c, env, node);
    AloneOn(At(s, c, MakeTimer(job, id, ticket, node, block), Held(c)), Run(c, env), 3,
            At(t, c, WaitPool(Release(node), PendingUndone), Held(c)), 3,
            At(t.(pool := Free(t.pool, 12, node)), c, Idle(NoMemory), map[]));
  }

  /** Publishing under the handler lock, and giving that back. */
  lemma HandedOnAlone(s: State, c: nat, env: Env, job: Job)
    requires c < |s.clients| && job.origin == ViaHandler
    ensures var e := Published(s, job, env.now);
      Alone(At(s, c, WaitTopics(Publish(job)), Held(c)), Run(c, env), e.steps + 1,
            At(e.state, c, Idle(e.code), map[]))
  {
    var e := Published(s, job, env.now);
    PublishAlone(s, c, env, job, Held(c));
    LeaveHandlerAlone(e.state, c, env, e.code);
    AloneOn(At(s, c, WaitTopics(Publish(job)), Held(c)), Run(c, env), e.steps,
            At(e.state, c, LeaveHandler(e.code), Held(c)), 1, At(e.state, c, Idle(e.code), map[]));
  }

  lemma TimerAlone(s: State, c: nat, env: Env, job: Job, id: nat, ticket: nat, node: Ptr, block: Ptr)
    requires c < |s.clients| && env.granted && job.origin == ViaHandler
    ensures var e := Published(Listed(s, EntryFor(s, job, id, ticket, node, block)), job, env.now);
      Alone(At(s, c, MakeTimer(job, id, ticket, node, block), Held(c)), Run(c, env), e.steps + 2,
            At(e.state, c, Idle(e.code), map[]))
  {
    var a, s0 := Run(c, env), At(s, c, MakeTimer(job, id, ticket, node, block), Held(c));
    var t := Listed(s, EntryFor(s, job, id, ticket, node, block));
    var e := Published(t, job, env.now);
    assert job.(origin := ViaHandler) == job;
    AloneOnce(s0, a, At(t, c, WaitTopics(Publish(job)), Held(c)));
    HandedOnAlone(t, c, env, job);
    AloneOn(s0, a, 1, At(t, c, WaitTopics(Publish(job)), Held(c)), e.steps + 1, At(e.state, c, Idle(e.code), map[]));
  }

  lemma FillAlone(s: State, c: nat, env: Env, job: Job, id: nat, ticket: nat, node: Ptr)
    requires c < |s.clients| && job.origin == ViaHandler
    ensures var e := FilledIn(s, job, id, ticket, node, env);
      e.steps >= 4 && Alone(At(s, c, WaitPool(Malloc(|job.data|), PendingData(job, id, ticket, node)), Held(c)),
                            Run(c, env), e.steps - 4, At(e.state, c, Idle(e.code), map[]))
  {
    var a, e := Run(c, env), FilledIn(s, job, id, ticket, node, env);
    var s0 := At(s, c, WaitPool(Malloc(|job.data|), PendingData(job, id, ticket, node)), Held(c));
    var (pool, block) := Alloc(s.pool, 12, |job.data|);
    DataAlone(s, c, env, job, id, ticket, node);
    if block.Some? {
      var t := s.(pool := pool, mem := s.mem[block.value := job.data]);
      if env.granted { TimerAlone(t, c, env, job, id, ticket, node, block.value); }
      else { NoTimerAlone(t, c, env, job, id, ticket, node, block.value); }
      AloneOn(s0, a, 2, At(t, c, MakeTimer(job, id, ticket, node, block.value), Held(c)), e.steps - 6,
              At(e.state, c, Idle(e.code), map[]));
    }
  }

  /** From the request for the entry's struct on. */
  lemma RetainAlone(s: State, c: nat, env: Env, job: Job, id: nat, ticket: nat)
    requires c < |s.clients| && job.origin == ViaHandler
    ensures var e := Retained(s, job, id, ticket, env);
      e.steps >= 2 && Alone(At(s, c, WaitPool(Malloc(100), PendingStruct(job, id, ticket)), Held(c)), Run(c, env),
                            e.steps - 2, At(e.state, c, Idle(e.code), map[]))
  {
    var a, s0 := Run(c, env), At(s, c, WaitPool(Malloc(100), PendingStruct(job, id, ticket)), Held(c));
    var (pool, node) := Alloc(s.pool, 12, 100);
    StructAlone(s, c, env, job, id, ticket);
    if node.None? {
      LeaveHandlerAlone(s, c, env, NoMemory);
      AloneOn(s0, a, 2, At(s, c, LeaveHandler(NoMemory), Held(c)), 1, At(s, c, Idle(NoMemory), map[]));
    } else {
      var t, e := s.(pool := pool), FilledIn(s.(pool := pool), job, id, ticket, node.value, env);
      FillAlone(t, c, env, job, id, ticket, node.value);
      AloneOn(s0, a, 2, At(t, c, WaitPool(Malloc(|job.data|), PendingData(job, id, ticket, node.value)), Held(c)),
              e.steps - 4, At(e.state, c, Idle(e.code), map[]));
    }
  }

  /** The id is drawn first, whatever comes then. */
  lemma DrawFirst(s: State, c: nat, env: Env, job: Job, qos: nat, t: State, code: Code, n: nat)
    requires c < |s.clients| == |t.clients| && job.origin == ViaHandler
    requires Alone(At(s.(handler := Drawn(s.handler)), c, Made(job, qos, s.handler), Held(c)), Run(c, env), n,
                   At(t, c, Idle(code), map[]))
    ensures Alone(At(s, c, WaitHandler(job, qos), map[]), Run(c, env), n + 2, At(t, c, Idle(code), map[]))
  {
    DrawAlone(s, c, env, job, qos);
    AloneOn(At(s, c, WaitHandler(job, qos), map[]), Run(c, env), 2,
            At(s.(handler := Drawn(s.handler)), c, Made(job, qos, s.handler), Held(c)), n, At(t, c, Idle(code), map[]));
  }

  lemma UnretainedAlone(s: State, c: nat, env: Env, job: Job)
    requires c < |s.clients| && job.origin == ViaHandler
    ensures var e := Published(s.(handler := Drawn(s.handler)), job, env.now);
      Alone(At(s, c, WaitHandler(job, 0), map[]), Run(c, env), e.steps + 3, At(e.state, c, Idle(e.code), map[]))
  {
    var t := s.(handler := Drawn(s.handler));
    var e := Published(t, job, env.now);
    HandedOnAlone(t, c, env, job);
    DrawFirst(s, c, env, job, 0, e.state, e.code, e.steps + 1);
  }

  lemma RetainedAlone(s: State, c: nat, env: Env, job: Job, qos: nat, e: Ending)
    requires c < |s.clients| && job.origin == ViaHandler && qos > 0
    requires e == Retained(s.(handler := Drawn(s.handler)), job, s.handler.nextMsgId, s.handler.issued + 1, env)
    ensures |e.state.clients| == |s.clients|
    ensures Alone(At(s, c, WaitHandler(job, qos), map[]), Run(c, env), e.steps, At(e.state, c, Idle(e.code), map[]))
  {
    RetainAlone(s.(handler := Drawn(s.handler)), c, env, job, s.handler.nextMsgId, s.handler.issued + 1);
    MadeFirst(s, c, env, job, qos, e);
  }

  lemma MadeFirst(s: State, c: nat, env: Env, job: Job, qos: nat, e: Ending)
    requires c < |s.clients| == |e.state.clients| && job.origin == ViaHandler && qos > 0 && e.steps >= 2
    requires var h := s.handler;
      Alone(At(s.(handler := Drawn(h)), c, WaitPool(Malloc(100), PendingStruct(job, h.nextMsgId, h.issued + 1)),
               Held(c)), Run(c, env), e.steps - 2, At(e.state, c, Idle(e.code), map[]))
    ensures Alone(At(s, c, WaitHandler(job, qos), map[]), Run(c, env), e.steps, At(e.state, c, Idle(e.code), map[]))
  {
    DrawFirst(s, c, env, job, qos, e.state, e.code, e.steps - 2);
  }

  /** Whoever calls message_publish_with_qos and is not interrupted carries it out as one operation. */
  lemma PublishQosAlone(s: State, c: nat, env: Env, job: Job, qos: nat)
    requires c < |s.clients| && job.origin == ViaHandler
    ensures var e := PublishedQos(s, job, qos, env);
      Alone(At(s, c, WaitHandler(job, qos), map[]), Run(c, env), e.steps, At(e.state, c, Idle(e.code), map[]))
  {
    if qos == 0 { UnretainedAlone(s, c, env, job); }
    else { RetainedAlone(s, c, env, job, qos, PublishedQos(s, job, qos, env)); }
  }

  // ---------------------------------------------------------------- the other calls

  /** pubsub_create_topic as one operation. */
  function CreatedTopic(s: State, name: string, granted: bool): (e: Ending)
    ensures e.state.clients == s.clients && e.state.owner == s.owner
  {
    if |name| >= 64 then Ending(s, InvalidParam, 0)
    else if Find(s.topics, name).Some? then Ending(s, TopicExists, 3)
    else if |s.topics| >= 50 || !granted then Ending(s, NoMemory, 3)
    else Ending(s.(topics := s.topics + [Topic(name, [], 0, [], Receiving, [], [])]), Okay, 3)
  }

  /** What comes of a subscription that neither the list nor the limit refuses. */
  function Joined(s: State, i: nat, callback: Callback, userData: nat): (e: Ending)
    requires i < |s.topics|
    ensures e.state.clients == s.clients && e.state.owner == s.owner
  {
    var t := s.topics[i];
    var (pool, node) := Alloc(s.pool, 12, 12);
    if node.None? then Ending(s, NoMemory, 8) else
      var u := t.(subscribers := [Subscriber(callback, userData, node.value)] + t.subscribers, count := t.count + 1);
      Ending(s.(pool := pool, topics := s.topics[i := u]), Okay, 8)
  }

  /** pubsub_subscribe as one operation. */
  function Subscribing(s: State, name: string, callback: Callback, userData: nat): (e: Ending)
    ensures e.state.clients == s.clients && e.state.owner == s.owner
  {
    var i := Find(s.topics, name);
    if i.None? then Ending(s, TopicNotFound, 3) else
      var t := s.topics[i.value];
      if Position(t.subscribers, callback).Some? then Ending(s, InvalidParam, 6)
      else if t.count >= 20 then Ending(s, MaxSubscribers, 6)
      else Joined(s, i.value, callback, userData)
  }

  /** pubsub_unsubscribe as one operation. */
  function Unsubscribing(s: State, name: string, callback: Callback): (e: Ending)
    ensures e.state.clients == s.clients && e.state.owner == s.owner
  {
    var i := Find(s.topics, name);
    if i.None? then Ending(s, TopicNotFound, 3) else
      var t := s.topics[i.value];
      var at := Position(t.subscribers, callback);
      if at.None? then Ending(s, InvalidParam, 6) else
        var rest := t.subscribers[..at.value] + t.subscribers[at.value + 1..];
        var u := t.(subscribers := rest, count := (t.count - 1) % 0x1_0000_0000);
        Ending(s.(pool := Free(s.pool, 12, t.subscribers[at.value].node), topics := s.topics[i.value := u]), Okay, 8)
  }

  lemma CreateAlone(s: State, c: nat, env: Env, name: string)
    requires c < |s.clients| && |name| < 64
    ensures var e := CreatedTopic(s, name, env.granted);
      Alone(At(s, c, WaitTopics(Create(name)), map[]), Run(c, env), e.steps, At(e.state, c, Idle(e.code), map[]))
  {
    var a, e, none: map<Lock, Tid> := Run(c, env), CreatedTopic(s, name, env.granted), map[];
    var s0, s1 := At(s, c, WaitTopics(Create(name)), none), At(s, c, InTopics(Create(name)), Under(c, none));
    var s2 := At(e.state, c, LeaveTopics(Direct, e.code), Under(c, none));
    EnterAlone(s, c, env, Create(name), none);
    AloneOnce(s1, a, s2);
    LeaveTopicsAlone(e.state, c, env, Direct, e.code, none);
    AloneOn(s0, a, 1, s1, 1, s2);
    AloneOn(s0, a, 2, s2, 1, At(e.state, c, Idle(e.code), none));
  }

  lemma NotFoundAlone(s: State, c: nat, env: Env, call: Call)
    requires c < |s.clients| && (call.Subscribe? || call.Unsubscribe?) && Find(s.topics, call.name).None?
    ensures Alone(At(s, c, WaitTopics(call), map[]), Run(c, env), 3, At(s, c, Idle(TopicNotFound), map[]))
  {
    var a, none: map<Lock, Tid> := Run(c, env), map[];
    var s0, s1 := At(s, c, WaitTopics(call), none), At(s, c, InTopics(call), Under(c, none));
    var s2 := At(s, c, LeaveTopics(Direct, TopicNotFound), Under(c, none));
    EnterAlone(s, c, env, call, none);
    AloneOnce(s1, a, s2);
    LeaveTopicsAlone(s, c, env, Direct, TopicNotFound, none);
    AloneOn(s0, a, 1, s1, 1, s2);
    AloneOn(s0, a, 2, s2, 1, At(s, c, Idle(TopicNotFound), none));
  }

  /** A call on a listed topic: into the topic, n steps at its list, and out again. */
  lemma AtListAlone(s: State, c: nat, env: Env, call: Call, i: nat, n: nat, t: State, code: Code)
    requires c < |s.clients| && s.owner == map[] == t.owner && |t.clients| == |s.clients| && i < |t.topics|
    requires (call.Subscribe? || call.Unsubscribe?) && Find(s.topics, call.name) == Some(i)
    requires Alone(Inside(s, c, i, InTopic(i, call)), Run(c, env), n, Inside(t, c, i, LeaveTopic(i, code)))
    ensures Alone(At(s, c, WaitTopics(call), map[]), Run(c, env), n + 5, At(t, c, Idle(code), map[]))
  {
    var a, s0, u := Run(c, env), At(s, c, WaitTopics(call), map[]), At(t, c, Idle(code), map[]);
    EnterTopic(s0, c, env, call, i);
    assert Inside(s0, c, i, InTopic(i, call)) == Inside(s, c, i, InTopic(i, call));
    LeaveAlone(t, c, env, i, code);
    AloneOn(s0, a, 3, Inside(s, c, i, InTopic(i, call)), n, Inside(t, c, i, LeaveTopic(i, code)));
    AloneOn(s0, a, n + 3, Inside(t, c, i, LeaveTopic(i, code)), 2, u);
  }

  lemma NodeAlone(s: State, c: nat, env: Env, i: nat, callback: Callback, userData: nat)
    requires c < |s.clients| && i < |s.topics| && s.owner == map[]
    ensures var s0 := Inside(s, c, i, WaitPool(Malloc(12), SubscribeLink(i, callback, userData)));
      var (pool, node) := Alloc(s.pool, 12, 12);
      if node.None? then Alone(s0, Run(c, env), 2, Inside(s, c, i, LeaveTopic(i, NoMemory))) else
        var t := s.topics[i];
        var u := t.(subscribers := [Subscriber(callback, userData, node.value)] + t.subscribers, count := t.count + 1);
        Alone(s0, Run(c, env), 2,
              Inside(s.(pool := pool, topics := s.topics[i := u]), c, i, LeaveTopic(i, Okay)))
  {
    PoolCallAlone(Inside(s, c, i, WaitPool(Malloc(12), SubscribeLink(i, callback, userData))), c, env);
  }

  lemma JoinAtList(s: State, c: nat, env: Env, i: nat, name: string, callback: Callback, userData: nat)
    requires c < |s.clients| && i < |s.topics| && s.owner == map[]
    requires Position(s.topics[i].subscribers, callback).None? && s.topics[i].count < 20
    ensures StepOk(Inside(s, c, i, InTopic(i, Subscribe(name, callback, userData))), Run(c, env),
                   Inside(s, c, i, WaitPool(Malloc(12), SubscribeLink(i, callback, userData))))
  {
  }

  lemma RefusedAtList(s: State, c: nat, env: Env, i: nat, name: string, callback: Callback, userData: nat)
    requires c < |s.clients| && i < |s.topics| && s.owner == map[]
    requires Position(s.topics[i].subscribers, callback).Some? || s.topics[i].count >= 20
    ensures var code := if Position(s.topics[i].subscribers, callback).Some? then InvalidParam else MaxSubscribers;
      StepOk(Inside(s, c, i, InTopic(i, Subscribe(name, callback, userData))), Run(c, env),
             Inside(s, c, i, LeaveTopic(i, code)))
  {
  }

  lemma JoinedAtList(s: State, c: nat, env: Env, i: nat, name: string, callback: Callback, userData: nat)
    requires c < |s.clients| && i < |s.topics| && s.owner == map[]
    requires Position(s.topics[i].subscribers, callback).None? && s.topics[i].count < 20
    ensures var e := Joined(s, i, callback, userData);
      Alone(Inside(s, c, i, InTopic(i, Subscribe(name, callback, userData))), Run(c, env), 3,
            Inside(e.state, c, i, LeaveTopic(i, e.code)))
  {
    var e, s0 := Joined(s, i, callback, userData), Inside(s, c, i, InTopic(i, Subscribe(name, callback, userData)));
    var s1 := Inside(s, c, i, WaitPool(Malloc(12), SubscribeLink(i, callback, userData)));
    JoinAtList(s, c, env, i, name, callback, userData);
    AloneOnce(s0, Run(c, env), s1);
    NodeAlone(s, c, env, i, callback, userData);
    AloneOn(s0, Run(c, env), 1, s1, 2, Inside(e.state, c, i, LeaveTopic(i, e.code)));
  }

  lemma SubscribeAtList(s: State, c: nat, env: Env, i: nat, name: string, callback: Callback, userData: nat)
    requires c < |s.clients| && s.owner == map[] && Find(s.topics, name) == Some(i)
    ensures var e := Subscribing(s, name, callback, userData);
      e.steps >= 5 && Alone(Inside(s, c, i, InTopic(i, Subscribe(name, callback, userData))), Run(c, env), e.steps - 5,
                            Inside(e.state, c, i, LeaveTopic(i, e.code)))
  {
    var e := Subscribing(s, name, callback, userData);
    if Position(s.topics[i].subscribers, callback).Some? || s.topics[i].count >= 20 {
      RefusedAtList(s, c, env, i, name, callback, userData);
      AloneOnce(Inside(s, c, i, InTopic(i, Subscribe(name, callback, userData))), Run(c, env),
                Inside(s, c, i, LeaveTopic(i, e.code)));
    } else {
      JoinedAtList(s, c, env, i, name, callback, userData);
    }
  }

  lemma SubscribeAlone(s: State, c: nat, env: Env, name: string, callback: Callback, userData: nat)
    requires c < |s.clients| && s.owner == map[]
    ensures var e := Subscribing(s, name, callback, userData);
      Alone(At(s, c, WaitTopics(Subscribe(name, callback, userData)), map[]), Run(c, env), e.steps,
            At(e.state, c, Idle(e.code), map[]))
  {
    var i, e := Find(s.topics, name), Subscribing(s, name, callback, userData);
    var call := Subscribe(name, callback, userData);
    if i.None? {
      NotFoundAlone(s, c, env, call);
    } else {
      SubscribeAtList(s, c, env, i.value, name, callback, userData);
      AtListAlone(s, c, env, call, i.value, e.steps - 5, e.state, e.code);
    }
  }

  lemma UnlinkedAlone(s: State, c: nat, env: Env, i: nat, p: Ptr)
    requires c < |s.clients| && i < |s.topics| && s.owner == map[]
    ensures var t := s.topics[i];
      Alone(Inside(s, c, i, WaitPool(Release(p), UnsubscribeDone(i))), Run(c, env), 2,
            Inside(s.(pool := Free(s.pool, 12, p), topics := s.topics[i := t.(count := (t.count - 1) % 0x1_0000_0000)]),
                   c, i, LeaveTopic(i, Okay)))
  {
    PoolCallAlone(Inside(s, c, i, WaitPool(Release(p), UnsubscribeDone(i))), c, env);
  }

  lemma UnlinkAtList(s: State, c: nat, env: Env, i: nat, name: string, callback: Callback, at: nat)
    requires c < |s.clients| && i < |s.topics| && s.owner == map[]
    requires Position(s.topics[i].subscribers, callback) == Some(at)
    ensures var t := s.topics[i];
      var u := t.(subscribers := t.subscribers[..at] + t.subscribers[at + 1..]);
      StepOk(Inside(s, c, i, InTopic(i, Unsubscribe(name, callback))), Run(c, env),
             Inside(s.(topics := s.topics[i := u]), c, i,
                    WaitPool(Release(t.subscribers[at].node), UnsubscribeDone(i))))
  {
  }

  lemma FoundAtList(s: State, c: nat, env: Env, i: nat, name: string, callback: Callback, at: nat)
    requires c < |s.clients| && i < |s.topics| && s.owner == map[]
    requires Position(s.topics[i].subscribers, callback) == Some(at)
    ensures var t := s.topics[i];
      var rest := t.subscribers[..at] + t.subscribers[at + 1..];
      var u := t.(subscribers := rest, count := (t.count - 1) % 0x1_0000_0000);
      Alone(Inside(s, c, i, InTopic(i, Unsubscribe(name, callback))), Run(c, env), 3,
            Inside(s.(pool := Free(s.pool, 12, t.subscribers[at].node), topics := s.topics[i := u]), c, i,
                   LeaveTopic(i, Okay)))
  {
    var t, s0 := s.topics[i], Inside(s, c, i, InTopic(i, Unsubscribe(name, callback)));
    var rest, p := t.subscribers[..at] + t.subscribers[at + 1..], t.subscribers[at].node;
    var s1 := s.(topics := s.topics[i := t.(subscribers := rest)]);
    var u := t.(subscribers := rest, count := (t.count - 1) % 0x1_0000_0000);
    UnlinkAtList(s, c, env, i, name, callback, at);
    AloneOnce(s0, Run(c, env), Inside(s1, c, i, WaitPool(Release(p), UnsubscribeDone(i))));
    UnlinkedAlone(s1, c, env, i, p);
    assert s1.topics[i := u] == s.topics[i := u];
    AloneOn(s0, Run(c, env), 1, Inside(s1, c, i, WaitPool(Release(p), UnsubscribeDone(i))), 2,
            Inside(s.(pool := Free(s.pool, 12, p), topics := s.topics[i := u]), c, i, LeaveTopic(i, Okay)));
  }

  lemma MissingAtList(s: State, c: nat, env: Env, i: nat, name: string, callback: Callback)
    requires c < |s.clients| && i < |s.topics| && s.owner == map[]
    requires Position(s.topics[i].subscribers, callback).None?
    ensures Alone(Inside(s, c, i, InTopic(i, Unsubscribe(name, callback))), Run(c, env), 1,
                  Inside(s, c, i, LeaveTopic(i, InvalidParam)))
  {
    AloneOnce(Inside(s, c, i, InTopic(i, Unsubscribe(name, callback))), Run(c, env),
              Inside(s, c, i, LeaveTopic(i, InvalidParam)));
  }

  lemma UnsubscribeAtList(s: State, c: nat, env: Env, i: nat, name: string, callback: Callback)
    requires c < |s.clients| && s.owner == map[] && Find(s.topics, name) == Some(i)
    ensures var e := Unsubscribing(s, name, callback);
      e.steps >= 5 && Alone(Inside(s, c, i, InTopic(i, Unsubscribe(name, callback))), Run(c, env), e.steps - 5,
                            Inside(e.state, c, i, LeaveTopic(i, e.code)))
  {
    var at := Position(s.topics[i].subscribers, callback);
    if at.Some? {
      FoundAtList(s, c, env, i, name, callback, at.value);
    } else {
      MissingAtList(s, c, env, i, name, callback);
    }
  }

  lemma UnsubscribeAlone(s: State, c: nat, env: Env, name: string, callback: Callback)
    requires c < |s.clients| && s.owner == map[]
    ensures var e := Unsubscribing(s, name, callback);
      Alone(At(s, c, WaitTopics(Unsubscribe(name, callback)), map[]), Run(c, env), e.steps,
            At(e.state, c, Idle(e.code), map[]))
  {
    var i, e := Find(s.topics, name), Unsubscribing(s, name, callback);
    if i.None? {
      NotFoundAlone(s, c, env, Unsubscribe(name, callback));
    } else {
      UnsubscribeAtList(s, c, env, i.value, name, callback);
      AtListAlone(s, c, env, Unsubscribe(name, callback), i.value, e.steps - 5, e.state, e.code);
    }
  }

  // ---------------------------------------------------------------- any call

  /** Each call as one operation. */
  function Whole(s: State, q: Request, env: Env): (e: Ending)
    ensures e.state.clients == s.clients && e.state.owner == s.owner
  {
    match q
    case ReqCreate(name) => CreatedTopic(s, name, env.granted)
    case ReqPublish(name, data, priority) => Published(s, Job(name, data, priority, Direct), env.now)
    case ReqSubscribe(name, callback, userData) => Subscribing(s, name, callback, userData)
    case ReqUnsubscribe(name, callback) => Unsubscribing(s, name, callback)
    case ReqPublishQos(name, data, priority, qos) =>
      if data == [] then Ending(s, InvalidParam, 0)
      else PublishedQos(s, Job(name, data, priority, ViaHandler), qos, env)
  }

  lemma WholeFromBegin(s: State, c: nat, env: Env, q: Request)
    requires c < |s.clients| && s.owner == map[]
    ensures var e := Whole(s, q, env);
      Alone(At(s, c, BeginPc(q), map[]), Run(c, env), e.steps, At(e.state, c, Idle(e.code), map[]))
  {
    match q {
      case ReqCreate(name) => if |name| < 64 { CreateAlone(s, c, env, name); } else { Nowhere(s, c, env); }
      case ReqPublish(name, data, priority) =>
        PublishAlone(s, c, env, Job(name, data, priority, Direct), map[]);
      case ReqSubscribe(name, callback, userData) => SubscribeAlone(s, c, env, name, callback, userData);
      case ReqUnsubscribe(name, callback) => UnsubscribeAlone(s, c, env, name, callback);
      case ReqPublishQos(name, data, priority, qos) =>
        if data == [] { Nowhere(s, c, env); }
        else { PublishQosAlone(s, c, env, Job(name, data, priority, ViaHandler), qos); }
    }
  }

  lemma Nowhere(s: State, c: nat, env: Env)
    requires c < |s.clients|
    ensures Alone(At(s, c, Idle(InvalidParam), map[]), Run(c, env), 0, At(s, c, Idle(InvalidParam), map[]))
  {
    var states := [At(s, c, Idle(InvalidParam), map[])];
    assert Path(states, Times(Run(c, env), 0)) && states[0] == At(s, c, Idle(InvalidParam), map[]);
  }

  /** What a call brings along fits the address space beside a block header. */
  predicate Fitting(q: Request) { q.ReqPublish? || q.ReqPublishQos? ==> |q.data| <= 0xFFFF_FFF8 }

  lemma Begins(s: State, c: nat, q: Request)
    requires 0 < c < |s.clients| && s.clients[c].Idle? && Fitting(q) && s.owner == map[]
    ensures StepOk(s, Begin(c, q), At(s, c, BeginPc(q), map[]))
  {
  }

  /** The run of one call that nobody interrupts. */
  function CallRun(s: State, c: nat, q: Request, env: Env): seq<Action> {
    Turn(Begin(c, q), Run(c, env), Whole(s, q, env).steps)
  }

  /** The state it ends in. */
  function Returned(s: State, c: nat, q: Request, env: Env): State
    requires c < |s.clients|
  {
    var e := Whole(s, q, env);
    e.state.(clients := s.clients[c := Idle(e.code)])
  }

  /** Any call of any application task, from its Begin to its return, when no mutex is held and nobody interrupts: a
      legal run that returns the code and leaves the state of the one operation it stands for. */
  lemma WholeCall(s: State, c: nat, q: Request, env: Env)
    requires 0 < c < |s.clients| && s.clients[c].Idle? && Fitting(q) && s.owner == map[]
    ensures Leads(s, CallRun(s, c, q, env), Returned(s, c, q, env))
    ensures Legal(s, CallRun(s, c, q, env)) && Exec(s, CallRun(s, c, q, env)) == Returned(s, c, q, env)
  {
    var n, u := Whole(s, q, env).steps, Returned(s, c, q, env);
    WholeFromBegin(s, c, env, q);
    Begins(s, c, q);
    TurnLeads(s, Begin(c, q), Run(c, env), At(s, c, BeginPc(q), map[]), n, u);
    LeadsIsRun(s, CallRun(s, c, q, env), u);
  }

  // ---------------------------------------------------------------- the codes of a publish

  /** pubsub_publish, uninterrupted: each code has exactly one cause, and a call that is refused changes nothing but the
      pool's peak. */
  lemma PublishCodes(s: State, job: Job, now: nat, i: nat)
    requires OwnInv(s) && (Named(s.topics, job.topic) ==> Find(s.topics, job.topic) == Some(i))
    ensures var e := Published(s, job, now);
      var noRoom := job.data != [] && Exhausted(s.pool, |job.data|);
      && (e.code == TopicNotFound <==> !Named(s.topics, job.topic))
      && (e.code == NoMemory <==> Named(s.topics, job.topic) && noRoom)
      && (e.code == QueueFull <==> Named(s.topics, job.topic) && !noRoom && |s.topics[i].queue| >= 100)
      && (e.code == Okay <==> Named(s.topics, job.topic) && !noRoom && |s.topics[i].queue| < 100)
      && (e.code != Okay ==>
            e.state.topics == s.topics && e.state.handler == s.handler && SamePool(s.pool, e.state.pool))
  {
    if Find(s.topics, job.topic).Some? {
      assert Named(s.topics, job.topic);
      if job.data != [] {
        PoolTheorems.AllocFailsOnlyWhenFull(s.pool, HEADER, POOL_SIZE, |job.data|);
        if Alloc(s.pool, 12, |job.data|).1.Some? { PoolTheorems.AllocThenFree(s.pool, HEADER, POOL_SIZE, |job.data|); }
      }
    }
  }

  /** An accepted message: first in its queue if it is critical and last otherwise, with the caller's bytes in a block
      of its own, and no other topic changes. */
  lemma PublishedMessage(s: State, job: Job, now: nat, i: nat)
    requires Find(s.topics, job.topic) == Some(i) && Published(s, job, now).code == Okay
    ensures var t, s' := s.topics[i], Published(s, job, now).state;
      && |s'.topics| == |s.topics| && s'.handler == s.handler
      && (forall j | 0 <= j < |s.topics| && j != i :: s'.topics[j] == s.topics[j])
      && var u := s'.topics[i];
         && |u.queue| == |t.queue| + 1 && u.subscribers == t.subscribers && u.count == t.count && u.task == t.task
         && (job.priority == Critical ==> u.queue[1..] == t.queue)
         && (job.priority != Critical ==> u.queue[..|t.queue|] == t.queue)
         && var m := u.queue[if job.priority == Critical then 0 else |t.queue|];
            && u.accepted == t.accepted + [m]
            && m.topic == (if |job.topic| < 64 then job.topic else job.topic[..63])
            && m.bytes == job.data && m.len == |job.data| && m.priority == job.priority && m.timestamp == now
            && (if job.data == [] then m.data == None && s'.pool == s.pool
                else m.data.Some? && m.data == Alloc(s.pool, 12, |job.data|).1
                     && m.data.value in s'.mem && s'.mem[m.data.value] == job.data)
  {
    if job.data == [] { SentMessage(s, job, i, None, now, 3); } else {
      var (pool, copy) := Alloc(s.pool, 12, |job.data|);
      SentMessage(s.(pool := pool, mem := s.mem[copy.value := job.data]), job, i, copy, now, 5);
    }
  }

  lemma SentMessage(s: State, job: Job, i: nat, data: Option<Ptr>, now: nat, steps: nat)
    requires i < |s.topics| && |s.topics[i].queue| < 100
    ensures var t, s' := s.topics[i], Sent(s, job, i, data, now, steps).state;
      var m := Msg(Field(job.topic), data, |job.data|, job.priority, now, job.data, |t.accepted|);
      && s'.pool == s.pool && s'.mem == s.mem && s'.handler == s.handler && |s'.topics| == |s.topics|
      && (forall j | 0 <= j < |s.topics| && j != i :: s'.topics[j] == s.topics[j])
      && s'.topics[i] == t.(queue := if job.priority == Critical then [m] + t.queue else t.queue + [m],
                            accepted := t.accepted + [m])
  {
  }

  // ---------------------------------------------------------------- retry_timer_callback

  function Counted(ps: seq<Pending>, k: nat, attempts: nat, retries: nat): seq<Pending>
    requires k < |ps|
  {
    ps[k := ps[k].(attempts := ps[k].attempts + attempts, retryCount := ps[k].retryCount + retries)]
  }

  function WithPending(s: State, ps: seq<Pending>): State { s.(handler := s.handler.(pending := ps)) }

  function JobOfEntry(s: State, p: Pending): Job {
    Job(p.topic, Load(s.mem, Some(p.data)), p.priority, ViaTimer(p.ticket))
  }

  /** retry_timer_callback as one operation: below its retries an entry is published again and counted. */
  function Retrying(s: State, k: nat, now: nat): (e: Ending)
    requires k < |s.handler.pending|
    ensures e.state.clients == s.clients && e.state.owner == s.owner
  {
    var ps, p := s.handler.pending, s.handler.pending[k];
    if p.retryCount >= p.maxRetries then Ending(s, Okay, 0) else
      var e := Published(WithPending(s, Counted(ps, k, 1, 0)), JobOfEntry(s, p), now);
      Ending(WithPending(e.state, Counted(ps, k, 1, 1)), Okay, e.steps + 1)
  }

  lemma {:induction false} IndexKept(ps: seq<Pending>, ticket: nat, p: Pending)
    requires HasTicket(ps, ticket) && p.ticket == ticket
    ensures var qs := ps[PendingIndex(ps, ticket) := p];
      HasTicket(qs, ticket) && PendingIndex(qs, ticket) == PendingIndex(ps, ticket)
    decreases |ps|
  {
    var k := PendingIndex(ps, ticket);
    var qs := ps[k := p];
    assert qs[k].ticket == ticket;
    if ps[0].ticket != ticket {
      assert ps[1..][k - 1].ticket == ticket;
      IndexKept(ps[1..], ticket, p);
      assert qs[1..] == ps[1..][k - 1 := p];
    }
  }

  lemma FiresStep(s: State, ticket: nat)
    requires 0 < |s.clients| && s.clients[0].Idle? && HasTicket(s.handler.pending, ticket) && s.owner == map[]
    requires var k := PendingIndex(s.handler.pending, ticket);
      s.handler.pending[k].retryCount < s.handler.pending[k].maxRetries
    ensures var ps, k := s.handler.pending, PendingIndex(s.handler.pending, ticket);
      StepOk(s, Fire(ticket),
             At(WithPending(s, Counted(ps, k, 1, 0)), 0, WaitTopics(Publish(JobOfEntry(s, ps[k]))), map[]))
  {
  }

  lemma CountsAlone(s: State, env: Env, ps: seq<Pending>, ticket: nat)
    requires 0 < |s.clients| && HasTicket(ps, ticket)
    requires s.handler.pending == Counted(ps, PendingIndex(ps, ticket), 1, 0)
    ensures Alone(At(s, 0, Retried(ticket), map[]), Run(0, env), 1,
                  At(WithPending(s, Counted(ps, PendingIndex(ps, ticket), 1, 1)), 0, Idle(Okay), map[]))
  {
    var k := PendingIndex(ps, ticket);
    IndexKept(ps, ticket, s.handler.pending[k]);
    AloneOnce(At(s, 0, Retried(ticket), map[]), Run(0, env),
              At(WithPending(s, Counted(ps, k, 1, 1)), 0, Idle(Okay), map[]));
  }

  lemma PublishedKeepsHandler(s: State, job: Job, now: nat)
    ensures Published(s, job, now).state.handler == s.handler
  {
  }

  lemma RetryAlone(s: State, env: Env, ticket: nat)
    requires 0 < |s.clients| && HasTicket(s.handler.pending, ticket)
    ensures var ps, k := s.handler.pending, PendingIndex(s.handler.pending, ticket);
      var t := WithPending(s, Counted(ps, k, 1, 0));
      var e := Published(t, JobOfEntry(s, ps[k]), env.now);
      Alone(At(t, 0, WaitTopics(Publish(JobOfEntry(s, ps[k]))), map[]), Run(0, env), e.steps + 1,
            At(WithPending(e.state, Counted(ps, k, 1, 1)), 0, Idle(Okay), map[]))
  {
    var ps, k := s.handler.pending, PendingIndex(s.handler.pending, ticket);
    var t, job := WithPending(s, Counted(ps, k, 1, 0)), JobOfEntry(s, ps[k]);
    var e := Published(t, job, env.now);
    PublishAlone(t, 0, env, job, map[]);
    PublishedKeepsHandler(t, job, env.now);
    CountsAlone(e.state, env, ps, ticket);
    AloneOn(At(t, 0, WaitTopics(Publish(job)), map[]), Run(0, env), e.steps, At(e.state, 0, Retried(ticket), map[]), 1,
            At(WithPending(e.state, Counted(ps, k, 1, 1)), 0, Idle(Okay), map[]));
  }

  /** The run of one firing that nobody interrupts. */
  function FiringRun(s: State, ticket: nat, env: Env): seq<Action>
    requires HasTicket(s.handler.pending, ticket)
  {
    Turn(Fire(ticket), Run(0, env), Retrying(s, PendingIndex(s.handler.pending, ticket), env.now).steps)
  }

  function AfterFiring(s: State, ticket: nat, env: Env): State
    requires 0 < |s.clients| && HasTicket(s.handler.pending, ticket)
  {
    var k := PendingIndex(s.handler.pending, ticket);
    var p, t := s.handler.pending[k], Retrying(s, k, env.now).state;
    if p.retryCount < p.maxRetries then WithPc(t, 0, Idle(Okay)) else t
  }

  /** Any firing of a timer, when no mutex is held and nobody interrupts. */
  lemma WholeFiring(s: State, ticket: nat, env: Env)
    requires 0 < |s.clients| && s.clients[0].Idle? && HasTicket(s.handler.pending, ticket) && s.owner == map[]
    ensures Leads(s, FiringRun(s, ticket, env), AfterFiring(s, ticket, env))
    ensures Legal(s, FiringRun(s, ticket, env)) && Exec(s, FiringRun(s, ticket, env)) == AfterFiring(s, ticket, env)
  {
    var ps, k := s.handler.pending, PendingIndex(s.handler.pending, ticket);
    if ps[k].retryCount < ps[k].maxRetries {
      var t := At(WithPending(s, Counted(ps, k, 1, 0)), 0, WaitTopics(Publish(JobOfEntry(s, ps[k]))), map[]);
      FiresStep(s, ticket);
      RetryAlone(s, env, ticket);
      TurnLeads(s, Fire(ticket), Run(0, env), t, Retrying(s, k, env.now).steps, AfterFiring(s, ticket, env));
    } else {
      OneStep(s, Fire(ticket));
      assert Turn(Fire(ticket), Run(0, env), 0) == [Fire(ticket)];
    }
    LeadsIsRun(s, FiringRun(s, ticket, env), AfterFiring(s, ticket, env));
  }

  // ---------------------------------------------------------------- a run from the start

  function FirstTopic(): State {
    Boot(2, 3).(topics := [Topic("sensor/temperature", [], 0, [], Receiving, [], [])])
  }

  lemma FirstCreated(env: Env)
    requires env.granted
    ensures Leads(Boot(2, 3), CallRun(Boot(2, 3), 1, ReqCreate("sensor/temperature"), env), FirstTopic())
  {
    WholeCall(Boot(2, 3), 1, ReqCreate("sensor/temperature"), env);
    assert Returned(Boot(2, 3), 1, ReqCreate("sensor/temperature"), env).clients == Boot(2, 3).clients;
  }

  lemma FourBytes()
    ensures Alloc(BlockList.Init(HEADER, POOL_SIZE), 12, 4) ==
            (Pool([Block(0, 8, false), Block(20, 12768, true)], 20, 20), Some(Block(0, 8, false)))
  {
    var p := BlockList.Init(HEADER, POOL_SIZE);
    PoolTheorems.GrantExact(p, 12, 4, 0);
    assert Alloc(p, 12, 4).0.blocks == [Block(0, 8, false), Block(20, 12768, true)];
    assert Alloc(p, 12, 4).0.used == 20;
  }

  /** A topic is created and four bytes are published to it: both calls return Okay, the message waits in the queue, and
      of the 12,800 bytes of the pool 20 are used. */
  lemma FirstPublish(env: Env)
    requires env.granted
    ensures var create := CallRun(Boot(2, 3), 1, ReqCreate("sensor/temperature"), env);
      var q := ReqPublish("sensor/temperature", [0x32, 0x35, 0x2E, 0x35], Normal);
      var run := create + CallRun(FirstTopic(), 1, q, env);
      && Legal(Boot(2, 3), run)
      && var s := Exec(Boot(2, 3), run);
         && |s.clients| == 2 && s.clients[1] == Idle(Okay)
         && s.pool == Pool([Block(0, 8, false), Block(20, 12768, true)], 20, 20)
         && |s.topics| == 1 && |s.topics[0].queue| == 1 && s.topics[0].queue[0].bytes == q.data
  {
    var q := ReqPublish("sensor/temperature", [0x32, 0x35, 0x2E, 0x35], Normal);
    var s := FirstTopic();
    FirstCreated(env);
    WholeCall(s, 1, q, env);
    FourBytes();
    var create := CallRun(Boot(2, 3), 1, ReqCreate("sensor/temperature"), env);
    Compose(Boot(2, 3), create, s, CallRun(s, 1, q, env), Returned(s, 1, q, env));
    LeadsIsRun(Boot(2, 3), create + CallRun(s, 1, q, env), Returned(s, 1, q, env));
    assert Find(s.topics, "sensor/temperature") == Some(0);
  }
}
