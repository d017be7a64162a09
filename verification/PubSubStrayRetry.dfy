// A QoS message to a name that does not fit its field: refused, and then published elsewhere by its retry.
module PubSubStrayRetry {
  import opened Wrappers
  import opened BlockList
  import opened PubSub
  import opened PubSubPaths
  import opened PubSubTurns
  import PoolTheorems

  /** Nobody holds a mutex, the pool has room for entry and data, and no topic has the name. */
  predicate Ready(s: State, c: nat, q: Request) {
    && 0 < c < |s.clients| && s.clients[c].Idle? && s.owner == map[]
    && q.ReqPublishQos? && q.qos > 0 && 0 < |q.data| <= SIZE_T_MOD - 8
    && Find(s.topics, q.name).None?
    && Alloc(s.pool, HEADER, PENDING).1.Some?
    && Alloc(Alloc(s.pool, HEADER, PENDING).0, HEADER, |q.data|).1.Some?
  }

  /** What the call leaves behind: TOPIC_NOT_FOUND, and an entry under the name cut to its field. */
  lemma EntryLeft(s: State, c: nat, q: Request, env: Env)
    requires Ready(s, c, q) && env.granted
    ensures var t := Returned(s, c, q, env);
      && t.topics == s.topics && t.clients == s.clients[c := Idle(TopicNotFound)] && t.owner == map[]
      && t.handler.pending != [] && t.handler.pending[1..] == s.handler.pending
      && var p := t.handler.pending[0];
         && p.topic == Truncate(q.name) && p.priority == q.priority && p.ticket == s.handler.issued + 1
         && p.retryCount == 0 && p.maxRetries == s.handler.retries && p.data in t.mem && t.mem[p.data] == q.data
  {
    var job, h := Job(q.name, q.data, q.priority, ViaHandler), s.handler;
    var e := PublishedQos(s, job, q.qos, env);
    assert e == Retained(s.(handler := Drawn(h)), job, h.nextMsgId, h.issued + 1, env);
  }

  lemma FirstTicket(s: State, p: Pending)
    requires s.handler.pending != [] && s.handler.pending[0] == p
    ensures HasTicket(s.handler.pending, p.ticket) && PendingIndex(s.handler.pending, p.ticket) == 0
  {
    assert s.handler.pending[0].ticket == p.ticket;
  }

  /** The first firing for such an entry: its message is accepted by the topic of the cut name. */
  lemma FiringAccepted(s: State, env: Env, i: nat)
    requires 0 < |s.clients| && s.handler.pending != []
    requires var p := s.handler.pending[0];
      && p.retryCount < p.maxRetries && p.data in s.mem && s.mem[p.data] != []
      && Find(s.topics, p.topic) == Some(i) && Alloc(s.pool, HEADER, |s.mem[p.data]|).1.Some?
    requires |s.topics[i].queue| < MAX_QUEUE_SIZE
    ensures HasTicket(s.handler.pending, s.handler.pending[0].ticket)
    ensures var p := s.handler.pending[0];
      var u := AfterFiring(s, p.ticket, env);
      && |u.topics| == |s.topics| && u.topics[i].name == p.topic
      && |u.topics[i].accepted| == |s.topics[i].accepted| + 1
      && u.topics[i].accepted[|s.topics[i].accepted|].bytes == s.mem[p.data]
  {
    FirstTicket(s, s.handler.pending[0]);
  }

  /** A QoS message to a name of 64 bytes or more. Its call returns TOPIC_NOT_FOUND; its first retry is accepted by the
      topic named like its first 63 bytes. */
  lemma StrayRetry(s: State, c: nat, env: Env, q: Request, i: nat)
    requires Ready(s, c, q) && env.granted && s.clients[0].Idle? && s.handler.retries > 0
    requires |q.name| >= 64 && Find(s.topics, Truncate(q.name)) == Some(i)
    requires |s.topics[i].queue| < 100
    requires Alloc(Returned(s, c, q, env).pool, HEADER, |q.data|).1.Some?
    ensures var asked, t := CallRun(s, c, q, env), Returned(s, c, q, env);
      && Legal(s, asked) && Exec(s, asked) == t
      && t.clients == s.clients[c := Idle(TopicNotFound)] && t.topics == s.topics
      && HasTicket(t.handler.pending, s.handler.issued + 1)
      && var retried := FiringRun(t, s.handler.issued + 1, env);
         && Legal(s, asked + retried) && Leads(s, asked + retried, Exec(s, asked + retried))
         && var s' := Exec(s, asked + retried);
            && |s'.topics| == |s.topics| && s'.topics[i].name == q.name[..63]
            && |s'.topics[i].accepted| == |s.topics[i].accepted| + 1
            && s'.topics[i].accepted[|s.topics[i].accepted|].bytes == q.data
  {
    var asked, t := CallRun(s, c, q, env), Returned(s, c, q, env);
    WholeCall(s, c, q, env);
    EntryLeft(s, c, q, env);
    FirstTicket(t, t.handler.pending[0]);
    var ticket := s.handler.issued + 1;
    WholeFiring(t, ticket, env);
    FiringAccepted(t, env, i);
    Compose(s, asked, t, FiringRun(t, ticket, env), AfterFiring(t, ticket, env));
    LeadsIsRun(s, asked + FiringRun(t, ticket, env), AfterFiring(t, ticket, env));
  }

  // ---------------------------------------------------------------- a run from the start

  /** n letters a. */
  function LongName(n: nat): (r: string)
    ensures |r| == n
  {
    seq(n, _ => 'a')
  }

  function StrayRequest(): Request { ReqPublishQos(LongName(64), [1], Normal, 1) }

  /** One topic, named with 63 letters. */
  function OneTopic(): State {
    Boot(2, 1).(topics := [Topic(LongName(63), [], 0, [], Receiving, [], [])], clients := [Idle(Okay), Idle(Okay)])
  }

  lemma CreatesTopic(env: Env)
    requires env.granted
    ensures Leads(Boot(2, 1), CallRun(Boot(2, 1), 1, ReqCreate(LongName(63)), env), OneTopic())
  {
    WholeCall(Boot(2, 1), 1, ReqCreate(LongName(63)), env);
    assert Returned(Boot(2, 1), 1, ReqCreate(LongName(63)), env).clients == OneTopic().clients;
  }

  lemma RoomForOne()
    ensures var (q, a) := Alloc(BlockList.Init(HEADER, POOL_SIZE), HEADER, PENDING);
      a.Some? && q.blocks == [Block(0, 104, false), Block(116, 12672, true)]
  {
    PoolTheorems.GrantExact(BlockList.Init(HEADER, POOL_SIZE), HEADER, PENDING, 0);
  }

  lemma RoomForTwo(p: Pool)
    requires p.blocks == [Block(0, 104, false), Block(116, 12672, true)]
    ensures var (q, b) := Alloc(p, HEADER, 1);
      b.Some? && q.blocks == [Block(0, 104, false), Block(116, 8, false), Block(136, 12652, true)]
  {
    PoolTheorems.GrantExact(p, HEADER, 1, 1);
  }

  /** The blocks of the entry, of its data and of the retry's copy. */
  lemma RoomForThree()
    ensures var p := BlockList.Init(HEADER, POOL_SIZE);
      var (q, a) := Alloc(p, HEADER, PENDING);
      var (q', b) := Alloc(q, HEADER, 1);
      a.Some? && b.Some? && Alloc(q', HEADER, 1).1.Some?
  {
    RoomForOne();
    var q := Alloc(BlockList.Init(HEADER, POOL_SIZE), HEADER, PENDING).0;
    RoomForTwo(q);
    PoolTheorems.GrantExact(Alloc(q, HEADER, 1).0, HEADER, 1, 2);
  }

  lemma StrayReady(env: Env)
    requires env.granted
    ensures Ready(OneTopic(), 1, StrayRequest()) && Find(OneTopic().topics, Truncate(LongName(64))) == Some(0)
    ensures Alloc(Returned(OneTopic(), 1, StrayRequest(), env).pool, HEADER, 1).1.Some?
  {
    RoomForThree();
    assert Truncate(LongName(64)) == LongName(63);
    PoolLeft(OneTopic(), 1, StrayRequest(), env);
  }

  lemma PoolLeft(s: State, c: nat, q: Request, env: Env)
    requires Ready(s, c, q) && env.granted
    ensures Returned(s, c, q, env).pool == Alloc(Alloc(s.pool, HEADER, PENDING).0, HEADER, |q.data|).0
  {
    var job, h := Job(q.name, q.data, q.priority, ViaHandler), s.handler;
    assert PublishedQos(s, job, q.qos, env) == Retained(s.(handler := Drawn(h)), job, h.nextMsgId, h.issued + 1, env);
  }

  /** One topic is created, then a QoS message is sent to its name with one letter more. The sender is told that the
      topic was not found, and the retry is accepted by the topic that was created. */
  lemma StrayRetryReached(env: Env)
    requires env.granted
    ensures var s, t := OneTopic(), Returned(OneTopic(), 1, StrayRequest(), env);
      && HasTicket(t.handler.pending, 1)
      && var run := CallRun(Boot(2, 1), 1, ReqCreate(LongName(63)), env)
                    + (CallRun(s, 1, StrayRequest(), env) + FiringRun(t, 1, env));
         && Legal(Boot(2, 1), run)
         && var u := Exec(Boot(2, 1), run);
            && |u.topics| == 1 && u.topics[0].name == LongName(63) != StrayRequest().name
            && |u.topics[0].accepted| == 1 && u.topics[0].accepted[0].bytes == StrayRequest().data
  {
    var s, created := OneTopic(), CallRun(Boot(2, 1), 1, ReqCreate(LongName(63)), env);
    CreatesTopic(env);
    StrayReady(env);
    StrayRetry(s, 1, env, StrayRequest(), 0);
    var more := CallRun(s, 1, StrayRequest(), env) + FiringRun(Returned(s, 1, StrayRequest(), env), 1, env);
    Compose(Boot(2, 1), created, s, more, Exec(s, more));
    LeadsIsRun(Boot(2, 1), created + more, Exec(s, more));
    assert LongName(64)[..63] == LongName(63);
  }
}
