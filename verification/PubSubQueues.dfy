// Order and conservation of messages, topic by topic, in every interleaving.
module PubSubQueues {
  import opened Octets
  import opened Wrappers
  import opened PubSub
  import opened PubSubFrames
  import opened Slices

  predicate IsCritical(m: Msg) { m.priority == Critical }

  function NonCritical(ms: seq<Msg>): seq<Msg> {
    if ms == [] then [] else (if IsCritical(ms[0]) then [] else [ms[0]]) + NonCritical(ms[1..])
  }

  function Messages(rounds: seq<Round>): (r: seq<Msg>)
    ensures |r| == |rounds| && forall k | 0 <= k < |r| :: r[k] == rounds[k].msg
  {
    seq(|rounds|, k requires 0 <= k < |rounds| => rounds[k].msg)
  }

  function InHand(task: TaskPc): seq<Msg> {
    match task
    case Received(m) => [m]
    case Delivering(m, _, _) => [m]
    case _ => []
  }

  /** The messages dequeued so far, in the order they were dequeued. */
  function Dequeued(t: Topic): seq<Msg> { Messages(t.rounds) + InHand(t.task) }

  /** Criticals newest first, then non-criticals oldest first. */
  ghost predicate Ordered(queue: seq<Msg>) {
    forall i, j | 0 <= i < j < |queue| ::
      && (IsCritical(queue[j]) ==> IsCritical(queue[i]) && queue[i].serial > queue[j].serial)
      && (!IsCritical(queue[i]) ==> queue[i].serial < queue[j].serial)
  }

  /** Nothing accepted is lost or doubled, and non-criticals leave in the order they came. */
  ghost predicate Conserved(accepted: seq<Msg>, dequeued: seq<Msg>, queue: seq<Msg>) {
    && multiset(accepted) == multiset(dequeued) + multiset(queue)
    && NonCritical(accepted) == NonCritical(dequeued) + NonCritical(queue)
  }

  ghost predicate Numbered(accepted: seq<Msg>) {
    forall k | 0 <= k < |accepted| :: accepted[k].serial == k
  }

  ghost predicate Below(queue: seq<Msg>, n: nat) {
    forall m | m in queue :: m.serial < n
  }

  ghost predicate QueueOk(t: Topic) {
    && |t.queue| <= MAX_QUEUE_SIZE
    && Ordered(t.queue)
    && Below(t.queue, |t.accepted|)
    && Numbered(t.accepted)
    && Conserved(t.accepted, Dequeued(t), t.queue)
    && (t.task.Delivering? ==> t.task.round.msg == t.task.m)
  }

  ghost predicate QueueInv(s: State) {
    forall i | 0 <= i < |s.topics| :: QueueOk(s.topics[i])
  }

  lemma {:induction false} NonCriticalCat(a: seq<Msg>, b: seq<Msg>)
    ensures NonCritical(a + b) == NonCritical(a) + NonCritical(b)
  {
    if a == [] {
      assert a + b == b;
    } else {
      assert (a + b)[1..] == a[1..] + b;
      NonCriticalCat(a[1..], b);
    }
  }

  lemma {:induction false} AllCritical(ms: seq<Msg>)
    requires forall m | m in ms :: IsCritical(m)
    ensures NonCritical(ms) == []
  {
    if ms != [] {
      assert ms[0] in ms;
      AllCritical(ms[1..]);
    }
  }

  function Put(queue: seq<Msg>, m: Msg): seq<Msg> {
    if IsCritical(m) then [m] + queue else queue + [m]
  }

  function Enqueue(t: Topic, m: Msg): Topic {
    t.(queue := Put(t.queue, m), accepted := t.accepted + [m])
  }

  lemma PutOrdered(queue: seq<Msg>, m: Msg)
    requires Ordered(queue) && Below(queue, m.serial)
    ensures Ordered(Put(queue, m)) && Below(Put(queue, m), m.serial + 1)
  {
    assert forall i | 0 <= i < |queue| :: queue[i] in queue;
  }

  lemma PutCounted<A>(accepted: multiset<A>, dequeued: multiset<A>, queue: seq<A>, m: A)
    requires accepted == dequeued + multiset(queue)
    ensures accepted + multiset{m} == dequeued + multiset([m] + queue)
    ensures accepted + multiset{m} == dequeued + multiset(queue + [m])
  {
  }

  lemma CriticalAlone(m: Msg)
    ensures NonCritical([m]) == if IsCritical(m) then [] else [m]
  {
    assert [m][1..] == [];
  }

  lemma PutInOrder(accepted: seq<Msg>, dequeued: seq<Msg>, queue: seq<Msg>, m: Msg)
    requires NonCritical(accepted) == NonCritical(dequeued) + NonCritical(queue)
    ensures NonCritical(accepted + [m]) == NonCritical(dequeued) + NonCritical(Put(queue, m))
  {
    NonCriticalCat(accepted, [m]);
    CriticalAlone(m);
    if IsCritical(m) {
      NonCriticalCat([m], queue);
    } else {
      NonCriticalCat(queue, [m]);
      Regroup(NonCritical(dequeued), NonCritical(queue), [m]);
    }
  }

  lemma PutConserved(accepted: seq<Msg>, dequeued: seq<Msg>, queue: seq<Msg>, m: Msg)
    requires Conserved(accepted, dequeued, queue)
    ensures Conserved(accepted + [m], dequeued, Put(queue, m))
  {
    PutCounted(multiset(accepted), multiset(dequeued), queue, m);
    PutInOrder(accepted, dequeued, queue, m);
  }

  lemma EnqueueKeeps(t: Topic, m: Msg)
    requires QueueOk(t) && |t.queue| < MAX_QUEUE_SIZE && m.serial == |t.accepted|
    ensures QueueOk(Enqueue(t, m))
  {
    PutOrdered(t.queue, m);
    PutConserved(t.accepted, Dequeued(t), t.queue, m);
  }

  lemma TakeCounted<A>(accepted: multiset<A>, dequeued: seq<A>, m: A, queue: seq<A>)
    requires accepted == multiset(dequeued) + multiset([m] + queue)
    ensures accepted == multiset(dequeued + [m]) + multiset(queue)
  {
  }

  lemma TakeInOrder(accepted: seq<Msg>, dequeued: seq<Msg>, m: Msg, queue: seq<Msg>)
    requires NonCritical(accepted) == NonCritical(dequeued) + NonCritical([m] + queue)
    ensures NonCritical(accepted) == NonCritical(dequeued + [m]) + NonCritical(queue)
  {
    NonCriticalCat(dequeued, [m]);
    NonCriticalCat([m], queue);
    Regroup(NonCritical(dequeued), NonCritical([m]), NonCritical(queue));
  }

  lemma TakeConserved(accepted: seq<Msg>, dequeued: seq<Msg>, m: Msg, queue: seq<Msg>)
    requires Conserved(accepted, dequeued, [m] + queue)
    ensures Conserved(accepted, dequeued + [m], queue)
  {
    TakeCounted(multiset(accepted), dequeued, m, queue);
    TakeInOrder(accepted, dequeued, m, queue);
  }

  lemma DequeueKeeps(t: Topic)
    requires QueueOk(t) && t.task.Receiving? && t.queue != []
    ensures QueueOk(t.(task := Received(t.queue[0]), queue := t.queue[1..]))
  {
    var u := t.(task := Received(t.queue[0]), queue := t.queue[1..]);
    assert t.queue == [t.queue[0]] + t.queue[1..];
    TakeConserved(t.accepted, Dequeued(t), t.queue[0], t.queue[1..]);
    assert Dequeued(t) == Messages(t.rounds);
    assert Dequeued(u) == Dequeued(t) + [t.queue[0]];
  }

  lemma SameQueue(t: Topic, u: Topic)
    requires QueueOk(t) && u.queue == t.queue && u.accepted == t.accepted && Dequeued(u) == Dequeued(t)
    requires u.task.Delivering? ==> u.task.round.msg == u.task.m
    ensures QueueOk(u)
  {
  }

  /** A round that ends moves its message from the hand to the rounds. */
  lemma RoundEnds(t: Topic, round: Round)
    requires t.task.Delivering? && round.msg == t.task.m
    ensures Messages(t.rounds + [round]) == Messages(t.rounds) + InHand(t.task)
  {
    assert Messages(t.rounds + [round]) == Messages(t.rounds) + [t.task.m];
  }

  lemma DeliverKeepsQueue(t: Topic, mem: map<Ptr, Bytes>)
    requires QueueOk(t) && t.task.Delivering?
    ensures QueueOk(NextOfTask(t, mem))
  {
    var u := NextOfTask(t, mem);
    RoundEnds(t, t.task.round);
    if t.task.next >= |t.subscribers| { assert Dequeued(u) == Messages(u.rounds); }
    SameQueue(t, u);
  }

  /** The other steps keep the message in hand, or keep the hand empty. */
  lemma HandKept(t: Topic, mem: map<Ptr, Bytes>)
    requires QueueOk(t) && !t.task.Receiving? && !t.task.Delivering?
    ensures QueueOk(NextOfTask(t, mem))
  {
    var u := NextOfTask(t, mem);
    assert u.rounds == t.rounds && InHand(u.task) == InHand(t.task);
    assert Dequeued(u) == Dequeued(t);
    SameQueue(t, u);
  }

  lemma TaskKeepsQueue(t: Topic, mem: map<Ptr, Bytes>)
    requires QueueOk(t) && (t.task.Receiving? ==> t.queue != [])
    ensures QueueOk(NextOfTask(t, mem))
  {
    if t.task.Receiving? { DequeueKeeps(t); }
    else if t.task.Delivering? { DeliverKeepsQueue(t, mem); }
    else { HandKept(t, mem); }
  }

  lemma SendKeepsQueue(s: State, c: nat, job: Job, i: nat, data: Option<Ptr>, now: nat)
    requires c < |s.clients| && i < |s.topics| && QueueInv(s)
    ensures QueueInv(Send(s, c, job, i, data, now))
  {
    var t := s.topics[i];
    if |t.queue| < MAX_QUEUE_SIZE {
      var m := Msg(Truncate(job.topic), data, |job.data|, job.priority, now, job.data, |t.accepted|);
      EnqueueKeeps(t, m);
      assert Send(s, c, job, i, data, now).topics == s.topics[i := Enqueue(t, m)];
    }
  }

  lemma KeptTopicsKeepQueues(s: State, s': State, held: set<Lock>)
    requires QueueInv(s) && TopicsKept(s, s', held)
    ensures QueueInv(s')
  {
    forall j | 0 <= j < |s'.topics| ensures QueueOk(s'.topics[j]) {
      if j < |s.topics| { SameQueue(s.topics[j], s'.topics[j]); }
    }
  }

  lemma ClientKeepsQueues(s: State, c: nat, env: Env)
    requires QueueInv(s) && Enabled(s, Run(c, env))
    ensures QueueInv(RunClient(s, c, env))
  {
    var pc := s.clients[c];
    if pc.Sending? {
      SendKeepsQueue(s, c, pc.job, pc.i, pc.data, env.now);
    } else {
      ClientFrame(s, c, env);
      KeptTopicsKeepQueues(s, RunClient(s, c, env), PcHolds(pc));
    }
  }

  lemma TaskStepKeepsQueues(s: State, i: nat)
    requires QueueInv(s) && Enabled(s, RunTask(i))
    ensures QueueInv(StepTask(s, i))
  {
    assert QueueOk(s.topics[i]);
    TaskKeepsQueue(s.topics[i], s.mem);
    TaskFrame(s, i);
    forall j | 0 <= j < |s.topics| && j != i ensures QueueOk(StepTask(s, i).topics[j]) {
      assert QueueOk(s.topics[j]);
    }
  }

  lemma StepKeepsQueues(s: State, a: Action)
    requires QueueInv(s) && Enabled(s, a)
    ensures QueueInv(Next(s, a))
  {
    match a {
      case Begin(c, request) => assert Next(s, a).topics == s.topics;
      case Fire(ticket) => assert Next(s, a).topics == s.topics;
      case Run(c, env) => ClientKeepsQueues(s, c, env);
      case RunTask(i) => TaskStepKeepsQueues(s, i);
    }
  }

  lemma {:induction false} QueuesInRuns(s: State, run: seq<Action>)
    requires QueueInv(s) && Legal(s, run)
    ensures QueueInv(Exec(s, run))
    decreases |run|
  {
    if run != [] {
      StepKeepsQueues(s, run[0]);
      QueuesInRuns(Next(s, run[0]), run[1..]);
    }
  }

  // ---------------------------------------------------------------- what a step does to a queue

  /** A message has been accepted: a critical one at the front, any other at the end. */
  predicate Accepts(t: Topic, u: Topic, m: Msg) {
    u.accepted == t.accepted + [m] && u.queue == if m.priority == Critical then [m] + t.queue else t.queue + [m]
  }

  /** At most one message has been accepted, and none has left the queue. */
  ghost predicate OnlyGrows(t: Topic, u: Topic) {
    (u.accepted == t.accepted && u.queue == t.queue) || exists m :: Accepts(t, u, m)
  }

  ghost predicate Grows(t: Topic, u: Topic) { OnlyGrows(t, u) && Dequeued(u) == Dequeued(t) }

  lemma SendGrows(s: State, c: nat, job: Job, i: nat, data: Option<Ptr>, now: nat, j: nat)
    requires c < |s.clients| && i < |s.topics| && j < |s.topics|
    ensures Grows(s.topics[j], Send(s, c, job, i, data, now).topics[j])
  {
    var t := s.topics[i];
    if |t.queue| < MAX_QUEUE_SIZE && j == i {
      var m := Msg(Truncate(job.topic), data, |job.data|, job.priority, now, job.data, |t.accepted|);
      assert Accepts(t, Send(s, c, job, i, data, now).topics[i], m);
    }
  }

  lemma ClientGrows(s: State, c: nat, env: Env, j: nat)
    requires Enabled(s, Run(c, env)) && j < |s.topics|
    ensures j < |RunClient(s, c, env).topics| && Grows(s.topics[j], RunClient(s, c, env).topics[j])
  {
    var pc := s.clients[c];
    if pc.Sending? {
      SendGrows(s, c, pc.job, pc.i, pc.data, env.now, j);
    } else {
      ClientFrame(s, c, env);
      assert SameTraffic(s.topics[j], RunClient(s, c, env).topics[j]);
    }
  }

  lemma TaskHandsOn(t: Topic, mem: map<Ptr, Bytes>)
    requires QueueOk(t) && !t.task.Receiving?
    ensures Grows(t, NextOfTask(t, mem))
  {
    if t.task.Delivering? {
      RoundEnds(t, t.task.round);
    }
  }

  /** Only topic_task's receive step takes a message off a queue, and it takes the first. */
  lemma StepOnQueue(s: State, a: Action, i: nat)
    requires QueueInv(s) && Enabled(s, a) && i < |s.topics|
    ensures i < |Next(s, a).topics|
    ensures var t, u := s.topics[i], Next(s, a).topics[i];
      if a == RunTask(i) && t.task.Receiving? then
        u.accepted == t.accepted && u.queue == t.queue[1..] && Dequeued(u) == Dequeued(t) + [t.queue[0]]
      else Grows(t, u)
  {
    if a.Run? {
      ClientGrows(s, a.c, a.env, i);
    } else if a.RunTask? {
      TaskFrame(s, a.t);
      var t := s.topics[i];
      assert QueueOk(t);
      if a.t == i && !t.task.Receiving? { TaskHandsOn(t, s.mem); }
      if a.t == i && t.task.Receiving? { assert Dequeued(t) == Messages(t.rounds); }
    }
  }

  /** In every run: a message leaves a queue only when topic_task receives it, it is the first of the queue, no other
      critical message is waiting unless it is critical itself and newer, and no message that waits is older if it is
      not critical. */
  lemma FrontIsDequeued(clients: nat, retries: nat, run: seq<Action>, a: Action, i: nat)
    requires Legal(Boot(clients, retries), run) && Enabled(Exec(Boot(clients, retries), run), a)
    requires i < |Exec(Boot(clients, retries), run).topics|
    ensures var s := Exec(Boot(clients, retries), run);
      && i < |Next(s, a).topics|
      && var t, u := s.topics[i], Next(s, a).topics[i];
         if a == RunTask(i) && t.task.Receiving? then
           && u.accepted == t.accepted && u.queue == t.queue[1..] && Dequeued(u) == Dequeued(t) + [t.queue[0]]
           && forall m | m in u.queue ::
                && (m.priority == Critical ==> t.queue[0].priority == Critical && m.serial < t.queue[0].serial)
                && (t.queue[0].priority != Critical ==> m.priority != Critical && t.queue[0].serial < m.serial)
         else Grows(t, u)
  {
    QueuesInRuns(Boot(clients, retries), run);
    var s := Exec(Boot(clients, retries), run);
    var t := s.topics[i];
    StepOnQueue(s, a, i);
    if a == RunTask(i) && t.task.Receiving? {
      assert QueueOk(t);
      forall m | m in t.queue[1..]
        ensures m.priority == Critical ==> t.queue[0].priority == Critical && m.serial < t.queue[0].serial
        ensures t.queue[0].priority != Critical ==> m.priority != Critical && t.queue[0].serial < m.serial
      {
        var j :| 0 < j < |t.queue| && t.queue[j] == m;
      }
    }
  }

  /** Per topic, in every run: queue order, conservation of messages and first-in-first-out for non-criticals; the
      serial of a message is its place among the accepted. */
  lemma MessagesAreConserved(clients: nat, retries: nat, run: seq<Action>, i: nat)
    requires Legal(Boot(clients, retries), run)
    requires i < |Exec(Boot(clients, retries), run).topics|
    ensures var t := Exec(Boot(clients, retries), run).topics[i];
      && |t.queue| <= 100
      && Ordered(t.queue)
      && (forall k | 0 <= k < |t.accepted| :: t.accepted[k].serial == k)
      && multiset(t.accepted) == multiset(Dequeued(t)) + multiset(t.queue)
      && NonCritical(Dequeued(t)) <= NonCritical(t.accepted)
      && NonCritical(t.accepted) == NonCritical(Dequeued(t) + t.queue)
  {
    QueuesInRuns(Boot(clients, retries), run);
    var t := Exec(Boot(clients, retries), run).topics[i];
    assert QueueOk(t);
    NonCriticalCat(Dequeued(t), t.queue);
  }
}
