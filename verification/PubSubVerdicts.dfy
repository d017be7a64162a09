// The code a call returns, in every interleaving: what exactly one of its steps decided.
module PubSubVerdicts {
  import opened Wrappers
  import opened PubSub
  import opened PubSubOwnership
  import opened PubSubLocks
  import opened PubSubSubscribers
  import opened PubSubOutcomes
  import opened PubSubCalls
  import opened PoolTheorems
  import opened Slices

  /** What a step of a client decides about the code of its call, read off the state in which it is taken. */
  ghost function Verdict(s: State, c: nat, env: Env): seq<Code>
    requires c < |s.clients| && InBounds(s.clients[c], |s.topics|)
  {
    match s.clients[c]
    case InTopics(call) =>
      (match call
       case Create(name) =>
         if Named(s.topics, name) then [TopicExists]
         else if |s.topics| < 50 && env.granted then [Okay] else [NoMemory]
       case Publish(job) => if Named(s.topics, job.topic) then [] else [TopicNotFound]
       case Subscribe(name, _, _) => if Named(s.topics, name) then [] else [TopicNotFound]
       case Unsubscribe(name, _) => if Named(s.topics, name) then [] else [TopicNotFound])
    case InTopic(i, call) =>
      var t := s.topics[i];
      if call.Unsubscribe? then [if Subscribed(t, call.callback) then Okay else InvalidParam]
      else if Subscribed(t, call.callback) then [InvalidParam]
      else if |t.subscribers| >= 20 then [MaxSubscribers] else []
    case InPool(op, k) =>
      if op.Release? then []
      else if Exhausted(s.pool, op.size) then [NoMemory]
      else if k.SubscribeLink? then [Okay] else []
    case Sending(_, i, _) => [if |s.topics[i].queue| < 100 then Okay else QueueFull]
    case MakeTimer(_, _, _, _, _) => if env.granted then [] else [NoMemory]
    case _ => []
  }

  ghost function VerdictOf(s: State, a: Action, c: nat): seq<Code>
    requires Enabled(s, a)
  {
    if a.Run? && a.c == c then Verdict(s, c, a.env) else []
  }

  /** What the steps of client c decided in a run. */
  ghost function Verdicts(s: State, run: seq<Action>, c: nat): seq<Code>
    requires Legal(s, run)
    decreases |run|
  {
    if run == [] then [] else VerdictOf(s, run[0], c) + Verdicts(Next(s, run[0]), run[1..], c)
  }

  /** Arguments that are refused before any mutex is taken. */
  predicate BadArguments(q: Request) {
    (q.ReqCreate? && |q.name| >= 64) || (q.ReqPublishQos? && q.data == [])
  }

  predicate ContDecided(op: PoolCall, k: Cont, vs: seq<Code>) {
    match k
    case PublishCopy(job, _) => vs == [] && op == Malloc(|job.data|) && job.data != []
    case SubscribeLink(_, _, _) => vs == [] && op == Malloc(12)
    case PendingStruct(_, _, _) => vs == [] && op == Malloc(100)
    case PendingData(job, _, _, _) => vs == [] && op == Malloc(|job.data|)
    case PublishUndone(_) => vs == [QueueFull] && op.Release?
    case UnsubscribeDone(_) => vs == [Okay] && op.Release?
    case PendingDataFreed(_) => vs == [NoMemory] && op.Release?
    case PendingUndone => vs == [NoMemory] && op.Release?
  }

  /** Where a client is agrees with what its steps have decided. */
  predicate Decided(pc: Pc, q: Request, vs: seq<Code>) {
    match pc
    case Idle(code) => if BadArguments(q) then code == InvalidParam && vs == [] else vs == [code]
    case LeaveTopic(_, code) => !BadArguments(q) && vs == [code]
    case LeaveTopics(_, code) => !BadArguments(q) && vs == [code]
    case LeaveHandler(code) => !BadArguments(q) && vs == [code]
    case WaitPool(op, k) => !BadArguments(q) && ContDecided(op, k, vs)
    case InPool(op, k) => !BadArguments(q) && ContDecided(op, k, vs)
    case _ => !BadArguments(q) && vs == []
  }

  lemma BeginDecides(q: Request)
    ensures Decided(BeginPc(q), q, [])
  {
  }

  ghost predicate DecidedAfter(s: State, s': State, c: nat, env: Env, q: Request, vs: seq<Code>)
    requires c < |s.clients| && InBounds(s.clients[c], |s.topics|)
  {
    c < |s'.clients| && Decided(s'.clients[c], q, vs + Verdict(s, c, env))
  }

  lemma LookupDecides(s: State, c: nat, call: Call, env: Env, q: Request, vs: seq<Code>)
    requires c < |s.clients| && s.clients[c] == InTopics(call) && Decided(s.clients[c], q, vs)
    ensures DecidedAfter(s, UnderTopics(s, c, call, env), c, env, q, vs)
  {
  }

  lemma ListDecides(s: State, c: nat, i: nat, call: Call, env: Env, q: Request, vs: seq<Code>)
    requires LockInv(s) && SubsInv(s) && c < |s.clients| && i < |s.topics| && (call.Subscribe? || call.Unsubscribe?)
    requires s.clients[c] == InTopic(i, call) && Decided(s.clients[c], q, vs)
    ensures DecidedAfter(s, UnderTopic(s, c, i, call), c, env, q, vs)
  {
    if call.Subscribe? { SubscribeOutcome(s, c, i, call.name, call.callback, call.userData); }
    else { UnsubscribeOutcome(s, c, i, call.name, call.callback); }
  }

  lemma SendDecides(s: State, c: nat, job: Job, i: nat, data: Option<Ptr>, env: Env, q: Request, vs: seq<Code>)
    requires c < |s.clients| && i < |s.topics| && s.clients[c] == Sending(job, i, data) && Decided(s.clients[c], q, vs)
    ensures DecidedAfter(s, Send(s, c, job, i, data, env.now), c, env, q, vs)
  {
  }

  lemma TimerDecides(s: State, c: nat, env: Env, q: Request, vs: seq<Code>)
    requires c < |s.clients| && s.clients[c].MakeTimer? && Decided(s.clients[c], q, vs)
    ensures var MakeTimer(job, id, ticket, node, block) := s.clients[c];
      DecidedAfter(s, StartRetrying(s, c, job, id, ticket, node, block, env.granted), c, env, q, vs)
  {
  }

  lemma ReleaseDecides(s: State, c: nat, p: Ptr, k: Cont, env: Env, q: Request, vs: seq<Code>)
    requires c < |s.clients| && s.clients[c] == InPool(Release(p), k) && ContInBounds(k, |s.topics|)
    requires Decided(s.clients[c], q, vs)
    ensures DecidedAfter(s, CallPool(s, c, Release(p), k), c, env, q, vs)
  {
  }

  lemma MallocDecides(s: State, c: nat, size: nat, k: Cont, env: Env, q: Request, vs: seq<Code>)
    requires OwnInv(s) && c < |s.clients| && s.clients[c] == InPool(Malloc(size), k) && ContInBounds(k, |s.topics|)
    requires Decided(s.clients[c], q, vs) && size > 0
    ensures DecidedAfter(s, CallPool(s, c, Malloc(size), k), c, env, q, vs)
  {
    AllocFailsOnlyWhenFull(s.pool, HEADER, POOL_SIZE, size);
  }

  lemma PoolDecides(s: State, c: nat, env: Env, q: Request, done: seq<Deed>, vs: seq<Code>)
    requires OwnInv(s) && Enabled(s, Run(c, env)) && s.clients[c].InPool?
    requires Stands(s.topics, s.clients[c], q, done) && Decided(s.clients[c], q, vs)
    ensures DecidedAfter(s, RunClient(s, c, env), c, env, q, vs)
  {
    var InPool(op, k) := s.clients[c];
    match op {
      case Malloc(size) => MallocDecides(s, c, size, k, env, q, vs);
      case Release(p) => ReleaseDecides(s, c, p, k, env, q, vs);
    }
  }

  lemma PlainDecides(s: State, c: nat, env: Env, q: Request, done: seq<Deed>, vs: seq<Code>)
    requires Enabled(s, Run(c, env)) && Plain(s.clients[c])
    requires Stands(s.topics, s.clients[c], q, done) && Decided(s.clients[c], q, vs)
    ensures DecidedAfter(s, RunClient(s, c, env), c, env, q, vs)
  {
    assert vs + [] == vs;
    if s.clients[c].InHandler? { DrawDecides(s, c, s.clients[c].job, s.clients[c].qos, q, vs); }
  }

  lemma DrawDecides(s: State, c: nat, job: Job, qos: nat, q: Request, vs: seq<Code>)
    requires c < |s.clients| && Decided(InHandler(job, qos), q, vs)
    ensures Decided(UnderHandler(s, c, job, qos).clients[c], q, vs)
  {
  }

  lemma OwnStepDecides(s: State, c: nat, env: Env, q: Request, done: seq<Deed>, vs: seq<Code>)
    requires OwnInv(s) && LockInv(s) && SubsInv(s) && Enabled(s, Run(c, env))
    requires Stands(s.topics, s.clients[c], q, done) && Decided(s.clients[c], q, vs)
    ensures DecidedAfter(s, RunClient(s, c, env), c, env, q, vs)
  {
    var pc := s.clients[c];
    if Plain(pc) { PlainDecides(s, c, env, q, done, vs); }
    else if pc.InPool? { PoolDecides(s, c, env, q, done, vs); }
    else if pc.InTopics? { LookupDecides(s, c, pc.call, env, q, vs); }
    else if pc.InTopic? { ListDecides(s, c, pc.i, pc.call, env, q, vs); }
    else if pc.Sending? { SendDecides(s, c, pc.job, pc.i, pc.data, env, q, vs); }
    else { TimerDecides(s, c, env, q, vs); }
  }

  // ---------------------------------------------------------------- runs

  ghost predicate VerdictInv(s: State, c: nat, q: Request, done: seq<Deed>, vs: seq<Code>) {
    CallInv(s, c, q, done) && OwnInv(s) && Decided(s.clients[c], q, vs)
  }

  lemma StepKeepsVerdict(s: State, a: Action, c: nat, q: Request, done: seq<Deed>, vs: seq<Code>)
    requires VerdictInv(s, c, q, done, vs) && Enabled(s, a) && !(a.Begin? && a.c == c)
    ensures VerdictInv(Next(s, a), c, q, done + DeedsOf(s, a, c), vs + VerdictOf(s, a, c))
  {
    StepKeepsCall(s, a, c, q, done);
    StepKeepsOwners(s, a);
    if a.Run? && a.c == c {
      OwnStepDecides(s, c, a.env, q, done, vs);
    } else {
      OthersLeaveClient(s, a, c);
      assert vs + [] == vs;
    }
  }

  /** The first action of a run, taken apart. */
  lemma FirstVerdict(s: State, run: seq<Action>, c: nat)
    requires Legal(s, run) && run != []
    ensures Enabled(s, run[0]) && Legal(Next(s, run[0]), run[1..])
    ensures Verdicts(s, run, c) == VerdictOf(s, run[0], c) + Verdicts(Next(s, run[0]), run[1..], c)
    ensures Exec(s, run) == Exec(Next(s, run[0]), run[1..])
  {
  }

  lemma {:induction false} VerdictInRuns(s: State, run: seq<Action>, c: nat, q: Request, done: seq<Deed>, vs: seq<Code>)
    requires VerdictInv(s, c, q, done, vs) && Legal(s, run) && NoBegin(run, c)
    ensures var t := Exec(s, run); c < |t.clients| && Decided(t.clients[c], q, vs + Verdicts(s, run, c))
    decreases |run|
  {
    if run == [] {
      assert vs + [] == vs;
    } else {
      var a, rest := run[0], run[1..];
      assert a in run;
      FirstVerdict(s, run, c);
      StepKeepsVerdict(s, a, c, q, done, vs);
      VerdictInRuns(Next(s, a), rest, c, q, done + DeedsOf(s, a, c), vs + VerdictOf(s, a, c));
      Regroup(vs, VerdictOf(s, a, c), Verdicts(Next(s, a), rest, c));
    }
  }

  /** From the Begin of any call to the client's next return, in any interleaving: a call whose arguments are refused
      returns InvalidParam and decides nothing; of any other exactly one step decided something, and the call returns
      that. */
  lemma CodeIsVerdict(clients: nat, retries: nat, run: seq<Action>, c: nat, q: Request, more: seq<Action>)
    requires Legal(Boot(clients, retries), run) && Enabled(Exec(Boot(clients, retries), run), Begin(c, q))
    requires Legal(Next(Exec(Boot(clients, retries), run), Begin(c, q)), more) && NoBegin(more, c)
    requires var s' := Exec(Next(Exec(Boot(clients, retries), run), Begin(c, q)), more);
      c < |s'.clients| && s'.clients[c].Idle?
    ensures var s := Next(Exec(Boot(clients, retries), run), Begin(c, q));
      var code := Exec(s, more).clients[c].last;
      if (q.ReqCreate? && |q.name| >= 64) || (q.ReqPublishQos? && q.data == []) then
        code == InvalidParam && Verdicts(s, more, c) == []
      else Verdicts(s, more, c) == [code]
  {
    var s := Exec(Boot(clients, retries), run);
    BootLocks(clients, retries);
    BootOwners(clients, retries);
    SubsInRuns(Boot(clients, retries), run);
    OwnersInRuns(Boot(clients, retries), run);
    StepKeepsLocks(s, Begin(c, q));
    StepKeepsSubs(s, Begin(c, q));
    StepKeepsOwners(s, Begin(c, q));
    BeginStands(s.topics, q);
    BeginDecides(q);
    VerdictInRuns(Next(s, Begin(c, q)), more, c, q, [], []);
    assert [] + Verdicts(Next(s, Begin(c, q)), more, c) == Verdicts(Next(s, Begin(c, q)), more, c);
  }
}
