// The subscriber lists: no callback twice, never too many, and an exact count whenever the topic lock is free.
module PubSubSubscribers {
  import opened Octets
  import opened Wrappers
  import opened PubSub
  import opened PubSubFrames
  import opened PubSubLocks

  ghost predicate Distinct(subs: seq<Subscriber>) {
    forall a, b | 0 <= a < b < |subs| :: subs[a].callback != subs[b].callback
  }

  ghost predicate Absent(subs: seq<Subscriber>, callback: Callback) {
    forall a | 0 <= a < |subs| :: subs[a].callback != callback
  }

  predicate AtPool(pc: Pc) { pc.WaitPool? || pc.InPool? }

  /** A node has been unlinked from topic i and the count not yet lowered. */
  predicate Unlinked(pc: Pc, i: nat) { AtPool(pc) && pc.k == UnsubscribeDone(i) }

  /** A subscription to topic i has passed its checks and waits for its node. */
  predicate Linking(pc: Pc, i: nat) { AtPool(pc) && pc.k.SubscribeLink? && pc.k.i == i }

  /** Topic t, numbered i, as seen from a client at pc. */
  ghost predicate Agrees(t: Topic, i: nat, pc: Pc) {
    && (Unlinked(pc, i) ==> t.count == |t.subscribers| + 1)
    && (Linking(pc, i) ==> |t.subscribers| < MAX_SUBSCRIBERS_PER_TOPIC && Absent(t.subscribers, pc.k.callback))
  }

  ghost predicate Settled(s: State, i: nat) { forall c | 0 <= c < |s.clients| :: !Unlinked(s.clients[c], i) }

  ghost predicate SubsOk(s: State, i: nat)
    requires i < |s.topics|
  {
    var t := s.topics[i];
    && Distinct(t.subscribers) && |t.subscribers| <= MAX_SUBSCRIBERS_PER_TOPIC
    && (Settled(s, i) ==> t.count == |t.subscribers|)
    && forall c | 0 <= c < |s.clients| :: Agrees(t, i, s.clients[c])
  }

  ghost predicate SubsInv(s: State) {
    forall i | 0 <= i < |s.topics| :: SubsOk(s, i)
  }

  lemma OthersAreElsewhere(s: State, c: nat, d: nat, i: nat)
    requires LockInv(s) && c != d && c < |s.clients| && d < |s.clients| && TopicLock(i) in PcHolds(s.clients[c])
    ensures !Unlinked(s.clients[d], i) && !Linking(s.clients[d], i)
  {
    MutualExclusion(s, Client(c), Client(d));
    assert TopicLock(i) in Holds(s, Client(c));
    assert TopicLock(i) !in Holds(s, Client(d));
  }

  /** A step of client c that leaves topic i alone and neither starts nor ends a change of its list. */
  lemma AwayKeeps(s: State, s': State, c: nat, i: nat)
    requires i < |s.topics| <= |s'.topics| && SubsOk(s, i)
    requires c < |s.clients| == |s'.clients| && s'.clients == s.clients[c := s'.clients[c]]
    requires s'.topics[i].subscribers == s.topics[i].subscribers && s'.topics[i].count == s.topics[i].count
    requires Unlinked(s'.clients[c], i) <==> Unlinked(s.clients[c], i)
    requires Agrees(s.topics[i], i, s'.clients[c])
    ensures SubsOk(s', i)
  {
    forall d | 0 <= d < |s'.clients| ensures Agrees(s'.topics[i], i, s'.clients[d]) {
      if d != c { assert Agrees(s.topics[i], i, s.clients[d]); }
    }
    if Settled(s', i) {
      forall d | 0 <= d < |s.clients| ensures !Unlinked(s.clients[d], i) {
        assert !Unlinked(s'.clients[d], i);
      }
    }
  }

  /** A step of client c inside the section of topic i decides alone whether the topic is in order. */
  lemma InsideKeeps(s: State, s': State, c: nat, i: nat)
    requires LockInv(s) && i < |s.topics| <= |s'.topics|
    requires c < |s.clients| == |s'.clients| && s'.clients == s.clients[c := s'.clients[c]]
    requires TopicLock(i) in PcHolds(s.clients[c])
    requires var t := s'.topics[i];
      && Distinct(t.subscribers) && |t.subscribers| <= MAX_SUBSCRIBERS_PER_TOPIC
      && (!Unlinked(s'.clients[c], i) ==> t.count == |t.subscribers|)
      && Agrees(t, i, s'.clients[c])
    ensures SubsOk(s', i)
  {
    forall d | 0 <= d < |s'.clients| ensures Agrees(s'.topics[i], i, s'.clients[d]) {
      if d != c { OthersAreElsewhere(s, c, d, i); }
    }
    if Settled(s', i) { assert !Unlinked(s'.clients[c], i); }
  }

  /** Inside the section of topic i, before any change, the count is exact. */
  lemma CountExact(s: State, c: nat, i: nat)
    requires LockInv(s) && i < |s.topics| && SubsOk(s, i)
    requires c < |s.clients| && TopicLock(i) in PcHolds(s.clients[c]) && !Unlinked(s.clients[c], i)
    ensures s.topics[i].count == |s.topics[i].subscribers|
  {
    forall d | 0 <= d < |s.clients| ensures !Unlinked(s.clients[d], i) {
      if d != c { OthersAreElsewhere(s, c, d, i); }
    }
    assert Settled(s, i);
  }

  lemma UnderTopicKeepsSubs(s: State, c: nat, i: nat, call: Call)
    requires LockInv(s) && SubsInv(s) && c < |s.clients| && s.clients[c] == InTopic(i, call)
    requires i < |s.topics| && !call.Create? && !call.Publish?
    ensures SubsOk(UnderTopic(s, c, i, call), i)
  {
    assert SubsOk(s, i);
    CountExact(s, c, i);
    InsideKeeps(s, UnderTopic(s, c, i, call), c, i);
  }

  predicate Linked(t: Topic, u: Topic, n: Subscriber) {
    u.subscribers == [n] + t.subscribers && u.count == t.count + 1
  }

  /** What linking or counting down leaves of topic k.i, and where the client goes. */
  lemma ListChanged(s: State, c: nat, op: PoolCall, k: Cont)
    requires c < |s.clients| && ContInBounds(k, |s.topics|) && (k.SubscribeLink? || k.UnsubscribeDone?)
    ensures var s' := CallPool(s, c, op, k);
      var t, u := s.topics[k.i], s'.topics[k.i];
      && |s'.topics| == |s.topics| && s'.clients == s.clients[c := s'.clients[c]] && s'.clients[c].LeaveTopic?
      && (k.UnsubscribeDone? ==> u.subscribers == t.subscribers && u.count == (t.count - 1) % UINT32_MOD)
      && (k.SubscribeLink? ==>
            || (u.subscribers == t.subscribers && u.count == t.count)
            || (exists n: Subscriber :: Linked(t, u, n) && n.callback == k.callback))
  {
    var t, u := s.topics[k.i], CallPool(s, c, op, k).topics[k.i];
    if k.SubscribeLink? && u.count != t.count { assert Linked(t, u, u.subscribers[0]); }
  }

  lemma LinkKeepsDistinct(subs: seq<Subscriber>, n: Subscriber)
    requires Distinct(subs) && Absent(subs, n.callback)
    ensures Distinct([n] + subs)
  {
  }

  lemma PoolCallKeepsSubs(s: State, c: nat, op: PoolCall, k: Cont)
    requires LockInv(s) && SubsInv(s) && c < |s.clients| && s.clients[c] == InPool(op, k)
    requires ContInBounds(k, |s.topics|) && (k.SubscribeLink? || k.UnsubscribeDone?)
    ensures SubsOk(CallPool(s, c, op, k), k.i)
  {
    var i, s' := k.i, CallPool(s, c, op, k);
    var t, u := s.topics[i], s'.topics[i];
    assert SubsOk(s, i) && Agrees(t, i, s.clients[c]);
    ListChanged(s, c, op, k);
    if k.SubscribeLink? {
      CountExact(s, c, i);
      if n: Subscriber :| Linked(t, u, n) && n.callback == k.callback { LinkKeepsDistinct(t.subscribers, n); }
    }
    assert u.count == |u.subscribers| && Distinct(u.subscribers);
    InsideKeeps(s, s', c, i);
  }

  lemma NewTopicOk(s: State, i: nat)
    requires LockInv(s) && i < |s.topics| && Blank(s.topics[i])
    requires forall c | 0 <= c < |s.clients| :: !Unlinked(s.clients[c], i) && !Linking(s.clients[c], i)
    ensures SubsOk(s, i)
  {
  }

  /** In the middle of a list change the client holds the lock and is not about to receive it. */
  lemma MiddleHolds(pc: Pc, i: nat)
    requires Unlinked(pc, i) || Linking(pc, i)
    ensures TopicLock(i) in PcHolds(pc) && !pc.InTopic?
  {
  }

  lemma EntersTopic(s: State, c: nat, env: Env, i: nat)
    requires Enabled(s, Run(c, env)) && Wants(s, Client(c)) == Some(TopicLock(i))
    ensures var s' := RunClient(s, c, env); c < |s'.clients| && s'.clients[c].InTopic?
  {
  }

  /** A client enters the middle of a list change of topic i only from inside that topic's section. */
  lemma EntersFromInside(s: State, c: nat, env: Env, i: nat)
    requires LockInv(s) && Enabled(s, Run(c, env)) && TopicLock(i) !in PcHolds(s.clients[c])
    ensures var s' := RunClient(s, c, env);
      c < |s'.clients| && !Unlinked(s'.clients[c], i) && !Linking(s'.clients[c], i)
  {
    ClientMoves(s, c, env);
    var s' := RunClient(s, c, env);
    if Unlinked(s'.clients[c], i) || Linking(s'.clients[c], i) {
      MiddleHolds(s'.clients[c], i);
      LockComesFrom(s, c, env, i);
      EntersTopic(s, c, env, i);
    }
  }

  lemma LockComesFrom(s: State, c: nat, env: Env, i: nat)
    requires LockInv(s) && Enabled(s, Run(c, env)) && TopicLock(i) !in PcHolds(s.clients[c])
    requires var s' := RunClient(s, c, env); c < |s'.clients| && TopicLock(i) in PcHolds(s'.clients[c])
    ensures Wants(s, Client(c)) == Some(TopicLock(i))
  {
    ClientKeepsLocks(s, c, env);
    var s', e := RunClient(s, c, env), EffectOf(s, Client(c));
    assert HoldsOf(s')(Client(c)) == PcHolds(s'.clients[c]) && HoldsOf(s)(Client(c)) == PcHolds(s.clients[c]);
    assert e == Takes(TopicLock(i));
  }

  lemma OutsideKeepsSubs(s: State, c: nat, env: Env, i: nat)
    requires LockInv(s) && Enabled(s, Run(c, env)) && i < |s.topics| && SubsOk(s, i)
    requires TopicLock(i) !in PcHolds(s.clients[c])
    ensures var s' := RunClient(s, c, env); i < |s'.topics| && SubsOk(s', i)
  {
    var s' := RunClient(s, c, env);
    EntersFromInside(s, c, env, i);
    ClientMoves(s, c, env);
    if !s.clients[c].Sending? { ClientFrame(s, c, env); }
    AwayKeeps(s, s', c, i);
  }

  lemma ClientMoves(s: State, c: nat, env: Env)
    requires LockInv(s) && Enabled(s, Run(c, env))
    ensures var s' := RunClient(s, c, env);
      |s'.clients| == |s.clients| && s'.clients == s.clients[c := s'.clients[c]] && |s'.topics| >= |s.topics|
  {
    var e, pc := EffectOf(s, Client(c)), s.clients[c];
    if e.Nothing? { BodyMoves(s, c, env); }
    else if pc.InPool? {
      assert PoolLock in HoldsOf(s)(Client(c));
      PoolCallMoves(s, c, env);
    }
  }

  lemma InsideKeepsSubs(s: State, c: nat, env: Env, i: nat)
    requires LockInv(s) && SubsInv(s) && Enabled(s, Run(c, env)) && i < |s.topics|
    requires TopicLock(i) in PcHolds(s.clients[c])
    ensures var s' := RunClient(s, c, env); i < |s'.topics| && SubsOk(s', i)
  {
    var pc := s.clients[c];
    assert SubsOk(s, i) && Agrees(s.topics[i], i, pc);
    if pc.InTopic? { UnderTopicKeepsSubs(s, c, i, pc.call); }
    else if pc.InPool? { PoolCallKeepsSubs(s, c, pc.op, pc.k); }
    else { AwayKeeps(s, RunClient(s, c, env), c, i); }
  }

  lemma ClientKeepsSubs(s: State, c: nat, env: Env)
    requires LockInv(s) && SubsInv(s) && Enabled(s, Run(c, env))
    ensures SubsInv(RunClient(s, c, env))
  {
    var s' := RunClient(s, c, env);
    ClientMoves(s, c, env);
    ClientKeepsLocks(s, c, env);
    forall i | 0 <= i < |s'.topics| ensures SubsOk(s', i) {
      if i >= |s.topics| {
        if !s.clients[c].Sending? { ClientFrame(s, c, env); }
        forall d | 0 <= d < |s'.clients| ensures !Unlinked(s'.clients[d], i) && !Linking(s'.clients[d], i) {
          if d != c { assert InBounds(s.clients[d], |s.topics|); }
          else { NoJump(s, c, env, i); }
        }
        NewTopicOk(s', i);
      } else if TopicLock(i) in PcHolds(s.clients[c]) {
        InsideKeepsSubs(s, c, env, i);
      } else {
        assert SubsOk(s, i);
        OutsideKeepsSubs(s, c, env, i);
      }
    }
  }

  lemma NoJump(s: State, c: nat, env: Env, i: nat)
    requires LockInv(s) && Enabled(s, Run(c, env)) && i >= |s.topics|
    ensures var s' := RunClient(s, c, env);
      c < |s'.clients| && !Unlinked(s'.clients[c], i) && !Linking(s'.clients[c], i)
  {
    EntersFromInside(s, c, env, i);
  }

  lemma SameListsKeep(s: State, s': State, i: nat)
    requires SubsInv(s) && i < |s.topics| == |s'.topics| && s'.clients == s.clients
    requires s'.topics[i].subscribers == s.topics[i].subscribers && s'.topics[i].count == s.topics[i].count
    ensures SubsOk(s', i)
  {
    assert SubsOk(s, i);
    forall c | 0 <= c < |s.clients| ensures Agrees(s'.topics[i], i, s.clients[c]) {
      assert Agrees(s.topics[i], i, s.clients[c]);
    }
    if Settled(s', i) { assert Settled(s, i); }
  }

  lemma IdleMoveKeeps(s: State, s': State, c: nat)
    requires SubsInv(s) && s'.topics == s.topics && c < |s.clients| && s.clients[c].Idle?
    requires |s'.clients| == |s.clients| && s'.clients == s.clients[c := s'.clients[c]] && !AtPool(s'.clients[c])
    ensures SubsInv(s')
  {
    forall i | 0 <= i < |s'.topics| ensures SubsOk(s', i) {
      assert SubsOk(s, i);
      AwayKeeps(s, s', c, i);
    }
  }

  lemma StepKeepsSubs(s: State, a: Action)
    requires LockInv(s) && SubsInv(s) && Enabled(s, a)
    ensures SubsInv(Next(s, a))
  {
    var s' := Next(s, a);
    match a
    case Begin(c, request) => IdleMoveKeeps(s, s', c);
    case Fire(ticket) => IdleMoveKeeps(s, s', 0);
    case Run(c, env) => ClientKeepsSubs(s, c, env);
    case RunTask(t) =>
      TaskFrame(s, t);
      forall i | 0 <= i < |s'.topics| ensures SubsOk(s', i) { SameListsKeep(s, s', i); }
  }

  lemma {:induction false} SubsInRuns(s: State, run: seq<Action>)
    requires LockInv(s) && SubsInv(s) && Legal(s, run)
    ensures LockInv(Exec(s, run)) && SubsInv(Exec(s, run))
    decreases |run|
  {
    if run != [] {
      StepKeepsLocks(s, run[0]);
      StepKeepsSubs(s, run[0]);
      SubsInRuns(Next(s, run[0]), run[1..]);
    }
  }

  /** With the topic lock free nobody is in the middle of a change. */
  lemma FreeMeansSettled(s: State, i: nat)
    requires LockInv(s) && i < |s.topics| && TopicLock(i) !in s.owner
    ensures Settled(s, i)
  {
    forall c | 0 <= c < |s.clients| ensures !Unlinked(s.clients[c], i) {
      assert TopicLock(i) !in HoldsOf(s)(Client(c));
    }
  }

  /** In every run: no callback is subscribed to a topic twice, a topic has at most 20 subscribers, and
      subscriber_count is their number whenever nobody holds the topic lock. */
  lemma SubscriberLists(clients: nat, retries: nat, run: seq<Action>, i: nat)
    requires Legal(Boot(clients, retries), run)
    requires i < |Exec(Boot(clients, retries), run).topics|
    ensures var s := Exec(Boot(clients, retries), run);
      && Distinct(s.topics[i].subscribers)
      && |s.topics[i].subscribers| <= MAX_SUBSCRIBERS_PER_TOPIC
      && (TopicLock(i) !in s.owner ==> s.topics[i].count == |s.topics[i].subscribers|)
  {
    BootLocks(clients, retries);
    SubsInRuns(Boot(clients, retries), run);
    var s := Exec(Boot(clients, retries), run);
    assert SubsOk(s, i);
    if TopicLock(i) !in s.owner { FreeMeansSettled(s, i); }
  }
}
