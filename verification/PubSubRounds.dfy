// One pass of topic_task that nobody interrupts, as one operation.
module PubSubRounds {
  import opened BlockList
  import opened PubSub
  import opened PubSubDelivery
  import opened PubSubPaths

  /** Topic i at another point of its task. */
  function TaskAt(s: State, i: nat, task: TaskPc, held: map<Lock, Tid>): State
    requires i < |s.topics|
  {
    s.(topics := s.topics[i := s.topics[i].(task := task)], owner := held)
  }

  function Locked(s: State, i: nat): map<Lock, Tid> { s.owner[TopicLock(i) := Task(i)] }

  /** The first k subscribers have been called. */
  function Calling(s: State, i: nat, m: Msg, k: nat): State
    requires i < |s.topics| && k <= |s.topics[i].subscribers|
  {
    var subs := s.topics[i].subscribers;
    TaskAt(s, i, Delivering(m, k, Round(m, subs, CallsFor(subs[..k], Load(s.mem, m.data)))), Locked(s, i))
  }

  lemma CallsOne(s: State, i: nat, m: Msg, k: nat)
    requires i < |s.topics| && k < |s.topics[i].subscribers|
    ensures StepOk(Calling(s, i, m, k), RunTask(i), Calling(s, i, m, k + 1))
  {
    var subs, bytes := s.topics[i].subscribers, Load(s.mem, m.data);
    assert subs[..k + 1] == subs[..k] + [subs[k]];
    assert CallsFor(subs[..k + 1], bytes) ==
           CallsFor(subs[..k], bytes) + [Invocation(subs[k].callback, subs[k].userData, bytes)];
  }

  lemma {:induction false} CallsAll(s: State, i: nat, m: Msg, k: nat)
    requires i < |s.topics| && k <= |s.topics[i].subscribers|
    ensures Alone(Calling(s, i, m, 0), RunTask(i), k, Calling(s, i, m, k))
  {
    if k == 0 {
      var states := [Calling(s, i, m, 0)];
      assert Path(states, Times(RunTask(i), 0)) && states[0] == Calling(s, i, m, 0);
    } else {
      CallsAll(s, i, m, k - 1);
      CallsOne(s, i, m, k - 1);
      AloneOnce(Calling(s, i, m, k - 1), RunTask(i), Calling(s, i, m, k));
      AloneOn(Calling(s, i, m, 0), RunTask(i), k - 1, Calling(s, i, m, k - 1), 1, Calling(s, i, m, k));
    }
  }

  /** The message is taken off the queue, the topic locked. */
  lemma ReceivesAlone(s: State, i: nat)
    requires i < |s.topics| && s.topics[i].task == Receiving && s.topics[i].queue != [] && TopicLock(i) !in s.owner
    ensures var t := s.topics[i];
      Alone(s, RunTask(i), 2, Calling(s.(topics := s.topics[i := t.(queue := t.queue[1..])]), i, t.queue[0], 0))
  {
    var t := s.topics[i];
    var u := s.(topics := s.topics[i := t.(queue := t.queue[1..])]);
    var s1 := TaskAt(u, i, Received(t.queue[0]), s.owner);
    assert t.subscribers[..0] == [];
    AloneOnce(s, RunTask(i), s1);
    AloneOnce(s1, RunTask(i), Calling(u, i, t.queue[0], 0));
    AloneOn(s, RunTask(i), 1, s1, 1, Calling(u, i, t.queue[0], 0));
  }

  /** A round that called everybody. */
  function FullRound(s: State, i: nat, m: Msg): Round
    requires i < |s.topics|
  {
    Round(m, s.topics[i].subscribers, CallsFor(s.topics[i].subscribers, Load(s.mem, m.data)))
  }

  function Recorded(s: State, i: nat, m: Msg): State
    requires i < |s.topics|
  {
    s.(topics := s.topics[i := s.topics[i].(rounds := s.topics[i].rounds + [FullRound(s, i, m)])])
  }

  lemma CallsEnd(s: State, i: nat, m: Msg)
    requires i < |s.topics|
    ensures StepOk(Calling(s, i, m, |s.topics[i].subscribers|), RunTask(i),
                   TaskAt(Recorded(s, i, m), i, if m.data.Some? then WaitFree(m.data.value) else Unlocking,
                          Locked(s, i)))
  {
    assert s.topics[i].subscribers[..|s.topics[i].subscribers|] == s.topics[i].subscribers;
  }

  lemma UnlocksAlone(s: State, i: nat)
    requires i < |s.topics| && TopicLock(i) !in s.owner
    ensures Alone(TaskAt(s, i, Unlocking, Locked(s, i)), RunTask(i), 1, TaskAt(s, i, Receiving, s.owner))
  {
    assert Locked(s, i) - {TopicLock(i)} == s.owner;
    AloneOnce(TaskAt(s, i, Unlocking, Locked(s, i)), RunTask(i), TaskAt(s, i, Receiving, s.owner));
  }

  lemma FreedAlone(s: State, i: nat, p: Ptr)
    requires i < |s.topics| && PoolLock !in s.owner
    ensures Alone(TaskAt(s, i, WaitFree(p), Locked(s, i)), RunTask(i), 2,
                  TaskAt(s.(pool := Free(s.pool, 12, p)), i, Unlocking, Locked(s, i)))
  {
    var a, s0, s2 := RunTask(i), TaskAt(s, i, WaitFree(p), Locked(s, i)),
      TaskAt(s.(pool := Free(s.pool, 12, p)), i, Unlocking, Locked(s, i));
    var s1 := TaskAt(s, i, InFree(p), Locked(s, i)[PoolLock := Task(i)]);
    assert Locked(s, i)[PoolLock := Task(i)] - {PoolLock} == Locked(s, i);
    AloneOnce(s0, a, s1);
    AloneOnce(s1, a, s2);
    AloneOn(s0, a, 1, s1, 1, s2);
  }

  lemma FreesAlone(s: State, i: nat, p: Ptr)
    requires i < |s.topics| && TopicLock(i) !in s.owner && PoolLock !in s.owner
    ensures Alone(TaskAt(s, i, WaitFree(p), Locked(s, i)), RunTask(i), 3,
                  TaskAt(s.(pool := Free(s.pool, 12, p)), i, Receiving, s.owner))
  {
    var u := s.(pool := Free(s.pool, 12, p));
    FreedAlone(s, i, p);
    UnlocksAlone(u, i);
    AloneOn(TaskAt(s, i, WaitFree(p), Locked(s, i)), RunTask(i), 2, TaskAt(u, i, Unlocking, Locked(s, i)), 1,
            TaskAt(u, i, Receiving, s.owner));
  }

  lemma CalledAlone(s: State, i: nat, m: Msg)
    requires i < |s.topics|
    ensures var n, task := |s.topics[i].subscribers|, if m.data.Some? then WaitFree(m.data.value) else Unlocking;
      Alone(Calling(s, i, m, 0), RunTask(i), n + 1, TaskAt(Recorded(s, i, m), i, task, Locked(s, i)))
  {
    var a, s0, n := RunTask(i), Calling(s, i, m, 0), |s.topics[i].subscribers|;
    var s2 := TaskAt(Recorded(s, i, m), i, if m.data.Some? then WaitFree(m.data.value) else Unlocking, Locked(s, i));
    CallsAll(s, i, m, n);
    CallsEnd(s, i, m);
    AloneOnce(Calling(s, i, m, n), a, s2);
    AloneOn(s0, a, n, Calling(s, i, m, n), 1, s2);
  }

  /** From the first call to the next receive. */
  lemma RoundAlone(s: State, i: nat, m: Msg)
    requires i < |s.topics| && TopicLock(i) !in s.owner && PoolLock !in s.owner
    ensures var n, t := |s.topics[i].subscribers|, Recorded(s, i, m);
      if m.data.Some? then
        Alone(Calling(s, i, m, 0), RunTask(i), n + 4,
              TaskAt(t.(pool := Free(s.pool, 12, m.data.value)), i, Receiving, s.owner))
      else Alone(Calling(s, i, m, 0), RunTask(i), n + 2, TaskAt(t, i, Receiving, s.owner))
  {
    var a, s0, n, t := RunTask(i), Calling(s, i, m, 0), |s.topics[i].subscribers|, Recorded(s, i, m);
    CalledAlone(s, i, m);
    if m.data.Some? {
      FreesAlone(t, i, m.data.value);
      AloneOn(s0, a, n + 1, TaskAt(t, i, WaitFree(m.data.value), Locked(s, i)), 3,
              TaskAt(t.(pool := Free(s.pool, 12, m.data.value)), i, Receiving, s.owner));
    } else {
      UnlocksAlone(t, i);
      AloneOn(s0, a, n + 1, TaskAt(t, i, Unlocking, Locked(s, i)), 1, TaskAt(t, i, Receiving, s.owner));
    }
  }

  /** One pass of topic_task as one operation: the first message leaves the queue, every subscriber is called with its
      bytes, and its block is freed. */
  function Delivered(s: State, i: nat): State
    requires i < |s.topics| && s.topics[i].queue != []
  {
    var t, m := s.topics[i], s.topics[i].queue[0];
    s.(pool := if m.data.Some? then Free(s.pool, 12, m.data.value) else s.pool,
       topics := s.topics[i := t.(queue := t.queue[1..], rounds := t.rounds + [FullRound(s, i, m)])])
  }

  lemma DeliveredAfter(s: State, i: nat)
    requires i < |s.topics| && s.topics[i].task == Receiving && s.topics[i].queue != []
    ensures var t, m := s.topics[i], s.topics[i].queue[0];
      var u := Recorded(s.(topics := s.topics[i := t.(queue := t.queue[1..])]), i, m);
      Delivered(s, i) ==
        TaskAt(if m.data.Some? then u.(pool := Free(s.pool, 12, m.data.value)) else u, i, Receiving, s.owner)
  {
    var t, m := s.topics[i], s.topics[i].queue[0];
    var u := Recorded(s.(topics := s.topics[i := t.(queue := t.queue[1..])]), i, m);
    assert Delivered(s, i).topics == u.topics;
    assert u.topics[i := u.topics[i].(task := Receiving)] == u.topics;
  }

  /** The steps of one pass. */
  function PassLength(t: Topic): nat
    requires t.queue != []
  {
    |t.subscribers| + if t.queue[0].data.Some? then 6 else 4
  }

  lemma PassAlone(s: State, i: nat)
    requires i < |s.topics| && s.topics[i].task == Receiving && s.topics[i].queue != []
    requires TopicLock(i) !in s.owner && PoolLock !in s.owner
    ensures Alone(s, RunTask(i), PassLength(s.topics[i]), Delivered(s, i))
  {
    var t, m := s.topics[i], s.topics[i].queue[0];
    var u := s.(topics := s.topics[i := t.(queue := t.queue[1..])]);
    ReceivesAlone(s, i);
    RoundAlone(u, i, m);
    DeliveredAfter(s, i);
    AloneOn(s, RunTask(i), 2, Calling(u, i, m, 0), PassLength(t) - 2, Delivered(s, i));
  }

  /** When its locks are free and nobody interrupts, topic_task carries out its pass and waits for the next message. */
  lemma DeliverAlone(s: State, i: nat)
    requires i < |s.topics| && s.topics[i].task == Receiving && s.topics[i].queue != []
    requires TopicLock(i) !in s.owner && PoolLock !in s.owner
    ensures var pass := Times(RunTask(i), PassLength(s.topics[i]));
      Legal(s, pass) && Exec(s, pass) == Delivered(s, i)
  {
    PassAlone(s, i);
    LeadsIsRun(s, Times(RunTask(i), PassLength(s.topics[i])), Delivered(s, i));
  }
}
