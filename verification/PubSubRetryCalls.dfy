// Retries against the calls they belong to.
module PubSubRetryCalls {
  import opened PubSub
  import opened PubSubFrames
  import opened PubSubLocks
  import opened PubSubDelivery
  import opened PubSubRetry
  import opened PubSubCalls

  // ---------------------------------------------------------------- entries stay what they are

  /** Only the counts of a pending entry ever change. */
  predicate SameEntry(p: Pending, q: Pending) { q == p.(retryCount := q.retryCount, attempts := q.attempts) }

  /** Entries are only ever added, at the head. */
  ghost predicate Extends(ps: seq<Pending>, qs: seq<Pending>) {
    |qs| >= |ps| && forall k | 0 <= k < |ps| :: SameEntry(ps[k], qs[k + |qs| - |ps|])
  }

  lemma ExtendsOn(ps: seq<Pending>, qs: seq<Pending>, rs: seq<Pending>)
    requires Extends(ps, qs) && Extends(qs, rs)
    ensures Extends(ps, rs)
  {
    forall k | 0 <= k < |ps| ensures SameEntry(ps[k], rs[k + |rs| - |ps|]) {
      assert SameEntry(ps[k], qs[k + |qs| - |ps|]);
      assert SameEntry(qs[k + |qs| - |ps|], rs[k + |rs| - |ps|]);
    }
  }

  lemma SameExtends(ps: seq<Pending>)
    ensures Extends(ps, ps)
  {
  }

  lemma StartExtends(s: State, c: nat, job: Job, id: nat, ticket: nat, node: Ptr, block: Ptr, granted: bool)
    requires c < |s.clients|
    ensures Extends(s.handler.pending, StartRetrying(s, c, job, id, ticket, node, block, granted).handler.pending)
  {
  }

  lemma CountExtends(h: Handler, ticket: nat)
    ensures Extends(h.pending, CountRetry(h, ticket).pending)
  {
  }

  lemma ClientExtends(s: State, c: nat, env: Env)
    requires Enabled(s, Run(c, env))
    ensures Extends(s.handler.pending, RunClient(s, c, env).handler.pending)
  {
    var pc := s.clients[c];
    if pc.MakeTimer? { StartExtends(s, c, pc.job, pc.id, pc.ticket, pc.node, pc.block, env.granted); }
    else if pc.Retried? { CountExtends(s.handler, pc.ticket); }
    else {
      SamePending(s, c, env);
      SameExtends(s.handler.pending);
    }
  }

  lemma SamePending(s: State, c: nat, env: Env)
    requires Enabled(s, Run(c, env)) && !s.clients[c].MakeTimer? && !s.clients[c].Retried?
    ensures RunClient(s, c, env).handler.pending == s.handler.pending
  {
    var pc := s.clients[c];
    if pc.InPool? { PoolCallFrame(s, c, pc.op, pc.k); }
    else if pc.InTopics? { UnderTopicsFrame(s, c, pc.call, env); }
    else if pc.InTopic? { UnderTopicFrame(s, c, pc.i, pc.call); }
  }

  lemma StepExtends(s: State, a: Action)
    requires Enabled(s, a)
    ensures Extends(s.handler.pending, Next(s, a).handler.pending)
  {
    if a.Run? { ClientExtends(s, a.c, a.env); }
    else if a.RunTask? { TaskFrame(s, a.t); }
  }

  lemma {:induction false} RunExtends(s: State, run: seq<Action>)
    requires Legal(s, run)
    ensures Extends(s.handler.pending, Exec(s, run).handler.pending)
    decreases |run|
  {
    if run != [] {
      StepExtends(s, run[0]);
      RunExtends(Next(s, run[0]), run[1..]);
      ExtendsOn(s.handler.pending, Next(s, run[0]).handler.pending, Exec(s, run).handler.pending);
    }
  }

  ghost predicate HasEntry(ps: seq<Pending>, p: Pending) {
    exists k | 0 <= k < |ps| :: SameEntry(p, ps[k])
  }

  lemma EntryStays(ps: seq<Pending>, qs: seq<Pending>, p: Pending)
    requires HasEntry(ps, p) && Extends(ps, qs)
    ensures HasEntry(qs, p)
  {
    var k :| 0 <= k < |ps| && SameEntry(p, ps[k]);
    assert SameEntry(p, qs[k + |qs| - |ps|]);
  }

  // ---------------------------------------------------------------- entries a call has left

  lemma {:induction false} NoneKept(ts: seq<Topic>, us: seq<Topic>)
    ensures forall d | d in TableDeeds(ts, us) :: !d.Kept?
    decreases |us|
  {
    if us != [] {
      if ts == [] {
        NoneKept([], us[1..]);
      } else {
        if |us[0].accepted| > |ts[0].accepted| { OnlyAccepted(ts[0].name, us[0].accepted[|ts[0].accepted|..]); }
        NoneKept(ts[1..], us[1..]);
      }
    }
  }

  lemma {:induction false} OnlyAccepted(name: string, ms: seq<Msg>)
    ensures forall d | d in Messages(name, ms) :: d.Accepted?
  {
    if ms != [] { OnlyAccepted(name, ms[1..]); }
  }

  lemma {:induction false} EntriesOf(ps: seq<Pending>, p: Pending)
    requires Kept(p) in Entries(ps)
    ensures p in ps
  {
    if p != ps[0] {
      assert Kept(p) in Entries(ps[1..]);
      EntriesOf(ps[1..], p);
    }
  }

  lemma KeptIsListed(s: State, s': State, p: Pending)
    requires Kept(p) in Deeds(s, s')
    ensures HasEntry(s'.handler.pending, p)
  {
    var ps, qs := s.handler.pending, s'.handler.pending;
    NoneKept(s.topics, s'.topics);
    EntriesOf(qs[..|qs| - |ps|], p);
    var k :| 0 <= k < |qs| && qs[k] == p;
    assert SameEntry(p, qs[k]);
  }

  lemma {:induction false} KeptIsThere(s: State, run: seq<Action>, c: nat, p: Pending)
    requires Legal(s, run) && Kept(p) in DoneBy(s, run, c)
    ensures HasEntry(Exec(s, run).handler.pending, p)
    decreases |run|
  {
    var s' := Next(s, run[0]);
    if run[0].Run? && run[0].c == c && Kept(p) in Deeds(s, s') {
      KeptIsListed(s, s', p);
      RunExtends(s', run[1..]);
      EntryStays(s'.handler.pending, Exec(s, run).handler.pending, p);
    } else {
      KeptIsThere(s', run[1..], c, p);
    }
  }

  lemma KeptBefore(q: Request, done: seq<Deed>, p: Pending)
    requires Before(q, done) && Kept(p) in done
    ensures KeptFor(p, q)
  {
  }

  lemma KeptOver(code: Code, q: Request, done: seq<Deed>, p: Pending)
    requires Over(code, q, done) && Kept(p) in done
    ensures KeptFor(p, q)
  {
    if code == Okay && q.ReqPublishQos? {
      var front, last := done[..|done| - 1], done[|done| - 1];
      assert done == front + [last];
      assert Kept(p) in front;
      KeptBefore(q, front, p);
    } else if code != Okay {
      KeptBefore(q, done, p);
    }
  }

  /** What a call has kept is kept for that call. */
  lemma KeptForCall(topics: seq<Topic>, pc: Pc, q: Request, done: seq<Deed>, p: Pending)
    requires Stands(topics, pc, q, done) && Kept(p) in done
    ensures KeptFor(p, q)
  {
    match pc {
      case Idle(code) => KeptOver(code, q, done, p);
      case LeaveTopic(_, code) => KeptOver(code, q, done, p);
      case LeaveTopics(_, code) => KeptOver(code, q, done, p);
      case LeaveHandler(code) => KeptOver(code, q, done, p);
      case _ => if Before(q, done) { KeptBefore(q, done, p); }
    }
  }

  // ---------------------------------------------------------------- the retries of a call

  lemma OneOfTicket(ps: seq<Pending>, j: nat, k: nat)
    requires Decreasing(ps) && j < |ps| && k < |ps| && ps[j].ticket == ps[k].ticket
    ensures j == k
  {
  }

  lemma TicketFinds(s: State, p: Pending)
    requires RetryInv(s) && HasEntry(s.handler.pending, p)
    ensures HasTicket(s.handler.pending, p.ticket)
    ensures SameEntry(p, s.handler.pending[PendingIndex(s.handler.pending, p.ticket)])
  {
    var ps := s.handler.pending;
    var k :| 0 <= k < |ps| && SameEntry(p, ps[k]);
    assert ps[k].ticket == p.ticket;
    OneOfTicket(ps, PendingIndex(ps, p.ticket), k);
  }

  /** Firing the timer of an entry offers pubsub_publish what is recorded in it. */
  lemma FireOffers(s: State, p: Pending)
    requires RetryInv(s) && DeliveryInv(s) && HasEntry(s.handler.pending, p)
    requires Enabled(s, Fire(p.ticket)) && !Next(s, Fire(p.ticket)).clients[0].Idle?
    ensures Next(s, Fire(p.ticket)).clients[0] ==
            WaitTopics(Publish(Job(p.topic, p.bytes, p.priority, ViaTimer(p.ticket))))
  {
    TicketFinds(s, p);
    var e := s.handler.pending[PendingIndex(s.handler.pending, p.ticket)];
    assert e in s.handler.pending && PendingOk(s.mem, e);
  }

  lemma TruncateKeeps(name: string)
    ensures Truncate(name) == name <==> |name| < 64
    ensures |name| >= 64 ==> Truncate(name) == name[..63]
  {
  }

  lemma InvariantsInRuns(s: State, run: seq<Action>)
    requires RetryInv(s) && DeliveryInv(s) && Legal(s, run)
    ensures RetryInv(Exec(s, run)) && DeliveryInv(Exec(s, run))
  {
    RetryInRuns(s, run);
    DeliveryInRuns(s, run);
  }

  lemma BootInvariants(clients: nat, retries: nat, run: seq<Action>)
    requires Legal(Boot(clients, retries), run)
    ensures RetryInv(Exec(Boot(clients, retries), run)) && DeliveryInv(Exec(Boot(clients, retries), run))
  {
    BootDelivers(clients, retries);
    InvariantsInRuns(Boot(clients, retries), run);
  }

  lemma BeginKeepsInvariants(s: State, c: nat, q: Request)
    requires RetryInv(s) && DeliveryInv(s) && Enabled(s, Begin(c, q))
    ensures RetryInv(Next(s, Begin(c, q))) && DeliveryInv(Next(s, Begin(c, q)))
  {
    StepKeepsRetry(s, Begin(c, q));
    StepKeepsDelivery(s, Begin(c, q));
  }

  lemma RetriesFrom(s: State, c: nat, q: Request, more: seq<Action>, p: Pending, later: seq<Action>)
    requires RetryInv(s) && DeliveryInv(s) && Legal(s, more) && Kept(p) in DoneBy(s, more, c)
    requires c < |Exec(s, more).clients|
    requires Stands(Exec(s, more).topics, Exec(s, more).clients[c], q, DoneBy(s, more, c))
    requires Legal(Exec(s, more), later)
    requires var t := Exec(Exec(s, more), later);
      Enabled(t, Fire(p.ticket)) && !Next(t, Fire(p.ticket)).clients[0].Idle?
    ensures KeptFor(p, q)
    ensures Next(Exec(Exec(s, more), later), Fire(p.ticket)).clients[0] ==
            WaitTopics(Publish(Job(p.topic, p.bytes, p.priority, ViaTimer(p.ticket))))
  {
    var s' := Exec(s, more);
    InvariantsInRuns(s, more);
    InvariantsInRuns(s', later);
    KeptForCall(s'.topics, s'.clients[c], q, DoneBy(s, more, c), p);
    KeptIsThere(s, more, c, p);
    RunExtends(s', later);
    EntryStays(s'.handler.pending, Exec(s', later).handler.pending, p);
    FireOffers(Exec(s', later), p);
  }

  /** Every retry of a QoS message, however much later, is made with the bytes and the priority of the call that
      left it, and under the topic name of that call if and only if the name fits its field. */
  lemma RetriesAreTheCallers(clients: nat, retries: nat, run: seq<Action>, c: nat, q: Request, more: seq<Action>,
                             p: Pending, later: seq<Action>)
    requires Legal(Boot(clients, retries), run) && Enabled(Exec(Boot(clients, retries), run), Begin(c, q))
    requires q.ReqPublishQos?
    requires Legal(Next(Exec(Boot(clients, retries), run), Begin(c, q)), more) && NoBegin(more, c)
    requires Kept(p) in DoneBy(Next(Exec(Boot(clients, retries), run), Begin(c, q)), more, c)
    requires Legal(Exec(Next(Exec(Boot(clients, retries), run), Begin(c, q)), more), later)
    requires var s := Exec(Exec(Next(Exec(Boot(clients, retries), run), Begin(c, q)), more), later);
      Enabled(s, Fire(p.ticket)) && !Next(s, Fire(p.ticket)).clients[0].Idle?
    ensures var s := Exec(Exec(Next(Exec(Boot(clients, retries), run), Begin(c, q)), more), later);
      var job := Job(Truncate(q.name), q.data, q.priority, ViaTimer(p.ticket));
      && Next(s, Fire(p.ticket)).clients[0] == WaitTopics(Publish(job))
      && (job.topic == q.name <==> |q.name| < 64)
      && (|q.name| >= 64 ==> job.topic == q.name[..63])
  {
    var s := Exec(Boot(clients, retries), run);
    BootInvariants(clients, retries, run);
    BeginKeepsInvariants(s, c, q);
    CallFromBegin(clients, retries, run, c, q, more);
    RetriesFrom(Next(s, Begin(c, q)), c, q, more, p, later);
    TruncateKeeps(q.name);
  }

  // ---------------------------------------------------------------- how often a timer publishes

  /** A firing of this entry's timer that goes on to pubsub_publish. */
  predicate Publishes(s: State, a: Action, ticket: nat)
    requires Enabled(s, a)
  {
    a == Fire(ticket) && Next(s, a).clients[0].WaitTopics?
  }

  /** How many actions of a run are such firings. */
  function Firings(s: State, run: seq<Action>, ticket: nat): nat
    requires Legal(s, run)
    decreases |run|
  {
    if run == [] then 0
    else (if Publishes(s, run[0], ticket) then 1 else 0) + Firings(Next(s, run[0]), run[1..], ticket)
  }

  /** The attempts counted on an entry after its first. */
  function Tries(h: Handler, ticket: nat): int {
    if HasTicket(h.pending, ticket) then h.pending[PendingIndex(h.pending, ticket)].attempts - 1 else 0
  }

  lemma TriesOf(h: Handler, k: nat)
    requires Decreasing(h.pending) && k < |h.pending|
    ensures Tries(h, h.pending[k].ticket) == h.pending[k].attempts - 1
  {
    assert HasTicket(h.pending, h.pending[k].ticket);
    OneOfTicket(h.pending, PendingIndex(h.pending, h.pending[k].ticket), k);
  }

  /** Entries whose attempts have not changed, behind new ones not tried again yet. */
  ghost predicate SameAttempts(ps: seq<Pending>, qs: seq<Pending>) {
    && |qs| >= |ps|
    && (forall k | 0 <= k < |ps| ::
          qs[k + |qs| - |ps|].ticket == ps[k].ticket && qs[k + |qs| - |ps|].attempts == ps[k].attempts)
    && (forall k | 0 <= k < |qs| - |ps| :: qs[k].attempts == 1)
  }

  lemma OldTicket(ps: seq<Pending>, qs: seq<Pending>, j: nat)
    requires SameAttempts(ps, qs) && |qs| - |ps| <= j < |qs|
    ensures HasTicket(ps, qs[j].ticket)
  {
    assert ps[j - (|qs| - |ps|)].ticket == qs[j].ticket;
  }

  lemma SameTries(h: Handler, h': Handler, ticket: nat)
    requires Decreasing(h.pending) && Decreasing(h'.pending) && SameAttempts(h.pending, h'.pending)
    ensures Tries(h', ticket) == Tries(h, ticket)
  {
    var ps, qs := h.pending, h'.pending;
    if HasTicket(ps, ticket) {
      var k := PendingIndex(ps, ticket);
      TriesOf(h', k + |qs| - |ps|);
    } else if HasTicket(qs, ticket) {
      var j := PendingIndex(qs, ticket);
      if j >= |qs| - |ps| { OldTicket(ps, qs, j); }
    }
  }

  lemma PushSameAttempts(ps: seq<Pending>, p: Pending)
    requires p.attempts == 1
    ensures SameAttempts(ps, [p] + ps)
  {
  }

  lemma KeepSameAttempts(ps: seq<Pending>)
    ensures SameAttempts(ps, ps)
  {
  }

  lemma StartSameAttempts(s: State, c: nat, job: Job, id: nat, ticket: nat, node: Ptr, block: Ptr, granted: bool)
    requires c < |s.clients|
    ensures SameAttempts(s.handler.pending, StartRetrying(s, c, job, id, ticket, node, block, granted).handler.pending)
  {
    var qs := StartRetrying(s, c, job, id, ticket, node, block, granted).handler.pending;
    if granted { PushSameAttempts(s.handler.pending, qs[0]); } else { KeepSameAttempts(qs); }
  }

  lemma CountSameAttempts(h: Handler, ticket: nat)
    ensures SameAttempts(h.pending, CountRetry(h, ticket).pending)
  {
  }

  lemma StepSameAttempts(s: State, a: Action)
    requires Enabled(s, a) && !a.Fire?
    ensures SameAttempts(s.handler.pending, Next(s, a).handler.pending)
  {
    if a.Run? {
      var pc := s.clients[a.c];
      if pc.MakeTimer? { StartSameAttempts(s, a.c, pc.job, pc.id, pc.ticket, pc.node, pc.block, a.env.granted); }
      else if pc.Retried? { CountSameAttempts(s.handler, pc.ticket); }
      else { SamePending(s, a.c, a.env); }
    } else if a.RunTask? {
      TaskFrame(s, a.t);
    }
  }

  /** Firing counts one attempt on its own entry if it publishes, and changes no other entry. */
  lemma FireTries(s: State, fired: nat, ticket: nat)
    requires RetryInv(s) && Enabled(s, Fire(fired)) && RetryInv(Next(s, Fire(fired)))
    ensures Tries(Next(s, Fire(fired)).handler, ticket) ==
            Tries(s.handler, ticket) + (if Publishes(s, Fire(fired), ticket) then 1 else 0)
  {
    var h, h' := s.handler, Next(s, Fire(fired)).handler;
    var k := PendingIndex(h.pending, fired);
    if h.pending[k].retryCount < h.pending[k].maxRetries {
      assert h'.pending[k].ticket == fired && h'.pending[k].attempts == h.pending[k].attempts + 1;
      if ticket == fired {
        TriesOf(h, k);
        TriesOf(h', k);
      } else {
        OtherTries(h, h', k, ticket);
      }
    }
  }

  lemma TicketKept(ps: seq<Pending>, qs: seq<Pending>, ticket: nat)
    requires |ps| == |qs| && forall j | 0 <= j < |ps| :: qs[j].ticket == ps[j].ticket
    requires HasTicket(ps, ticket)
    ensures HasTicket(qs, ticket)
  {
    var j :| 0 <= j < |ps| && ps[j].ticket == ticket;
    assert qs[j].ticket == ticket;
  }

  lemma OtherTries(h: Handler, h': Handler, k: nat, ticket: nat)
    requires Decreasing(h.pending) && Decreasing(h'.pending)
    requires k < |h.pending| == |h'.pending| && h.pending[k].ticket != ticket
    requires h'.pending == h.pending[k := h'.pending[k]] && h'.pending[k].ticket == h.pending[k].ticket
    ensures Tries(h', ticket) == Tries(h, ticket)
  {
    if HasTicket(h.pending, ticket) {
      TicketKept(h.pending, h'.pending, ticket);
      TriesOf(h', PendingIndex(h.pending, ticket));
    } else if HasTicket(h'.pending, ticket) {
      TicketKept(h'.pending, h.pending, ticket);
    }
  }

  lemma StepTries(s: State, a: Action, ticket: nat)
    requires RetryInv(s) && LockInv(s) && Enabled(s, a)
    ensures Tries(Next(s, a).handler, ticket) ==
            Tries(s.handler, ticket) + (if Publishes(s, a, ticket) then 1 else 0)
  {
    StepKeepsRetry(s, a);
    if a.Fire? {
      FireTries(s, a.ticket, ticket);
    } else {
      StepSameAttempts(s, a);
      SameTries(s.handler, Next(s, a).handler, ticket);
    }
  }

  lemma {:induction false} TriesAreFirings(s: State, run: seq<Action>, ticket: nat)
    requires RetryInv(s) && LockInv(s) && Legal(s, run)
    ensures Tries(Exec(s, run).handler, ticket) == Tries(s.handler, ticket) + Firings(s, run, ticket)
    decreases |run|
  {
    if run != [] {
      StepTries(s, run[0], ticket);
      StepKeepsRetry(s, run[0]);
      StepKeepsLocks(s, run[0]);
      TriesAreFirings(Next(s, run[0]), run[1..], ticket);
    }
  }

  lemma TriesBounded(s: State, ticket: nat)
    requires RetryInv(s)
    ensures Tries(s.handler, ticket) <= s.handler.retries
  {
    if HasTicket(s.handler.pending, ticket) {
      var k := PendingIndex(s.handler.pending, ticket);
      assert EntryOk(s.handler.pending[k], s.handler, InFlight(s, ticket));
    }
  }

  /** In every run the timer of one message calls pubsub_publish at most retry_count times, however often it fires. */
  lemma FiringsAreBounded(clients: nat, retries: nat, run: seq<Action>, ticket: nat)
    requires Legal(Boot(clients, retries), run)
    ensures Firings(Boot(clients, retries), run, ticket) <= retries
  {
    BootLocks(clients, retries);
    RetryInRuns(Boot(clients, retries), run);
    TriesAreFirings(Boot(clients, retries), run, ticket);
    TriesBounded(Exec(Boot(clients, retries), run), ticket);
  }

  lemma TriesLeft(s: State, ticket: nat)
    requires RetryInv(s) && Enabled(s, Fire(ticket))
    ensures Publishes(s, Fire(ticket), ticket) <==> Tries(s.handler, ticket) < s.handler.retries
  {
    var k := PendingIndex(s.handler.pending, ticket);
    assert EntryOk(s.handler.pending[k], s.handler, InFlight(s, ticket));
  }

  /** In every run: a firing goes on to pubsub_publish if and only if fewer than retry_count firings of that timer have
      done so before. */
  lemma FiringPublishesIff(clients: nat, retries: nat, run: seq<Action>, ticket: nat)
    requires Legal(Boot(clients, retries), run) && Enabled(Exec(Boot(clients, retries), run), Fire(ticket))
    ensures Publishes(Exec(Boot(clients, retries), run), Fire(ticket), ticket) <==>
            Firings(Boot(clients, retries), run, ticket) < retries
  {
    BootLocks(clients, retries);
    RetryInRuns(Boot(clients, retries), run);
    TriesAreFirings(Boot(clients, retries), run, ticket);
    TriesLeft(Exec(Boot(clients, retries), run), ticket);
  }
}
