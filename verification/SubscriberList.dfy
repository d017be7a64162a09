// The linked list of subscribers in place: the loops of subscriber_manager.c and topic_task.
module SubscriberList {
  import opened Octets
  import opened Wrappers
  import opened PubSub
  import opened PubSubDelivery

  /** subscriber_t; block is the pool block the node lives in. */
  class Node {
    const block: Ptr
    const callback: Callback
    const userData: nat
    var next: Node?

    constructor (block: Ptr, callback: Callback, userData: nat, next: Node?)
      ensures this.block == block && this.callback == callback && this.userData == userData && this.next == next
    {
      this.block, this.callback, this.userData, this.next := block, callback, userData, next;
    }

    function Value(): Subscriber { Subscriber(callback, userData, block) }
  }

  /** The subscribers and subscriber_count fields of a topic. */
  class List {
    var subscribers: Node?
    var count: nat
    ghost var nodes: seq<Node>

    ghost predicate Valid()
      reads this, nodes
    {
      && Chain(subscribers, nodes)
      && forall i, j | 0 <= i < j < |nodes| :: nodes[i] != nodes[j]
    }

    /** From head the next fields lead through these nodes, to NULL. */
    static ghost predicate Chain(head: Node?, nodes: seq<Node>)
      reads nodes
    {
      && head == (if nodes == [] then null else nodes[0])
      && (nodes != [] ==> nodes[|nodes| - 1].next == null)
      && forall i {:trigger nodes[i].next} | 0 <= i < |nodes| - 1 :: nodes[i].next == nodes[i + 1]
    }

    static ghost function Values(ns: seq<Node>): (r: seq<Subscriber>)
      ensures |r| == |ns| && forall i | 0 <= i < |ns| :: r[i] == ns[i].Value()
    {
      seq(|ns|, i requires 0 <= i < |ns| => ns[i].Value())
    }

    ghost function View(): (r: seq<Subscriber>)
      reads this
    {
      Values(nodes)
    }

    constructor ()
      ensures Valid() && View() == [] && count == 0
    {
      subscribers, count, nodes := null, 0, [];
    }

    /** The duplicate check of pubsub_subscribe. */
    method Contains(callback: Callback) returns (found: bool)
      requires Valid()
      ensures found <==> Position(View(), callback).Some?
    {
      var current := subscribers;
      ghost var i := 0;
      while current != null
        invariant 0 <= i <= |nodes|
        invariant current == if i < |nodes| then nodes[i] else null
        invariant forall j | 0 <= j < i :: nodes[j].callback != callback
        decreases |nodes| - i
      {
        if current.callback == callback {
          assert View()[i].callback == callback;
          return true;
        }
        current := current.next;
        i := i + 1;
      }
      assert forall j | 0 <= j < |nodes| :: View()[j].callback != callback;
      return false;
    }

    /** Linking a new node at the head. */
    method Link(block: Ptr, callback: Callback, userData: nat)
      requires Valid()
      modifies this
      ensures Valid()
      ensures View() == [Subscriber(callback, userData, block)] + old(View())
      ensures count == old(count) + 1
    {
      var node := new Node(block, callback, userData, subscribers);
      ghost var was := nodes;
      nodes := [node] + was;
      assert forall j | 0 < j < |nodes| :: nodes[j] == was[j - 1];
      subscribers := node;
      count := count + 1;
    }

    /** The search of pubsub_unsubscribe: the first node with this callback and the node before it. */
    method Locate(callback: Callback) returns (current: Node?, prev: Node?, ghost i: nat)
      requires Valid()
      ensures current == match Position(View(), callback)
                         case Some(k) => nodes[k]
                         case None => null
      ensures prev == match Position(View(), callback)
                      case Some(k) => if k > 0 then nodes[k - 1] else null
                      case None => if |nodes| > 0 then nodes[|nodes| - 1] else null
      ensures i == if current != null then Position(View(), callback).value else |nodes|
    {
      current, prev, i := subscribers, null, 0;
      while current != null && current.callback != callback
        invariant i <= |nodes|
        invariant current == if i < |nodes| then nodes[i] else null
        invariant prev == if i > 0 then nodes[i - 1] else null
        invariant forall j | 0 <= j < i :: nodes[j].callback != callback
        decreases |nodes| - i
      {
        prev := current;
        current := current.next;
        i := i + 1;
      }
      if current != null {
        FirstAt(callback, i);
      } else {
        assert forall j | 0 <= j < |nodes| :: View()[j].callback != callback;
      }
    }

    static function Without(subs: seq<Subscriber>, at: Option<nat>): seq<Subscriber>
      requires at.Some? ==> at.value < |subs|
    {
      if at.None? then subs else subs[..at.value] + subs[at.value + 1..]
    }

    static function NodeAt(subs: seq<Subscriber>, at: Option<nat>): Option<Ptr>
      requires at.Some? ==> at.value < |subs|
    {
      if at.None? then None else Some(subs[at.value].node)
    }

    /** The branch taken for the node found. */
    method Remove(prev: Node?, current: Node, ghost i: nat) returns (block: Ptr)
      requires Valid() && i < |nodes| && current == nodes[i]
      requires prev == if i > 0 then nodes[i - 1] else null
      modifies this, nodes
      ensures Valid() && View() == Without(old(View()), Some(i))
      ensures Some(block) == NodeAt(old(View()), Some(i)) && count == (old(count) - 1) % UINT32_MOD
    {
      ghost var was := nodes;
      ValuesWithout(was, i);
      Bypass(prev, current, i);
      block := current.block;
      count := (count - 1) % UINT32_MOD;
    }

    /** pubsub_unsubscribe on the list: unlinks the node found and hands back its block. */
    method Unlink(callback: Callback) returns (freed: Option<Ptr>)
      requires Valid()
      modifies this, nodes
      ensures Valid()
      ensures View() == Without(old(View()), Position(old(View()), callback))
      ensures freed == NodeAt(old(View()), Position(old(View()), callback))
      ensures count == if freed.Some? then (old(count) - 1) % UINT32_MOD else old(count)
    {
      var current, prev;
      ghost var i;
      current, prev, i := Locate(callback);
      if current == null { return None; }
      var block := Remove(prev, current, i);
      freed := Some(block);
    }

    lemma FirstAt(callback: Callback, i: nat)
      requires i < |nodes| && nodes[i].callback == callback
      requires forall j | 0 <= j < i :: nodes[j].callback != callback
      ensures Position(View(), callback) == Some(i)
    {
      assert View()[i].callback == callback;
      assert forall j | 0 <= j < i :: View()[j].callback != callback;
    }

    static lemma ValuesWithout(ns: seq<Node>, i: nat)
      requires i < |ns|
      ensures Values(ns[..i] + ns[i + 1..]) == Without(Values(ns), Some(i))
    {
    }

    /** topic->subscribers or prev->next is led past current. */
    method Bypass(prev: Node?, current: Node, ghost i: nat)
      requires Valid() && i < |nodes| && current == nodes[i]
      requires prev == if i > 0 then nodes[i - 1] else null
      modifies this`subscribers, this`nodes, nodes
      ensures Valid() && nodes == old(nodes[..i] + nodes[i + 1..])
    {
      if prev == null {
        subscribers := current.next;
      } else {
        prev.next := current.next;
      }
      ghost var was := nodes;
      nodes := was[..i] + was[i + 1..];
      assert forall j | 0 <= j < i :: nodes[j] == was[j];
      assert forall j | i <= j < |nodes| :: nodes[j] == was[j + 1];
    }

    /** The delivery loop of topic_task: the calls it makes, in order. */
    method Deliver(payload: Bytes) returns (calls: seq<Invocation>)
      requires Valid()
      ensures calls == CallsFor(View(), payload)
    {
      calls := [];
      var current := subscribers;
      ghost var i := 0;
      while current != null
        invariant 0 <= i <= |nodes|
        invariant current == if i < |nodes| then nodes[i] else null
        invariant calls == CallsFor(View()[..i], payload)
        decreases |nodes| - i
      {
        calls := calls + [Invocation(current.callback, current.userData, payload)];
        current := current.next;
        i := i + 1;
        assert View()[..i] == View()[..i - 1] + [View()[i - 1]];
      }
      assert View()[..i] == View();
    }
  }

  /** The lookup loop shared by publish, subscribe, unsubscribe and create. */
  method FindTopic(topics: seq<Topic>, name: string) returns (found: Option<nat>)
    ensures found == Find(topics, name)
  {
    var i := 0;
    while i < |topics|
      invariant 0 <= i <= |topics|
      invariant forall j | 0 <= j < i :: topics[j].name != name
    {
      if topics[i].name == name { return Some(i); }
      i := i + 1;
    }
    return None;
  }
}
