/**
 * AbstractCiStateProvider: the Jenkins state both planners send. It
 * offers the ready nodes (the agents first, in Jenkins' order, then the
 * master itself) and the whole queue, and it compares and hashes by that
 * content, which is what DroolsPlanner's dispatcher uses to notice change.
 */
module CiStateProvider {
  import opened Base
  import opened Host

  /** Jenkins itself (an AbstractCIBase): its identity, the master node it is, its agents and its queue. */
  datatype CiBase = CiBase(ref: nat, master: Node, agents: seq<Node>, queue: seq<Item>)

  /** A provider object: its own identity and the base it wraps. */
  datatype Provider = Provider(ref: nat, base: CiBase)

  /** The constructor refuses a null base. */
  function Create(ref: nat, base: Option<CiBase>): (r: Result<Provider>)
    ensures base.None? <==> r == Throw(IllegalArgument("Base is null"))
    ensures base.Some? ==> r == Ok(Provider(ref, base.value))
  {
    match base
    case None => Throw(IllegalArgument("Base is null"))
    case Some(b) => Ok(Provider(ref, b))
  }

  /** `nodeReady`: the node has a computer, online and accepting tasks. */
  predicate NodeReady(n: Node) {
    n.computer.Some? && !n.computer.value.offline && n.computer.value.acceptingTasks
  }

  /** `getNodes`: the ready agents in order, then the master when it is ready. */
  function GetNodes(p: Provider): (r: seq<Node>)
    ensures forall n :: n in r <==> (n in p.base.agents || n == p.base.master) && NodeReady(n)
    ensures |r| > 0 && r[|r| - 1] == p.base.master <== NodeReady(p.base.master)
    ensures |r| <= |p.base.agents| + 1
  {
    Filter(p.base.agents, NodeReady) + (if NodeReady(p.base.master) then [p.base.master] else [])
  }

  /** Ready agents keep their relative order: the agents' part of the list is exactly the ready ones, in order. */
  lemma AgentsInOrder(p: Provider, more: seq<Node>)
    ensures GetNodes(p.(base := p.base.(agents := p.base.agents + more)))
      == Filter(p.base.agents, NodeReady) + Filter(more, NodeReady) + (if NodeReady(p.base.master) then [p.base.master] else [])
  {
    FilterAppend(p.base.agents, more, NodeReady);
  }

  /** `getQueue`: every queued item, as Jenkins lists them. */
  function GetQueue(p: Provider): (r: seq<Item>)
    ensures r == p.base.queue
  {
    p.base.queue
  }

  /** What the serializers read from this provider. */
  function SnapshotOf(p: Provider): (s: Snapshot)
    ensures s.queue == Some(p.base.queue)
    ensures forall n :: n in s.nodes ==> NodeReady(n)
  {
    Snapshot(GetNodes(p), Some(GetQueue(p)))
  }

  // ---------------------------------------------------------------------
  // equals / hashCode

  /** The argument of `equals`: null, an object of another class, or another provider. */
  datatype Rhs = Null | Foreign | Other(q: Provider)

  /**
   * `equals`: false for null and for other classes; true for the same
   * object or the same base; otherwise equal node lists and equal queues.
   */
  predicate Equals(p: Provider, rhs: Rhs) {
    match rhs
    case Null => false
    case Foreign => false
    case Other(q) =>
      p.ref == q.ref || p.base.ref == q.base.ref || (GetNodes(p) == GetNodes(q) && GetQueue(p) == GetQueue(q))
  }

  /** Identities are faithful: one object, one content. */
  predicate Coherent(p: Provider, q: Provider) {
    && (p.ref == q.ref ==> p == q)
    && (p.base.ref == q.base.ref ==> p.base == q.base)
  }

  /** `List.hashCode`: start at 1, and fold `31 * h + e` in Java `int` arithmetic. */
  function ListHash(hs: seq<Int32>): Int32
    decreases |hs|
  {
    if |hs| == 0 then 1 else Wrap32(31 * ListHash(hs[..|hs| - 1]) + hs[|hs| - 1])
  }

  /** The same fold over unbounded integers. */
  function PolyHash(hs: seq<Int32>): int
    decreases |hs|
  {
    if |hs| == 0 then 1 else 31 * PolyHash(hs[..|hs| - 1]) + hs[|hs| - 1]
  }

  /** Two integers that differ by a multiple of 2^32 wrap to the same Java `int`. */
  lemma WrapCongruent(x: int, y: int, k: int)
    requires x == y + k * TwoTo32
    ensures Wrap32(x) == Wrap32(y)
  {
    var r := (y + TwoTo31) % TwoTo32;
    var q := (y + TwoTo31) / TwoTo32;
    assert y + TwoTo31 == q * TwoTo32 + r;
    assert x + TwoTo31 == (q + k) * TwoTo32 + r;
  }

  /** Wrapping at every step of the fold equals wrapping once at the end. */
  lemma {:induction false} ListHashWrapsPolyHash(hs: seq<Int32>)
    ensures ListHash(hs) == Wrap32(PolyHash(hs))
    decreases |hs|
  {
    if |hs| > 0 {
      var init := hs[..|hs| - 1];
      var last := hs[|hs| - 1];
      ListHashWrapsPolyHash(init);
      var k := (ListHash(init) - PolyHash(init)) / TwoTo32;
      assert ListHash(init) == PolyHash(init) + k * TwoTo32;
      WrapCongruent(31 * ListHash(init) + last, 31 * PolyHash(init) + last, 31 * k);
    }
  }

  function NodeHashes(nodes: seq<Node>): (hs: seq<Int32>)
    ensures |hs| == |nodes| && forall i :: 0 <= i < |nodes| ==> hs[i] == nodes[i].hash
  {
    seq(|nodes|, i requires 0 <= i < |nodes| => nodes[i].hash)
  }

  function ItemHashes(items: seq<Item>): (hs: seq<Int32>)
    ensures |hs| == |items| && forall i :: 0 <= i < |items| ==> hs[i] == items[i].hash
  {
    seq(|items|, i requires 0 <= i < |items| => items[i].hash)
  }

  /** `hashCode`: `31 * nodes.hashCode() + queue.hashCode() + 7`, in Java `int` arithmetic. */
  function HashCode(p: Provider): (h: Int32)
    ensures h == Wrap32(31 * PolyHash(NodeHashes(GetNodes(p))) + PolyHash(ItemHashes(GetQueue(p))) + 7)
  {
    var nodes := ListHash(NodeHashes(GetNodes(p)));
    var queue := ListHash(ItemHashes(GetQueue(p)));
    ListHashWrapsPolyHash(NodeHashes(GetNodes(p)));
    ListHashWrapsPolyHash(ItemHashes(GetQueue(p)));
    var k1 := (nodes - PolyHash(NodeHashes(GetNodes(p)))) / TwoTo32;
    var k2 := (queue - PolyHash(ItemHashes(GetQueue(p)))) / TwoTo32;
    assert nodes == PolyHash(NodeHashes(GetNodes(p))) + k1 * TwoTo32;
    assert queue == PolyHash(ItemHashes(GetQueue(p))) + k2 * TwoTo32;
    WrapCongruent(31 * nodes + queue + 7, 31 * PolyHash(NodeHashes(GetNodes(p))) + PolyHash(ItemHashes(GetQueue(p))) + 7, 31 * k1 + k2);
    Wrap32(31 * nodes + queue + 7)
  }

  /** `equals` is an equivalence on coherent providers: reflexive and symmetric, and null is never equal. */
  lemma EqualsEquivalence(p: Provider, q: Provider)
    ensures Equals(p, Other(p))
    ensures Equals(p, Other(q)) <==> Equals(q, Other(p))
    ensures !Equals(p, Null) && !Equals(p, Foreign)
  {
  }

  /** Equal coherent providers hash alike, as `hashCode` must. */
  lemma EqualsAgreesWithHash(p: Provider, q: Provider)
    requires Coherent(p, q)
    requires Equals(p, Other(q))
    ensures HashCode(p) == HashCode(q)
  {
  }

  /** A Jenkins with no ready node and an empty queue hashes to 31 * 1 + 1 + 7. */
  lemma EmptyStateHash(ref: nat, base: CiBase)
    requires !NodeReady(base.master) && base.queue == []
    requires forall n :: n in base.agents ==> !NodeReady(n)
    ensures HashCode(Provider(ref, base)) == 39
  {
    FilterKeepsNone(base.agents, NodeReady);
  }

  /**
   * The hash is not injective: a queue holding one item whose own hash is
   * -30 hashes like the empty queue, since 31 * 1 + (-30) == 1. States the
   * hash cannot tell apart are not told apart by DroolsPlanner's dispatcher.
   */
  lemma HashCollides(ref: nat, base: CiBase, item: Item)
    requires base.queue == [] && item.hash == -30
    ensures var p := Provider(ref, base);
      var q := Provider(ref + 1, base.(ref := base.ref + 1, queue := [item]));
      !Equals(p, Other(q)) && HashCode(p) == HashCode(q)
  {
    var q := Provider(ref + 1, base.(ref := base.ref + 1, queue := [item]));
    assert ItemHashes(GetQueue(q)) == [-30];
    assert PolyHash([-30]) == 1;
  }
}
