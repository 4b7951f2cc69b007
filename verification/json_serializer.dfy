/**
 * JsonSerializer: the droolsplanner package's JSON codec, which only its
 * tests call (the planner client encodes through a Translator). It decodes
 * `{"score":n}` and `{"solution":[...]}` (mapping the `"not-assigned"`
 * sentinel to no node) and encodes the cluster snapshot plus the current
 * assignments as `{"queue":[...]}`, listing for each item only the nodes
 * that could take it right now.
 */
module JsonSerializer {
  import opened Base
  import opened Host
  import opened Json
  import opened Assignments
  import opened WireFormat

  /** The node name the planner sends for an item it left unassigned. */
  const NotAssigned: string := "not-assigned"

  /** The priority every item is sent with. */
  const FixedPriority: int := 50

  // ---------------------------------------------------------------------
  // Decoding

  /** `extractScore`: the integer under `"score"`. */
  function ExtractScore(msg: Json): (r: Result<Int32>)
    ensures r.Ok? <==> Get(msg, "score").Some? && Get(msg, "score").value.JNumber?
    ensures r.Throw? ==> r.exc == JsonFormat
  {
    GetInt(msg, "score")
  }

  /** A score message carrying any Java `int` (negative and zero included) decodes to it. */
  lemma ExtractScoreRoundTrip(score: Int32)
    ensures ExtractScore(ScoreMessage(score)) == Ok(score)
  {
    LookupFirst(ScoreMessage(score).members, 0, "score");
  }

  /** `deserilizeNodeName`: the sentinel means no node. */
  function DeserializeNodeName(jsonNodeName: string): (r: Option<string>)
    ensures r == None <==> jsonNodeName == NotAssigned
    ensures r.Some? ==> r.value == jsonNodeName
  {
    if jsonNodeName == NotAssigned then None else Some(jsonNodeName)
  }

  /** The loop of `extractAssignments`: assign every entry, in order, on `b`. */
  function DecodeEntries(b: Builder, items: seq<Json>): (r: Result<Builder>)
    ensures r.Throw? ==> r.exc in {ClassCast, JsonFormat}
    decreases |items|
  {
    if |items| == 0 then Ok(b)
    else if !items[0].JObject? then Throw(ClassCast)
    else
      match (GetInt(items[0], "id"), GetString(items[0], "node"))
      case (Ok(id), Ok(node)) => DecodeEntries(Assign(b, id, DeserializeNodeName(node)), items[1..])
      case (Throw(e), _) => Throw(e)
      case (_, Throw(e)) => Throw(e)
  }

  /** `extractAssignments`: the `"solution"` array as assignments. */
  function ExtractAssignments(msg: Json): (r: Result<NodeAssignments>)
    ensures r.Ok? ==> GetArray(msg, "solution").Ok?
    ensures r.Throw? ==> r.exc in {ClassCast, JsonFormat}
  {
    match GetArray(msg, "solution")
    case Throw(e) => Throw(e)
    case Ok(items) =>
      match DecodeEntries(NewBuilder(), items)
      case Ok(b) => Ok(Build(b))
      case Throw(e) => Throw(e)
  }

  /** The `assign` calls a solution message stands for, sentinel mapped. */
  function DecodedCalls(entries: seq<SolutionEntry>): (calls: seq<Assignment>)
    ensures |calls| == |entries|
  {
    seq(|entries|, k requires 0 <= k < |entries| =>
      Assignment(entries[k].id, DeserializeNodeName(entries[k].node)))
  }

  lemma EntryFields(e: SolutionEntry)
    ensures EntryJson(e).JObject?
    ensures GetInt(EntryJson(e), "id") == Ok(e.id)
    ensures GetString(EntryJson(e), "node") == Ok(e.node)
  {
    LookupFirst(EntryJson(e).members, 0, "id");
    LookupFirst(EntryJson(e).members, 1, "node");
  }

  lemma {:induction false} DecodeEntriesRoundTrip(b: Builder, entries: seq<SolutionEntry>)
    ensures DecodeEntries(b, seq(|entries|, k requires 0 <= k < |entries| => EntryJson(entries[k])))
      == Ok(AssignAll(b, DecodedCalls(entries)))
    decreases |entries|
  {
    var items := seq(|entries|, k requires 0 <= k < |entries| => EntryJson(entries[k]));
    if |entries| > 0 {
      var e := entries[0];
      EntryFields(e);
      assert items[0] == EntryJson(e);
      var rest := entries[1..];
      assert items[1..] == seq(|rest|, k requires 0 <= k < |rest| => EntryJson(rest[k]));
      assert DecodedCalls(entries)[1..] == DecodedCalls(rest);
      DecodeEntriesRoundTrip(Assign(b, e.id, DeserializeNodeName(e.node)), rest);
    }
  }

  /**
   * Decoding a solution message yields exactly the assignments built by
   * one `assign` per entry, in order, with the sentinel mapped to null.
   */
  lemma ExtractAssignmentsRoundTrip(entries: seq<SolutionEntry>)
    ensures ExtractAssignments(SolutionMessage(entries)) == Ok(FromCalls(DecodedCalls(entries)))
  {
    var items := seq(|entries|, k requires 0 <= k < |entries| => EntryJson(entries[k]));
    LookupFirst(SolutionMessage(entries).members, 0, "solution");
    DecodeEntriesRoundTrip(NewBuilder(), entries);
  }

  /**
   * Hence the lookup after decoding: an id answers the node of its last
   * entry, null when that node is the sentinel, null when it has no entry;
   * and `size` counts the distinct ids, sentinel entries included.
   */
  lemma DecodedLookup(entries: seq<SolutionEntry>, id: int)
    ensures ExtractAssignments(SolutionMessage(entries)).Ok?
    ensures var a := ExtractAssignments(SolutionMessage(entries)).value;
      && NodeName(a, id) == (match LastAssigned(DecodedCalls(entries), id) case None => None case Some(n) => n)
      && Size(a) == |Ids(DecodedCalls(entries))|
  {
    ExtractAssignmentsRoundTrip(entries);
    LastAssignWins(DecodedCalls(entries), id);
    SizeCountsDistinctIds(DecodedCalls(entries));
  }

  // ---------------------------------------------------------------------
  // Encoding

  /** `isOnline`: a computer exists, is not offline and accepts tasks. */
  predicate Online(node: Node) {
    node.computer.Some? && !node.computer.value.offline && node.computer.value.acceptingTasks
  }

  /** `nodeApplicable`: online and the node's own `canTake` does not object. */
  predicate Applicable(item: Item, node: Node) {
    Online(node) && item.id !in node.refuses
  }

  /** The label's nodes when the label and its node set exist, all nodes otherwise. */
  function Candidates(item: Item, sp: Snapshot): (r: seq<Node>)
    ensures item.assignedLabel.Some? && item.assignedLabel.value.nodes.Some? ==> r == item.assignedLabel.value.nodes.value
    ensures !(item.assignedLabel.Some? && item.assignedLabel.value.nodes.Some?) ==> r == sp.nodes
  {
    match item.assignedLabel
    case Some(Label(Some(nodes))) => nodes
    case _ => sp.nodes
  }

  /** `assignableNodes`: the applicable candidates, in candidate order. */
  function AssignableNodes(item: Item, sp: Snapshot): (r: seq<Node>)
    ensures forall n :: n in r <==> n in Candidates(item, sp) && Applicable(item, n)
    ensures forall k :: 0 <= k < |r| ==> r[k].computer.Some?
  {
    var r := Filter(Candidates(item, sp), n => Applicable(item, n));
    assert forall k :: 0 <= k < |r| ==> r[k] in r;
    r
  }

  /** `getName`: a node is named by its self label. */
  function NameOf(node: Node): string {
    node.selfLabel
  }

  /** The loop of `assignedNode`: `target` if some listed node bears that name. */
  function FindListed(listed: seq<Node>, target: Option<string>): (r: Option<string>)
    ensures r.Some? <==> target.Some? && exists k :: 0 <= k < |listed| && NameOf(listed[k]) == target.value
    ensures r.Some? ==> r == target
  {
    if |listed| == 0 then None
    else if target.Some? && NameOf(listed[0]) == target.value then target
    else
      var r := FindListed(listed[1..], target);
      assert r.Some? ==> exists k :: 0 <= k < |listed| && NameOf(listed[k]) == target.value by {
        if r.Some? {
          var k :| 0 <= k < |listed[1..]| && NameOf(listed[1..][k]) == target.value;
          assert NameOf(listed[k + 1]) == target.value;
        }
      }
      r
  }

  /**
   * `assignedNode`: the current assignment, but only while it names a
   * listed node; a node that is no longer assignable yields null.
   */
  function AssignedNode(item: Item, a: NodeAssignments, listed: seq<Node>): (r: Option<string>)
    ensures r.Some? <==> NodeNameOf(a, item).Some? && exists k :: 0 <= k < |listed| && NameOf(listed[k]) == NodeNameOf(a, item).value
    ensures r.Some? ==> r == NodeNameOf(a, item)
  {
    FindListed(listed, NodeNameOf(a, item))
  }

  /** The queue exists and every item has a task: nothing on the way dereferences null. */
  predicate Serializable(sp: Snapshot) {
    sp.queue.Some? && forall i :: 0 <= i < |sp.queue.value| ==> sp.queue.value[i].task.Some?
  }

  /** What one `nodes` entry reports: self-label name, executors, idle executors. */
  function NodeViewOf(node: Node): (v: NodeView)
    requires node.computer.Some?
    ensures v.name == node.selfLabel
    ensures v.executors == node.executors && v.freeExecutors == node.computer.value.idleExecutors
  {
    NodeView(NameOf(node), node.executors, node.computer.value.idleExecutors)
  }

  /**
   * What one queue entry reports: the item's id, priority 50 whatever
   * its name, its enqueue time and task name; `nodes` describes exactly
   * the assignable nodes, in candidate order; `assigned` is the current
   * assignment when one of the listed nodes bears that name, and null
   * otherwise.
   */
  function ItemViewOf(item: Item, sp: Snapshot, a: NodeAssignments): (v: ItemView)
    requires item.task.Some?
    ensures v.id == item.id && v.priority == FixedPriority
    ensures v.inQueueSince == item.inQueueSince && v.name == item.task.value.displayName
    ensures |v.nodes| == |AssignableNodes(item, sp)|
    ensures forall k :: 0 <= k < |v.nodes| ==> v.nodes[k] == NodeViewOf(AssignableNodes(item, sp)[k])
    ensures v.assignedTo.Some? <==>
      NodeNameOf(a, item).Some? && exists k :: 0 <= k < |v.nodes| && v.nodes[k].name == NodeNameOf(a, item).value
    ensures v.assignedTo.Some? ==> v.assignedTo == NodeNameOf(a, item)
  {
    var listed := AssignableNodes(item, sp);
    var nodes := seq(|listed|, k requires 0 <= k < |listed| => NodeViewOf(listed[k]));
    assert forall k :: 0 <= k < |listed| ==> nodes[k].name == NameOf(listed[k]);
    ItemView(item.id, FixedPriority, item.inQueueSince, item.task.value.displayName,
      nodes, AssignedNode(item, a, listed))
  }

  /** `buildQuery`: `{"queue":[...]}`, one entry per queue item. */
  function BuildQuery(sp: Snapshot, a: NodeAssignments): (r: Result<Json>)
    ensures r.Ok? <==> Serializable(sp)
    ensures r.Throw? ==> r.exc == NullPointer
  {
    if !Serializable(sp) then Throw(NullPointer)
    else
      var q := sp.queue.value;
      Ok(QueryObject(seq(|q|, i requires 0 <= i < |q| => ItemViewOf(q[i], sp, a))))
  }

  /**
   * What the planner reads from a request is one entry per queue item, in
   * queue order, each the entry `ItemViewOf` describes.
   */
  lemma BuildQueryReadBack(sp: Snapshot, a: NodeAssignments)
    requires Serializable(sp)
    ensures ReadQuery(BuildQuery(sp, a).value).Some?
    ensures var views := ReadQuery(BuildQuery(sp, a).value).value;
      && |views| == |sp.queue.value|
      && forall i :: 0 <= i < |views| ==> views[i] == ItemViewOf(sp.queue.value[i], sp, a)
  {
    var q := sp.queue.value;
    QueryRoundTrip(seq(|q|, j requires 0 <= j < |q| => ItemViewOf(q[j], sp, a)));
  }
}
