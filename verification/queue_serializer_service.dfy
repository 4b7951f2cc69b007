/**
 * QueueSerializerService: the older codec, used by the proxy client. It
 * differs from JsonSerializer in four ways the model keeps: solution node
 * strings are stored verbatim (no sentinel), a null queue is sent as an
 * empty queue, nodes are listed without any eligibility filter under their
 * node names, and an item's priority depends on keywords in its name.
 */
module QueueSerializerService {
  import opened Base
  import opened Host
  import opened Json
  import opened Assignments
  import opened WireFormat
  import JsonSerializer

  // ---------------------------------------------------------------------
  // Decoding

  /** `getScore`: the integer under `"score"`. */
  function GetScore(msg: Json): (r: Result<Int32>)
    ensures r.Ok? <==> Get(msg, "score").Some? && Get(msg, "score").value.JNumber?
    ensures r.Throw? ==> r.exc == JsonFormat
  {
    GetInt(msg, "score")
  }

  /** A score message carrying any Java `int` decodes to it. */
  lemma GetScoreRoundTrip(score: Int32)
    ensures GetScore(ScoreMessage(score)) == Ok(score)
  {
    LookupFirst(ScoreMessage(score).members, 0, "score");
  }

  /** The loop of `deserialize`: assign each entry's node string as it stands. */
  function AssignEntries(b: Builder, items: seq<Json>): (r: Result<Builder>)
    ensures r.Throw? ==> r.exc in {ClassCast, JsonFormat}
    decreases |items|
  {
    if |items| == 0 then Ok(b)
    else if !items[0].JObject? then Throw(ClassCast)
    else
      match (GetInt(items[0], "id"), GetString(items[0], "node"))
      case (Ok(id), Ok(node)) => AssignEntries(Assign(b, id, Some(node)), items[1..])
      case (Throw(e), _) => Throw(e)
      case (_, Throw(e)) => Throw(e)
  }

  /** `deserialize`: the `"solution"` array as assignments. */
  function Deserialize(msg: Json): (r: Result<NodeAssignments>)
    ensures r.Ok? ==> GetArray(msg, "solution").Ok?
    ensures r.Throw? ==> r.exc in {ClassCast, JsonFormat}
  {
    match GetArray(msg, "solution")
    case Throw(e) => Throw(e)
    case Ok(items) =>
      match AssignEntries(NewBuilder(), items)
      case Ok(b) => Ok(Build(b))
      case Throw(e) => Throw(e)
  }

  /** The `assign` calls a solution message stands for, node strings verbatim. */
  function RawCalls(entries: seq<SolutionEntry>): (calls: seq<Assignment>)
    ensures |calls| == |entries|
    ensures forall k :: 0 <= k < |entries| ==> calls[k].nodeName == Some(entries[k].node)
  {
    seq(|entries|, k requires 0 <= k < |entries| => Assignment(entries[k].id, Some(entries[k].node)))
  }

  lemma {:induction false} AssignEntriesRoundTrip(b: Builder, entries: seq<SolutionEntry>)
    ensures AssignEntries(b, seq(|entries|, k requires 0 <= k < |entries| => EntryJson(entries[k])))
      == Ok(AssignAll(b, RawCalls(entries)))
    decreases |entries|
  {
    var items := seq(|entries|, k requires 0 <= k < |entries| => EntryJson(entries[k]));
    if |entries| > 0 {
      var e := entries[0];
      JsonSerializer.EntryFields(e);
      assert items[0] == EntryJson(e);
      var rest := entries[1..];
      assert items[1..] == seq(|rest|, k requires 0 <= k < |rest| => EntryJson(rest[k]));
      assert RawCalls(entries)[1..] == RawCalls(rest);
      AssignEntriesRoundTrip(Assign(b, e.id, Some(e.node)), rest);
    }
  }

  /**
   * Decoding a solution message yields one `assign` per entry, in order,
   * with every node string kept: an id answers the node of its last entry,
   * the string "not-assigned" included.
   */
  lemma DeserializeRoundTrip(entries: seq<SolutionEntry>, id: int)
    ensures Deserialize(SolutionMessage(entries)) == Ok(FromCalls(RawCalls(entries)))
    ensures NodeName(Deserialize(SolutionMessage(entries)).value, id) ==
      (match LastAssigned(RawCalls(entries), id) case None => None case Some(n) => n)
  {
    LookupFirst(SolutionMessage(entries).members, 0, "solution");
    AssignEntriesRoundTrip(NewBuilder(), entries);
    LastAssignWins(RawCalls(entries), id);
  }

  /**
   * The two decoders agree on every message without the sentinel, and
   * disagree on one that carries it: here the sentinel is a node name.
   */
  lemma DecodersOnSentinel(id: Int32)
    ensures var msg := SolutionMessage([SolutionEntry(id, JsonSerializer.NotAssigned)]);
      && Deserialize(msg).Ok? && JsonSerializer.ExtractAssignments(msg).Ok?
      && NodeName(Deserialize(msg).value, id) == Some(JsonSerializer.NotAssigned)
      && NodeName(JsonSerializer.ExtractAssignments(msg).value, id) == None
  {
    var entries := [SolutionEntry(id, JsonSerializer.NotAssigned)];
    DeserializeRoundTrip(entries, id);
    JsonSerializer.DecodedLookup(entries, id);
  }

  lemma DecodersAgreeWithoutSentinel(entries: seq<SolutionEntry>)
    requires forall k :: 0 <= k < |entries| ==> entries[k].node != JsonSerializer.NotAssigned
    ensures Deserialize(SolutionMessage(entries)) == JsonSerializer.ExtractAssignments(SolutionMessage(entries))
  {
    DeserializeRoundTrip(entries, 0);
    JsonSerializer.ExtractAssignmentsRoundTrip(entries);
    assert RawCalls(entries) == JsonSerializer.DecodedCalls(entries);
  }

  // ---------------------------------------------------------------------
  // Encoding

  /** The names that raise an item's priority, matched in lower case. */
  const Keywords: seq<string> := ["eap", "brms", "jdg"]

  /** `priority`: 70 when the lower-cased display name mentions a keyword, else 50. */
  function Priority(displayName: string): (p: int)
    ensures p == 70 || p == 50
    ensures p == 70 <==> exists w | w in Keywords :: Contains(ToLower(displayName), w)
  {
    var jobName := ToLower(displayName);
    if Contains(jobName, "eap") || Contains(jobName, "brms") || Contains(jobName, "jdg") then 70 else 50
  }

  lemma ToLowerIdempotent(s: string)
    ensures ToLower(ToLower(s)) == ToLower(s)
  {
  }

  /** The keyword match ignores ASCII case: a name and its lower-case form rank alike. */
  lemma PriorityIgnoresCase(displayName: string)
    ensures Priority(ToLower(displayName)) == Priority(displayName)
  {
    ToLowerIdempotent(displayName);
  }

  /** A keyword written in any ASCII case anywhere in the name raises the priority. */
  lemma KeywordRaisesPriority(displayName: string, i: nat, w: string)
    requires w in Keywords
    requires OccursAt(ToLower(displayName), i, w)
    ensures Priority(displayName) == 70
  {
  }

  /**
   * The same item gets different priorities from the two codecs: 70 here
   * for a name like "raven_eap", 50 always from JsonSerializer.
   */
  lemma PrioritiesDisagree()
    ensures Priority("raven_EAP") == 70
    ensures JsonSerializer.FixedPriority == 50
  {
    assert OccursAt(ToLower("raven_EAP"), 6, "eap");
  }

  /** The nodes of the item's label; none when the label or its node set is null. */
  function LabelNodes(item: Item): seq<Node> {
    if item.assignedLabel.Some? && item.assignedLabel.value.nodes.Some? then item.assignedLabel.value.nodes.value else []
  }

  /** `getUsableNodes`: the label's nodes when that set exists and is non-empty, else all nodes. */
  function UsableNodes(item: Item, sp: Snapshot): (r: seq<Node>)
    ensures LabelNodes(item) != [] ==> r == LabelNodes(item)
    ensures LabelNodes(item) == [] ==> r == sp.nodes
  {
    match item.assignedLabel
    case Some(Label(Some(nodes))) => if |nodes| > 0 then nodes else sp.nodes
    case _ => sp.nodes
  }

  /**
   * The two codecs choose candidates alike except for a label with an
   * empty node set: JsonSerializer then offers nothing, this one every node.
   */
  lemma EmptyLabelDiffers(item: Item, sp: Snapshot)
    requires item.assignedLabel == Some(Label(Some([])))
    ensures UsableNodes(item, sp) == sp.nodes
    ensures JsonSerializer.Candidates(item, sp) == []
  {
  }

  /** Every item has a task and every usable node a computer: nothing dereferences null. */
  predicate Serializable(sp: Snapshot)
    requires sp.queue.Some?
  {
    forall i :: 0 <= i < |sp.queue.value| ==>
      var item := sp.queue.value[i];
      && item.task.Some?
      && forall k :: 0 <= k < |UsableNodes(item, sp)| ==> UsableNodes(item, sp)[k].computer.Some?
  }

  /** One `nodes` entry: the node name, executors, idle executors. */
  function NodeViewOf(node: Node): (v: NodeView)
    requires node.computer.Some?
    ensures v.name == node.nodeName
    ensures v.executors == node.executors && v.freeExecutors == node.computer.value.idleExecutors
  {
    NodeView(node.nodeName, node.executors, node.computer.value.idleExecutors)
  }

  /**
   * What one queue entry reports: every usable node, unfiltered and named
   * by node name; `assigned` is the current assignment as it stands, even
   * when no listed node bears that name.
   */
  function ItemViewOf(item: Item, sp: Snapshot, a: NodeAssignments): (v: ItemView)
    requires item.task.Some?
    requires forall k :: 0 <= k < |UsableNodes(item, sp)| ==> UsableNodes(item, sp)[k].computer.Some?
    ensures v.id == item.id && v.inQueueSince == item.inQueueSince
    ensures v.name == item.task.value.displayName
    ensures v.priority == Priority(item.task.value.displayName)
    ensures |v.nodes| == |UsableNodes(item, sp)|
    ensures forall k :: 0 <= k < |v.nodes| ==> v.nodes[k] == NodeViewOf(UsableNodes(item, sp)[k])
    ensures v.assignedTo == NodeNameOf(a, item)
  {
    var usable := UsableNodes(item, sp);
    ItemView(item.id, Priority(item.task.value.displayName), item.inQueueSince,
      item.task.value.displayName,
      seq(|usable|, k requires 0 <= k < |usable| => NodeViewOf(usable[k])),
      NodeNameOf(a, item))
  }

  /** `serialize`: `{"queue":[...]}`; a null queue is sent as an empty array. */
  function Serialize(sp: Snapshot, a: NodeAssignments): (r: Result<Json>)
    ensures r.Ok? <==> sp.queue.None? || Serializable(sp)
    ensures r.Throw? ==> r.exc == NullPointer
    ensures sp.queue.None? ==> r == Ok(QueryObject([]))
  {
    if sp.queue.None? then Ok(QueryObject([]))
    else if !Serializable(sp) then Throw(NullPointer)
    else
      var q := sp.queue.value;
      Ok(QueryObject(seq(|q|, i requires 0 <= i < |q| => ItemViewOf(q[i], sp, a))))
  }

  /**
   * What the planner reads from a request: nothing for a null queue, and
   * otherwise one entry per queue item, in queue order, each the entry
   * `ItemViewOf` describes.
   */
  lemma SerializeReadBack(sp: Snapshot, a: NodeAssignments)
    requires sp.queue.None? || Serializable(sp)
    ensures ReadQuery(Serialize(sp, a).value).Some?
    ensures sp.queue.None? ==> ReadQuery(Serialize(sp, a).value).value == []
    ensures sp.queue.Some? ==>
      var views := ReadQuery(Serialize(sp, a).value).value;
      && |views| == |sp.queue.value|
      && forall i :: 0 <= i < |views| ==> views[i] == ItemViewOf(sp.queue.value[i], sp, a)
  {
    if sp.queue.None? {
      QueryRoundTrip([]);
    } else {
      var q := sp.queue.value;
      QueryRoundTrip(seq(|q|, j requires 0 <= j < |q| => ItemViewOf(q[j], sp, a)));
    }
  }
}
