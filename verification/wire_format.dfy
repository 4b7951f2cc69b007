/**
 * The three messages exchanged with the remote planner, seen from the
 * planner's side: a reader for the `{"queue":[...]}` request and builders
 * for the `{"solution":[...]}` and `{"score":n}` responses. The codecs'
 * round-trip lemmas are stated against these.
 */
module WireFormat {
  import opened Base
  import opened Json

  /** One entry of an item's `"nodes"` array. */
  datatype NodeView = NodeView(name: string, executors: int, freeExecutors: int)

  /** One entry of the `"queue"` array. */
  datatype ItemView = ItemView(
    id: int,
    priority: int,
    inQueueSince: int,
    name: string,
    nodes: seq<NodeView>,
    assignedTo: Option<string>)

  /** The member names of a queue entry, in the order the serializers emit them. */
  const ItemKeys: seq<string> := ["id", "priority", "inQueueSince", "name", "nodes", "assigned"]

  /** The member names of a node entry, in emission order. */
  const NodeKeys: seq<string> := ["name", "executors", "freeExecutors"]

  function Number(j: Option<Json>): Option<int> {
    if j.Some? && j.value.JNumber? then Some(j.value.n) else None
  }

  function Text(j: Option<Json>): Option<string> {
    if j.Some? && j.value.JString? then Some(j.value.s) else None
  }

  /** Apply a reader to every element; fail if any element fails. */
  function ReadEach<T>(js: seq<Json>, read: Json -> Option<T>): (r: Option<seq<T>>)
    ensures r.Some? ==> |r.value| == |js|
    ensures r.Some? ==> forall k :: 0 <= k < |js| ==> read(js[k]) == Some(r.value[k])
  {
    if |js| == 0 then Some([])
    else
      match (read(js[0]), ReadEach(js[1..], read))
      case (Some(x), Some(xs)) => Some([x] + xs)
      case _ => None
  }

  /** When every element reads, the whole array reads, element by element. */
  lemma {:induction false} ReadEachAll<T>(js: seq<Json>, read: Json -> Option<T>)
    requires forall k :: 0 <= k < |js| ==> read(js[k]).Some?
    ensures ReadEach(js, read).Some?
  {
    if |js| > 0 {
      ReadEachAll(js[1..], read);
    }
  }

  function ReadNode(j: Json): Option<NodeView> {
    var name := Text(Get(j, "name"));
    var executors := Number(Get(j, "executors"));
    var free := Number(Get(j, "freeExecutors"));
    if name.Some? && executors.Some? && free.Some? then
      Some(NodeView(name.value, executors.value, free.value))
    else None
  }

  function ReadAssigned(j: Option<Json>): Option<Option<string>> {
    match j
    case Some(JNull) => Some(None)
    case Some(JString(s)) => Some(Some(s))
    case _ => None
  }

  /** An item's `"nodes"` member: an array of node entries. */
  function ReadNodes(nodes: Option<Json>): Option<seq<NodeView>> {
    match nodes
    case Some(JArray(a)) => ReadEach(a, ReadNode)
    case _ => None
  }

  /** A queue entry from its six member values, as found. */
  function ReadItemFields(id: Option<Json>, priority: Option<Json>, since: Option<Json>,
                          name: Option<Json>, nodes: Option<Json>, assignedTo: Option<Json>): Option<ItemView>
  {
    var readNodes := ReadNodes(nodes);
    var readAssigned := ReadAssigned(assignedTo);
    if Number(id).Some? && Number(priority).Some? && Number(since).Some? && Text(name).Some?
       && readNodes.Some? && readAssigned.Some?
    then Some(ItemView(Number(id).value, Number(priority).value, Number(since).value,
                       Text(name).value, readNodes.value, readAssigned.value))
    else None
  }

  function ReadItem(j: Json): Option<ItemView> {
    ReadItemFields(Get(j, "id"), Get(j, "priority"), Get(j, "inQueueSince"),
                   Get(j, "name"), Get(j, "nodes"), Get(j, "assigned"))
  }

  /** The planner's reading of a `{"queue":[...]}` request. */
  function ReadQuery(j: Json): Option<seq<ItemView>> {
    match Get(j, "queue")
    case Some(JArray(a)) => ReadEach(a, ReadItem)
    case _ => None
  }

  // ---------------------------------------------------------------------
  // Writing a request: keys in the order both serializers emit them

  function NodeObject(v: NodeView): Json {
    JObject([
      Member("name", JString(v.name)),
      Member("executors", JNumber(v.executors)),
      Member("freeExecutors", JNumber(v.freeExecutors))])
  }

  function OptionalString(s: Option<string>): Json {
    if s.Some? then JString(s.value) else JNull
  }

  function NodesArray(nodes: seq<NodeView>): Json {
    JArray(seq(|nodes|, k requires 0 <= k < |nodes| => NodeObject(nodes[k])))
  }

  function ItemObject(v: ItemView): Json {
    JObject([
      Member("id", JNumber(v.id)),
      Member("priority", JNumber(v.priority)),
      Member("inQueueSince", JNumber(v.inQueueSince)),
      Member("name", JString(v.name)),
      Member("nodes", NodesArray(v.nodes)),
      Member("assigned", OptionalString(v.assignedTo))])
  }

  function QueryObject(items: seq<ItemView>): Json {
    JObject([Member("queue", JArray(seq(|items|, i requires 0 <= i < |items| => ItemObject(items[i]))))])
  }

  /** Members are written in the fixed orders `NodeKeys` and `ItemKeys`. */
  lemma KeysInOrder(n: NodeView, v: ItemView, items: seq<ItemView>)
    ensures Keys(NodeObject(n)) == NodeKeys
    ensures Keys(ItemObject(v)) == ItemKeys
    ensures Keys(QueryObject(items)) == ["queue"]
  {
  }

  lemma NodeObjectReadBack(v: NodeView)
    ensures ReadNode(NodeObject(v)) == Some(v)
  {
    var j := NodeObject(v);
    LookupFirst(j.members, 0, "name");
    LookupFirst(j.members, 1, "executors");
    LookupFirst(j.members, 2, "freeExecutors");
  }

  lemma NodesReadBack(nodes: seq<NodeView>)
    ensures ReadNodes(Some(NodesArray(nodes))) == Some(nodes)
  {
    var js := NodesArray(nodes).elems;
    forall k | 0 <= k < |nodes| ensures ReadNode(js[k]) == Some(nodes[k]) {
      NodeObjectReadBack(nodes[k]);
    }
    ReadEachAll(js, ReadNode);
    assert ReadEach(js, ReadNode).value == nodes;
  }

  lemma FieldId(v: ItemView)
    ensures Get(ItemObject(v), "id") == Some(JNumber(v.id))
  {
    LookupFirst(ItemObject(v).members, 0, "id");
  }
  lemma FieldPrio(v: ItemView)
    ensures Get(ItemObject(v), "priority") == Some(JNumber(v.priority))
  {
    LookupFirst(ItemObject(v).members, 1, "priority");
  }
  lemma FieldSince(v: ItemView)
    ensures Get(ItemObject(v), "inQueueSince") == Some(JNumber(v.inQueueSince))
  {
    LookupFirst(ItemObject(v).members, 2, "inQueueSince");
  }
  lemma FieldName(v: ItemView)
    ensures Get(ItemObject(v), "name") == Some(JString(v.name))
  {
    LookupFirst(ItemObject(v).members, 3, "name");
  }
  lemma FieldNodes(v: ItemView)
    ensures Get(ItemObject(v), "nodes") == Some(NodesArray(v.nodes))
  {
    LookupFirst(ItemObject(v).members, 4, "nodes");
  }
  lemma FieldAssigned(v: ItemView)
    ensures Get(ItemObject(v), "assigned") == Some(OptionalString(v.assignedTo))
  {
    LookupFirst(ItemObject(v).members, 5, "assigned");
  }

  lemma ItemFieldsReadBack(v: ItemView)
    ensures ReadItemFields(Some(JNumber(v.id)), Some(JNumber(v.priority)), Some(JNumber(v.inQueueSince)),
      Some(JString(v.name)), Some(NodesArray(v.nodes)), Some(OptionalString(v.assignedTo))) == Some(v)
  {
    NodesReadBack(v.nodes);
    assert ReadAssigned(Some(OptionalString(v.assignedTo))) == Some(v.assignedTo);
  }

  lemma ItemObjectReadBack(v: ItemView)
    ensures ReadItem(ItemObject(v)) == Some(v)
  {
    FieldId(v); FieldPrio(v); FieldSince(v); FieldName(v); FieldNodes(v); FieldAssigned(v);
    ItemFieldsReadBack(v);
  }

  /** The planner reads back exactly the entries a request was written from. */
  lemma {:induction false} QueryRoundTrip(items: seq<ItemView>)
    ensures ReadQuery(QueryObject(items)) == Some(items)
  {
    var j := QueryObject(items);
    var js := seq(|items|, i requires 0 <= i < |items| => ItemObject(items[i]));
    LookupFirst(j.members, 0, "queue");
    forall i | 0 <= i < |items| ensures ReadItem(js[i]) == Some(items[i]) {
      ItemObjectReadBack(items[i]);
    }
    ReadEachAll(js, ReadItem);
    assert ReadEach(js, ReadItem).value == items;
  }

  // ---------------------------------------------------------------------
  // Responses

  /** One entry of a `"solution"` array: `{"id": id, "node": node}`. */
  datatype SolutionEntry = SolutionEntry(id: Int32, node: string)

  function EntryJson(e: SolutionEntry): Json {
    JObject([Member("id", JNumber(e.id)), Member("node", JString(e.node))])
  }

  function SolutionMessage(entries: seq<SolutionEntry>): Json {
    JObject([Member("solution", JArray(seq(|entries|, k requires 0 <= k < |entries| => EntryJson(entries[k]))))])
  }

  function ScoreMessage(score: int): Json {
    JObject([Member("score", JNumber(score))])
  }
}
