/**
 * The Jenkins model objects the core reads, reduced to plain records.
 * A Java `hashCode()` that Jenkins computes is an `Int32` field; a
 * `toString()` is a `text` field; object identity, where the source
 * compares references, is a `ref` number.
 */
module Host {
  import opened Base

  type Url = string

  /** hudson.model.Computer: liveness and idle executors of a node. */
  datatype Computer = Computer(offline: bool, acceptingTasks: bool, idleExecutors: int)

  /**
   * hudson.model.Node. `selfLabel` is `getSelfLabel().toString()`,
   * `nodeName` is `getNodeName()`; `computer` is `toComputer()`, which may
   * be null. `refuses` holds the ids of the queue items for which the
   * node's own `canTake(item)` returns a cause of blockage.
   */
  datatype Node = Node(
    selfLabel: string,
    nodeName: string,
    executors: int,
    computer: Option<Computer>,
    refuses: set<int>,
    hash: Int32,
    text: string)

  /** hudson.model.Label: `getNodes()`, which may be null. */
  datatype Label = Label(nodes: Option<seq<Node>>)

  /** hudson.model.Queue.Task; `ref` is the object's identity. */
  datatype Task = Task(ref: nat, displayName: string)

  /** hudson.model.Queue.Item (and BuildableItem). */
  datatype Item = Item(
    id: int,
    task: Option<Task>,
    inQueueSince: int,
    assignedLabel: Option<Label>,
    hash: Int32,
    text: string)

  /**
   * A QueueTaskDispatcher's answer: null admits, a cause of blockage
   * (shown by its short description) blocks.
   */
  datatype Verdict = Admit | Block(cause: string)

  /**
   * What a StateProvider exposes: the usable nodes and the pending queue
   * (`getQueue()` may return null, which the two serializers treat
   * differently).
   */
  datatype Snapshot = Snapshot(nodes: seq<Node>, queue: Option<seq<Item>>)
}
