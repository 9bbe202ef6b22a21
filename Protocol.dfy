/**
 * The bus protocol of the election engine: peer states, the five message
 * kinds, and the notifications the engine publishes to its observers.
 */
module Protocol {
  import opened Wrappers
  import opened NodeOrder

  datatype NodeState = Follower | Candidate | Leader

  /**
   * A message on the bus. Every kind carries its sender's `nodeId`.
   * `FinishElection.leader` is declared as a peer id in the source but is
   * `undefined` when the sender had no active peers, hence the Option.
   * `Unrecognized` stands for a payload whose type tag is none of the five.
   */
  datatype Message =
    | Heartbeat(nodeId: NodeId, state: NodeState)
    | StartElection(nodeId: NodeId)
    | Destroy(nodeId: NodeId, state: NodeState)
    | Create(nodeId: NodeId)
    | FinishElection(nodeId: NodeId, leader: Option<NodeId>)
    | Unrecognized(nodeId: NodeId)

  /** What the engine publishes through its observer registry. */
  datatype EngineEvent = StateChange(newState: NodeState) | Destroyed

  /**
   * The messages `sendHeartBeat` puts on the bus: one heartbeat announcing
   * the current state while Leader or Candidate, none while Follower.
   */
  function HeartbeatFor(id: NodeId, current: NodeState): (sent: seq<Message>)
    ensures |sent| <= 1
    ensures |sent| == 0 <==> current.Follower?
    ensures forall m :: m in sent ==> m.Heartbeat? && m.nodeId == id && m.state == current
  {
    if current == Leader || current == Candidate then [Heartbeat(id, current)] else []
  }
}
