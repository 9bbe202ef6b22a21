/**
 * The election engine of one peer: `RaftNode` of src/raft/raft.ts.
 *
 * The bus is an outbox the engine appends to, the observer registry is the
 * log of events the engine publishes, the clock is a `now` parameter and
 * every timer is a flag plus an explicit method for its firing.
 */
module Election {
  import opened Wrappers
  import opened NodeOrder
  import opened Protocol

  const HeartbeatInterval: int := 500
  const StartElectionTimeout: int := 10000
  const ElectionTimeoutMin: int := 2000
  const ElectionTimeoutMax: int := 3000
  const Multiply: int := 3

  /** The watchdog's staleness test: silence from the leader longer than `HeartbeatInterval * Multiply`. */
  predicate HeartbeatExpired(now: int, lastHeartbeatLeader: int)
  {
    now - lastHeartbeatLeader > HeartbeatInterval * Multiply
  }

  class RaftNode {
    const nodeId: NodeId
    var state: NodeState
    var leaderId: Option<NodeId>
    var lastHeartbeatLeader: int
    var activeNodes: set<NodeId>
    /** The one-shot resolution timer (`electionTimer`) is pending. */
    var resolutionArmed: bool
    /** The heartbeat interval (`heartbeatIntervalTimeId`) is running. */
    var heartbeatTicking: bool
    /** A watchdog timeout scheduled by `startElectionTimer` is pending. */
    var watchdogArmed: bool
    /** `destroy` has not asked the bus to drop the handler. */
    var subscribed: bool
    var initialized: bool
    /** Every message sent on the bus, oldest first. */
    var outbox: seq<Message>
    /** Every notification published to observers, oldest first. */
    var events: seq<EngineEvent>

    /** The engine invariant kept by every handler and timer. */
    ghost predicate Valid()
      reads this
    {
      && (state == Leader ==> leaderId == Some(nodeId))
      && (state == Candidate ==> leaderId == None)
      && (resolutionArmed ==> state == Candidate)
    }

    /**
     * Once started, the watchdog has a pending timeout. `init` arms it
     * (src/raft/raft.ts:66) and a non-Leader firing re-arms it
     * (src/raft/raft.ts:214), but a Leader firing returns before re-arming
     * (src/raft/raft.ts:204). The corrected `WatchdogTick` keeps this
     * property; `WatchdogTickAsWritten` breaks it for a Leader.
     */
    ghost predicate WatchdogLive()
      reads this
    {
      initialized ==> watchdogArmed
    }

    twostate predicate LifecycleUnchanged()
      reads this
    {
      && watchdogArmed == old(watchdogArmed)
      && heartbeatTicking == old(heartbeatTicking)
      && subscribed == old(subscribed)
      && initialized == old(initialized)
    }

    /** Nothing but the peer set (and nothing of the lifecycle) changed. */
    twostate predicate OnlyPeersMayChange()
      reads this
    {
      && state == old(state)
      && leaderId == old(leaderId)
      && lastHeartbeatLeader == old(lastHeartbeatLeader)
      && resolutionArmed == old(resolutionArmed)
      && outbox == old(outbox)
      && events == old(events)
      && LifecycleUnchanged()
    }

    /** The end state of a candidacy started from Follower (`becomeCandidate`). */
    twostate predicate StartedCandidacy()
      reads this
    {
      && state == Candidate
      && leaderId == None
      && activeNodes == {nodeId}
      && resolutionArmed
      && lastHeartbeatLeader == old(lastHeartbeatLeader)
      && outbox == old(outbox) + [StartElection(nodeId), Heartbeat(nodeId, Candidate)]
      && events == old(events) + [StateChange(Candidate)]
      && LifecycleUnchanged()
    }

    /** `becomeCandidate`: only a Follower moves; from Candidate or Leader it is a no-op. */
    twostate predicate CandidacyEffect()
      reads this
    {
      if old(state) == Follower then StartedCandidacy() else unchanged(this)
    }

    /** Receiving `Heartbeat{sender, st}` at time `now`. */
    twostate predicate HeartbeatEffect(sender: NodeId, st: NodeState, now: int)
      reads this
    {
      if st != Leader then
        activeNodes == old(activeNodes) + {sender} && OnlyPeersMayChange()
      else if old(state) == Leader then
        // collision: step down to Follower, then start a candidacy at once
        && state == Candidate
        && leaderId == None
        && activeNodes == {nodeId}
        && resolutionArmed
        && lastHeartbeatLeader == now
        && outbox == old(outbox) + [StartElection(nodeId), Heartbeat(nodeId, Candidate)]
        && events == old(events) + [StateChange(Follower), StateChange(Candidate)]
        && LifecycleUnchanged()
      else
        && state == Follower
        && leaderId == Some(sender)
        && activeNodes == old(activeNodes) + {sender}
        && !resolutionArmed
        && lastHeartbeatLeader == now
        && outbox == old(outbox)
        && events == old(events) + (if old(state) == Candidate then [StateChange(Follower)] else [])
        && LifecycleUnchanged()
    }

    /** Receiving `Create{sender}`: track the newcomer and re-announce the current role. */
    twostate predicate CreateEffect(sender: NodeId)
      reads this
    {
      && activeNodes == old(activeNodes) + {sender}
      && state == old(state)
      && leaderId == old(leaderId)
      && lastHeartbeatLeader == old(lastHeartbeatLeader)
      && resolutionArmed == old(resolutionArmed)
      && events == old(events)
      && outbox == old(outbox) + (match old(state)
                                  case Leader => [Heartbeat(nodeId, Leader)]
                                  case Candidate => [StartElection(nodeId)]
                                  case Follower => [])
      && LifecycleUnchanged()
    }

    /** Receiving `Destroy{sender, st}`: forget the sender; a departing Leader triggers a candidacy. */
    twostate predicate DestroyEffect(sender: NodeId, st: NodeState)
      reads this
    {
      if st == Leader && old(state) == Follower then StartedCandidacy()
      else activeNodes == old(activeNodes) - {sender} && OnlyPeersMayChange()
    }

    constructor (id: NodeId, now: int)
      ensures nodeId == id && state == Follower && leaderId == None
      ensures lastHeartbeatLeader == now && activeNodes == {}
      ensures !resolutionArmed && !heartbeatTicking && !watchdogArmed && !subscribed && !initialized
      ensures outbox == [] && events == []
      ensures Valid() && WatchdogLive()
    {
      nodeId := id;
      state := Follower;
      leaderId := None;
      lastHeartbeatLeader := now;
      activeNodes := {};
      resolutionArmed, heartbeatTicking, watchdogArmed := false, false, false;
      subscribed, initialized := false, false;
      outbox, events := [], [];
    }

    /** `init`: announce the join, start the heartbeat interval and the watchdog, listen to the bus. */
    method Init()
      requires Valid()
      modifies this
      ensures Valid() && WatchdogLive()
      ensures outbox == old(outbox) + [Create(nodeId)]
      ensures heartbeatTicking && watchdogArmed && subscribed && initialized
      ensures state == old(state) && leaderId == old(leaderId) && activeNodes == old(activeNodes)
      ensures lastHeartbeatLeader == old(lastHeartbeatLeader) && resolutionArmed == old(resolutionArmed)
      ensures events == old(events)
    {
      outbox := outbox + [Create(nodeId)];
      heartbeatTicking := true;
      watchdogArmed := true;
      subscribed := true;
      initialized := true;
    }

    /** `sendHeartBeat`: Leaders and Candidates announce themselves; Followers stay silent. */
    method SendHeartBeat()
      modifies this`outbox
      ensures outbox == old(outbox) + HeartbeatFor(nodeId, state)
    {
      if state == Leader || state == Candidate {
        outbox := outbox + [Heartbeat(nodeId, state)];
      }
    }

    /** `resume`: re-announce liveness without touching the state. */
    method Resume()
      modifies this`outbox
      ensures outbox == old(outbox) + HeartbeatFor(nodeId, state)
    {
      SendHeartBeat();
    }

    /** One tick of the heartbeat interval. */
    method HeartbeatTick()
      requires heartbeatTicking
      modifies this`outbox
      ensures outbox == old(outbox) + HeartbeatFor(nodeId, state)
    {
      SendHeartBeat();
    }

    /**
     * `setState`: a real change is published once and, for Leader and
     * Candidate, announced by one heartbeat; setting the current state
     * again does nothing at all.
     */
    method SetState(newState: NodeState)
      modifies this`state, this`events, this`outbox
      ensures newState == old(state) ==> state == old(state) && events == old(events) && outbox == old(outbox)
      ensures newState != old(state) ==>
        && state == newState
        && events == old(events) + [StateChange(newState)]
        && outbox == old(outbox) + HeartbeatFor(nodeId, newState)
    {
      if state != newState {
        state := newState;
        events := events + [StateChange(newState)];
        SendHeartBeat();
      }
    }

    /** `becomeCandidate` (Follower only): announce, forget the leader, reset the peers to self, arm the resolution timer. */
    method BecomeCandidate()
      requires Valid()
      modifies this`state, this`leaderId, this`activeNodes, this`resolutionArmed, this`outbox, this`events
      ensures Valid()
      ensures CandidacyEffect()
    {
      if state != Follower {
        return;
      }
      outbox := outbox + [StartElection(nodeId)];
      leaderId := None;
      resolutionArmed := false;
      SetState(Candidate);
      activeNodes := {nodeId};
      resolutionArmed := true;
    }

    /** `becameFollower`: follow `leader` (possibly none), cancel the resolution timer, refresh the heartbeat time. */
    method BecameFollower(leader: Option<NodeId>, now: int)
      modifies this`state, this`events, this`outbox, this`resolutionArmed, this`leaderId, this`lastHeartbeatLeader
      ensures Valid()
      ensures state == Follower && leaderId == leader && lastHeartbeatLeader == now && !resolutionArmed
      ensures outbox == old(outbox)
      ensures events == old(events) + (if old(state) == Follower then [] else [StateChange(Follower)])
    {
      SetState(Follower);
      resolutionArmed := false;
      leaderId := leader;
      lastHeartbeatLeader := now;
    }

    /** `becameLeader`: lead, cancel the resolution timer, record self as leader. */
    method BecameLeader()
      modifies this`state, this`events, this`outbox, this`resolutionArmed, this`leaderId
      ensures Valid()
      ensures state == Leader && leaderId == Some(nodeId) && !resolutionArmed
      ensures outbox == old(outbox) + (if old(state) == Leader then [] else [Heartbeat(nodeId, Leader)])
      ensures events == old(events) + (if old(state) == Leader then [] else [StateChange(Leader)])
    {
      SetState(Leader);
      resolutionArmed := false;
      leaderId := Some(nodeId);
    }

    /** `heartBeatHandler`. A Leader takes the collision path even when the heartbeat is its own. */
    method HeartBeatHandler(sender: NodeId, st: NodeState, now: int)
      requires Valid()
      modifies this`state, this`leaderId, this`activeNodes, this`resolutionArmed, this`outbox, this`events,
        this`lastHeartbeatLeader
      ensures Valid()
      ensures HeartbeatEffect(sender, st, now)
    {
      activeNodes := activeNodes + {sender};
      if st == Leader {
        lastHeartbeatLeader := now;
        if state == Leader {
          BecameFollower(None, now);
          BecomeCandidate();
          return;
        }
        leaderId := Some(sender);
        BecameFollower(Some(sender), now);
      }
    }

    /** `createMessageHandler`. */
    method CreateMessageHandler(sender: NodeId)
      requires Valid()
      modifies this`activeNodes, this`outbox
      ensures Valid()
      ensures CreateEffect(sender)
    {
      activeNodes := activeNodes + {sender};
      match state
      case Leader => SendHeartBeat();
      case Candidate => outbox := outbox + [StartElection(nodeId)];  // sendElectionEvent
      case Follower =>
    }

    /** `destroyMessageHandler`. */
    method DestroyMessageHandler(sender: NodeId, st: NodeState)
      requires Valid()
      modifies this`state, this`leaderId, this`activeNodes, this`resolutionArmed, this`outbox, this`events
      ensures Valid()
      ensures DestroyEffect(sender, st)
    {
      activeNodes := activeNodes - {sender};
      if st == Leader {
        BecomeCandidate();
      }
    }

    /**
     * `finishMessageHandler`: reports whether the announced leader differs
     * from the locally computed one (the source only logs a warning then).
     */
    method FinishMessageHandler(leader: Option<NodeId>) returns (collision: bool)
      ensures collision <==> GetLeader(activeNodes) != leader
    {
      collision := GetLeader(activeNodes) != leader;
    }

    /** `handleMessage`: dispatch on the message kind; unknown kinds are ignored. */
    method HandleMessage(m: Message, now: int)
      requires Valid()
      modifies this
      ensures Valid()
      ensures old(WatchdogLive()) ==> WatchdogLive()
      ensures match m
        case Heartbeat(sender, st) => HeartbeatEffect(sender, st, now)
        case Destroy(sender, st) => DestroyEffect(sender, st)
        case StartElection(_) => CandidacyEffect()
        case Create(sender) => CreateEffect(sender)
        case FinishElection(_, _) => unchanged(this)
        case Unrecognized(_) => unchanged(this)
    {
      match m
      case Heartbeat(sender, st) => HeartBeatHandler(sender, st, now);
      case Destroy(sender, st) => DestroyMessageHandler(sender, st);
      case StartElection(_) => BecomeCandidate();
      case Create(sender) => CreateMessageHandler(sender);
      case FinishElection(_, leader) =>
        var _ := FinishMessageHandler(leader);
      case Unrecognized(_) =>
    }

    /**
     * `election`, run when the resolution timer fires: a Candidate takes the
     * least active peer as leader, leads if that is itself and follows it
     * otherwise, then announces the outcome. Any other state ignores it.
     */
    method Election(now: int)
      requires Valid()
      modifies this`state, this`leaderId, this`resolutionArmed, this`outbox, this`events, this`lastHeartbeatLeader
      ensures Valid()
      ensures old(WatchdogLive()) ==> WatchdogLive()
      ensures old(state) != Candidate ==> unchanged(this)
      ensures old(state) == Candidate ==>
        var winner := GetLeader(old(activeNodes));
        && state == (if winner == Some(nodeId) then Leader else Follower)
        && leaderId == winner
        && lastHeartbeatLeader == now
        && !resolutionArmed
        && events == old(events) + [StateChange(state)]
        && outbox == old(outbox) + HeartbeatFor(nodeId, state) + [FinishElection(nodeId, winner)]
    {
      if state != Candidate {
        return;
      }
      var leader := GetLeader(activeNodes);
      lastHeartbeatLeader := now;
      if leader == Some(nodeId) {
        BecameLeader();
      } else {
        BecameFollower(leader, now);
      }
      outbox := outbox + [FinishElection(nodeId, leader)];
    }

    /**
     * The watchdog timeout firing, corrected: a Leader does nothing, any
     * other peer starts a candidacy when the leader's heartbeat is stale,
     * and the watchdog is always rescheduled, as the non-Leader path of
     * src/raft/raft.ts:214 already does, so `WatchdogLive` always holds.
     */
    method WatchdogTick(now: int)
      requires Valid() && watchdogArmed
      modifies this
      ensures Valid() && watchdogArmed && WatchdogLive()
      ensures old(state) != Leader && HeartbeatExpired(now, old(lastHeartbeatLeader)) ==> CandidacyEffect()
      ensures old(state) == Leader || !HeartbeatExpired(now, old(lastHeartbeatLeader)) ==> unchanged(this)
    {
      watchdogArmed := false;  // the pending timeout has fired
      if state != Leader && HeartbeatExpired(now, lastHeartbeatLeader) {
        BecomeCandidate();
      }
      watchdogArmed := true;  // startElectionTimer()
    }

    /**
     * The watchdog timeout firing, as written: it returns early for a
     * Leader BEFORE rescheduling itself, so the watchdog stops for good.
     */
    method WatchdogTickAsWritten(now: int)
      requires Valid() && watchdogArmed
      modifies this
      ensures Valid()
      ensures old(state) == Leader ==>
        && !watchdogArmed
        && activeNodes == old(activeNodes)
        && state == old(state) && leaderId == old(leaderId)
        && lastHeartbeatLeader == old(lastHeartbeatLeader) && resolutionArmed == old(resolutionArmed)
        && outbox == old(outbox) && events == old(events)
        && heartbeatTicking == old(heartbeatTicking) && subscribed == old(subscribed)
        && initialized == old(initialized)
      ensures old(state) != Leader && HeartbeatExpired(now, old(lastHeartbeatLeader)) ==> CandidacyEffect()
      ensures old(state) != Leader && !HeartbeatExpired(now, old(lastHeartbeatLeader)) ==> unchanged(this)
    {
      watchdogArmed := false;  // the pending timeout has fired
      if state == Leader {
        return;
      }
      if HeartbeatExpired(now, lastHeartbeatLeader) {
        BecomeCandidate();
      }
      watchdogArmed := true;  // startElectionTimer()
    }

    /** `sendDestroyMessage`: announce the departure with the current state. */
    method SendDestroyMessage()
      modifies this`outbox
      ensures outbox == old(outbox) + [Message.Destroy(nodeId, state)]
    {
      outbox := outbox + [Message.Destroy(nodeId, state)];
    }

    /**
     * `destroy`: announce the departure, stop the heartbeat interval and the
     * resolution timer, drop the bus handler, publish `destroy`. The
     * watchdog is not cancelled.
     */
    method Destroy()
      requires Valid()
      modifies this
      ensures Valid()
      ensures old(WatchdogLive()) ==> WatchdogLive()
      ensures outbox == old(outbox) + [Message.Destroy(nodeId, old(state))]
      ensures events == old(events) + [Destroyed]
      ensures !heartbeatTicking && !resolutionArmed && !subscribed
      ensures state == old(state) && leaderId == old(leaderId) && activeNodes == old(activeNodes)
      ensures lastHeartbeatLeader == old(lastHeartbeatLeader)
      ensures watchdogArmed == old(watchdogArmed) && initialized == old(initialized)
    {
      SendDestroyMessage();
      heartbeatTicking := false;
      resolutionArmed := false;
      subscribed := false;
      events := events + [Destroyed];
    }
  }

  /** Peer "b" starts, is told an election began, and wins it alone. */
  method SoleLeader() returns (n: RaftNode)
    ensures fresh(n) && n.Valid() && n.nodeId == "b"
    ensures n.state == Leader && n.initialized && n.watchdogArmed
  {
    n := new RaftNode("b", 0);
    n.Init();
    n.HandleMessage(StartElection("c"), 100);
    assert n.state == Candidate && n.activeNodes == {"b"};
    n.Election(10100);
  }

  /**
   * Leader "b" hears Leader "a" (collision), then hears "a" campaigning, and
   * its resolution timer makes it follow "a", the least of {"a", "b"}.
   */
  method CollideWithLowerPeer(n: RaftNode)
    requires n.Valid() && n.nodeId == "b" && n.state == Leader
    modifies n
    ensures n.Valid() && n.state == Follower && n.leaderId == Some("a") && n.lastHeartbeatLeader == 22500
    ensures n.watchdogArmed == old(n.watchdogArmed) && n.initialized == old(n.initialized)
  {
    n.HandleMessage(Heartbeat("a", Leader), 12500);
    assert n.state == Candidate && n.activeNodes == {"b"};
    n.HandleMessage(Heartbeat("a", Candidate), 12600);
    assert n.activeNodes == {"a", "b"};
    assert NoLater("a", "b") && !NoLater("b", "a");
    n.Election(22500);
  }

  /**
   * A run of one peer "b" with the watchdog as written: it wins an election
   * alone, its watchdog fires while it leads, a heartbeat collision with "a"
   * sends it back to Candidate and the resolution timer makes it follow "a".
   * It ends a started Follower with no watchdog pending, so no amount of
   * silence from "a" will ever make it stand for election again.
   */
  method WatchdogLostAsWritten() returns (final: NodeState, started: bool, watchdogPending: bool)
    ensures final == Follower && started && !watchdogPending
  {
    var n := SoleLeader();
    n.WatchdogTickAsWritten(12000);
    CollideWithLowerPeer(n);
    final, started, watchdogPending := n.state, n.initialized, n.watchdogArmed;
  }

  /**
   * The same run with the watchdog rescheduled as intended: the watchdog is
   * still pending at the end, and once "a" has been silent for longer than
   * the staleness threshold the next firing starts a candidacy.
   */
  method WatchdogKeptCorrected() returns (final: NodeState, started: bool, watchdogPending: bool)
    ensures final == Candidate && started && watchdogPending
  {
    var n := SoleLeader();
    n.WatchdogTick(12000);
    CollideWithLowerPeer(n);
    n.WatchdogTick(25000);
    final, started, watchdogPending := n.state, n.initialized, n.watchdogArmed;
  }
}
