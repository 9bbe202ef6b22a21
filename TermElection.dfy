/**
 * The alternate term-and-vote engine: `RaftNode` of src/raft/new.ts.
 *
 * The `BroadcastChannel` is an outbox, the inherited emitter is the log of
 * published `stateChange` payloads, and the election timeout is a deadline
 * on a clock passed in as `now`; each reset draws a fresh `delay` (the
 * source draws it from [1500, 3000) milliseconds).
 */
module TermElection {
  import opened Wrappers

  datatype RaftState = Follower | Candidate | Leader

  datatype MessageType = VoteRequest | VoteResponse | Heartbeat

  /** A bus message; an absent `voteGranted` reads as false. */
  datatype RaftMessage = RaftMessage(kind: MessageType, term: int, senderId: string, voteGranted: bool)

  /** JavaScript truthiness of `votedFor`: `null` and the empty string are both falsy. */
  predicate HasVoted(votedFor: Option<string>)
  {
    votedFor.Some? && votedFor.value != ""
  }

  class TermNode {
    const id: string
    var state: RaftState
    var term: nat
    var votedFor: Option<string>
    var votesReceived: set<string>
    /** When the pending election timeout fires. */
    var electionDeadline: int
    /** The leader's heartbeat interval is running. */
    var heartbeatTicking: bool
    /** Every message posted on the channel, oldest first. */
    var outbox: seq<RaftMessage>
    /** Every `stateChange` payload emitted, oldest first. */
    var stateEvents: seq<RaftState>
    /** The candidates granted a vote in the current term, in order. */
    ghost var grants: seq<string>

    /**
     * Votes: every vote granted this term but the last went to an empty
     * candidate id (which leaves `votedFor` falsy), and the last is the one
     * `votedFor` records; so a term grants at most one vote to a real id.
     * Candidates and Leaders have voted for themselves, and a Leader holds
     * at least one vote besides its own.
     */
    ghost predicate Valid()
      reads this
    {
      && (grants != [] ==> votedFor == Some(grants[|grants| - 1]))
      && (forall i :: 0 <= i < |grants| - 1 ==> grants[i] == "")
      && (state == Candidate ==> id in votesReceived)
      && (state == Leader ==> id in votesReceived && |votesReceived| > 1)
    }

    constructor (nodeId: string, now: int, delay: int)
      ensures id == nodeId && state == Follower && term == 0 && votedFor == None && votesReceived == {}
      ensures electionDeadline == now + delay && !heartbeatTicking
      ensures outbox == [] && stateEvents == [] && grants == []
      ensures Valid()
    {
      id := nodeId;
      state := Follower;
      term := 0;
      votedFor := None;
      votesReceived := {};
      electionDeadline := now + delay;
      heartbeatTicking := false;
      outbox, stateEvents := [], [];
      grants := [];
    }

    /** `setState`: publish `stateChange` only on an actual change. */
    method SetState(newState: RaftState)
      modifies this`state, this`stateEvents
      ensures state == newState
      ensures stateEvents == old(stateEvents) + (if newState == old(state) then [] else [newState])
    {
      if state != newState {
        state := newState;
        stateEvents := stateEvents + [newState];
      }
    }

    /** `resetElectionTimeout`: replace the pending timeout by one `delay` from now. */
    method ResetElectionTimeout(now: int, delay: int)
      modifies this`electionDeadline
      ensures electionDeadline == now + delay
    {
      electionDeadline := now + delay;
    }

    /**
     * `startElection`, run when the election timeout fires: stand for the
     * next term, vote for self, ask the others for votes, re-arm the timeout.
     */
    method StartElection(now: int, delay: int)
      requires Valid()
      requires electionDeadline <= now
      modifies this
      ensures Valid()
      ensures state == Candidate && term == old(term) + 1
      ensures votedFor == Some(id) && votesReceived == {id} && grants == []
      ensures outbox == old(outbox) + [RaftMessage(VoteRequest, term, id, false)]
      ensures stateEvents == old(stateEvents) + (if old(state) == Candidate then [] else [Candidate])
      ensures electionDeadline == now + delay && heartbeatTicking == old(heartbeatTicking)
    {
      SetState(Candidate);
      term := term + 1;
      votedFor := Some(id);
      grants := [];
      votesReceived := {id};
      outbox := outbox + [RaftMessage(VoteRequest, term, id, false)];
      ResetElectionTimeout(now, delay);
    }

    /**
     * `handleMessage`: first adopt a higher term (forgetting the vote and
     * stepping down), then handle the message by kind.
     */
    method HandleMessage(m: RaftMessage, now: int, delay: int)
      requires Valid()
      modifies this
      ensures Valid()
      ensures term >= old(term)
      ensures term == if m.term > old(term) then m.term else old(term)
      ensures
        var adopted := m.term > old(term);
        var state1 := if adopted then Follower else old(state);
        var voted1 := if adopted then None else old(votedFor);
        var deadline1 := if adopted then now + delay else old(electionDeadline);
        && stateEvents == old(stateEvents) + (if adopted && old(state) != Follower then [Follower] else [])
                                           + (if state != state1 then [state] else [])
        && (m.kind == VoteRequest ==>
              var granted := !HasVoted(voted1) && m.term >= term;
              && state == state1
              && votedFor == (if granted then Some(m.senderId) else voted1)
              && outbox == old(outbox) + (if granted then [RaftMessage(VoteResponse, term, id, true)] else [])
              && votesReceived == old(votesReceived)
              && heartbeatTicking == old(heartbeatTicking)
              && electionDeadline == deadline1)
        && (m.kind == VoteResponse ==>
              var counted := state1 == Candidate && m.voteGranted;
              && votedFor == voted1
              && votesReceived == (if counted then old(votesReceived) + {m.senderId} else old(votesReceived))
              && (if counted && |votesReceived| > 1
                  then state == Leader && heartbeatTicking
                  else state == state1 && heartbeatTicking == old(heartbeatTicking))
              && outbox == old(outbox)
              && electionDeadline == deadline1)
        && (m.kind == Heartbeat ==>
              && votedFor == voted1
              && state == (if state1 == Leader then Leader else Follower)
              && votesReceived == old(votesReceived)
              && heartbeatTicking == old(heartbeatTicking)
              && outbox == old(outbox)
              && electionDeadline == (if state1 == Leader then deadline1 else now + delay))
    {
      AdoptTerm(m.term, now, delay);
      match m.kind
      case VoteRequest => HandleVoteRequest(m);
      case VoteResponse => HandleVoteResponse(m);
      case Heartbeat => HandleHeartbeat(now, delay);
    }

    /** The first step of `handleMessage`: a higher term is adopted, the vote forgotten, the node steps down. */
    method AdoptTerm(messageTerm: int, now: int, delay: int)
      requires Valid()
      modifies this`term, this`votedFor, this`grants, this`state, this`stateEvents, this`electionDeadline
      ensures Valid()
      ensures messageTerm <= old(term) ==> unchanged(this)
      ensures messageTerm > old(term) ==>
        && term == messageTerm && votedFor == None && grants == [] && state == Follower
        && stateEvents == old(stateEvents) + (if old(state) != Follower then [Follower] else [])
        && electionDeadline == now + delay
    {
      if messageTerm > term {
        term := messageTerm;
        votedFor := None;
        grants := [];
        SetState(Follower);
        ResetElectionTimeout(now, delay);
      }
    }

    /** `vote_request`: vote for the sender if no vote is held (by JS truthiness) and the request is for the current term. */
    method HandleVoteRequest(m: RaftMessage)
      requires Valid()
      modifies this`votedFor, this`grants, this`outbox
      ensures Valid()
      ensures
        var granted := !HasVoted(old(votedFor)) && m.term >= term;
        && votedFor == (if granted then Some(m.senderId) else old(votedFor))
        && outbox == old(outbox) + (if granted then [RaftMessage(VoteResponse, term, id, true)] else [])
    {
      if !HasVoted(votedFor) && m.term >= term {
        votedFor := Some(m.senderId);
        grants := grants + [m.senderId];
        outbox := outbox + [RaftMessage(VoteResponse, term, id, true)];
      }
    }

    /** `vote_response`: a Candidate counts a granted vote and leads once it holds more than one. */
    method HandleVoteResponse(m: RaftMessage)
      requires Valid()
      modifies this`votesReceived, this`state, this`stateEvents, this`heartbeatTicking
      ensures Valid()
      ensures
        var counted := old(state) == Candidate && m.voteGranted;
        && votesReceived == (if counted then old(votesReceived) + {m.senderId} else old(votesReceived))
        && (if counted && |votesReceived| > 1
            then state == Leader && heartbeatTicking
            else state == old(state) && heartbeatTicking == old(heartbeatTicking))
        && stateEvents == old(stateEvents) + (if state != old(state) then [state] else [])
    {
      if state == Candidate && m.voteGranted {
        votesReceived := votesReceived + {m.senderId};
        if |votesReceived| > 1 {
          SetState(Leader);
          heartbeatTicking := true;  // sendHeartbeats
        }
      }
    }

    /** `heartbeat`: any non-Leader becomes (or stays) a Follower and postpones its election timeout. */
    method HandleHeartbeat(now: int, delay: int)
      requires Valid()
      modifies this`state, this`stateEvents, this`electionDeadline
      ensures Valid()
      ensures old(state) == Leader ==> unchanged(this)
      ensures old(state) != Leader ==>
        && state == Follower && electionDeadline == now + delay
        && stateEvents == old(stateEvents) + (if old(state) != Follower then [Follower] else [])
    {
      if state != Leader {
        SetState(Follower);
        ResetElectionTimeout(now, delay);
      }
    }

    /** One tick of the heartbeat interval; it keeps running after the node steps down. */
    method HeartbeatTick()
      requires heartbeatTicking
      modifies this`outbox
      ensures outbox == old(outbox) + [RaftMessage(Heartbeat, term, id, false)]
    {
      outbox := outbox + [RaftMessage(Heartbeat, term, id, false)];
    }
  }

  /**
   * A node holding a vote for a real candidate id grants no other vote in
   * its term: a vote request is granted, to its sender, iff it carries a
   * higher term, which first makes the node forget its vote.
   */
  method VoteHeldUntilNewTerm(n: TermNode, m: RaftMessage, now: int, delay: int)
    requires n.Valid() && HasVoted(n.votedFor) && m.kind == VoteRequest
    modifies n
    ensures n.Valid()
    ensures n.votedFor == (if m.term > old(n.term) then Some(m.senderId) else old(n.votedFor))
    ensures n.outbox == old(n.outbox) + (if m.term > old(n.term) then [RaftMessage(VoteResponse, m.term, n.id, true)] else [])
  {
    n.HandleMessage(m, now, delay);
  }

  /**
   * Two vote requests for the same new term reach a fresh node: the first
   * candidate gets the vote, and a rival asking in that term is refused.
   */
  method OneVotePerTerm(candidate: string, rival: string, t: nat) returns (grantedFirst: bool, grantedRival: bool)
    requires candidate != ""
    ensures grantedFirst && !grantedRival
  {
    var n := new TermNode("self", 0, 2000);
    n.HandleMessage(RaftMessage(VoteRequest, t + 1, candidate, false), 10, 2000);
    grantedFirst := |n.outbox| == 1;
    n.HandleMessage(RaftMessage(VoteRequest, t + 1, rival, false), 20, 2000);
    grantedRival := |n.outbox| == 2;
  }

  /**
   * `!this.votedFor` treats a vote for the empty id as no vote: after
   * granting it, the node grants a second vote in the same term.
   */
  method EmptyCandidateIdLeavesVoteOpen(rival: string, t: nat) returns (grantedFirst: bool, grantedRival: bool)
    ensures grantedFirst && grantedRival
  {
    var n := new TermNode("self", 0, 2000);
    n.HandleMessage(RaftMessage(VoteRequest, t + 1, "", false), 10, 2000);
    grantedFirst := |n.outbox| == 1;
    n.HandleMessage(RaftMessage(VoteRequest, t + 1, rival, false), 20, 2000);
    grantedRival := |n.outbox| == 2;
  }
}
