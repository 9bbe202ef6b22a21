# Browser-tab leader election, modelled in Dafny

The repository elects one leader among peers (browser tabs) that share a
best-effort broadcast bus. Each peer runs an election engine that is a
Follower, Candidate or Leader. It keeps a local set of active peers. It sends
`Heartbeat`, `StartElection`, `FinishElection`, `Create` and `Destroy`
messages. It publishes `stateChange` and `destroy` notifications to an
observer registry. The leader is the least active peer id in JavaScript's
default `sort()` order.

This project models three source files:

- `src/raft/raft.ts`, the election engine, is class `Election.RaftNode`. The
  bus is the `outbox` sequence. The notifications are the `events` sequence.
  The clock is a `now` parameter. Each timer is a flag, and its firing is a
  method: `Election` for the resolution timer, `WatchdogTick` for the
  watchdog, `HeartbeatTick` for the heartbeat interval. `Valid()` is the
  invariant every handler keeps:
  - a Leader's `leaderId` is itself;
  - a Candidate has no `leaderId`;
  - the resolution timer is pending only while Candidate.

  Each handler's effect on state, leader, peers, timers, outbox and events is
  written once as a two-state predicate (`HeartbeatEffect`, `CreateEffect`,
  `DestroyEffect`, `CandidacyEffect`). The handler method and `HandleMessage`
  both promise it.
- `src/raft/emitter.ts`, the observer registry, is class
  `Emitter.EventEmitter`. It is a map from event name to a list of callback
  ids. `Emit` returns the callbacks it invokes. The inline emitter in
  `src/raft/new.ts:20-35` has the same `on` and `emit`. For that class the
  model records only the payloads emitted.
- `src/raft/new.ts`, an unused term-and-vote engine, is class
  `TermElection.TermNode`. `Valid()` says three things:
  - within a term, every granted vote except the last went to the empty id;
  - `votedFor` records the last granted vote;
  - Candidates and Leaders hold their own vote, and a Leader holds one more.

  `HandleMessage` says that the term never decreases. It also says when a
  vote is granted.

`NodeOrder` defines the order `sort()` uses on ids (`NoLater`) and proves it
is a total order. It defines the leader rule (`GetLeader`) and proves that
the rule returns the head of every sorted listing of the peers.

The model follows the code where the code and its evident intent differ:

- `becomeCandidate` moves only a Follower. A `StartElection` received by a
  Candidate or a Leader changes nothing; a `Destroy{Leader}` received by one
  only removes the sender from the peer set.
- A Leader that receives any `Heartbeat{Leader}` takes the collision path,
  even one with its own id. So a Leader that hears its own heartbeat steps
  down.
- `destroy` does not cancel the watchdog.
- A `Destroy` naming the peer itself removes it from its own peer set. So
  "a Candidate or Leader always tracks itself" is not an invariant of the
  code. If that empties the peer set, the election has no leader and
  `FinishElection` carries `undefined`. `Message.FinishElection.leader` is therefore an `Option`.
- In `new.ts`, `!this.votedFor` treats a vote for the empty id as no vote
  (`EmptyCandidateIdLeavesVoteOpen`). A term can therefore grant more than
  one vote, but only one of them to a non-empty id.

## Model

| member | source | states |
|---|---|---|
| `NodeOrder.NoLaterReflexive` | src/raft/raft.ts:262-265 | every id sorts no later than itself in the code-unit order of `sort()` |
| `NodeOrder.NoLaterAntisymmetric` | src/raft/raft.ts:262-265 | two ids that each sort no later than the other are the same id |
| `NodeOrder.NoLaterTransitive` | src/raft/raft.ts:262-265 | the sort order is transitive |
| `NodeOrder.NoLaterTotal` | src/raft/raft.ts:262-265 | any two ids are comparable |
| `NodeOrder.NoLaterStrictWhenDistinct` | src/raft/raft.ts:262-265 | of two distinct ids exactly one sorts first, so the leader rule never meets a tie |
| `NodeOrder.GetLeader` | src/raft/raft.ts:262-265 | undefined exactly for an empty peer set; otherwise a member that sorts no later than every member |
| `NodeOrder.LeaderIsHeadOfSorted` | src/raft/raft.ts:264 | the leader is the first element of ANY sorted listing of the peers, so it does not depend on the set's iteration order |
| `NodeOrder.LeaderAfterAdd` | src/raft/raft.ts:262-265 | adding a peer makes it leader iff the set was empty or it sorts no later than the old leader; otherwise the leader is unchanged |
| `Protocol.HeartbeatFor` | src/raft/raft.ts:267-279 | at most one heartbeat; none iff Follower; it carries the sender and its current state |
| `Election.RaftNode.constructor` | src/raft/raft.ts:46-62 | a new peer is a Follower with no leader, no peers, no timers, nothing sent and the construction time as last leader heartbeat |
| `Election.RaftNode.Init` | src/raft/raft.ts:64-68 | sends exactly `Create{self}`; starts the heartbeat interval and the watchdog and subscribes; the election state is unchanged |
| `Election.RaftNode.SendHeartBeat` | src/raft/raft.ts:267-279 | appends `HeartbeatFor(self, state)` and changes nothing else |
| `Election.RaftNode.Resume` | src/raft/raft.ts:143-145 | re-announces liveness with one heartbeat (none for a Follower); state is not touched |
| `Election.RaftNode.HeartbeatTick` | src/raft/raft.ts:306-309 | each interval tick sends one heartbeat while Leader or Candidate, nothing while Follower |
| `Election.RaftNode.SetState` | src/raft/raft.ts:70-77 | setting the current state changes, emits and sends nothing; a real change sets the state, emits one `stateChange` and sends one heartbeat iff the new state is Leader or Candidate |
| `Election.RaftNode.BecomeCandidate` | src/raft/raft.ts:218-231 | from Follower: Candidate, no leader, peers `{self}`, resolution timer armed, sends `StartElection` then `Heartbeat{Candidate}`, emits one `stateChange`; from Candidate or Leader: nothing changes |
| `Election.RaftNode.BecameFollower` | src/raft/raft.ts:155-160 | Follower of the given leader, resolution timer cancelled, heartbeat time refreshed, nothing sent, `stateChange` emitted only on a real change |
| `Election.RaftNode.BecameLeader` | src/raft/raft.ts:162-166 | Leader with itself as leader, resolution timer cancelled; on a real change one `Heartbeat{Leader}` and one `stateChange` |
| `Election.RaftNode.HeartBeatHandler` | src/raft/raft.ts:168-195 | the sender joins the peers; a non-Leader heartbeat changes nothing else; `Heartbeat{Leader}` makes a non-Leader follow the sender with the timer cancelled; a Leader goes through Follower to Candidate with peers `{self}` (collision) |
| `Election.RaftNode.CreateMessageHandler` | src/raft/raft.ts:112-122 | the sender joins the peers; state and leader unchanged; sends a heartbeat if Leader, `StartElection` if Candidate, nothing if Follower |
| `Election.RaftNode.DestroyMessageHandler` | src/raft/raft.ts:147-153 | the sender leaves the peers; only `Destroy{Leader}` received by a Follower starts a candidacy |
| `Election.RaftNode.FinishMessageHandler` | src/raft/raft.ts:104-110 | reports a collision iff the announced leader differs from the locally computed one; nothing changes |
| `Election.RaftNode.HandleMessage` | src/raft/raft.ts:83-102 | dispatches each kind to its handler's effect; `FinishElection` and unknown kinds leave the engine unchanged; the invariant is kept, and so is a live watchdog (once started, always pending) |
| `Election.RaftNode.Election` | src/raft/raft.ts:249-260 | no-op unless Candidate; else with L the least peer: Leader iff L is self, otherwise Follower of L; then `FinishElection{self, L}` after the state change's heartbeat; a live watchdog stays live |
| `Election.RaftNode.WatchdogTick` | src/raft/raft.ts:197-216 | corrected tick: a Leader changes nothing; another peer starts a candidacy iff the leader's heartbeat is older than 500*3 ms; the watchdog stays pending, so a live watchdog stays live for every input, which `WatchdogTickAsWritten` breaks for a Leader |
| `Election.RaftNode.WatchdogTickAsWritten` | src/raft/raft.ts:203-215 | as written: the same decisions, but a tick while Leader leaves no watchdog pending |
| `Election.RaftNode.SendDestroyMessage` | src/raft/raft.ts:124-131 | sends exactly `Destroy{self, state}` |
| `Election.RaftNode.Destroy` | src/raft/raft.ts:134-141 | sends `Destroy{self, state}`, stops the heartbeat and resolution timers, unsubscribes, emits `destroy`; state, leader, peers and watchdog unchanged, so a live watchdog stays live |
| `Election.WatchdogLostAsWritten` | src/raft/raft.ts:203-204 | a concrete run that ends in a started Follower with no watchdog pending |
| `Election.WatchdogKeptCorrected` | src/raft/raft.ts:197-216 | the same run with the corrected tick keeps the watchdog, and a stale leader then makes the peer a Candidate |
| `Emitter.Without` | src/raft/emitter.ts:15 | the filtered list holds every other callback with its multiplicity and no occurrence of the removed one |
| `Emitter.WithoutConcat` | src/raft/emitter.ts:15 | filtering works piecewise over concatenation, so the kept callbacks keep their relative order |
| `Emitter.WithoutAbsent` | src/raft/emitter.ts:13-17 | removing an unregistered callback leaves the list as it was |
| `Emitter.OffAfterOn` | src/raft/emitter.ts:6-17 | `off` after any number of `on` calls for the same callback gives the list `off` alone would give |
| `Emitter.EventEmitter.constructor` | src/raft/emitter.ts:4 | no event has a list |
| `Emitter.EventEmitter.On` | src/raft/emitter.ts:6-11 | appends the callback at the end of the event's list, creating it if absent; one more occurrence each time (no deduplication); other events unchanged |
| `Emitter.EventEmitter.Off` | src/raft/emitter.ts:13-17 | removes every occurrence from an existing list and keeps the rest in order; no-op for an event without a list; other events unchanged |
| `Emitter.EventEmitter.Emit` | src/raft/emitter.ts:19-23 | invokes exactly the event's callbacks, once per entry, in registration order; none for an unregistered event |
| `TermElection.TermNode.constructor` | src/raft/new.ts:47-52 | a Follower in term 0 with no vote, no votes received, and an election timeout `delay` from now |
| `TermElection.TermNode.SetState` | src/raft/new.ts:54-60 | sets the state; emits `stateChange` only on an actual change |
| `TermElection.TermNode.ResetElectionTimeout` | src/raft/new.ts:62-65 | the pending timeout is replaced by one `delay` from now |
| `TermElection.TermNode.StartElection` | src/raft/new.ts:67-76 | Candidate, term plus one, voted for self, votes `{self}`, one `vote_request` with the new term, timeout re-armed |
| `TermElection.TermNode.HandleMessage` | src/raft/new.ts:78-111 | the term never decreases and becomes the maximum of the two terms; a higher term forgets the vote and makes the node a Follower first; a vote is granted iff no vote is held (JS truthiness) and the term is current, with exactly one `vote_response`; a granted response to a Candidate adds the voter and makes it Leader once it has two votes; a heartbeat makes any non-Leader a Follower; the invariant is kept |
| `TermElection.TermNode.AdoptTerm` | src/raft/new.ts:79-84 | a message term above the node's becomes its term, forgets the vote, makes it a Follower (one `stateChange` if it was not) and re-arms the timeout; any other term changes nothing |
| `TermElection.TermNode.HandleVoteRequest` | src/raft/new.ts:87-92 | grants iff no vote is held (null or empty id) and the request's term is not older; a grant records the sender and sends exactly one `vote_response{term, voteGranted: true}` |
| `TermElection.TermNode.HandleVoteResponse` | src/raft/new.ts:94-102 | counted only while Candidate and granted; the voter joins the votes, and the node becomes Leader with heartbeats running as soon as it holds more than one vote |
| `TermElection.TermNode.HandleHeartbeat` | src/raft/new.ts:104-109 | a non-Leader becomes a Follower and postpones its election timeout; a Leader is unchanged |
| `TermElection.TermNode.HeartbeatTick` | src/raft/new.ts:113-118 | each tick sends one heartbeat with the current term, whatever the state |
| `TermElection.VoteHeldUntilNewTerm` | src/raft/new.ts:79-92 | any valid node holding a vote for a non-empty id grants a vote request, to its sender, iff the request carries a higher term; otherwise its vote and its outbox are unchanged |
| `TermElection.OneVotePerTerm` | src/raft/new.ts:87-92 | a run from a fresh node: the first non-empty candidate asking in a new term gets the vote, and a rival asking in the same term is refused |
| `TermElection.EmptyCandidateIdLeavesVoteOpen` | src/raft/new.ts:88 | a vote for the empty id leaves `votedFor` falsy, so a second vote is granted in the same term |

## Left out

- Logging (`src/raft/logger.ts` and every logger call) is foreign I/O. `FinishMessageHandler` returns the collision verdict that the source only logs.
- The transport (`src/raft/broad-cast.ts`, `BroadcastChannel`) is replaced by the outbox, and a delivery is a `HandleMessage` call. `removeHandler` passes a fresh closure, so the source never really unsubscribes. `subscribed` only records that `destroy` asked, and `HandleMessage` does not depend on it.
- Real time and randomness are not modelled. The watchdog's random 2000–3000 ms delay and the resolution timer's 10000 ms delay only decide when the timer methods run. The model keeps pending/not pending for these timers, not deadlines. Two members read the clock once (`now`) where the source calls `Date.now()` twice: `HeartBeatHandler` (src/raft/raft.ts:173, and 159 through `becameFollower`) and `Election` (src/raft/raft.ts:253, and 159 in its Follower branch).
- A second `init` starts a second interval, watchdog chain and bus handler. The model's flags do not count duplicates.
- `RaftNode.on/off/emit` (src/raft/raft.ts:34-44) only forward to the registry. The engine logs the events it publishes, and the registry is modelled on its own.
- Callbacks are opaque ids. Their arguments are not modelled, nor a callback that calls back into the registry or the engine during `emit`.
- An event name that is an `Object.prototype` property (such as `toString`) makes `on`, `off` and `emit` throw in the source (`off` calls `filter` on the inherited function, src/raft/emitter.ts:15). The model treats such names like any other name.
- `NoLater` compares characters by code point. This equals the UTF-16 code-unit order of `sort()` for ids within the Basic Multilingual Plane, which is the case for uuid and base-36 ids. It differs only for characters above U+FFFF.
- The random id of `new.ts` is a constructor parameter. Message terms are integers (non-integer or NaN terms are not modelled). The election-timeout delay is a parameter and is not constrained to the 1500–3000 ms the source draws.
- Convergence of several peers, split-brain resolution, and message loss or reordering are properties of several concurrent instances. They are not properties of one engine.
- `src/raft/factory.ts` (builder defaults), `src/main.ts` (DOM and window wiring) and `vite.config.ts` (tooling) have no election logic.

## Findings

| source | as written | input that shows it | evidently intended | confidence | as-written member | corrected member |
|---|---|---|---|---|---|---|
| src/raft/raft.ts:203-215 | the watchdog callback returns for a Leader before `startElectionTimer()` reschedules it, so the first firing while leading ends the watchdog for good | peer "b" alone wins and leads, its watchdog fires, `Heartbeat{"a", Leader}` then `Heartbeat{"a", Candidate}` arrive, and the resolution timer makes it a Follower of "a" with no watchdog pending: if "a" disappears without a `Destroy`, "b" never stands for election again | a Leader skips the staleness test, but the watchdog is always rescheduled (a recurring watchdog) | medium; not executed | `Election.WatchdogLostAsWritten` | `Election.RaftNode.WatchdogTick` |
