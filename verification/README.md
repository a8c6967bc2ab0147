# Snowball consensus: the node, its runs, its network

A Dafny model of the Snowball consensus engine for Hyperledger Sawtooth, and proofs about it. A node
queues the blocks its validator announces, opens one sequence number per block, asks `k` sampled peers
for their colour, keeps a tally of round majorities, a streak counter and a preference, and commits or
fails the block once the streak reaches `beta`.

`dafny verify dfyconfig.toml` verifies everything.

## How the model is built

| file | what it holds |
|---|---|
| `Types.dfy` | colours, phases, packets, settings, and facts on distinct sequences |
| `RoundTally.dfy` | one sequence as a history of round outcomes, and the counters that summarise it |
| `NodeSpec.dfy` | each handler as a function on the value of a node's state |
| `Sampling.dfy`, `Timing.dfy` | the random source and why sampling ends; timers and retry delays |
| `Node.dfy` | the two mutable objects, each method proved to do what its `NodeSpec` function does |
| `NodeRuns.dfy` | events, the history they leave behind, the invariant of every reachable state |
| `NodeTheorems.dfy` | what the invariant means for a node |
| `Handlers.dfy` | each handler call written out on the fields: when it acts and all it changes |
| `Scenarios.dfy`, `Histories.dfy` | runs built on purpose: which round histories nodes decide on, exactly |
| `Network.dfy` | many nodes exchanging messages: safety, agreement and progress |
| `Contagion.dfy` | how wrong votes spread, and for which numbers of wrong voters zero votes stay bounded |
| `Clocks.dfy`, `Timeline.dfy` | when each awaited peer was last asked, and what is stamped for each block |
| `Engine.dfy` | the event loop, proved to produce runs of `NodeRuns` on time |

The chain of results is: the engine loop (`SnowballEngine.Start`) produces a run of events, one handler
call each, and pins what each turn's clock does; `NodeRuns.RunKeepsInv` keeps the invariant over every run; `NodeRuns.ReachableInv` therefore
gives `Inv` in every reachable state, and the theorems that assume `Inv(p)` hold in all of them. In the
network every node's steps are these same events, and any packet ever sent may be delivered at any
time, any number of times or never, so loss, delay, duplication and reordering are all included.

`History` holds auxiliary variables only: arrivals, the votes and outcomes of rounds, decisions, counted
and struck-off peers. No handler reads them.

## What is assumed

The settings parser (src/config.rs:136-156) reads numbers and checks none of the following, so the
theorems state it:

- `1 <= alfa <= k < 2 * alfa` and `beta >= 1` (`Params.Sound`).
- `k` is at most the number of other members, now and after every disconnect.
- Member ids are distinct and contain the node's own id; the peer that disconnects is a member and is
  not the node itself. What the handlers do otherwise is covered by the contracts of
  `OnPeerConnected` and `OnPeerDisconnected`, where `alive == false` stands for the panic.
- The random source hits every index again and again (`Sampling.Fair`; such sources exist). This is
  used only to prove that the sampling loops end; everything else holds for every draw.

Block ids are not assumed distinct or non-empty, and no bound is put on messages.

## What came out differently from the obvious statement

- *Zero votes at an honest node are at most wrong voters plus replacements.* With a fixed list of
  members this holds in all runs exactly if there is no wrong voter or there are at least `k` of them
  (`Contagion.ZeroBoundExactly`). Otherwise a wrong voter answers one honest node, takes over the slots
  of all honest peers that are not ready yet and gives it a KO (`k` minus the number of wrong voters
  replacements); a second honest node then hears a zero from every wrong voter and from the first
  node, with no replacement at all (`Contagion.Spreads`). In any network the bound holds as long as no
  node outside the counted set holds a KO (`Network.ZeroVotesBounded`), which looks after itself while
  fewer than `alfa` slots of every honest round go to wrong voters (`Network.HonestNodesStayOK`).
- *The id guard of the queue is a phase guard.* True exactly unless an idle node's next arrival repeats
  the id before it (`NodeTheorems.GuardIsPhase`). In that case the node never opens anything again
  (`RepeatStalls`); the guard is still safe, since it never lets a second sequence open
  (`NodeRuns.OpensOnlyIdle`).
- *A decision against the final streak takes `2 * beta` majority rounds, and this is tight.* The bound
  holds always, but some node makes such a decision with `2 * beta` majority rounds exactly if
  `beta >= 2` and `k <= 2 * alfa - 2` (`Histories.AgainstExactly`). When `k == 2 * alfa - 1` a full buffer
  always has a majority, so no round is without one; then such a decision needs `beta >= 3`, and
  `2 * beta + 2` majority rounds are the fewest.
- *Closing a round makes one move.* Over all settings, exactly unless both colours reach `alfa` and the
  first of them already closes the sequence (`NodeSpec.OneMoveExactly`); `k < 2 * alfa` is exactly what
  rules two majorities out (`MajorityIsUnique`).
- *The overflow fallback of the backoff is unreachable.* For every base exactly when the maximum is at
  most half the largest representable duration; beyond that a delay can even decrease
  (`Timing.FallbackUnreachableExactly`). The longest duration in 64-bit milliseconds is below that.

## Model

| member | source | states |
|---|---|---|
| RoundTally.ReplayRefines | src/node.rs:393-405 | the four counters kept from round to round equal what the plain history of round outcomes says: tallies count majorities per colour, `last_color` is the last majority's colour, the streak is the longest trailing run of that colour, the preference is the larger tally (on a tie the colour opposite to the last one, OK if there was no majority) |
| RoundTally.StreakDecides | src/node.rs:399-413 | the streak reaches `beta` if and only if the last `beta` outcomes are one colour's majority |
| RoundTally.OpenStep | src/node.rs:399-420 | one more round keeps an undecided history undecided, or makes its first decision with a streak of exactly `beta` |
| RoundTally.DecidedColour | src/node.rs:394-408 | at the first decision the accepted colour is never behind, equals the final streak's colour exactly when that colour is strictly ahead, and otherwise needs `beta >= 2` and at least `2 * beta` majority rounds |
| RoundTally.AgainstTheStreak | src/node.rs:394-408 | for every `beta >= 2` a history with one round without majority and exactly `2 * beta` majority rounds is decided against its final streak |
| RoundTally.AgainstNeedsMore | src/node.rs:392-416 | if every round has a majority, a decision against the final streak needs `beta >= 3` and at least `2 * beta + 2` rounds |
| RoundTally.AgainstByMajorities | src/node.rs:392-416 | for every `beta >= 3` there is such a history with exactly `2 * beta + 2` rounds |
| RoundTally.UnanimousTail | src/node.rs:399-413 | from any undecided history, majorities of one colour decide after exactly the number of rounds its streak is short of `beta` |
| NodeSpec.RoundCloses | src/node.rs:386-421 | with sound settings the loop over both colours folds exactly one outcome into the counters, then either concludes or sends one wave, never both |
| NodeSpec.OneMoveExactly | src/node.rs:386-421 | for any thresholds: one conclusion or one wave per call, if and only if it is not the case that both colours reach `alfa` and the first closes the sequence |
| NodeSpec.MajorityIsUnique | src/node.rs:392 | two majorities in one full buffer are impossible if and only if `k < 2 * alfa` |
| NodeRuns.BootInv | src/state.rs:191-221 | the state a node starts in satisfies the whole invariant |
| NodeRuns.NoPanic | src/node.rs:297-308 | in every state of the invariant no handler unwraps something missing: colours, arrival stamps, own position, the colour conversion |
| NodeRuns.OpensOnlyIdle | src/node.rs:176-185 | a sequence is only opened from Idle although the guard never reads the phase |
| NodeRuns.CompletedRound | src/node.rs:328-332 | the last vote of a round, whatever the event's wave, takes the node and its history to the closed form of a concluded or a continued sequence |
| NodeRuns.CompletesClean | src/node.rs:322-332 | when a round completes the waiting map holds only the last voter and the round absorbed no invalid vote |
| NodeRuns.StepKeepsInv | src/node.rs:176-549 | every handler call keeps slots, tally, queue, colours, decisions, validator calls, chain head, request ledger and members consistent |
| NodeRuns.RunKeepsInv | src/engine.rs:78-108 | the invariant holds after any interleaving of handler calls |
| NodeRuns.ReachableInv | src/engine.rs:47-108 | the invariant holds in every state reachable from startup |
| NodeTheorems.CountersReadHistory | src/node.rs:386-421 | in every state of the invariant the counters are those of the round history; the streak is below `beta` while Listening and equal to it after a decision |
| NodeTheorems.DecidesExactly | src/node.rs:406-420 | a handler call decides if and only if it completes a round after which the last `beta` outcomes agree; it then pops the decided block from the front, makes its one commit or fail call and sends nothing, while a completed round that does not decide sends one fresh wave of `k` requests and calls nothing |
| NodeTheorems.RoundIsRecorded | src/node.rs:389-420 | the last vote of a round records colour c's majority if and only if at least `alfa` of the round's `k` votes, this one included, are for c, and no majority if and only if neither colour has as many |
| NodeTheorems.RoundDecidesExactly | src/node.rs:386-421 | the whole state after a completed round, for the deciding and the continuing case |
| NodeTheorems.EveryDecision | src/node.rs:443-460 | each decision on record was made at the first possible round, from `k` counted votes per round, at least `alfa` of them for the streak's colour in each of the last `beta` rounds, and with the colour its tallies prefer; if that is not the colour of its final streak, `beta` is at least 2 and it took `2 * beta` majority rounds or more, respectively 3 and `2 * beta + 2` where `k == 2 * alfa - 1`, in which case no round was without a majority |
| Histories.HistoriesExactly | src/node.rs:328-421 | for sound settings, the round histories on which reachable nodes decide are exactly those that first decide at their last round, all of whose rounds have a majority where `k == 2 * alfa - 1` |
| Histories.AgainstExactly | src/node.rs:394-413 | for sound settings: when some reachable node decides against its final streak, the fewest majority rounds this takes, that as many suffice, and that `2 * beta` do if and only if `beta >= 2` and `k <= 2 * alfa - 2` |
| Scenarios.HistoryHappens | src/node.rs:310-421 | a node that just opened a sequence can be led by votes through every possible round history up to its first decision |
| NodeTheorems.SlotConservation | src/node.rs:231-239 | in every reachable state: votes counted, peers awaited and invalid votes add up to `k` while Listening, the buffer is never full between steps, nobody is awaited when Idle, the node never awaits itself, and Finishing is never visible |
| NodeTheorems.InvalidVoteStalls | src/node.rs:322-327 | after an awaited vote other than 0 and 1, no continuation of the run ever completes that round |
| NodeTheorems.VoteProgress | src/node.rs:328-332 | each counted vote lowers the pair (rounds missing, votes missing) lexicographically when the completed rounds have one colour, and the last one decides |
| NodeTheorems.OthersKeepProgress | src/node.rs:287-368 | every other handler call leaves that pair as it is |
| NodeTheorems.UnanimousRunDecides | src/node.rs:386-421 | over any run whose completed rounds all have one colour, each counted vote brings the open sequence one vote nearer its decision, and at most `k * beta` of them decide it |
| NodeTheorems.UnanimousRounds | src/node.rs:399-413 | the open sequence decides after between 1 and `beta` further rounds of one colour, and at the first moment possible |
| NodeTheorems.FifoConservation | src/node.rs:215-229 | in every reachable state the decided blocks followed by the queue are the arrivals; each opened block was checked once and in order, each decided one got exactly one commit or fail, the chain head is the last committed block or the startup head, and the sequence number counts the opened blocks |
| NodeTheorems.OpenedBlockIsArrival | src/node.rs:176-213 | the block of the n-th sequence is the n-th arrival |
| NodeTheorems.GuardIsPhase | src/node.rs:183-185 | in every reachable state the front id equals the decision block if and only if Listening, exactly unless an idle node's next arrival repeats its predecessor |
| NodeTheorems.RepeatIsNeverOpened | src/node.rs:183-185 | an arrival that repeats the id before it is never opened, nor is any after it |
| NodeTheorems.RepeatStalls | src/node.rs:183-185 | an idle node in front of such a repeat opens and decides nothing in any continuation |
| NodeTheorems.Finality | src/node.rs:397-435 | over any run decisions are only appended, and the colour of a decided sequence never changes |
| NodeTheorems.ColourMapIsTotal | src/state.rs:195-196 | the colour map covers exactly 0 and the opened sequences, only entry 0 is Undecided, and a decided entry holds its decision's colour |
| NodeTheorems.RepliesAgree | src/node.rs:301-308 | two replies about one decided sequence, at any two moments of a run, carry the same vote, and each carries the responder's own sequence number |
| NodeTheorems.RequestAccounting | src/node.rs:345-362 | requests of a sequence number `k` per round started plus the replacements; per peer each one is awaited, was counted once or was struck off; none goes to the node itself |
| NodeTheorems.OrderPreserved | src/node.rs:259-285 | members that stay keep their relative order through any run, ids stay distinct and the own position stays right |
| Handlers.PollExactly | src/node.rs:176-213 | a poll opens the front if and only if the node is Idle, the front is not the block dealt with last and its number is not below the head's; it fails the front, and does nothing else, if and only if the number is below; otherwise it changes nothing |
| Handlers.NextBlockOpens | src/node.rs:176-213 | over any run, an Idle node whose next block is no repeat opens exactly that block, and does so at the first poll whose head number is not above the block's |
| Handlers.RequestExactly | src/node.rs:295-309 | every request is answered with one packet to its sender: a notice with the requested number if that is ahead, a response with the own number if the sequence is 0, decided or open; nothing for any other number; the vote is 0 in the wrong-vote mode, else that of the decision or of the preference by the round history |
| Handlers.ResponseExactly | src/node.rs:310-333 | an unawaited response changes nothing, an invalid vote gives up the slot, a vote short of the round's last is counted, and the last one leaves exactly the counters, colour, queue, calls and requests that the numbers of zeroes and ones call for |
| Handlers.NoticeExactly | src/node.rs:334-363 | a notice swaps an awaited sender for one other member, asked once, and otherwise changes nothing |
| Handlers.TimeoutsExactly | src/node.rs:528-548 | expired peers are swapped for as many other members, each asked once, and nothing else changes |
| Handlers.ArrivalExactly | src/node.rs:215-229 | an arrival joins the back of the queue and is stamped, and nothing else happens |
| Handlers.MembersExactly | src/node.rs:259-285 | a connect or disconnect changes the members and the own position only, a message of another kind nothing; the disconnected peer is gone and all others stay |
| Network.RunKeepsNetInv | src/engine.rs:78-108 | in every state of every network run all nodes satisfy their invariant and nobody has received an invalid vote |
| Network.ZeroVotesBounded | src/node.rs:138-142 | in any network and for any set holding all nodes that force votes or hold a KO, zero votes of a round never exceed the slots its members were asked for, hence its size plus the replacements, at every node, even with stale responses |
| Contagion.ZeroBoundExactly | src/node.rs:138-142 | for one start configuration and fixed members: at honest nodes the zero votes stay within wrong voters plus replacements in all runs if and only if there is no wrong voter or there are at least `k` of them; which is the case whenever at most one node is honest |
| Contagion.Spreads | src/node.rs:334-362 | otherwise, for any two honest nodes, a run in which the first holds a KO after `k` minus the number of wrong voters replacements and the second, without any, counts one zero more than there are wrong voters |
| Network.HonestNodesStayOK | src/node.rs:138-142 | if fewer than `alfa` slots of each honest round go to wrong voters, nothing is ever KO at an honest node: no colour, no round, no decision |
| Network.WrongVotersAreHarmless | src/node.rs:443-460 | under the same condition every opened sequence is OK, every decision is a commit, and only too-old blocks are failed |
| Network.FewWrongVotersAreHarmless | src/node.rs:345-362 | and in particular if wrong voters plus replacements stay below `alfa` in every honest round |
| Network.HonestNetworkTakesBetaRounds | src/node.rs:386-421 | without wrong voters every decision is a commit after exactly `beta` rounds and `k * beta` counted votes, whatever is lost, late, repeated or replaced |
| Network.HonestNetworkDecides | src/node.rs:328-332 | without wrong voters every vote a Listening node counts in the rest of any network run brings its sequence one vote nearer to its decision, and at most `k * beta` of them decide it |
| Network.Agreement | src/node.rs:287-309 | with one start head and one global order of arrivals, a sequence number names the same block at every node and time, and decided logs are prefix-comparable |
| Network.CommittedChainsAgree | src/node.rs:448-453 | and, if fewer than `alfa` slots of each honest round go to wrong voters, so are the committed chains of honest nodes |
| Network.HonestChainsAgree | src/node.rs:448-453 | which without wrong voters is so however many replacements are drawn |
| Contagion.OneWrongVoterSpreads | src/node.rs:345-362 | the smallest such case: one wrong voter, fewer than `alfa`, makes one honest node fail the block after one replacement and a second one after none |
| Contagion.WrongExactly | src/node.rs:138-142 | with the mode off nobody forces votes; with it on exactly the members at the listed positions do |
| Contagion.ModeOffIsHonest | src/node.rs:138-142 | with the mode off, every node of every run answers with the colour it holds |
| Sampling.FreeMember | src/node.rs:349-359 | while fewer peers are awaited than there are other members, some other member is not awaited |
| Sampling.FreeDraw | src/node.rs:496-511 | a fair source later draws such a member |
| Sampling.UsefulDraw | src/node.rs:501-511 | and later draws an index that enlarges a sample that is not yet full |
| Sampling.SampleExistsExactly | src/node.rs:501-511 | a sample of this size exists if and only if there are that many other members |
| SnowballNodes.SnowballState.constructor | src/state.rs:191-221 | the fields a state starts with |
| SnowballNodes.SnowballState.SwitchPhase | src/state.rs:223-232 | the relative phase switch |
| SnowballNodes.SnowballState.GetOrderIndex | src/state.rs:234-236 | the first position of an id, none where the source panics |
| SnowballNodes.SnowballState.AddToWaitingSet | src/state.rs:238-242 | the peer is awaited with a new timer that is overdue exactly after the configured time from now, everyone else as before |
| SnowballNodes.SnowballState.SetBlockNewTimestamp | src/state.rs:248-251 | the arrival is stamped with the clock, later arrivals of an id replacing earlier ones |
| SnowballNodes.SnowballState.SetBlockCommitTimestamp | src/state.rs:253-259 | an arrival stamp becomes the time since then; the stamp must be there |
| SnowballNodes.SnowballNode.constructor | src/node.rs:35-59 | the head is taken over, the queue is empty, and the first member asks for a block |
| SnowballNodes.SnowballNode.SendPeerMessage | src/node.rs:124-172 | one message, counted, its vote forced to 0 in the wrong-vote mode only |
| SnowballNodes.SnowballNode.SelectNodeSample | src/node.rs:501-511 | ends; `amount` distinct positions of other members, each of them drawn, and every draw on the way was one of these or the own position |
| SnowballNodes.SnowballNode.AddReplacement | src/node.rs:349-359 | ends; exactly one more member is awaited, which is neither this node nor was awaited; just the members drawn on the way have new timers |
| SnowballNodes.SnowballNode.AskReplacement | src/node.rs:349-362 | the new one is sent one request for the current sequence; just the members drawn on the way have new timers |
| SnowballNodes.SnowballNode.PrepareAndForwardPeerRequests | src/node.rs:231-239 | the buffer is cleared, each sampled member is sent one request and awaited with a timer started now, and all other timers are as before |
| SnowballNodes.SnowballNode.OnValuesReady | src/node.rs:386-421 | refines `NodeSpec.ValuesReady` with two fresh samples; its loop runs over both colours; just the members drawn have new timers, and a decided block gets its elapsed time |
| SnowballNodes.SnowballNode.CountMajority | src/node.rs:394-405 | tally, preference, last colour and streak after one majority |
| SnowballNodes.SnowballNode.HandleDecision | src/node.rs:443-492 | commit or fail, chain head, elapsed time of the block, queue, first member's new block and phase after a decision |
| SnowballNodes.SnowballNode.HandleBlockNew | src/node.rs:425-441 | a sequence opens as OK with cleared counters and a fresh wave, whose timers start now |
| SnowballNodes.SnowballNode.HandleQueue | src/node.rs:176-213 | refines `NodeSpec.HandleQueue`, which `Handlers.PollExactly` characterises; just the members drawn have new timers |
| SnowballNodes.SnowballNode.OnBlockNew | src/node.rs:215-229 | the block joins the back of the queue and is stamped with the clock |
| SnowballNodes.SnowballNode.OnPeerConnected | src/node.rs:259-272 | a new peer joins at the end and the own position is found again |
| SnowballNodes.SnowballNode.OnPeerDisconnected | src/node.rs:274-285 | the peer's position is removed and the own one found again, or the lookup that panics; the waiting map is untouched |
| SnowballNodes.SnowballNode.OnRequest | src/node.rs:295-309 | refines `NodeSpec.AnswerRequest`, which `Handlers.RequestExactly` characterises, and reports whether there was a response |
| SnowballNodes.SnowballNode.OnResponse | src/node.rs:310-333 | ignored, struck off only, counted, or counted as the last vote of the round; just the members drawn have new timers |
| SnowballNodes.SnowballNode.OnUnavailable | src/node.rs:334-363 | ignored, or the sender replaced by one other member; just the members drawn have new timers |
| SnowballNodes.SnowballNode.ExpiredPeers | src/node.rs:520-526 | exactly the awaited peers whose timer has run out; the timers themselves stay as they are |
| SnowballNodes.SnowballNode.HandleUnresponsivePeers | src/node.rs:513-549 | exactly the peers asked longer than the timeout ago are struck off and as many other members are asked instead; just the members drawn have new timers |
| SnowballEngine.HandleUpdate | src/engine.rs:148-185 | an update is one event of the node or none, the clock moves on as that event says, and only a shutdown or a closed channel stops the loop |
| SnowballEngine.TakeTurn | src/engine.rs:78-108 | queue, update and, unless the loop stops, timeouts, as a run of these events in this order; the last strikes off exactly the peers still awaited then that were last asked longer than the timeout before the turn's time |
| SnowballEngine.Loop | src/engine.rs:78-108 | all turns up to the first stopping update, each leading on time from one moment to the next, as one run that keeps the invariant |
| SnowballEngine.Start | src/engine.rs:47-113 | what the engine does from startup is a run of the node from its boot state, with timers and stamps as the clock of each turn says |
| Timing.Timeout.CheckExpired | src/timing.rs:57-65 | expired exactly when overdue, and expired for good |
| Timing.Timeout.Start | src/timing.rs:67-70 | overdue exactly once the duration has passed since now |
| Timing.Timeout.Stop | src/timing.rs:72-75 | never overdue |
| Timing.DelayClosedForm | src/timing.rs:88-103 | the n-th sleep is `min(base * 2^n, max)`, or `base` if that exceeds `max`, and the fallback is not taken |
| Timing.DelaysAreBounded | src/timing.rs:94-103 | sleeps never decrease, and never exceed the maximum if and only if the base does not |
| Timing.FallbackUnreachableExactly | src/timing.rs:96-98 | the fallback is unreachable for every base if and only if the maximum is at most half the largest duration; above it a sleep can be shorter than the one before |
| Timing.RetryUntilOk | src/timing.rs:83-107 | returns the first success after sleeping the n-th delay after the n-th failure |

## Left out

- Probabilistic claims (error bounds in `alfa`, `beta` and `k`, metastability): the random source is only a choice of values here, and the proofs hold for every choice.
- Validator service, ZMQ driver, JSON and UTF-8 decoding, nonces, logging and the HTTP post of measurements: commit, fail, check and initialize calls and sent packets are appended to logs. Service calls are taken to succeed; the panics of `expect` on them (src/node.rs:193, 210, 452, 459, 169) are not modelled, and neither are panics on undecodable messages (src/engine.rs:159-160).
- Publishing of blocks (`finalize_block`, `try_publish`, `Ticker`) and `cancel_block`: they depend on the validator's replies and on real time, and change none of the state modelled here.
- Settings parsing and storage: the settings are parameters and the state starts fresh. A restart with stored state loses the block queue, so the invariant is not claimed across one.
- Churn, hang, sleep, duplicate and spurious test modes: only the wrong-vote mode is kept. The network still allows duplicates and delays of any packet.
- Width of 64-bit counters: sequence number, tallies and the message counter are unbounded here. The streak never exceeds `beta` and the buffer never exceeds `k`, which is proved.
- Clocks: a turn of the loop reads the clock once, for the queue, the update and the timeouts alike. In the runs of `NodeRuns` and `Network` any set of awaited peers may time out, which covers every timing. The value of the elapsed time is not shown to be non-negative.
- Logs of the node object (`calls`, `sent`) stand for effects; order between sending a message and a validator call is not kept.
- Liveness beyond unanimous rounds: rounds without a majority, or with changing ones, can go on for ever.
- Progress past a too-old front block or a repeated block id: the code does not drain these, so only safety is claimed there.
- Contagion.ZeroBoundExactly: its runs have no connects and disconnects, because who forces votes goes by position, which a change of members shifts.
