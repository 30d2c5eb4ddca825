# A verified model of augustus

Dafny models of the protocol cores of augustus, with proofs of what those cores are for.
`dafny verify dfyconfig.toml` checks the whole project.

Code that updates state in place is modelled by classes whose methods update the same fields
with the same loops. Each method is proved against a specification function on values, and
the theorems are about those functions, single calls and whole runs of them.

## The components

**PBFT, normal case.** `PbftTypes`, `PbftSpec` (the handlers as functions), `PbftReplica` and
`PbftClientNode` (replica and client as objects). `PbftLocal`, `PbftTokens`, `PbftProposals`
and `PbftStep` hold the invariants of one replica, `PbftSystem` the group and its network,
`PbftGuards` to `PbftAgreement` agreement and prefix execution, `PbftPrimary` the order of
proposals, `PbftBatches` how requests become batches, `PbftVotes` that no vote is lost,
`PbftProgress` that no quorum is overdue, `PbftDuties` that no replica is silent, `PbftStops` where
one stops, `PbftClient` and `PbftOwnResult` the results of a client, `PbftDestinations` where its
requests go. `PbftMacros`, `PbftStages`, `PbftCounterexamples`, `PbftLateVote`,
`PbftForeignRequest` and `PbftSmallGroup` build concrete runs.

- A run is any list of actions: a correct replica handles an event, or a faulty party injects a
  message. Messages are never removed, so they can be lost, repeated and reordered at will. A
  faulty party injects anything but new values with the signature of a correct replica. What a
  correct replica signed can be sent on in other company: requests are unsigned, the signature
  of a pre-prepare does not cover the requests beside it, and a prepare passes for a commit and
  a commit for a prepare, because the two have the same fields (src/pbft.rs:28-42) and what is
  hashed and signed has no mark of the type (src/crypto.rs:81-92, 210-258).
- Digests are injective. A verification that fails is never answered, as in the code. The crypto
  worker is a bag of unanswered tasks, answered in any order.
- `view_num` never changes (higher views are unimplemented), so all theorems are about one view.
  A replica that reaches an unimplemented case or a failed assertion stops.
- Agreement does not hold of the code as it stands, for two reasons, each shown by a run of four
  replicas. (1) src/pbft.rs:570 tests that a slot exists; the comment below it reads this as
  "has a pre-prepare", but `resize_with` also creates empty slots. (2) The digest of a vote is
  compared when it is submitted and when the pre-prepare arrives, but not when a verified vote is
  counted. For each the exact condition on a single call is proved in both directions, and
  agreement, prefix execution and the result of a client are proved for all runs whose calls meet
  both conditions. The conditions speak of the state before the call only. All other theorems
  are about the code as it stands.
- The theorems on runs ask for `n - f >= 2`, which only a group of one replica misses. The
  assertion at line 575 alone needs `n - f >= 3`: with two votes for a quorum a faulty primary
  makes it fail (`PbftSmallGroup`). Three follow from `n >= 3f + 1` when f >= 1.
- Requests are unsigned and replies go to the address a request names, so a client can be handed
  the result of somebody else's request. It gets the result of its own operation in every run in
  which nobody else voices a request with that number and its id or its address; "voiced" means
  sent by anybody or proposed by a faulty primary. For every number and every single request that
  breaks this rule there is a run of four replicas, otherwise within the rule, in which the
  client hands up the result of that request (`PbftForeignRequest`). A run that breaks the rule
  need not go wrong, since a replica may ignore the foreign request, so the rule is exact for
  what can be promised of all runs, not for a single one.

- A client believes the view number of the reply that completes an operation (src/pbft.rs:178),
  and that reply may come from a faulty replica. So a request goes to the primary exactly as long
  as those replies name view 0, or a multiple of n; a run shows a client misled to a backup, which
  stops (`PbftDestinations`).

**Unreplicated protocol and its checker state.** `UnreplicatedTypes`, `LinearTimer`, `CloseLoop`,
`UnreplicatedSpec`, with the objects in `UnreplicatedNodes` and `UnreplicatedCheck`.
`UnreplicatedState` and `UnreplicatedRuns` hold the invariant of reachable states and the round
trip of dry states; `UnreplicatedHistory` and `Linearizability` the histories, `KvStore` the
application of the examples. A workload is a plain or a checking iterator, bare or inside the
recording one; its next op depends on how many it has given. The dry state of a bare workload is
empty, so its invocations are empty here; the attachment keeps the op all the same, unread.

**Breadth-first search.** `SearchSpec`, `SearchProof`, `Search`. One worker, any pop order within
a level, and a budget of expanded states for the time limit, which runs out only when more dry
states than that are to be expanded. The table of discovered states holds
the initial state, which is never checked itself, so the claims are about states whose dry state
differs from the initial one. `UnreplicatedSearch` proves what the search assumes of dry states
for the unreplicated protocol.

**Kademlia.** `KademliaIds` (identifiers as sequences of 256 bits, bit i worth 2^i),
`KademliaBuckets`, `KademliaLookup`, `KademliaTable`, `KademliaQuery`, `KademliaOutcome`,
`KademliaRuns`, `KademliaMeasure`, `KademliaSending` (who is asked), `KademliaPeer`. Replies are
arbitrary, so a run covers peers that lie about the records they know. The order of buckets that the source copies without an explanation is
explained and proved. The check for empty results at src/kademlia.rs:406 can never fire because
the origin is always found; a query on a table without another peer contacts nobody and stays.

**Routing by identifier.** `KademliaControl`, `KademliaConservation` (no message is lost),
`KademliaDelivery` (who gets it), `KademliaMailer`.

**Small cores.** `OrderedTimer` and `InsertWatermark`.

## Model

| member | source | states |
|---|---|---|
| PbftReplica.Replica.OnRequest | src/pbft.rs:315-342 | A stale request is ignored, the latest one answered from the cache, a fresh one noted and queued by the primary, and a batch closed while fewer than one slot is in flight; all fields end as the specification of the handler says |
| PbftReplica.Replica.CloseBatch | src/pbft.rs:344-364 | Takes up to 100 queued requests, in order, as the next slot and hands them to be signed; the two assertions become a stop |
| PbftReplica.Replica.OnSignedPrePrepare | src/pbft.rs:366-389 | The log grows to the slot, which takes its pre-prepare and requests, and the pre-prepare is broadcast; a second pre-prepare of one slot fails the assertion |
| PbftReplica.Replica.OnRecvPrePrepare | src/pbft.rs:391-422 | A pre-prepare of the current view for a slot that has none is verified, a higher view is unimplemented, anything else is ignored |
| PbftReplica.Replica.OnVerifiedPrePrepare | src/pbft.rs:424-462 | The slot takes the pre-prepare unless it has one, a prepare is signed, and early votes for other digests are filtered from both tables |
| PbftReplica.Replica.OnSignedPrepare | src/pbft.rs:464-479 | The own prepare is broadcast and counted while the round is open |
| PbftReplica.Replica.OnRecvPrepare | src/pbft.rs:481-498 | A prepare waits behind an unanswered verification of its slot, else it is submitted and marks the slot as busy |
| PbftReplica.Replica.SubmitPrepare | src/pbft.rs:500-527 | Submits exactly a prepare of this view for an open slot whose digest, if known, it names; says whether it did |
| PbftReplica.Replica.OnVerifiedPrepare | src/pbft.rs:529-555 | Counts the prepare, then pops waiting prepares, last first, until one is submitted or none is left and the mark goes |
| PbftReplica.Replica.InsertPrepare | src/pbft.rs:557-592 | Counts the prepare per replica; with n - f - 1 of them the slot is prepared with exactly that table and a commit is signed |
| PbftReplica.Replica.OnSignedCommit | src/pbft.rs:595-610 | The own commit is broadcast and counted while the round is open |
| PbftReplica.Replica.OnRecvCommit | src/pbft.rs:612-629 | As for prepares, with the commit tables |
| PbftReplica.Replica.SubmitCommit | src/pbft.rs:631-658 | As for prepares, with the commit tables |
| PbftReplica.Replica.OnVerifiedCommit | src/pbft.rs:660-686 | As for prepares, with the commit tables |
| PbftReplica.Replica.InsertCommit | src/pbft.rs:688-714 | Counts the commit; with n - f of them a prepared slot is committed, and execution and batch closing follow |
| PbftReplica.Replica.ExecuteCommitted | src/pbft.rs:715-741 | The execution loop goes through the committed slots in order up to the first one that is not committed |
| PbftReplica.Replica.ExecuteBatch | src/pbft.rs:721-740 | The loop over a batch executes its requests in order, caches the newest reply per client and answers each request |
| PbftReplica.Replica.CloseBatches | src/pbft.rs:742-748 | The closing loop closes batches while the primary has requests and at most one slot is in flight |
| PbftReplica.Replica.Handle | src/pbft.rs:315-752 | Every event of a replica changes its fields as the specification function of that event does |
| PbftClientNode.Client.OnInvoke | src/pbft.rs:131-147 | A second invocation is refused and changes nothing; else a numbered request goes to the primary of the view with a resend timer |
| PbftClientNode.Client.OnReply | src/pbft.rs:158-186 | Counts replies per replica; the count of f + 1 equal results ends the invocation, unsets its timer and hands the result up |
| PbftSystem.NoAssertionFails | src/pbft.rs:570-575 | In no run, with any faulty replicas and any loss, repetition, order and relabelling of messages, does an assertion of a correct replica fail: those at lines 346, 347, 382 and 704 when n - f >= 2, the one at 575 when n - f >= 3 |
| PbftSmallGroup.TwoVotesAreTooFew | src/pbft.rs:568-575 | With n - f = 2 a faulty primary makes the assertion on finished prepares fail, so that one needs the bound of three |
| PbftSystem.OneVerificationAtATime | src/pbft.rs:481-555 | In every run of the two-step form, a slot has a waiting entry exactly when one submitted verification is unanswered, and then only one; at most one late vote can reach a finished slot |
| PbftSystem.RunReliable | src/pbft.rs:464-714 | Every run keeps the local invariants of correct replicas, and every value in the network with the signature of a correct replica was sent by it, a vote possibly as one of the other kind |
| PbftStep.LocalStep | src/pbft.rs:366-714 | Every handler keeps the shape of the log, the one-verification tokens and the proposals of its own signature |
| PbftGuards.SlotSoundExact | src/pbft.rs:568-581 | An event keeps prepared slots having a pre-prepare if and only if it does not finish the prepares of a slot without one |
| PbftGuards.DigestSoundExact | src/pbft.rs:529-539 | An event at a backup keeps votes and counted commits bound to the digest of the slot if and only if the verified vote it counts names that digest |
| PbftCounterexamples.SlotCheckIsNeeded | src/pbft.rs:570-573 | Four replicas, a correct primary, every counted digest right: without the missing slot check two correct replicas execute different batches in slot 1 |
| PbftLateVote.DigestCheckIsNeeded | src/pbft.rs:454-459 | Four replicas, a faulty primary, every slot prepared after its pre-prepare: without the missing digest check two correct replicas execute different batches in slot 1 |
| PbftAgreement.QuorumsMeet | src/pbft.rs:697 | Two commit quorums of n - f replicas share a correct one when n >= 3f + 1 |
| PbftAgreement.Agreement | src/pbft.rs:689-714 | In every run in which the two conditions hold at each step, correct replicas that executed a slot executed the same batch in it |
| PbftAgreement.PrefixExecution | src/pbft.rs:715-742 | The application of a correct replica is the reference execution of its history, and of two correct replicas one history is a prefix of the other |
| PbftAgreement.HistoryOnlyGrows | src/pbft.rs:715-719 | What a correct replica has executed never changes along a run, it only grows |
| PbftExecution.LogOnlyGrows | src/pbft.rs:424-462 | A handler neither replaces a pre-prepare or its requests nor shortens the log |
| PbftPrimary.CorrectPrimaryIsFifo | src/pbft.rs:315-363 | In every run of the code as it stands, the accepted requests of a correct primary are its batches 1 to op_num, each of at most 100, followed by its queue; numbers rise per client; op_num <= commit_num + 2; a queue waits only while a slot is in flight |
| PbftPrimary.NoRequestTwice | src/pbft.rs:321-336 | No pair of client and sequence number is proposed twice |
| PbftClient.ReplyCountsExactly | src/pbft.rs:170-185 | No result has more than f votes between events, so testing for exactly f + 1 never misses and unsetting the timer never fails |
| PbftClient.ClientResult | src/pbft.rs:158-186 | A result handed up was computed by a correct replica at a position of its history holding a request with the number of the invocation that names the address of the client or is repeated, id and number, by a request that does; every correct replica with that position has the same request and result there |
| PbftOwnResult.ExecutedIsVoiced | src/pbft.rs:315-335 | A correct replica executes only requests that somebody sent or that a faulty primary put into a pre-prepare |
| PbftOwnResult.OwnResult | src/pbft.rs:131-186 | The k-th result handed up is that of executing the k-th request the client itself sent, provided nobody else voices a request with its number and its id or address |
| PbftForeignRequest.ForeignRequestWins | src/pbft.rs:321-331 | For every number and every single foreign request with that number and the id or address of the client, a run with both checks in which nothing else foreign is voiced and the client hands up the result of the foreign request for its own operation |
| PbftVotes.VotesConserved | src/pbft.rs:481-555 | In every run, each vote of this view that a running replica was handed is waiting, is the one being verified, or its voter is counted in the table of the slot; else the slot is finished or its pre-prepare names another digest. Votes are never lost otherwise |
| PbftVotes.WaitingVoteJoins | src/pbft.rs:487-490 | A vote that meets an unanswered verification of its slot is added, once, to the votes waiting there, and nothing else changes |
| PbftVotes.VerifiedVoteIsCounted | src/pbft.rs:557-592 | A verified vote ends up in the table of its slot, or in the log if it completed the quorum |
| PbftVotes.EarlyVotesFiltered | src/pbft.rs:453-459 | When a pre-prepare is accepted, exactly the early votes for its digest stay in the two tables of the slot |
| PbftVotes.WaitingVotesInOrder | src/pbft.rs:541-555 | After a verified vote, the waiting votes are taken from the end up to the first one worth verifying, which is then verified; all before it keep waiting in order |
| PbftProgress.QuorumIsPrepared | src/pbft.rs:557-592 | In every run, a backup that has the pre-prepare of a slot and was handed enough honest prepares for it has prepared the slot, as soon as it owes it no verification and no signature |
| PbftProgress.QuorumIsCommitted | src/pbft.rs:688-714 | The same for a prepared slot and n - f commits |
| PbftProgress.CommittedIsExecuted | src/pbft.rs:715-719 | In every run, a running replica has executed as far as it has committed without a gap |
| PbftProgress.QuorumsAreQuorums | src/pbft.rs:558-714 | In every run, a prepared slot holds n - f - 1 prepares or more and a committed one n - f commits or more, each signed by the replica it is counted for |
| PbftProgress.OwnVoteIsCounted | src/pbft.rs:464-479 | The own vote, once signed, is broadcast, and counted unless its round is over |
| PbftDuties.PrePreparesConsidered | src/pbft.rs:391-422 | In every run, each pre-prepare of the view that a correct replica was handed is being verified or its slot is taken |
| PbftDuties.KnownSlotsAreVoiced | src/pbft.rs:366-462 | In every run, for each slot with a pre-prepare the primary has sent it with its batch, and a backup has sent the prepare for its digest or waits for the signature |
| PbftDuties.PreparedSlotsAreVoiced | src/pbft.rs:577-592 | In every run, for each prepared slot the commit, with the digest of one of its prepares, was sent or waits for its signature |
| PbftDestinations.InvokeAsksPrimary | src/pbft.rs:132-144 | An accepted invocation sends one request, with the op and the next number, to a replica of the group, which is the primary of the view of the client |
| PbftDestinations.RequestsFollowReplies | src/pbft.rs:143-178 | In every run the first request goes to replica 0, and each later one to the primary of the view named by the reply that completed the operation before; it is replica 0 if and only if that view is a multiple of n |
| PbftDestinations.RequestsGoToPrimary | src/pbft.rs:143-178 | While no completing reply names another view, every request goes to replica 0, which is the primary |
| PbftDestinations.CorrectRepliesNameViewZero | src/pbft.rs:724-729 | In every run, the replies of a correct replica name the view of the group |
| PbftDestinations.MisledClient | src/pbft.rs:178 | Four replicas: one faulty reply that completes an operation names view 1, the next request goes to replica 1, a backup, and it stops at the unimplemented forwarding |
| PbftBatches.BatchesTakeAll | src/pbft.rs:344-364 | At every event, what a correct primary proposes is the front of its queue in batches of 100, only the last one smaller and then nothing is left, each handed to be signed under the next number; after executing, two slots are in flight or nothing waits |
| PbftBatches.AcceptedIffNewer | src/pbft.rs:321-336 | In every run, a correct primary accepts a request if and only if it has accepted none of the same client with that number or a higher one |
| PbftAgreement.ExecutedIsAnswered | src/pbft.rs:721-740 | Every request a correct replica executed was answered at its address with its number and the result of executing it in its place, and the cache holds that reply unless it knows a higher number of the client |
| PbftStops.KnownRequests | src/pbft.rs:321-330 | The latest request of a client is answered again at the address it comes from, as soon as there is an answer; an older one changes nothing |
| PbftStops.StopsAtMessage | src/pbft.rs:315-422 | A replica stops exactly at a new request when it is not primary and at a pre-prepare or a vote of a later view, unless the vote has to wait for another one |
| PbftStops.StopsAtAnswer | src/pbft.rs:631-686 | Of the answers of the worker, only a verified vote can make a replica stop as unimplemented, and then a vote of a later view was waiting behind it |
| UnreplicatedNodes.Timer.Set | src/event/linear.rs:44-49 | A new id, one higher than the last, goes to the end with its period |
| UnreplicatedNodes.Timer.Unset | src/event/linear.rs:27-34 | Takes out the first timer with this id, or fails when there is none |
| UnreplicatedNodes.Timer.StepTimer | src/event/linear.rs:36-40 | Moves the fired timer to the end |
| UnreplicatedNodes.Timer.Events | src/event/linear.rs:12-25 | The loop returns the ids of the longest run of timers from the front whose periods strictly decrease |
| LinearTimer.TimersKept | src/event/linear.rs:27-54 | Whatever fires, the live timers are exactly those set and not unset, with distinct ids |
| LinearTimer.FiredGoesLast | src/event/linear.rs:27-40 | A timer that fires moves behind the others, which keep their order; one that is unset leaves them in it |
| UnreplicatedNodes.CloseLoop.Init | src/workload.rs:303-315 | The first op is invoked and attached; no op or a second launch is an error |
| UnreplicatedNodes.CloseLoop.OnInvokeOk | src/workload.rs:317-333 | The result goes to the workload, then the next op is invoked or the loop is done |
| UnreplicatedNodes.CloseLoop.NextOp | src/workload.rs:113-227 | The workload gives its next op, and notes the result to expect if it checks results, whether or not it records |
| UnreplicatedNodes.CloseLoop.OnResult | src/workload.rs:123-241 | Records op and result if it is a recording workload, and fails on a result other than the expected one if it is a checking one |
| UnreplicatedNodes.Client.OnInvoke | src/unreplicated.rs:81-93 | Numbers the op, sets the resend timer and sends the request; a second invocation is an error |
| UnreplicatedNodes.Client.OnTimer | src/unreplicated.rs:96-101 | Sends the request again; any other timer panics |
| UnreplicatedNodes.Client.OnReply | src/unreplicated.rs:104-114 | Only the reply to the open invocation is accepted: its timer is unset and the result handed up |
| UnreplicatedNodes.Replica.OnRequest | src/unreplicated.rs:174-193 | A fresh request is executed and its reply cached, the latest one answered from the cache, an older one ignored |
| UnreplicatedCheck.State.Step | src/unreplicated.rs:557-584 | One chosen event and the flush, with every error the code can return |
| UnreplicatedCheck.State.Flush | src/unreplicated.rs:594-611 | Moves every buffer to the network before each client runs its loop until nothing is left |
| UnreplicatedCheck.State.Launch | src/unreplicated.rs:587-592 | Every loop invokes its first op, then the flush |
| UnreplicatedCheck.State.Events | src/unreplicated.rs:539-555 | The loops offer all messages and the timers of every client |
| UnreplicatedCheck.ClientState.Rerun | src/unreplicated.rs:599-608 | The rerun loop passes invocations and results to and fro until both buffers are empty |
| UnreplicatedRuns.LaunchShape | src/unreplicated.rs:587-611 | The launch succeeds exactly when every workload has an op, and leaves every first request in the buffer of its client |
| UnreplicatedRuns.StepKeepsOk | src/unreplicated.rs:557-611 | A step on an offered event keeps the invariant of reachable states and fails if and only if it delivers an awaited reply that a checking workload did not expect |
| UnreplicatedRuns.TimerAndRequest | src/unreplicated.rs:594-611 | In every reachable state a client has one live timer, with its sequence number as id, exactly while an invocation is open, and its request is in the network or once in its buffer |
| UnreplicatedRuns.DryDeterminesState | src/unreplicated.rs:433-479 | Rehydrating the dry state of a reachable state gives back the whole state: timers, buffers, loops and workload positions, with recording workloads and with bare ones, whose dry form is empty |
| UnreplicatedRuns.EqualDryEqualFuture | src/unreplicated.rs:292-299 | Reachable states with equal dry states offer the same events and take the same steps, whether workloads record or not |
| UnreplicatedHistory.RunHistory | src/unreplicated.rs:174-194 | Every run keeps the history, the reply cache, the recorded invocations and the replies in the network in step |
| Linearizability.Linearizable | src/unreplicated.rs:81-194 | For any clients and any run, the executions are a sequential execution; the moments of a client are invoke 1, execute 1, return 1, invoke 2 and so on; what a recording workload keeps are those ops with the results executed |
| Linearizability.ExecutedOnce | src/unreplicated.rs:180-193 | No operation is executed twice, however often its request is delivered |
| Linearizability.ExecutedInBetween | src/unreplicated.rs:104-194 | Every returned result was executed between its invoke and its return |
| Linearizability.RealTimeOrder | src/unreplicated.rs:81-194 | An operation invoked after another returned is executed after it |
| Linearizability.AppendLinearizable | examples/check-unreplicated.rs:114-140 | When every planned op appends to one text, whatever else the application can do: each recorded result ends with what its op appended and of two results the shorter is a prefix of the other |
| UnreplicatedReplies.AnswersOnce | src/unreplicated.rs:174-193 | A request that is not outdated is answered by exactly one message, to the address it names, with its number, and that reply is then in the cache; an outdated one changes nothing |
| UnreplicatedReplies.ExecutedIsAnswered | src/unreplicated.rs:182-193 | In every run, whatever was executed was answered: the reply with its number and result is in the network, addressed to its client |
| UnreplicatedReplies.RepeatedIsAnswered | src/unreplicated.rs:180-186 | In every run, a repetition of the last request of a client is answered with the result it was executed with |
| UnreplicatedReplies.OperationCanReturn | src/unreplicated.rs:96-114 | In every reachable state an open operation can return: ringing its timer and delivering its request puts a reply into the network that the client accepts, unless it checks results and expects another one |
| UnreplicatedReplies.RingingSendsAgain | src/unreplicated.rs:96-101 | The timer of the open invocation sends its request once more and does nothing else; any other timer is a failed assertion |
| UnreplicatedReplies.InvokingSends | src/unreplicated.rs:81-93 | An accepted invocation sets a timer of one second and sends one request, the same that the timer would send again |
| KvStore.AppendCheckPasses | examples/check-unreplicated.rs:114-140 | The invariant of the example cannot fail on the key-value store with any clients that append to one key: recorded ops and results are appends, each result ends with its own text, and shorter results are prefixes of longer ones |
| KvStore.AppendsToOneKey | src/app/kvstore.rs:37-61 | An Append to a key extends the text under that key and returns the whole of it, a missing key counting as an empty text |
| KvChecks.HoldsWritten | src/app/kvstore.rs:37-61 | After any ops the store holds of each key the value of its last Put followed by all that was appended since, and nothing exactly if the key was never written |
| KvChecks.ExecutedAsForeseen | examples/check-unreplicated.rs:65-75 | In every run of clients that keep to keys of their own, whatever op is executed returns what it would on a store on which only the earlier ops of its client were played |
| KvChecks.OwnKeysPass | examples/check-unreplicated.rs:19-99 | Clients that keep to keys of their own and expect what their own ops would return pass every check: no event offered in any reachable state fails |
| PutGet.InfinitePutGet.Next | src/app/kvstore.rs:101-129 | Puts a drawn text under a drawn key and remembers it, or gets a drawn key and expects what is remembered; the random source is a parameter |
| PutGet.ValuesAreHeld | src/app/kvstore.rs:98-130 | After any number of its ops, a store of its own holds under the five keys exactly the five remembered values, the empty text standing for a key never put |
| PutGet.PutGetPasses | examples/check-unreplicated.rs:170-197 | Any number of endless put-get clients in different namespaces, whatever they draw, pass every check in every reachable state |
| Search.BreadthFirst | src/search.rs:331-431 | Exhausting the space means that nothing is wrong within depth and pruning; a violation, failure or goal comes with a real and shortest run; it times out only when more dry states than the budget are to be expanded; any state of a level may be popped next; the depth assertion never fails |
| Search.Expand | src/search.rs:355-402 | All events of a state are tried; without a result the state is expanded and the frontier kept |
| Search.TryEvent | src/search.rs:361-398 | One event: a failing step, a violation or a goal is reported correctly, and a new state is pushed unless it is pruned or at the depth limit |
| Search.TraceBack | src/search.rs:314-323 | Follows the table back to the initial state and terminates because depth falls |
| SearchProof.FoundInTime | src/search.rs:354-429 | When a level is finished, every state a followed run of at most that length reaches was found at no greater depth |
| SearchProof.NothingOpen | src/search.rs:419-422 | With nothing left to expand, every state reached by a followed run satisfies the invariant and is no goal, and no step from an expanded state fails |
| SearchProof.TraceIsReal | src/search.rs:314-323 | A trace is a run from the initial state with the dry states it names, as long as the recorded depth |
| SearchProof.FoundIsShortest | src/search.rs:371-382 | No followed run reaches the dry state of a found state in fewer steps |
| UnreplicatedSearch.DryStatesAreCongruent | src/unreplicated.rs:292-299 | What the search assumes of dry states holds for the unreplicated protocol, whatever is checked and whether workloads record or not |
| UnreplicatedSearch.Check | examples/check-unreplicated.rs:47-62 | Searching a launched state, with bare checking workloads as here or with recording ones, is complete and right about what it finds |
| KademliaIds.DistanceInversion | src/kademlia.rs:35-43 | The distance to the identifier at a distance is that distance |
| KademliaIds.HighestBitDecides | src/kademlia.rs:35-37 | Distances compare as numbers by the highest bit in which they differ |
| KademliaIds.Index | src/kademlia.rs:109-116 | The index is the highest set bit of the distance |
| KademliaIds.IndexUnique | src/kademlia.rs:109-116 | No other index has that bit set and all above it clear |
| KademliaIds.RandomDistanceIndex | src/kademlia.rs:714-723 | Every distance from 2^i up to below 2^(i+1) leads to a target in bucket i |
| KademliaTable.Buckets.Insert | src/kademlia.rs:118-155 | Moves or appends the record to the records of its bucket, else to the spares, shifting only a full cache; refuses the origin |
| KademliaTable.Buckets.Remove | src/kademlia.rs:158-171 | Takes a record out and puts the newest spare, or the record itself in front, in its place |
| KademliaTable.Buckets.FindClosest | src/kademlia.rs:173-205 | The lookup loop returns the nearest count records of the whole table and the origin, in strictly increasing distance |
| KademliaBuckets.InsertKeepsBucket | src/kademlia.rs:118-155 | An insert keeps a bucket in order, never loses the id of a record, and says where the new record ends up |
| KademliaBuckets.RemoveKeepsBucket | src/kademlia.rs:158-171 | A removal never shrinks a bucket; the id is gone exactly when a spare took its place |
| KademliaBuckets.TableAlwaysOk | src/kademlia.rs:118-171 | After any inserts and removes: each record in the bucket of its highest differing bit, ids distinct, at most 20 and 20, spares only beside full records |
| KademliaBuckets.OneBucketEach | src/kademlia.rs:118-171 | A table holds an id at most once |
| KademliaBuckets.InsertKeepsOrder | src/kademlia.rs:118-146 | An insert moves its record to the end and keeps all others in order; the oldest spare goes when there are 20 |
| KademliaBuckets.RemoveKeepsOrder | src/kademlia.rs:148-171 | A remove keeps the other records in order, with the newest spare at the end or the record itself in front |
| KademliaLookup.EarlierIsNearer | src/kademlia.rs:181-187 | Why the bucket order of the lookup works: every peer of a bucket visited earlier is nearer than every peer of a later one |
| KademliaLookup.OrderInOrder | src/kademlia.rs:183-187 | The order visits every bucket once, set bits downwards and then clear bits upwards |
| KademliaLookup.LookupExact | src/kademlia.rs:173-205 | The lookup is exact for every table, target and count, so both assertions hold |
| KademliaLookup.NearestUnique | src/kademlia.rs:173-205 | There is only one list of the nearest count records |
| KademliaPeer.Peer.OnStart | src/kademlia.rs:395-436 | A query contacts the first 30 found peers other than the origin, with a timer each; a concurrent query is an error |
| KademliaPeer.Peer.OnReply | src/kademlia.rs:548-643 | Inserts the sender, and for an awaited reply merges the records and goes on with the query |
| KademliaPeer.Peer.Resume | src/kademlia.rs:588-643 | Converges, halts or contacts more peers, with the result handed up |
| KademliaPeer.Peer.Fill | src/kademlia.rs:607-627 | The loop contacts the nearest known peers not contacted until 30 are being contacted or none is left |
| KademliaPeer.Peer.Merge | src/kademlia.rs:571-583 | The loop merges records by distance and fails on two records with one distance |
| KademliaPeer.Peer.OnExpire | src/kademlia.rs:439-459 | A timeout is an error; a timer whose query is gone would panic |
| KademliaPeer.Peer.OnAsked | src/kademlia.rs:485-508 | The asking peer is inserted and answered with the records nearest its target |
| KademliaOutcome.MergeAllOk | src/kademlia.rs:571-583 | Merging keeps strictly increasing distances, adds exactly the new records, and fails if and only if two different records share an id |
| KademliaOutcome.ExactOutcome | src/kademlia.rs:244-255 | Converge if and only if the nearest count known records are contacted, Halted if and only if all known records are contacted and fewer than count are known; then what is handed up is exactly the nearest known records |
| KademliaRuns.ReplyOutcome | src/kademlia.rs:591-643 | The same for every awaited reply of a run, with the records known after it; the query lives on exactly on Progress, contacting someone |
| KademliaRuns.ReplyOk | src/kademlia.rs:548-587 | When a reply fails, and that an awaited one adds exactly its sender to the contacted peers |
| KademliaRuns.StartOk | src/kademlia.rs:395-436 | A query starts unless its target has one, and contacts nobody exactly when the table holds nobody else |
| KademliaRuns.ExpireOk | src/kademlia.rs:445 | A live timer finds its query, so the lookup never panics |
| KademliaRuns.AskedOk | src/kademlia.rs:485-508 | The answer to a peer is the exact lookup in the table that has it |
| KademliaRuns.QueryRuns | src/kademlia.rs:395-643 | In every run records strictly ascend, contacted and contacting are disjoint, at most 30 are being contacted, and live timers are exactly the contacts of live queries |
| KademliaRuns.ReplyHandsUp | src/kademlia.rs:596-643 | Each awaited reply hands up one result, and its records are the contacted ones among the known, nearest first, at most count, whatever the status |
| KademliaSending.StartAsks | src/kademlia.rs:402-435 | A start sends exactly one message to each peer it begins to contact, with target and count, nearest first and at most 30; nobody nearer is passed over |
| KademliaSending.ReplyAsks | src/kademlia.rs:616-641 | An awaited reply has exactly one message sent to each peer newly contacted, and nothing else; none that is passed over is nearer, and nobody is passed over while fewer than 30 are being contacted |
| KademliaSending.EveryContactWasAsked | src/kademlia.rs:395-643 | In every run, each peer a live query is contacting was sent a message with the target and count of the query |
| KademliaSending.SenderIsStored | src/kademlia.rs:548-556 | After a verified reply or question that is handled, its sender is in the routing table, among the records or the spares of a bucket; a start leaves the table alone |
| KademliaMeasure.RepliesBounded | src/kademlia.rs:548-587 | The replies a query waited for are fewer than the peers named by the routing table or any event, in every run; while it lives they are one less than its contacted peers |
| KademliaMailer.Mailer.OnUnicast | src/net/kademlia.rs:95-122 | Sent at once to a cached address, else joins a query of the target or starts one |
| KademliaMailer.Mailer.OnMulticast | src/net/kademlia.rs:127-164 | Joins a query that asks for enough, is postponed behind another one, or starts one |
| KademliaMailer.Mailer.OnResult | src/net/kademlia.rs:180-242 | Resolves unicasts, then drops, delivers or restarts what waited for the target; keeps the invariant and the total of messages, and never fails |
| KademliaConservation.OnResultOk | src/net/kademlia.rs:186-242 | No result fails: no timer is missing and the assertions at lines 203, 226 and 227 hold |
| KademliaConservation.MessagesConserved | src/net/kademlia.rs:95-242 | In every run the messages held, pending, sent and dropped are together exactly those given |
| KademliaConservation.FoundPeerGetsItsMail | src/net/kademlia.rs:187-197 | A found peer is sent all that waited for it, in order, and its address is remembered |
| KademliaConservation.LeftPending | src/net/kademlia.rs:201-206 | Postponed multicasts are left without a query if and only if the final result of a unicast query did not find its target |
| KademliaDelivery.MulticastsGoToNearest | src/net/kademlia.rs:207-223 | With a final result each multicast held for the target goes out, in order, to the addresses of the first peers found, as many as it asks for or all of them; these are the last messages sent |
| KademliaDelivery.FoundPeersGetUnicasts | src/net/kademlia.rs:186-197 | Every peer a result names, final or not, is sent the unicasts that waited for it, in order |
| KademliaDelivery.KnownPeerGetsItsMail | src/net/kademlia.rs:101-103 | A unicast to a known address goes there at once, and changes nothing but that the address is the latest used |
| KademliaDelivery.UnicastPlaced | src/net/kademlia.rs:104-122 | Any other unicast becomes the last message of a multicast query of its target, for one peer, or of its own query, which is started if there is none |
| KademliaDelivery.MulticastPlaced | src/net/kademlia.rs:127-164 | A multicast is postponed exactly if its target has a single-peer query or one for fewer peers; else it is the last message of the live query or the first of a new one |
| KademliaDelivery.PostponedStartsOver | src/net/kademlia.rs:225-239 | What was postponed for a target starts over in order, with a query for as many peers as the most demanding of it wants |
| KademliaDelivery.FoundAreRemembered | src/net/kademlia.rs:207-210 | The addresses of the peers a multicast query found are the latest in the cache, in the order found |
| KademliaDelivery.MailGoesWhereItShould | src/net/kademlia.rs:95-242 | In every run, each message sent was given for somebody: a unicast went to an address named for its receiver by some result, a multicast to the first peers of a result for its target |
| KademliaDelivery.EveryWaitHasItsQuery | src/net/kademlia.rs:95-242 | In every run, whatever waits for a target waits for a query that was asked, with its target and count |
| KademliaDelivery.CacheStaysSmall | src/net/kademlia.rs:85 | In every run the cache holds at most 160 addresses, no two of one peer |
| OrderedTimer.Timer.Set | src/event/ordered.rs:28-35 | A new timer is due one period from now, and both tables agree |
| OrderedTimer.Timer.Unset | src/event/ordered.rs:37-50 | Fails only for a timer that is not live, never for an inconsistency |
| OrderedTimer.Timer.Deadline | src/event/ordered.rs:54-56 | The earliest deadline of all live timers |
| OrderedTimer.Timer.Advance | src/event/ordered.rs:58-69 | Fires a timer due before all others and sets it one period later, never finding the tables inconsistent |
| OrderedTimer.NoDrift | src/event/ordered.rs:66 | A live timer is due at its first deadline plus one period for every time it fired |
| OrderedTimer.NoneLeftBehind | src/event/ordered.rs:58-69 | After the fired deadline none earlier is left |
| OrderedTimer.LiveExactly | src/event/ordered.rs:28-50 | The live timers are exactly those set and not unset since, whatever fired |
| InsertWatermark.InsertState.NextNum | src/app/ycsb.rs:91-93 | Hands out a number not acknowledged yet |
| InsertWatermark.InsertState.Ack | src/app/ycsb.rs:99-109 | For acknowledgements in any order the watermark is the least number not acknowledged and the set holds those above it; the loop terminates |
| InsertWatermark.InsertState.KeyNum | src/app/ycsb.rs:382-393 | Every key chosen names a loaded or acknowledged record |
| InsertWatermark.TracksOneWay | src/app/ycsb.rs:84-110 | Watermark and set depend on what was acknowledged, not on the order |

## Left out

- PBFT view change, state transfer and request forwarding: unimplemented in the source.
- PbftAgreement.Agreement: for runs whose calls meet both exact conditions; without them it is false, as PbftCounterexamples.SlotCheckIsNeeded and PbftLateVote.DigestCheckIsNeeded show.
- PbftAgreement.PrefixExecution: under the same conditions, for the same reason.
- PbftAgreement.HistoryOnlyGrows: under the same conditions, because a slot executed without a pre-prepare can still take one.
- PbftAgreement.ExecutedIsAnswered: under the same conditions, because what was executed is what the log holds.
- PbftClient.ClientResult: under the same conditions, because it speaks of the agreed history.
- PbftOwnResult.OwnResult: under the same conditions and its own one, which PbftForeignRequest.ForeignRequestWins shows to be needed.
- A group of one replica, which never collects a vote of another one: the theorems on whole runs need `n - f >= 2`.
- PBFT liveness, that is, that a run goes on: proved is what a replica has done and sent in each state it is in. The resend of its client does nothing in the source.
- Errors of the application, of serialization and of sending: an application is a total function.
- Cryptography: keys, signatures and hashes are taken as unforgeable and injective.
- Integer widths: view, slot and sequence numbers are unbounded; u32 and u8 wrap-around is not modelled.
- Byte order: identifiers are bits by significance, without their encoding as bytes.
- PbftReplica.Replica.InsertPrepare: the quorum kept in a log entry is a map by replica, without the order of the source's vector.
- PbftReplica.Replica.OnSignedPrepare: indexing a log that is too short is a failed assertion here, and is shown never to happen.
- UnreplicatedCheck.State.Step: after an error the state is not described, because the search drops it.
- UnreplicatedCheck.State.Events: messages are offered as a set, without the order of the source's tree.
- UnreplicatedCheck.State.Flush: after an error the state is not described, for the same reason.
- UnreplicatedCheck.State.Launch: after an error the state is not described, for the same reason.
- UnreplicatedNodes.CloseLoop.OnInvokeOk: the stop callback of a finished loop is not modelled; the checker never sets one.
- Search.BreadthFirst: one worker; the race between several workers that the source's comment admits, the status thread and wall-clock time are not modelled.
- The counting and latency-measuring workloads of src/workload.rs.
- PutGet.InfinitePutGet.Next: the drawn key and text are parameters; that a text has eight characters is required, as the source draws it.
- Random depth-first search: it claims no completeness.
- InsertWatermark.InsertState.KeyNum: samples are given; when none is small enough the source draws again without end.
- OrderedTimer.Timer.Set: the current instant is a parameter.
- Kademlia bootstrap and bucket refreshing, and the sequence numbers that match answers to destinations.
- KademliaPeer.Peer.OnStart: after a failure the state is not described, because the error ends the source's event loop.
- KademliaPeer.Peer.OnReply: what bootstrap and refresh do on their own queries is not modelled.
- KademliaPeer.Peer.Resume: what bootstrap and refresh do on the end of their own queries is not modelled.
- KademliaPeer.Peer.OnExpire: the source ends the event loop on a timeout, so runs end there.
- Query timeouts of the control: the source ends the event loop on one.
- KademliaTable.Buckets.FindClosest: sorting a bucket is a function, not the library's unstable sort; distances differ, so the results agree.
- Completeness of the offered timers of `src/event/linear.rs`: only the run of decreasing periods is claimed.
- Network sessions, blocking and bulk transfer, the erasure of timer types, storage backends, sampling distributions, crates/boson and crates/entropy.
