# Verified model of the off-chain MPC coordinator

An off-chain coordinator runs many multi-party computations ("executions") at once. Parties vote an execution
through a fixed sequence of rounds; clients reserve input slots and submit masked inputs; late subscribers are
replayed append-only event logs; parties hand output shares to waiting clients; and finished executions are
retired by quorum and evicted into bounded tombstones. Beside it, every node runs a rendezvous that brings
reservations, mask shares and range requests together, and browsers talk to the coordinator through signed,
nonce-protected sessions.

This project models that behaviour in Dafny and proves what every run of it keeps. `dafny verify dfyconfig.toml`
checks everything.

How it is laid out:

- `ExecutionModel` gives, for every request handler of one execution, what its lock section does to the state.
  `ExecutionServer` is the same thing as a mutable object with arrays, maps and loops, and every method is proved
  equal to its lock section.
- `ExecutionRuns` puts the lock sections and the sends between them into one step function, so that a *run* is any
  interleaving of votes, reservations, two-phase submissions, single sends finishing or failing, and subscriptions.
  `DeliveryProps`, `SubscriptionProps`, `InputProps`, `RoundProps`, `RoundSubscribers`, `VoteConfluence`, `VoteOrder`
  and `Completion` hold the theorems about all runs. `Requests` and `AssignedLogs` say what every request is answered
  and what is logged of it, from the logs and the range layout alone.
- `Registry` and `CoordinatorRuns` do the same for the whole coordinator, with isolation between executions;
  `FullCoordinator` is a run that fills it to capacity, and `RegistryAnswers` says what registering, retiring and
  polling are answered and do.
- `Outputs` and `OutputHistory` cover output shares, `Assignments`, `ManifestLayout` and `Startup` the way from a
  program's client manifest to slots.
- `NodeRendezvous`, `NodeProps`, `NodeRuns` and `NodeHistory` are the node side; `ClientInputs`, `ClientInputProps`,
  `WaitAnswers`, `ShareAlgebra` and `EndToEnd` the path from the coordinator's log to a node's input shares.
- `NonceBooks`, `BrowserSessions`, `BrowserAnswers`, `BrowserOrder`, `AuthMessages` are the browser side.
- `Counterexamples` and `BrowserCounterexamples` hold small concrete runs that show where a promise is not
  unconditional; each has a partner that says exactly when it holds.

Where the code and its documentation say different things, the model follows the code:

- The two skip edges are described as skipping empty rounds. The code looks only at the pair of rounds, so MPC can
  start on missing inputs (`SkipStartsOnMissingInput`), and that is the only way it can (`MpcStartsCompleteOrSkipped`).
- Because of the first skip, the order in which the same votes arrive can decide where an execution ends
  (`SkipMakesOrderMatter`). `OrderMattersIff` says for exactly which states and ballots; the second skip never matters.
- Reservation can close with a slot still free, and then MPC can never start (`FreeSlotStopsCollection`);
  `CollectionCompletesIff` says exactly from where it can.
- `available_input_masks` subtracts a count of reserved *indices*; a batch that repeats an index counts it twice and
  the subtraction can go below zero (`RepeatedReservationUnderflows`, `AvailableIffNoRepeats`).
- A masked-input batch that repeats an index makes `wait_for_inputs` stop early or keep an input twice
  (`RepeatedInputIsGatheredTwice`, `EachOnceIffNoRepeat`).
- A batch that is refused with `AuthenticationFailed` drops requests and leaves complete ones stored
  (`RefusedBatchLosesWakeup`). A batch drops something exactly when `BatchLosesIff` says, `RefusedBatchIs` gives the
  exact set, and `LateCompleteStaysStored` the complete requests that stay.
- Nonces are forgotten by the clock of the checks, so a clock that steps back can let a replay through
  (`ClockStepBackReplays`). `AcceptedIff` and `ReplayIff` say exactly when, for every clock.
- The check against binding again after submitting reads the input assignment, so it protects exactly the executions
  that have one (`KeyMovesWithoutRanges`, `BindAfterSubmitIff`).
- The pin of a submission is described as the last write to a client's output key. The bind handler releases its
  lock between its check and its insertion, so a bind that passed the check before the submission can insert after the
  pin (`KeyMovesByEarlierBind`). A submission also pins only after the coordinator has recorded it, so two of them can
  pin in the opposite order (`PinsOvertake`). `KeySettlesIff` says for every run exactly when the key nevertheless
  ends as that of the submission recorded last.
- `register_execution` reclaims a slot before it checks the registration, so a refused registration may still evict
  (`RefusedRegistrationEvicts`, and `RefusedRegistrationEvictsIff` for exactly when).
- The repository's README starts a one-off coordinator with an all-zero program hash, which registration rejects, and
  says that `retire_execution` removes an execution; it only records an acknowledgement, and removal waits for
  capacity pressure.

## Model

| member | source | states |
|---|---|---|
| Rounds.RoundBefore | crates/coord-shared/src/lib.rs:170-180 | Exactly the first round has no predecessor, and every other round's predecessor is one earlier in the protocol order. |
| Topology.ValidateTopology | crates/off-chain/src/lib.rs:1459-1500 | Accepts exactly the rosters that are non-empty, have `n` distinct members and satisfy `2t + 1 <= n`; the bound never overflows 64 bits. |
| Topology.TransitionQuorum | crates/off-chain/src/lib.rs:1286-1292 | For every valid roster the quorum lies between `t + 1` and `n - t`, without overflow. |
| Topology.QuorumIs | crates/off-chain/src/lib.rs:1286-1292 | Who is a quorum: roster parties that outvote any `t` identities, or all but at most `t` of the roster. |
| Topology.QuorumEscapesFaults | crates/off-chain/src/lib.rs:1286-1292 | Every quorum has a member outside any set of `t` identities. |
| Topology.QuorumsMeetIff | crates/off-chain/src/lib.rs:1286-1292 | Any two quorums of the roster share a party if and only if `n <= 4t + 1`. |
| Assignments.ExpandInputRanges | crates/off-chain/src/lib.rs:1505-1517 | The nested loops produce one slot per unit of every range, in range order. |
| Assignments.ExpandedSlot | crates/off-chain/src/lib.rs:1505-1517 | Slot `i` of the expansion is the range's client with ordinal `i` minus the counts before it. |
| Assignments.RangeSearch | crates/off-chain/src/lib.rs:1505-1517 | Every slot lies in exactly one range, the one whose prefix sums enclose it. |
| Assignments.BuildInputAssignment | crates/bins/src/bin/run-coord.rs:150-214 | The three loops compute the bound layout, or the first error: duplicate, unknown or unbound slot, client bound twice, too many clients. |
| Assignments.BindingIsFaithful | crates/bins/src/bin/run-coord.rs:150-214 | A successful binding names each client once, covers every manifest slot exactly once, keeps the total number of inputs, and gives each binding a range as long as its entry says. |
| ManifestLayout.BindingIsAnswered | crates/bins/src/bin/run-coord.rs:150-214 | For every manifest and binding: the exact refusal, or the layout, with clients, ranges and output clients in the order of the bindings. |
| Startup.StartupIsAccepted | crates/bins/src/bin/run-coord.rs:458-498 | A manifest of fewer than 2^64 inputs that binds and a roster that validates give, for either backend, a registration that is accepted if and only if neither the execution id nor the program hash is all zero. |
| Startup.SlotsFollowManifest | crates/bins/src/bin/run-coord.rs:150-214 | In every run, no slot of the range laid out for a binding is ever reserved by anybody but that binding's client. |
| ExecutionServer.Create | crates/off-chain/src/lib.rs:1520-1588 | Registration performs the checks in order and starts in the initial state, or returns the first failing check. |
| ExecutionServer.CoordinatorExecutionState.NextQuorum | crates/off-chain/src/lib.rs:1727-1737 | The scan returns the first round in protocol order that may follow and has its quorum. |
| ExecutionServer.CoordinatorExecutionState.CountMissing | crates/off-chain/src/lib.rs:1709-1724 | Something is reported missing exactly when MPC would be entered after input collection with an unfilled slot, and then the number is that of the unfilled slots. |
| ExecutionServer.CoordinatorExecutionState.TryAdvance | crates/off-chain/src/lib.rs:1744-1789 | The loop terminates in the state and with the deliveries of the advance specification. |
| ExecutionServer.CoordinatorExecutionState.ProposeRound | crates/off-chain/src/lib.rs:2448-2494 | A proposal is refused, dropped as late, or recorded and followed by an advance. |
| ExecutionServer.CoordinatorExecutionState.WatchForRound | crates/off-chain/src/lib.rs:1977-2001 | An applied round is replayed and otherwise the subscriber is put on the waiting list. |
| ExecutionServer.CoordinatorExecutionState.ReserveMaskIndices | crates/off-chain/src/lib.rs:2289-2436 | The array-updating handler equals the reservation lock section, on success and on every error, and a refused batch changes nothing. |
| ExecutionServer.CoordinatorExecutionState.BeginSubmission | crates/off-chain/src/lib.rs:2076-2197 | The first lock section records the batch in the array, appends the events and takes the subscriptions, or changes nothing. |
| ExecutionServer.CoordinatorExecutionState.EndSubmission | crates/off-chain/src/lib.rs:2215-2240 | The second lock section puts back the reached subscriptions and advances. |
| ExecutionServer.CoordinatorExecutionState.CountAvailable | crates/off-chain/src/lib.rs:2004-2007 | The reported number, or its absence when the unsigned subtraction would go below zero. |
| ExecutionServer.CoordinatorExecutionState.SubscribeReserved | crates/off-chain/src/lib.rs:1601-1619 | A new subscriber is replayed the log one event per message and registered in the same lock section; the state changes as in the subscription step of a run, and not at all if the replay fails. |
| ExecutionServer.CoordinatorExecutionState.SubscribeMasked | crates/off-chain/src/lib.rs:1621-1639 | The same for masked inputs. |
| ExecutionServer.CoordinatorExecutionState.SubscribeAssignedReserved | crates/off-chain/src/lib.rs:1641-1663 | The same for the assigned stream, whose history is one message. |
| ExecutionServer.CoordinatorExecutionState.SubscribeAssignedMasked | crates/off-chain/src/lib.rs:1665-1687 | The same for the assigned masked inputs. |
| DeliveryProps.SubscribersSeeTheLog | crates/off-chain/src/lib.rs:2059-2243 | Under every interleaving, every registered subscription of the four streams was sent exactly its log, in order, without gap or repeat; one held by a submission in flight, plain or assigned, was sent the log if its send succeeded and otherwise the log without that submission; nobody is registered twice. |
| SubscriptionProps.SubscriptionsStay | crates/off-chain/src/lib.rs:2198-2240 | A subscription stays on its stream through every run in which no send to it fails. |
| SubscriptionProps.UndisturbedSubscriberHasTheLog | crates/off-chain/src/lib.rs:2010-2243 | A subscriber of any of the four streams that joined at any point and lost no send has the whole log, past and present, whenever no submission is in flight. |
| InputProps.TablesAreReplay | crates/off-chain/src/lib.rs:2110-2186 | In every reachable state both tables, the counter and the assigned logs are exactly what replaying the plain logs gives; no client reserves twice and no two events share an index. |
| Requests.ReservationIsAnswered | crates/off-chain/src/lib.rs:2289-2436 | In every run, a reservation is refused outside its round, when empty, when the client has reserved before, and otherwise for the first slot that does not exist, is taken, or is in another range; otherwise it is logged as asked. |
| Requests.SubmissionIsAnswered | crates/off-chain/src/lib.rs:2059-2197 | In every run, a submission is refused outside its round, for different lengths, when empty, and otherwise for the first slot that does not exist, is not reserved, is reserved by another, or is filled; otherwise it is logged with every input at its slot. |
| Requests.OnlyRequestsAreLogged | crates/off-chain/src/lib.rs:2059-2436 | No other step of any run changes the reservation or masked-input log. |
| Requests.InputOnRecord | crates/off-chain/src/lib.rs:2160-2175 | In every run the input on record for a slot is the last one given for it by the batch that filled it. |
| AssignedLogs.AssignedLogsAre | crates/off-chain/src/lib.rs:2160-2384 | With ranges, the assigned logs have one entry per index of the plain logs, in order, with the client whose range the slot is in, the slot, its number in that range and the submitted bytes; without ranges they are empty. |
| InputProps.SlotsAreWriteOnce | crates/off-chain/src/lib.rs:2336-2396 | A slot once reserved or filled keeps its value for the rest of every run. |
| InputProps.ReservedByItsOwner | crates/off-chain/src/lib.rs:2359-2371 | Whoever holds an assigned slot, in any run, is the client the range layout assigns it to. |
| InputProps.CountIff | crates/off-chain/src/lib.rs:2373-2396 | The counter equals the number of slots carried exactly when no batch repeats an index, and exceeds it otherwise. |
| InputProps.AvailableIffNoRepeats | crates/off-chain/src/lib.rs:2004-2007 | In every run, the reported number of free masks is right if and only if no reservation batch repeated an index. |
| RoundProps.RoundsOnlyAdvance | crates/off-chain/src/lib.rs:1744-1789 | The round index never decreases along any run. |
| RoundProps.MpcStartsCompleteOrSkipped | crates/off-chain/src/lib.rs:1691-1789 | At or past MPC, either both input rounds were applied and every slot is reserved and filled, or both were skipped and nothing was ever reserved or submitted; all inputs are there if and only if there are none to give or collection was not skipped. |
| RoundProps.ReservedBeforeCollection | crates/off-chain/src/lib.rs:2296-2372 | If MPC starts after collection, every slot was already reserved when collection began. |
| Completion.CollectionCompletesIff | crates/off-chain/src/lib.rs:1691-1789 | From every reachable state in input collection some continuation starts MPC if and only if every slot is reserved. |
| RoundProps.NothingStranded | crates/off-chain/src/lib.rs:1709-1789 | Whenever no submission is in flight, a round that may follow and has its quorum can only be MPC waiting for a missing input, so the last input releases held votes by itself. |
| RoundProps.LivePartiesSuffice | crates/off-chain/src/lib.rs:2449-2489 | Any `n - t` parties that proposed the next round have moved the execution, unless an input is missing. |
| RoundProps.AppliedByQuorum | crates/off-chain/src/lib.rs:2449-2489 | Every applied round was proposed by roster parties that outvote any `t` or are all but `t` of the roster, hence by a party outside any `t`; for `n <= 4t + 1` the proposers of any two applied rounds intersect. |
| Requests.VotesAreProposals | crates/off-chain/src/lib.rs:2463-2494 | In every run the recorded proposals of a round are exactly those roster parties made while the round was still ahead. |
| Requests.ProposalIsAnswered | crates/off-chain/src/lib.rs:2448-2494 | A proposal is refused only to strangers and only for the idle round; a refused or late one changes nothing. |
| Requests.AppliedRounds | crates/off-chain/src/lib.rs:1691-1789 | In every run the applied rounds are all up to the current one, except that both input rounds may be missing and, at the end, the output round. |
| RoundSubscribers.ToldExactlyOnce | crates/off-chain/src/lib.rs:1215-1229 | In every run a subscriber to a round, whenever it came, was selected for exactly one send of that round's event if the round was applied and for none otherwise; waiting lists and applied rounds are disjoint. |
| RoundSubscribers.EventsAnnounced | crates/off-chain/src/lib.rs:1759-1778 | In every run, a subscriber to an applied round was sent exactly one note, with the event of that round: preprocessing with the first roster party, every other round its own. |
| VoteConfluence.CastReachesChainEnd | crates/off-chain/src/lib.rs:1727-1789 | Without a skip, any order of ballots ends at the end of the longest unblocked chain of quorum-backed rounds, a description that mentions no order. |
| VoteConfluence.VoteOrderIrrelevant | crates/off-chain/src/lib.rs:2448-2494 | From any reachable state, two orders of the same ballots in which no skip fires end in the same round; dropped late votes and kept early votes make no difference. |
| VoteConfluence.SkipNeedsBallots | crates/off-chain/src/lib.rs:1691-1699 | A sufficient condition on the ballots: if neither far round has a quorum of them, no order skips. |
| VoteOrder.OrderMattersIff | crates/off-chain/src/lib.rs:1691-1789 | In every reachable state with no submission in flight, two orders of the same ballots can end in different rounds if and only if the execution has not passed preprocessing, preprocessing is applied or backed, MPC and mask reservation are both backed, mask reservation only by the new ballots, and input collection is not backed with all inputs in. |
| VoteOrder.NoForkOneEnd | crates/off-chain/src/lib.rs:1727-1789 | Without that condition, sequences with the same set of ballots, in any order and with any repetition, end in the same round, skip or not. |
| Registry.RetiredExecutions.SealExecution | crates/off-chain/src/lib.rs:1145-1154 | Sealing stores the acknowledgements and trims the oldest tombstones beyond the bound. |
| Registry.RetiredExecutions.AcknowledgeParty | crates/off-chain/src/lib.rs:1158-1168 | A tombstone takes one more acknowledgement and disappears once everyone has acknowledged. |
| Registry.SealKeeps | crates/off-chain/src/lib.rs:1145-1154 | Sealing keeps the order a duplicate-free listing of the tombstones within its bound, carries the acknowledgement set over intact, and beyond 4096 forgets exactly the one sealed first. |
| Registry.CoordinatorShared.FindEvictable | crates/off-chain/src/lib.rs:1340-1354 | The scan finds an execution with a retirement quorum that is not the one-off execution, or none exists. |
| Registry.CoordinatorShared.RegisterExecution | crates/off-chain/src/lib.rs:1327-1371 | Registration is idempotent on equal metadata, refuses different metadata, evicts at capacity, and only then checks the registration. |
| Registry.CoordinatorShared.RetireExecution | crates/off-chain/src/lib.rs:1406-1430 | A roster party's acknowledgement goes to the tombstone, to the live execution, or nowhere. |
| Registry.CoordinatorShared.Progress | crates/off-chain/src/lib.rs:1440-1456 | The acknowledgement count, the roster size and whether the execution is complete. |
| CoordinatorRuns.RegistryStaysBounded | crates/off-chain/src/lib.rs:1327-1371 | In every run live executions stay within 1024 and tombstones within 4096, acknowledgements come from the roster, every tombstone has a retirement quorum, and the one-off execution stays live. |
| CoordinatorRuns.EvictedOnlyByQuorum | crates/off-chain/src/lib.rs:1327-1371 | An execution leaves the live set only at capacity, with at least `n - t` roster acknowledgements, never as the one-off execution, and its acknowledgements become its tombstone. |
| RegistryAnswers.RegistrationIsAnswered | crates/off-chain/src/lib.rs:1327-1371 | In every run, a registration is accepted if and only if its execution is live with this very registration, or is not live, there is room or an execution `n - t` parties are done with, and nothing is wrong in it; and it is refused for the reason that applies. |
| RegistryAnswers.RegistrationDoes | crates/off-chain/src/lib.rs:1340-1371 | In every run, a newly accepted registration starts fresh with no acknowledgement, at capacity in the place of the one evicted, and nothing else changes; one for a live execution changes nothing. |
| RegistryAnswers.RegisteredAgain | crates/off-chain/src/lib.rs:1331-1339 | A registration accepted as new is accepted again as long as its execution stays live, every other one for that execution is refused, and neither changes the coordinator. |
| RegistryAnswers.RetirementDoes | crates/off-chain/src/lib.rs:1406-1430 | In every run, only roster parties are heard; the acknowledgement goes to the tombstone, which is forgotten once the whole roster has acknowledged, or else to the live execution, and nothing else changes. |
| RegistryAnswers.ProgressMeans | crates/off-chain/src/lib.rs:1440-1456 | In every run, a live execution is complete exactly when the whole roster has acknowledged it, a sealed one never, and one that is neither always. |
| CoordinatorRuns.RefusedRegistrationEvictsIff | crates/off-chain/src/lib.rs:1340-1371 | In every run and for every answer of the scan, a refused registration changes the coordinator if and only if its execution is not live, the coordinator is full and the scan found something to evict. |
| FullCoordinator.RefusedRegistrationEvicts | crates/off-chain/src/lib.rs:1340-1371 | A concrete run of 1024 registrations and one retirement, after which a registration refused for its all-zero program hash has evicted an execution. |
| CoordinatorRuns.OneOffCompletes | crates/off-chain/src/lib.rs:1440-1456 | A one-off execution is never evicted, counts exactly the roster parties that retired it, and is complete if and only if all of them have. |
| CoordinatorRuns.ExecutionsAreIsolated | crates/off-chain/src/lib.rs:1327-1456 | In every run of the coordinator every live execution is exactly where its own actions since registration take it. |
| CoordinatorRuns.LiveExecutionsStartComplete | crates/off-chain/src/lib.rs:1691-1789 | The MPC guarantee holds for every live execution of every coordinator run. |
| Outputs.OutputTables.SendOutputShares | crates/off-chain/src/lib.rs:2496-2545 | Only a roster party may record, only for an output client, and only once. |
| Outputs.OutputTables.ObtainOutputShares | crates/off-chain/src/lib.rs:2563-2619 | Only an output client without an open waiter is registered. |
| Outputs.OutputTables.ReadyOutputSnapshot | crates/off-chain/src/lib.rs:1811-1833 | A closed waiter is forgotten, and a snapshot is taken exactly when the threshold is met. |
| Outputs.OutputTables.DropAfterFailedSend | crates/off-chain/src/lib.rs:1852-1866 | A failed send drops the waiter unless it has been replaced. |
| Outputs.SharesAreWriteOnce | crates/off-chain/src/lib.rs:2496-2545 | A recorded share is never replaced or lost in any run. |
| Outputs.SentSnapshotsAreSound | crates/off-chain/src/lib.rs:1811-1866 | Every snapshot sent has at least the threshold of shares, at most one per roster party, each the one recorded for that client. |
| Outputs.NoShareIsLost | crates/off-chain/src/lib.rs:1836-1866 | Once nothing is owed or on its way to a client, an open waiter past the threshold was sent a snapshot of every recorded share. |
| Outputs.UndisturbedClientGetsEverything | crates/off-chain/src/lib.rs:2563-2619 | A waiter stays until it is closed or a send to it fails, so an undisturbed client gets every share recorded before or after it asked. |
| OutputHistory.FirstShareIsRecorded | crates/off-chain/src/lib.rs:2496-2545 | In every run a share is on record exactly when a roster party has sent one for an output client, and it is the first it sent, unchanged. |
| OutputHistory.SnapshotsHoldFirstShares | crates/off-chain/src/lib.rs:1811-1866 | Every entry of a snapshot ever sent is the share its party first sent for that client. |
| OutputHistory.SendIsAnswered | crates/off-chain/src/lib.rs:2496-2545 | In every run, a party is refused for not being on the roster, for a client without outputs, and exactly from the second time on. |
| OutputHistory.ObtainOpensWaiter | crates/off-chain/src/lib.rs:2563-2619 | In every run, an output client that asks has a waiter afterwards, a new one unless the old one is open, which it is then told; nobody else gets one. |
| OutputHistory.WaitersAreReleased | crates/off-chain/src/lib.rs:1811-1866 | In every run, a failed send frees its client to ask again unless it has, and a snapshot task forgets exactly a closed waiter. |
| OutputHistory.SnapshotsAreEnough | crates/coord-shared/src/lib.rs:127-142 | In every run of a started coordinator a waiting client is given a snapshot if and only if the parties that sent it shares outvote any `t` (HoneyBadger) or include one outside any `t` (Avss), and every snapshot sent is of that kind. |
| NodeRendezvous.NodeRPCExecutionState.AssignedMaskSharesForClient | crates/off-chain/src/lib.rs:771-795 | The loop answers the whole range, not yet, or an error, with the overflow check first. |
| NodeRendezvous.LookupIs | crates/off-chain/src/lib.rs:771-795 | The answer is everything exactly when every index is reserved by the client and has a share, a refusal exactly when the first unserved index is somebody else's, and otherwise not yet. |
| NodeRendezvous.NodeRPCExecutionState.AddAssignedReservedIndices | crates/off-chain/src/lib.rs:463-523 | The two-phase loops equal the batch specification, including the early return. |
| NodeRendezvous.NodeRPCExecutionState.AddMaskShares | crates/off-chain/src/lib.rs:572-635 | The same for shares. |
| NodeHistory.ArrivalsAreRecorded | crates/off-chain/src/lib.rs:463-635 | In every run, a batch that repeats an index the node has is refused and changes nothing; otherwise every index of it is on record as it came and everything on record before stays. |
| NodeRendezvous.NodeRPCExecutionState.ReceiveAssignedMaskShares | crates/off-chain/src/lib.rs:800-869 | A request supersedes the client's stored one, then is answered, rejected or stored. |
| NodeProps.SettleIs | crates/off-chain/src/lib.rs:498-516 | For every order of touched clients the second phase fails exactly when one of them meets another client's index, and otherwise answers the complete requests and keeps the rest. |
| NodeProps.SettleRefusedIs | crates/off-chain/src/lib.rs:498-516 | When it fails, it has dropped the complete requests before the first refused client and that client's own, and keeps everything else; the error names that client. |
| NodeProps.FindRefused | crates/off-chain/src/lib.rs:498-516 | Whenever it fails there is such a first refused client. |
| NodeProps.BatchRefinesSingles | crates/off-chain/src/lib.rs:449-523 | A batch of distinct new arrivals that is not refused ends in the same maps and stored requests, and sends every subscription the same messages, as single calls in any order. |
| NodeRuns.RequestsAreConserved | crates/off-chain/src/lib.rs:463-635 | In every run each request is exactly one of stored, answered once with exactly its range, superseded by a later one, rejected for a reason, or lost; some are lost if and only if a batch returned `AuthenticationFailed`. |
| NodeRuns.AnsweredExactlyWhenComplete | crates/off-chain/src/lib.rs:463-869 | In every run without `AuthenticationFailed`, a request neither superseded nor rejected has been answered if and only if everything it needs has arrived. |
| NodeRuns.BatchLosesIff | crates/off-chain/src/lib.rs:498-516 | A batch call loses requests exactly when a touched client's stored range first meets an index reserved by another client. |
| NodeRuns.RefusedBatchIs | crates/off-chain/src/lib.rs:463-523 | In every run, a refused batch leaves exactly these maps and stored requests, and loses exactly the complete requests before the first refused client and that client's own. |
| NodeRuns.LateCompleteStaysStored | crates/off-chain/src/lib.rs:498-516 | If no stored request was complete before a refused batch, a complete one stays stored if and only if its client was touched after the refused one. |
| NodeRuns.RefusedBatchLosesWakeup | crates/off-chain/src/lib.rs:498-516 | A concrete run in which a refused batch loses one request and leaves a complete one stored. |
| ClientInputs.WaitForInputs | crates/off-chain/src/lib.rs:2987-3042 | The loops compute the gathered, unmasked and index-sorted shares, or the first error. |
| ClientInputProps.NodeGetsEveryInput | crates/off-chain/src/lib.rs:2987-3042 | In every run with all inputs in and no repeated index, the result has exactly the clients that hold slots and, per client, one unmasked share per slot in ascending order. |
| WaitAnswers.WaitIsAnswered | crates/off-chain/src/lib.rs:2987-3042 | For every log, the wait ends with the inputs, with the end of the subscription, or with the failure of the first input that cannot be opened, each under exactly its condition. |
| WaitAnswers.SortIsStable | crates/off-chain/src/lib.rs:3026-3042 | A client's inputs come out in slot order, and those for one slot in the order they were received, which leaves one order only. |
| ClientInputProps.InputsAreDetermined | crates/off-chain/src/lib.rs:3026-3042 | That description leaves only one possible list. |
| EndToEnd.SubscribedNodeGetsEveryInput | crates/off-chain/src/lib.rs:2987-3042 | A node that subscribed at any point of any run and lost no send obtains, from what its own subscription was sent, exactly the clients that hold slots and one unmasked share per slot in ascending order. |
| ClientInputProps.EachOnceIffNoRepeat | crates/off-chain/src/lib.rs:2999-3025 | For every complete log, every slot is gathered once if and only if no submitted batch repeats an index. |
| ShareAlgebra.UnmaskIsInputPolynomial | crates/coord-shared/src/lib.rs:119-125 | Taking the mask off at any point gives the value there of a polynomial with the input as constant term and the mask's degree. |
| ShareAlgebra.NodesShareTheInputs | crates/coord-shared/src/lib.rs:119-125 | End to end, every share a node obtains lies on a polynomial of degree at most `t`, the same for all nodes, whose constant term is the client's input. |
| NonceBooks.NonceBook.AcceptRequest | crates/off-chain/src/browser_rpc.rs:303-326 | The pruning and searching loops equal the acceptance specification. |
| NonceBooks.AcceptedIff | crates/off-chain/src/browser_rpc.rs:303-326 | For every run and every clock, a request is accepted if and only if its timestamp is within 120 seconds of the clock and no accepted request of the same signer and nonce is recent now and was recent at every later in-window check of that signer; it is refused as outside the window exactly when it is. |
| NonceBooks.ReplayIff | crates/off-chain/src/browser_rpc.rs:303-326 | A request in the window that was accepted before, as the only accepted one with its nonce, is accepted again if and only if a check in between found it too old; that check read a later clock than now. |
| NonceBooks.WindowIsEnough | crates/off-chain/src/browser_rpc.rs:303-326 | With a clock that does not go back, a request is accepted if and only if its timestamp is in the window and no accepted request of the same signer and nonce is still within it: eviction changes no decision. |
| NonceBooks.NoReplayIsAccepted | crates/off-chain/src/browser_rpc.rs:303-326 | With a clock that does not go back, the same signer, timestamp and nonce are accepted at most once per run. |
| NonceBooks.KeptIsRecent | crates/off-chain/src/browser_rpc.rs:318-320 | For every clock, nothing kept for a signer after a check is more than 120 seconds old. |
| NonceBooks.KeptWithinWindow | crates/off-chain/src/browser_rpc.rs:318-320 | With a clock that does not go back, everything kept for a signer also lies at most 120 seconds in the future. |
| NonceBooks.ClockStepBackReplays | crates/off-chain/src/browser_rpc.rs:303-326 | With a clock that steps back, a concrete run accepts the same request twice. |
| BrowserSessions.WebauthnBindings.InsertBinding | crates/off-chain/src/browser_rpc.rs:189-205 | The first drawn token not in use gets the session, and for an execution the client's output key moves to it. |
| BrowserSessions.WebauthnBindings.ResolveEcdhPublicKey | crates/off-chain/src/browser_rpc.rs:211-219 | The key of the binding for that execution and client, if any. |
| BrowserSessions.WebauthnBindings.PinBindingFromToken | crates/off-chain/src/browser_rpc.rs:235-244 | A known session becomes its client's output key; sessions are untouched. |
| BrowserSessions.CheckAlreadySubmitted | crates/off-chain/src/browser_rpc.rs:709-721 | True exactly when a slot assigned to the client is filled. |
| BrowserAnswers.BindCheckIff | crates/off-chain/src/browser_rpc.rs:640-724 | In every run, the bind check passes exactly for a client with a slot or admitted for output, unless the execution has ranges and an input of the client is logged. |
| BrowserSessions.OutputKeyIsPinned | crates/off-chain/src/browser_rpc.rs:582-597 | From any point of any run at which a client has submitted under an input assignment, no bind call of it is between check and insertion, and its key is right if it has pinned: in every continuation the resolved key is that of the session whose submission pinned last. |
| BrowserOrder.KeySettlesIff | crates/off-chain/src/browser_rpc.rs:582-753 | In every run, once a client has a submission on record under an input assignment, what is under way for it can be finished, and the key ends as that of the submission recorded last however that happens, if and only if all submissions waiting to pin and all bind calls past their check carry that key and, when no submission waits, the key is that already. |
| BrowserCounterexamples.PinsOvertake | crates/off-chain/src/browser_rpc.rs:582-597 | Two sessions of a client submit and pin in the opposite order: the key ends as that of the submission recorded first. |
| BrowserCounterexamples.KeyMovesByEarlierBind | crates/off-chain/src/browser_rpc.rs:709-741 | With ranges, a bind that passed its check before a submission inserts after it has pinned and moves the key away from the session that submitted. |
| BrowserSessions.BindAfterSubmitIff | crates/off-chain/src/browser_rpc.rs:709-724 | After a completed browser submission another bind call of that client passes the check if and only if the execution has no ranges. |
| AuthMessages.AuthenticationMessage | crates/off-chain/src/browser_rpc.rs:1015-1042 | The appended buffer is the layout of domain, method, execution, timestamp, nonce, body hash and token. |
| AuthMessages.ParseLayout | crates/off-chain/src/browser_rpc.rs:1015-1042 | A parser recovers every field from every message with a NUL-free method name. |
| AuthMessages.LayoutParse | crates/off-chain/src/browser_rpc.rs:1015-1042 | Whatever the parser accepts is the message of the fields it returns. |
| AuthMessages.MessagesAreDistinct | crates/off-chain/src/browser_rpc.rs:1015-1042 | For method names without a NUL byte, two messages are equal if and only if all their fields are. |
| AuthMessages.ReadsBackIff | crates/off-chain/src/browser_rpc.rs:1015-1042 | A message reads back to its fields if and only if its method name has no NUL. |
| AuthMessages.DomainIs | crates/off-chain/src/browser_rpc.rs:48 | The domain is the text `stoffel-browser-rpc-auth`, byte by byte. |
| Counterexamples.SkipStartsOnMissingInput | crates/off-chain/src/lib.rs:1691-1699 | Two proposals start MPC although the execution has an unfilled slot. |
| Counterexamples.SkipEndsWithoutOutput | crates/off-chain/src/lib.rs:1691-1699 | One more proposal then finishes the program without an output round. |
| Counterexamples.SkipMakesOrderMatter | crates/off-chain/src/lib.rs:1691-1699 | The same three proposals in two orders end in different rounds when a skip fires. |
| Counterexamples.FreeSlotStopsCollection | crates/off-chain/src/lib.rs:1727-1789 | Three proposals reach input collection with the only slot unreserved, and no continuation starts MPC. |
| Counterexamples.RepeatedReservationUnderflows | crates/off-chain/src/lib.rs:2336-2396 | A batch that reserves an index twice makes the free count go below zero. |
| Counterexamples.RepeatedInputIsGatheredTwice | crates/off-chain/src/lib.rs:2112-2158 | A batch that submits an index twice completes the inputs but is not gathered once each. |
| BrowserCounterexamples.KeyMovesWithoutRanges | crates/off-chain/src/browser_rpc.rs:709-741 | Without ranges, a bind begun after the submission has pinned passes the check and moves the key away from the session that submitted. |

## Left out

- TLS, WebSocket and JSON-RPC serving, listener handles and shutdown tasks: plumbing over libraries that are not part of this model.
- Cryptography: signatures, WebAuthn assertions, HPKE and SHA-256 appear only as parameters (who verified, what the digest is); secret recovery and Feldman shares are not modelled.
- Serialization: decoding a field element is a function parameter of the node's side, and errors of JSON encoding do not occur.
- Timers: a send timeout is a send that may fail at any time; the one-off grace period is not modelled.
- The on-chain crate: contract calls, and a single-index version of the rendezvous that is covered here.
- Signature counters, browser status counters, `request_shutdown`, the CLI and the credential catalog: settled by one branch each.
- Registering an evicted execution again: what is said about one execution is about one registration of it; node and browser records left from an earlier one are not tracked.
- Cancellation of a handler between its lock sections, and a replay that fails half way: a failed replay leaves no trace in the model.
- Retirement acknowledgements and output shares are separate from the rest of an execution's state, since they never interact; eviction during an output delivery, which the code does not expect, is not part of a run.
- `usize` is 64 bits wide, memory is not exhausted, and the reservation counter and the node's count of received inputs are unbounded.
- ExecutionServer.Create: a range total beyond 64 bits is one error; the code's sum overflows there, and with wrapping arithmetic the expansion could not complete.
- ClientInputs.WaitForInputs: a missing mask share is an error value where the code stops with a panic.
- VoteConfluence.VoteOrderIrrelevant: assumes that no skip fires; the exact condition is in `VoteOrder.OrderMattersIff`.
- VoteConfluence.SkipNeedsBallots: sufficient only; the exact condition is in `VoteOrder.OrderMattersIff`.
- NonceBooks.WindowIsEnough: assumes a clock that does not go back; `NonceBooks.AcceptedIff` is the exact statement for every clock.
- NonceBooks.NoReplayIsAccepted: assumes a clock that does not go back; `NonceBooks.ReplayIff` is the exact statement for every clock.
- NonceBooks.KeptWithinWindow: assumes a clock that does not go back; `NonceBooks.KeptIsRecent` is what holds for every clock.
- Startup.StartupIsAccepted: a manifest of 2^64 inputs or more, whose count the code cannot represent, is not covered.
- BrowserSessions.OutputKeyIsPinned: assumes that no bind call of the client waits to insert; the exact condition is in `BrowserOrder.KeySettlesIff`.
- BrowserSessions.WebauthnBindings.InsertBinding: random tokens are given as a list of draws, and a list that is used up stands for a loop that has not ended yet.
- NodeRuns.RequestsAreConserved: an answer counts when it is handed to the subscription; whether the send succeeds is ignored, as in the code.
