# SmartBrain 3000: a verified model

A Dafny model of the parts of SmartBrain 3000 whose behaviour spans many calls: the
approval and agent-turn protocol, the signaling broker, the schema-to-types compiler, the
Claude CLI transcript and turn session, and four smaller cores (the unlock throttle, the
record/replay cassette, the launcher's notices, the streamed tool calls).  Every promise
below is a statement about every input or every run of the model; the project file is
`dfyconfig.toml`.

Objects whose methods update fields are classes here (`Guard`, `Watcher`, `BindingMap`,
`SignalingBroker`, `ApprovalStore`, the two `Session` classes), loops are loops, and each
method is proved against a function of its inputs and old state; the lemmas are about those
functions.  Protocols are state machines whose events are the atomic steps of the program:
one database statement, one locked region, or one stretch of a coroutine between two awaits.
Whatever the outside decides (clocks, what a model says, whether a handler raises, how a
process ends) is a parameter of a step.

## What is in it

* `Approvals`, `ApprovalProtocol`, `ResumeProtocol`, `ResumeRuns`: the rows of
  `ApprovalStore`; approve requests, deny requests, the expiry sweep, scheduler parks and
  resume workers interleaved step by step; who drives a scheduled turn, when nobody will and
  when it is driven twice; and the runs that show it.
* `AgentTurn`, `TurnContent`, `TurnHistory`, `TurnRuns`, `FinalizePrompt`, `ToolCallStream`:
  the bounded tool loop and what a resume rebuilds; what every transcript says about each call
  and each row, and why a run ends; a turn over its whole life, with rows inserted one by one
  and resumes at any time; the protocol's runs as such histories; the prompt the loop falls
  back to, and the assembly of streamed tool calls.
* `BrokerTables`, `RateWindow`, `BrokerRates`, `Broker`, `BrokerVerdicts`, `DesktopProof`,
  `DesktopRuns`, `Bindings`, `KeyedBroker`, `OrderedDict`: the broker's tables, its sliding
  windows, the class itself, the exact condition of every verdict and every delivery, the proof
  round trip, many of them side by side, the trust-on-first-use map, and the broker and that
  map in one run.
* `SchemaOrder`, `SchemaValidate`, `SchemaFaults`, `TypeText`, `TypeMeaning`,
  `TypeExactness`: the JSON Schema subset (draft 2020-12: Core sections 8.2.3.1, 10.2.1.2 and
  10.3, Validation sections 6.1 to 6.5), the generator's order, the validator, where in a value
  each fault lies, the two type printers as token lists, a parser for them, and the meaning of
  a generated module read from top to bottom.
* `Transcript`, `Conversation`, `TurnSession`, `Prompts`, `Delivery`: quoting of forged
  headings, the rendered conversation and its reader, which messages reach a CLI session, and
  the same read off the prompts themselves.
* `UnlockThrottle`, `Cassette`, `Notices`: the smaller cores.

## Where the code does less than its comments say

The model follows the code.  Each of these is proved, with the exact condition where there
is one.

* A scheduled turn can end with every row resolved and nobody to resume it, in three ways.
  The expiry sweep resolves rows but launches nothing (`SweepLosesResume`).  A worker leaves
  the set of resuming turns only after it has parked again, so a denial in between is refused
  its launch (`ReparkRaceLosesResume`).  And because a park inserts its rows one by one, a
  check can pass on the first alone; its worker finds the next row pending and, while it
  leaves, stands in the way of the launch that row earned (`StaleLaunchLosesResume`).  There
  is no fourth (`NoLostResume`): a batch is driven if no check that passed before its last row
  was still at work then, and the sweep was not last (`NoLostResumeOfFreshBatch`); with
  nothing older at work it is driven if and only if a check passed after its last row was
  parked (`FreshBatchDrivenIff`), and a turn once lost stays lost (`SettledForever`).
* For the same reason a worker can drive a turn whose park is half inserted
  (`DrivesHalfParked`): the model is then shown a call without its result (`HalfParkedResume`).
  Every transcript is paired if and only if each resume found exactly the rows of the park it
  resumed (`TranscriptIntegrity`); when no park is resumed twice, that is if and only if none
  was half inserted (`HalfParkedIff`).  A park resumed twice can also mix the rows of two
  parks in one batch (`MixedBatchResume`).  Runs of the protocol that do neither show only
  paired transcripts, within the budgets (`ProtocolKeepsTranscripts`).
* A park can be driven twice: two denials can both resolve before either checks, and the
  chat page's resume has no guard at all (`DoubleDrive`; exactly when: `DrivenTwiceIff`,
  `DrivenAtMostOnce`).  The eight steps and eight calls "per turn" then become fifteen: each
  further resume of a park costs up to seven more, and no history costs more than that
  (`BudgetsSurvive`, `BoundsAttained`).
* A row approved in time stays `approved` for good, and its turn unresolved, if and only if
  at its claim its arguments no longer validate or its time to live is over
  (`ClaimAbandonsIff`, `AbandonedForever`, `LateClaimAbandons`).
* `_delta_text_or_empty` announces a stateless call when there is nothing new to send; the
  call goes out under the same session id with the whole transcript
  (`AssistantOnlyStepRedelivers`).  A process that fails midway leaves the count behind, so
  a retry hands its messages over twice (`RetryRedelivers`).  Exactly these calls break
  exactly-once delivery (`ExactlyOnce`).
* `_flatten` keeps the newest 500 turns of the first 2000 messages: past 2000 it is the
  newest turns that go (`KeepsTheNewest`).
* A tool call without a name, after any denial in the turn, fails an assertion while its
  denial key is built (`NamelessCallTrips`; exactly when: `TripsIff`, `RunTripsIff`).
* The cap of sixteen streamed tool calls also drops a stream that continues after the
  sixteenth index appeared (`SixteenthCallMustComeLast`).
* A model or research call that raised while recording leaves no row, so its replay is not
  faithful; every other session replays exactly (`ReplayIsIdentityExactly`).
* Two first hellos for one desktop id can both pass the proof (`FirstHellosRace`); when the
  registered key is the bound one is stated exactly (`RegisteredKeyIsBoundIff`), and it
  always is when no other challenge of the id succeeds in between and the binding the hello
  saw has not outlived its time (`SoleProofBinds`).

## Model

| member | source | states |
|---|---|---|
| Approvals.ApprovalStore.CreatePending | app/smartbrain_3000/approvals.py:59-86 | the table grows by one pending row of this session |
| Approvals.ApprovalStore.ListPending | app/smartbrain_3000/approvals.py:88-121 | exactly the stale pending rows expire, nothing else changes; the pids are the newest pending rows of this session |
| Approvals.ApprovalStore.Cas | app/smartbrain_3000/approvals.py:208-222 | wins iff the row exists, has the expected status and is within its time to live; only a win changes the table, and only that row |
| Approvals.ApprovalStore.Approve | app/smartbrain_3000/approvals.py:224-226 | one approval wins: pending to approved, and nothing else |
| Approvals.ApprovalStore.Deny | app/smartbrain_3000/approvals.py:228-230 | pending to denied, and nothing else |
| Approvals.ApprovalStore.Claim | app/smartbrain_3000/approvals.py:232-234 | the single-use claim: approved to executed, and nothing else |
| Approvals.ApprovalStore.StoreResult | app/smartbrain_3000/approvals.py:182-201 | writes only into an executed row without a result |
| Approvals.ApprovalStore.ListForTurn | app/smartbrain_3000/approvals.py:151-180 | this session's rows among the first 200 of the turn, oldest first |
| Approvals.ListAgreesWithButton | app/smartbrain_3000/approvals.py:88-107 | the list offers exactly the rows an approval at that moment would win, while at most 200 are pending |
| Approvals.MoveTells | app/smartbrain_3000/approvals.py:88-222 | a move wins iff the row has the expected status and is at most an hour (chat) or thirty days old, and then changes status and time alone; the sweep expires exactly the pending rows that are older |
| Approvals.OfferedTells | app/smartbrain_3000/approvals.py:104-121 | newest first, exactly this session's pending rows with fewer than 200 newer pending ones of any session |
| Approvals.TurnListTells | app/smartbrain_3000/approvals.py:151-180 | oldest first, exactly this session's rows of the turn with fewer than 200 older ones of the turn |
| Approvals.ResolvedIff | app/smartbrain_3000/agent.py:694-715 | a row no longer blocks its turn iff it was denied, expired, has its result, or was claimed over fifteen minutes ago |
| Approvals.ResolvedStays | app/smartbrain_3000/agent.py:694-715 | a resolved row stays resolved under every operation and at every later time |
| ApprovalProtocol.EveryRunKeepsRows | app/smartbrain_3000/agent_routes.py:399-483 | in every interleaving each approved row has one owner, whose position fixes its status, its run and its result |
| ApprovalProtocol.SingleUse | app/smartbrain_3000/tools.py:2961-3011 | in every interleaving a row's handler runs at most once, only after approval and claim; its result is written at most once, and only if the handler ran |
| ApprovalProtocol.OnlyEdges | app/smartbrain_3000/approvals.py:97-103 | every event moves a row along a declared edge or not at all, and never replaces a stored result |
| ResumeProtocol.EveryRunKeepsTurns | app/smartbrain_3000/agent_routes.py:330-396 | a turn is in the resuming set iff one worker works for it; whoever found its rows resolved found them so for good unless more were parked; a fully resolved turn was driven since its last park, or a launch was refused, or the sweep came last, or a thread is still bound to check or to drive it |
| ResumeProtocol.NoLostResume | app/smartbrain_3000/agent_routes.py:294-304 | when all is quiet and a scheduled turn's rows are resolved, a worker drove it after its last row was parked, or the sweep came last, or a passed check was refused by a worker that dates from before that row |
| ResumeProtocol.NoLostResumeOfFreshBatch | app/smartbrain_3000/agent_routes.py:486-505 | a batch is driven after its last row was parked, unless a worker or a passed check of an earlier time was still at work at that moment, or the sweep resolved the last row |
| ResumeProtocol.FreshBatchDrivenIff | app/smartbrain_3000/agent_routes.py:294-304 | when all is quiet and nothing older was at work when its last row was parked, a batch was driven iff a check passed after that |
| ResumeProtocol.SettledForever | app/smartbrain_3000/agent_routes.py:486-505 | once all is quiet and a turn is resolved, no continuation parks or drives it again |
| ResumeProtocol.WorkersNeverOverlap | app/smartbrain_3000/agent_routes.py:285-291 | two workers never drive one turn at once |
| ResumeProtocol.WorkerSeesAllResolved | app/smartbrain_3000/agent_routes.py:351-372 | a worker that starts before anything more is parked finds every row resolved and goes on to drive |
| ResumeProtocol.DrivenTwiceIff | app/smartbrain_3000/agent_routes.py:280-291 | when all is quiet, a batch was driven more than once iff a launch went through although it had been driven |
| ResumeProtocol.DrivenAtMostOnce | app/smartbrain_3000/agent_routes.py:486-505 | at most once if no earlier check was at work when its last row was parked and no other request was on its way to the check when one passed |
| ResumeProtocol.ClaimAbandonsIff | app/smartbrain_3000/agent_routes.py:435-443 | after a claim the row stays approved in every continuation iff its arguments did not validate or it had outlived its time to live |
| ResumeProtocol.AbandonedForever | app/smartbrain_3000/agent_routes.py:435-443 | an approved row whose request is past its claim stays approved in every continuation, and its turn is never fully resolved |
| ResumeProtocol.CheckReadsEveryRow | app/smartbrain_3000/approvals.py:151-180 | the rows listed for a check are all of the turn's rows, while they are at most 200, so the check passes iff every row is resolved |
| ResumeRuns.SweepLosesResume | app/smartbrain_3000/approvals.py:97-103 | a run that ends with every row resolved by the sweep and the turn never driven |
| ResumeRuns.ReparkRaceLosesResume | app/smartbrain_3000/agent_routes.py:379-390 | a run in which a denial between re-park and leave is refused its launch and the turn is lost |
| ResumeRuns.StaleLaunchLosesResume | app/smartbrain_3000/agent.py:397-413 | a run in which a check passes on the first of two rows, its worker finds the second pending, and the denial of that row is refused its launch |
| ResumeRuns.DrivesHalfParked | app/smartbrain_3000/agent.py:397-413 | a run in which a worker drives a turn while a row of its park is still to be inserted |
| ResumeRuns.DoubleDrive | app/smartbrain_3000/agent_routes.py:501-505 | a run in which one fully parked batch is driven twice |
| ResumeRuns.LateClaimAbandons | app/smartbrain_3000/agent_routes.py:435-443 | a run in which a claim comes after the time to live and the row is abandoned |
| AgentTurn.Chokepoint | app/smartbrain_3000/agent.py:369-394 | nothing irreversible runs without a park, nothing denied parks or runs again, a write runs only with remembered consent, "bad arguments" is said only of bad arguments |
| AgentTurn.TakeCalls | app/smartbrain_3000/agent.py:581-592 | the message of calls, the inline results in call order, the counters, and the calls that wait |
| AgentTurn.RunTurnLoop | app/smartbrain_3000/agent.py:531-598 | the bounded loop: its ending, its turn and every transcript shown; TurnContent.LoopTells says what these are |
| AgentTurn.LoopCounts | app/smartbrain_3000/agent.py:531-598 | one run shows at most one transcript per step left, each below the context budget, ends with exact counters, and parks only calls it has counted |
| AgentTurn.LoopKeeps | app/smartbrain_3000/agent.py:536-598 | from a paired transcript one run shows only paired ones, and leaves exactly the calls it parks open |
| AgentTurn.TripsIff | app/smartbrain_3000/agent.py:228-237 | a run fails the key assertion iff something was denied and the model, while it is asked, makes a call within the call budget without a name but with readable arguments |
| AgentTurn.ResumeTurn | app/smartbrain_3000/agent.py:718-764 | unknown iff there are no rows, still waiting iff a row blocks (with the pending rows in order and whether one is running), else a run from the batch of the largest step with all denials of the turn; what it tells the model of each row is fixed by TurnContent.ResumeTells |
| AgentTurn.RebuiltIsExact | app/smartbrain_3000/agent.py:505-511 | the recounted tool text of a resume equals the counter carried on, and steps and calls go on from the snapshot |
| AgentTurn.RebuiltIsPairedIff | app/smartbrain_3000/agent.py:742-758 | a rebuilt transcript is paired iff the ids of the batch's rows are the ids its snapshot left open, each once |
| AgentTurn.DeniedOnceDeniedAlways | app/smartbrain_3000/agent.py:750-753 | a pair denied in any park neither parks nor runs in a resume that reads that row |
| TurnContent.CallFate | app/smartbrain_3000/agent.py:240-394 | the whole decision table: a call waits, runs, or is told that it was denied, cannot run or has bad arguments, by its name, arguments, tier, consent and denials alone |
| TurnContent.StepTells | app/smartbrain_3000/agent.py:580-595 | a step appends the asking message and then, in call order, one result per call that does not wait: the start of what the call returned if it ran, of the reason if it did not; the calls that wait are the others, in order |
| TurnContent.LoopTells | app/smartbrain_3000/agent.py:531-598 | every run, step by step: each transcript is the one before with one more step, and each ending has its condition; a failed round trip is answered without tools iff no tool was called before |
| TurnContent.OnlyAppends | app/smartbrain_3000/agent.py:531-598 | every transcript of a run starts with the one the run started from |
| TurnContent.ResumeTells | app/smartbrain_3000/agent.py:742-758 | a resumed turn shows the parked transcript and then, for each row of the last park in order, a result under the row's call id: the start of the stored result if it ran, of the interrupted text if no result was stored, of the denial otherwise; every later transcript starts with this |
| TurnContent.DeniedExactly | app/smartbrain_3000/agent.py:749-749 | the denied pairs of a resume are exactly those of the denied rows, of any park |
| TurnContent.EveryResumeTells | app/smartbrain_3000/agent.py:718-764 | in every history each resumed run that asks shows first the transcript of the run that parked, with one such result per row of that park |
| TurnHistory.TranscriptIntegrity | app/smartbrain_3000/agent.py:582-595 | in every history, all transcripts shown to the model have each call's result right behind it, id for id, iff every resume that asked found exactly the rows of the park it resumed |
| TurnHistory.HalfParkedIff | app/smartbrain_3000/agent.py:397-413 | when no park is resumed twice, all transcripts shown are paired iff no resume that asked came while its park was still being inserted |
| TurnHistory.ReadsLastPark | app/smartbrain_3000/agent.py:742-746 | when no park is resumed twice, the batch of a resume is what is inserted of the last run's park, in order |
| TurnHistory.HalfParkedResume | app/smartbrain_3000/agent.py:718-764 | a history in which the model is shown two calls and one result |
| TurnHistory.MixedBatchResume | app/smartbrain_3000/agent.py:742-758 | a history in which a park resumed twice fills one batch with the rows of two parks, and a transcript that is not paired is shown though no park was half inserted |
| TurnHistory.BudgetsSurvive | app/smartbrain_3000/agent.py:5-27 | in every history each run ends with exact counters within the budgets; all runs together make at most eight round trips and eight tool calls, plus seven for each further resume of a park, and park no more rows than calls made |
| TurnHistory.BoundsAttained | app/smartbrain_3000/agent.py:24-27 | for every number of further resumes a history that attains both bounds |
| TurnHistory.ContextBudgetHolds | app/smartbrain_3000/agent.py:498-541 | no run shows a transcript whose tool text has reached that run's context budget |
| TurnHistory.DeniedNeverParksAgain | app/smartbrain_3000/agent.py:750-753 | in every history no run parks a call that a row it read shows as denied |
| TurnHistory.RunTripsIff | app/smartbrain_3000/agent.py:381-381 | in every history a run fails the key assertion iff a row it read was denied and the model, while that run asks, makes a call within the call budget without a name but with readable arguments |
| TurnHistory.NamelessCallTrips | app/smartbrain_3000/agent.py:228-237 | a history in which a nameless call after a denial fails the assertion |
| TurnRuns.EveryTaleIsTrue | app/smartbrain_3000/agent_routes.py:340-396 | every run of the protocol, with what the model says at each drive, makes a history of the turn: the rows agree in number, each worker parks what its run parked, and whether a drive met a half-inserted park or a park driven before is as the protocol shows it |
| TurnRuns.ProtocolKeepsTranscripts | app/smartbrain_3000/agent.py:718-764 | in every run of the protocol in which no worker drives the turn while a row is still to be parked, and none drives it twice since its last row was parked, all transcripts shown are paired and all drives together keep to eight round trips and eight tool calls |
| FinalizePrompt.KeepToolText | app/smartbrain_3000/agent.py:626-640 | keeps a prefix of the first result and the longest newest suffix of the rest that fits, its oldest chunk possibly cut |
| FinalizePrompt.FitForFinalize | app/smartbrain_3000/agent.py:613-651 | system prompt, last question, kept text and nudge, in that order |
| FinalizePrompt.PromptFits | app/smartbrain_3000/agent.py:624-640 | the kept text and what stands before it stay within the budget, or within the question plus a third of it |
| FinalizePrompt.KeptIsUnique | app/smartbrain_3000/agent.py:632-640 | the specification determines the kept list |
| FinalizePrompt.NothingDroppedWhenItFits | app/smartbrain_3000/agent.py:632-640 | when everything fits, nothing but the first result's tail is lost |
| FinalizePrompt.FirstTells | app/smartbrain_3000/agent.py:625-625 | the first message of a role, none only if there is none |
| FinalizePrompt.LastTells | app/smartbrain_3000/agent.py:626-626 | the last message of a role, none only if there is none |
| FinalizePrompt.ChunksTell | app/smartbrain_3000/agent.py:627-627 | the tool results, each once and in order |
| FinalizePrompt.AnchorTells | app/smartbrain_3000/agent.py:630-633 | the first kept text is the start of the first result, a third of the budget at most |
| FinalizePrompt.JoinTells | app/smartbrain_3000/agent.py:643-649 | the kept texts stand in order, a separator between each two |
| ToolCallStream.AssembleToolCalls | app/smartbrain_3000/agent_routes.py:718-768 | the assembled list, None on anything doubtful; FoldSays and AnyFragmentationReassembles say which list that is |
| ToolCallStream.FoldTells | app/smartbrain_3000/agent_routes.py:728-749 | folding fragments succeeds iff they are well shaped and within the caps, and then gives what the fragments of each index tell |
| ToolCallStream.ToldIff | app/smartbrain_3000/agent_routes.py:737-749 | the fragments of an index say exactly one call: the last id and the last name given, and the text that cuts into their pieces in arrival order |
| ToolCallStream.FoldSays | app/smartbrain_3000/agent_routes.py:728-749 | after a stream exactly the indices that occurred are known, each with the call its fragments say |
| ToolCallStream.InArrivalOrder | app/smartbrain_3000/agent_routes.py:729-734 | fragments count chunk after chunk, and a chunk of the wrong shape as one bad fragment |
| ToolCallStream.AnyFragmentationReassembles | app/smartbrain_3000/agent_routes.py:718-768 | however fewer than sixteen calls are cut into pieces and interleaved, the stream assembles to these calls in index order, with names, ids and parsed arguments, iff every call is sound |
| ToolCallStream.SixteenthCallMustComeLast | app/smartbrain_3000/agent_routes.py:735-736 | once sixteen indices are there, one more fragment of any index drops the stream |
| BrokerTables.Closing | signaling/server.py:455-466 | closing any handler keeps every table and count consistent, and a phone's release never goes below zero |
| BrokerTables.Joining | signaling/server.py:613-639 | admitting a phone keeps both caps, both phone tables and the room count consistent |
| BrokerTables.BeginningProof | signaling/server.py:403-422 | a proof round trip keeps the open-mode bound on desktops and proofs |
| BrokerTables.Registering | signaling/server.py:426-427 | registration trades a proof for a desktop within the bound |
| Broker.SignalingBroker.Connect | signaling/server.py:384-388 | counts the socket, or refuses it before its hello at the per-address cap |
| Broker.SignalingBroker.AdmitIpHello | signaling/server.py:468-480 | the hello limiter of one address |
| Broker.SignalingBroker.SweepIpHellos | signaling/server.py:482-493 | drops expired buckets, then the oldest until the map fits |
| Broker.SignalingBroker.AdmitDesktop | signaling/server.py:539-557 | the token check, or the open-mode cap and rate |
| Broker.SignalingBroker.AdmitPhone | signaling/server.py:613-639 | both caps, the rate, and the reserved slot |
| Broker.SignalingBroker.SweepRateMap | signaling/server.py:664-674 | drops what expired among the first keys |
| Broker.SignalingBroker.ReceiveHello | signaling/server.py:393-452 | one await-free hello step: verdict, tables and limiters; BrokerVerdicts.HelloVerdict says which verdict |
| Broker.SignalingBroker.FinishProof | signaling/server.py:422-427 | registers the socket, or leaves it to go |
| Broker.SignalingBroker.ReleasePhone | signaling/server.py:641-651 | one phone less in the room, no zero entries |
| Broker.SignalingBroker.Close | signaling/server.py:455-466 | the cleanup, identity-checked for a desktop |
| Broker.SignalingBroker.RouteOffer | signaling/server.py:583-587 | an offer goes to the socket registered for the room |
| Broker.SignalingBroker.RouteAnswer | signaling/server.py:602-611 | an answer goes only to a phone of the answering desktop's room |
| Broker.EveryRunIsGood | signaling/server.py:379-466 | at every await point of every run the tables agree with each other and with the live handlers, and every cap holds |
| Broker.WindowsHold | signaling/server.py:653-674 | in every half-open interval of a window's length at most the limit of phone connects per id, open-mode registrations, and hellos per address not thrown out by an overflow |
| Broker.RoutesWithinTheRoom | signaling/server.py:583-611 | in every run offers reach a live desktop of the id and answers a live phone of the room |
| Broker.NothingLeaks | signaling/server.py:455-466 | when every handler has ended, every table is empty |
| BrokerVerdicts.HelloVerdict | signaling/server.py:390-452 | in every run, for every verdict, the exact condition over the history and the live sockets under which a hello gets it (a desktop is challenged iff its address is below the hello limit, the id is given, token or cap and rate admit it, and no desktop holds the id; and so on), and where the socket then stands; for addresses no overflow has thrown out |
| BrokerVerdicts.SocketsStand | signaling/server.py:379-466 | in every run a socket is let in iff fewer than the cap of its address are live, and every step moves the socket it is about and no other |
| BrokerVerdicts.OfferDeliveredIff | signaling/server.py:583-587 | in every run an offer for an id is delivered to a socket iff that socket registered last under the id and has not ended since |
| BrokerVerdicts.AnswerDeliveredIff | signaling/server.py:602-611 | in every run an answer is delivered to a socket iff it is the live phone of that name and it dialled the answering desktop's id |
| BrokerRates.ConnectAdmission | signaling/server.py:613-639 | admitting and sweeping never forget a connect that still counts |
| BrokerRates.PhoneRefusal | signaling/server.py:621-632 | a phone is refused exactly at a cap, or when the connects of the last window have reached the limit |
| BrokerRates.HelloAdmission | signaling/server.py:468-493 | the hello map always fits, and only an overflow forgets a live address |
| BrokerRates.HelloRefusal | signaling/server.py:468-480 | an address not thrown out is refused iff its hellos of the last window have reached the limit |
| BrokerRates.TrimmedKeepsNewest | signaling/server.py:492-493 | an overflowing hello map keeps its newest 1024 addresses |
| BrokerRates.SweptKeepsOrder | signaling/server.py:482-491 | a sweep keeps the order of the keys and drops, of those it visits, exactly the ones with nothing recent |
| RateWindow.PruneRemembers | signaling/server.py:653-662 | pruning the bucket is pruning the whole history |
| RateWindow.AtMostLimitPerWindow | signaling/server.py:653-662 | a history admitted below the limit never exceeds it in any window |
| DesktopProof.BeginProof | signaling/server.py:504-513 | what is decided before the challenge |
| DesktopProof.FinishProof | signaling/server.py:518-528 | what is decided on the reply, and what it leaves in the map |
| DesktopProof.HelloVerdict | signaling/server.py:504-513 | let in at once iff the client names no key, the grace is on and no key is bound; challenged iff it names a key and no other is bound; else refused |
| DesktopProof.ReplyVerdict | signaling/server.py:518-528 | refused iff the signature fails, busy iff the id is new and every place is held by a live id; what the map then holds for this id, and that no other live id changes |
| DesktopProof.OnlyTheKeyHolder | signaling/server.py:495-513 | an id bound at its hello is registered only under its bound key and a valid signature |
| DesktopProof.RegisteredKeyIsBoundIff | signaling/server.py:506-528 | the registered key is the bound one iff the map held no other key at the reply and had not reclaimed the binding |
| DesktopProof.FirstHellosRace | signaling/server.py:506-526 | two first hellos with different keys can both pass |
| DesktopRuns.SoleProofBindsIff | signaling/server.py:495-528 | in every run a desktop registered while no other challenge of its id succeeds is registered under the bound key iff a binding its hello saw was not reclaimed meanwhile |
| DesktopRuns.SoleProofBinds | signaling/server.py:237-253 | it was not reclaimed if the binding had not outlived its time to live, so the registered key is then the bound key |
| KeyedBroker.OffersReachTheKeyHolder | signaling/server.py:403-466 | in every run of the broker with its binding map an offer goes to a live desktop socket of its id, and if that socket was registered alone with its binding still in the map, it signed with the key the map holds for the id, as long as the map holds one |
| Bindings.BindingMap.constructor | signaling/server.py:210-218 | starts from the file when persisted, within its bound |
| Bindings.BindingMap.Load | signaling/server.py:258-275 | the last usable records, or nothing |
| Bindings.BindingMap.Touch | signaling/server.py:224-235 | marks the id as seen; the disk follows at most hourly |
| Bindings.BindingMap.Bind | signaling/server.py:237-253 | binds on first sight, evicting only stale ids, and refuses when full |
| Bindings.BindTells | signaling/server.py:237-253 | a refusal changes nothing and happens exactly when the id is new and every place is live; no live id loses its place or key |
| Bindings.KeyIsStable | signaling/server.py:224-253 | an id touched at least once per ttl keeps its first key for the whole run |
| Bindings.LoadedBounded | signaling/server.py:258-275 | whatever the file holds, the map starts within its bound |
| Bindings.LoadedTells | signaling/server.py:258-275 | exactly the usable records among the last `max` of the file are loaded, with their keys and times |
| Bindings.LoadOfSave | signaling/server.py:258-288 | loading what was saved gives back the same map, in the same order |
| SchemaOrder.Ordered | tools/gen-ni-schema.py:313-322 | returns every name once, dependencies first, each the first that was ready; fails only with a stuck set |
| SchemaOrder.StuckHasNoOrder | tools/gen-ni-schema.py:319-319 | when it fails no order exists |
| SchemaOrder.StuckIffCycleOrDangling | tools/gen-ni-schema.py:319-319 | it can fail iff there is a dependency cycle or a reference to an unknown name |
| SchemaOrder.RefGoesDown | tools/gen-ni-schema.py:257-258 | the order gives a rank that falls through every reference |
| SchemaValidate.ValidateValue | tools/gen-ni-schema.py:254-282 | the validator's error list, terminating through references; SchemaFaults.ErrorsAreFaults and ErrorsInOrder say which list |
| SchemaValidate.ValidateObject | tools/gen-ni-schema.py:285-296 | the object's missing, unknown and nested errors, in order |
| SchemaValidate.ValidateTells | tools/gen-ni-schema.py:254-296 | no error is reported iff the value conforms, as stated without error lists |
| SchemaFaults.ErrorsAreFaults | tools/gen-ni-schema.py:254-296 | an error is reported iff it is a fault: from the path it was asked for, the error's path leads through items, listed and extra keys, references followed and nothing entered below an anyOf, to a part that breaks its schema's numbers, kind, enum or keys as the error says |
| SchemaFaults.ConformsIffFaultless | tools/gen-ni-schema.py:254-296 | a value conforms iff it has no fault |
| SchemaFaults.ErrorsInOrder | tools/gen-ni-schema.py:267-296 | errors come in the order of the value: its own and its missing keys first, then those of its items or fields one after the other |
| TypeText.PrintThenParse | tools/gen-ni-schema.py:348-365 | parsing a printed tree, `[]` binding tighter than the bar, gives the tree back |
| TypeText.TsArrayParses | tools/gen-ni-schema.py:358-360 | parentheses stand wherever an element type needs them |
| TypeText.DedupPrints | tools/gen-ni-schema.py:325-326 | dropping repeated texts drops exactly the repeated types |
| TypeText.TypeParses | tools/gen-ni-schema.py:329-365 | the text printed for a schema, in either language, parses to the intended type |
| TypeMeaning.IdentsAreDeps | tools/gen-ni-schema.py:329-365 | a printed type mentions only names its schema depends on |
| TypeMeaning.NoForwardReference | tools/gen-ni-schema.py:313-314 | every name a generated declaration mentions is declared above it |
| TypeMeaning.GenerationIsSound | tools/gen-ni-schema.py:380-426 | a value the validator accepts inhabits the type that the printed text means in the generated module, in both languages |
| TypeExactness.GenerationIsExact | tools/gen-ni-schema.py:380-426 | for values whose texts and lists hold at most 2^30 elements, with Python's `int` read as excluding `bool`: a value inhabits the printed type iff it conforms to the schema without its bounds, its closed records, its unnamed records and, in TypeScript, its integers |
| Transcript.NeutralizedIsInert | app/smartbrain_3000/claudecli.py:423-426 | no line of a quoted text opens with a sentinel heading |
| Transcript.UnchangedIffInert | app/smartbrain_3000/claudecli.py:80-82 | quoting changes exactly the texts that hold a heading |
| Transcript.NeutralizeTwice | app/smartbrain_3000/claudecli.py:423-426 | quoting is idempotent |
| Transcript.NeutralizeOnlyQuotes | app/smartbrain_3000/claudecli.py:423-426 | nothing is lost, moved or added but the quote marks |
| Transcript.InertTells | app/smartbrain_3000/claudecli.py:80-82 | the recursive reading of "no heading" is the line-by-line one |
| Transcript.HeadingIff | app/smartbrain_3000/claudecli.py:80-82 | a heading is found iff the pattern, read as it is written, matches, and then its hashes and its end are where that reading has them |
| Conversation.RenderAssistant | app/smartbrain_3000/claudecli.py:429-441 | the quoted content and the fenced calls, at most sixteen |
| Conversation.Flatten | app/smartbrain_3000/claudecli.py:444-471 | the whole prompt |
| Conversation.FlattenDelta | app/smartbrain_3000/claudecli.py:474-493 | the new user and tool turns, at most 500 messages of them |
| Conversation.BodyIsInert | app/smartbrain_3000/claudecli.py:429-441 | no line of any rendered turn opens with a heading, fenced calls included |
| Conversation.TurnsParse | app/smartbrain_3000/claudecli.py:456-471 | a conversation splits at its sentinel lines into one segment per turn, with role and body |
| Conversation.FlattenedParses | app/smartbrain_3000/claudecli.py:444-471 | the prompt's conversation reads back as exactly the kept turns, whatever they contain |
| Conversation.DeltaParses | app/smartbrain_3000/claudecli.py:474-493 | a delta reads back as its turns |
| Conversation.KeepsTheNewest | app/smartbrain_3000/claudecli.py:452-456 | the kept turns are the newest iff only system messages stand past position 2000 |
| Prompts.KeptTells | app/smartbrain_3000/claudecli.py:451-456 | a full prompt carries the newest 500 of the messages that are not system among the first 2000, each once and in order |
| Prompts.DeltaTells | app/smartbrain_3000/claudecli.py:484-493 | a delta carries exactly the user and tool messages among the first 500 new ones, in order |
| Prompts.TurnTells | app/smartbrain_3000/claudecli.py:429-467 | a turn has its message's role; its text is the content with heading lines quoted, and for the assistant then the first sixteen calls, each fenced on lines of its own |
| Prompts.JoinTells | app/smartbrain_3000/claudecli.py:456-471 | turns stand one after the other, each under the heading line of its role, a blank line between each two |
| Prompts.PreambleHolds | app/smartbrain_3000/claudecli.py:451-471 | the preamble holds every system message among the first 2000, unchanged and in order, then the closing and the tool protocol |
| TurnSession.Session.Disable | app/smartbrain_3000/claudecli.py:196-200 | gives the session up |
| TurnSession.Session.Close | app/smartbrain_3000/claudecli.py:202-210 | closes it, idempotently |
| TurnSession.Session.TryResume | app/smartbrain_3000/claudecli.py:617-644 | one resumed process: success, fallback, or a raise; what its prompt says is fixed by Delivery.EveryPromptTells |
| TurnSession.Session.ChatStream | app/smartbrain_3000/claudecli.py:579-614 | one call: its processes, what each carries and is sent (Delivery.EveryPromptTells), and the state it leaves |
| TurnSession.ExactlyOnce | app/smartbrain_3000/claudecli.py:617-644 | on an append-only list of at most 500 messages the session holds every user and tool message up to the count once and in order iff no call redelivered, and a redelivery is never made good |
| TurnSession.DeltaRefinesFull | app/smartbrain_3000/claudecli.py:474-507 | when processes complete and every later call brings a user or tool message, the session has been given all of them, each once, in order |
| TurnSession.EarlyFailureFallsBack | app/smartbrain_3000/claudecli.py:632-642 | a resume that fails before its first chunk sends the whole transcript statelessly and gives the session up |
| TurnSession.NeverResumedAgain | app/smartbrain_3000/claudecli.py:601-614 | every later call of the turn is stateless and whole |
| TurnSession.AssistantOnlyStepRedelivers | app/smartbrain_3000/claudecli.py:496-507 | a step with only assistant text sends the whole prompt into the same session |
| TurnSession.RetryRedelivers | app/smartbrain_3000/agent.py:468-478 | a retry after a midway failure hands the delta over again |
| Delivery.EveryPromptTells | app/smartbrain_3000/claudecli.py:579-644 | every prompt of every turn belongs to one of its calls and reads back, by its heading lines, as exactly the messages that call had to carry: a resumed process is sent the new user and tool messages alone, any other one the preamble and the recent messages |
| Delivery.DeliveredOnce | app/smartbrain_3000/claudecli.py:579-644 | over any such turn the prompts told the session every user and tool message up to the count, each once and in order, iff no call redelivered |
| Delivery.PromptsDeliverAll | app/smartbrain_3000/claudecli.py:474-507 | when processes complete and every later call brings something new, the prompts told the session the whole of the last list, each message once and in order |
| UnlockThrottle.Guard.RetryAfter | app/smartbrain_3000/account.py:321-326 | the whole seconds left to wait |
| UnlockThrottle.Guard.Record | app/smartbrain_3000/account.py:328-339 | a success clears the backoff, a failure counts and extends it |
| UnlockThrottle.Guard.Enter | app/smartbrain_3000/account.py:373-378 | takes the slot, or says why not |
| UnlockThrottle.Guard.Leave | app/smartbrain_3000/account.py:379-387 | records a guess or a success, or neither, and frees the slot |
| UnlockThrottle.OneDerivationAtATime | app/smartbrain_3000/account.py:360-387 | in every run at most one derivation is in progress |
| UnlockThrottle.DoorVerdict | app/smartbrain_3000/account.py:360-378 | in every run an attempt is busy iff a derivation runs, else let in iff fewer than five failures stand or the delay of the last is over, else told the least whole seconds that are enough |
| UnlockThrottle.DelayTells | app/smartbrain_3000/account.py:328-338 | no delay before the fifth failure, then one second, doubled by each failure up to 300 |
| UnlockThrottle.FailureSpan | app/smartbrain_3000/account.py:328-338 | n failures without a success span at least 511 + 300 (n - 14) seconds for n >= 14, and 2^(n-5) - 1 seconds before |
| UnlockThrottle.GuessesInWindow | app/smartbrain_3000/account.py:328-338 | past the cap, k further failures take at least 300 k seconds |
| UnlockThrottle.BoundAttained | app/smartbrain_3000/account.py:61-66 | the bound is exact for every n |
| UnlockThrottle.NeverLockedOut | app/smartbrain_3000/account.py:321-326 | no wait exceeds 300 seconds, and 300 seconds after the last failure a free slot admits |
| Cassette.Session.FetchCall | tools/ni-eval.py:387-418 | records the answer or failure, or replays the key's next row |
| Cassette.Session.SearchCall | tools/ni-eval.py:344-367 | the same for a search, by query; a recorded failure comes back as its type name and first 200 characters |
| Cassette.Session.ModelCall | tools/ni-eval.py:310-324 | records a reply, or serves the next one and counts drift |
| Cassette.Session.ResearchTurn | tools/ni-eval.py:326-342 | the same for a research turn |
| Cassette.Session.ResearchStats | tools/ni-eval.py:369-385 | the totals of the recorded or served turns, each the sum of its own meter (TotalsAreSums) |
| Cassette.TotalsAreSums | tools/ni-eval.py:369-385 | every total is the sum of its meter over the turns that report usage |
| Cassette.ComesBackIff | tools/ni-eval.py:344-426 | what comes back of an answer: a text as it was, a dictionary with exactly its JSON fields, a failure with kind, status and 300 characters, a search failure as one text |
| Cassette.DriftIsDifference | tools/ni-eval.py:310-342 | a replay counts as drift exactly the model and research calls whose row was recorded for another prompt |
| Cassette.ReplayIsIdentity | tools/ni-eval.py:310-418 | replaying the same interleaved calls gives back every recorded answer and failure, without drift, and the recorded totals |
| Cassette.ReplayIsIdentityExactly | tools/ni-eval.py:310-418 | every answer comes back iff no model or research call raised |
| Cassette.RepeatsServeTheLast | tools/ni-eval.py:392-399 | repeats past the last row of a key serve that row |
| Cassette.ReplayNeverRaises | tools/ni-eval.py:310-342 | a replay of a recorded tape never raises a model or research failure of its own |
| Notices.SelectNotifications | launcher/notices.go:73-100 | the new mark, and what the desktop shows for the notices above the old one |
| Notices.AboveTells | launcher/notices.go:73-100 | what surfaces is the notices above the mark, each as often as answered and in that order |
| Notices.Watcher.Poll | launcher/notices.go:27-42 | a failed poll changes nothing, a good one moves the mark and shows what is new |
| Notices.MarkIsHighestAnswered | launcher/notices.go:18-23 | the mark is the highest id ever answered |
| Notices.SurfacesExactly | launcher/notices.go:63-100 | a notice surfaces iff an earlier poll succeeded and its id is above everything answered before |
| Notices.SilentPolls | launcher/notices.go:27-42 | a poll surfaces nothing iff it failed, is the first to succeed, or answers nothing positive above every id answered before |
| Notices.NeverTwice | launcher/notices.go:63-100 | no notice surfaces in two polls |

## Left out

- Encryption, SQL, JSON text and hashing: rows, files and tapes are exact stores, hashes total functions.
- Networks, SSE framing, subprocess and watchdog code, tray and installer code: plumbing.
- Vault locks and process deaths in the middle of a request or worker: the protocol's threads always come to their next step, and one unlock session is modelled (`ApprovalStore` itself keeps sessions apart).  A consent write that fails between approval and run, or a lock between claiming the resume and starting its thread, is not modelled.
- Chat turns in the protocol: only scheduled turns have the check and the worker; TurnHistory takes resumes from anywhere, at any time.
- TurnHistory: a resume is one event at the moment it lists the rows, since what it shows depends on nothing later; the rows it parks are inserted by later events.
- TurnRuns.ProtocolKeepsTranscripts: follows one scheduled turn whose runs park as many calls as the protocol inserts rows; chat turns are left to TurnHistory.
- ApprovalStore ids: random ids are places in the table, so they do not collide; rows created in one second are listed in the order they were parked.
- Approvals.ListAgreesWithButton: with more than 200 pending rows the list is cut, so the equivalence is stated for at most 200.
- TurnHistory.BudgetsSurvive: the recount of a resume counts all tool messages, so the equality is stated for an opening transcript without any, which is what the routes build.
- AgentTurn.RunTurnLoop: recovery of tool calls printed as text, citations, usage, progress events and the transient retry of one round trip are not in the loop; a response is what they leave.
- AgentTurn argument JSON: a (name, args) pair stands for the canonical key.
- FinalizePrompt.PromptFits: the joining words between chunks and the closing nudge are not counted, as the code does not count them.
- Broker per-socket limiters on offers and answers, TURN credentials, client address parsing: local to one socket or one function.
- Broker.WindowsHold: hello windows are stated for addresses no overflow has thrown out, since an overflow may forget a live one.
- BrokerVerdicts.HelloVerdict: stated for addresses no overflow has thrown out, since an overflow may forget hellos that still count.
- Broker phone names: random names are assumed not to collide with a live one.
- DesktopRuns.SoleProofBinds: the clock does not go back between a hello and its reply.
- BindingMap disk times: `Touch` may leave the file's times up to an hour behind, and no bound on that is stated.
- SchemaValidate.ValidateValue: `$ref` and `anyOf` stand alone, enums hold strings, and a float is never an int.
- TypeText.TypeParses: types are token lists; that no definition is named like a built-in type, and the line wrapping of long literals, are not modelled.
- TypeExactness.GenerationIsExact: the validator caps texts and lists at 2^30 where a schema sets no bound, which no type says; and `int` in the Python module is read as the validator reads an integer, without the booleans that a Python type checker would let in (an `int` is let in where a `float` is declared).
- TypeMeaning.GenerationIsSound: a record definition without a `required` list is read as requiring nothing, where the generator would stop on it.
- Transcript.NeutralizedIsInert: holds for any classification of characters with the listed properties of Python's; which characters those are is not modelled.
- Conversation.FlattenedParses: fenced calls are one line of JSON each; that a call's text can be read back out of its fence is not claimed.
- TurnSession.ExactlyOnce: stated for lists of at most 500 messages, past which both renderings cut.
- TurnSession directories: the wipe, the finalizer and the orphan sweep are file handling.
- Cassette keys: `fetch_key` and `redact_url` are any function from a request to a key.
- `_collect_sources`, prime cache, session table, render gate, version comparison: easy members.
