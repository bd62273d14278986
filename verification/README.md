# A verified model of the hx agent runtime

hx runs language-model agents against tools on real machines. This project models the parts of it whose correctness is
a matter of reasoning over whole runs and interleavings, and proves what they promise. `dafny verify dfyconfig.toml`
checks everything; nothing here was executed.

**The agent loop** (`crates/hx-agent/src/agent.rs`, `context.rs`, `compact.rs`, `crates/hx-core/src/message.rs`).
`AgentLoop` is the loop as a class: transcript, outstanding prompt and a history of every exchange with the outside,
updated in place. `World` is everything it talks to (model, capability, policy, approver, host, tools, store, clock),
each answer an arbitrary function of how many exchanges there have been, so no two queries need agree. Every method is
proved equal to a function of `AgentSpec`. `AgentMonitor` says, without reference to how the loop works, what a
history must look like: observers for the brackets of turns, calls and questions, for the gate in front of every tool,
for the calls still due, for the agreement of store and transcript, for the counts, and for what each request carries.
`AgentTheorems` proves that every run satisfies all of them, phase by phase; `AgentResults`, `AgentGate` and
`AgentCalls` read the verdicts back as plain statements about positions in the history, and `AgentTruth` proves that
what the history records of the world is what the world answered. `Compaction` proves what a compacted view of a
transcript keeps, which is what makes every request sendable.

**Concurrency.** `QueueProtocol` is the approval queue as steps that no other task can interleave with; a state is
what any sequence of steps leaves, so every theorem holds for every interleaving of any number of runs and clients,
including several questions under one id. The class `ApprovalQueue` performs those steps. That a run's timer has fired
and that its receiver is dropped are two steps. `LeaseProtocol` does the same for routed model calls and the shared
router; its class `RouterModel` takes the steps of one call along each exit path.

**Algorithms.** `EventStream` is the chunked event-stream reader against the meaning of the whole body (WHATWG HTML
section 9.2.6), and `StreamText` reads that meaning off the text a server writes; `Ladder` and `BrowserPool` the
escalating fetch; `JsLiteral` the JavaScript string printer with a decoder after section 7 of RFC 8259; `Redaction` the
notification scanner; `AccessibilityWalk` the capped tree walk; `Pinning` the pinning of resolved names; `ConstantTime`
the token comparison.

## Where code and documentation disagree

The model follows the code.

- `compact_at` is documented to keep a request under its threshold (`compact.rs:84`). It need not:
  `AViewOverItsThreshold` is a case, `ShortTranscriptsAreSentWhole` a whole family,
  `ViewFitsExactlyWhenHeadAndTailDo` the exact condition, and `ViewFitsWhenTheEndsDo` a bound to check beforehand.
- A refused call is documented as one where nothing happened (`agent.rs:764`), but some refusals come after the tool
  ran. `RefusedUnrunUnless` says exactly when, `ARefusedCallCanHaveRun` gives a run.
- `AnswerResult::Answered` is documented as having reached the run (`queue.rs:64`). Between a run's timer and the drop
  of its receiver an answer is accepted and the run still ends denied: `TakenAnswersDecideUnlessLate` is exact,
  `ALateAnswerIsTakenInVain` an interleaving.
- `outstanding` is documented as oldest first (`queue.rs:82`); it lists in the order of the ids.
  `ListedOldestFirstExactlyWhen` says when the two agree, `TheYoungerCanComeFirst` gives a case where they do not.
- A comment in `constant_time_eq` says the number of iterations depends on neither length (`api_auth.rs:115-116`); it is
  the longer length, as its documentation says.
- `redact` applied twice can change more than applied once: a workspace path whose mask covers the workspace's name
  reads as a path outside it. `SecondRedactionChangesExactlyWhen` is exact, `TextsThatChangeAgain` gives texts.
- The two replaced characters at `lib.rs:236-237` display as blanks; they are taken to be U+2028 and U+2029, as the
  comments at `lib.rs:211-213` say.

## Model

| member | source | states |
|---|---|---|
| AgentResults.EveryRequestIsSendable | crates/hx-agent/src/agent.rs:238-324 | whatever the world answers, every request of every run is the compacted view of the transcript as it then stood, under the run's own system text, tools and token limit, with each call answered and each result's call present; each result comes after its call, on a compacted view under unique ids of the calls so far, on the whole transcript always |
| AgentResults.RecentTurnsAreSentWhole | crates/hx-agent/src/compact.rs:62-69 | what a run added since an earlier request, up to twelve messages, stands whole at the end of the next request, under unique ids |
| AgentResults.TranscriptStaysSendable | crates/hx-agent/src/agent.rs:222-230 | a run that returns only appends, and leaves a whole and ordered transcript that another run can continue |
| AgentGate.EveryToolRunWasCleared | crates/hx-agent/src/agent.rs:485-678 | a tool runs only inside an announced call, as prepared for that call; with a stated requirement only after the capability granted it, nothing was withheld, and a question naming this very tool, purpose, class and targets was allowed by the policy or put to the approver, answered yes and settled as approved; a named path only as the host resolved it, and only if that was granted too |
| AgentCalls.CallsAreServedAsMade | crates/hx-agent/src/agent.rs:366-398 | each call announced is the next call of the model's latest answer, name and arguments and all, and every call of an answer was announced before the model is asked again, a turn starts or the run reports its end |
| AgentGate.NobodyIsAskedPastADenial | crates/hx-agent/src/agent.rs:485-579 | once the capability has withheld anything in a call, no policy is consulted, no prompt is put and no approver asked: a denial cannot be approved away |
| AgentGate.EverySuccessWasChecked | crates/hx-agent/src/agent.rs:648-713 | a call reported as a success carries the text its own tool returned, after its path was resolved and granted again and its bytes fitted the bound in force on what was opened |
| AgentGate.NothingUncheckedIsPushed | crates/hx-agent/src/agent.rs:379-437 | each message entering the transcript is the model's latest answer word for word, not pushed before, or the first result of the open call: for a success the checked text, for a failure the tool's own report or the wording of a refusal naming what happened in this very call; a tool's text that was taken back is in none of them, only a path or the numbers that took it back |
| AgentResults.RefusedUnrunUnless | crates/hx-agent/src/agent.rs:761-777 | a call the gate stops runs nothing; a call counted as refused ran its tool exactly when preparation, capability and approval let it through and the tool then failed to act, its path no longer resolved inside the grants, or it moved more than the bound (the promise that nothing happened fails exactly there) |
| AgentResults.ARefusedCallCanHaveRun | crates/hx-agent/src/agent.rs:632-713 | a concrete run that reports one refusal and no call, and whose history holds a write that happened |
| AgentResults.CallsDoNotOverlap | crates/hx-agent/src/agent.rs:398-437 | a started call is finished before another starts, the model is asked again or the run reports its end |
| AgentResults.QuestionsAreResolvedNext | crates/hx-agent/src/agent.rs:582-621 | every approval request is followed by its own resolution as the very next event, with no tool run in between |
| AgentResults.RunEndsOnce | crates/hx-agent/src/agent.rs:233-457 | a run that returns ends with its one and only turn-finished event, which states its stop reason |
| AgentResults.ReportIsTheHistory | crates/hx-agent/src/agent.rs:233-457 | turns are the answers of the model, and each of the four usage counters is the sum over them; executed calls are exactly the tool runs less those taken back afterwards, refusals the other finished calls; every finished call has one result message |
| AgentResults.ReportedTextIsTheLast | crates/hx-agent/src/agent.rs:842-850 | a completed run reports the text of its last message, which calls nothing; one stopped short reports that of the last message in the transcript written by the assistant, or nothing |
| AgentResults.NoTurnPastABound | crates/hx-agent/src/agent.rs:240-294 | every model call lies directly inside a newly announced turn within the turn limit, announced only after the elapsed time was read and short of the deadline, and the spend read and within the budget |
| AgentTruth.EveryExchangeIsTrue | crates/hx-agent/src/agent.rs:225-728 | each exchange on a run's record is what clock, spend, model, store, tools, capability, host, policy and approver answered when it was had |
| AgentResults.StoreAndTranscriptAgree | crates/hx-agent/src/agent.rs:199-210 | at every moment of every run the transcript additions are what the store accepted, in order, save one accepted an instant ago; a refusal by the store is the last exchange, the run fails, and the message is on neither side |
| AgentTheorems.ClearIsSeen | crates/hx-agent/src/agent.rs:499-547 | the capability phase grants the named path and its resolution, and hands on the call, the enforced resource and the path to check again |
| AgentTheorems.PromptIsSeen | crates/hx-agent/src/agent.rs:579-614 | an asked question leaves the run with an approval exactly when the one answer taken for it was not a denial, and with a rejection otherwise |
| AgentTheorems.ApprovalIsSeen | crates/hx-agent/src/agent.rs:549-621 | the approval phase lets a call with a requirement go on only approved |
| AgentTheorems.ExecutionIsSeen | crates/hx-agent/src/agent.rs:623-727 | whatever the execution phase returns may be delivered: checked text of a success, a failing tool's own report, or a refusal explained by the tool's error, the moved path or the exceeded bound |
| AgentTheorems.CallIsSeen | crates/hx-agent/src/agent.rs:460-728 | every path through one call keeps every observer content and ends with a result its own exchanges explain |
| AgentTheorems.AppendIsSeen | crates/hx-agent/src/agent.rs:199-210 | an append moves store and transcript together, or stops the run with neither moved |
| AgentTheorems.ServedCallsAreSeen | crates/hx-agent/src/agent.rs:398-437 | serving a turn's calls closes every bracket and counts each call once, as executed only if a tool ran |
| AgentTheorems.ServedCallsAreAnswered | crates/hx-agent/src/agent.rs:398-437 | serving a turn's calls answers exactly those calls, each after its call |
| AgentTheorems.TurnIsSeen | crates/hx-agent/src/agent.rs:238-438 | a turn from a sound boundary reaches the next sound boundary or a sound end, on each of its exits |
| AgentTheorems.RunIsSeen | crates/hx-agent/src/agent.rs:225-457 | every run, for every configuration, world and starting transcript, ends with every observer content |
| AgentWorld.RiskAboveExternal | crates/hx-agent/src/agent.rs:815-840 | deletions, secrets and third-party programs, and nothing else, rank above an external effect |
| AgentWorld.RiskIsByResourceAndAction | crates/hx-agent/src/agent.rs:815-840 | the risk class of every resource under every action, class by class |
| AgentWorld.MutatingIsAllButReadingAndConnecting | crates/hx-core/src/capability.rs:50-55 | an action leaves something behind unless it reads or connects |
| Risk.CeilingsCoverUpToThemselves | crates/hx-core/src/approval.rs:119-121 | a ceiling covers exactly the classes up to its own, in the order they escalate |
| AgentLoop.AgentLoop.Append | crates/hx-agent/src/agent.rs:199-210 | the store first; a message it refused never reaches the transcript |
| AgentLoop.AgentLoop.Clear | crates/hx-agent/src/agent.rs:485-547 | the state and result of the capability phase, for every answer of capability and host |
| AgentLoop.AgentLoop.SeekApproval | crates/hx-agent/src/agent.rs:549-621 | the state and result of the approval phase, for every verdict and answer |
| AgentLoop.AgentLoop.CheckAfterOpen | crates/hx-agent/src/agent.rs:648-690 | the named path is resolved and judged again after the tool ran |
| AgentLoop.AgentLoop.CheckBytes | crates/hx-agent/src/agent.rs:691-713 | bytes that moved over the bound in force turn a success into a refusal |
| AgentLoop.AgentLoop.RunTool | crates/hx-agent/src/agent.rs:623-727 | what running a cleared call records and returns |
| AgentLoop.AgentLoop.HandleCall | crates/hx-agent/src/agent.rs:460-728 | what one call records and returns, through all its phases |
| AgentLoop.AgentLoop.ServeCalls | crates/hx-agent/src/agent.rs:398-437 | the calls of one turn in order, each with its result appended before it is reported finished |
| AgentLoop.AgentLoop.AskModel | crates/hx-agent/src/agent.rs:291-336 | the request is built from the compacted view; a stall past the deadline is a time-out |
| AgentLoop.AgentLoop.TakeAnswer | crates/hx-agent/src/agent.rs:346-437 | recording an answer, then ending the run or serving its calls |
| AgentLoop.AgentLoop.Turn | crates/hx-agent/src/agent.rs:238-438 | one turn, with its bounds read first |
| AgentLoop.AgentLoop.Run | crates/hx-agent/src/agent.rs:225-457 | the whole run as the loop computes it equals the run the theorems above are about |
| Compaction.CompactAt | crates/hx-agent/src/compact.rs:93-131 | the loops compute the specified view, with the longest safe head and tail |
| Compaction.LongTranscriptsAreCutExactlyWhen | crates/hx-agent/src/compact.rs:93-131 | more than fourteen messages are cut exactly when there is a threshold and they outweigh it |
| Compaction.ALongPartCutsTheView | crates/hx-agent/src/compact.rs:93-131 | in more than fourteen messages one text, call or result of more than four characters to a token of the threshold is enough for a cut |
| Messages.CharsPartByPart | crates/hx-core/src/message.rs:122-135 | what one part adds to the characters counted, wherever it stands: a text or a result its length, a call its name and arguments, an image a fourth of its data |
| Messages.TokensMessageByMessage | crates/hx-core/src/message.rs:136-144 | what one message adds to the estimate, wherever it stands: a fourth of its characters, rounded up, and four |
| Messages.OnePartWeighs | crates/hx-core/src/message.rs:122-144 | a transcript weighs more than a fourth of any text, call or result in it |
| Compaction.IsPairSafe | crates/hx-agent/src/compact.rs:189-206 | true exactly when every call has its result and every result its call |
| Compaction.FindHeadEnd | crates/hx-agent/src/compact.rs:161-167 | the walk backwards ends where the specification says |
| Compaction.FindTailStart | crates/hx-agent/src/compact.rs:175-181 | the walk forwards ends where the specification says |
| Compaction.ChoiceIsLongest | crates/hx-agent/src/compact.rs:93-131 | a view is the transcript, or head, one marker and tail, the head the longest pair-complete prefix of at most 2 messages and the tail the longest such suffix of at most 12 |
| Compaction.EveryMessageIsAccountedFor | crates/hx-agent/src/compact.rs:71-82 | head, elided and tail add up to the transcript; a view never has more messages, and at most 15 when anything is elided |
| Compaction.MarkerNamesTheCount | crates/hx-agent/src/compact.rs:134-152 | the marker is one text of the assistant, and the digits between its fixed opening and closing read as the elided count |
| Compaction.EqualMarkersNameEqualCounts | crates/hx-agent/src/compact.rs:134-152 | two markers agree only on equal counts |
| Compaction.ViewIsPairComplete | crates/hx-agent/src/compact.rs:154-206 | a view is pair-complete exactly when something was elided or the transcript was |
| Compaction.ViewKeepsOrder | crates/hx-agent/src/compact.rs:93-131 | with unique call ids every result of a view still follows its call |
| Compaction.ElidedMiddleIsWholeExchanges | crates/hx-agent/src/compact.rs:84-92 | with unique ids, what is dropped is itself pair-complete |
| Compaction.RecentTurnSurvives | crates/hx-agent/src/compact.rs:62-69 | what began at a pair-complete boundary among the last twelve messages survives whole at the end of the view |
| Compaction.ViewFitsExactlyWhenHeadAndTailDo | crates/hx-agent/src/compact.rs:84-92 | the promised threshold is met exactly when the transcript met it, or safe head and safe tail do not meet and weigh, with the marker, no more than the threshold |
| Compaction.ViewFitsWhenTheEndsDo | crates/hx-agent/src/compact.rs:84-92 | a bound to check beforehand: with more than fourteen messages, the promise is met when the first two, the last twelve and a marker weigh no more than the threshold |
| Compaction.ShortTranscriptsAreSentWhole | crates/hx-agent/src/compact.rs:111-121 | a pair-complete transcript of at most twelve messages is sent whole at any threshold |
| Compaction.AViewOverItsThreshold | crates/hx-agent/src/compact.rs:84-92 | a concrete view over its threshold |
| Decimal.RenderParses | crates/hx-agent/src/compact.rs:145 | printing a count loses nothing |
| Context.RequestIsSendable | crates/hx-agent/src/context.rs:88-113 | what a request carries is the compacted view, pair-complete and in order whenever the transcript is |
| Messages.RenderText | crates/hx-core/src/message.rs:94-104 | the text of a message is its text and result parts in order |
| Messages.TextPartByPart | crates/hx-core/src/message.rs:94-104 | the text around any one part: a text or a result adds what it says, where it stands, and any other part nothing |
| Messages.LastAssistantTextIs | crates/hx-agent/src/agent.rs:842-850 | the text of the last assistant message whatever came after it, and empty without one |
| Messages.CallsAreTheMessagesCalls | crates/hx-core/src/message.rs:106-108 | the calls served are exactly the calls the message makes: names, arguments, number and order |
| Messages.PairsAreOfParts | crates/hx-agent/src/compact.rs:189-206 | messages are pair-complete exactly when an id is called by some part exactly when it is answered by some part |
| Messages.OrderOfStretch | crates/hx-agent/src/compact.rs:183-206 | a pair-complete stretch of an ordered transcript is itself ordered |
| QueueProtocol.AllowedRunsWereGranted | crates/hx-agent/src/queue.rs:108-152 | in every interleaving a run ends allowed only if some answer delivered that option to that very run under a ceiling covering the risk of its own question |
| QueueProtocol.WhateverIsToldWasGranted | crates/hx-agent/src/queue.rs:123-152 | the same for whatever a run was told, at every moment |
| QueueProtocol.EntriesAreOwned | crates/hx-agent/src/queue.rs:193-214 | every open entry holds a run's own question beside that run's own sender, and the run has not finished, also when ids collide |
| QueueProtocol.ListenersAreListed | crates/hx-agent/src/queue.rs:193-214 | every run still waiting has its question open, under its own id and beside its own sender |
| QueueProtocol.EveryEndHasItsCause | crates/hx-agent/src/queue.rs:214-236 | a run ends with the very answer some step delivered to it under a sufficient ceiling, as unanswered because its timer found it waiting, or as closed because another run under its id asked or ended while it waited; nothing else ends a run |
| QueueProtocol.AnswersAreJudged | crates/hx-agent/src/queue.rs:123-152 | in every interleaving an answer to no open question is unknown and changes nothing; one to an open question is taken exactly when its ceiling covers the risk of the owner's question and the owner still holds its receiver; taken, that question alone closes, and a waiting owner is handed that option and name |
| QueueProtocol.ASecondAnswerIsUnknown | crates/hx-agent/src/queue.rs:68-70 | once an answer to an id was taken, the next is unknown, unless somebody asked under that id in between |
| QueueProtocol.FinishingClearsTheId | crates/hx-agent/src/queue.rs:216-223 | a run that ends leaves no question under its id |
| QueueProtocol.QueueDrains | crates/hx-agent/src/queue.rs:216-223 | once all runs have ended the queue is empty |
| QueueProtocol.OneAnswerPerQuestion | crates/hx-agent/src/queue.rs:140-152 | at most one answer to a question is told that it was taken |
| QueueProtocol.TakenAnswersDecideUnlessLate | crates/hx-agent/src/queue.rs:62-65 | an answer that was taken decides its run exactly when the run's timer had not fired (the promise that it reached the run fails in that window) |
| QueueProtocol.ALateAnswerIsTakenInVain | crates/hx-agent/src/queue.rs:62-65 | an interleaving, for any question, whose yes is told "answered" and whose run ends as unanswered |
| QueueProtocol.AnswersStick | crates/hx-agent/src/queue.rs:214-236 | a delivered answer is the run's final decision, whatever follows |
| QueueProtocol.LateRunsAreDenied | crates/hx-agent/src/queue.rs:214-236 | a run whose timer fired ends as unanswered, whatever follows |
| QueueProtocol.AboveCeilingChangesNothing | crates/hx-agent/src/queue.rs:130-138 | an answer is refused exactly when its ceiling is too low for the question held, and changes nothing |
| QueueProtocol.AboveCeilingLeavesNoTrace | crates/hx-agent/src/queue.rs:117-119 | everything after a refused answer happens as if it had not been given |
| KeyOrder.Total | crates/hx-agent/src/queue.rs:46 | ids have a total order |
| KeyOrder.Least | crates/hx-agent/src/queue.rs:87-97 | the next id of the ordered map |
| ApprovalQueue.ApprovalQueue.Ask | crates/hx-agent/src/queue.rs:193-214 | inserting a question, replacing any other under its id and dropping that sender |
| ApprovalQueue.ApprovalQueue.Answer | crates/hx-agent/src/queue.rs:123-152 | every outcome of an answer, with the queue it leaves |
| ApprovalQueue.ApprovalQueue.FireTimer | crates/hx-agent/src/queue.rs:214 | the timer fires only over an empty channel |
| ApprovalQueue.ApprovalQueue.StopWaiting | crates/hx-agent/src/queue.rs:214 | how the wait ended: an answer, a dropped sender, or silence |
| ApprovalQueue.ApprovalQueue.TakeDecision | crates/hx-agent/src/queue.rs:216-236 | the entry goes whatever happened, and the decision is returned |
| ApprovalQueue.ApprovalQueue.Outstanding | crates/hx-agent/src/queue.rs:87-97 | exactly the open questions of the session, each once, in the order of their ids |
| ApprovalQueue.ApprovalQueue.IsEmpty | crates/hx-agent/src/queue.rs:99-101 | true exactly when no question is open |
| ApprovalQueue.ListedOldestFirstExactlyWhen | crates/hx-agent/src/queue.rs:82-97 | for every reachable queue and session, the listing is oldest first, as documented, exactly when the session's open questions were asked in the order of their ids |
| ApprovalQueue.TheYoungerCanComeFirst | crates/hx-agent/src/queue.rs:82-97 | two questions asked against the order of their ids are listed the younger first |
| LeaseProtocol.BooksAlwaysBalance | crates/hx-agent/src/model.rs:110-125 | in every interleaving: leases are distinct, live leases equal the calls between acquire and settle, each lease is settled at most once, spend equals what was reconciled |
| LeaseProtocol.ReturnedCallsSettledOnce | crates/hx-agent/src/model.rs:199-279 | a returned call had its lease settled exactly once, and returns a reply exactly when the provider answered it: then the log charges the lease for the tokens of that answer at the very cost its settling step named, and otherwise it is released |
| LeaseProtocol.AnsweredCallsReturnIt | crates/hx-agent/src/model.rs:241-264 | a call its provider answered is from then on settled as an answer and returned as one, in every interleaving |
| LeaseProtocol.NothingLeaks | crates/hx-agent/src/model.rs:141-143 | when all calls have returned no lease is out, and each callable's spend is the sum it reconciled |
| LeaseProtocol.SpendIsTheCostsSettled | crates/hx-agent/src/model.rs:246-258 | in every interleaving and at each moment a callable has spent the sum of the costs of the settling steps taken through it so far |
| LeaseProtocol.CallsCameThrough | crates/hx-agent/src/model.rs:199-241 | no request reaches a provider before its estimate, its reservation, its adapter and its key, and it carries the route it reserved |
| LeaseProtocol.TheLatestRouteIsOnRecord | crates/hx-agent/src/model.rs:259-263 | the route on record for a callable is that of its latest recorded call |
| LeaseProtocol.NoRouteBeforeTheFirst | crates/hx-agent/src/model.rs:259-263 | and there is none before the first |
| LeaseProtocol.BenchedOnlyAfterRefusal | crates/hx-agent/src/model.rs:266-276 | a credential is benched only after the provider refused a call carrying it |
| LeaseProtocol.RefusalsAreBenched | crates/hx-agent/src/model.rs:266-276 | conversely, every key its provider refused is benched by the time that call returns |
| LeaseProtocol.AuthFailuresComeFromTheProvider | crates/hx-agent/src/model.rs:229-241 | an auth failure is always the provider's answer to this call, never a missing key |
| LeaseProtocol.RouterModel.AcquireForRole | crates/hx-agent/src/model.rs:208-211 | a fresh lease, live from now on |
| LeaseProtocol.RouterModel.Release | crates/hx-agent/src/model.rs:215-239 | the lease goes back untouched and the call returns |
| LeaseProtocol.RouterModel.Reconcile | crates/hx-agent/src/model.rs:246-258 | the lease is settled against its cost, which is added to the spend |
| LeaseProtocol.RouterModel.Bench | crates/hx-agent/src/model.rs:266-276 | on an auth failure the credential is benched before the release |
| LeaseProtocol.RouterModel.Send | crates/hx-agent/src/model.rs:241-278 | the exchange with the provider and its settlement |
| LeaseProtocol.RouterModel.Complete | crates/hx-agent/src/model.rs:199-279 | one call takes exactly the steps of its exit path, on all five |
| EventStream.ChatStream | apps/hx/src/daemon.rs:170-211 | for every cutting of the body into chunks: the frames of the whole body up to the first failure, then the failure, the read error, the last reply, or that none came |
| EventStream.DrainLines | apps/hx/src/daemon.rs:179-204 | every whole line of the buffer is read, the unfinished one is kept |
| EventStream.SseParser.ApplyLine | apps/hx/src/stream.rs:57-81 | a blank line completes the block with the frame its fields amount to; any other line is gathered or ignored; a trailing carriage return does not count |
| EventStream.OneMoreLine | apps/hx/src/stream.rs:57-113 | one more line adds at most the frame of the block it closes |
| EventStream.LineIsRead | apps/hx/src/daemon.rs:183-203 | one frame keeps the reader in step with the whole-body meaning, or stops it at the first failure |
| EventStream.FailingStays | apps/hx/src/daemon.rs:196-198 | a failure met is the first failure of the whole body, whatever follows |
| StreamText.EveryBlockSays | apps/hx/src/stream.rs:57-113 | a block written as text, with either line ending and anything after it, adds exactly: the parsed payload for "done", the text of its error field or else the payload for "error", an event of its session or "?" without a name, and nothing under any other name or without data |
| StreamText.AFinishedRunIsReported | apps/hx/src/daemon.rs:183-203 | a body whose only block is named "done", cut anywhere, ends in its parsed payload or the reply field of that |
| StreamText.ARefusedRunIsReported | apps/hx/src/daemon.rs:196-198 | a body whose only block is named "error", cut anywhere, shows nothing and ends in what its error field says, or in its payload |
| StreamText.PayloadHasTheLines | apps/hx/src/stream.rs:90 | the joined payload has exactly the lines of data again |
| StreamText.TwoLinesOfData | apps/hx/src/stream.rs:90 | two lines of data are joined by one line break |
| StreamText.OtherLinesAreSkipped | apps/hx/src/stream.rs:63-80 | a line of any other field, or a comment, changes nothing in the block it stands in |
| StreamText.AFailureEndsTheRun | apps/hx/src/daemon.rs:196-198 | the first failure ends the run with the frames before it, whatever came after |
| StreamText.TheLastReplyIsReported | apps/hx/src/daemon.rs:185-211 | with no failure and no broken connection the last reply is reported, out of its wrapper where it has one |
| StreamText.NoReplyIsReported | apps/hx/src/daemon.rs:206-211 | and with no reply among the frames there is none |
| StreamMeaning.LinesOfConcat | apps/hx/src/daemon.rs:180-184 | lines do not depend on where the body is cut |
| Ladder.Ladder.Fetch | crates/hx-browser/src/ladder.rs:227-324 | the loop equals taking the first outcome that does not escalate, and calls exactly the rungs on record, in order |
| Ladder.AttemptsTellTheClimb | crates/hx-browser/src/ladder.rs:227-324 | one attempt per rung up to the first decisive one; all but that one escalated |
| Ladder.OutcomeIsTheLastAttempts | crates/hx-browser/src/ladder.rs:308-324 | a page exactly when the decisive rung gave one, and otherwise the last attempt's reason |
| Ladder.FirstDecisive | crates/hx-browser/src/error.rs:112-145 | every earlier rung escalated, this one did not |
| Ladder.OnlyRefusalsAndAbsencesEscalate | crates/hx-browser/src/error.rs:112-145 | no more attempts than the ceiling or the rungs; each names its own rung and failure; it escalated exactly when the rung refused or was unavailable, and the climb stopped at the first that did not |
| BrowserPool.BrowserPool.Session | crates/hx-browser/src/pool.rs:83-96 | an existing profile is reused, a failed one is not kept |
| BrowserPool.BrowserPool.Fetch | crates/hx-browser/src/pool.rs:106-123 | admission first, then the session's profile, then the climb |
| BrowserPool.RefusedTargetsLeaveNothing | crates/hx-browser/src/pool.rs:106-115 | a refused target leaves no attempt, no profile and no other trace |
| BrowserPool.FirstFetchMintsTheProfile | crates/hx-browser/src/pool.rs:83-123 | the first fetch of a session mints a profile under its own id and climbs in it; a failure to mint is reported and nothing kept |
| BrowserPool.ProfilesAreMintedForTheirSession | crates/hx-browser/src/pool.rs:83-96 | after any requests, a session's profile is what minting that very id gave, in an admitted request of its own |
| BrowserPool.SessionsKeepTheirProfile | crates/hx-browser/src/pool.rs:78-96 | whatever is fetched in between, a session keeps the profile it first got |
| BrowserPool.LaterFetchesReuseTheProfile | crates/hx-browser/src/pool.rs:78-96 | a later fetch climbs in that same profile |
| JsLiteral.LiteralRoundTrip | apps/hx-desktop/src/lib.rs:225-238 | read as a JSON string the literal is the value again, for every string |
| JsLiteral.LiteralHasNoSpecials | apps/hx-desktop/src/lib.rs:211-213 | the literal holds no `<`, `>`, `&`, U+2028 or U+2029 |
| JsLiteral.LiteralIsCharByChar | apps/hx-desktop/src/lib.rs:230-238 | five passes over the escaped text equal one character-by-character rendering: no pass lands inside an escape |
| JsLiteral.PassesOfOne | apps/hx-desktop/src/lib.rs:233-237 | an escape sequence is never touched, a special character becomes one |
| Redaction.RedactedTextIsClean | apps/hx-desktop/src/notification.rs:121-133 | no stretch of a redacted text made only of letters, digits, dashes, underscores and dots has sixteen letters or digits |
| Redaction.RedactionIsWordByWord | apps/hx-desktop/src/notification.rs:121-133 | the words of the result are the redacted words, as many and in order |
| Redaction.WordsAreKeptExactlyWhenSafe | apps/hx-desktop/src/notification.rs:76-105 | a word is reproduced exactly when it holds no token-shaped stretch and is no path outside the workspace |
| Redaction.PathsOutsideAreMasked | apps/hx-desktop/src/notification.rs:81-83 | a word that begins with a slash and nowhere has the letters of the workspace's name becomes the mark |
| Redaction.SecondPassChangesNothingUnless | apps/hx-desktop/src/notification.rs:121-133 | redacting a word again changes it exactly when it is a path of the workspace, no secret itself, and names the workspace only in token-shaped runs; it is then masked whole |
| Redaction.SecondRedactionChangesExactlyWhen | apps/hx-desktop/src/notification.rs:121-133 | redacting a text again changes it exactly when one of its words is such a word |
| Redaction.MaskKeepsOpenNames | apps/hx-desktop/src/notification.rs:93-119 | a masked word names the workspace exactly when one of its runs that is no token does |
| Redaction.MaskedWorkspacePathReadsAsOutside | apps/hx-desktop/src/notification.rs:81-83 | every path whose only component begins with the workspace's name and is token-shaped is such a word |
| Redaction.TextsThatChangeAgain | apps/hx-desktop/src/notification.rs:81-105 | concrete texts that change again |
| Redaction.MaskEmbedded | apps/hx-desktop/src/notification.rs:93-106 | the character loop masks every run as specified |
| AccessibilityWalk.Sensor.Walk | apps/hx/src/atspi_sense.py:29-115 | the capped walk looks at the nodes in depth-first order until there are enough elements |
| AccessibilityWalk.Sensor.WalkChildren | apps/hx/src/atspi_sense.py:106-115 | at most forty children, in order, unreadable ones skipped |
| AccessibilityWalk.Sensor.WalkAll | apps/hx/src/atspi_sense.py:143-195 | several frames share the lists and the cap |
| AccessibilityWalk.CapOnlyCuts | apps/hx/src/atspi_sense.py:29-32 | the capped walk collects exactly the first elements of the uncapped one, and writes a prefix of its lines |
| AccessibilityWalk.CollectTakesEveryTarget | apps/hx/src/atspi_sense.py:91-104 | the uncapped walk collects every clickable widget it visits, in order |
| AccessibilityWalk.VisitedExactlyTheReached | apps/hx/src/atspi_sense.py:29-115 | the nodes looked at are those at the end of a path of readable children, each below forty, no deeper than allowed and through no skipped role; each once, parents first, earlier children with all below them before later ones |
| AccessibilityWalk.FoundExactlyTheClickable | apps/hx/src/atspi_sense.py:91-104 | every element found gives a visited node that shows, has a size, lies on the screen and has a clickable role; short of the cap every such node is found |
| AccessibilityWalk.LinesOfferTheElements | apps/hx/src/atspi_sense.py:91-104 | the lines that offer something to click are the elements, one for one and in order, with the beginning of the same text |
| AccessibilityWalk.IdsAreThePlaces | apps/hx/src/atspi_sense.py:93 | ids are e0, e1, ... in order, and no two agree |
| Pinning.Pin | crates/hx-browser/src/target.rs:215-265 | the loop computes the specified pins or refusal |
| Pinning.PinDependsOnlyOnTheSet | crates/hx-browser/src/target.rs:237-245 | order and repeats of the resolver's answer make no difference |
| Pinning.PinnedExactlyWhenAllArePublic | crates/hx-browser/src/target.rs:206-262 | a name is pinned exactly when it has addresses and, by default, all are public; the pins are all of them, increasing; a refusal names the least offender, or is for having no address |
| Pinning.OnlyNamesAreResolved | crates/hx-browser/src/target.rs:215-236 | a literal address is accepted without pins, and nothing else is; a failed resolution is refused with its error |
| Pinning.Sorted | crates/hx-browser/src/target.rs:244-245 | sorting and removing repeats gives an increasing list of exactly the same addresses |
| Pinning.IncreasingIsUnique | crates/hx-browser/src/target.rs:244-245 | and a set of addresses has only one such list |
| Pinning.PublicV4Blocks | crates/hx-browser/src/target.rs:497-517 | a version 4 address is public exactly outside the listed blocks |
| Pinning.EachReasonNamesItsBlock | crates/hx-browser/src/target.rs:497-517 | each reason is given exactly inside its own blocks |
| Pinning.PublicV6Blocks | crates/hx-browser/src/target.rs:519-537 | a version 6 address is public exactly outside its blocks and unless it maps to a special address |
| Pinning.MappedIsJudgedAsV4 | crates/hx-browser/src/target.rs:530-533 | a mapped address is judged as the address it maps to |
| ConstantTime.ConstantTimeEq | crates/hx-core/src/api_auth.rs:101-122 | true exactly when the strings are equal, also when they differ in trailing zero bytes, after as many rounds as the longer has bytes |

## Left out

- Capability grants, the approval policy, remembered approvals, the provider, the tools, the host and the session store
  are oracles; `ApprovalSession::resolve` is modelled only as the match of ids and the yes or no.
- Wordings of refusals, errors and denials: `World.wording`, `Rung.wording` and short constants stand for them; the
  reasons an address is not public are names, not sentences.
- The summary of a shell question, which the code gives with its white space normalised and the model as the command.
- Delivery of events and `dropped_events`: an emitted event is an exchange; whether anyone listens is not modelled.
- Clocks and durations: deadlines, time-outs and elapsed times are answers of the world or free steps; reports carry no
  `elapsed_ms` and no display form of the target.
- Counter widths: turns, tokens and call counters are unbounded here, 32 or 64 bits there.
- Money is `real` here and `f64` there; rounding is not modelled.
- Temperature and reasoning settings of a request, which the context builder leaves at their defaults.
- The target model written into a routed request, and what `estimate_cost` and `reservation_tokens` compute.
- The limiters inside the router: acquire may succeed with any route, or fail.
- Cancellation by the caller: leases and queue entries have no drop guard, so conservation is stated for calls that
  return and runs that end.
- LeaseProtocol.RouterModel.Complete: runs one call while no other moves; what interleaving calls do is stated about
  sequences of steps.
- ApprovalQueue.ApprovalQueue.Outstanding: requires entries under their own ids, which every interleaving keeps
  (`EntriesAreOwned`).
- Session-scoped queues, which only pass a session and a wait to the shared queue.
- Parsing of JSON payloads is a parameter, and so is the text of JSON arguments; the decoding of bytes to characters,
  chunk by chunk, is left out: chunks are strings.
- Parsing and admission of URLs, redirects and host-name rules: admission is a parameter of the pool, `Pin` is told
  whether the host is a name.
- `FetchReport::summary` and the escalation trail, which only render a report.
- Profile directories: minting a session's profile may succeed or fail differently each time.
- Text extraction from widgets and the application and window headings of the accessibility walk; each widget arrives
  with its snippet and its parent's name.
- `build_approval_notification`, which joins redacted parts.
- The comparison's timing beyond its number of rounds.
- The mutable loops of `serde_json` and `str::replace`, modelled as functions on strings.
