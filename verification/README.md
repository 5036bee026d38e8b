# Verification of OriginPost's effect protocols and board plugin

This project models, in Dafny, the parts of OriginPost that act on the outside world and cannot take an action back,
and proves what they promise. It also models the pure and imperative kernels those parts lean on.

* **Effect executors.** Publishing to Instagram, Facebook and YouTube, private replies, public comment replies, first
  comments, remote corrections, Board decisions and Board task executions. Each performs a remote write against a
  provider that may answer, fail or go silent, between durable writes that may themselves throw after or before they
  were applied, in workers that may die at any await.
* **The Hermes board plugin.** Its canonical JSON, its profile descriptions, and the skill loop of its reconciliation.
* **Kernels.** The request slots of the website capture, comment pagination, and the evidence window of the excerpt check.

## How it is organised

`Runs` folds a transition function over a schedule of events and says what every schedule keeps. `WriteAhead` is the
discipline that the executors share, as an abstract journal: record the intent, fire the effect, settle the result. Its
theorem is that over every sequence of moves the effect fires at most once. The executors that any number of workers
may run at once (`InstagramPublish`, `PrivateReply`, `EngagementReply`, `FirstComment`, `RemoteCorrection`, `BoardTask`)
are state machines cut at every await, and each proves that every one of its events is one step of that journal.
`InstagramPublish` adds the content item to its record: a `World` is the record and its workers, a `System` the World and
the item's versions, and every action of a System is at most one event of its World.
`BoardDecision` is a machine of the same kind whose effect is made idempotent by Hermes.

The executors that run one at a time per target (`FacebookPublish`, `YouTubePublish`) are methods of a class, in the
shape of the handler: they reassign the operation and save it step by step. What each await meets is a script; every
method is proved equal to a function of state and script, and the theorems speak of every sequence of scripts.

In all of them a provider keeps a log of what it was asked and what came of it, so that statements about duplicates and
about truthful statuses are statements about that log.

Where a promise turned out not to hold of the code as it stands, the project keeps the code, shows a run in which it
fails, and proves exactly when it holds:

* `InstagramPublish.PublishedIsOverwrittenIff`: an operator's confirmation is fenced by the version of the content item, a worker by the lease of the record, and neither fence knows the other. A worker that marked the target before it needed action can claim while the operator looks, and overwrite the confirmed record; the target itself stays published. `ConfirmationLasts` says what an operator can check: nobody holds the lease.
* `PrivateReply.VerdictHoldsIff`, `FirstComment.VerdictHoldsIff`, `FirstComment.CancelHoldsIff` and `EngagementReply.LateReplyIff`: a stalled worker may deliver after an operator has recorded that nothing was sent. For each protocol a further lemma names the statuses under which that cannot happen.
* `RemoteCorrection.LateMutationIff`: a mutation may land after its verdict, unless the verdict is the provider's own.
* `FirstComment.CancelledIsTruthfulIff`: cancelled is truthful in write mode, and not for an intent that waits for an inspection.
* `BoardDecision.DecisionsAreRecordedOnce` and `BoardDecision.ForgottenKeyBlocksIff`: a decision key is forgotten after a hundred others. Queued again, it keeps its old outbox message, which no longer fits, and blocks its Board for ever; only a worker that was overtaken by all of this can record it a second time.
* `CommentPages.CompleteOrThrowIff`: a fractional page limit, or NaN, returns a shortened edge as complete. Only the connector's own option admits such a limit; the worker passes a whole number from 1 to 25 (apps/worker/src/worker.ts:182) and so always meets the condition.
* `CanonicalJson.NormalOrderIsRfc8785Iff`: array-index keys leave the key order of section 3.2.3 of RFC 8785.
* `ExcerptWindow.AlwaysShownIff`: a quotation longer than half its window may be cut off.

Every machine also has a lemma that it can succeed, so that none of the theorems holds for want of runs.

## Model

| member | source | states |
|---|---|---|
| WriteAhead.AtMostOnce | apps/worker/src/worker.ts:710-820 | over every sequence of journal moves the effect fires at most once, and never before its intent is durable |
| WriteAhead.RefinementFiresAtMostOnce | apps/worker/src/instagram-provider-execution.ts:31-81 | any machine whose every event is a journal step fires its effect at most once over every schedule, and its run is a run of the journal |
| ProviderOperations.OperationRepository.ClaimExecution | packages/domain/src/repository.ts:862-876 | the claim inserts an absent record or leases a free one, in one step, and leaves all other records alone |
| ProviderOperations.OperationRepository.SaveClaimed | packages/domain/src/repository.ts:877-883 | only the current owner under an unexpired lease writes, and its lease is extended |
| ProviderOperations.ClaimsExclude | packages/domain/src/repository.ts:862-883 | after a granted claim nobody else can save, nobody else can claim until expiry, and after expiry the old owner cannot save, taken over or not |
| InstagramPublish.BeginInstagramOperation | apps/worker/src/instagram-provider-execution.ts:31-81 | the code that begins an operation, run on the repository, ends in a state that the machine reaches by the same steps, with the same record and the same create calls, and its worker next does what each kind of result calls for |
| InstagramPublish.RefinesJournals | apps/worker/src/worker.ts:710-820 | every event is a journal step for the create call and for the finalize call |
| InstagramPublish.ProviderCallsAtMostOnce | apps/worker/src/worker.ts:710-820 | over every interleaving of workers, crashes, lease expiries, edits and confirmations, create and finalize are each issued at most once per target |
| InstagramPublish.EvidenceIsGrounded | apps/worker/src/worker.ts:803-819 | only the container that the create call returned is finalized, and a published record names the finalized post or a confirmed one |
| InstagramPublish.OwnerCopyIsStored | apps/worker/src/worker.ts:730-820 | the copy on which a record's owner decides is the stored record, as long as no operator has stepped in |
| InstagramPublish.LateStatusesStayLate | apps/worker/src/provider-publish-state.ts:5-16 | no schedule leads from finalizing, uncertain, published or failed back to creating, processing or ready, operators included |
| InstagramPublish.ClosedTargetsStayClosed | packages/domain/src/repository.ts:33-52 | every commit goes over the version that was read, so no schedule takes back a version of the content item or leaves a published or cancelled target |
| InstagramPublish.PublishedIsOverwrittenIff | apps/worker/src/worker.ts:755-763 | a published record can get another status exactly when a worker past its claim still holds the lease with something else to store, or when the record does not match its approval and a worker stands at its claim or the target is still open |
| InstagramPublish.ConfirmationLasts | apps/api/src/content/content.service.ts:414-477 | a confirmation that is accepted while nobody holds the lease is never overwritten |
| InstagramPublish.ConfirmationIsLost | apps/api/src/content/content.service.ts:418-477 | a run in which the confirmation passes the version check and the save of a worker that marked the target earlier turns the record uncertain again, under a published target |
| InstagramPublish.PublicationSucceeds | apps/worker/src/worker.ts:658-820 | some run creates, finalizes and publishes record and target |
| InstagramPublish.ClaimRetryFindsTheLeaseFree | apps/worker/src/instagram-provider-execution.ts:17-29 | a retry of a busy claim falls after the lease, within a second of its end at the earliest, and observers of one lease share a job id exactly within one half minute |
| FacebookPublish.FacebookTarget.Publish | apps/worker/src/worker.ts:821-902 | the handler computes the run function from record, provider and script, whatever each await meets |
| FacebookPublish.PostIsSentAtMostOnce | apps/worker/src/worker.ts:865-884 | over every sequence of dying runs the POST goes out at most once and makes at most one post |
| FacebookPublish.PublishedRecoversToItsProof | apps/worker/src/facebook-publish-state.ts:16-25 | a record that the worker stored as published recovers to its proof in every later run, without another POST and without change but for the attempt |
| FacebookPublish.ProofIsStored | apps/worker/src/worker.ts:860-900 | a run that reports a proof has stored it, with a verified permalink |
| FacebookPublish.UnknownResultIsNeverResent | apps/worker/src/facebook-publish-state.ts:11-25 | an intent without a post id leaves the provider alone for ever, and a completed run records that the result is unknown |
| FacebookPublish.PermalinkChecksAgree | packages/connectors/src/facebook-page-official.ts:139-147 | the connector admits exactly the permalinks that the recovery accepts |
| FacebookPublish.PublicationSucceeds | apps/worker/src/worker.ts:821-902 | a run without failures publishes one post |
| YouTubePublish.YouTubeTarget.Publish | apps/worker/src/worker.ts:903-1052 | the handler computes the run function from record, sessions and script |
| YouTubePublish.YouTubeTarget.UploadAndCheck | apps/worker/src/worker.ts:942-1018 | the upload part, with its two queries and its nested error handlers, computes the resume function |
| YouTubePublish.YouTubeTarget.CheckVideo | apps/worker/src/worker.ts:1019-1052 | the processing part computes the check function, with its poll and its queue |
| YouTubePublish.YouTubeTarget.CallUpload | packages/connectors/src/youtube-official.ts:416-454 | an offset outside the file is refused before anything is sent |
| YouTubePublish.UploadsResumeWhereTheyStopped | apps/worker/src/worker.ts:914-1018 | bytes go only to the stored session, every transfer starts at the byte the session waits for, and ready means that the stored count is the session's |
| YouTubePublish.AtMostOneVideo | apps/worker/src/worker.ts:903-1052 | at most one video per target, complete, and named by a processing, published or failed record |
| YouTubePublish.PollingEnds | apps/worker/src/youtube-publish-state.ts:19-45 | checks only grow, the deadline stays once set, job ids never repeat although a crash may fall between save and enqueue, at most 239 jobs are queued, and check 240 is uncertain |
| YouTubePublish.HandlerFollowsNextStep | apps/worker/src/youtube-publish-state.ts:9-17 | after any runs the handler's first provider call is the step that the decision function names, and unless a save before it fails that step is what the run does: call, finish, ask for action or give up |
| YouTubePublish.CleanRunPublishes | apps/worker/src/worker.ts:903-1052 | whatever earlier runs left, one run without failures publishes the video of the stored session |
| PrivateReply.RefinesJournal | apps/worker/src/private-conversation-worker.ts:243-458 | every event is a journal step of every claim |
| PrivateReply.ClaimSendsAtMostOnce | apps/worker/src/private-conversation-worker.ts:253-330 | every claim sends at most once, whatever interleaves |
| PrivateReply.SuccessIsEvidenced | apps/worker/src/private-conversation-worker.ts:350-427 | succeeded always carries the complete evidence of a send that the provider accepted for the intended recipient, and a matching read-back where the connector has one and no operator decided |
| PrivateReply.StatusesAreTruthful | apps/worker/src/private-conversation-worker.ts:283-345 | until an operator overrules, at most one message is delivered, with the stored body, and failed, expired, queued and cancelled mean that none was |
| PrivateReply.UncertainIsNotRetried | apps/worker/src/private-conversation-worker.ts:467-495 | until an operator overrules, uncertain only stays or succeeds, and succeeded never changes, evidence included |
| PrivateReply.VerdictHoldsIff | apps/api/src/private-conversations/private-conversations.service.ts:502-533 | an operator's verdict that nothing was sent holds in every continuation exactly when nothing was delivered and no worker stands before its send |
| PrivateReply.TruthfulStatusesLast | apps/worker/src/private-conversation-worker.ts:467-495 | until an operator overrules, no claim made so far ever delivers under queued, failed, expired or cancelled |
| PrivateReply.DeliveredAfterNotSent | apps/api/src/private-conversations/private-conversations.service.ts:502-533 | a run in which a stalled worker delivers under a failed record |
| PrivateReply.ReplySucceeds | apps/worker/src/private-conversation-worker.ts:243-458 | some run checkpoints, reads back and succeeds |
| EngagementReply.RefinesJournal | apps/worker/src/engagement-worker.ts:61-120 | every event is a journal step of every claim |
| EngagementReply.ClaimSendsAtMostOnce | apps/worker/src/engagement-worker.ts:61-120 | every claim sends at most once, although recovery does not wait for its worker |
| EngagementReply.StatusesAreTruthful | apps/worker/src/engagement-worker.ts:55-104 | a success that no operator confirmed was delivered and carries the id that the provider gave to that very claim, and every other reply id was typed by an operator; until an operator turns uncertain into failed, at most one reply is delivered and failed, queued or cancelled means none |
| EngagementReply.LateReplyIff | apps/worker/src/engagement-worker.ts:287-313 | a claim that has not delivered may still do so exactly while its worker stands before the send |
| EngagementReply.FailedStaysUndelivered | apps/api/src/engagement/engagement.service.ts:191-213 | unless an operator denied an uncertain reply, no claim so far has delivered or ever will under failed, queued or cancelled |
| EngagementReply.DeliveredAfterFailed | apps/api/src/engagement/engagement.service.ts:191-213 | a run in which recovery overtakes a live worker and its reply goes out under a failed record |
| EngagementReply.ReplySucceeds | apps/worker/src/engagement-worker.ts:61-120 | some run delivers and succeeds |
| RemoteCorrection.CorrectionRepository.Claim | packages/db/src/in-memory-remote-correction-repository.ts:42-50 | the claim respects an unexpired lease by the caller's clock and the statuses of its kind, and touches one operation |
| RemoteCorrection.CorrectionRepository.CompareAndSetStatus | packages/db/src/in-memory-remote-correction-repository.ts:32-40 | a status is written over the expected one, under the claim when one is given, and a settled status drops the claim |
| RemoteCorrection.CorrectionRepository.Resolve | packages/db/src/in-memory-remote-correction-repository.ts:58-78 | status and proof are written together, once |
| RemoteCorrection.RefinesJournal | apps/worker/src/remote-correction-worker.ts:8-53 | every event is a journal step of the mutation |
| RemoteCorrection.MutatesAtMostOnce | apps/worker/src/remote-correction-worker.ts:8-38 | whatever jobs, stale reads, clocks and expired claims interleave, the provider is asked to change the post at most once, and never by a reconcile run |
| RemoteCorrection.ProofRestsOnEvidence | apps/worker/src/remote-correction-worker.ts:26-51 | each resolved status goes with its grade of proof and back, and rests on the executing worker's confirmed outcome or on a reader's matching read-back |
| RemoteCorrection.IntentAndProofStay | packages/domain/src/remote-correction.ts:193-203 | no schedule leads back before the intent, and a proof is never replaced |
| RemoteCorrection.LateMutationIff | apps/worker/src/remote-correction-worker.ts:21-26 | once the intent is durable a mutation can still go out exactly when its recorder has yet to send it, whatever verdict is stored |
| RemoteCorrection.ProviderVerdictsLast | apps/worker/src/remote-correction-worker.ts:26-38 | once the provider confirmed or refused, no mutation goes out any more |
| RemoteCorrection.ClaimHolderSendsUnderFinalizing | apps/worker/src/remote-correction-worker.ts:21-26 | a sender that still holds its claim sends under the status finalizing |
| RemoteCorrection.MutationAfterManualVerdict | apps/worker/src/remote-correction-worker.ts:40-51 | a run in which the claim expires under the sender and its mutation lands after manual action was asked for |
| RemoteCorrection.CorrectionSucceeds | apps/worker/src/remote-correction-worker.ts:8-38 | some run confirms a correction with its proof |
| FirstComment.RefinesJournal | apps/worker/src/first-comment-worker.ts:51-156 | every event is a journal step of every claim |
| FirstComment.ClaimWritesAtMostOnce | apps/worker/src/first-comment-worker.ts:106-113 | every claim writes at most once, and a claim in reconcile mode never does |
| FirstComment.FailedMeansNothingWasAccepted | apps/worker/src/first-comment-worker.ts:46-49 | until an operator overrules, one write goes out in all, and approved, failed, and queued or cancelled in write mode mean that no comment was accepted |
| FirstComment.SuccessHasOneMatch | apps/worker/src/first-comment-worker.ts:115-147 | success without an operator means that the comment list held exactly one match, whose id is stored, and which after a write is the comment that this claim created and checkpointed; under a whole page limit that list was complete |
| FirstComment.CancelledIsTruthfulIff | apps/api/src/first-comments/first-comment.service.ts:19-20 | until an operator overrules, cancelled means in every run that no comment was accepted if and only if the intent is in write mode |
| FirstComment.CancelledAfterAcceptance | apps/api/src/first-comments/first-comment.service.ts:19-20 | a run in which an intent in reconcile mode is cancelled after its comment was accepted |
| FirstComment.VerdictHoldsIff | apps/api/src/first-comments/first-comment.service.ts:20 | an operator's verdict that nothing was sent holds in every continuation exactly when no comment was accepted and no worker stands at or before its write |
| FirstComment.CancelHoldsIff | apps/api/src/first-comments/first-comment.service.ts:19 | after a cancellation no comment is ever accepted exactly under the same condition |
| FirstComment.TruthfulStatusesLast | apps/worker/src/first-comment-worker.ts:46-49 | until an operator overrules, no claim made so far ever writes under approved, failed, or queued or cancelled in write mode |
| FirstComment.FirstCommentSucceeds | apps/worker/src/first-comment-worker.ts:51-147 | some run writes, checkpoints, finds and proves its comment |
| BoardDecision.DecisionsAreRecordedOnce | apps/worker/src/board-plugin-worker.ts:33-64 | over any deliveries and crashes a decision takes effect at most once and only if queued, and a recorded one is in effect; each key is recorded once as long as no worker is overtaken, equal keys always lie more than a hundred records apart, and the kept list is free of duplicates and at most a hundred long |
| BoardDecision.RecordKeepsFarApart | packages/domain/src/agent-board.ts:323-324 | recording a key that the kept list does not hold keeps equal keys far apart, and cutting the list twice is cutting it once |
| BoardDecision.ForgottenKeyBlocksIff | packages/db/src/postgres-agent-board-repository.ts:11-14 | a recorded and forgotten key that is queued again leaves its Board unchanged in every continuation, whatever is asked of it, if and only if no worker is still between its first read and its second for that key |
| BoardDecision.OvertakenKeyIsRecordedAgain | packages/domain/src/agent-board.ts:318-324 | a run in which a worker overtaken by a hundred others records its key a second time: the distance is exact |
| BoardDecision.FencedWritesLoseNothing | apps/worker/src/board-plugin-worker.ts:66-119 | a reconciliation or deactivation writes only over the very Board that it read at its start |
| BoardTask.RefinesJournal | apps/worker/src/board-task-execution-worker.ts:30-107 | every event is a journal step of the invocation |
| BoardTask.InvokesAndFinishesAtMostOnce | apps/worker/src/board-task-execution-worker.ts:30-107 | Hermes is invoked at most once per execution, and finish is called at most once |
| BoardTask.OutcomesAreTruthful | apps/worker/src/board-task-execution-worker.ts:56-107 | failed means that Hermes was never invoked and will not be; succeeded means that it was, and that every epoch pair of the Board from the claim to the return was the queued one |
| BoardTask.OutcomeStays | packages/db/src/postgres-agent-board-task-repository.ts:328-400 | a stored outcome never changes |
| BoardTask.ExecutionSucceeds | apps/worker/src/board-task-execution-worker.ts:30-107 | some run invokes and succeeds |
| CanonicalJson.PrintDecodes | packages/agents/src/hermes-board-plugin.ts:165-166 | a printed value followed by a delimiter determines the value and what follows, escapes and lone surrogates included |
| CanonicalJson.CanonicalIffSameMeaning | packages/agents/src/hermes-board-plugin.ts:159-166 | two values have the same canonical text if and only if they differ at most in key order, at any depth |
| CanonicalJson.NormalizeIsIdempotent | packages/agents/src/hermes-board-plugin.ts:160-164 | normalising twice is normalising once, and does not change the canonical text |
| CanonicalJson.NormalOrderIsRfc8785Iff | packages/agents/src/hermes-board-plugin.ts:147-164 | keys come in the order of their UTF-16 code units, in every object, if and only if the array indices among them agree with that order |
| CanonicalJson.NineBeforeTen | packages/agents/src/hermes-board-plugin.ts:160-164 | an object whose normal key order is not the code unit order |
| ProfileDescription.ReadManagedIff | packages/agents/src/hermes-board-plugin.ts:294-304 | the pattern matches a text with given fields if and only if the text is their printed form and they fit their alphabets |
| ProfileDescription.ManagedIsOwnedIff | packages/agents/src/hermes-board-plugin.ts:299-304 | a managed description is a Board's own if and only if owner, memory scope and kanban reference all are |
| ProfileDescription.ArchivedIsOwnedIff | packages/agents/src/hermes-board-plugin.ts:299-301 | an archived description is a Board's own if and only if owner and kanban reference are |
| ProfileDescription.SealedPrefixIs | packages/agents/src/hermes-board-plugin.ts:308 | replacing the first occurrence hits the last field, because no field is empty or holds an equals sign |
| ProfileDescription.SealedSkillManifestIff | packages/agents/src/hermes-board-plugin.ts:306-312 | a manifest is read if and only if the text is this contract's description sealed with that digest |
| ProfileDescription.PendingIsNotSealed | packages/agents/src/hermes-board-plugin.ts:306-312 | a pending description yields no manifest |
| SkillReconcile.SafeSkills | packages/agents/src/hermes-board-plugin.ts:168-191 | the reader throws exactly on a malformed or duplicate entry, and otherwise returns the sorted skills |
| SkillReconcile.Reconcile | packages/agents/src/hermes-board-plugin.ts:577-629 | rejected exactly for an essential or unapproved skill, invalid exactly for an invalid catalog, both without a change; otherwise all skills are switched, or a part of them when a request fails |
| SkillReconcile.ToggleAll | packages/agents/src/hermes-board-plugin.ts:622-629 | toggling what differs, in catalog order, switches the whole catalog |
| SkillReconcile.ListsEqualIffSetsEqual | packages/agents/src/hermes-board-plugin.ts:538-541 | elementwise equality of sorted duplicate-free lists is equality of their sets |
| SkillReconcile.LoopResultIsCompliantIff | packages/agents/src/hermes-board-plugin.ts:534-541 | the inspection accepts the loop's result if and only if the catalog offers every desired skill and the essential one is enabled |
| RequestSlots.Capture.Claim | apps/worker/src/website-sourcing.ts:70-74 | one pass through the head parks, refuses or starts the caller |
| RequestSlots.Capture.Finish | apps/worker/src/website-sourcing.ts:81-84 | a slot is freed and the first parked caller woken |
| RequestSlots.Capture.Abort | apps/worker/src/website-sourcing.ts:65-69 | all parked callers are released |
| RequestSlots.NoWakeUpIsLost | apps/worker/src/website-sourcing.ts:70-85 | at most four in flight; while a caller is parked, four slots are taken or promised; with none taken or promised nobody is parked |
| RequestSlots.AbortReleasesEveryone | apps/worker/src/website-sourcing.ts:65-74 | after the abort every parked caller is released, nobody parks or starts, and a released caller is refused once it runs |
| RequestSlots.EveryoneCanBeServed | apps/worker/src/website-sourcing.ts:70-85 | from every reachable state some schedule serves everyone |
| CommentPages.ReadCommentEdge | packages/connectors/src/facebook-page-official.ts:636-661 | the paging loop computes the edge function, page by page |
| CommentPages.ReadComments | packages/connectors/src/facebook-page-official.ts:288-311 | the top edge and every parent's edge, sorted, or nothing |
| CommentPages.CompleteOrThrowIff | packages/connectors/src/facebook-page-official.ts:641-658 | for all providers a returned edge is the whole edge if and only if the page limit is absent, whole, or beyond the clamp |
| CommentPages.ReadingIsComplete | packages/connectors/src/instagram-official.ts:413-427 | with a whole limit something is returned if and only if every edge ends within it, and then it is a sorted permutation of all of them |
| CommentPages.ParentsCarried | packages/connectors/src/facebook-page-official.ts:663-681 | a comment carries a parent if and only if the provider named a non-empty one, or named none on the edge of a non-empty parent |
| CommentPages.MatchedIsUnique | packages/connectors/src/facebook-page-official.ts:366-374 | the inspection matches an id if and only if exactly one comment of the complete list matches and has that id, which is the wanted id if one is given |
| ExcerptWindow.VerifySourceExcerpts | packages/agents/src/local-codex-research.ts:53-141 | the batches of three compute the check of every source in order, and the judgement of every claim |
| ExcerptWindow.ContextIsExactSlice | packages/agents/src/local-codex-research.ts:87-99 | a recorded context is the page's slice at its recorded start, as long as page and limit allow, and truncated is what it says |
| ExcerptWindow.PacketIsBounded | packages/agents/src/local-codex-research.ts:61-130 | order and number are kept, confidence is at most 80 and zero without a match, and all contexts together stay within 24000 |
| ExcerptWindow.AlwaysShownIff | packages/agents/src/local-codex-research.ts:63-88 | on every page the context shows every found quotation of a length if and only if the length is at most half the limit, rounded up |
| ExcerptWindow.SupportIsEarned | packages/agents/src/local-codex-research.ts:131-141 | a claim is supported afterwards if and only if it was, names a source, and all its sources were matched |

## Left out

* The handlers that any number of workers may run at once are state machines and not methods: what matters is what comes between their awaits, which a method of one caller cannot say. `InstagramPublish.BeginInstagramOperation` shows for one of them that the code takes the machine's steps.
* Facebook and YouTube runs of one target that overlap: their records are saved without a lease, and the queue's own locks are not part of this model.
* Content items but for one target of the Instagram machine: its status, its attempts and the item's version. Other edits are a version step, proofs of publication and the native AI label are not part of this model; nor are notifications, audit events and analytics jobs, which follow the executors' results.
* An operator's confirmation of a Facebook or YouTube publication. Instagram's keeps the lease of the record, as the PostgreSQL repository does; the in-memory one writes back the lease that the operator read.
* Whether a recovered Instagram record matches its approval depends on the invitation alone, as account, draft, settings and disclosure are copied from a target that never changes them.
* Private replies: drafting and approval are collapsed into one revision that queues again; the local echo of a sent message is not part of this model.
* Engagement replies: webhook receipts, thread synchronisation and the guards before the claim, which write nothing.
* First comments and remote corrections: attempts, notifications and the hashes that bind an intent; the drafting and approval before an intent is approved. A correction that an approver sends straight to manual action is modelled, cancelled corrections are not.
* Board decisions: the second list of applied keys, by idempotency scope, which is kept and cut in the same way; the link between a decision's content and its key, a hash, is taken as given, and no two queueings carry the same time.
* Hermes is idempotent by decision key: this is an assumption about a remote system.
* A connector's certainty is honest: a definite refusal means that nothing was delivered. Without it no status could be truthful.
* Identifiers are numbers or strings without structure; an absent and an empty identifier are one, as the code tests both by truthiness.
* HTTP, credentials, encryption, hashing, media delivery and URL parsing; a link is its protocol and host name, or unparsable.
* Times are integers. A date that does not parse is an explicit case where the code tests for it.
* CanonicalJson: values that are not JSON (undefined, functions, objects with a conversion of their own), and the printing of numbers, which are kept as their printed text.
* CommentPages: the host's collation, text normalisation and date parser are parameters; pages beyond trusted links are refused answers.
* ExcerptWindow: the extraction of text from a page and its normalisation; a page arrives as its text, a quotation normalised.
* SkillReconcile: description, category and provenance of a skill, and the rest of the profile's configuration.
* RequestSlots: the transport behind a slot.
* Bounded response bodies, error-code tables, plugin catalog, configuration checks, feed and page parsing, the web interface and the bots: they would only add easy members.
