# A model of the session daemon's protocols

This project models the protocols of `agentd`, the daemon that runs one coding-agent
session, and proves what every run of them keeps. Each is a set of step functions on
an explicit state, where a step is the code between two awaits and the clock, the
control plane, the harness and the disk are arguments of the steps; properties are
proved over every run. Beside it stands the program in its own form: classes and loops
whose methods are proved to do what the step functions say.

- `event-delivery*.dfy`, `event-pusher.dfy`: the queue of events with one batch in flight,
  its safety over every interleaving, and the cascade that a refusal for size starts.
- `turn-events.dfy`, `turn-stamps.dfy`: turn identity, and the bracketing of the emitted log.
- `codex-rollout*.dfy`: rebuilding a Codex thread from its log, against an undo stack and
  against a naive replay with snapshots.
- `setup-swap*.dfy`, `session-server.dfy`, `harness-retire.dfy`: a live set-up change, which
  holds input while one harness replaces another.
- `codex-turns*.dfy`, `codex-driver.dfy`, `opencode-*.dfy`, `promise-queue.dfy`, `claude-idle.dfy`:
  the turn bookkeeping of the three drivers.
- `event-bounds*.dfy`, `cut-level.dfy`, `utf8-*.dfy`, `json-*.dfy`: shrinking a payload,
  cutting and stripping text.
- `identity*.dfy`, `renewable-identity.dfy`, `task-ledger.dfy`, `desktop-lease.dfy`: credential
  renewal, the background-task ledger, the desktop's input lease.

Where the code does not do what its comments or its callers expect, the model follows the
code, a lemma gives the input, and another says exactly when the expectation holds:

- Rollout replay brings back text a compaction replaced when a rollback names more user turns
  than are left and the compaction sits in a turn before the first of them
  (`OverrunDiffers`; exactly when: `ReplayPreservesMeaning`). One whose newest compaction bounds
  the replay by itself brings its summary back although its turn was rolled back (`UndoneDiffers`;
  exactly when: `BoundedMeaning`).
- A `turn/started` read in one chunk with the error of an earlier `turn/start` is paired with
  the failed request's slot, which is released only by a later reaction
  (`RaceCancelsTheLiveTurn`; exactly when: `StartedExactly`). A superseded turn is never
  adopted for all that (`AdoptedInItsGeneration`).
- A Claude result can make the session idle while a message is between the queue and the
  counter, if the result's sync ends in the same drain of reactions, before the input's
  continuation; that puts it back to work (`IdleWhileHandedOver`; exactly when: `ResultDecides`).
  An interrupt can leave it idle over a queued message (`InterruptIdlesOverQueued`; exactly
  when: `InterruptDecides`; nothing else does: `OnlyInterruptsMislead`).
- A credential accepted with a lifetime between 30 s and 60 s is served past its margin
  (`ShortLifetimeMissesTheMargin`, which says exactly when).
- A repeated `task_started` is reported as a change of membership (`StartedTwiceIsReported`;
  exactly when: `ReportsMembership`).
- A message accepted while a daemon that shuts down stops the harness it just built is left
  held with no set-up to deliver it, until a set-up is taken or the session ended
  (`ShutdownLeavesHeld`; exactly when: `StrandedExactly`). A newer message can then overtake it
  (exactly when: `OrderedStep`).
- A set-up whose new harness was stopped for a shutdown is swapped to again when it is sent
  again (`OneSetupRestartsTwice`; exactly when: `RepeatsOnlyAfterAStop`), though no second harness
  is built for it (`NoSetupIsBuiltTwice`).
- An OpenCode command can run unreserved: a report or an interrupt that began before its turn
  opened lets its reservation go (`LateReportTakesTheReservation`; exactly when:
  `UnreservedExactly`).

Several proofs hide definitions they do not need with `hide`, which only keeps them fast.

## Model

| member | source | states |
|---|---|---|
| EventPushing.EventPusher.constructor | agent-base/agentd/event-pusher.mjs:60-91 | a new pusher has an empty queue, seq 0, no request in flight, and the full batch limits |
| EventPushing.EventPusher.Schedule | agent-base/agentd/event-pusher.mjs:192-198 | sets the flush timer unless one is set, a request is in flight or the pusher stopped; nothing else changes |
| EventPushing.EventPusher.MakeRoom | agent-base/agentd/event-pusher.mjs:166-180 | at the cap the oldest partial leaves the queue, if there is one; durable events never do |
| EventPushing.EventPusher.Enqueue | agent-base/agentd/event-pusher.mjs:141-189 | one event gets the next seq and goes last in the queue, unless the pusher stopped or it is a partial at the cap |
| EventPushing.EventPusher.Notice | agent-base/agentd/event-pusher.mjs:97 | a bracket or summary the pusher makes itself is queued as a durable event stamped with its turn |
| EventPushing.EventPusher.EmitStamped | agent-base/agentd/event-pusher.mjs:158-189 | the event itself, then one turn.files_changed under its turn if it was queued and its payload changed files |
| EventPushing.EventPusher.CloseBefore | agent-base/agentd/event-pusher.mjs:137-140 | a terminal event first closes the open turn and queues its turn.completed |
| EventPushing.EventPusher.Emit | agent-base/agentd/event-pusher.mjs:130-190 | one call queues exactly the items of its turn rules, in order: the closing bracket of a terminal event, the event with its stamp, its file summary |
| EventPushing.EmitIsItems | agent-base/agentd/event-pusher.mjs:130-190 | those two halves of an emit together are the items the turn rules give for the call, for every pusher and call |
| EventPushing.EventPusher.BeginTurn | agent-base/agentd/event-pusher.mjs:93-99 | a turn.started is queued exactly if no turn was open |
| EventPushing.EventPusher.CompleteTurn | agent-base/agentd/event-pusher.mjs:101-105 | a turn.completed is queued exactly if a turn was open, and its id is returned |
| EventPushing.EventPusher.RotateTurn | agent-base/agentd/event-pusher.mjs:107-113 | the open turn is completed, if any, and the new one started, in this order |
| EventPushing.EventPusher.StartDrainingTurn | agent-base/agentd/event-pusher.mjs:115-119 | the open turn is completed and goes on draining; its id is returned |
| EventPushing.EventPusher.FinishDrainingTurn | agent-base/agentd/event-pusher.mjs:121-124 | the draining turn ends only if it is the one named; the queue is untouched |
| EventPushing.EventPusher.NextBatch | agent-base/agentd/event-pusher.mjs:204-238 | the loop of nextBatch: the batch from the head of the queue and the queue it leaves, against the recursive specification |
| EventPushing.EventPusher.StartFlush | agent-base/agentd/event-pusher.mjs:240-246 | takes a batch exactly if none is in flight, the pusher runs and something is queued, and remembers it as in flight |
| EventPushing.EventPusher.RefusedForSize | agent-base/agentd/event-pusher.mjs:330-351 | a refused batch of several is narrowed, a lone partial dropped by seq, a lone durable event replaced by its stub by seq, a lone stub not handled |
| EventPushing.EventPusher.Stop | agent-base/agentd/event-pusher.mjs:369-375 | stops and clears the timer |
| EventPushing.EventPusher.GiveUp | agent-base/agentd/event-pusher.mjs:307-318 | clears the queue and stops |
| EventPushing.EventPusher.Respond | agent-base/agentd/event-pusher.mjs:247-302 | every branch after the request settles: permanent refusal, size refusal, other failure, terminal batch, empty batch, acknowledged batch removed by seq |
| EventDeliverySafety.NextBatchFacts | agent-base/agentd/event-pusher.mjs:200-238 | the batch is the head of the queue left, within the count limit, within the byte budget when it holds two events or more, and its byte count is the exact length of the body |
| EventDeliverySafety.GatherQueue | agent-base/agentd/event-pusher.mjs:204-238 | nextBatch leaves the same durable events in order, stubbed where they had no JSON |
| EventDeliverySafety.GatherEmpty | agent-base/agentd/event-pusher.mjs:219-224 | the batch is empty exactly when everything queued was a partial without JSON, and then the queue is empty too |
| EventDeliverySafety.RefusalFacts | agent-base/agentd/event-pusher.mjs:330-351 | a size refusal keeps order, caps and every durable event, itself or as its stub |
| EventDeliverySafety.AcceptedBatch | agent-base/agentd/event-pusher.mjs:282-283 | removing an accepted batch by seq takes off exactly its durable events, whatever was evicted or emitted meanwhile |
| EventDeliverySafety.TakenBatch | agent-base/agentd/event-pusher.mjs:240-302 | a receiver that stores each seq once and holds a prefix holds a longer prefix after storing the batch, resent or not |
| EventDeliverySafety.NoDurableEventIsLost | agent-base/agentd/event-pusher.mjs:130-302 | over every interleaving of emits, evictions, flushes, lost answers and refusals, up to giving up or a delivered terminal event: emitted durable events are the acknowledged followed by the queued ones, the receiver holds an in-order prefix of them at least as far as acknowledged, an over-full queue holds durable events only, and queued events always have a flush coming |
| EventDeliverySafety.TerminalEventIsPreceded | agent-base/agentd/event-pusher.mjs:275-281 | an accepted terminal event clears the queue, and by then the receiver holds every durable event emitted no later than it |
| EventDeliveryCascade.CycleShrinks | agent-base/agentd/event-pusher.mjs:204-302 | against a control plane refusing exactly the bodies over a cap (413, section 15.5.14 of RFC 9110) each flush lowers (queue length, unstubbed events, batch limit) |
| EventDeliveryCascade.CascadeDelivers | agent-base/agentd/event-pusher.mjs:320-351 | so the cascade ends and every queued event arrives once, in order, as itself if it fits the cap alone and as its stub otherwise |
| EventDeliveryAnswers.GivesUpExactly | agent-base/agentd/event-pusher.mjs:247-302 | the queue is given up exactly by 401, 403, 404 or 410, by a throw with one of those and at least six refusals, or by a 2xx to a batch with session.ended or session.error; nothing is then queued, out or coming |
| EventDeliveryAnswers.EveryDurableEventIsKept | agent-base/agentd/event-pusher.mjs:130-302 | so over every run with no such answer every durable event emitted was acknowledged or is queued, in order |
| EventDeliveryAnswers.RefusedIsRetried | agent-base/agentd/event-pusher.mjs:256-302 | after any other answer but a 2xx the same durable events are queued, nothing is out, and with anything queued a flush is coming |
| EventDeliveryAnswers.OnlyTooLargeNarrows | agent-base/agentd/event-pusher.mjs:282-286 | only 413, or 400 saying so, narrows what is sent next, by half; a receipt opens the count to 200 again |
| EventDeliveryAnswers.EmitShedsPartialsOnly | agent-base/agentd/event-pusher.mjs:141-189 | below 50000 queued an emit only appends; from there a new partial is shed and a durable event takes the place of the oldest partial |
| EventDeliveryBatches.FlushTakesTheMost | agent-base/agentd/event-pusher.mjs:192-246 | a flush takes, exactly when none is out, the pusher runs and something is queued, the head of the queue up to its end, the count limit, or an event that would take it over the byte budget |
| EventDeliveryBatches.BatchesAreSmall | agent-base/agentd/event-pusher.mjs:15-30 | over every run what is out is at most 200 events, at most 8 MiB unless one event alone, and counted to the byte |
| EventDeliveryBatches.TooLargeAlone | agent-base/agentd/event-pusher.mjs:338-350 | a lone event refused as too large: a partial goes, a durable one becomes its stub under its number and in its place, a stub stays |
| EventDeliveryBatches.TooLargeAndGone | agent-base/agentd/event-pusher.mjs:339-341 | and one that is queued no more changes nothing |
| EventDeliveryBatches.RefusalIsHandled | agent-base/agentd/event-pusher.mjs:330-351 | the refusal waits for the backoff exactly if it was of a lone stub, or of an empty batch with events queued |
| TurnEvents.TurnEventContext.Begin | agent-base/agentd/turn-events.mjs:17-24 | an open turn stays, else the new id opens |
| TurnEvents.TurnEventContext.Complete | agent-base/agentd/turn-events.mjs:26-31 | the open turn closes and is returned |
| TurnEvents.TurnEventContext.Rotate | agent-base/agentd/turn-events.mjs:33-37 | the open turn is returned and the new one opens |
| TurnEvents.TurnEventContext.StartDraining | agent-base/agentd/turn-events.mjs:39-43 | the open turn closes and becomes the draining one; with none open the draining one stays |
| TurnEvents.TurnEventContext.FinishDraining | agent-base/agentd/turn-events.mjs:45-47 | only the named turn stops draining |
| TurnBrackets.ReadEmit | agent-base/agentd/event-pusher.mjs:130-190 | what one emit queues keeps a strict reader of the log going: brackets in place, stamps inside an open or draining turn |
| TurnBrackets.ReaderIsRight | agent-base/agentd/turn-events.mjs:7-55 | a readable log tells, at every entry, which turn is open and which were closed, in terms of its brackets |
| TurnBrackets.TurnsAreBracketed | agent-base/agentd/turn-events.mjs:17-54 | with fresh ids every turn starts once, completes at most once after it, turns never overlap, a terminal event finds none open, every stamped event lies in its bracket unless it is late output of the draining turn, and once every interrupt finished nothing drains |
| TurnStamps.EveryEventNamesItsTurn | agent-base/agentd/turn-events.mjs:49-55 | over every run, told from the log: an event with an explicit null names no turn; any other sdk or todo event names the draining turn while one drains; every other one the open turn, if any; a file summary the turn of the event before it |
| TurnStamps.InterruptedTurnDrains | agent-base/agentd/turn-events.mjs:39-47 | in every run an interrupted turn drains until its drain is finished or another open turn is interrupted |
| TurnStamps.OnlyTheCallersEventIsPartial | agent-base/agentd/event-pusher.mjs:130-190 | of what a call queues only the caller's own event can be a partial; brackets and summaries are durable, and a summary follows exactly a stamped event that changed files |
| CodexRollout.FindCheckpoint | agent-base/agentd/drivers/codex.mjs:1770-1844 | both loops of replayCheckpoint compute the specified checkpoint, for every record list and mode |
| CodexRollout.CheckpointIsReadable | agent-base/agentd/drivers/codex.mjs:1770-1844 | the checkpoint is -1 or a compaction that carries its replacement history |
| CodexRollout.Replay | agent-base/agentd/drivers/codex.mjs:1602-1624 | the replay loop rebuilds the specified history or fails with the specified error |
| CodexRolloutUndo.ScanIsUndoStack | agent-base/agentd/drivers/codex.mjs:1781-1843 | for every record list, prefix, open segment and number k of turns to skip, the reverse scan finds the newest compaction left once k user turns are popped from the stack a forward reading builds |
| CodexRolloutUndo.CheckpointIsNewestStanding | agent-base/agentd/drivers/codex.mjs:1770-1844 | the checkpoint is the newest compaction no rollback undid, unless the newest of all bounds the replay by itself |
| CodexRolloutMeaning.NaiveIsLive | agent-base/agentd/drivers/codex.mjs:1602-1623 | the naive replay with snapshots holds the history of the turns left, and its snapshots those before each user turn among them |
| CodexRolloutMeaning.CutTurns | agent-base/agentd/drivers/codex.mjs:1848-1864 | cutting at the newest n-th user boundary takes off exactly the newest n user turns and what came after them |
| CodexRolloutMeaning.CutStrip | agent-base/agentd/drivers/codex.mjs:1848-1864 | cutting commutes with leaving out items that a rebuilt thread never carries |
| CodexRolloutMeaning.RealIsLive | agent-base/agentd/drivers/codex.mjs:1606-1623 | the forward replay from nothing holds, but for such items, those of the turns left |
| CodexRolloutCheckpoint.TurnEffect | agent-base/agentd/drivers/codex.mjs:1784-1842 | scanning one well-formed turn backwards skips it, or finds its newest compaction |
| CodexRolloutCheckpoint.CheckpointIsChunk | agent-base/agentd/drivers/codex.mjs:1770-1844 | on a well-formed rollout the checkpoint lies in the newest turn with a compaction that the rollbacks after it leave |
| CodexRolloutReplay.CheckpointPreservesMeaning | agent-base/agentd/drivers/codex.mjs:1587-1625 | whenever a checkpoint is found the rebuilt conversation is the naive replay's |
| CodexRolloutReplay.ReplayPreservesMeaning | agent-base/agentd/drivers/codex.mjs:1587-1625 | on every well-formed legacy rollout the scan decides, a history is rebuilt, and its plain items are the naive replay's if and only if counting rollbacks back over the turns reaches one with a compaction and none left to skip, or no compaction before the first user turn left changes them |
| CodexRolloutReplay.ReplayWithoutOverrun | agent-base/agentd/drivers/codex.mjs:1587-1625 | so it is the naive replay's whenever no rollback names more user turns than are left |
| CodexRolloutReplay.HistoryOfOneRollout | agent-base/agentd/drivers/codex.mjs:1587-1625 | the whole function, session_meta checks included, on such a rollout |
| CodexRolloutBounded.CodeIsBelowAndTop | agent-base/agentd/drivers/codex.mjs:1606-1623 | from any history the forward replay rebuilds what the rollbacks leave of it, then the items of the turns that stay above it |
| CodexRolloutBounded.NaiveIsBelowAndTop | agent-base/agentd/drivers/codex.mjs:1606-1623 | the naive replay holds what the rollbacks leave of the turns before, played, then the same items |
| CodexRolloutBounded.BoundedMeaning | agent-base/agentd/drivers/codex.mjs:1770-1779 | on every well-formed legacy rollout whose newest compaction bounds the replay by itself a history is rebuilt, and its plain items are the naive replay's if and only if what later rollbacks leave of the compaction's history is, as plain items, what they leave of the turns up to it |
| CodexRolloutBounded.BoundedByCount | agent-base/agentd/drivers/codex.mjs:1770-1779 | where both hold as many user turns as the rollbacks reach down: if and only if the compaction's history less so many user turns carries what the turns less as many play |
| CodexRolloutBounded.BoundedPreservesMeaning | agent-base/agentd/drivers/codex.mjs:1770-1779 | so it always is if no rollback after the compaction's turn reaches past that turn |
| CodexRolloutBounded.BoundedWithoutUsers | agent-base/agentd/drivers/codex.mjs:1770-1779 | and however far they reach, if neither the turns up to the compaction nor its history hold a user turn |
| CodexRolloutOverrun.UndoneDiffers | agent-base/agentd/drivers/codex.mjs:1770-1779 | a user turn that ends in such a compaction, undone: the summary comes back |
| CodexRolloutOverrun.OverrunDiffers | agent-base/agentd/drivers/codex.mjs:1781-1843 | a rollback past a compaction in a turn without a user message brings back what was compacted away, where the naive replay keeps the summary |
| CodexRolloutWhole.SegmentTells | agent-base/agentd/drivers/codex.mjs:1787-1842 | over any records read backwards a segment stands exactly if one belongs to a turn, knows whether one opens a user turn, the newest compaction with a replacement, and the turn named last |
| CodexRolloutWhole.RefusedExactly | agent-base/agentd/drivers/codex.mjs:1602-1622 | a rollout is refused exactly if past its checkpoint it holds a message between agents or a compaction without its replacement |
| CodexRolloutWhole.WholeHistory | agent-base/agentd/drivers/codex.mjs:1587-1625 | which lineages are refused by their own session_meta, and else the history of all segments together as plain items |
| CodexRolloutCompacted.PlainCompactionIsItsReplacement | agent-base/agentd/drivers/codex.mjs:1714-1717 | a compaction with nothing encrypted leaves its replacement history |
| CodexRolloutCompacted.RepliesComeBetween | agent-base/agentd/drivers/codex.mjs:1718-1740 | one with encrypted items whose kept user messages carry orders: what is left is the replacement without those, and the retained replies, each whole and in order, a reply before a user message exactly if its order is lower |
| CodexRolloutCompacted.RetainedComeInOrder | agent-base/agentd/drivers/codex.mjs:1722-1728 | where a kept user message has no order: the retained messages and replies by their orders, users first on ties, nothing else |
| CodexRolloutCompacted.CarriesPlainConversation | agent-base/agentd/drivers/codex.mjs:1932-1947 | of every item a rebuilt thread carries no instructions, no context, nothing encrypted and no ids, and the rest as it was |
| CodexRolloutCompacted.WhatOpensAUserTurn | agent-base/agentd/drivers/codex.mjs:1872-1896 | a user turn opens with a person's message that is no context and no summary, or with a message between agents |
| CodexRolloutCompacted.WhatIsHistory | agent-base/agentd/drivers/codex.mjs:1898-1915 | which items logged are history, and which were delivered from code mode, field by field |
| CodexRolloutCompacted.WhatBounds | agent-base/agentd/drivers/codex.mjs:1770-1779 | a compaction bounds a replay by itself with its replacement and window number, and in a legacy rollout its resume metadata |
| CodexRolloutCompacted.WhatARollbackTakes | agent-base/agentd/drivers/codex.mjs:1848-1864 | all from the message it cuts at, and where that carries its order also earlier replies and calls accepted no earlier |
| SessionServer.FilterHeld | agent-base/agentd/session-setup.mjs:143-152 | the loop splits held input by the author rule, in order |
| SessionServer.Session.constructor | agent-base/agentd/server.mjs:322-386 | a new session holds nothing |
| SessionServer.Session.SetState | agent-base/agentd/server.mjs:205-216 | a finished session keeps its state; going idle notes the time |
| SessionServer.Session.CancelPendingParks | agent-base/agentd/server.mjs:307-311 | the parks of the named kinds are gone and a blocked session with nothing left outstanding resumes |
| SessionServer.Session.DropHeldFrom | agent-base/agentd/server.mjs:1381-1387 | what the new author filter does not take leaves the held input and its ids are forgotten |
| SessionServer.Session.DropHeld | agent-base/agentd/server.mjs:1389-1402 | all held input is dropped and its ids forgotten |
| SessionServer.Session.AbandonSetup | agent-base/agentd/server.mjs:1431-1437 | the pending set-up, its answers-from and all held input go |
| SessionServer.Session.EndSession | agent-base/agentd/server.mjs:1305-1311 | ending, nothing outstanding, set-up abandoned |
| SessionServer.Session.ApplySetup | agent-base/agentd/server.mjs:1462-1468 | the pending set-up becomes the one being swapped to and takes the control reservation |
| SessionServer.Session.MaybeApplySetup | agent-base/agentd/server.mjs:1439-1456 | abandoned on a session that ends, ended on expiry, swapped to when signaled and ready, else left |
| SessionServer.Session.HandleMessage | agent-base/agentd/server.mjs:978-1033 | duplicate, refused, held or delivered, by the order of the source's checks |
| SessionServer.Session.HoldMessage | agent-base/agentd/server.mjs:1370-1379 | held, remembered, task waits cancelled, and the swap tried |
| SessionServer.Session.HandleSetup | agent-base/agentd/server.mjs:1327-1353 | a set-up the session already has changes nothing; a new one replaces the pending one and keeps who alone may answer |
| SessionServer.Session.HandleSetupApply | agent-base/agentd/server.mjs:1356-1368 | only the pending set-up is signaled |
| SessionServer.Session.StartControl | agent-base/agentd/session-control.mjs:96-112 | reserved exactly when no set-up change is in flight and the session is idle and free; during one the swap is made urgent |
| SessionServer.Session.ReleaseControl | agent-base/agentd/session-control.mjs:110-121 | released only if still held by that call |
| SessionServer.Session.HandlePermission | agent-base/agentd/server.mjs:1150-1191 | decided only if pending and allowed to this member; the session resumes when nothing is outstanding |
| SessionServer.Session.ReplayHeld | agent-base/agentd/server.mjs:1560-1575 | in order until the harness refuses one; the rest is dropped and forgotten |
| SessionServer.Session.Settle | agent-base/agentd/server.mjs:1506-1517 | the swap is over, its reservation released; a set-up that came meanwhile goes on, else anyone may answer again |
| SessionServer.Session.FailSetup | agent-base/agentd/server.mjs:1577-1582 | held input dropped, session in error unless it is over |
| SessionServer.Session.AfterRetire | agent-base/agentd/server.mjs:1471-1486 | not gone: the session errors and no harness is built; gone: idle, and ended or going on to build |
| SessionServer.Session.AfterConstruct | agent-base/agentd/server.mjs:1487-1505 | failed, ended meanwhile, or installed, applied and the held input replayed unless another set-up waits |
| SessionServer.Session.AfterStop | agent-base/agentd/server.mjs:1493-1498 | the swap settles once the new harness was stopped again |
| SetupSwapSafety.StepKeepsInv | agent-base/agentd/server.mjs:1327-1582 | every step keeps the whole invariant of the set-up change |
| SetupSwapTheorems.HeldInputIsConserved | agent-base/agentd/server.mjs:1370-1402 | over every run each accepted message is delivered, held or dropped, one of these only; deliveries are in arrival order; held input reaches only a harness built after it came and other input only the one running; what is held the current author filter takes, and every delivery the one in force then; held input means a set-up in flight, or a daemon shutting down |
| SetupSwapTheorems.OneHarnessAndOneCall | agent-base/agentd/server.mjs:1462-1539 | over every run at most one harness can be running, none while another is built, at most one control call is under way and it is the reservation's |
| SetupSwapTheorems.NoSetupRestartsTwice | agent-base/agentd/server.mjs:1336-1341 | over every run re-sending the pending, swapping or applied set-up changes nothing, and until a shutdown no two restarts in a row are for one set-up |
| SetupSwapTheorems.NoSetupLingers | agent-base/agentd/server.mjs:1439-1456 | over every run, once the clock has ticked no set-up is pending that no apply came for in the two minutes before: it ended the session, what was held for it dropped, and was not swapped to |
| SetupSwapTheorems.DroppedIsForgotten | agent-base/agentd/server.mjs:1395-1402 | whatever a step drops is no longer remembered, so it is taken anew when sent again |
| SetupSwapTheorems.AnswersStay | agent-base/agentd/server.mjs:1342-1344 | while a set-up change is in force its answers-from stays, and only a later set-up naming someone replaces it |
| SetupSwapTheorems.OwnerAnswersAlone | agent-base/agentd/session-setup.mjs:127-133 | through any run that stays in force and names no one else, every allow applied is that member's |
| SetupSwapTheorems.SwapsBeginAtTurnBoundaries | agent-base/agentd/session-setup.mjs:163-175 | in every step a swap begins only once signaled, idle, nothing pending, parked or reserved, and no background task unless told to stop, held input or a waiting caller |
| SetupSwapStranding.StrandedStep | agent-base/agentd/server.mjs:1327-1517 | in every state a step leaves input held with no set-up pending or swapping exactly if it did so before and the step is no new set-up and no end, or the harness it stopped for a shutdown had input held for no further set-up |
| SetupSwapStranding.StrandedExactly | agent-base/agentd/server.mjs:1462-1517 | over every run input is so held at the end exactly if some stop for a shutdown left it, and no step since took a set-up or ended the session |
| SetupSwapStranding.ShutdownLeavesHeld | agent-base/agentd/server.mjs:1493-1498 | such a run: a message accepted while a shutting-down daemon stops its new harness |
| SetupSwapOrder.OrderedStep | agent-base/agentd/server.mjs:978-1033 | a step puts a delivery before something older that is held exactly if a message goes straight to the harness while input is stranded |
| SetupSwapOrder.NothingOvertakes | agent-base/agentd/server.mjs:1370-1402 | so over every run, unless some stop for a shutdown left input held for no set-up, nothing delivered came after what is held |
| SetupSwapRestarts.RepeatsOnlyAfterAStop | agent-base/agentd/server.mjs:1336-1341 | over every run, shutting down or not, no two restarts in a row are for one set-up exactly if no step begins a swap to the set-up whose swap was last ended by the stop of its new harness |
| SetupSwapRestarts.OneSetupRestartsTwice | agent-base/agentd/server.mjs:1487-1517 | such a run: a set-up whose harness was stopped for a shutdown is not applied, is taken again and swapped to again |
| SetupSwapRestarts.NoSetupIsBuiltTwice | agent-base/agentd/server.mjs:1471-1505 | but over every run no two harnesses in a row are built for one set-up |
| SetupSwapRestarts.BuiltOnlyAfterWindDown | agent-base/agentd/server.mjs:1471-1539 | whatever the timing of its stop, in every state a harness is built only if the wind-down of the one before it succeeded by then |
| HarnessRetire.VouchesOnlyForTheGone | agent-base/agentd/server.mjs:1520-1539 | an old harness has 20 s, or 3 s with background tasks, then a stop waited for 10 s, and 10 s more: it is vouched gone exactly if its wind-down said so by then, and when the wait ends |
| SetupSwapRules.OnlyFilteredInput | agent-base/agentd/session-setup.mjs:135-141 | over every run all that is held, and every delivery, is the platform's or the named member's, if one is named |
| SetupSwapRules.MessageIsTaken | agent-base/agentd/server.mjs:978-1033 | a message is taken exactly if its id is not remembered, the filter in force lets it through, and the session holds input and goes on, or is free with a harness that accepts; it is then held or delivered |
| SetupSwapRules.SetupFilters | agent-base/agentd/server.mjs:1327-1353 | a set-up not known is taken by a session that goes on; it drops exactly what is held of others and not the platform's, and says who may answer |
| SetupSwapRules.TickDecides | agent-base/agentd/server.mjs:1439-1456 | a pending set-up is dropped on a session that is over or ending, ends it two minutes after it came unsignaled, is swapped to when signaled and the session is ready, field by field, else left |
| SetupSwapRules.DecidesExactly | agent-base/agentd/session-setup.mjs:127-133 | a pending request is decided exactly if nobody is named, it is no allow, or it is that member's |
| SetupSwapRules.BuiltIsApplied | agent-base/agentd/server.mjs:1487-1505 | a harness built in a session that goes on is its own from then on, with the set-up applied and what is held given to it in order until it refuses one |
| SetupSwapResend.SentAgainIsNotTakenTwice | agent-base/agentd/message-context.mjs:90-121 | over every run a message once taken and not dropped changes nothing when sent again, until more than 255 others were taken |
| SetupSwapStates.FewIdsAreRemembered | agent-base/agentd/message-context.mjs:100-115 | and over every run no more than 256 ids are remembered |
| SetupSwapStates.WaitsBlock | agent-base/agentd/server.mjs:270-299 | a wait is parked and blocks the session |
| SetupSwapStates.EndedWaitsResume | agent-base/agentd/server.mjs:270-311 | the end of the last of what a blocked session waits for resumes it; an interrupt ends all |
| SetupSwapStates.RequestsBlock | agent-base/agentd/server.mjs:1150-1191 | a permission request blocks it too; a count of tasks does not |
| SetupSwapStates.MessagesEndTaskWaits | agent-base/agentd/server.mjs:1026-1031 | a person's message into a running session ends its waits for a task and no other; a platform message none |
| SetupSwapStates.HeldMessagesEndTaskWaits | agent-base/agentd/server.mjs:1370-1379 | so does one that is held |
| SetupSwapStates.EndingsClear | agent-base/agentd/server.mjs:1305-1311 | an end and a shutdown leave nothing pending or parked that is under way |
| SetupSwapStates.ControlStartsExactly | agent-base/agentd/session-control.mjs:92-112 | a control call is reserved exactly on an idle, free session with no set-up in flight; a pending set-up becomes urgent |
| SetupSwapStates.ControlEndsExactly | agent-base/agentd/session-control.mjs:110-121 | a call under way ends, and frees the session only if it still holds it |
| SetupSwapStates.IdleSinceItWentIdle | agent-base/agentd/server.mjs:205-216 | in every state an idle session knows since which step it is |
| SetupSwapStates.RunsItsHarness | agent-base/agentd/server.mjs:1462-1517 | over every run anyone may answer outside a set-up change, and until the session is over exactly its harness runs, or the one it builds |
| CodexDriver.Driver.StartTurn | agent-base/agentd/drivers/codex.mjs:1201-1224 | a slot of the generation in force is claimed last and the request sent |
| CodexDriver.Driver.SendSteer | agent-base/agentd/drivers/codex.mjs:1176-1183 | steers the current turn, or starts one |
| CodexDriver.Driver.FlushSteers | agent-base/agentd/drivers/codex.mjs:1168-1174 | everything parked goes to the current turn, in order |
| CodexDriver.Driver.Dispatch | agent-base/agentd/drivers/codex.mjs:1246-1256 | start, steer or park |
| CodexDriver.Driver.QueueMessage | agent-base/agentd/drivers/codex.mjs:1267-1272 | refused once closed or finished |
| CodexDriver.Driver.TurnStarted | agent-base/agentd/drivers/codex.mjs:636-673 | the oldest slot decides: adopted in the generation in force, else cancelled |
| CodexDriver.Driver.StartAnswered | agent-base/agentd/drivers/codex.mjs:1225-1232 | the id is adopted early only in the request's own generation with none known |
| CodexDriver.Driver.StartFailed | agent-base/agentd/drivers/codex.mjs:1233-1243 | the slot is released whatever the generation |
| CodexDriver.Driver.SteerFailed | agent-base/agentd/drivers/codex.mjs:1184-1198 | retried as a new turn only in its own generation |
| CodexDriver.Driver.TurnCompleted | agent-base/agentd/drivers/codex.mjs:727-748 | a stale completion changes nothing |
| CodexDriver.Driver.Interrupt | agent-base/agentd/drivers/codex.mjs:1274-1297 | the generation moves on, parked messages are withdrawn, no turn is current |
| CodexTurnsSafety.FlushShape | agent-base/agentd/drivers/codex.mjs:1168-1174 | a flush sends exactly the parked messages, in order, in the generation in force |
| CodexTurnsSafety.NothingSentAfterItsInterrupt | agent-base/agentd/drivers/codex.mjs:1274-1297 | in every run, whatever the order of answers, failures and notifications, a message leaves only in the generation it was queued in |
| CodexTurnsSafety.NoMessageIsForgotten | agent-base/agentd/drivers/codex.mjs:1168-1256 | in every run a message taken is parked, was sent, or was withdrawn |
| CodexTurnsSafety.TurnsArePaired | agent-base/agentd/drivers/codex.mjs:317-334 | in every run where no turn starts with a failed request's slot oldest, the slots are the turns still to start plus the failures not yet reacted to, turns are adopted only in their own generation and cancelled only after an interrupt |
| CodexTurnsSafety.NextTurnIsPaired | agent-base/agentd/drivers/codex.mjs:654-662 | and the next turn takes its own slot if and only if no failed request holds the oldest one |
| CodexTurnsAdoption.AdoptedInItsGeneration | agent-base/agentd/drivers/codex.mjs:636-673 | in every run, whatever the order of answers, failures and notifications, a turn is adopted only in the generation it was asked for in |
| CodexTurnsAdoption.StartedExactly | agent-base/agentd/drivers/codex.mjs:654-662 | in every run the next turn to start is cancelled if it is superseded; a live one is cancelled exactly if the oldest slot is of an earlier generation, else adopted; and a slot that is not its own is that of no turn still to start |
| CodexTurnsSafety.RaceCancelsTheLiveTurn | agent-base/agentd/drivers/codex.mjs:1233-1243 | a turn/started read together with the failure of an earlier request is paired with that request's slot: the live turn is cancelled |
| CodexTurnsEnds.CompletionEndsItsTurn | agent-base/agentd/drivers/codex.mjs:727-748 | a completion of the current turn, or naming none, leaves no turn active and none current; of another, or of any while the opening one's id is unknown, changes nothing |
| CodexTurnsEnds.ErrorEndsItsTurn | agent-base/agentd/drivers/codex.mjs:750-790 | an error likewise, but one naming a turn counts while none is known |
| CodexTurnsEnds.TurnEndsExactly | agent-base/agentd/drivers/codex.mjs:727-790 | an active turn ends exactly by these, its failed start in its own generation, an interrupt or a shutdown |
| CodexTurnsEnds.InterruptBeginsAnew | agent-base/agentd/drivers/codex.mjs:1274-1297 | interrupts and stops begin a new generation, with no turn left of the old |
| CodexTurnsEnds.MessageGoes | agent-base/agentd/drivers/codex.mjs:1246-1272 | a message opens a turn with none active, is steered into the current one, waits for its id, or goes nowhere |
| CodexTurnsEnds.NextMessageOpensATurn | agent-base/agentd/drivers/codex.mjs:1246-1256 | the message queued right after a turn ended opens a turn |
| CodexTurnsEnds.AnswerAdopts | agent-base/agentd/drivers/codex.mjs:1225-1232 | the answer of a request makes its turn current only in its own generation with none known |
| CodexTurnsEnds.RefusedSteerOpensATurn | agent-base/agentd/drivers/codex.mjs:1184-1198 | a steer refused under its turn opens one, in its own generation only |
| CodexTurnsEnds.NothingTakenOnceOver | agent-base/agentd/drivers/codex.mjs:1267-1272 | once closed, finished or stopped no message is taken in any run that follows |
| OpenCodeDriver.Driver.ResetTurnState | agent-base/agentd/drivers/opencode.mjs:289-300 | the next number, in the generation in force, with no text or error |
| OpenCodeDriver.Driver.SendPrompt | agent-base/agentd/drivers/opencode.mjs:851-861 | opens the next turn and marks the generation |
| OpenCodeDriver.Driver.QueueMessage | agent-base/agentd/drivers/opencode.mjs:879-891 | a follow-up joins the open turn, else a turn opens |
| OpenCodeDriver.Driver.Busy | agent-base/agentd/drivers/opencode.mjs:712-729 | re-arms only with no turn open, the last one claimed and the last prompt of this generation |
| OpenCodeDriver.Driver.Idle | agent-base/agentd/drivers/opencode.mjs:731-755 | closes the open turn with its snapshot chained |
| OpenCodeDriver.Driver.Interrupt | agent-base/agentd/drivers/opencode.mjs:966-978 | the generation moves on and no turn is open |
| OpenCodeDriver.Driver.React | agent-base/agentd/drivers/opencode.mjs:749-754 | a report whose generation stands and whose number is new is claimed |
| OpenCodeDriver.Driver.EmitResult | agent-base/agentd/drivers/opencode.mjs:338-393 | the result goes out from the snapshot |
| OpenCodeResultsSafety.ResultsAreNumbered | agent-base/agentd/drivers/opencode.mjs:338-340 | in every run results come in strictly increasing turn numbers, each with the text read last of its own turn when its idle came, and failed exactly if the error read last of it was no abort, none of a turn superseded before its reaction ran |
| OpenCodeResultsSafety.NoResultIsSkipped | agent-base/agentd/drivers/opencode.mjs:749-754 | the number guard never costs an uninterrupted turn its result |
| OpenCodeResultsSafety.TurnsNeedAPrompt | agent-base/agentd/drivers/opencode.mjs:714-727 | after an interrupt no turn opens until a prompt is sent in the new generation |
| OpenCodeTurns.MessageGoes | agent-base/agentd/drivers/opencode.mjs:845-955 | a message goes nowhere once closed or finished, follows up an open turn, or opens the next; a command opens one |
| OpenCodeTurns.BusyOpensExactly | agent-base/agentd/drivers/opencode.mjs:712-729 | a busy opens the next turn exactly with none open, the driver going on, the last prompt of this generation and the last result claimed |
| OpenCodeTurns.TextsAndErrorsAreRead | agent-base/agentd/drivers/opencode.mjs:700-708 | each text but an empty one, and each error, is the last read of its turn |
| OpenCodeTurns.IdleReports | agent-base/agentd/drivers/opencode.mjs:731-755 | an idle closes the open turn and chains its report as it stands then |
| OpenCodeTurns.RefusalFails | agent-base/agentd/drivers/opencode.mjs:870-877 | a refused prompt fails the driver only in its own generation |
| OpenCodeTurns.InterruptBeginsAnew | agent-base/agentd/drivers/opencode.mjs:966-978 | an interrupt closes the open turn unreported; so does a shutdown, after which the driver finishes |
| OpenCodeTurns.ReportsGoOut | agent-base/agentd/drivers/opencode.mjs:338-393 | a report of the generation in force, its number unclaimed, is claimed; then its result goes out, failed exactly if its error was no abort |
| OpenCodeTurns.EveryIdleIsReported | agent-base/agentd/drivers/opencode.mjs:731-755 | in every run never interrupted nor finished the idles of open turns are, in order, the results gone out, the one under way and those chained |
| OpenCodeCommands.UnreservedExactly | agent-base/agentd/drivers/opencode.mjs:322-336 | in every run an open command turn is without its reservation exactly if the report of an earlier turn or an earlier interrupt has ended since it opened |
| OpenCodeCommands.LostOnlyIfUnderWay | agent-base/agentd/drivers/opencode.mjs:379-393 | it can lose it exactly if such a report or interrupt is under way when it opens |
| OpenCodeCommands.NeverOutlives | agent-base/agentd/drivers/opencode.mjs:966-988 | and in every run the reservation stands only while its call's turn is to open or open, or a report or an interrupt is under way |
| OpenCodeCommands.LateReportTakesTheReservation | agent-base/agentd/drivers/opencode.mjs:379-393 | such a run: a report under way through an interrupt ends under the command that came after |
| OpenCodeCommands.CommandsOpen | agent-base/agentd/drivers/opencode.mjs:902-930 | a command is reserved exactly on an idle session nobody holds, and opens its turn or lets go of the reservation |
| OpenCodeCommands.EndsGoIdle | agent-base/agentd/drivers/opencode.mjs:379-393 | the end of a report, and of the newest interrupt, leaves the session idle exactly if the driver goes on and no turn is open |
| PromiseQueues.PromiseQueue.Push | agent-base/agentd/drivers/claude.mjs:69-75 | refused once closed, else given to the oldest waiter or queued |
| PromiseQueues.PromiseQueue.Close | agent-base/agentd/drivers/claude.mjs:76-79 | every waiter is told, and nothing more is taken |
| PromiseQueues.PromiseQueue.Next | agent-base/agentd/drivers/claude.mjs:80-84 | the oldest item, else closed, else a new waiter |
| PromiseQueues.AnswersAreThePushes | agent-base/agentd/drivers/claude.mjs:63-85 | in every run the answers of next() are the accepted pushes in order, then closed for good, and items and waiters never stand together |
| PromiseQueues.AcceptedUntilClosed | agent-base/agentd/drivers/claude.mjs:69-84 | in every run exactly what was pushed before the first close is accepted, and each next() has its answer or waits |
| ClaudeIdle.ResultDecides | agent-base/agentd/drivers/claude.mjs:795-854 | a result makes the session idle exactly when every message accepted was consumed before it arrived, or is the one on its way from queue to counter; else the turn rotates; the result of a draining turn changes nothing |
| PromiseQueues.ClosedForGood | agent-base/agentd/drivers/claude.mjs:69-84 | in every run that goes on after a close nothing more is accepted, every answer given stays, and every answer past the last push is that the queue is closed |
| ClaudeIdle.InterruptDecides | agent-base/agentd/drivers/claude.mjs:952-970 | in every run the last look of an interrupt turns a working session idle exactly when nothing was consumed since it was asked for, and with nothing left queued exactly when also every message accepted was consumed before, or is on its way |
| ClaudeIdle.OnlyInterruptsMislead | agent-base/agentd/drivers/claude.mjs:795-970 | no other step leaves a session idle over a queued message, or idle past a result that is still being synced |
| ClaudeIdle.IdleMeansAnswered | agent-base/agentd/drivers/claude.mjs:513-534 | in every run where each such look found that, interrupts included, a session is idle, nothing on its way, only if every message was consumed before the result or interrupt that made it so; and it rotates only while working if none came between a result and its sync with something consumed since |
| ClaudeIdle.IdleWithoutInterrupts | agent-base/agentd/drivers/claude.mjs:513-534 | so in every run without interrupts an idle session answered every message, and a turn rotates only in one that stays working |
| ClaudeIdle.TransitHeals | agent-base/agentd/drivers/claude.mjs:516-531 | the message on its way puts the session back to work when it is counted |
| ClaudeIdle.IdleWhileHandedOver | agent-base/agentd/drivers/claude.mjs:823-849 | a message handed over while a result syncs lets the session go idle before it is counted |
| ClaudeIdle.InterruptIdlesOverQueued | agent-base/agentd/drivers/claude.mjs:952-970 | a run where a message queued during an interrupt's sync is queued in an idle session |
| ClaudeIdle.InterruptLooks | agent-base/agentd/drivers/claude.mjs:948-956 | an interrupt goes on to its sync exactly if nothing is queued and nothing was consumed since it was asked for |
| ClaudeIdle.WorkStarts | agent-base/agentd/drivers/claude.mjs:513-534 | a message taken, one counted and a turn of the CLI put the session to work; the pump ends only on a closed queue |
| ClaudeIdle.ClosedTakesNothing | agent-base/agentd/drivers/claude.mjs:69-79 | in every run after a close nothing more is taken |
| CutLevel.FindCutLevel | agent-base/agentd/event-bounds.mjs:193-201 | on sizes largest first and a positive need: no higher level saves enough; the level returned does, is exceeded by exactly the first k sizes of its step, or is 0 and no level at all does |
| CutLevel.StepCutsItsOwn | agent-base/agentd/event-bounds.mjs:195-199 | the first step whose level reaches the next size cuts exactly its own strings |
| CutLevel.CutsFewest | agent-base/agentd/event-bounds.mjs:187-192 | that level is unique, and any other that saves enough is lower and cuts at least as many strings |
| CutLevel.SavingsOfFirst | agent-base/agentd/event-bounds.mjs:193-199 | what cutting the strings over a level saves: what they are over it, less 32 bytes of marker each |
| EventBounds.BoundEventPayload | agent-base/agentd/event-bounds.mjs:248-289 | the steps and the loop that shrink a payload, against the recursive specification; shrunk exactly if it was over the cap |
| EventBounds.BoundFits | agent-base/agentd/event-bounds.mjs:240-289 | a payload that fits is returned as it is; any other result says it was cut, and fits wherever the bare mark does; strings are cut only if nothing less was enough, and where dropping encoded file data is, nothing else is touched |
| EventBounds.IdentitySurvives | agent-base/agentd/event-bounds.mjs:203-289 | the scalars and short strings that say which event it is are in every result but the bare mark, whichever steps were taken |
| EventBounds.SortedPermutes | agent-base/agentd/event-bounds.mjs:267 | the sizes the level is chosen from are those of the payload, largest first |
| EventBoundsSteps.StripLeavesTheRest | agent-base/agentd/event-bounds.mjs:83-100 | wherever dropping encoded data writes nothing the payload is what it was, at every place in it |
| EventBoundsSteps.NothingEncodedIsLeft | agent-base/agentd/event-bounds.mjs:83-100 | nowhere in the result is a base64 source with data, or a file with base64 |
| EventBoundsSteps.EncodedIsEmptied | agent-base/agentd/event-bounds.mjs:88-100 | where one was its text is empty, and how many bytes went is said |
| EventBoundsSteps.HundredItemsStay | agent-base/agentd/event-bounds.mjs:139-143 | within the first hundred items of its arrays a payload stays, and a longer array has one item more that says how many went |
| EventBoundsSteps.OnlyLongStringsAreCut | agent-base/agentd/event-bounds.mjs:164-172 | exactly the strings whose JSON is over the level are cut, each to the share of its bytes that the level is of its JSON, which is fewer than it has |
| EventBoundsSteps.ShortTextsStay | agent-base/agentd/event-bounds.mjs:248-280 | through all steps short of the skeleton every scalar and every string of at most 256 bytes of JSON stays in its place, but for encoded data, the tool output and late items of arrays |
| EventBoundsSteps.OutputGoesFirst | agent-base/agentd/event-bounds.mjs:260-263 | where dropping encoded data is not enough only the size of the tool output is left, whatever else goes |
| EventBoundsLevels.SizeIsLength | agent-base/agentd/event-bounds.mjs:36-44 | a size is the length of the JSON text |
| EventBoundsLevels.SizesAreOfLongStrings | agent-base/agentd/event-bounds.mjs:174-186 | the level is chosen from the JSON sizes of exactly the strings over 256 bytes |
| EventBoundsLevels.CutsToTheLevel | agent-base/agentd/event-bounds.mjs:265-279 | the payload is cut, from its uncut strings, to the level of the first of at most four rounds that fits or goes down to 256, each asking for what all before were over by |
| EventBoundsLevels.LastResorts | agent-base/agentd/event-bounds.mjs:280-288 | what fits then is the result, else the skeleton if it fits, else the bare mark |
| EventBoundsSkeleton.SkeletonHolds | agent-base/agentd/event-bounds.mjs:203-235 | a skeleton holds the marks of the cut, the twelve identity keys of the payload that are scalars or strings, its message's skeleton, and nothing else |
| EventBoundsSkeleton.MessageOfSkeleton | agent-base/agentd/event-bounds.mjs:214-228 | of a message its id, type, role and model |
| EventBoundsSkeleton.ContentOfSkeleton | agent-base/agentd/event-bounds.mjs:221-227 | of its content the objects among the first hundred items, in order, each with its identity only, and how many items more there were |
| Utf8Truncate.TruncateString | agent-base/agentd/event-bounds.mjs:147-155 | unchanged exactly if its bytes fit; else the kept bytes are those of a whole number of characters, one more does not fit, and kept plus reported is the whole length |
| Utf8Truncate.ThreePerUnit | agent-base/agentd/event-bounds.mjs:148-149 | three bytes a UTF-16 unit are always enough, so the shortcut never skips a needed cut |
| Utf8Truncate.KeptIsLongest | agent-base/agentd/event-bounds.mjs:151-154 | a prefix of characters fits exactly if it is no longer than the kept one |
| Utf8Codec.CharactersAreRead | agent-base/agentd/event-bounds.mjs:147-155 | the units of UTF-16 are read as the characters they stand for, a lone surrogate as U+FFFD |
| Utf8Codec.BytesAreRead | agent-base/agentd/event-bounds.mjs:147-155 | a character has the bytes of UTF-8: as few as reach it, their number told by the first |
| JsonComments.StripJsonComments | agent-base/agentd/drivers/pi-provider.mjs:25-56 | the loop writes, for every text, what the lexer says |
| JsonComments.StripIsClean | agent-base/agentd/drivers/pi-provider.mjs:25-56 | lexing the output gives the lexemes of the input without comments, a line comment leaving its newline: strings verbatim and in place, no new comment made |
| JsonComments.LexIsLossless | agent-base/agentd/drivers/pi-provider.mjs:25-56 | the lexemes of a text are the text |
| JsonComments.StripTwice | agent-base/agentd/drivers/pi-provider.mjs:25-56 | no comment is left, text without any is unchanged, and stripping twice is stripping once |
| JsonLexemes.LexemesAreRead | agent-base/agentd/drivers/pi-provider.mjs:25-56 | text written as lexemes, strings with escapes and comments with or without their end among them, is read as those lexemes |
| JsonLexemes.CommentsGo | agent-base/agentd/drivers/pi-provider.mjs:25-56 | so of such text the code and the strings are written as they are, and a newline for each line comment |
| CredentialBroker.RenewableIdentity.Get | agent-base/agentd/credential-broker.mjs:34-53 | serves, waits for the one renewal, or throws, by the order of the source's checks |
| CredentialBroker.RenewableIdentity.Renewed | agent-base/agentd/credential-broker.mjs:66-73 | the lifetime is anchored to receipt; counters, error and backoff are reset |
| CredentialBroker.RenewableIdentity.Refused | agent-base/agentd/credential-broker.mjs:77-80 | a refusal revokes the token at once and counts |
| CredentialBroker.RenewableIdentity.Failed | agent-base/agentd/credential-broker.mjs:83-85 | the error is kept and the next renewal put off |
| CredentialBroker.RenewableIdentity.RenewalFailed | agent-base/agentd/credential-broker.mjs:75-88 | refusal or failure, then every waiting caller is served the old token while usable, or the error |
| CredentialBroker.RenewableIdentity.Settle | agent-base/agentd/credential-broker.mjs:55-89 | a renewal that settled, with the reactions of all callers waiting |
| CredentialBroker.RenewableIdentity.Close | agent-base/agentd/credential-broker.mjs:91 | closed, and no token kept |
| IdentitySafety.OneRenewalAtATime | agent-base/agentd/credential-broker.mjs:40-47 | over every run a renewal begins only once the last has ended |
| IdentitySafety.TokensAreInLifetime | agent-base/agentd/credential-broker.mjs:66-69 | over every run no token is handed out at or after its lifetime from receipt, nor within 30 s of its end if it lives a minute or more |
| IdentitySafety.HandedOutAsItIs | agent-base/agentd/credential-broker.mjs:34-69 | for every lifetime accepted and every time of receipt: until half the lifetime is over a get serves the token, usable then exactly if its end is still further than the margin |
| IdentitySafety.ShortLifetimeMissesTheMargin | agent-base/agentd/credential-broker.mjs:62-69 | so some get serves a token that is not usable exactly for lifetimes under 60 s, and for these every get from 30 s before the end until half the lifetime |
| IdentitySafety.FailuresAreSpaced | agent-base/agentd/credential-broker.mjs:83-86 | over every run the n-th of consecutive failures comes at least the sum of the first n backoffs after the first |
| IdentitySafety.BackoffTable | agent-base/agentd/credential-broker.mjs:85 | the backoffs are 1, 2, 4, 8, 16, 30, 30, … seconds |
| IdentitySafety.DeadStaysDead | agent-base/agentd/credential-broker.mjs:36-37 | a token rejected, revoked or closed is never handed out again |
| IdentitySafety.DiagnosticsAlternate | agent-base/agentd/credential-broker.mjs:71-84 | over every run error and recovery alternate, an error first |
| IdentitySafety.GivesUpOnlyOnRevocation | agent-base/agentd/event-pusher.mjs:288-297 | the pusher gives up on a thrown refusal only if the last six renewals were all refused, however often one was replayed |
| IdentityRules.GetGives | agent-base/agentd/credential-broker.mjs:34-53 | a caller gets a token that is fresh, a place behind the one renewal, or while that is put off the token still usable, if it is not strict and did not reject it, else the last error |
| IdentityRules.RenewalServesTheNewToken | agent-base/agentd/credential-broker.mjs:55-73 | a renewal with a lifetime over 30 s and of an hour at most gives every caller that waited the new token and no other |
| IdentityRules.FailedRenewalGives | agent-base/agentd/credential-broker.mjs:75-88 | one refused with 400, 401, 403, 404 or 410 revokes the token, and all get the error; after any other failure callers that are not strict get the old token while usable, strict ones never |
| IdentityRules.ClosedRenewalThrows | agent-base/agentd/credential-broker.mjs:65-89 | a renewal that settles after the close brings every caller that waited an error |
| IdentityRules.ClosedServesNobody | agent-base/agentd/credential-broker.mjs:91 | once closed nobody is served and no renewal begins in any run that follows |
| TaskLedger.BackgroundTasks.ApplyTaskMessage | agent-base/agentd/drivers/claude-tasks.mjs:105-147 | the ledger after any message, and what is reported |
| TaskLedger.BackgroundTasks.CountTasks | agent-base/agentd/drivers/claude-tasks.mjs:156-163 | the loop counts the entries within the TTL of the ledger's source |
| TaskLedger.MembersFollowLevel | agent-base/agentd/drivers/claude-tasks.mjs:105-147 | once a level came the members are its non-ambient tasks less those settled since, whatever else was said |
| TaskLedger.LevelAndSettleCommute | agent-base/agentd/drivers/claude-tasks.mjs:105-147 | a level and a settle edge commute exactly if the level leaves the task out |
| TaskLedger.ReportsMembership | agent-base/agentd/drivers/claude-tasks.mjs:102-147 | a change is reported exactly when the members changed, or for a repeated task_started before any level |
| TaskLedger.StartedTwiceIsReported | agent-base/agentd/drivers/claude-tasks.mjs:127-136 | such a repeat is reported although nothing changed |
| TaskLedger.CountFalls | agent-base/agentd/drivers/claude-tasks.mjs:156-163 | without messages the count never rises |
| TaskLedger.ShellCountsUntilItsEnd | agent-base/agentd/drivers/claude-tasks.mjs:58-163 | through every message sequence in which a level listed it and none since left it out or settled it, a shell counts until its ceiling |
| TaskLedger.EntriesAfter | agent-base/agentd/drivers/claude-tasks.mjs:105-147 | after any message, who is in the ledger and as of when |
| TaskLedger.MembersFollowEdges | agent-base/agentd/drivers/claude-tasks.mjs:120-147 | before any level a task is in exactly if some message said it started, not as ambient, and none since that it settled |
| TaskLedger.CountsUntil | agent-base/agentd/drivers/claude-tasks.mjs:156-163 | an entry counts for two hours before any level, for the shell ceiling and an hour more after one |
| TaskLedger.CeilingBounds | agent-base/agentd/drivers/claude-tasks.mjs:66-88 | the ceiling is two hours, raised by either variable, and never over 2^31-1 ms |
| DesktopLease.Desktop.WriteControlNow | agent-base/agentd/desktop.mjs:118-139 | the file and the answer after any change, refusals included |
| DesktopLease.LeaseReadsBack | agent-base/agentd/desktop.mjs:86-91 | a written lease reads back to its holder exactly until 90 s later (from the slack before it on) |
| DesktopLease.UngrantedItLapses | agent-base/agentd/desktop.mjs:82-139 | whatever the file says and however many changes are refused meanwhile, a user read at one time keeps the agent out for less than 95 s more |
| DesktopLease.ControlPassesThroughAGap | agent-base/agentd/desktop.mjs:111-139 | over every run of serialized changes control passes to another user only through a hand-back or a lapse |
| DesktopLease.RenewalsNeverGain | agent-base/agentd/desktop.mjs:131-137 | after a hand-back or a lapse no run of renewals, by anyone, takes control again |
| DesktopLease.GrantedIsHeld | agent-base/agentd/desktop.mjs:128-139 | whoever is told they hold control holds it until the lease ends |
| DesktopLease.ControlIsRead | agent-base/agentd/desktop.mjs:86-91 | words with blanks between them name a user exactly if the first is "user" and the second a time ahead by 95 s at most; the third is the id |
| DesktopLease.DecimalIsItsNumber | agent-base/agentd/desktop.mjs:134 | the time written is read as the number it is |
| DesktopLease.ChangeDecides | agent-base/agentd/desktop.mjs:118-139 | a lease of 90 s is granted exactly to an id of 1 to 128 letters, digits, _ and - while no other user's is live, a renewal only to whose it is; anyone hands back; anything else leaves the file |

## Left out

- HTTP routing, sockets, files, skills, VNC relay and the seeding of a home volume: a session starts with its first harness up, and requests are the calls of the handlers with their bodies parsed.
- In the queue event payloads are their JSON text, one character a byte. `boundEventPayload` works on a tree, with the byte sizes of texts and their cut as parameters; a payload that cannot be serialized, `DeviceScreens` and the sharing of untouched subtrees by `rewrite` are not modelled.
- EventBounds.IdentitySurvives: for identity strings of at most 256 bytes inside JSON; a longer one is cut.
- EventBoundsSteps.OnlyLongStringsAreCut: which strings are cut, and to how many bytes; what a cut keeps of one is `Utf8Truncate.TruncateString`, on units and bytes.
- EventPushing.EventPusher.Enqueue: the payload comes bounded and stripped of screens, and the log line on a cut payload is left out.
- EventPushing.EventPusher.Emit: as Enqueue; whether the payload changed files is an argument.
- Retry delays, flush delays and `drain` of the pusher: only that a flush is coming is kept.
- The reset of the changed-files tracker between turns: whether a payload changed files is an argument of the emit.
- JSON parsing of rollout lines and `readCodexRolloutLineage`: a rollout is a sequence of records; the contextual-text, summary and inter-agent matchers are facts that stand beside each text; `num_turns` is an integer; a compacted line's retained messages come sorted and filtered.
- CodexRolloutReplay.ReplayPreservesMeaning: well-formed rollouts carry no acceptance order and no records outside turns but inert ones; a newest compaction that bounds the replay by itself is not scanned for and has its own theorem, `BoundedMeaning`.
- CodexRolloutBounded.BoundedByCount: where the compaction's history carries acceptance orders, or holds fewer user turns than rollbacks reach down, `BoundedMeaning` stands alone.
- The checks of request bodies before a handler acts, the fields of an answer to a question among them. Control-call bodies (the command, shell, model and compaction themselves), pending shell contexts and the specs a harness is built from: only their admission and reservation are modelled.
- SetupSwapTheorems.OneHarnessAndOneCall: a call releases only while it is under way; how an OpenCode driver lets the reservation of a later command go is `OpenCodeCommands`, on values and for commands alone.
- SetupSwapTheorems.NoSetupRestartsTwice: compares restarts until a shutdown; after it `RepeatsOnlyAfterAStop` says exactly when one repeats.
- SessionServer.Session.constructor: the session starts idle with its first harness up, not seeding.
- SessionServer.Session.SetState: the turn brackets and the status event it emits belong to the pusher's model.
- SessionServer.Session.EndSession: the harness's own `beginEnd` is left out.
- SessionServer.Session.MaybeApplySetup: every session is the daemon's one session, and every harness can retire.
- SessionServer.Session.HandlePermission: a question's answers are not checked, and the text of a refusal is left out.
- CodexDriver.Driver.StartFailed: what follows the slot's release, the error result, is left out.
- CodexDriver.Driver.Interrupt: up to its first await; the idle state set after it is left out.
- OpenCodeDriver.Driver.Busy: a compaction under way is left out.
- OpenCodeDriver.Driver.EmitResult: the text and the turn only; cost, usage and the idle state are left out.
- CredentialBroker.RenewableIdentity.Settle: a renewal and the reactions of the callers waiting for it are one step.
- Compactions in the driver turn machines, permission gates, tool calls and context usage.
- CodexTurnsSafety.TurnsArePaired: exact pairing for runs where no turn starts with a failed request's slot oldest; it assumes, as the driver's comments do, that turns start in the order they were asked for, and that every `turn/started` names its turn.
- OpenCodeResultsSafety.ResultsAreNumbered: an idle carries no turn id, so it closes whatever turn is open; at most one result a turn is proved, not that it was the turn's own idle.
- The background-task count on idle events, and session states other than idle and working, in the Claude model.
- `CredentialBroker` itself: routes, the switch of session identities on `activate`, `deactivate` and `tick`, and the proxied requests.
- IdentitySafety.TokensAreInLifetime: a renewal and the reactions of the callers waiting for it are one step, so a token is served at its receipt.
- IdentityRules.GetGives: for an identity that is not closed; a `get` on a closed one throws, which is not recorded.
- DesktopLease.LeaseReadsBack: `Number` is a parameter known only on plain decimals up to the largest safe integer, and spaces are blank, tab, carriage return and newline.
- The regular expressions for environment values: a value is unset, a plain integer or anything else.
- The translators, the registry, tool policy, prompts, logging and error wording: field mapping that would add only easy members.
