# Verified model of the matchmaking service

fmlocal emulates AWS FlexMatch. Its matchmaking service keeps tickets, mirrors the proposals of a matching engine, turns
the engine's answers into ticket transitions and events, and hands the events of each command to a delivery lane. This
project models that service in Dafny and proves what its protocol keeps.

- `Domain`, `Ticket`: the status table, the events, and the ticket aggregate, once as a value (`TicketState`) and once as
  the mutable object of the source, whose methods are proved to act as the functions on the value.
- `RosterKey`, `ProposalTracker`: the key of a roster, and the three maps of the proposal tracker.
- `ServiceState`, `Tick`, `Commands`, `Runs`: the ticket store, the four passes of a tick, the four client commands and
  whole runs, as functions of the state and of the engine's answers. `MatchmakingService` is the service as an object
  with maps of ticket and tracker objects; its methods have the loops of the source and are proved to compute those
  functions.
- `Outcomes`: what the four client commands achieve: exactly when each succeeds, which error it reports otherwise, and
  all that it changes, field by field.
- `AnyEngine`, `AnyRun`, `AnyTicket`, `AnyTick`: what holds on every run whatever the engine answers: of the store and the
  event log, of each single ticket in each pass, and of a whole tick.
- `Traces`, `EngineContract`, `Protocol*`, `Guarantees`: what holds on every run in which the engine keeps its contract.
  The contract is the predicate `EngineContract.TickContract`, and `Witness` has a run that keeps it. `Traces` defines, on
  the events alone, the order in which the events about a ticket and about a match may come. `SharedPlayer` and
  `FailedRollback` are runs that reach two corner cases.
- `TicketMoves`, `PassEffects`, `TickEffects`, `Decisions`: what becomes of each ticket in a contracted tick, with every
  field and every event that names it, and which decisions a ticket carries.
- `Interleaving`, `Isolation`: commands of different configurations, interleaved between the critical sections of the
  state lock, and what such an interleaving looks like to one configuration.
- `Delivery*`: the delivery lanes and their shutdown as a transition system whose steps are single critical sections and
  channel operations of any number of producers, workers and closers.
- `Published`: contract runs of the service and the delivery of their events, as one transition system.
- `Doubles`, `WireFormats`: the CBOR bridge against encoding/json, on values.

`dafny verify dfyconfig.toml` checks the whole project.

What the proofs showed about the code:

- `CloseDelivery` before the first reservation returns nil and closes nothing, so later commands still succeed
  (`DeliveryRuns.CloseTakesEffect`, `DeliveryRuns.ReservationAfterEarlyClose`).
- A failing `StartMatchBackfill` keeps the rule metrics it captured on the earlier ticket, and keeps the new id reserved
  if the engine also fails to give the new ticket up (`AnyRun.FailedBackfillUndone` says exactly when,
  `FailedRollback.RollbackFails` is a run in which it happens).
- The two wire formats differ on a nil map that is not omitted (an empty object against null), and on the negative
  integers between -2^54 and -2^53 that are 2 modulo 4: float64 holds them, but `-float64(t) - 1` does not return them
  (`WireFormats.NilMapDiffers`, `WireFormats.ExactIntegerLost`; `WireFormats.SurvivesWhen` says exactly which survive).
- Nothing keeps two tickets of one match from sharing a player. AcceptMatch then reports one decision of that player, that
  of the later ticket, so a failure can be announced as Rejected without any refusal having been reported
  (`SharedPlayer.RejectedUnreported` is such a run; `Guarantees.RefusalsReported` says exactly when a refusal is reported).
- Configurations share the ticket ids: a request can be refused because of one of another configuration that is in flight.
  Nothing else passes between them (`Isolation.RunsAlone`).
- Roster keys need ids without "|" and non-empty rosters (`RosterKey.KeyCollisions`).

## Model

| member | source | states |
|---|---|---|
| Guarantees.EventGrammar | internal/domain/matchmaking/ticket.go:83-105 | On every contract run the events naming a ticket follow its life and agree with its status: an ending is last and marks a terminal status, and two Searching events have a PotentialMatchCreated between them |
| Guarantees.PooledClean | internal/domain/matchmaking/ticket.go:401-423 | A QUEUED or SEARCHING ticket has no match id, no decisions, and only the seats its request asked for |
| Guarantees.MatchProtocol | internal/app/matchmaking/tick.go:186-335 | Over a whole contract run the events about one match id: PotentialMatchCreated once and first, at most one AcceptMatchCompleted, Rejected if the decisions last reported include a refusal, Accepted only directly before the success, success last; all of them have the roster of the first up to order |
| Guarantees.FailureAnnounced | internal/app/matchmaking/tick.go:208-217 | All that a whole contracted tick emits about a proposal that fails in it: one AcceptMatchCompleted exactly unless the client stopped a ticket of its roster; Rejected exactly if some ticket of the roster records a refusal, TimedOut otherwise |
| Guarantees.SettledForGood | internal/app/matchmaking/tick.go:186-246 | However the run goes on after the tick in which a proposal fails, the events about its match are those before the tick and that one announcement, or nothing more where it was left out |
| Guarantees.OverForGood | internal/app/matchmaking/tick.go:85-95 | Once a match id has been handed out and is not tracked any more, no command and no tick of a contract run emits an event about it or tracks it again |
| TickEffects.TickAnswers | internal/app/matchmaking/tick.go:337-381 | After a contracted tick an active ticket that was in no match is cancelled or timed out exactly if the engine says so, requires acceptance exactly if it is in a pending roster, and otherwise waits in the pool; one that ended is named last by the one event of its kind, with the stop message exactly if the client had stopped it, and before that at most by the failure of its match |
| TickEffects.TickUnmatched | internal/app/matchmaking/tick.go:186-277 | The same in full: each field of the ticket after the tick and each event that names it, in order, for a ticket whose proposal failed, continues or is new, and for one that waits |
| TickEffects.TickMatched | internal/app/matchmaking/tick.go:279-335 | A ticket of a reported match is completed under the match's id with the seats the engine gave, and the batch names it by the creation or the acceptance, and then the success |
| TickEffects.TickOver | internal/app/matchmaking/tick.go:111-151 | The passes leave a ticket that had ended as it is and do not name it |
| Decisions.DecisionsMean | internal/domain/matchmaking/ticket.go:256-277 | On contract runs a ticket records a decision of a player exactly if a successful AcceptMatch has named that player on this ticket since it came to its present match, and then it is that of the last such request |
| ProtocolSilence.LaterPassesSilent | internal/app/matchmaking/tick.go:129-149 | Finalizing, applying and synchronising emit nothing about a match that was over after the first pass, and do not track it |
| Guarantees.DecisionsReported | internal/app/matchmaking/accept.go:81-104 | A successful AcceptMatch emits one event about the tracked roster. It reports a decision of every player of whom a roster ticket records one and of nobody else, that of the last such ticket; where no two tickets share a player that is every recorded decision; and each requested player has the requested decision on the ticket (`Outcomes.AcceptEffect`: every other player keeps theirs) |
| Guarantees.RefusalsReported | internal/app/matchmaking/tick.go:427-440 | The decisions last reported about a tracked match are those merged from its roster. They include a refusal exactly if some ticket of the roster records one of a player of whom no later ticket records a decision; then a failure is Rejected, and where no two tickets share a player a failure is Rejected only then |
| Guarantees.SharedPlayerHidesRefusal | internal/app/matchmaking/accept.go:94-103 | Merging the decisions of two tickets that share a player keeps that of the later ticket, so a refusal recorded on the first is lost |
| SharedPlayer.RejectedUnreported | internal/app/matchmaking/tick.go:208-217 | A contract run in which a match fails as Rejected although every decision reported about it is an acceptance: two tickets share a player, who accepts on the second and then refuses on the first |
| Guarantees.TrackerMirrorsEngine | internal/app/matchmaking/tick.go:111-151 | A contracted tick reports no error, and afterwards the tracked (roster, creation time) pairs are exactly the engine's pending proposals and the tracker's indices are inverse to each other |
| Guarantees.RequiresAcceptanceTracked | internal/app/matchmaking/tick.go:36-95 | A ticket is REQUIRES_ACCEPTANCE exactly when its match id is tracked with the ticket in the roster, and it is in no other tracked roster |
| Guarantees.SettlementOrderIrrelevant | internal/app/matchmaking/tick.go:186-246 | Visiting the tracked proposals in another map order leaves the same tickets, indices and trackers and the same events per ticket and per match |
| Guarantees.TickOrderIrrelevant | internal/app/matchmaking/tick.go:111-151 | The same for the whole tick: with another map order it leaves the same store, reports an error in the same cases, and emits the same events per ticket and per match |
| Witness.ContractKept | internal/app/matchmaking/tick.go:111-151 | The engine contract can be kept: a run of a configuration that requires acceptance keeps it, with two starts, a tick in which two proposals become pending, and a tick that matches one of them while the other fails |
| Guarantees.RunInv | internal/app/matchmaking/tick.go:111-151 | Every command and tick of a contract run keeps the invariant that ties tickets, tracker, matches and event log together |
| Traces.EndingIsLast | internal/app/matchmaking/tick.go:219-241 | What the ticket monitor means: a Cancelled, TimedOut or Succeeded is the last event naming a ticket, so there is at most one |
| Traces.SearchingNeedsMatch | internal/domain/matchmaking/ticket.go:401-423 | What the ticket monitor means: Searching is not announced again without a proposal in between |
| Traces.MatchMeaning | internal/app/matchmaking/tick.go:317-331 | What the match monitor means: creation first and only once, at most one completion, success last, all with the roster of the first up to order |
| Traces.AcceptedThenSucceeded | internal/app/matchmaking/tick.go:323-331 | What the match monitor means: an Accepted completion is followed by the success |
| ProtocolSettle.SettleProposalExact | internal/app/matchmaking/tick.go:186-246 | Settling a failed proposal settles each roster ticket once, announces the match's end, forgets it, and changes no other ticket, match or tracker |
| ProtocolSettle.SettleMid | internal/app/matchmaking/tick.go:186-246 | The first pass removes exactly the listed proposals that failed from the tracker and keeps the invariant |
| ProtocolFinalize.FinalizeMatchExact | internal/app/matchmaking/tick.go:279-335 | Finalizing a match completes its tickets, announces it under the tracked or a fresh id, forgets it, and changes nothing else |
| ProtocolFinalize.FinalizeMid | internal/app/matchmaking/tick.go:279-335 | The second pass completes the reported matches, leaves none of them tracked, and keeps the invariant |
| ProtocolApply.NewReady | internal/app/matchmaking/tick.go:248-262 | assignAt overwrites nothing: a new proposal's roster is not tracked, its tickets are in no tracked roster, and its id is tracked by no configuration |
| ProtocolApply.ApplyMid | internal/app/matchmaking/tick.go:248-277 | The third pass tracks every pending proposal beside those tracked before, no others, and keeps the invariant |
| ProtocolSync.SyncMid | internal/app/matchmaking/tick.go:337-381 | The fourth pass keeps the invariant and leaves the trackers alone |
| ProtocolRun.TickInv | internal/app/matchmaking/tick.go:111-151 | A contracted tick reports no error and keeps the invariant; a refused one, or one whose engine tick fails, keeps it too |
| ProtocolRun.BackfillInv | internal/app/matchmaking/backfill.go:26-117 | A backfill command, successful or not, keeps the invariant |
| ProtocolOrder.OrderIrrelevant | internal/app/matchmaking/tick.go:186-246 | Settling in any two orders gives the same store and the same events per ticket and per match |
| AnyRun.IndexAgreement | internal/app/matchmaking/service.go:215-333 | On every run with any engine: each ticket is indexed under its own configuration only, the active index lists exactly the active tickets, the end time is set exactly on ended tickets, and no id is both registered and reserved |
| AnyRun.AnnouncedAtMostOnce | internal/app/matchmaking/tick.go:219-241 | With any engine a ticket is named by at most one Cancelled, TimedOut or Succeeded event, and only once it has ended |
| AnyRun.EndedStays | internal/domain/matchmaking/status.go:41-51 | With any engine no run changes the status or end time of an ended ticket or announces it again |
| Domain.ReachedFrom | internal/domain/matchmaking/status.go:41-51 | Which statuses each status can be reached from; every status can be kept |
| AnyRun.OneOutstandingBackfill | internal/app/matchmaking/backfill.go:58-117 | With any engine a configuration has at most one active backfill ticket per non-empty game session |
| AnyRun.FailedBackfillUndone | internal/app/matchmaking/backfill.go:95-117 | A failing backfill emits nothing and leaves the store as it was, except that where the engine took the new ticket and refused to cancel the earlier one, captured rule metrics stay on that one, and the new id stays reserved if the engine did not give the new ticket up |
| FailedRollback.RollbackFails | internal/app/matchmaking/backfill.go:95-117 | A run from the empty service in which both traces stay: a committed backfill, then a second one whose cancellation of the first and whose own withdrawal the engine refuses |
| AnyRun.RetentionUpperBound | internal/app/matchmaking/service.go:203-249 | After a tick that reports no error every ended ticket of its configuration is younger than the configured retention, three hours if that is not positive, plus one clean-up interval, a minute or the retention if that is shorter |
| AnyRun.RetentionLowerBound | internal/app/matchmaking/service.go:203-249 | No command removes an active ticket, or an ended one before the configured retention, three hours if that is not positive, has passed |
| AnyTick.EndedByTick | internal/app/matchmaking/tick.go:337-381 | Whatever the engine answers, a tick that reports no error leaves no active ticket of its configuration that the engine reports as cancelled or timed out |
| AnyTick.MatchesCompleted | internal/app/matchmaking/tick.go:279-335 | Whatever the engine answers, a tick that reports no error has completed every registered ticket of every reported match, and the engine has taken note of each |
| AnyTick.ApplyTracksLast | internal/app/matchmaking/tick.go:248-277 | Whatever the engine reports, an unfailed third pass leaves each pending roster tracked with the creation time of the last proposal of that roster, so a roster proposed anew becomes a new match |
| AnyTick.SyncAnnounces | internal/app/matchmaking/tick.go:352-377 | In the fourth pass the failure of a match is announced at most once, and, if no error stops the pass, exactly if the engine cancelled one of its tickets for want of acceptance |
| AnyTick.TickSweeps | internal/app/matchmaking/service.go:203-249 | An unfailed tick removes a ticket exactly if its sweep is due and the ticket is an ended one of its configuration whose retention is over, and says when the next sweep is due |
| AnyTick.IntentMeans | internal/app/matchmaking/stop.go:48-49 | On every run a ticket is marked to be cancelled exactly if a StopMatchmaking of it has succeeded since it was registered |
| AnyTicket.SettlesOne | internal/app/matchmaking/tick.go:219-241 | What the first pass makes of one ticket for every answer of the engine, also one that contradicts the ticket |
| AnyTicket.FinalizesOne | internal/app/matchmaking/tick.go:289-316 | The same for the second pass, with the half-done ticket an error leaves |
| AnyTicket.AssignsOne | internal/app/matchmaking/tick.go:262-274 | The same for the third pass |
| AnyTicket.SyncsOne | internal/app/matchmaking/tick.go:337-381 | The same for the fourth pass, with the failure it announces and the match it forgets |
| AnyEngine.FinalizeMatchGrew | internal/app/matchmaking/tick.go:279-335 | Whatever the engine answers, also with an error half way, finalizing a match adds and removes no ticket and announces an end only as it happens |
| AnyEngine.SyncGrew | internal/app/matchmaking/tick.go:337-381 | The same for the fourth pass, which looks at each active ticket once |
| RosterKey.KeyFaithful | internal/app/matchmaking/tick.go:27-34 | Non-empty rosters of ids without "\|" have the same key exactly when they are permutations of each other |
| RosterKey.KeyCollisions | internal/app/matchmaking/tick.go:27-34 | Both conditions are needed: an id with the separator and the empty roster each share a key with another roster |
| RosterKey.SplitUndoesJoin | internal/app/matchmaking/tick.go:27-34 | Splitting the joined ids on "\|" gives the ids back |
| RosterKey.ProposalKey | internal/app/matchmaking/tick.go:27-34 | The sorting and joining loops compute the key |
| RosterKey.ListingSorted | internal/app/matchmaking/service.go:141-152 | The active tickets of a configuration are listed each once and in string order |
| ProposalTracking.Tracker.AssignKeepsCoherent | internal/app/matchmaking/tick.go:43-53 | Assigning a new id to an untracked roster tracks it with that roster and creation time, changes nothing about any other match, and keeps the indices inverse |
| ProposalTracking.Tracker.ForgetKeepsCoherent | internal/app/matchmaking/tick.go:85-95 | Forgetting removes one match from all three maps and frees its roster for a new id |
| ProposalTracking.ProposalTracker.AssignAt | internal/app/matchmaking/tick.go:47-53 | The tracker object's maps become those of the tracker value after assigning |
| ProposalTracking.ProposalTracker.Forget | internal/app/matchmaking/tick.go:85-95 | The tracker object's maps become those of the tracker value after forgetting |
| TicketAggregate.Ticket.ReturnToSearching | internal/domain/matchmaking/ticket.go:401-423 | Clears match, decisions and teams, seats a backfill again and records Searching, or changes nothing on an illegal transition |
| TicketAggregate.Ticket.MarkCancelled | internal/domain/matchmaking/ticket.go:351-394 | Ends the ticket with reason, message and end time and records one Cancelled, or changes nothing |
| TicketAggregate.Ticket.MarkTimedOut | internal/domain/matchmaking/ticket.go:329-347 | Ends the ticket and records one TimedOut, or changes nothing |
| TicketAggregate.Ticket.SetPlayerTeams | internal/domain/matchmaking/ticket.go:163-178 | Takes over the team of each of the ticket's own players and of nobody else |
| TicketAggregate.Ticket.ValidatePlayerAcceptances | internal/domain/matchmaking/ticket.go:239-252 | Passes exactly if the ticket requires acceptance and the request names one or more of its own players only |
| MatchmakingService.MatchmakingService.SaveTicket | internal/app/matchmaking/service.go:252-278 | Refuses exactly an id registered to another object or reserved; otherwise registers the ticket and both indices |
| MatchmakingService.MatchmakingService.CommitTicket | internal/app/matchmaking/service.go:317-333 | Registers the ticket in all indices and releases its reservation |
| MatchmakingService.MatchmakingService.EvictExpiredTickets | internal/app/matchmaking/service.go:215-249 | Removes exactly the expired tickets from all maps, at most once per interval |
| MatchmakingService.MatchmakingService.SettleOldProposals | internal/app/matchmaking/tick.go:186-246 | The nested loops over proposals, matches and tickets compute the first pass, also where it stops at an error |
| MatchmakingService.MatchmakingService.FinalizeMatches | internal/app/matchmaking/tick.go:279-335 | The loops compute the second pass, with the half-done work an error leaves |
| MatchmakingService.MatchmakingService.ApplyNewProposals | internal/app/matchmaking/tick.go:248-277 | The loops compute the third pass |
| MatchmakingService.MatchmakingService.SyncActiveTickets | internal/app/matchmaking/tick.go:337-381 | The loop over the sorted active ids computes the fourth pass, which `AnyTicket.SyncsOne` gives ticket by ticket and `TickEffects.TickAnswers` for a whole tick |
| MatchmakingService.MatchmakingService.TransitionFromEngine | internal/app/matchmaking/tick.go:387-421 | Moves the ticket as the reported status demands and returns an outcome exactly if that settles its acceptance |
| MatchmakingService.MatchmakingService.AcceptanceFailureOutcome | internal/app/matchmaking/tick.go:427-440 | Rejected exactly if a ticket of the tracked roster records a refusal |
| MatchmakingService.MatchmakingService.Tick | internal/app/matchmaking/tick.go:111-151 | The object after a tick and its batch are those of the tick function, so every result about runs and about single ticks applies to it |
| MatchmakingService.MatchmakingService.StartMatchmaking | internal/app/matchmaking/start.go:12-73 | Reserve, enqueue, commit or cancel: the store, batch and outcome of the command function, which `Outcomes.StartOutcome` and `Outcomes.StartEffect` give |
| Outcomes.StartOutcome | internal/app/matchmaking/start.go:12-73 | StartMatchmaking succeeds exactly if there are players, the request is not refused, its id is usable and free and the engine enqueues the ticket; every other case has its error |
| Outcomes.StartEffect | internal/app/matchmaking/start.go:31-73 | A successful request registers the requested ticket, given field by field, in both indices and announces it; a failing one changes nothing |
| MatchmakingService.MatchmakingService.StartMatchBackfill | internal/app/matchmaking/backfill.go:26-117 | Supersession and rollback: the store, batch and outcome of the command function, which `Outcomes.BackfillOutcome` and `Outcomes.BackfillEffect` give |
| Outcomes.BackfillOutcome | internal/app/matchmaking/backfill.go:26-130 | StartMatchBackfill succeeds exactly if the request is in order, an outstanding request of the session is QUEUED or SEARCHING, the id is usable and free, the engine enqueues the new ticket and cancels the outstanding one; every other case has its error |
| Outcomes.BackfillEffect | internal/app/matchmaking/backfill.go:58-145 | A successful request registers exactly the requested ticket, with its players, session and seats, and ends the outstanding one of the session; nothing else changes. A failing one changes nothing, but for the two traces where the engine does not cancel the outstanding one |
| Outcomes.SeatsMean | internal/domain/matchmaking/ticket.go:61-79 | A backfill ticket seats every player of the request, on the team of the player's last mention, and nobody else |
| MatchmakingService.MatchmakingService.FindSession | internal/app/matchmaking/backfill.go:151-162 | Returns the first active backfill ticket of the session in id order, or none |
| MatchmakingService.MatchmakingService.SupersedeBackfill | internal/app/matchmaking/backfill.go:132-145 | Stores the metrics first, then cancels, saves and announces the earlier ticket, or reports the engine's fault |
| MatchmakingService.MatchmakingService.AcceptMatch | internal/app/matchmaking/accept.go:12-106 | Validation, engine calls, recording and report: the store, batch and outcome of the command function, which `Outcomes.AcceptOutcome` and `Outcomes.AcceptEffect` give |
| Outcomes.AcceptOutcome | internal/app/matchmaking/accept.go:12-80 | AcceptMatch succeeds exactly if the ticket requires acceptance, the request names some of its players and no others, the engine holds the ticket pending, and none of its calls fails: one for each player of an acceptance, only the first player's for a rejection; every other case has its error |
| Outcomes.AcceptEffect | internal/app/matchmaking/accept.go:81-106 | A successful request records the decision of the named players and keeps that of every other player, changes no other ticket and no index, and reports the merged decisions of the tracked roster; a failing one changes nothing |
| MatchmakingService.MatchmakingService.DedupePlayers | internal/app/matchmaking/accept.go:38-43 | No player twice, exactly the requested ones, in the order of their first mention |
| Commands.DedupeOrder | internal/app/matchmaking/accept.go:38-43 | Of two players that are kept, the one the request mentions first comes first |
| MatchmakingService.MatchmakingService.StopMatchmaking | internal/app/matchmaking/stop.go:12-50 | After the engine accepted the cancellation, records the intent: the store, batch and outcome of the command function, which `Outcomes.StopOutcome` and `Outcomes.StopEffect` give |
| Outcomes.StopOutcome | internal/app/matchmaking/stop.go:12-50 | StopMatchmaking succeeds exactly if the ticket is registered and stays so, the request is not refused and the engine cancels the ticket; every other case has its error |
| Outcomes.StopEffect | internal/app/matchmaking/stop.go:48-49 | A successful request marks the ticket to be cancelled and changes nothing else; a failing one changes nothing |
| Interleaving.IDsUnique | internal/app/matchmaking/service.go:252-333 | In every interleaving an id belongs to at most one configuration, the maps agree on its ticket, and it is not reserved |
| Interleaving.ReservedByOne | internal/app/matchmaking/service.go:295-315 | A reserved id belongs to exactly one command in flight, or was left behind by a failed rollback, never both |
| Interleaving.ReservesFreeOnly | internal/app/matchmaking/service.go:295-308 | A command reserves an id exactly if no configuration has a ticket of that id, no command in flight has reserved it and none was left reserved; otherwise nothing changes |
| Interleaving.ReservationEnds | internal/app/matchmaking/service.go:310-315 | A cancelled reservation is free again, and one that a failed rollback leaves stays taken |
| Interleaving.CommitReplacesNothing | internal/app/matchmaking/service.go:317-333 | A commit registers the reserved ticket in both maps and in the active index of its own configuration, gives the reservation back, and never replaces a ticket |
| Interleaving.EvictRemovesOwn | internal/app/matchmaking/service.go:233-248 | What a later section of a sweep removes is still an expired ticket of its own configuration, and it leaves every map |
| Interleaving.SweepComplete | internal/app/matchmaking/service.go:215-249 | However other commands interleave with it, a sweep that ends has left no ticket of its configuration whose retention had run out |
| Interleaving.LookupSeesOwn | internal/app/matchmaking/service.go:104-112 | A command comes to see a ticket by a lookup exactly if it is registered under that id for its own configuration |
| Interleaving.SaveOnlyIndexes | internal/app/matchmaking/service.go:252-293 | A command that has looked its ticket up can save it in any later critical section: the save is never refused, changes neither map, and marks that ticket alone in the active index |
| Interleaving.ActiveIndexAgrees | internal/app/matchmaking/service.go:280-293 | In every interleaving the active index of a configuration lists exactly its tickets that were last saved with an active status |
| Interleaving.OneCommandPerConfiguration | internal/app/matchmaking/service.go:65-79 | Commands of one configuration exclude each other |
| Isolation.RunsAlone | internal/app/matchmaking/service.go:65-79 | In every interleaving a configuration is at each point where its own commands, one after the other without interruption, would have brought it: the same maps, index and ticket objects, the same lookups and reservations; only refused reservations are left out |
| ProtocolStreams.CommandSpares | internal/app/matchmaking/tick.go:111-151 | A contracted command or tick emits no event that names a ticket of another configuration |
| ProtocolStreams.RegisteredHere | internal/app/matchmaking/start.go:12-73 | A new ticket belongs to the configuration whose lane the command that registers it uses |
| Published.HandedOver | internal/app/matchmaking/event_delivery.go:59-73 | Whatever other configurations do, the batches a lane was handed contain, from the ticket's registration on, exactly the events of its life in order |
| Published.PublishedGrammar | internal/app/matchmaking/event_delivery.go:75-96 | In every joint run of the service and its delivery, the publications attempted about a ticket are the beginning of its life and keep the event grammar: an ending is the last and marks a terminal status; once the lane has finished what it was handed they are the whole life and agree with the ticket's status |
| DeliveryRuns.SlotConservation | internal/app/matchmaking/event_delivery.go:41-56 | The occupied slots of a lane are exactly those held by producers, by queued batches and by the batch in delivery, and at most 64; while a command runs, or waits for its lock, there are more than the batches need |
| DeliveryRuns.WaitingEnds | internal/app/matchmaking/event_delivery.go:21-56 | A producer gets a slot exactly while fewer than 64 are held, queued or in delivery, is turned away exactly once delivery is closed, returns when its batch is done, and may give up wherever it waits |
| DeliveryRuns.OneWorkerAndNoLostWakeup | internal/app/matchmaking/event_delivery.go:59-96 | At most one worker of a lane is in its loop, and a queued batch has a worker or a producer about to start one |
| DeliveryRuns.InOrderDelivery | internal/app/matchmaking/event_delivery.go:75-96 | Finished batches, the one in delivery and the queued ones are all batches in enqueue order, and the attempted events are theirs, in order, each once |
| DeliveryRuns.DoneOnce | internal/app/matchmaking/event_delivery.go:88-94 | A batch is announced as done once, after all its events were attempted |
| DeliveryRuns.ReturnsDelivered | internal/app/matchmaking/service.go:400-417 | A command that returns because its batch is done finds the batch among the finished ones, with an attempt made for each of its events |
| DeliveryRuns.ShutdownDrains | internal/app/matchmaking/event_delivery.go:98-128 | When CloseDelivery returns nil after closing, every batch of every lane was attempted in full and no worker is left |
| DeliveryRuns.CloserMoves | internal/app/matchmaking/event_delivery.go:109-128 | CloseDelivery goes past its first wait only with no producer registered, ends its second, also after its context expired there, only with no worker left, and gives up early only where its context has expired |
| DeliveryRuns.NoReservationAfterClose | internal/app/matchmaking/event_delivery.go:48-56 | Once closed, delivery stays closed and no reservation succeeds |
| DeliveryRuns.NoAddAfterWait | internal/app/matchmaking/event_delivery.go:98-128 | Nothing is added to a wait group once a wait for it has begun |
| DeliveryRuns.CloseTakesEffect | internal/app/matchmaking/event_delivery.go:98-108 | CloseDelivery closes delivery exactly if a reservation was attempted before |
| DeliveryRuns.ReservationAfterEarlyClose | internal/app/matchmaking/event_delivery.go:98-108 | A run in which a reservation succeeds after CloseDelivery has returned nil |
| DeliveryLiveness.NoDeadlock | internal/app/matchmaking/event_delivery.go:41-47 | While a producer waits for a slot, it, another producer of its lane, or a worker of its lane can take a step |
| DeliveryLiveness.Quiescence | internal/app/matchmaking/service.go:400-417 | Where no step is possible every process is gone, every lane is empty, idle and without occupied slots, and has delivered all it was sent |
| DeliveryLiveness.MeasureFalls | internal/app/matchmaking/event_delivery.go:75-96 | Every step of a producer or worker decreases a measure, so without arrivals the steps come to an end |
| DeliveryLanes.DeliveryLane.Deliver | internal/app/matchmaking/event_delivery.go:75-96 | The worker's loop attempts the queued batches in order and in full, hands back one slot each, and leaves the lane idle |
| DeliveryLanes.DeliveryLane.Pop | internal/app/matchmaking/event_delivery.go:78-87 | Takes the first queued batch, or marks the lane idle if there is none |
| WireFormats.FormatsAgree | internal/interfaces/awsapi/cbor_codec.go:38-144 | Decoding the CBOR value gives the tree encoding/json renders exactly if all its integers survive, its float32 values are printed exactly, and no nil map is written |
| WireFormats.SameOmission | internal/interfaces/awsapi/cbor_codec.go:146-196 | For plain tags the bridge and encoding/json skip and omit the same fields |
| WireFormats.SurvivesWhen | internal/interfaces/awsapi/cbor_codec.go:44-47 | An integer of either sign and of the whole 64-bit range is read back as encoding/json writes it exactly if it is a multiple of the distance of the float64 values around it; but between -2^54 and -2^53 it has to be a multiple of 4 |
| Doubles.NegativeGivenBack | internal/interfaces/awsapi/cbor_codec.go:46-47 | What `-float64(t) - 1` gives back, for the rounding of both operations: `-n` exactly if float64 can hold `n` and, between 2^53 and 2^54, `n` is a multiple of 4 |
| WireFormats.ResponsesAgree | internal/interfaces/awsapi/cbor_codec.go:13-21 | A response with integers of at most 53 bits, no float32 and no nil map that is written is the same tree in both formats, whichever of its float64 fields are timestamps |
| WireFormats.TimestampUntagged | internal/interfaces/awsapi/cbor_codec.go:111-116 | A float64 is tagged as an epoch time in CBOR exactly under the names StartTime, EndTime and CreationTime, and read back as the plain number of the JSON format; under another tag it is lost |
| WireFormats.TagsTimestampsOnly | internal/interfaces/awsapi/cbor_codec.go:13-21 | A value is tagged exactly if it is a float64, behind whatever pointers, under the name StartTime, EndTime or CreationTime |
| WireFormats.TagsInside | internal/interfaces/awsapi/cbor_codec.go:118-175 | Nothing in a list or a map is tagged, and of the fields of a struct exactly the float64 ones with one of the three names |
| WireFormats.OmittedAndOverwritten | internal/interfaces/awsapi/cbor_codec.go:147-175 | For any tag, omitempty anywhere in its options drops an empty value, and of several fields written under one name the last stays |
| WireFormats.ExactIntegerLost | internal/interfaces/awsapi/cbor_codec.go:46-47 | An integer that float64 holds and the decoder changes |
| WireFormats.NilMapDiffers | internal/interfaces/awsapi/cbor_codec.go:129-138 | A nil map is an empty object in CBOR and null in JSON |
| WireFormats.GoToCBOR | internal/interfaces/awsapi/cbor_codec.go:87-144 | The loops over slices and maps compute the encoding |
| WireFormats.StructToCBOR | internal/interfaces/awsapi/cbor_codec.go:146-175 | The loop over the fields computes the encoding, a later field overwriting an earlier one of the same name |
| WireFormats.CborToGoValue | internal/interfaces/awsapi/cbor_codec.go:38-73 | The loops compute the decoding |

## Left out

- The matching algorithm and rule evaluation of flexi are not part of this model; the engine is its answers, arbitrary or under the contract.
- HTTP handlers, dispatching, the web UI, publishers, logging, configuration files and wiring.
- `MarkFailed` and `RecordPlayerAcceptance`, which no service flow calls.
- Event time stamps, event and ticket ARNs, the configuration name and acceptance policy inside events, and the player snapshots taken with an event.
- `playerTeams`, which inverts the engine's team lists; a match carries the inverted map.
- The decision by which a command is refused before it touches a ticket (unknown configuration or engine, missing attribute, expired context, closed lane) is one input, and so is whether a ticket was replaced while AcceptMatch or StopMatchmaking waited for the command lock.
- Runs take each command as one step. That interleaved commands look to each configuration like whole ones is proved on the critical sections of the store (`Isolation.RunsAlone`), where a ticket is its identity, its index entry and its expiry; its other contents are changed only by commands of its own configuration, which exclude each other.
- Interleaving.SaveOnlyIndexes: the commands look up tickets of their own configuration only; an engine that reports a match with a ticket of another one is outside the interleavings.
- `strings.TrimSpace` on generated ids considers the ASCII white space characters only.
- Within one tick the engine answers status queries from one state before the matches are marked completed and from one state after.
- MatchmakingService.MatchmakingService.EvictExpiredTickets: runs the listing and the removals without interruption; `Interleaving` covers the interruptions, and engine evictions have no effect on the service.
- MatchmakingService.MatchmakingService.SyncActiveTickets: the inner maps of `ticketsByConfig` are represented by their keys, since they hold the same objects as `tickets`.
- Guarantees.EventGrammar: speaks of the ticket now registered under an id and of the events since its registration; events before an eviction are covered by the states before it.
- WireFormats.FormatsAgree: requires struct tags that give a name or none with no option but omitempty, distinct names, and string map keys, as the response types have; arrays, byte slices, embedded structs, custom marshalers and values that are not finite are not modelled. Numbers are compared by the value they denote: an integer as itself, a float64 as its exact value; that encoding/json prints a float64 as the shortest decimal that reads back as it is not modelled.
- The bytes of either wire format, and the library's convention for the bytes of negative integers.
- Wall-clock limits of publishing: an attempt counts as one step whatever the publisher answers.
