# Muffin: verified models of the occurrence protocol and the terminal front end

This project models the parts of Muffin whose correctness is a statement about many steps
at once, and proves those statements for every input and every run.

- **The job-occurrence protocol.** A due occurrence `(job, scheduledFor)` is claimed, bound
  to one minted turn id, turned into a durable row, run, delivered and settled, and the
  schedule moves on; a crash may fall between any two writes, any call may throw, any number
  of processes may race, the lane continues the same row under leases, and the owner may add
  one with `muffin resume`. `Stores` has the two tables, `Protocol` the transition system
  (one action per durable write or outside effect), `Occurrence` its invariant. Over whole
  runs: `Guarantees` (identity, stages, scripts), `Schedule` (slots served and slots passed),
  `Serial` and `Messages` (what is sent, and how often), `Leases`, `Progress` (what can still
  end, and what starves the rest), `Unsent` (finished answers nobody will send), `Races`
  (runs that show each failure, from an empty database; `Runs` joins runs).
- **Its running code.** `Process`, `JobRunner` and `Recovery` are one scheduler tick over
  real store objects: a worker keeps a ghost log which its invariant proves to be a run of
  the transition system. `LaneRunner` is one lane beat; it serves owner turns and turns
  without an address as well, which the transition system does not have, and `LaneRuns`
  proves that on a job's row each part of the beat is a run of the transition system too. `Spending` is
  the per-job ceiling, `Automation` the dispatcher.
- **The fixed bottom of the screen.** `Terminal` is the terminal with its scrollback, scroll
  region and saved cursor; `Fondo` writes control sequences to it one by one; `Transcript`
  proves what a whole session does to the text above the box.
- **The prompt.** `Editor` is the two-dimensional buffer, `FlatText` the flat text with an
  offset that it refines, `Keys` what each key does to that text, `EditorRuns` the properties
  of key sequences. `Riquadro` wraps and
  frames the text and places the cursor; `LayoutProofs` proves the cell is the right one.
- **Bounded and staged structures.** `Bindings` (who asked for a wake), `Exposure` (the
  tools a model sees), `Reconcile` (installing shipped defaults).

## What turned out not to hold

Each of these is the behaviour of the code, kept as it is, with its exact condition and a
run that shows it. The runs about messages and slots start from an empty database.

- The schedule passes slots that nobody served: `markRan` counts the next fire from now.
  Every slot it has passed is settled, at every moment of a run, if and only if no runner
  calls it after a later slot has come or while the due one is unsettled
  (`Schedule.NoSlotSkippedIffPrompt`; `Schedule.MarkRanSkips` for one call). A slot passed
  before a tick started on it never gets a fire, a row or a notice
  (`Schedule.PassedForEver`, `Races.SlotMissedFromStart`). What does hold is
  `Guarantees.SettledBeforeMarked`, about the occurrence that was served.
- A job can be announced as failed and then answered: two ticks race to create the bound row,
  and the loser's insert fails (`Races.FalseNoticeFromStart`). Nobody holds or sends such a
  notice if and only if nothing threw and no insert met a row already there
  (`Messages.NoticesExactlyFromFailures`); with each occurrence worked on by one process at a
  time only a throw can cause one (`Messages.SerialNeverAnnounces`).
- An answer can be marked as sent although nobody sent it: a resume refused as "claimed"
  delivers its refusal and marks the running row, and the holder then crashes
  (`Races.HiddenAnswerFromStart`). The missing guard: a message about a turn goes out only if
  it is the finished turn's own answer, or that answer was attempted before. With it no
  answer is ever hidden (`Messages.GuardedNeverHides`), and it is exact: a message can be
  followed by guarded steps to a hidden answer if and only if it does not meet it
  (`Messages.MessageHidesIffUnguarded`).
- An answer can be sent twice with nothing crashed and no record lost, by the lane that
  finished it and by the tick that found it (`Races.DoubleSendFromStart`). As long as every
  message about a turn is that turn's own answer, attempts stay within one of the lost
  records if and only if each goes out while none was recorded and none is being recorded
  (`Messages.SentOnceIffUnclaimed`). Serialising the work on each occurrence is enough
  (`Serial.AnswerSentAtMostOnce`).
- An answer can stay unsent for ever: the occurrence of a suspended turn is settled and moved
  past at once, and if the lane then dies between finishing the turn and saying so, no run at
  all sends it (`Races.AnswerLostFromStart`, `Unsent.LostForEver`). At rest, an answer still
  owed can be sent without a throw or the owner if and only if its occurrence is still due
  and no older due one is stuck (`Unsent.SentIffStillDue`).
- The autonomous lease ceiling is read before it is written: `n` lanes can cross it by
  `n - 1` (`Races.CeilingCrossedFromStart`), and never by more (`Leases.LeasesTerminate`).
- An occurrence whose turn was aborted undelivered, or was released at the lease ceiling, is
  stuck: every later tick yields it or defers. At rest a due occurrence can still end without
  a crash, a throw or the owner if and only if neither it nor any due one older than it is
  stuck (`Progress.EndsIffNotStuck`), since a tick tries the oldest due job alone; while one
  older than all the others is stuck, no tick ever starts on another
  (`Progress.StuckStarvesAll`).
- The third rule of the fixed bottom fails when the box shrinks and grows back while the
  cursor is in the region: the cursor then stands on an older line.
  `Transcript.GrowFollowsText` gives the exact condition. Moving into the box while an
  unfinished line is on the region's last row, after any resize, lets the next message type
  over it; the line survives if and only if the message begins by repeating it, or repeats
  its beginning (`Transcript.UnfinishedLineIsOverwritten`, for every such draw and message).
  Every other draw only adds blank rows (`Transcript.GuardIsExact`).
- `disponi` throws on a terminal one column wide and on no other
  (`LayoutProofs.ThrowsOnOneColumn`); its frame is a rectangle exactly when the marker and
  the label leave room (`LayoutProofs.EqualWidths`).
- Core and searchable tools partition the catalogue unless another tool shares a core name
  (`Exposure.CorePartitions`).
- A later run repairs a failed copy if and only if the failure left nothing at its path and
  the new copy lands: a partial file is no longer absent, and so is never touched again
  (`Reconcile.House.ReconcileTwice`).

## Model

| member | source | states |
|---|---|---|
| Stores.JobFireStore.Claim | core/scheduler/job-fires.ts:139-144 | claiming is idempotent: a second claim changes nothing and reads back what the first one wrote |
| Stores.JobFireStore.Bind | core/scheduler/job-fires.ts:153-160 | the first bind lands, every caller gets back the id that landed |
| Stores.JobFireStore.Settle | core/scheduler/job-fires.ts:174-176 | the first settlement and its silent receipt are never rewritten |
| Stores.TurnStore.Create | core/turns/store.ts:1304-1306 | an id already taken is an error and changes no row; else the row is running, held, and pending when it has an address |
| Stores.TurnStore.Claim | core/turns/store.ts:1399-1434 | exactly a runnable, waiting or interrupted row is taken, under a fresh token |
| Stores.TurnStore.Finish | core/turns/store.ts:2014-2072 | lands exactly for the current holder, and closes only that row |
| Stores.TurnStore.Suspend | core/turns/store.ts:1437-1466 | lands exactly for the holder of a running row |
| Stores.TurnStore.Release | core/turns/store.ts:1500-1550 | lands exactly for the holder of a running row, leaving the work continuable with no outcome |
| Stores.TurnStore.Grant | core/turns/store.ts:1572-1640 | one caller gets the next lease of a continuable row, delivery is reset; an automatic grant needs and spends an owner renewal |
| Stores.TurnStore.Delivered | core/turns/store.ts:2075-2077 | overwrites the delivery state of that row, whoever calls |
| Stores.TurnStore.Reassign | core/turns/store.ts:1107-1111 | moves a queued row to the model selected now, and no other |
| Stores.TurnStore.Reclaim | core/turns/store.ts:1012-1016 | a running row whose holder is gone becomes interrupted and loses its token |
| Stores.TurnStore.Wake | core/turns/store.ts:1140-1142 | a waiting row becomes runnable, and no other |
| Occurrence.StepKeeps | agent/scheduler-run.ts:386-446 | every action of every process, crashes included, keeps the protocol invariant and only adds durable facts |
| Guarantees.RunKeeps | agent/scheduler-run.ts:40-71 | between any two points of any run durable facts only accumulate |
| Guarantees.OneIdentity | agent/scheduler-run.ts:429-445 | in every run at most one row is ever written for an occurrence, its id is the one bind committed, and an id that lost the bind is never a row |
| Guarantees.StagesNeverGoBack | agent/scheduler-run.ts:332-361 | absent, claimed, bound, row, done, resolved: no step or crash takes an occurrence back a stage or changes its id |
| Guarantees.SettledBeforeMarked | core/scheduler/scheduler.ts:604-642 | in every run, the occurrence a runner moved the schedule for was settled by then, under its one id with a row, or its failure was announced |
| Schedule.ScheduleOnlyForward | core/scheduler/jobs.ts:254-263 | in every run the next fire of a recurring job is a slot of its cron, no later than the first one to come, and never goes back |
| Schedule.MarkRanPasses | core/scheduler/jobs.ts:565-576 | from the due slot on, moving the schedule passes exactly the slots up to now, and none of them but the due one was ever started on |
| Schedule.MarkRanSkips | core/scheduler/jobs.ts:565-576 | it passes an unsettled slot if and only if a later slot has already come or the due one is unsettled |
| Schedule.PassedForEver | core/scheduler/jobs.ts:414-416 | a slot passed before any tick started on it has no fire, no row and no notice in any continuation |
| Schedule.NoSlotSkippedIffPrompt | core/scheduler/jobs.ts:565-576 | over every run from a fresh database, every slot passed so far is settled at every moment if and only if no runner moves the schedule when it would skip |
| Guarantees.ScriptRunsAtMostOnce | agent/scheduler-run.ts:592-681 | in every run a script's command runs at most once per occurrence, and its row, like a capped one, is never shown to the model |
| Serial.AnswerSentAtMostOnce | agent/turn-lane.ts:259-282 | with the work on each occurrence done by one process at a time and crashes anywhere, deliveries of a finished row exceed lost records by at most one, a resolved row was sent, and leases stay within the ceiling and those granted by hand |
| Messages.NoticesExactlyFromFailures | core/scheduler/scheduler.ts:372-383 | in every run, nobody ever holds or sends a failure notice if and only if nothing threw and no insert met an existing row |
| Messages.FailureIsAnnounced | core/scheduler/scheduler.ts:372-383 | a throw, or an insert on a taken id, leaves words that name no turn, and sending them adds one notice for the occurrence in hand |
| Messages.SerialNeverAnnounces | agent/scheduler-run.ts:428-446 | with the work on each occurrence done by one process at a time and nothing thrown, no occurrence is announced as failed |
| Messages.GuardedNeverHides | agent/turn-lane.ts:191-203 | in every run whose messages about a turn are the finished turn's own answer, or come after it was attempted, no finished answer is marked as delivered without an attempt |
| Messages.MessageHidesIffUnguarded | agent/turn-lane.ts:191-203 | from a world that hides nothing, a message can be followed by guarded steps to a hidden answer if and only if it does not meet that guard |
| Messages.SentOnceIffUnclaimed | agent/turn-lane.ts:259-282 | over every run whose messages about a turn are its own answer, attempts exceed lost records by at most one at every moment if and only if each attempt is made while none was recorded and none is being recorded |
| Leases.LeasesTerminate | agent/turn-lane.ts:370-377 | whatever races and crashes, a turn's autonomous leases stop at the ceiling plus one per extra lane; each `muffin resume` adds one |
| Progress.TickSettlesUnlessAborted | core/scheduler/scheduler.ts:416-420 | a tick on a finished undelivered turn goes on to settle exactly when the turn was not aborted |
| Progress.EndsIffNotStuck | core/scheduler/scheduler.ts:346-347 | from every reachable world at rest, any due occurrence can be brought to its end without a crash, a throw or the owner if and only if neither it nor any due one older than it was aborted undelivered or released at the ceiling |
| Progress.OlderEnd | core/scheduler/jobs.ts:414-416 | the older due occurrences can be ended one after another, leaving this one, its row and its fire as they were and next in turn |
| Progress.StuckForEver | agent/scheduler-run.ts:332-361 | a stuck occurrence keeps its row as it is and stays unserved in every run without a throw or the owner, crashes and races included |
| Progress.StuckStarvesAll | core/scheduler/scheduler.ts:346-347 | while a stuck occurrence is older than every other, no tick starts on another and no fire time moves |
| Unsent.LostForEver | core/scheduler/scheduler.ts:498-507 | a finished unsent answer nobody has in hand, its occurrence moved past, is never sent in any run: crashes, throws, races and resumes by the owner included |
| Unsent.SentIffStillDue | agent/scheduler-run.ts:332-361 | from every reachable world at rest, an owed answer can still be sent without a throw or the owner if and only if its occurrence is still due and no older due one is stuck |
| Races.RaceAnnouncesAFailure | core/scheduler/scheduler.ts:372-383 | a crash-free run of two ticks that announces a failure for an occurrence that is then answered |
| Races.FalseNoticeFromStart | core/scheduler/scheduler.ts:372-383 | the same from an empty database |
| Races.RefusalHidesTheAnswer | agent/turn-lane.ts:191-203 | a run in which a refused resume marks the row sent and the answer is never delivered |
| Races.HiddenAnswerFromStart | agent/turn-lane.ts:191-203 | the same from an empty database, the occurrence settled |
| Races.LaneAndTickBothSend | agent/turn-lane.ts:215-226 | a run without crash, throw or lost record in which the lane and the next tick both send the same answer |
| Races.DoubleSendFromStart | core/scheduler/scheduler.ts:604-617 | the same from an empty database: the answer sent twice |
| Races.SlotMissedFromStart | core/scheduler/jobs.ts:565-576 | from an empty database, a tick one slot late passes the later slot, which no tick ever started on |
| Races.AnswerLostFromStart | agent/turn-lane.ts:204-226 | from an empty database, an answer that is finished, pending, and not sent in any continuation |
| Races.LanesCrossTheCeiling | agent/turn-lane.ts:370-377 | any number of lanes past the gate at the last lease all get one, so the bound on leases is met |
| Races.CeilingCrossedFromStart | agent/turn-lane.ts:370-377 | the same from an empty database, for any number of lanes |
| Process.ValidIsRun | agent/scheduler-run.ts:40-71 | a worker's invariant makes its log a legal run that leads to its world and its tables |
| Process.Worker.ClaimFire | agent/scheduler-run.ts:433-434 | the claim the running code makes is the protocol's claim |
| Process.Worker.BindFire | agent/scheduler-run.ts:436-443 | the bind the running code makes, or a rival makes in between, is the protocol's bind |
| Process.Worker.CreateTurn | agent/scheduler-run.ts:610-630 | the row the running code writes is the protocol's create, its token the one held, or nothing where the id is taken |
| Process.Worker.FinishTurn | agent/scheduler-run.ts:630-648 | the close the running code writes is the protocol's finish |
| Process.Worker.RecordDelivery | core/scheduler/scheduler.ts:604-617 | a record that throws is swallowed and is the protocol's lost record |
| Recovery.ProviderFailure | agent/loop/provider-error-reply.ts:28-38 | only a marked terminal reply is recovered, and never an empty one |
| Recovery.OnlyMarkedReplies | agent/loop/provider-error-reply.ts:28-38 | recovered are exactly an assistant's last messages that open with the marker and say something after it, without the marker and the white space around |
| Recovery.RecoveredText | agent/recovered-text.ts:22-45 | never empty; the latest non-empty answer of this turn when it answered and has one, the marked provider failure when it failed with one, else the fixed apology |
| Recovery.OthersDoNotMatter | agent/recovered-text.ts:8-16 | messages of other turns in the same session never change what is recovered |
| Recovery.AnswersAreItsOwn | agent/recovered-text.ts:22-45 | only an assistant's own non-blank message of that turn is its answer |
| JobRunner.ScriptEnd | agent/scheduler-run.ts:646-702 | a script that ran in time and exited with zero ends answered with its output, white space at the ends dropped; every other ends in error with words |
| JobRunner.SkipForBudget | agent/scheduler-run.ts:470-546 | over the ceiling the row is created and closed as `budget`, nothing is executed, no model is called, and the words are not empty; on a taken id nothing is written and the call throws |
| JobRunner.RunScript | agent/scheduler-run.ts:564-702 | the row is written first and closed answered exactly on success, in error with words otherwise, and the command ran once, or not at all without sandbox or scope; on a taken id nothing runs and the call throws |
| JobRunner.RunGoal | agent/scheduler-run.ts:232-311 | one model call on a row created first, left done, waiting, continuable or running as the loop let go of it; a release defers; on a taken id the model is not called and the call throws |
| JobRunner.RunFresh | agent/scheduler-run.ts:158-230 | the gate first, then the executor of the job's kind: the row, the counters and the result of each |
| JobRunner.ResolveBound | agent/scheduler-run.ts:323-361 | missing row: finish creating it under the same id; not done: defer and change nothing; done and resolved: settle only; done and pending: the recovered words, running nothing |
| JobRunner.Identify | agent/scheduler-run.ts:429-445 | the id served is the bound one, else the one the first bind committed, even when a rival binds in between |
| JobRunner.RunJob | agent/scheduler-run.ts:428-446 | one tick's work under one identity, touching nothing of the schedule and sending nothing |
| JobRunner.DeliverAndRecord | core/scheduler/scheduler.ts:604-617 | one message; its record, where it lands, says sent if the channel took it and failed if not, on that row alone |
| JobRunner.ConcludeOutcome | core/scheduler/scheduler.ts:416-642 | yields, settles silently, or sends once, records, settles and advances, by outcome, policy and stand-down; a settlement or schedule write that throws leaves what was written before it |
| JobRunner.Conclude | core/scheduler/scheduler.ts:385-414 | deferred work is left alone, a resolved delivery is settled without a second message; the tick reports having run exactly when its last writes landed |
| JobRunner.Tick | core/scheduler/scheduler.ts:372-642 | a whole tick, a rival bind or insert and every throwing write included, is a run of the protocol; one identity with a row behind it, no other row moves, the schedule moves for this job alone and only with its fire settled; a failed, a found and a fresh occurrence each as below |
| JobRunner.FailedTick | core/scheduler/scheduler.ts:372-383 | a throw of the claim or the bind, or an insert lost to a rival, runs nothing, sends no answer, and is announced once, with words, unless the tick stood down |
| JobRunner.FreshTick | agent/scheduler-run.ts:158-230 | a first run, told by the gate, the executor and the loop alone: what is executed or called, the row's kind, status and outcome, whether and with what words it speaks, the mark those words leave (sent, failed, or none written), the silent receipt, and what is announced |
| JobRunner.KnownTick | agent/scheduler-run.ts:332-361 | a tick that finds the row executes nothing; it speaks exactly for a finished unresolved turn that is neither aborted nor kept silent, with the recovered words and the mark they leave; it defers exactly on an unfinished row, yields exactly on an aborted one or a stand-down, and never repeats a resolved delivery |
| JobRunner.TickMeans | core/scheduler/scheduler.ts:372-642 | what a tick means is decided by its work and its conclusion alone, whichever of the three cases it is |
| JobRunner.TickAdvances | agent/scheduler-run.ts:332-361 | a crash-free tick reaches a row, leaves an unfinished row to the lane untouched, and settles a finished one unless it stood down or the turn aborted |
| JobRunner.WorkerKeeps | agent/scheduler-run.ts:40-71 | the invariant and the stages hold wherever a worker's own steps lead |
| LaneRunner.IsSilentResume | agent/turn-lane.ts:108-129 | only an answered job turn whose policy is read to be silent is silenced; an explicit `deliver`, or a reader that throws, never is |
| LaneRunner.Lane.SendAndRecord | agent/turn-lane.ts:275-293 | one attempt and one recorded state: sent exactly if it arrived, possibly sent exactly if that is not known, failed exactly if the send threw |
| LaneRunner.Lane.ResumeTurn | agent/loop/entry.ts:292-618 | an unclaimable row is refused untouched; a queued row that never started moves to the model selected now; script and capped rows are closed without the model; a changed model or spent resumes close the row; else it is left as the loop let go of it |
| LaneRunner.Lane.ContinueTurn | agent/loop/entry.ts:677-830 | one more lease, granted only on a continuable row whose model is the selected one, whose context was built and whose route is not dead, then one drive; every refusal leaves the row alone |
| LaneRunner.Lane.Account | agent/turn-lane.ts:210-256 | nothing to say, kept silent with delivery untouched, one message and its mark, or one report and its mark |
| LaneRunner.Lane.Resume | agent/turn-lane.ts:192-258 | a refused resume still sends its reason where there is an address; a suspended turn says nothing; an ending is accounted for once |
| LaneRunner.Lane.Lease | agent/turn-lane.ts:405-457 | past the gates, one more lease if the row is still continuable; while the lane still owns the work nothing is said; an ending is accounted for once, on the row one lease further |
| LaneRunner.Lane.RunAutonomous | agent/turn-lane.ts:362-457 | a lease opens exactly when every gate can be read and is open, and continuing is not refused |
| LaneRunner.Lane.Run | agent/turn-lane.ts:161-258 | result, row, messages, reports and drives of a beat are exactly those of its value-level specification, for every row and environment |
| LaneRunner.AccountedOnce | agent/turn-lane.ts:210-256 | an ending is said at most once, in one message or one report, and the row carries the mark of how that went, or the delivery it had |
| LaneRunner.ClosedUndriven | agent/loop/entry.ts:416-618 | the exact reasons for which a claimed row is closed, put back to wait or refused without the loop, with the outcome each leaves |
| LaneRunner.RefusalIsSaid | agent/turn-lane.ts:192-203 | a refused resume is said exactly where there is an address, never empty, and marked by how that went; a row it could not claim is left as it was |
| LaneRunner.LeaseOpensIff | agent/turn-lane.ts:362-405 | an autonomous lease opens if and only if the lease count, the budgets, the model, the context and the route all allow it |
| LaneRunner.LeaseCosts | core/turns/store.ts:1572-1640 | a lease adds one to the count, resets the delivery and spends one of an owner's renewals |
| LaneRunner.PickedIsGated | core/turns/store.ts:816-853 | of continuable rows the pickup query takes exactly those the lane's own count and principal let through |
| LaneRunner.SilentWhileOwned | agent/turn-lane.ts:204-207 | a turn the lane will take up again says nothing and keeps its delivery open |
| LaneRunner.ClosedGateOpensNothing | agent/turn-lane.ts:370-402 | a gate that is closed or cannot be read opens nothing, says nothing and changes no row |
| LaneRuns.AnswerIsSpoken | agent/turn-lane.ts:210-242 | the lane's own silence and accounting are the protocol's: an addressed answer is sent exactly when the protocol's lane speaks |
| LaneRuns.BeatIsRun | agent/turn-lane.ts:161-258 | on any row a lane has picked in a reachable world, whatever happened to it before the lane reads it, there is a run of the protocol with the tables, model calls and sends of the beat |
| LaneRuns.ResumeIsRun | agent/loop/entry.ts:292-618 | the same from the claim on, whatever happened to the row since the read |
| LaneRuns.LeaseIsRun | agent/loop/entry.ts:677-830 | the same from the grant on, whatever happened to the row since the gates were read |
| LaneRuns.Beat | agent/turn-lane.ts:161-258 | the running lane leaves its store exactly where that run leads |
| LaneRuns.ResumeRead | agent/turn-lane.ts:192-258 | so does the running lane from a resume on |
| LaneRuns.LeaseRead | agent/turn-lane.ts:405-457 | so does the running lane from the grant on |
| Spending.MonthBound | agent/turn-lane.ts:385-402 | leases opened one at a time leave the month below the ceiling plus one lease |
| Spending.NothingOpens | agent/scheduler-run.ts:183-189 | at the ceiling, or while the counter cannot be read, no lease opens |
| Spending.OneLeaseMayCross | agent/scheduler-run.ts:183-189 | from anywhere below the ceiling one lease adds its whole cost, so the month ends as near the ceiling plus that cost as one likes |
| Automation.DispatchRuntimeEvent | agent/automation.ts:114-121 | the action of the first matching rule, else the fallback |
| Automation.DispatchIsFirst | agent/automation.ts:109-121 | rules before the first match and everything after it are irrelevant |
| Automation.SilentRuleChangesNothing | agent/automation.ts:69-94 | a disabled or non-matching stored rule changes no dispatch wherever it stands |
| Automation.AgentOnlyOnSignal | agent/automation.ts:96-107 | an action that waits for a signal asks the agent with its evidence on one, and settles quietly without |
| Automation.StoredMatches | agent/automation.ts:62-94 | a stored rule matches exactly the events of its kind that carry its value under its key, while it is enabled |
| Automation.OwnFireMatches | agent/scheduler-run.ts:211-230 | the scheduler's rule matches its own fire, so the throwing fallback is never run |
| Terminal.Tty.Write | cli/schermo.ts:97-178 | text written character by character is the terminal's fold over it |
| Terminal.Tty.Scroll | cli/schermo.ts:74-84 | line feeds first walk down to the bottom margin, then scroll what leaves the top into the scrollback |
| Terminal.TypedLine | cli/schermo.ts:49-54 | a line typed on an erased row is that row |
| Terminal.FedScrolls | cli/schermo.ts:74-84 | `n` line feeds in closed form, from any row of the region |
| Fondo.Drawn | cli/fondo.ts:156-196 | after a draw the last rows are the drawn lines, the driver's fields agree with the margins, and the cursor is on the place in the box the draw asked for, or back in the region |
| Fondo.FondoDriver.Aggancia | cli/fondo.ts:128-146 | hooks exactly when the box does not fit under the reported row, scrolling by just enough |
| Fondo.FondoDriver.Grow | cli/fondo.ts:158-173 | the escape sequences of a growing box do what the value-level resize says, from the box and from the region |
| Fondo.FondoDriver.Shrink | cli/fondo.ts:174-181 | freed rows are erased, margins widened, the cursor restored as written |
| Fondo.FondoDriver.Paint | cli/fondo.ts:184-195 | only the box rows change, and the region's cursor comes back |
| Fondo.FondoDriver.Disegna | cli/fondo.ts:156-196 | the whole draw, in any state |
| Fondo.FondoDriver.Chiudi | cli/fondo.ts:148-154 | margins removed, cursor on a fresh row |
| Fondo.FondoDriver.NellaRegione | cli/fondo.ts:198-201 | cursor to the region's last row, first column |
| Fondo.FondoDriver.NelRiquadro | cli/fondo.ts:203-206 | cursor back to where the last draw left it in the box |
| Transcript.TypedGrows | cli/fondo.ts:49-54 | text printed from the region lands exactly at the end of the transcript and touches no row of the box |
| Transcript.GrowKeeps | cli/fondo.ts:167-173 | from the box, or in the region wherever the cursor goes with its text, growth keeps the transcript |
| Transcript.ShrinkKeeps | cli/fondo.ts:174-181 | a shrink from the box adds blank rows; from the region the cursor stays with its text, no longer on the last row |
| Transcript.DrawStep | cli/fondo.ts:55-63 | a redraw at the same height returns the region's cursor to the same cell, at another height to the same column of the same text |
| Transcript.StepKeeps | cli/fondo.ts:47-63 | every step adds exactly what it says at the end of the transcript and leaves the box as last drawn |
| Transcript.Perform | cli/textzone.ts:282-300 | the driver's own control sequences perform that step |
| Transcript.NothingIsLost | cli/fondo.ts:47-63 | over every session whose draws meet the guard no line is lost, reordered or overwritten, the box is the last one drawn, and the cursor in it is where that draw put it |
| Transcript.GuardIsExact | cli/fondo.ts:156-196 | a draw only adds blank rows and leaves a place to go on if and only if it meets the guard |
| Transcript.HookKeeps | cli/fondo.ts:128-146 | hooking loses nothing and leaves the cursor on the region's last row |
| Transcript.CloseKeeps | cli/fondo.ts:148-154 | closing keeps the transcript and the box above a fresh row |
| Transcript.GrowFollowsText | cli/fondo.ts:167-173 | growth in the region follows the text if and only if the cursor was on its last row, on the first row, or one row is left |
| Transcript.ShrinkThenGrowLosesItsLine | cli/fondo.ts:156-183 | a concrete screen on which a shrink and a growth in the region put the cursor on an older line |
| Transcript.UnfinishedLineIsOverwritten | cli/fondo.ts:198-201 | after any draw into the box that the guard forbids, a message said above the box keeps the transcript if and only if its first line begins with the unfinished one, or is a beginning of it |
| Editor.ScanWord | cli/editor.ts:184-194 | the scan stops before one whole word and all the blanks after it, and no more |
| Editor.InsertChunk | cli/editor.ts:244-252 | the paste loop inserts the pieces with a break between them |
| FlatText.JoinFlat | cli/editor.ts:71-73 | the text is what is before and after the cursor |
| FlatText.PressRefines | cli/editor.ts:107-256 | every key does to the flat text and offset what it says, and keeps the cursor in bounds and line feeds out of rows |
| Keys.KillsToStart | cli/editor.ts:178-182 | Ctrl+U drops the row up to the cursor |
| Keys.KillsToEnd | cli/editor.ts:183-187 | Ctrl+K drops the row from the cursor on |
| Keys.KillsWord | cli/editor.ts:188-198 | Ctrl+W drops one whole word and the blanks after it, within the row |
| Keys.GoesToStart | cli/editor.ts:176-210 | Ctrl+A and Home move to the start of the row |
| Keys.GoesToEnd | cli/editor.ts:177-211 | Ctrl+E and End move to its end |
| Keys.StepsLeft | cli/editor.ts:200-204 | left moves one character or break back |
| Keys.StepsRight | cli/editor.ts:205-209 | right moves one character or break on |
| Keys.GoesUp | cli/editor.ts:213-225 | up moves in the buffer at the same column, and from the first row into history, taking the draft once |
| Keys.GoesDown | cli/editor.ts:226-234 | down moves in the buffer, and from the last row through history back to the draft |
| Keys.Rubs | cli/editor.ts:159-174 | backspace drops the character or break before the cursor |
| Keys.BreaksRow | cli/editor.ts:153-157 | Ctrl+J, and return inside a paste or with a modifier, break the row |
| Keys.Interrupts | cli/editor.ts:115-115 | Ctrl+C interrupts and changes nothing |
| Keys.DeletesOrQuits | cli/editor.ts:116-129 | Ctrl+D quits on an empty buffer and else deletes ahead within the row |
| Keys.PasteMarkers | cli/editor.ts:110-111 | the paste markers come before every other reading of a key |
| Keys.TypesItself | cli/editor.ts:236-256 | a key of none of these types its sequence, breaks normalised; escape sequences, control characters and modified keys type nothing |
| EditorRuns.RunRefines | cli/editor.ts:107-271 | the two-dimensional editor and the flat one stay in step over every key sequence |
| EditorRuns.ReachableIsValid | cli/editor.ts:65-67 | from an empty buffer every key sequence leads to a well-formed state, in step with the flat editor |
| EditorRuns.SubmitsOnlyOnReturn | cli/editor.ts:153-157 | a key submits if and only if it is a bare return outside a paste, and then submits the whole text |
| EditorRuns.PasteNeverSubmits | cli/editor.ts:110-111 | between the paste markers no key submits |
| EditorRuns.DraftComesBack | cli/editor.ts:83-97 | whatever happens in between, coming back from history restores exactly the draft that was left |
| EditorRuns.FlattenInjective | cli/editor.ts:40-56 | text and offset determine rows, row and column |
| EditorRuns.ChunkThenRubs | cli/editor.ts:159-174 | one backspace per character and per break undoes a chunk completely |
| EditorRuns.ChunkIsItsKeys | cli/editor.ts:244-271 | a pasted printable chunk equals its keys one by one |
| Riquadro.Spezza | cli/riquadro.ts:58-64 | the cutting loop, a width of zero or less included |
| Riquadro.Disponi | cli/riquadro.ts:96-142 | the layout loop builds the rows and the cell of the closed-form layout, or throws |
| LayoutProofs.WrapFits | cli/riquadro.ts:50-64 | wrapping loses nothing, fits the width, and cuts only at multiples of it |
| LayoutProofs.ThrowsOnOneColumn | cli/riquadro.ts:103-121 | the layout throws if and only if the terminal is one column wide |
| LayoutProofs.CursorInside | cli/riquadro.ts:131-136 | the cursor is always strictly between the borders of its own row |
| LayoutProofs.CellShowsCharacter | cli/riquadro.ts:131-136 | before the end of a line the cell under the cursor holds exactly that character, at exact multiples of the width too |
| LayoutProofs.CellInjective | cli/riquadro.ts:131-136 | two logical places never share a cell |
| LayoutProofs.EqualWidths | cli/riquadro.ts:103-138 | the frame is a rectangle if and only if the marker and the label leave room |
| LayoutProofs.HeaderWidths | cli/riquadro.ts:78-86 | the header is a rectangle if and only if a column is left for its text, or there is none to show |
| LayoutProofs.CursorOnNextCharacter | cli/riquadro.ts:88-95 | laid out, an editor state shows under its cursor the character Ctrl+D would delete |
| LayoutProofs.DrawnCursorShowsNext | cli/textzone.ts:204-216 | drawn in the fixed bottom, the cell under the terminal's own cursor holds that character |
| LayoutProofs.RowsAre | cli/riquadro.ts:121-130 | every visual row is its piece between the bars, after the prompt on the very first and blanks of its width on the others |
| LayoutProofs.BordersAre | cli/riquadro.ts:106-141 | the borders, the label and the hint row, and how many rows there are |
| LayoutProofs.LayoutIsDrawable | cli/textzone.ts:204-216 | every reachable editor state, laid out, is something the fixed bottom can draw |
| Bindings.WakeOwnerBindings.Remember | agent/event-intelligence.ts:135-143 | a null owner changes nothing; else the entry becomes the newest and the oldest leave, within the bound |
| Bindings.WakeOwnerBindings.Get | agent/event-intelligence.ts:145-147 | the remembered owner, if still kept |
| Bindings.KeptIsNewest | agent/event-intelligence.ts:132-143 | after any calls the map holds exactly the newest part of everything remembered |
| Bindings.FoundWhileRecent | agent/event-intelligence.ts:132-153 | an owner is found exactly while fewer than 1024 other turns were named since its latest call, and the map never exceeds 1024 |
| Exposure.ComputeScore | agent/capability-exposure.ts:86-114 | the accumulated score is the sum over the phrase and every token |
| Exposure.PhraseWeights | agent/capability-exposure.ts:95-101 | what the whole phrase is worth in the name, the capability and the description, whole or in part |
| Exposure.TokenWeights | agent/capability-exposure.ts:103-111 | what each token is worth there, as a part or within one |
| Exposure.WholeBeatsPart | agent/capability-exposure.ts:95-101 | a whole name outranks a whole capability, that a part of a name, that a part of a capability, and that a description |
| Exposure.OutsideKeepsOrder | agent/capability-exposure.ts:193-197 | the searchable tools stand in catalogue order |
| Exposure.MatchesWhenSomethingOccurs | agent/capability-exposure.ts:86-114 | a tool matches if and only if the query or one of its tokens occurs in it |
| Exposure.RankingIsExact | agent/capability-exposure.ts:204-207 | exactly the matching tools, each once, in the total order of score and catalogue place |
| Exposure.TakeCore | agent/capability-exposure.ts:116-140 | distinct names, within the target and full unless names run out; preferred tools first in preference order, then catalogue order; a preferred one is left out only when preferred ones took every slot |
| Exposure.CreateSetup | agent/capability-exposure.ts:154-198 | each error and the under-cap path exactly; under pressure one slot at least stays dynamic |
| Exposure.CorePartitions | agent/capability-exposure.ts:193-197 | core and searchable cover the catalogue if and only if no other tool shares a core name |
| Exposure.LoadedAreBest | agent/capability-exposure.ts:202-232 | the loaded tools are the first that fit in ranking order, and every other match comes after each of them |
| Exposure.Discovery.SearchAndLoad | agent/capability-exposure.ts:202-236 | stages the selection without showing it; loaded and omitted add up to matched |
| Exposure.Discovery.ActivatePending | agent/capability-exposure.ts:238-247 | shows the staged selection after the unchanged fixed part, and nothing when none is staged |
| Exposure.Discovery.Preload | agent/capability-exposure.ts:273-282 | the first round already sees the selection |
| Exposure.LastSearchBeforeActivationShows | agent/capability-exposure.ts:186-247 | over any run the model sees the fixed part and the last search before the last activation |
| Exposure.NeverTooMany | agent/capability-exposure.ts:186-247 | the ceiling holds in every run, core and door never move, and only authorised tools show |
| Reconcile.DiagnosisIs | core/config/defaults-drift.ts:378-434 | each diagnosis if and only if: absent, equal to HEAD, registered and unchanged or shipped before, changed, or not to be known without a checkout or its history |
| Reconcile.FindInHistory | core/config/defaults-drift.ts:363-376 | a commit that had these bytes is found exactly if there is one; a shallow checkout or an unreadable log answers nothing |
| Reconcile.Survey | cli/adopt.ts:289-303 | each path lands in the one list its diagnosis names, in order |
| Reconcile.ListedInOrder | cli/adopt.ts:289-303 | every list stands in the order of the paths |
| Reconcile.InInstalls | cli/adopt.ts:283-313 | installed and failed are exactly the absent unsealed paths whose copy lands, or does not, each once |
| Reconcile.House.CopyAndRecord | cli/adopt.ts:211-256 | each chosen path is copied and registered as read back, or failed; afterwards it is there exactly if it was, or its copy left something; nothing else is written |
| Reconcile.House.ReconcileDefaults | cli/adopt.ts:283-313 | every existing file is byte-identical, only absent unsealed files are written, each absent path is in exactly one list, a failed one is still absent exactly when its copy left nothing, and only what was installed is registered |
| Reconcile.House.ReconcileTwice | cli/adopt.ts:283-313 | a second run installs a path if and only if the first failed to and left nothing there, and the copy lands this time; after a clean run it does nothing |
| Reconcile.InstalledIsNotTheOwners | core/config/defaults-drift.ts:378-434 | a default just installed is never diagnosed as the owner's own |

## Left out

- The insides of the agent loop, the provider, SQLite, sockets, spawned processes, Git and the service managers: each is a parameter that may answer in any way its callers handle.
- Message wording, colours and trust labels: texts matter only by being empty, equal, or a line.
- A settlement or schedule write that throws ends the tick as a crash there would; a throw of anything the runner calls ends it as a failure that names no turn.
- Jobs added, disabled or edited while processes run; ties among equally due jobs are broken arbitrarily, and the foreground's model lane is not modelled.
- Minted ids and claim tokens are unique by a counter; the source draws them at random.
- Stand-down, pause, ownership and the foreground gate before a tick starts: a tick simply does not start; the stand-down after the run is modelled.
- Waiting turns are woken and stale holders reclaimed by arbitrary actions; in `Serial` only the row of a holder that has lost it is reclaimed.
- Turn rows of jobs always carry an address in the protocol, as the scheduler writes them; rows without one, and owner turns, are in `LaneRunner` alone.
- Serial.AnswerSentAtMostOnce: serialises the work on each occurrence, as nothing in the source does; which other interleavings are harmless is said by `Messages`.
- Messages.SentOnceIffUnclaimed: the words of a message are not modelled, only whether they are the turn's own outcome as its holder recorded it; an outcome whose close found the claim lost is not.
- Process.Worker.BindFire: in running code a rival's bind and a rival's insert are interleaved with a tick; every other interleaving is covered by the transition system alone.
- LaneRuns.BeatIsRun: the policy readers are assumed to answer what the job's policy is, a release to come with words, as the loop always gives them, and a job's runnable row to have started, as only a woken one is runnable.
- Stores.TurnStore.Grant: an owner's explicit extension of its own allowance, and the part of the allowance that counts calls, are not modelled; the renewals left stand for it.
- Transcript.Perform: what is said above the box is modelled as going back into the box before the next draw; a draw forgets where the cursor was in that state, so closing a message directly with a draw ends on the same screen.
- Spending.MonthBound: counts leases opened by the first-run gate and the autonomous gate, one at a time; resuming an interrupted row does not ask the per-job ceiling in the source.
- Recovery.OthersDoNotMatter: speaks of the session's messages; a fallback text is delivered even for an `answered` turn that had said nothing, as in the source.
- Terminal resize and wide characters; lines wrapping at the screen's edge do not occur in the repository's own terminal model either.
- Fondo.FondoDriver.Aggancia: the box is assumed shorter than the screen; `Transcript.HookKeeps` is about a reported row that is still the cursor's own.
- Transcript.NothingIsLost: draws that would leave the cursor on an older line, or enter the box over an unfinished last line, are outside its guard; `GuardIsExact`, `GrowFollowsText` and `UnfinishedLineIsOverwritten` say what those do. Lines said above the box end with a line feed.
- Riquadro.Disponi: colours are the identity and every character is one column wide.
- Exposure.RankingIsExact: lower-casing, tokenising and splitting are given functions; the list is sorted by insertion rather than by the library sort, whose result under this total order is the same.
- Reconcile.House.ReconcileDefaults: files are compared by their bytes instead of their hashes; one checkout's log is read as it stands; the walk of the shipped tree, the registry's file format and unreadable files are not modelled.
- `muffin adopt` with arguments, the opening dialogue, completion, `ridimensiona`, and the rest of event intelligence: they add only easy members.
