# Verified models of the tgshd health monitor

tgshd watches a home server: checks are read in turn, an alert engine decides what
is a PROBLEM and what is RESOLVED, a notifier delivers messages over Telegram and
SMS with a retry queue, a memory guard restarts or stops the service that eats the
memory, and a store checkpoints it all. This project models the parts of it that
keep state over a whole run, in Dafny, and proves what their comments promise for
every run, every interleaving and every outcome of a send, a read or a write.

Each part has the same shape. Functions on plain values say what one operation does
to the state. A class whose methods update fields in place, with the loops the
program has, is proved to compute exactly those functions. A module of runs lets the
operations happen in any order and proves the whole-run results; where a result
needs something the program does not keep (a message's identity across renumbering,
an unpruned history, a store that never failed), the runs carry it as history, and
no operation reads it.

| files | part |
|---|---|
| `Basics` | `Option` and two facts about sets |
| `NotifierModel`, `Notifier`, `NotifierRuns`, `NotifierMerge`, `NotifierFlush`, `NotifierFallback`, `NotifierFates`, `NotifierNotify`, `NotifierFlushRuns` | retry queue, in-flight marks, late merge, SMS fallback, what becomes of each message, what one Notify and one flush do |
| `Undelivered`, `UndeliveredRuns` | the "Undelivered earlier" list and the prefix that shows it |
| `Lane` | one delivery channel with many threads |
| `Episode`, `EpisodeRuns`, `EpisodeEnds` | the memory guard's danger episode |
| `Rings`, `Services`, `Culprits`, `CulpritRuns` | bounded histories against unbounded ones, eligibility, the culprit |
| `GuardLoop`, `GuardRuns`, `GuardStores`, `Guards` | the guard at work: loop, action, late restore, saves, writes |
| `Engine`, `EngineRuns`, `EngineAlerts`, `EngineRestarts` | thresholds, alternation, what alerts say, dropped PROBLEMs, restarts |
| `Runner` | queue, engine and undelivered list together: what becomes of a PROBLEM |
| `Store`, `StoreRuns` | checkpoints that fail |
| `SmsParts`, `SmsInbox`, `SmsRoundTrip`, `SmsLength` | splitting and joining concatenated SMS, and whether a part fits |
| `Depends`, `DependsChains` | which `depends_on` can be used |
| `SelfTest`, `SelfTestRuns` | reading a drive's self-test log again and again |
| `FixLimiter`, `FixRuns` | a command check's fix, a few times an hour |

Times are integers, 0 being the zero time; durations are unbounded integers. Sends,
reads, writes, the clock and the random reference of a concatenated SMS are
parameters, so a result holds whatever they give. `hide` statements only keep the
solver from unfolding definitions it does not need. Every lemma carries
`{:induction false}`: each induction is written out.

## Results that say more, or less, than the comments

- A value written beside the checkpoints (`PutKV`) can be undone by an older value of
  the same key that waited for the store (`StoreRuns.PutCanBeUndone`). The kv table
  agrees with an ideal store exactly at the keys that were not overtaken
  (`StoreRuns.SuccessCatchesUp`), and a key that no checkpoint carries, as the memory
  guard's, is never overtaken (`StoreRuns.OwnKeyIsKept`).
- A PROBLEM dropped from the queue can be lost, though the comment at
  pkg/health/runner/runner.go:1106 says never: it reopens its condition, the condition
  reads Good (or is cleared) before it reads Bad, and the PROBLEM was neither delivered
  nor listed (`Runner.ProblemCanBeLost` is such a run). Where every condition loaded
  from the store had reached its threshold, a reopened PROBLEM is raised again exactly
  when the first step that judges its key is a Bad reading
  (`Runner.ReopenedIsHeardExactly`, `EngineRuns.ReopenedExactly`). Every other dropped
  PROBLEM is listed (`Runner.OneFateOfProblem`).
- A reopened condition is raised by its next Bad reading exactly when its bad time,
  with what that reading adds, reaches the threshold (`EngineRuns.RaisedExactly`,
  `EngineRuns.ReopenedEnds`, `Runner.WaitingEnds`). It does for every condition opened
  in the process, and for those read back from the store if they had reached it. The
  store keeps whole seconds: after a restart everything a process can leave open is
  raised at once exactly when the threshold is in whole seconds or the interval is
  zero (`EngineRestarts.RestartRaisesExactly`; `EngineRestarts.StoredMayWait` is a
  wait).
- A text that fits one SMS carries no header, so repeated deliveries of it stay apart:
  one group comes back exactly for longer texts or a single delivery
  (`SmsRoundTrip.OneGroupExactly`).
- An ASCII text of more than 160 characters is cut into parts of 160 septets, which
  leave no room for their headers: no full part fits the 140 octets of an SMS
  (`SmsLength.LongASCIIOverflows`). Which texts fit is `SmsLength.AllFitExactly`; a
  text beyond ASCII within the basic plane always does (`SmsLength.BasicPlaneFits`).
- The fallback may send a second SMS within a streak
  (`NotifierFallback.LateFailureSendsAgain` is such a run): exactly when an abandoned
  SMS of the key failed late and gave the key back since the last one (an abandoned
  SMS counts as one, since it may yet arrive), and the key's
  message is due again and comes to its turn (`NotifierFallback.SecondInStreak` for a
  flush, `NotifierFallback.SecondInNotify` for a Notify call).
- The wrapped comparison of power-on hours says newer exactly when the difference
  modulo 65536 is from 1 to 32767 (`SelfTestRuns.WrappedExactly`). It matters only once
  the log has lost every known entry; then an entry is counted exactly when it and all
  newer ones compare as newer (`SelfTestRuns.LostCountIs`), and in no case is one
  counted twice (`SelfTestRuns.NeverNewTwice`).

## Model

Methods without a loop whose contract is the step function they carry out have no row.
They are, of `Notifier.Notifier`: Notify, Deliver, ViaTelegramOnly, ViaSMSOnly,
ViaEither, MarkResolved, Flush, FlushItem, SettleFlight, Track, Trim; of
`Undelivered.UndeliveredList`: ListOne, ReleasePrefix, RestoreStored; of
`Lane.DeliveryLane`: Acquire, Free, Leave, Wake; of `Guards.MemGuard`: ObserveHost,
TrackReading, JudgeRecovery, PickAction, ActionEnded, Remember, Merge, Export, Restore;
of `Guards.GuardState`: Restore, AllRecords, ToWrite, MarkWritten, Begin; of
`Rings.Ring`: Reset, Latest; of `Engine.AlertEngine`: BadReading, GoodReading, Clear,
ReopenOne, Dropped; of `Store.Checkpointer`: Save, Add; of `SmsInbox.InboxGroup`: Add;
of `FixLimiter.Check`: Record, TryFix, ReserveFix; and `Depends.DependsOnProblem`. The
rows below are about those functions, or about methods whose loops are proved to
compute them.

| member | source | states |
|---|---|---|
| NotifierRuns.NeverSentTwice | pkg/health/notify/notify.go:309-359 | over every run of Notify, Flush, Merge, Expire, settle and the other steps no message has two successful sends on its channel, and a message still queued has none |
| NotifierRuns.LateResultIsItsOwn | pkg/health/notify/abandon.go:66-87 | in every run a late success removes exactly the message it was a send of, even after renumbering, is counted, and ends Telegram's failure exactly when that message is queued for it; a late failure only counts an attempt of that message, which may then be sent again |
| NotifierRuns.Reachable | pkg/health/notify/abandon.go:52-64 | queued IDs ascend below nextID, each in-flight mark is filed under its message's current ID, one send per message is in progress and none of a delivered message |
| NotifierNotify.NotifyAccounts | pkg/health/notify/notify.go:269-304 | for every message, route and outcome: the message joins the queue, for its channel and with its kind and key, exactly when it did not go out, and else is counted delivered; an abandoned send of a queued message is filed; the same for a RESOLVED's extra SMS, tried exactly when its key was in the SMS-sent set, there is a sender and the route used no SMS; what the bound pushes out is handed over |
| NotifierNotify.NotifyTells | pkg/health/notify/notify.go:605-718 | Telegram is failing afterwards exactly when its send says so, or was not possible and no SMS stood in; a RESOLVED marks its key right behind itself and takes it out of the SMS-sent set; a PROBLEM whose SMS in Telegram's stead hangs claims its key |
| NotifierNotify.PushHasAFate | pkg/health/notify/notify.go:269-304 | over every run each message given to Notify was delivered then, or is among the messages that each have one fate |
| NotifierMerge.MergeOrders | pkg/health/notify/notify.go:393-420 | a merge in any reachable state leaves strictly ascending positive IDs below nextID, which never goes back, stored rows first and then the in-memory messages, minus the oldest over the bound, and every stored row before every existing resolved mark |
| NotifierMerge.MergeMovesFlights | pkg/health/notify/abandon.go:113-123 | an in-memory message is in flight under its new ID exactly when it was under its old one, by the same send |
| NotifierMerge.MergeKeepsVerdicts | pkg/health/notify/notify.go:814-833 | no in-memory message that survives a merge changes whether it is a stale SMS PROBLEM or due for the fallback |
| NotifierMerge.StoredLieBeforeMarks | pkg/health/notify/notify.go:678-688 | after a merge every stored row lies before each mark that existed |
| NotifierMerge.MovedMarkSeparates | pkg/health/notify/notify.go:678-688 | a moved mark separates the renumbered messages exactly as the old one separated them |
| NotifierFlushRuns.FlushLeavesSuffix | pkg/health/notify/notify.go:309-359 | over every run a flush leaves a channel that may not be used alone; of any other a prefix leaves, of which exactly the PROBLEMs queued for SMS whose key was marked resolved since are dropped unsent and the others were sent; the walk stops at a message whose send is in progress, or that fails and counts an attempt, with an abandoned send filed; Telegram is failing afterwards exactly when its last send failed by itself, or nothing was sent and it was |
| NotifierFallback.OneFallbackPerStreak | pkg/health/notify/notify.go:730-762 | over every run, between two fallback SMS of a key, sent or hanging, lies its RESOLVED, the end of its condition, or the late failure of an abandoned SMS of the key that gave it back |
| NotifierFallback.FallbackNeverResolved | pkg/health/notify/notify.go:784-817 | over every run, once a key has a mark, a fallback SMS of it is of a PROBLEM queued in this process after every mark so far, so never of one resolved since |
| NotifierFallback.RestoreTakes | pkg/health/notify/channels.go:428-446 | over every run restored SMS-sent keys are taken over but for exactly those marked resolved since start |
| NotifierFallback.SecondInStreak | pkg/health/notify/notify.go:730-817 | in any reachable state the fallback sends, or leaves hanging, an SMS of a key that has one sent or hanging in its streak exactly when the key was given back since, Telegram is failing, the key's message is a PROBLEM queued for it, the last news of its key there and not marked resolved since it was queued, its key is not in the SMS-sent set, its SMS does not fail and all such before it are sent |
| NotifierFallback.SecondInNotify | pkg/health/notify/notify.go:269-304 | the same for the fallback a Notify call ends with |
| NotifierFallback.LateFailureSendsAgain | pkg/health/notify/notify.go:766-782 | a concrete run in which the late failure of an abandoned fallback SMS makes the fallback send twice within one streak |
| NotifierFates.OneFateEach | pkg/health/notify/notify.go:836-936 | over every run each message ever queued is exactly once queued still, sent, dropped as stale, or handed to OnDrop |
| NotifierFates.SentWasDelivered | pkg/health/notify/notify.go:309-359 | what left the queue as sent was delivered, once |
| NotifierFlushRuns.StaleWasResolved | pkg/health/notify/notify.go:822-833 | over every run what was dropped as stale is a PROBLEM queued for SMS whose key was marked resolved after it was queued, never delivered and with no send in progress |
| NotifierFates.HandedStaysUnsent | pkg/health/notify/abandon.go:66-73 | a message handed to OnDrop is delivered later only by a send of it that was in progress then |
| Runner.OneFateOfProblem | pkg/health/runner/runner.go:1103-1127 | over every run of the queue, the runner's drops, the engine and the undelivered list, each PROBLEM ever queued is exactly once queued, sent, stale, listed as undelivered, or the reason its condition was reopened, and then waiting, raised again or ended unheard |
| Runner.HandedExactly | pkg/health/runner/runner.go:1111-1127 | a PROBLEM handed over reopens its condition exactly when that is open and the message is no older, in whole seconds, than its streak; any other PROBLEM is listed as undelivered, and nothing else is |
| Runner.FatesAreReal | pkg/health/runner/runner.go:1103-1127 | and what is sent was delivered, what is stale has its key resolved, what is listed was shown by a delivered message, is listed or is counted, what reopened did so in the engine, and what waits has a tracked closed condition |
| Runner.WaitingEnds | pkg/health/engine.go:192-237 | the step that judges the key of a reopened PROBLEM raises it again if it is a Bad reading with which the bad time reaches the threshold, lets it wait on if the time does not, and ends it unheard if it is a Good reading or a Clear |
| Runner.ReopenedIsHeardExactly | pkg/health/runner/runner.go:1103-1127 | over every run that loads sound conditions a reopened PROBLEM waits until a step judges its key, and is raised again exactly when that step is a Bad reading; otherwise it ends unheard |
| Runner.ProblemCanBeLost | pkg/health/notify/notify.go:249-254 | a concrete run: a PROBLEM is raised, queued, expires and reopens its condition, which reads Good again; it is not queued, sent, stale, listed or raised again |
| Notifier.Notifier.FlushQueue | pkg/health/notify/notify.go:309-359 | the walk over a snapshot, deleting by ID, is the model's fold over the queue as it was |
| Notifier.Notifier.SmsFallback | pkg/health/notify/notify.go:730-762 | due messages are claimed and sent in order until one is not sent; the keys of the rest are given back |
| Notifier.Notifier.FallbackDue | pkg/health/notify/notify.go:784-817 | the messages found through the last ID of each key are the due ones, one per key, and exactly their keys are claimed |
| Notifier.Notifier.LastOfKey | pkg/health/notify/notify.go:788-799 | the ID found for a key is that of its last queued problem or RESOLVED |
| Notifier.Notifier.MergeStored | pkg/health/notify/notify.go:393-420 | the renumbering by table, the moved flights, marks and the trim give the model's merge, and exactly the messages trimmed off are handed to OnDrop |
| Notifier.Notifier.Renumber | pkg/health/notify/abandon.go:113-123 | every in-flight mark and its flight move to the message's new ID, in any order of the map |
| Notifier.Notifier.MoveResolved | pkg/health/notify/notify.go:678-688 | every mark becomes the new ID of the first message it lay before, or the next ID |
| Notifier.Notifier.ExpireBefore | pkg/health/notify/notify.go:425-447 | keeps the younger messages and hands over the older ones, both in order |
| Notifier.Notifier.EnqueueTracked | pkg/health/notify/notify.go:843-867 | appends under the next ID, files an abandoned send, trims the oldest over the bound and hands exactly those to OnDrop |
| Notifier.Notifier.RemoveByID | pkg/health/notify/notify.go:928-936 | removes the message with the ID and no other |
| Notifier.Notifier.BumpByID | pkg/health/notify/notify.go:912-918 | counts an attempt of the message with the ID |
| Undelivered.UndeliveredList.Prefix | pkg/health/notify/channels.go:213-252 | the prefix is the header, the oldest items that fit line by line, the counted line and a blank line, within the limit; nothing that would fit is held back |
| Undelivered.UndeliveredList.TakePrefix | pkg/health/notify/notify.go:535-551 | at most one send holds the prefix, and it holds as many items as it shows |
| Undelivered.Decode | pkg/health/notify/channels.go:365-381 | a decoded list is the oldest items, at most fifty, and every item cut off is counted with what was counted before |
| Undelivered.MessageFits | pkg/health/notify/notify.go:492-505 | with the prefix ahead a message stays within 4096 UTF-16 units when it does alone, and a longer one goes without |
| UndeliveredRuns.NothingIsLost | pkg/health/notify/channels.go:165-175 | in every interleaving what was listed, item by item and by count, is what delivered messages showed plus what is listed plus what is counted; at most fifty are listed |
| UndeliveredRuns.AckRemovesShown | pkg/health/notify/channels.go:257-261 | acknowledging removes exactly the items shown when the prefix was taken, whatever was listed or restored since, and the clamps never bite |
| Lane.OneSendAtATime | pkg/health/runner/deliver.go:84-117 | with any number of threads at most one send runs, and one does exactly while the lane is in flight |
| Lane.StartsOnFreeLane | pkg/health/runner/deliver.go:124-160 | a send starts only when none runs and none is abandoned, and its number is greater than every earlier one |
| Lane.AbandonMarksItsOwn | pkg/health/runner/deliver.go:174-182 | an abandon marks the lane exactly when the caller's own send still runs; a late one changes nothing, whoever holds the lane since |
| Lane.AbandonedIsHung | pkg/health/runner/deliver.go:60-80 | an abandoned lane holds a running send whose own caller left it |
| Lane.SleepersAreWatched | pkg/health/runner/deliver.go:142-160 | no wake-up is lost: a call asleep on an unclosed channel waits on the lane's current one, with a send in flight that is not abandoned |
| Lane.WaitersGetTheirTurn | pkg/health/runner/deliver.go:164-190 | from every reachable state the return and the release of the running send let a waiting call try again, within three steps |
| EpisodeRuns.DecisionFollowsDanger | pkg/health/memguard/episode.go:180-206 | every decision other than not_recovered is on a danger reading that ends an unbroken run of them spanning DangerFor |
| EpisodeRuns.DecisionsApart | pkg/health/memguard/episode.go:163-206 | any two such decisions of a run in time order are at least RecoveryWindow + DangerFor apart |
| EpisodeRuns.NotRecoveredOnce | pkg/health/memguard/episode.go:232-248 | a not_recovered outcome answers one decision to act whose action succeeded in between, and is the first report since |
| EpisodeRuns.IdleDangerDecided | pkg/health/memguard/episode.go:180-206 | a run of danger readings that begins while the episode is idle is decided upon at its first reading DangerFor after the beginning, and not before |
| EpisodeRuns.DecisionSays | pkg/health/memguard/episode.go:251-338 | over every run what a decision says: nobody to blame, a protected culprit, or the culprit stopped exactly when the records hold an action on it within the window and restarted otherwise, done in act mode with its record and else only said and noted |
| EpisodeEnds.EpisodeEndsExactly | pkg/health/memguard/episode.go:180-248 | over every run exactly when a reading ends an episode: at once when nothing was decided; clear for RecoveryWindow when it was only reported or did not recover; RecoveryWindow after the action succeeded, clear for DangerFor, while a danger reading then means not recovered |
| EpisodeEnds.DoneSays | pkg/health/memguard/episode.go:293-306 | a failed action ends its own episode as reported; a succeeded one is kept in the records with those still within the window |
| EpisodeEnds.NotRecoveredSays | pkg/health/memguard/episode.go:232-248 | over every run a not_recovered outcome names the culprit of the decision it answers and what the last event of its success says was done, at least RecoveryWindow ago |
| Episode.MergeRecords | pkg/health/memguard/episode.go:152-162 | exactly the records of both lists still within the window, each once, oldest first |
| Episode.Prune | pkg/health/memguard/episode.go:358-366 | exactly the records still within the window |
| Episode.LastActed | pkg/health/memguard/episode.go:323-338 | the latest action on the service within the window, 0 when there is none |
| Episode.ActionMeans | pkg/health/memguard/episode.go:323-338 | the action is a stop exactly when tgshd acted on the service within the repeat window, and says when it last did; otherwise a restart |
| Guards.MemGuard.FindAction | pkg/health/memguard/episode.go:323-338 | the loop finds the last action within the window, and so restart or stop |
| Guards.Merged | pkg/health/memguard/episode.go:152-162 | the loop over both lists and the stable sort give the merge of the model |
| Rings.RingMeasuresHistory | pkg/health/memguard/culprit.go:51-79 | on samples an interval apart the ring of New's depth measures a growth exactly when the whole history has two samples in the window, the measured growth is the whole history's, and it never underflows |
| Rings.ShowsOne | pkg/health/memguard/culprit.go:51-79 | the whole history shows one growth only |
| Rings.Ring.Add | pkg/health/memguard/guard.go:190-196 | the newest point comes first and the oldest of a full ring leaves, through modular slots |
| Rings.Ring.Grown | pkg/health/memguard/culprit.go:51-79 | the walk back with its early break measures the growth of the contents |
| Rings.Depth | pkg/health/memguard/guard.go:237-249 | the depth in intervals is the least that is longer than the window, and at least one |
| Services.ServiceIsNoSlice | pkg/health/memguard/guard.go:138-145 | a cgroup judged a service is under system.slice and is no slice itself |
| Services.JudgedExactly | pkg/health/memguard/guard.go:98-167 | a service is eligible exactly when its trimmed cgroup is a service or scope below system.slice that neither is nor holds tgshd's own, it is no core unit and no never_touch entry names it; it is protected exactly when only the last fails |
| Services.LessMeans | pkg/health/memguard/culprit.go:38-48 | IDs are ordered by their first differing character, a proper prefix first |
| Services.IdsDiffer | pkg/health/memguard/guard.go:98-115 | IDs tell services of different kind or name apart |
| Culprits.WorstGrewMost | pkg/health/memguard/culprit.go:22-48 | the culprit is the service that grew the most, of those the largest, of those the one whose ID comes first; none is named exactly when none grew enough |
| Culprits.WorstIsOne | pkg/health/memguard/culprit.go:22-48 | the culprit depends on the histories only, not on the order the map is looked at |
| Culprits.MeasuredIsBlamed | pkg/health/memguard/culprit.go:22-79 | what the bounded ring of a service blames is exactly what its unbounded history since it appeared or changed cgroup blames |
| CulpritRuns.HistoriesAre | pkg/health/memguard/guard.go:253-280 | over every run of samples exactly the services of the latest one are held, each judged by its latest cgroup, and an eligible or protected one with exactly its points since it appeared or changed its cgroup |
| Culprits.History.ObserveServices | pkg/health/memguard/guard.go:253-280 | rings, cgroup changes and the deletion of the services not seen keep standing for the unbounded histories |
| Culprits.History.FindCulprit | pkg/health/memguard/culprit.go:22-48 | the loop over the map, in any order, finds the service that grew the most by the unbounded histories, or none when they show none |
| Culprits.BeatsTransitive | pkg/health/memguard/culprit.go:38-48 | the comparison of culprits is an order |
| GuardRuns.RestoredStaysOnShelf | cmd/health_memory.go:728-838 | in every interleaving of beats, finished actions, late restores, saves and writes each restored record within the repeat window is in what the guard would write |
| GuardRuns.WritesKeepRestored | cmd/health_memory.go:342-393 | every successful write stores each record restored before it began and still within the window |
| GuardRuns.NothingLeftUnwritten | cmd/health_memory.go:821-838 | once nothing is left to write every live record held is stored |
| GuardStores.RecordsAreStored | pkg/health/memguard/loop.go:225-274 | in every interleaving each record the guard holds within the window is in the latest batch on its way to the store, and stored once no batch is on its way and nothing is left to write |
| GuardStores.ReadBeforeWrite | cmd/health_memory.go:821-838 | until the store has been read nothing is written over it |
| GuardStores.StoredBySuccess | cmd/health_memory.go:342-393 | what is stored changes only by a write that succeeds, to exactly the live records that were on the shelf when it began; a failed one leaves as much to write |
| GuardStores.FinishSays | pkg/health/memguard/loop.go:307-332 | the result of an action carries the record it was started with, as a kill if it came to that, and is dropped only when it failed while the guard was stopping |
| GuardRuns.ActsAsWholeHistory | pkg/health/memguard/episode.go:323-366 | with pruned and merged records a service is stopped, now and later, exactly when the whole history of records given or made holds an action on it within the window, and restarted otherwise |
| GuardRuns.ActionStarted | pkg/health/memguard/loop.go:256-336 | over every run an action starts only in act mode, on the service that grew the most, which is not protected, as a stop exactly when the whole history holds an action on it within the window, with a record that says so |
| GuardRuns.OneActionAtATime | pkg/health/memguard/loop.go:225-274 | running actions and waiting results are at most one together and, until shutdown, one exactly while the episode is acted and not done, so a result never waits to be handed over |
| GuardRuns.MayTouchMeans | pkg/health/memguard/guard.go:98-167 | what a running action touches is a service or scope under system.slice, no slice, not tgshd's own, no core unit and not excluded |
| GuardRuns.BlamedMayTouch | pkg/health/memguard/guard.go:98-115 | a blamed service that is not protected may be touched |
| GuardLoop.Without | cmd/health_memory.go:728-744 | a save keeps exactly the late records within the window that it does not hold |
| Guards.GuardState.Save | cmd/health_memory.go:728-745 | keeps the loop's records and the late ones it lacks, and counts a change |
| EngineRuns.ResolvedFollowsProblem | pkg/health/engine.go:219-237 | a RESOLVED only follows a PROBLEM of its key, raised or merged open, that nothing ended since |
| EngineRuns.ProblemsApart | pkg/health/engine.go:192-217 | between two PROBLEMs of a key lies its RESOLVED, a Clear or a Reopen |
| EngineRuns.BadTimeIsCapped | pkg/health/engine.go:192-217 | with a clock that never goes back the bad time of a streak begun here is at most one and a half intervals per Bad reading after the first, and at most the time since the first, which is no earlier than the streak's start; open, it has reached the threshold |
| EngineAlerts.AlertsSay | pkg/health/engine.go:66-88 | over every run: an event is passed on, a Good reading of an open condition sends one RESOLVED, a Bad reading that opens its condition one PROBLEM, nothing else is sent; both say when the first Bad reading of the streak put its beginning, and a RESOLVED without a text has the last Bad reading's |
| EngineAlerts.ConditionsRecall | pkg/health/engine.go:192-217 | over every run a condition begun here holds its streak's beginning, as its first Bad reading put it, and the text and check of its last |
| EngineRuns.RaisedExactly | pkg/health/engine.go:192-217 | a closed condition is raised by its next Bad reading exactly when its bad time with the capped gap reaches the threshold |
| EngineRuns.DroppedReopensExactly | pkg/health/runner/runner.go:1111-1127 | over every run a dropped PROBLEM reopens its condition exactly when that is open and the message is no older, in whole seconds, than its streak; otherwise it is listed |
| EngineRuns.ReopenedEnds | pkg/health/runner/runner.go:1111-1127 | the first later step that touches a reopened key raises it exactly when it is a Bad reading and the bad time the condition had at the drop, with what that reading adds, reaches the threshold; a Good reading or a Clear ends the condition and lists nothing |
| EngineRuns.ReopenedExactly | pkg/health/runner/runner.go:1111-1127 | where every condition loaded open had reached its threshold, that step raises the key exactly when it is a Bad reading |
| EngineRestarts.RestartsStaySound | pkg/health/store/state.go:311-328 | with thresholds in whole seconds what a process stores has reached its threshold for the next one, restart after restart |
| EngineRestarts.LeftOpenMeans | pkg/health/engine.go:192-217 | a condition some run from an empty store leaves open has reached its threshold, within the time from its streak's start to its last reading, and has no bad time when the interval is zero |
| EngineRestarts.CanBeLeft | pkg/health/engine.go:192-217 | for any positive interval and threshold a run of Bad readings leaves the condition open with exactly the threshold as its bad time and its last reading at any time after that |
| EngineRestarts.RestartRaisesExactly | pkg/health/store/state.go:311-328 | everything some run from an empty store leaves open is, stored, loaded, dropped and reopened, raised by the next Bad reading exactly when the threshold is in whole seconds (or not positive) or the interval is zero |
| EngineRestarts.StoredMayWait | pkg/health/store/state.go:311-328 | a run of two Bad readings that leaves a condition open which, stored, loaded and reopened, is not raised by a Bad reading a fifth of a second later |
| EngineRuns.ApplyIsReadings | pkg/health/engine.go:66-88 | an Apply of several readings is the readings one after another: the same conditions, and a log that grows by its alerts in order |
| Engine.AlertEngine.Apply | pkg/health/engine.go:66-88 | conditions and alerts of a list of readings, in order |
| Engine.AlertEngine.ClearPrefix | pkg/health/engine.go:102-114 | forgets exactly the keys with the prefix and counts them |
| Engine.AlertEngine.MergeStored | pkg/health/engine.go:180-190 | adds the stored conditions whose key is not tracked |
| StoreRuns.SuccessCatchesUp | pkg/health/store/state.go:147-176 | after any run of failed or cancelled checkpoints the first success leaves conditions, queue, baselines and marks as a store that wrote every accepted checkpoint at once, and the kv values too at exactly the keys that were not overtaken |
| StoreRuns.IdealIs | pkg/health/store/state.go:147-176 | the ideal tables hold the conditions, queue and marks of the last checkpoint taken in, of each drive the last row and of each key the last value written since, and the reserved key only ever marks |
| StoreRuns.SuccessKeepsNewest | pkg/health/store/state.go:197-214 | the alerts and samples gained since the last success are the ideal store's minus its oldest ones, exactly as many as were counted dropped, and only beyond the bound |
| StoreRuns.OutageReportedOnce | pkg/health/store/state.go:158-170 | the degraded error comes once per outage |
| StoreRuns.FirstFailureReported | pkg/health/store/state.go:158-170 | the degraded error comes exactly with the first failed write of an outage |
| StoreRuns.CarriedKeysCatchUp | pkg/health/store/state.go:370-384 | a success that carries every key ever put leaves the whole kv table as the ideal one |
| StoreRuns.OwnKeyIsKept | cmd/health_memory.go:213-229 | a key no checkpoint carries is never overwritten by an older copy |
| StoreRuns.PutCanBeUndone | pkg/health/store/state.go:352-365 | a concrete run in which a waiting older value overwrites a newer one that was put |
| Store.MergeWrites | pkg/health/store/state.go:255-278 | writing merged baselines is writing the older and then the newer ones |
| Store.NewestInSteps | pkg/health/store/state.go:197-214 | what is kept and counted does not depend on how often the bound was applied |
| Store.KeepNewest | pkg/health/store/state.go:207-214 | the kept elements are the end of the list, at most the limit, and the others are counted |
| Store.Checkpointer.Merge | pkg/health/store/state.go:255-278 | snapshots replace and upserts accumulate through an index by serial, each serial once |
| Store.Checkpointer.Validate | pkg/health/store/state.go:218-251 | accepts exactly the kinds, channels and routes the tables take |
| SmsParts.Do | pkg/sms/gammu/builder.go:27-62 | the parts of a text with their coding, and headers when there is more than one |
| SmsParts.SplitText | pkg/sms/gammu/builder.go:37-45 | the loop splits as the model does |
| SmsParts.UpdateUDH | pkg/sms/gammu/builder.go:64-71 | part i of n gets the header of index i + 1 and total n |
| SmsParts.SplitJoins | pkg/sms/gammu/builder.go:27-52 | the parts joined are the text; all but the last have the full length, none is empty |
| SmsParts.UDHBytes | pkg/sms/gammu/builder.go:73-76 | the header's bytes are 05 00 03, reference, total, index |
| SmsParts.HexRoundTrip | pkg/sms/gammu/builder.go:73-76 | the hexadecimal form of a number is read back as its bytes |
| SmsParts.HeaderRoundTrip | pkg/sms/inbox.go:229-255 | a built header is read back as its reference, total and index when the index is from 1 to the total, and refused otherwise |
| SmsParts.ParseHeader | pkg/sms/inbox.go:229-255 | the loop over the information elements finds the first concatenation element |
| SmsParts.ParseFindsFirst | pkg/sms/inbox.go:229-269 | whatever information elements a header holds and whatever follows them, the first concatenation element answers when its numbers make sense, and without one the rest does |
| SmsInbox.InboxGroup.Text | pkg/sms/inbox.go:298-312 | the parts joined in ascending order, whatever the order of the map |
| SmsInbox.GroupInbox | pkg/sms/inbox.go:321-347 | the groups of the objects, through the map of pointers, are the model's in first-seen order |
| SmsInbox.KeyGroup | pkg/sms/inbox.go:321-347 | a received sender, reference and total has one group, with exactly its messages' ids in order, the first text of each number, and the others counted |
| SmsInbox.CompleteMeansAll | pkg/sms/inbox.go:294-296 | a concatenated message is complete exactly when every number from 1 to its total was received |
| SmsRoundTrip.PartsComeTogether | pkg/sms/inbox.go:321-347 | a text of 2 to 255 parts delivered in any order with any repeats is one group with every id, complete exactly when every part came, and then it reads as the text |
| SmsRoundTrip.SinglesStayApart | pkg/sms/inbox.go:325-334 | every delivery of a text of one part is a complete message of its own that reads as the text |
| SmsRoundTrip.OneGroupExactly | pkg/sms/inbox.go:321-347 | a text comes back as one group exactly when it has more than one part or came once |
| SmsRoundTrip.EveryMessageOnce | pkg/sms/inbox.go:321-347 | whatever was received, every message is in exactly one group |
| SmsLength.AllFitExactly | pkg/sms/gammu/builder.go:27-52 | every part with its header fits 140 octets exactly when an ASCII text takes at most 160 septets, or another text at most 67 code units in each part, 70 in an only one |
| SmsLength.LongASCIIOverflows | pkg/sms/gammu/builder.go:9-15 | no full part of a longer ASCII text fits |
| SmsLength.BasicPlaneFits | pkg/sms/gammu/builder.go:27-52 | a text beyond ASCII within the basic plane always fits |
| DependsChains.ResolveKeepsEnding | pkg/health/config/depends.go:17-39 | resolving ends and keeps exactly, in order, the entries whose chain of depends_on ends in finitely many steps at an entry without one or at a configured check of another kind |
| DependsChains.InCycleMeansOnCycle | pkg/health/config/depends.go:106-130 | inCycle is true exactly for a name that its own chain leads back to: as many rounds as entries are enough |
| DependsChains.RejectedAreReported | pkg/health/config/depends.go:17-39 | as many are reported as are rejected, each with a reason, and none whose chain ends |
| DependsChains.ReasonIs | pkg/health/config/depends.go:43-62 | why an entry is rejected: it names itself, or nothing configured, or its chain leads back to it |
| DependsChains.ReportsSay | pkg/health/config/depends.go:17-39 | every report gives the reason its entry was rejected for, among the entries left in that round |
| DependsChains.GroundedIsFine | pkg/health/config/depends.go:43-62 | an entry whose chain ends has no problem |
| DependsChains.FineIsGrounded | pkg/health/config/depends.go:43-62 | where no entry has a problem every chain ends, within as many steps as there are entries |
| Depends.Config.ResolveDependsOn | pkg/health/config/depends.go:17-39 | the rounds that find the bad names and delete their entries compute the resolution and its reports |
| Depends.InCycle | pkg/health/config/depends.go:106-130 | the loop answers as the bounded walk of the model |
| Depends.PrefixIsKind | pkg/health/config/depends.go:52-53 | in a value with a slash the prefix http/ and the kind http are the same |
| SelfTestRuns.NeverNewTwice | pkg/health/check/disks/selftest.go:64-92 | for a log that grows at the front and may lose its tail no entry is counted as new twice over any sequence of reads |
| SelfTestRuns.FailureReportedOnce | pkg/health/check/disks/selftest.go:81-92 | every failed entry is reported at most once |
| SelfTestRuns.CountIsExact | pkg/health/check/disks/selftest.go:131-142 | with distinct IDs a read after the first counts exactly the entries made since the last that the log still shows; true hours, strictly ordered and less than 32768 apart, are asked for only where the log has lost every known entry |
| SelfTestRuns.ShownCountIsExact | pkg/health/check/disks/selftest.go:161-177 | while the log shows a known entry, or when none was known, the count is exact with distinct IDs alone |
| SelfTestRuns.LostCountIs | pkg/health/check/disks/selftest.go:131-142 | once the log has lost every known entry, an entry is counted exactly when it and all newer ones compare as newer than the newest known one |
| SelfTestRuns.LostCountExactly | pkg/health/check/disks/selftest.go:131-142 | then nothing shown is missed exactly when all of it compares as newer |
| SelfTestRuns.FailureNotMissed | pkg/health/check/disks/selftest.go:81-92 | then each new failure is reported unless it is the newest finished test |
| SelfTestRuns.ReportsExactly | pkg/health/check/disks/selftest.go:81-92 | a read reports exactly the failures it counts other than the newest finished test |
| SelfTestRuns.PassesObserved | pkg/health/check/disks/selftest.go:54-92 | over every series of reads the first one counts nothing as new; a read that counts a passed entry observes a pass then, any other leaves the last one alone, but for a clock that went back |
| SelfTestRuns.NewestSays | pkg/health/check/disks/selftest.go:94-110 | a read names the newest finished entry shown, with its outcome, and its hours when it has any, or none when nothing finished |
| SelfTestRuns.WrappedOrder | pkg/health/check/disks/selftest.go:147-157 | for hours less than half the range apart the wrapped comparison is the true order |
| SelfTestRuns.WrappedExactly | pkg/health/check/disks/selftest.go:147-157 | for any two true hours the wrapped comparison says newer exactly when their difference modulo 65536 is above zero and below half the range |
| SelfTest.AlignSelfTests | pkg/health/check/disks/selftest.go:64-92 | the loops compute the model's update: failures, head, ok time, newest |
| SelfTest.CountNew | pkg/health/check/disks/selftest.go:131-142 | the loops count as the model does |
| SelfTest.FindAligned | pkg/health/check/disks/selftest.go:161-177 | the first position where the head matches, or none |
| SelfTest.TakeHead | pkg/health/check/disks/selftest.go:179-186 | the newest five identities, newest first |
| SelfTest.NewestOf | pkg/health/check/disks/selftest.go:96-110 | the newest finished entry and its summary |
| SelfTest.AlignedFrom | pkg/health/check/disks/selftest.go:161-177 | the head matches at the position found and at none before |
| SelfTest.FailedAt | pkg/health/check/disks/selftest.go:81-89 | exactly the failed new positions other than the newest finished one, in order |
| FixRuns.AtMostPerHour | pkg/health/check/command/command.go:320-359 | any sliding hour holds at most max_per_hour completed fixes |
| FixRuns.FixIsEarned | pkg/health/check/command/command.go:205-222 | each fix follows at least `after` Bad verdicts since the last Good or fix, and a command's fix its grace after the one before |
| FixRuns.FixIsTaken | pkg/health/check/command/command.go:261-316 | a Bad verdict takes the fix exactly when the strikes, the past hour, the grace and the target allow it |
| FixRuns.AbortRestores | pkg/health/check/command/command.go:363-377 | an aborted reservation leaves the strikes and the pruned fix times exactly as they were |
| FixLimiter.Check.AbortFix | pkg/health/check/command/command.go:363-377 | gives the strikes back and deletes the recorded time, searching from the end |
| FixLimiter.Check.PruneFixes | pkg/health/check/command/command.go:410-418 | keeps the times within the hour |

## Left out

- EngineRuns.BadTimeIsCapped: takes one interval and one threshold per key over the run, as a check has; the cap is exact where the program multiplies a float.
- Runner.OneFateOfProblem: a step of the notifier and what the runner does with the messages it drops are one step.
- SmsRoundTrip.PartsComeTogether: starts from parts that carry the text the builder gave them; more than 255 parts do not fit the header.
- SelfTestRuns.LostCountIs: entries are immutable and all give their hours, whole or all wrapped.
- SmsLength.AllFitExactly: a character of ASCII that the default alphabet lacks counts as one septet.
- A settle that runs while a Flush is between two sends: Notify, Flush, Merge, Expire and settle are single steps.
- Message texts, HTML, routes, the choice of mode from a check and the switch from SMS to Telegram without a sender: a message is its kind, key and channel. The line of an undelivered item is a parameter.
- Telegram's failing-since time and its notice: only whether it is failing; that a success since start wins over a stored failure is left open, so more runs are covered.
- Notifier.Restore, and the encoding of queue, channels and lists for the store.
- Flights are tokens in a map instead of shared pointers; the groups of the SMS inbox are objects, their dates are not modelled.
- Lane: contexts and stops are a choice to leave; that a sender ever returns is not claimed.
- Memory guard: outcome texts and the outcome queue, the drain on shutdown, the top process, the start of the writer; never-touch patterns are a parameter and paths are not cleaned before a kill; a pressure or a percentage is a real number.
- Guard loop: one restore at a time, each late one passing all records restored late, as the loop's comment asks.
- Alert engine: Restore, which replaces all conditions, and the sorted exports.
- Store: tables are maps and sequences, SQL and migrations are not modelled; condition rows and encoded rate marks are opaque values.
- depends_on: values were validated before as kind/name and names are distinct.
- Fix limiter: overlapping runs of one check, the restored state, the fix records and the dry run.
- Configuration decoding, the checks' verdicts, reports, commands, menus and adapters of Telegram, SMTP, gammu, Docker, systemd and smartctl: mostly text or plumbing, which would add easy members only.
