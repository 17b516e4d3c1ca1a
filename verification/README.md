# Verified model of matrix-user-swap

matrix-user-swap moves one Matrix account to another. It reads what the old and
the new user see of a homeserver, makes a plan (`src/plan.rs`), and executes the
plan as requests that may each fail (`src/execute.rs`). The last phase cannot be
undone: the old user leaves the rooms that were migrated. While executing, tasks
wait for invites that a sync loop receives (`src/sync.rs`), and all requests go
through a rate limiter with one limit for each endpoint (`src/rate_limit.rs`).

This project models those four files, the merge of JSON objects they use
(`src/utils.rs`), how power levels are resolved (`src/state.rs:132-198`) and the
server they talk to. It proves what the program relies on end to end, and where
the code falls short of that, the exact condition under which it does not:

- **Leaving is safe, but for unseen creators.** For every world, every set of
  failing reads and every pattern of failing requests, when the executor asks for
  the old user to leave a room, the new user is in it and tags, ignored users,
  direct messages and history are safe. By the levels that the server enforces
  no power is lost either, if and only if the creators of the room are accounted
  for (`LeaveSafety`).
- **Planning again finds nothing.** A clean run leads to a world whose plan is
  empty, with one exception that is characterised exactly (`Replanning`). Every
  plan has a clean run, which leaves exactly the rooms without an error
  (`CleanRuns`).
- **Plans are executable, with exact exceptions.** A request of a run is one that
  the server's authorization rules allow, if and only if it is none of a few
  kinds that planning does not rule out; conversely joins and power levels are
  planned whenever the server would allow them, unless the old user is misjudged
  (`Permissions`). A server that enforces its rules is asked for, and rejects,
  what falls under an exception (`EnforcedRuns`), and there are examples of each
  (`Exceptions`).
- **Plans say and do exactly what there is reason for.** Each action, level, write
  and error is in a plan if and only if the state of the server and the failing
  reads call for it (`PlanErrors`).
- **Runs ask for exactly what they should, in order, and failures are accounted
  for** (`TraceExact`, `TraceOrder`, `Executor`, `DirectTargets`).
- **Ignored users are kept exactly when there is nothing to merge**
  (`IgnoredUsers`).
- **Wake-ups are not lost, and invites are neither missed nor invented**
  (`InviteSync`).
- **An endpoint has one limiter, one request in flight, and a bounded rate**
  (`RateLimit`, `RateLimitTasks`).

## How it is modelled

`Homeserver.World` is the state of the server: members, join rule, ACL, create
event, power levels and visibility of each room, and the account data of each
user. A read is a function of the world and of an arbitrary set `faults` of reads
that fail; account data whose content does not have the shape the reader asks for
fails to read as well. Power levels are resolved twice over: by the server,
against the creators of the room (`Room.TrueLevels`), and by the program, against
those that the content of the create event names, if its two reads succeed
(`Migration.SeenLevels`). Creators matter where their level is infinite, and where
no event sets levels. Reading drops the `notifications` of the levels, so that a
write of what was read removes them. `Planning.Migration` says what the plan of a
world is, part by part and without order; the class `Planner.MakePlanState` fills
a plan in step by step as the program does, and is proved to arrive at that plan.

`Executor.ExecuteContext` has the program's counters. The server answers each of
its requests as an arbitrary function says: done, or failed, where a failed
request may have taken effect all the same (a lost response). Every execution that
ends is proved to be a run in the sense of `Trace.RunOf`, a grammar of request
traces, and the whole-run theorems are about all traces of that grammar. An
execution that waits for an invite for ever, or panics, has made a prefix of a
run, and what holds of prefixes is proved as well
(`TraceOrder.PrefixesAreInOrder`). `Undisturbed` says that the power levels read
while executing are those the run itself left there, so that no outside actor
changed them; the theorems without it hold in any case.

The invite protocol and the rate limiter are transition systems: tasks and the
loop take steps in any order, and a step is what happens under one lock or
between two suspension points. The sections under the locks of both shared maps
are also written as class methods that read or update the map in place, proved
equal to the functions that the transition systems take their steps with
(`Register`, `Announce`, `Notified`; `Found`, `OrInsert`). `Reachable` means
reachable by any interleaving.

What the model assumes of others:

- the server lists as joined the rooms whose membership state is `join`
  (`ListsJoinedRooms`), which is what `src/state/mock.rs:186-198` does;
- up to room version 10 the creator is who is named in the create event, in
  version 11 its sender; from version 12 on the sender and the creators it adds
  have infinite levels, and no entry among the explicit ones (`WellFormedLevels`,
  needed for `Permissions` only);
- where no event sets power levels, finite creators have level 100, everybody
  else 0, anybody may invite, and state takes one level (`Room.stateDefault`), as
  the section on `m.room.power_levels` of the Matrix client-server specification
  has it; and the library that the program uses resolves a missing event alike,
  for those creators that the program hands to it;
- a server permits requests by the server ACL and by the section "Authorization
  rules" of Matrix room version 11, with the infinite creators of version 12;
- a first sync returns all invites, a later one those after `since`; no invite is
  retracted;
- Tokio's `Notified` future receives `notify_waiters` from its creation on.

Keys of maps are visited in the order of `BTreeMap<String, _>`, which `Ordering`
defines.

## Where the code is not what one would expect

The model follows the code. Each of these is proved, with its exact condition:

- *Unseen creators.* From version 11 on a room is created by who sends the create
  event, but the program looks for creators in its content only, and takes a
  failed read of it for an event that names nobody, and of the version for one
  below 12 (`src/state.rs:132-187`). An old user has no error recorded, and leaves,
  whose infinite level is not seen, or whose level of 100 in a room where no event
  sets levels; a new user who passes for a creator gets no level. `LeaveIsSafe`
  states the condition, `CreatorsAccounted`, in terms of the room before the
  migration. `SenderIsNotSeen`, `FailedCreateReadIsNotSeen`,
  `FalseCreatorGetsNoLevel`, `SenderWithoutLevels` and `NamedCreatorWithoutLevels`
  are worlds where it fails.
- *Seen creators.* The infinite level of a creator is copied as the largest
  integer, which is still lower, so planning again proposes it again
  (`src/plan.rs:463-501`): `PowerLevelReplannedIffApproximated`. Leaving is not
  affected, since the approximation is an error of the room.
- *Writes of power levels.* What is written is what was read, without the
  `notifications` (`src/state.rs:168-181`, `src/execute.rs:244-251`). The server
  rejects the write if one of them is above the old user's level, or if the new
  user is an infinite creator; and it rejects writes and invites of an old user
  who lacks the level and only passes for a creator. `EveryRequestIsPermitted` has
  the exact conditions,
  `WriteAdmitted` and `InviteAdmitted`; `NotificationsBlockWrite`,
  `CreatorRefusesLevel` and `FalseCreatorInvites` are examples. An unseen creator
  is moreover not trusted with what only a creator may do
  (`JoinPlannedIffPossible`, `LevelPlannedIffPermitted`).
- *Join rules.* A join is planned under a `private` or unknown join rule, which
  admits nobody (`src/plan.rs:543-546`): a planned join is permitted if and only
  if the room's rule admits invited users (`EveryRequestIsPermitted`);
  `JoinUnderPrivateRule` is a run with one that is rejected.
- *One user in both roles.* Nothing stops the old and the new user from being the
  same; the account then leaves its own rooms:
  `NothingLostAtEndExactly`.
- *Alias errors.* Aliases are fetched after leaves were marked
  (`src/plan.rs:385-387`), so a room marked to be left may have an alias error,
  and no other: `LeaveMarkingIsExact`.
- *Retry dates.* The two branches for `RetryAfter::DateTime` are swapped with
  respect to their comments (`src/rate_limit.rs:107-115`):
  `DateHintRespectedIffPast`. The spacing of completed calls does not depend on it.
- *A stopped sync loop.* When a sync request fails, nobody is woken any more
  (`src/sync.rs:97-104`): `WaiterCanReturnIffLoopRuns`.
- *Ignored users* are merged at the top level of their event's content, where the
  only specified key is `ignored_users` (`src/plan.rs:759-798`). Two lists that
  differ are therefore a conflict, which is reported and keeps rooms from being
  left; they are never joined entry by entry. Everybody stays ignored if and only
  if the new user had no list, or already ignored them all in the same way
  (`IgnoredUsersKeptExactly`); `TwoListsAreNotMerged` is a run after which
  somebody is not.

The README of the repository says that rate limiting is not implemented; the code
implements it, and the code is what is modelled.

## Model

| member | source | states |
|---|---|---|
| PlanErrors.SeenLevelExactly | src/state.rs:164-198 | the level that planning sees is infinite exactly for who is named in the create event of a version 12 room, both of which were read; else the entry or the default, or 100 or 0 without an event |
| PlanErrors.LevelPlannedExactly | src/plan.rs:453-501 | a level is set if and only if levels were read, the new user's is lower and the old user's suffices to write them; it is the old user's, or 2^53 - 1 for an infinite one |
| PlanErrors.JoinDecidedExactly | src/plan.rs:506-557 | which of seven obstacles keeps a room from being joined, failing reads included, and that there is none exactly if a join is decided on; an invite exactly if it is needed |
| PlanErrors.ActionsExactly | src/plan.rs:412-442 | join, invite, level and account data of a room, gated by whether the new user will be in it |
| PlanErrors.TagsWrittenExactly | src/plan.rs:577-627 | tags are written if and only if both could be read and the new user lacks one; what is written |
| PlanErrors.ErrorsExactly | src/plan.rs:390-449 | each error of a room, with its payload, is recorded if and only if there is the reason for it |
| PlanErrors.ErrorsInStages | src/plan.rs:395-437 | errors are recorded in the order of examination, each once |
| PlanErrors.HistoryReportedIffHidden | src/plan.rs:642-663 | a restricted history is reported if and only if it is neither unset, shared nor world-readable |
| PlanErrors.SeenCreatorStays | src/plan.rs:463-478 | an old user whom the create event of a version 12 room names gets the approximation error, and no run leaves the room |
| PlanErrors.GlobalErrorsExactly | src/plan.rs:665-798 | each global error is recorded if and only if there is the reason for it |
| PlanErrors.GlobalErrorsInOrder | src/plan.rs:381-383 | an error about direct messages comes before those about ignored users, and clashes are in key order |
| PlanErrors.GlobalWritesExactly | src/plan.rs:665-798 | which global data is written, under which keys, exactly when and with which content |
| JsonMerge.MergeJson | src/utils.rs:33-72 | the merged map has exactly the keys of both maps, new values winning; it is `None` if and only if no key is missing from the new map; the errors are the specified conflicts |
| JsonMerge.ConflictsOverExact | src/utils.rs:40-63 | visiting keys in ascending order reports exactly the shared keys with unequal values, both values recorded |
| JsonMerge.MergeReportsExactConflicts | src/utils.rs:29-32 | an error for a key exists if and only if the key is in both maps with different values; errors are in ascending key order |
| JsonMerge.NoConflictsIffSubmap | src/utils.rs:25-32 | no error is reported if and only if every old entry is in the result with its old value |
| JsonMerge.RemergeIsStable | src/utils.rs:33-72 | merging into the written result copies nothing and reports the same conflicts |
| JsonMerge.MergeAssociative | src/utils.rs:40-45 | chained migrations give the same map in either order of merging |
| Planner.MakePlan | src/plan.rs:835-897 | planning fails exactly when a user id or a list of joined rooms cannot be read, in that order; otherwise the plan is the specified one, for every order and repetition of the listed rooms |
| Planner.MakePlanState.PlanAll | src/plan.rs:368-388 | rooms, then global data, then leaves, then aliases arrive at the specified plan |
| Planner.MakePlanState.PlanRoom | src/plan.rs:390-449 | the plan of a room with actions and errors in order, and none if it would be empty |
| Planner.MakePlanState.PlanPowerLevel | src/plan.rs:453-501 | a level is set only above the new user's one or in place of an infinite one; without errors and without a level the new user's is already as high; the approximation error is recorded exactly when the old user's level is infinite |
| Planner.MakePlanState.PlanRoomAccountDataTags | src/plan.rs:559-627 | the merged tags to write, and one error for a failed read or for each conflict |
| Planner.MakePlanState.WillJoinDestinations | src/plan.rs:356-366 | looking a room up in the unfinished plan decides membership in the rooms the new user will be in |
| Planner.MakePlanState.PlanAccountDataDirect | src/plan.rs:665-707 | the direct messages to write and the failed read, on top of the room plans |
| Planner.MakePlanState.MergeDirect | src/plan.rs:709-740 | the loop over users computes the specified merge, and notices exactly whether it changed anything |
| Planner.MakePlanState.MergeRooms | src/plan.rs:719-731 | the turn of one user appends the missing rooms to their list and changes no other list |
| Planner.MakePlanState.PlanAccountDataIgnoredUsers | src/plan.rs:743-757 | adds the merged ignored users and their errors, and keeps what was planned before |
| Planner.MakePlanState.MergeIgnoredUsers | src/plan.rs:759-798 | the merged ignored users, or the failed read |
| Planner.MakePlanState.PlanLeaves | src/plan.rs:804-820 | with the setting and no global error, every listed room gets an entry, marked when it has no error; otherwise nothing changes |
| Planner.MakePlanState.GetAliases | src/plan.rs:824-831 | every entry gets its alias or one alias error, and nothing else changes |
| PlanProperties.OnlyJoinErrorsRefuse | src/plan.rs:412-426 | a refusal to join is recorded if and only if the new user neither is nor will be in the room |
| PlanProperties.EntryOfFinalPlan | src/plan.rs:368-388 | leaves and aliases change nothing of a room's plan but the mark, the alias and one alias error |
| PlanProperties.RoomTrichotomy | src/plan.rs:390-449 | exactly one holds of a room: already joined, join planned, refusal recorded; an invite only with a join, power level and account data only in the first two cases |
| PlanProperties.LeaveMarkingIsExact | src/plan.rs:800-831 | with the setting and no global error all rooms have entries and are marked exactly when they have no error but an alias error; otherwise none is marked and exactly the non-empty plans are entries |
| PlanProperties.RoomPlanIsLocal | src/plan.rs:374-379 | the plan of a room depends on the state and the reads of that room only |
| PlanProperties.MissingExact | src/plan.rs:719-731 | the appended rooms are exactly the wanted and absent ones, without repeats, in the old order |
| PlanProperties.MergedDirectExact | src/plan.rs:709-740 | new lists are kept as prefixes and extended by exactly the wanted rooms; the new user's own key is untouched, no empty list appears, and `None` is returned exactly when nothing is missing |
| PlanProperties.MergedDirectKeepsOrder | src/plan.rs:719-731 | what follows a user's own list is in old order and without repeats |
| PlanProperties.RemergeDirectIsStable | src/plan.rs:709-740 | once written, merging again adds nothing, for any smaller set of joined rooms |
| Executor.ExecuteContext.Error | src/execute.rs:91-103 | counts the error, and marks its room or the global flag |
| Executor.ExecuteContext.Execute | src/execute.rs:105-162 | the trace is a run of the plan; the error count is the number of failed requests, the failed rooms are exactly those with a failed request, the global flag is set exactly after a failed global write; the result is `Ok` exactly when nothing failed |
| Executor.ExecuteContext.MigrateRooms | src/execute.rs:113-120 | the rooms are migrated one after the other, in key order |
| Executor.ExecuteContext.MigrateGlobalData | src/execute.rs:124-126 | every global write is requested, whatever fails |
| Executor.ExecuteContext.LeaveRooms | src/execute.rs:142-152 | leaves exactly the marked rooms whose migration had no failure |
| Executor.ExecuteContext.MigrateRoom | src/execute.rs:165-169 | makes the requests of one migration and accounts for each failure once |
| Executor.ExecuteContext.MigrateRoomInner | src/execute.rs:171-231 | a failed invite, wait or join ends the migration unrecorded; otherwise all account data is asked to be written, whatever became of the power level, and all failures are recorded |
| Executor.ExecuteContext.EnterRoom | src/execute.rs:178-200 | invite, wait and join as planned, up to the first failure |
| Executor.ExecuteContext.SetPowerLevel | src/execute.rs:233-255 | reads what survives redaction of the current levels, and writes exactly that with the new user's entry, unless the read failed |
| Executor.ExecuteContext.SetRoomAccountData | src/execute.rs:208-228 | writes all account data of a room in key order, recording failures |
| Executor.ExecuteContext.MigrateGlobalAccountData | src/execute.rs:258-282 | one global write, whose failure is a global error |
| Executor.ExecuteContext.LeaveRoom | src/execute.rs:285-304 | a leave is requested if and only if the room is marked and has not failed |
| Executor.FailedMigrations | src/execute.rs:202-227 | after the migrations a room is among the failed ones if and only if its own migration had a failure, and there is no global failure |
| Executor.FailuresBeforeLeaving | src/execute.rs:128-136 | when leaving starts, the counters decide exactly whether the global writes and each migration succeeded |
| Effects.MigrationEffect | src/execute.rs:171-231 | a migration without failure joins or invites the new user, sets the level over the levels that were there, removing their `notifications`, adds the account data, and changes nothing else of the room |
| Effects.MigratedRoomApplied | src/execute.rs:113-120 | that is still the state of the room after all migrations, whatever failed in other rooms |
| Effects.GlobalEffect | src/execute.rs:124-126 | successful global writes add exactly the planned account data |
| Effects.LeaveOpsExact | src/execute.rs:285-304 | a leave is requested exactly of marked rooms with an error-free migration |
| Effects.LeaveOpsDistinct | src/execute.rs:142-152 | no room is left twice |
| LeaveSafety.PowerSafe | src/plan.rs:453-501 | a room without power level error ends with the new user's true level at least the old user's if and only if the creators were accounted for |
| LeaveSafety.CreatorsAccountedBelow12 | src/state.rs:119-131 | where creators are not infinite, and not taken to be, they are accounted for if and only if an event sets levels, or the old user is no creator, or the new user is one, or the old user and not the new one is named in a create event that could be read |
| LeaveSafety.CreatorsAccountedIfSeen | src/state.rs:183-197 | they are where planning resolves the levels of the two users as the server does |
| LeaveSafety.TagsSafe | src/plan.rs:577-627 | a room without tag error ends with every old tag, with an equal value |
| LeaveSafety.IgnoredSafe | src/plan.rs:759-798 | without global error every ignored user is kept, with an equal value |
| LeaveSafety.DirectSafe | src/plan.rs:680-741 | without global error every direct message in a room the new user was to be in is kept |
| LeaveSafety.LeaveIsSafe | src/plan.rs:800-820 | whenever a leave is requested: new user joined, tags, ignored users and direct messages kept, history visible; and power kept, by the server's levels, if and only if the creators were accounted for |
| LeaveSafety.LeftRoomStaysSafe | src/execute.rs:142-152 | the same from the start of the leaves on, for every room that will be left |
| LeaveSafety.NothingLostAtEndExactly | src/execute.rs:285-304 | after the run nothing of a left room is lost if and only if the two users differ and the creators were accounted for |
| Exceptions.LeftWithLessPower | src/state.rs:183-187 | every clean run leaves each room planned without error whose creators are not accounted for, with less power |
| Exceptions.SenderIsNotSeen | src/state.rs:144-158 | such a run, for an old user who sent a create event that names nobody |
| Exceptions.FailedCreateReadIsNotSeen | src/state.rs:183-188 | such a run, for an old user who is named in the create event, when either read of it fails |
| Exceptions.FalseCreatorGetsNoLevel | src/plan.rs:480-484 | such a run, for a new user whom the create event names without making it a creator |
| Exceptions.SenderWithoutLevels | src/state.rs:175-197 | such a run, in a version 11 room without a power levels event, for an old user who sent the create event |
| Exceptions.NamedCreatorWithoutLevels | src/state.rs:175-197 | such a run, in a version 10 room without a power levels event, for an old user who is named in a create event that could not be read |
| Replanning.ReplanningFindsNothing | src/plan.rs:368-388 | after an error-free run a new plan has no invite, join or account data; in rooms whose creators are read alike, no level but where the old user is seen as a creator, and no leave if leaves were planned |
| Replanning.SeenAsCreator | src/state.rs:144-158 | the old user is seen as a creator if and only if the create event of a version 12 room was read and its content names the user |
| Replanning.PowerLevelReplannedIffApproximated | src/plan.rs:463-501 | a level is proposed again if and only if the old user was seen as a creator and a level was set |
| Replanning.RoomNotReplanned | src/plan.rs:390-449 | a room migrated as planned needs no invite, join or account data; where its creators are read alike, no level but one that stands in for an infinite one, and it keeps an error if it had one |
| Replanning.NewRoomsAreDestinations | src/plan.rs:356-366 | after a clean run the new user is in no room but those they were expected in |
| CleanRuns.EveryPlanHasCleanRun | src/execute.rs:105-162 | every plan has a run in which no request fails and nobody interferes, so the theorems about such runs are not empty |
| CleanRuns.CleanRunLeavesExactly | src/plan.rs:800-820 | after a clean run the old user is out of a room if and only if leaving was asked for and neither the room nor the global data has an error |
| Permissions.EveryRequestIsPermitted | src/plan.rs:451-557 | every request of every run is permitted when it is made, by the server's levels: a join if and only if the rule admits invited users, a write if and only if it has no entry for an infinite creator, the old user has the level to send it, no `notifications` entry is above that level and the old user does not merely pass for a creator; an invite if and only if an old user who merely passes for a creator has the level for it; all others always |
| Permissions.WritePermitted | src/execute.rs:233-255 | the server allows a planned write of levels, first levels included, if and only if it is admitted |
| Permissions.JoinPlannedIffPossible | src/plan.rs:503-557 | when its reads succeed, planning a join agrees with whether the server would allow one, with or without an invite, if and only if the old user's right to invite is not misjudged; the invite is planned exactly when it is needed |
| Permissions.LevelPlannedIffPermitted | src/plan.rs:486-500 | a lower level is raised or reported; what is planned is permitted if and only if admitted, and what is reported would be permitted if and only if an event sets levels, the old user is an unseen creator and the new user none |
| EnforcedRuns.EveryPlanHasEnforcedRun | src/execute.rs:105-162 | every plan has a run against a server that rejects exactly what its rules do not permit |
| EnforcedRuns.AnsweredIfAdmitted | src/execute.rs:171-231 | in such runs a request of a migration succeeds if and only if it is admitted |
| EnforcedRuns.UnadmittedInviteIsRejected | src/execute.rs:178-183 | each such run asks for a planned invite that is not admitted, which fails |
| EnforcedRuns.UnadmittedJoinIsRejected | src/execute.rs:193-200 | the same of a join planned under a rule that admits nobody, unless the invite before it failed |
| EnforcedRuns.UnadmittedWriteIsRejected | src/execute.rs:202-206 | the same of a planned write of levels that is not admitted, when entering the room is |
| Exceptions.JoinUnderPrivateRule | src/plan.rs:543-556 | such a run in which a join, planned without an error, is rejected |
| Exceptions.NotificationsBlockWrite | src/execute.rs:244-252 | such a run in which a write is rejected for removing a `notifications` entry |
| Exceptions.CreatorRefusesLevel | src/plan.rs:480-492 | such a run in which a write is rejected for giving a creator a level |
| Exceptions.FalseCreatorInvites | src/plan.rs:548-554 | such a run in which an invite is rejected for want of a level |
| Permissions.LeavePermitted | src/execute.rs:300-303 | when a leave is requested the old user is still in the room |
| TraceExact.MigrationAsks | src/execute.rs:171-231 | a migration asks for a request if and only if it is planned and what it waits for succeeded: the wait for the invite, the join for the wait, the write for the read, account data for having entered |
| TraceExact.AskedExactly | src/execute.rs:105-162 | the same of a whole run, where all global data is asked to be written, and a room is left if and only if it is marked and nothing of it or of the account failed |
| TraceExact.LevelsReadExactly | src/execute.rs:202-245 | levels are read in exactly the rooms that were entered and have a level planned |
| TraceOrder.RunsAreInOrder | src/execute.rs:113-153 | rooms before global writes before leaves, each in key order; within a room invite, wait, join, level, account data, each once; nothing after a failure to enter; no leave after a failed global write or a failure in its room |
| TraceOrder.LeaveFollowsWholeMigration | src/execute.rs:292-303 | a leave implies that every planned request for its room and every global write was made and succeeded |
| TraceOrder.PrefixesAreInOrder | src/execute.rs:184-187 | the same order in every prefix of a run, as left by a wait that never returns; a leave in it comes after all migrations and global writes, and after no failure of its room or of the account |
| IgnoredUsers.IgnoredUsersKeptExactly | src/plan.rs:759-798 | after a clean run everybody ignored by the old user is ignored by the new one if and only if both lists could be read and the new user had none, or all entries were there already |
| IgnoredUsers.UsersAfterWrite | src/utils.rs:40-63 | the write changes the new user's ignored users only from none to the old user's |
| IgnoredUsers.TwoListsAreNotMerged | src/plan.rs:787-791 | a run after which a user ignored by the old account is not ignored by the new one: nothing is written and one conflict is reported |
| DirectTargets.DirectTargetsAccountedFor | src/execute.rs:267-281 | at the end of a run every room added to `m.direct` has the new user in it or is a failed room |
| InviteSync.InviteTable.WaitForInvite | src/sync.rs:45-63 | the locked section creates or finds the pending entry of the room, or returns at once |
| InviteSync.InviteTable.ProcessResponse | src/sync.rs:107-126 | marks all rooms of the response invited and notifies exactly the notifies that were pending for them |
| InviteSync.StepKeepsInv | src/sync.rs:45-128 | every step of every task and of the loop keeps the registration and cursor invariants |
| InviteSync.InvitedIsLogUpToCursor | src/sync.rs:87-128 | the invited rooms are always exactly those in the server's log up to `since` |
| InviteSync.NoLostWakeUp | src/sync.rs:45-65 | a waiter is woken if and only if its room is in the processed log, and is otherwise registered on the notify of its room's entry; a wait returns only for an invited room |
| InviteSync.LateWaiterReturnsAtOnce | src/sync.rs:61-61 | a wait returns without sleeping if and only if the invite was processed before |
| InviteSync.InvitedIsAbsorbing | src/sync.rs:112-123 | invited rooms stay invited and the cursor never moves back |
| InviteSync.PollWakesAll | src/sync.rs:107-126 | one poll leaves woken exactly the sleepers whose room is in the log |
| InviteSync.CallExactly | src/sync.rs:45-65 | a call returns at once if and only if the invite was processed, and else sleeps on the notify of the room's entry, shared with who waits already |
| InviteSync.LoopTurns | src/sync.rs:94-129 | the loop polls, takes in what is new since the cursor, and polls again; an error stops it |
| InviteSync.OthersStay | src/sync.rs:45-65 | a step moves no other task, but that a response may wake it |
| InviteSync.StepsElsewhere | src/sync.rs:107-128 | only processing a response moves the cursor |
| InviteSync.ErrorWakesNobody | src/sync.rs:97-104 | after an error of the loop a sleeper stays asleep for ever, and no invite is taken up |
| InviteSync.ErrorEndsHope | src/sync.rs:97-104 | after an error no continuation lets a sleeper return that was not notified |
| InviteSync.StoppedLoopWakesNobody | src/sync.rs:97-104 | after an error no sleeper is ever woken |
| InviteSync.WaiterCanReturnIffLoopRuns | src/sync.rs:94-105 | a sleeper can still return if and only if it was notified already or the loop runs |
| RateLimit.LimitState.SendRequest | src/rate_limit.rs:88-123 | returns the first response that is not limited, after one send for each limited one; every send goes out when the limit in force is over and the sleep ends; the next request is allowed 200 ms later |
| RateLimit.RateLimitedClient.Insert | src/rate_limit.rs:70-76 | the section under the write lock looks again, keeps a limiter that is there, and returns the one in the map |
| RateLimit.RateLimitedClient.RequestState | src/rate_limit.rs:61-77 | the limiter of an endpoint is created on first use and never replaced |
| RateLimit.RateLimitedClient.SendRequest | src/rate_limit.rs:79-124 | a call waits for its own endpoint's limit and moves no other endpoint's |
| RateLimit.FirstSendExact | src/rate_limit.rs:88-95 | the first send goes out at once, or exactly as the limit allows and the sleep ends |
| RateLimit.RetryTimeExact | src/rate_limit.rs:89-117 | a retry goes out exactly the given delay, or 5 s, after the limited response, and as late as the sleep ends |
| RateLimit.RetryDelayFloor | src/rate_limit.rs:105-117 | after a limited response every later send of the call is at least the given delay, or 5 s without a hint, later |
| RateLimitTasks.LimitedTaskRetries | src/rate_limit.rs:89-117 | a limited task keeps its lock, and can send again from exactly the end of the limit on |
| RateLimitTasks.SendsWhenAllowed | src/rate_limit.rs:90-94 | a task with the lock can send from exactly the time of the limiter on |
| RateLimitTasks.CompletedCallFreesEndpoint | src/rate_limit.rs:118-122 | a completed call lets go of its lock and sets the limit to 200 ms later |
| RateLimitTasks.CallFindsLimiter | src/rate_limit.rs:61-77 | a call finds the limiter of its endpoint, or puts a new one without a limit there |
| RateLimitTasks.UncontendedCall | src/rate_limit.rs:79-124 | a call to an endpoint that nobody else uses completes exactly if it waits as long as the limit asks for, and moves no other endpoint's limit |
| RateLimitTasks.CancelledCallIsGone | src/rate_limit.rs:88-91 | a cancelled call lets go of its lock and moves no limit |
| RateLimitTasks.LimitedEndpointIsQuiet | src/rate_limit.rs:88-117 | in every interleaving, after a limited response no task sends on that endpoint before its limit is over, cancelled calls included |
| RateLimit.DateHintRespectedIffPast | src/rate_limit.rs:107-115 | a retry date is respected if and only if it is not in the future |
| RateLimitTasks.LimitersAreForEver | src/rate_limit.rs:61-77 | in every interleaving of checks and insertions, entries of the map are never replaced |
| RateLimitTasks.OneLimiterPerEndpoint | src/rate_limit.rs:70-76 | two tasks hold the same limiter if and only if they call the same endpoint |
| RateLimitTasks.OneRequestInFlight | src/rate_limit.rs:32-35 | at most one request of an endpoint is in flight, over all clones |
| RateLimitTasks.BlockedOnlyByOwnEndpoint | src/rate_limit.rs:42-49 | a task can take its lock if and only if no task of its own endpoint holds it |
| RateLimitTasks.StepKeepsSpacing | src/rate_limit.rs:88-123 | every step, of retries and cancelled calls too, keeps completed calls a period apart |
| RateLimitTasks.CompletionsSpanPeriods | src/rate_limit.rs:118-121 | n consecutive completions of an endpoint span at least (n - 1) * 200 ms |
| RateLimitTasks.WindowBound | src/rate_limit.rs:21-22 | in any window of W ms at most floor(W / 200) + 1 calls of an endpoint complete |

## Left out

- HTTP requests, serialization, 404 handling, login and logout (`src/state.rs`, `src/main.rs`): the read and write interfaces are kept, as functions of the world.
- Fields of the power levels that neither planning nor the theorems look at.
- Permissions.EveryRequestIsPermitted: assumes that fields which equal their defaults survive a write of power levels. If the library leaves them out, a write also removes an explicit `ban: 50`, say, which the server rejects when that is above the old user's level.
- Permissions.WritePermitted: the same.
- Executor.ExecuteContext.SetPowerLevel: the conversion of power levels before they are written can panic (`src/execute.rs:246-247`), as when a user who passes for a creator has a level. The contract is of executions in which it does not; one that panics ends with a prefix of a run.
- Authorization rules before room version 11: all rooms of the model are judged by those of version 11.
- ACL patterns: an ACL is its verdict on the user's server.
- Joins through the `allow` list of a restricted rule: the program always invites, and the model's server admits only invited users there.
- Outside actors: the theorems that need an undisturbed world say so; the write of power levels is modelled as a read and a write, so that a disturbed run still has exactly what was read plus the new entry.
- Reads that change their answer while a plan is made: a read is a function of the world.
- Replanning.ReplanningFindsNothing: says nothing about levels and leaves of a room whose creators are read when planning first and not when planning again; an unseen creator then looks like a user without a level.
- Membership states unknown to the specification.
- The sort of the joined rooms (`src/plan.rs:857-858`): the plan is proved not to depend on their order.
- `anonymize_plan`, printing, progress bars, log texts, descriptions of visibility, command line and confirmation prompts.
- The pause of 200 ms after an invite (`src/execute.rs:188-190`), poisoned locks and the filter of the sync request.
- RateLimit.LimitState.SendRequest: `now - duration` can panic when the clock is younger than the duration (`src/rate_limit.rs:113`); times are unbounded reals here.
- RateLimit.LimitState.SendRequest: it is stated for servers that stop limiting at some attempt; under a server that limits for ever the program does not return.
- RateLimit.LimitState.SendRequest: one task's calls, with the lock held; interleaved and cancelled calls are in `RateLimitTasks`.
- Fairness: that a runnable task is scheduled is not modelled; liveness of a wait is stated as the existence of a continuation.
