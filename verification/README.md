# Verified models of the OS Config agent

This project models the parts of the Google OS Config agent whose correctness is not local to
one function, and proves what they promise. It is a Dafny 4.11 project; `dafny verify
dfyconfig.toml` checks all of it.

What the agent meets in the outside world (the server's replies, commands, the clock, the
file system, the scheduler, kills and reboots) enters as arbitrary answers, so each theorem
covers every run.

| files | what they model |
|---|---|
| `PatchMachine`, `PatchSafety`, `PatchReports`, `PatchBound`, `PatchTask` | the life of one patch task over runs, reboots, kills, failed saves and resumptions; the object with its fields, refining the machine call by call |
| `PatchCalls`, `PatchPromises` | the same life as a log of calls and answers: which call comes next, and what every report, failure and reboot stands for |
| `TaskState` | saving and loading the state file, system call by system call |
| `ConfigReport`, `ConfigTask` | the OS policy engine: what a run must report, and the object with maps and marks that reports it |
| `ConfigAccount` | the reported steps as a full account of validating, checking and enforcing, world by world |
| `Notifications`, `NotificationSafety`, `NotificationDelivery`, `NotificationProgress` | task queue and notification handling as interleaved steps on mutexes, channels, wait group and context |
| `NotificationPromises`, `NotificationCauses` | what becomes of every call, and that nothing is queued, run or cancelled without its cause |
| `Text`, `ZypperInfo`, `ZypperPatterns`, `ZypperRoundTrip`, `ZypperFaults`, `ZypperPatch` | reading zypper's patch information, well printed and faulty, and choosing what to install |
| `PackageCache` | the caches of installed packages |
| `PackageChanges` | guest-policy package changes with apt |
| `RecipeVersion`, `Recipes` | recipe versions, the recipe database, installing |
| `Retry` | retry loops and their random sleeps |
| `Fingerprint` | the bytes hashed for an inventory |
| `Features` | feature flags from project and instance metadata |

Where the agent works by changing things in place there is a class or a method with loops,
proved against a specification; the results are then proved of the specification. The queue
and the notification client, which are goroutines on shared state, are a step machine.

## What was found

Properties that do not hold as one would expect are stated with their exact condition.

* An ApplyConfig run whose second progress report fails dies in its deferred cleanup exactly
  when some policy has a resource: the map of policies does not exist yet
  (`ConfigTaskRun.RunApplyConfig`).
* Loading the task state a second time finds the same thing exactly when the live file exists,
  or a read fails for another reason than a missing file, or there was no old file: loading
  removes the old file (`TaskState.LoadIsRepeatable`).
* Closing the task queue panics exactly when nothing was ever enqueued
  (`NotificationSafety.OnlyAnUnusedCloseCrashes`).
* A last patch blob that declares more packages than it lists makes the zypper parser panic
  exactly when the number fits an int and either the place where the list would end does not,
  or every line behind the list passes for a package line and still they are too few; a number
  that fits no int is an error (`ZypperFaults.CountDecides`).
* A last name without a conflict list behind it makes the parser discard everything it has read,
  without an error. Behind blobs with true counts this is exactly when a package that one of
  them brings is selected all the same (`ZypperFaults.LastListForgets`,
  `ZypperPatch.BroughtIsSelectedIff`).
* A name without a conflict list that is followed by another blob is not noticed: the next
  blob's packages are filed under the wrong patch. What is read of a package is right exactly
  when that blob does not list it or both patches are one; the selection is not affected
  (`ZypperFaults.LostListMisfiles`, `ZypperFaults.MisfiledIff`,
  `ZypperPatch.MisfiledSelectsTheSame`).
* A package name without architecture comes out whole exactly when it holds no dot
  (`ZypperRoundTrip.NoArchLine`). A line is rejected exactly when it does not hold one `<`, or
  marks a source package and names none (`ZypperRoundTrip.LineIsRejected`); so the example
  line `srcpackage:zypper` in the parser's own comment is
  (`ZypperRoundTrip.BareSourceIsRejected`).
* A check of a package is answered from the cache for up to three minutes, whatever else changed
  the database. The answer is true exactly when the name is as present now as at the moment the
  cache was filled (`PackageCache.AnswerIsTrueIff`); a second manager over the same database is
  enough to make it false (`PackageCache.OtherManagerMisleads`).
* Package changes converge exactly when no name is both wanted and unwanted
  (`PackageChanges.ConvergesIffDisjoint`).
* A recipe request is worked on again exactly when the call before neither succeeded nor recorded
  the failure of a step: a recorded failure is final for its version
  (`Recipes.RetriedUnlessRecorded`).
* The comments on RetrySleep give ranges that are too wide by one: the draw is smaller than
  base + extra, so base 1 without extra always sleeps one second. The code is modelled, and
  `Retry.SleepRange` states its range.
* The fingerprint does not tell the two package lists apart (`Fingerprint.OrderDoesNotMatter`).
  Different inventories can be hashed from the same bytes, such as two Windows updates between
  whose title and id a dash moves (`Fingerprint.DifferentInventoriesHashAlike`). As long as no
  package's text is empty or the beginning of another one's, two inventories are hashed from
  the same bytes exactly when each text occurs equally often in both
  (`Fingerprint.SeparableInventoriesDiffer`).

## Model

| member | source | states |
|---|---|---|
| PatchSafety.RebootsBounded | agentendpoint/patch_task.go:167-229 | over every interleaving of runs, answers, kills, reboots and resumptions rebootSystem is called at most 5 times, at most once before patching, and never under NEVER or dry run, although the ALWAYS branch skips the limit check |
| PatchSafety.RebootIsCountedFirst | agentendpoint/patch_task.go:204-222 | whenever a process is about to call rebootSystem the file on disk already counts that reboot, within the limit |
| PatchSafety.TaskIsKept | agentendpoint/agentendpoint.go:355-369 | a resumed task is the accepted one |
| PatchBound.BoundIsReached | agentendpoint/patch_task.go:180-184 | the bound is exact: some life of an ordinary task reboots five times, once before patching |
| PatchReports.SuccessIsEarned | agentendpoint/patch_task.go:269-296 | a success is reported only if, earlier in the life of the task across crashes, the updates returned without error and the following check did not reboot |
| PatchPromises.CompletionsStandForAnswers | agentendpoint/patch_task.go:95-128 | in every life each completion report stands for the answer right before it: SUCCEEDED for a final query told that no reboot is required, SUCCEEDED_REBOOT_REQUIRED for one told that it is, CANCELED for a progress report told to stop, FAILED for a call that went wrong |
| PatchPromises.PromisesAreKept | agentendpoint/patch_task.go:159-299 | for every call of every life, an exact condition on the calls and answers before it: final reports, failures (none is passed over), counted, announced and made reboots, and the order of the work, over crashes and resumptions |
| PatchCalls.LifeFollows | agentendpoint/patch_task.go:231-299 | each call is the one that the log of calls and answers calls for, and the state file holds the step and the counters of the last save that went well |
| PatchCalls.HistoryIsTold | agentendpoint/patch_task.go:117-157 | the events of a life are what its calls and answers tell an observer, no more and no less |
| PatchReports.OneReportPerRun | agentendpoint/patch_task.go:231-299 | a run that returns makes exactly one completion report, as its last act, and no progress report after it |
| PatchReports.RunsAreFew | agentendpoint/patch_task.go:248-297 | runs are accounted for by returns, kills and at most five reboots; a task never killed has returned by the end of its sixth run |
| PatchReports.EveryRunEnds | agentendpoint/patch_task.go:248-297 | whatever is answered, a run that is not killed ends within twenty calls to the outside |
| PatchReports.CallsDwindle | agentendpoint/patch_task.go:248-297 | each call of a running process uses up one of the calls it has left |
| PatchTaskRun.PatchTask.SaveState | agentendpoint/patch_task.go:59-62 | a save that works puts the current fields on disk, one that fails leaves the file, and both are the machine's step |
| PatchTaskRun.PatchTask.SetStep | agentendpoint/patch_task.go:87-93 | the step field is set even when the save fails; the machine's step |
| PatchTaskRun.PatchTask.ReportContinuingState | agentendpoint/patch_task.go:130-157 | suppressed, failed, stopped and saved reports lead where the machine says |
| PatchTaskRun.PatchTask.RebootIfNeeded | agentendpoint/patch_task.go:167-229 | the call, its counters, its saved state and its result are those of the machine, and it returns nil only without a reboot |
| PatchTaskRun.PatchTask.Complete | agentendpoint/patch_task.go:64-68 | the completion report followed by emptying the state file |
| PatchTaskRun.PatchTask.Run | agentendpoint/patch_task.go:231-299 | the loop over the steps ends where the machine ends: returned, waiting for its reboot, or killed with all answers used |
| PatchTaskRun.RunApplyPatches | agentendpoint/patch_task.go:302-313 | a fresh task run on any list of answers is the machine run on that list; its calls keep every promise, its outcome shows in the last of them, and its state file holds the step and counters of the last good save |
| PatchTaskRun.RunLoadedPatch | agentendpoint/agentendpoint.go:355-369 | a saved task loaded after a process ended is the machine resumed, and its calls go on keeping every promise after those of the life before |
| TaskState.StateDir.WriteFile | agentendpoint/task_state.go:68-85 | the files after a write stopped or failing at any of its four calls, and its result: the new contents exactly after a full write, otherwise at most a temporary file more |
| TaskState.StateDir.LoadState | agentendpoint/task_state.go:49-66 | what is loaded, from which of the two places, when reading fails, and which file is removed |
| TaskState.SaveIsAtomic | agentendpoint/task_state.go:32-85 | a save stopped anywhere leaves every file but the temporary one as it was, or installs the new contents in full |
| TaskState.LoadFindsLastComplete | agentendpoint/task_state.go:32-85 | after any series of saves with any failures and kills a load that can read finds exactly the last state saved in full, or what was there before |
| TaskState.LoadIsRepeatable | agentendpoint/task_state.go:49-66 | loading again gives the same result exactly when the live file exists, the old one does not, or the read of one of them fails |
| ConfigReport.ReportsAreFresh | agentendpoint/config_task.go:392-446 | every resource that passed validation and its first check is reported as a check in the final world would judge it, although only marked ones are checked again |
| ConfigReport.VisitsOfAll | agentendpoint/config_task.go:408-441 | a resource is left out exactly when an earlier one of its policy failed validation, check or enforcement; VALIDATION mode never enforces |
| ConfigReport.ShapeOfReport | agentendpoint/config_task.go:146-268 | the only step lists a resource can end with, and what each says about its visit |
| ConfigReport.ReportsAreHonest | agentendpoint/config_task.go:368-453 | each final entry has such a shape, a second check step that succeeded exactly when a check in the final world does, and a state that is true of that world, or unknown without a passed check |
| ConfigAccount.ReportsAccount | agentendpoint/config_task.go:392-446 | for each resource, from the world in which the run came to it: left out exactly after a failure in its policy; each step succeeded exactly when validating, checking or enforcing did; enforced exactly when out of its desired state under ENFORCEMENT; the worlds chain up; checked again exactly when sound with something enforced at or after it, and that step succeeded exactly when a check in the final world does |
| ConfigTaskRun.ConfigTask.GenerateBaseResults | agentendpoint/config_task.go:297-312 | one result per policy with its id, and in it one empty entry of unknown state per resource, in order |
| ConfigTaskRun.ConfigTask.EnforceState | agentendpoint/config_task.go:207-237 | acts only outside the desired state, and then changes the world as the resource does and appends its step |
| ConfigTaskRun.ConfigTask.MarkPostCheckRequired | agentendpoint/config_task.go:456-473 | marks exactly the visited resources without validation or check error |
| ConfigTaskRun.ConfigTask.VisitResource | agentendpoint/config_task.go:408-441 | one turn of the inner loop does what one visit of the account says, and keeps maps, marks and results in agreement with the visits |
| ConfigTaskRun.ConfigTask.PostCheckState | agentendpoint/config_task.go:270-295 | turns every entry into the final one: a second check exactly for sound resources with a later enforcement |
| ConfigTaskRun.ConfigTask.Cleanup | agentendpoint/config_task.go:346-366 | cleans each resource that has an object, once, and panics exactly when a policy with resources has no entry |
| ConfigTaskRun.ConfigTask.Run | agentendpoint/config_task.go:368-453 | results with their policy ids, world, reported state and cleanup on each path are those of the account |
| ConfigTaskRun.RunApplyConfig | agentendpoint/config_task.go:368-453 | cancelled exactly when told to stop, failed exactly when a report fails; a succeeded run has results of the task's shape and ids that are honest about the world it leaves and a full account of the worlds it went through; it panics exactly on the early return with a resource |
| NotificationSafety.ReachKeeps | tasker/tasker.go:45-81 | the invariant of the locks, the channel, the worker, the wait group and the order of tasks, over every interleaving |
| NotificationSafety.TasksRunInOrder | tasker/tasker.go:45-81 | one worker runs the tasks one at a time, each once, in the order Enqueue took its lock |
| NotificationSafety.CloseDrains | tasker/tasker.go:54-60 | when Close has returned every accepted task has finished, also if the worker was only just started |
| NotificationSafety.CloseShutsTheQueue | tasker/tasker.go:43-60 | once Close has the lock nothing more is ever accepted |
| NotificationSafety.OnlyAnUnusedCloseCrashes | tasker/tasker.go:45-60 | no send on a closed channel, no double close and no negative wait group is reachable; Close panics exactly when nothing was enqueued before |
| NotificationDelivery.OneWatcher | agentendpoint/agentendpoint.go:394-411 | calling WaitForTaskNotification again never makes a second watcher |
| NotificationDelivery.DrainNeverBlocks | agentendpoint/agentendpoint.go:317-329 | a closure about to drain the slot finds it full, and no other closure waits to be handed over or to drain |
| NotificationDelivery.FullSlotIsPending | agentendpoint/agentendpoint.go:312-333 | until a cancellation the slot is full exactly while a closure has yet to drain it |
| NotificationDelivery.NoNotificationIsLost | agentendpoint/agentendpoint.go:300-335 | until a cancellation each notification dealt with is followed by a start of runTask, or a closure is on its way there |
| NotificationDelivery.NothingRunsAfterClose | agentendpoint/agentendpoint.go:97-105 | once Client.Close has returned no closure is at work and runTask never starts again |
| NotificationPromises.SavedTaskIsQueued | agentendpoint/agentendpoint.go:355-407 | a saved patch task found by the first WaitForTaskNotification is accepted by the queue before there is any watcher |
| NotificationPromises.EnqueueHandsOver | tasker/tasker.go:43-52 | a call of Enqueue returns only when the worker has its task, which is accepted from the moment it has the lock |
| NotificationPromises.WaitMakesAWatcher | agentendpoint/agentendpoint.go:394-411 | a call of WaitForTaskNotification returns only when there is a watcher, and queues no task but the saved one |
| NotificationCauses.CancellationHasItsCause | agentendpoint/agentendpoint.go:97-105 | the stream is cancelled exactly when its parent is or a Close has come that far with a started client, and the watcher leaves it for no other reason |
| NotificationCauses.CancellationStops | agentendpoint/agentendpoint.go:317-329 | once cancelled, with no closure past its look at the context, runTask never starts again |
| NotificationCauses.EveryTaskIsReal | agentendpoint/agentendpoint.go:300-369 | a queued task was asked for by a call, or stands for a notification that was received |
| NotificationCauses.NoticesRunInOrder | agentendpoint/agentendpoint.go:300-335 | runTask starts only for a notification received before, at most once for each, in the order received |
| NotificationProgress.PendingCanBeServed | agentendpoint/agentendpoint.go:300-368 | until something is cancelled or closed the locks cannot trap a pending notification: every interleaving can go on to a start of runTask |
| NotificationProgress.NotificationCanBeServed | agentendpoint/agentendpoint.go:300-368 | hence every notification dealt with can still get its run |
| ZypperInfo.ParseZypperPatchInfo | packages/zypper.go:281-422 | the nested loops over index and counter return what the scan by recursion finds, with each error, nil map and panic |
| ZypperPatterns.NameLineMeans | packages/zypper.go:309-309 | a name line holds `Name`, blanks and a colon somewhere |
| ZypperPatterns.ConflictsLineMeans | packages/zypper.go:307-307 | a conflict line holds `Conflicts`, a colon and digits or none in brackets, with blanks between, somewhere |
| ZypperPatterns.OneNumber | packages/zypper.go:308-308 | one number is found exactly when digits in brackets stand at one place only, and it is the one there |
| ZypperRoundTrip.LineNamesPackage | packages/zypper.go:378-403 | every well-formed package line yields the name printed in it |
| ZypperRoundTrip.NoArchLine | packages/zypper.go:391-403 | a name without architecture comes out whole exactly when it holds no dot |
| ZypperRoundTrip.LineIsRejected | packages/zypper.go:378-403 | a package line is an error exactly when it does not hold one `<`, or marks a source package with nothing but blanks after the first colon |
| ZypperRoundTrip.BareSourceIsRejected | packages/zypper.go:375-390 | a source package without version is such a line |
| ZypperRoundTrip.RoundTrip | packages/zypper.go:281-422 | printing any well-formed blobs, with any white space around the text, and parsing it gives for each package the patches that list it, in order and with multiplicity, or an error without any package |
| ZypperFaults.CountDecides | packages/zypper.go:352-413 | behind any well-formed blobs, a last one that declares any number: the parser panics exactly when the number is an int, larger than the list, and the reading runs off the end or past the largest int; a number beyond an int is an error, a smaller one reads the first lines |
| ZypperFaults.LastListForgets | packages/zypper.go:333-345 | the result is a nil map, whatever was read before, exactly when a last readable name has no conflict list behind it |
| ZypperFaults.LostListMisfiles | packages/zypper.go:333-347 | a name whose list is missing before another blob takes over that blob's list |
| ZypperFaults.MisfiledIff | packages/zypper.go:404-409 | what is then read of a package is right exactly when the other blob does not list it or both patches are one |
| ZypperPatch.RunFilter | ospatch/zypper_patch.go:185-218 | the loops select what the filter functions keep, in order |
| ZypperPatch.RunZypperPatch | ospatch/zypper_patch.go:100-183 | installs only outside a dry run, only announces in one, does nothing exactly when nothing is selected, fails exactly when a query that is made fails or cannot be read; the selection by membership for every combination of options |
| ZypperPatch.KeepConcat | ospatch/zypper_patch.go:185-218 | a filter judges names one by one: none is moved, doubled or lost |
| ZypperPatch.SelectionIsExact | ospatch/zypper_patch.go:185-218 | from zypper's printed text: an update is selected exactly when no blob, of an excluded patch or not, brings it, or a last name has lost its list; the patches are the non-excluded ones in order; the run fails exactly when nothing can be read |
| ZypperPatch.BroughtIsSelectedIff | ospatch/zypper_patch.go:200-206 | a package that a listed patch brings is selected exactly when a last name has lost its list |
| ZypperPatch.MisfiledSelectsTheSame | ospatch/zypper_patch.go:200-206 | a list lost before another blob does not change which packages count as brought |
| PackageCache.InstalledCaches.PopulateInstalledCache | config/package_resource.go:343-398 | a young cache is kept, an old one is refilled from the database, a failed query changes nothing |
| PackageCache.PackageResource.CheckState | config/package_resource.go:422-477 | in the desired state exactly when the name is in the cached database and INSTALLED is desired, or is not and REMOVED is; exactly when the answer is an error; the caches afterwards |
| PackageCache.PackageResource.EnforceState | config/package_resource.go:479-614 | the cache is emptied exactly when the command is going to be called, which panics for a desired state that is not set |
| PackageCache.AnswersAreRecent | config/package_resource.go:381-397 | whatever else changes the machine, an answer that is no error is that of membership in the database as it was less than three minutes ago |
| PackageCache.AnswersAreExact | config/package_resource.go:606-613 | a database changed through one manager only is answered for exactly by membership now |
| PackageCache.AnswerIsTrueIff | config/package_resource.go:381-397 | after any operations by anybody an answer is true exactly when the name is as present now as at the moment the check looks at |
| PackageCache.ErrorsAre | config/package_resource.go:346-475 | a check is an error exactly when the desired state is not set, or the query fails and no young cache stands in for it |
| PackageCache.SharedDatabases | config/package_resource.go:343-420 | which managers look at one database |
| PackageCache.OtherManagerMisleads | config/package_resource.go:334-341 | an instance: check, enforcement by another manager over the same database, wait; the answer is right exactly for unchanged names, until the cache ages |
| Retry.RetryFunc | retryutil/retry.go:53-70 | every error is retried after a sleep in the range of its attempt; it ends with the first success, or when some sleep of the attempt does not fit the time left, having slept no longer than allowed |
| Retry.RetryAPICall | retryutil/retry.go:73-107 | the same, retrying only retriable codes and waiting longer for an exhausted resource |
| Retry.SleepRange | retryutil/retry.go:35-50 | a sleep lies between neighbouring products unless 300 seconds cut it |
| Retry.EverySleepHappens | retryutil/retry.go:35-50 | every sleep in that range is slept for some draw |
| Retry.TotalBounds | retryutil/retry.go:35-107 | for every reply and draw the first twelve sleeps add up to between fixed sums of squares or products |
| Retry.CallCounts | retryutil/retry.go:53-107 | at most 12 calls in 600 s of API retries, 8 in 180 s and 6 in 60 s of RetryFunc |
| Retry.FailingCallCounts | retryutil/retry.go:53-107 | a call that never stops failing is made exactly 8, 5 to 6, and 8 to 12 times |
| Retry.TwelveCallsHappen | retryutil/retry.go:73-107 | the bound of twelve is reached |
| RecipeVersion.ConvertVersion | policies/recipes/recipe.go:76-95 | reads the components, or nothing |
| RecipeVersion.ToString | policies/recipes/recipe.go:25-31 | prints the components with dots between them |
| RecipeVersion.ConvertMeans | policies/recipes/recipe.go:76-95 | a text is read exactly when it is one to four parts between dots, each with an optional sign, digits and a value in range, and each part is read as its value |
| RecipeVersion.ConvertUndoesString | policies/recipes/recipe.go:25-95 | reading undoes printing on one to four components |
| RecipeVersion.ConvertedFits | policies/recipes/recipe.go:76-95 | what is read has one to four components in range |
| RecipeVersion.Trichotomy | policies/recipes/recipe.go:49-74 | two versions are ordered one way, the other way, or equal up to trailing zeros |
| RecipeVersion.LessIsTransitive | policies/recipes/recipe.go:49-74 | the order is transitive |
| RecipeVersion.SameIsCongruent | policies/recipes/recipe.go:49-74 | equality up to trailing zeros does not matter to the order, so it is a strict weak order |
| Recipes.Recipe.Compare | policies/recipes/recipe.go:49-74 | padding in place and comparing is that order, and the padded version means the same |
| Recipes.RecipeDB.Load | policies/recipes/recipedb.go:36-58 | the map that the file's list stands for |
| Recipes.RecipeDB.AddRecipe | policies/recipes/recipedb.go:67-102 | listing the map in any order and reading it back gives the map with the new entry, or the old one when nothing is written |
| Recipes.InstallRecipe | policies/recipes/installrecipe.go:31-120 | what one call leaves in the database, with failed steps, missing directories and failed writes, and when it reports success, also said of the steps one by one |
| Recipes.InstallMeans | policies/recipes/installrecipe.go:31-120 | worked on exactly when not recorded, or for an update to a newer version; recorded exactly when all steps work or the first that does not has failed; success exactly when nothing was to do or everything worked and was recorded |
| Recipes.VersionsOnlyGrow | policies/recipes/installrecipe.go:38-50 | over any calls a recorded recipe never disappears and its entry is untouched or has a greater version |
| Recipes.RetriedUnlessRecorded | policies/recipes/installrecipe.go:38-119 | a request is worked on again exactly when the call neither succeeded nor recorded the failure of a step |
| Recipes.SkippedIsUntouched | policies/recipes/installrecipe.go:38-47 | what is not worked on stays as it is, however often it is asked for |
| Fingerprint.HashedBytes | agentendpoint/inventory.go:744-774 | the bytes written to the hash |
| Fingerprint.AtMostMeans | agentendpoint/inventory.go:765-765 | the order sorted by is that of the first character in which two texts differ |
| Fingerprint.ConcatPlus | agentendpoint/inventory.go:767-771 | texts are written one after the other with nothing between them |
| Fingerprint.SortedIsUnique | agentendpoint/inventory.go:765-765 | a multiset of texts has one sorted form |
| Fingerprint.OrderDoesNotMatter | agentendpoint/inventory.go:744-774 | the hashed bytes are the same under any rearrangement of the packages, within and between the two lists |
| Fingerprint.OnlyIdentityMatters | agentendpoint/inventory.go:812-821 | of a Windows update only title, update id and revision matter |
| Fingerprint.EachFieldMatters | agentendpoint/inventory.go:812-821 | a change in any one of title, update id and revision changes the bytes |
| Fingerprint.SeparableInventoriesDiffer | agentendpoint/inventory.go:767-771 | when no text is empty or the beginning of another, inventories are hashed from the same bytes exactly when every text occurs equally often in both |
| Fingerprint.SinglesHashAlike | agentendpoint/inventory.go:744-774 | inventories of one package are hashed from the same bytes exactly when the packages' texts agree |
| Fingerprint.DifferentInventoriesHashAlike | agentendpoint/inventory.go:815-817 | any two Windows updates between whose title and id a part with its dash moves differ in both and are hashed from the same bytes |
| PackageChanges.GetNecessaryChanges | policies/changes.go:32-75 | the three lists in order |
| PackageChanges.ChangesAre | policies/changes.go:32-75 | which names they hold |
| PackageChanges.MissingConcat | policies/changes.go:44-72 | the names that are missing stay in their order, none doubled or lost |
| PackageChanges.PresentConcat | policies/changes.go:44-72 | so do the names that are present |
| PackageChanges.Apt.AptChanges | policies/apt.go:195-283 | returns without error exactly when the queries it makes work and each kind of change works at once or, for installing and removing, one by one; then exactly the wanted names are added and the unwanted ones removed that were there |
| PackageChanges.ConvergesIffDisjoint | policies/apt.go:195-283 | that end is as wanted, with nothing left to change, exactly when no name is both wanted and unwanted |
| Features.Config.ParseFeatures | agentconfig/agentconfig.go:149-161 | sets exactly the flags its list names |
| Features.Config.constructor | agentconfig/agentconfig.go:301-334 | after all successive writes each flag is what the last attribute says that mentions it, or off; also read off attribute by attribute |
| Features.NamesMeans | agentconfig/agentconfig.go:149-161 | a list names a feature when a word between its commas, trimmed and in lower case, is one of the feature's names |
| Features.ToLowerMeans | agentconfig/agentconfig.go:151-151 | lower-casing keeps the length and every printing ASCII character but the capital letters |
| Features.InstanceDecides | agentconfig/agentconfig.go:301-334 | the instance's disabled list is beyond appeal, then its main switch counts, then its pre-release lists, then its inventory attributes, the old one alone; without any metadata a flag is off |
| Features.DefaultShowsThrough | agentconfig/agentconfig.go:301-334 | a flag depends on what was set before exactly when no attribute mentions it |
| Features.InstanceOverrides | agentconfig/agentconfig.go:319-334 | a flag is independent of all project metadata exactly when the instance's metadata mentions it |

## Left out

- The suppression of a progress report sent within the last five seconds is an answer of the outside world, allowed only for a state already reported in this process.
- Two resumptions of one patch task in one process, and the server sending the same task anew, are outside the model of one task.
- A cancelled patch task is told apart from a failed one in the model; both go to the server as FAILED.
- The steps inside runUpdates, the reboot command and the reboot query are foreign calls that return or panic.
- Progress after either Close: the code keeps its locks for ever, so only safety is stated there.
- Enqueue called from inside a running task, and several clients at once, are not modelled; tasks of other clients count as other tasks.
- The retry counters and sleeps of the stream watcher are an arbitrary choice between going on, trying again and giving up; reading Closed without the lock is not modelled.
- ConfigTaskRun.RunApplyConfig: requires that policy ids are distinct in a task and resource ids in a policy, because the code keys its maps by id alone; validating and checking a resource never change the world.
- Recorded output, error messages and managed resources of config resources; the last are always empty in the code.
- The desired-state flag that a resource keeps after enforcing is not read again, and not modelled.
- Suppressed repeats of config progress reports: the two states differ, so none occurs.
- ZypperRoundTrip.RoundTrip: inside the white space around it the text begins and ends with a printing character; it has no more lines than an int holds, and the names of packages and patches are free of the separators the parser cuts at.
- ZypperFaults.LostListMisfiles: the free lines before the next blob's name hold no conflict line of their own.
- The patterns of the zypper parser are written out as functions on lines; lines are sequences of characters, not bytes.
- RunZypperPatch stops at the call of zypper install; listing patches and updates are queries with given results.
- Downloads, archive extraction, artifacts, package metadata caches and the commands themselves.
- PackageChanges.Apt.AptChanges: a command that works has exactly its named effect; dependencies that pull in or push out other packages are not modelled.
- A failing apt-get update is only logged by the code and has no effect in the model.
- The pkg.String form of a package is arbitrary text; the hash function itself, and the write errors of the hasher, which never occurs, are not part of the model.
- Poll intervals, log levels, endpoints and the other settings in the same function.
- Lower-casing knows the characters whose lower case is an ASCII letter.
- RPC transport, identity tokens, logging, tracing, pretty printing, inventory collection, exec steps, yum, googet and Windows update runs.
