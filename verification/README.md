# Verified models of kolla

kolla builds a forest of container images and installs configuration files when a container
starts.  This project models three of its parts in Dafny and proves what they promise.

**The image-build scheduler** (`kolla/image`).  `Images`, `Worker` and `Filtering` hold the objects
that `KollaWorker` mutates: `find_parents` links them, `filter_images` walks them in place, `build_queue`
seeds the queue, `get_image_statuses` fills the result dictionaries (`Reports`).  `Forest` says without
any walk or order what filtering is meant to compute.  `Attempts` and `Tasks` hold one attempt at a
build or a push as the sequence of statuses it writes.  `Protocol` is the concurrent part: build
workers and push workers over two queues, and the main thread that starts, polls and stops them, as
a step relation in which every queue operation and every access to a shared status is a step of its own.
A run is any interleaving; what the engine, git and HTTP do is an input of the step.  The log of
events is a history variable that no step reads.  `Refinement` shows that the steps of one attempt do
what the objects of `Tasks` do.  `Counting`, `CountingSteps`, `Drain`, `StatusHistory`, `StatusFacts` and `Scheduler` build the
invariant; `Runs`, `Outcomes`, `Termination`, `Shutdown` and `Results` state what follows for all runs.

**The configuration installer** (`docker/base/set_configs.py`).  A file system is a map from paths to
nodes, a node being a file or a directory with attributes.  `ConfigFiles` copies and merges trees in
place, `Merging`, `Copying` and `Overlays` say what that means, `Paths` holds the path strings.
`Defaults` is the persistent state machine that backs up, restores and removes, `Permissions` what runs after
the copy; `Tracking`, `Drift`, `RoundTrip`, `Restarts` and `Timeline` say what happens over sequences of starts.

**Repository commands** (`kolla/template/methods.py`).  `Repos` compiles repository records to a chain
of shell commands exactly as the templates render it; `Installed` runs the chain; `Records` spells out the
resulting files line by line.

## What turned out not to hold

- The result dictionaries are disjoint only if equal image names fall into the same section
  (`Reports.PartitionIff`, with the input of `Reports.SameNameTwice`).
- A failed build can leave an image BUILDING.  This happens exactly if fetching the source raised, or if an
  archive stage stopped without a status: an item raised, an archive raised or was rejected, or packing raised
  (`Tasks.StuckBuildingIff`, with the input of `Tasks.RejectedPluginSticks`).
- An ERROR set while squashing is overwritten by BUILT, exactly if every stage before worked and the parent
  layer to squash onto is not found (`Tasks.SquashErrorLost`, with the input of `Tasks.LayerMissingIsBuilt`).
- The docstring of `get_defaults_state` (lines 421-424) says that the state file keeps the state of the
  first start.  The code swaps the two paths of every entry at every start and saves the result, so only
  every other restart restores; the one in between overwrites the backup by what the path holds
  (`Restarts.RestartByAge`, `Restarts.OriginalKeptIff`).  With one configuration this happens at the third
  start: the backup then holds the configured tree (`Timeline.BackupReplaced`, `Timeline.ConfigInPlace`,
  with the input of `Restarts.OriginalIsLost`).
- The drift check of the same configuration complains right after a first start that got through to its end
  if and only if some entry without a destination has a source when `backup_configs` reaches it
  (`Tracking.FirstStartDriftIff`, with the input of `Drift.EmptyDestinationDrifts`).  The copy lets such an
  entry pass only if it is optional and its source is gone by then, so without an optional entry of this
  kind the check never complains (`Tracking.FreshNeverDrifts`).
- In disable mode the commands are chained correctly if and only if at most one rpm repository of the
  distribution is listed (`Installed.DisableChainedIff`, with the input of `Installed.TwoRepositoriesRunTogether`).

## Model

| member | source | states |
|---|---|---|
| Images.LastIsRegistered | kolla/image/kolla_worker.py:794-795 | of images with one canonical name the dictionary keeps the last |
| Images.RegisteredFacts | kolla/image/kolla_worker.py:794-795 | the dictionary holds images of the list, under different names |
| Images.RegisteredInOrder | kolla/image/kolla_worker.py:794-795 | the dictionary keeps the order in which the names are first met |
| Images.NamingParentInOrder | kolla/image/kolla_worker.py:798-801 | the children of an image are in the order of the dictionary |
| Worker.KollaWorker.LinkChildren | kolla/image/kolla_worker.py:798-801 | the inner loop: all images naming `parent`, and no others, become its children, in order, and get it as parent |
| Worker.KollaWorker.FindParents | kolla/image/kolla_worker.py:790-801 | afterwards registered images are linked to the image they name, and images shadowed by an equal name not at all |
| Worker.ParentLink | kolla/image/kolla_worker.py:797-801 | a parent found is an image of the list, has the name asked for, and lists the image as child |
| Worker.ChildLinks | kolla/image/kolla_worker.py:797-801 | children are different images of the list whose parent this is |
| Worker.FoundIsLinked | kolla/image/kolla_worker.py:790-801 | children lists and parent links are mutually inverse and free of duplicates |
| Worker.FoundIff | kolla/image/kolla_worker.py:790-801 | one image is the parent of another iff it has the name asked for and both are the last of their names in the list |
| Worker.KollaWorker.CheckAncestors | kolla/image/kolla_worker.py:461-475 | the early-stopping walk says exactly whether the image is doomed, and marks only doomed images |
| Worker.KollaWorker.MarkUnbuildable | kolla/image/kolla_worker.py:457-475 | for any order of images, exactly the listed images and their descendants become unbuildable |
| Worker.KollaWorker.MatchAncestors | kolla/image/kolla_worker.py:493-498 | the walk that stops at a matched parent closes the matched images under parents and overwrites no unbuildable one |
| Worker.KollaWorker.MatchImages | kolla/image/kolla_worker.py:484-505 | matched afterwards are exactly the buildable images with a wanted, buildable descendant or self; unmatched the others |
| Worker.KollaWorker.SkipImages | kolla/image/kolla_worker.py:507-517 | exactly the matched images that are cached or are parents to be skipped become skipped |
| Worker.KollaWorker.FilterImages | kolla/image/kolla_worker.py:427-517 | for every acyclic forest and any order: which images are unbuildable, unmatched, skipped and matched, in terms of names, ancestors, filter and options alone |
| Forest.ExpectedFiltered | kolla/image/kolla_worker.py:427-517 | the specification used inside the passes means this |
| Forest.SmallFiltered | kolla/image/kolla_worker.py:427-517 | a forest of six images with all four results |
| Filtering.MatchingParent | kolla/image/kolla_worker.py:493-498 | the parent of a matched image is never unbuildable, so matching it is sound |
| Filtering.MatchingDoneAt | kolla/image/kolla_worker.py:484-505 | once the matched images are closed under parents, the walks have reached everything needed |
| Forest.ParentsNeeded | kolla/image/kolla_worker.py:493-498 | what is needed and buildable has a parent that is needed and buildable |
| Forest.OrderIrrelevant | kolla/image/kolla_worker.py:457-505 | renumbering the images changes neither which are unbuildable nor which are needed |
| Forest.OrderIrrelevantToStatus | kolla/image/kolla_worker.py:427-517 | the status given to an image does not depend on the order of the list |
| Forest.FilteredPlanIsValid | kolla/image/kolla_worker.py:506-517 | after filtering, each matched image has no parent, or a matched or skipped one |
| Forest.SeedXorFollowup | kolla/image/kolla_worker.py:811-822 | each matched image is either seeded or a followup of exactly one matched parent: never both, never neither |
| Worker.KollaWorker.BuildQueue | kolla/image/kolla_worker.py:803-824 | the queue is exactly the one the scheduler model starts with |
| Worker.KollaWorker.Prepare | kolla/image/build.py:144-175 | linking, filtering and seeding give a valid plan and the build queue of its start state, so all results about runs apply |
| Worker.KollaWorker.GetImageStatuses | kolla/image/kolla_worker.py:626-659 | the first call tells of every image, dictionary by dictionary and status by status; later calls return the same unchanged |
| Reports.CollectedTells | kolla/image/kolla_worker.py:640-653 | each dictionary holds exactly the names of images with its status, failures by whether they are allowed; shown is the last failure |
| Reports.AllowedFailure | kolla/image/kolla_worker.py:648-651 | input: a failure that is allowed is in its dictionary and nowhere else |
| Worker.KollaWorker.ReportTwice | kolla/image/kolla_worker.py:626-659 | the cached second answer equals a recomputation, and its exit code is 0 iff all images end acceptably |
| Reports.KeysAre | kolla/image/kolla_worker.py:640-653 | a dictionary holds exactly the names of the images of its section |
| Reports.LastWins | kolla/image/kolla_worker.py:640-653 | the status shown is that of the last image of the section with the name |
| Reports.NamesConserved | kolla/image/kolla_worker.py:640-659 | the six dictionaries together hold exactly the image names |
| Reports.PartitionIff | kolla/image/kolla_worker.py:640-659 | they are disjoint iff equal names are always in the same section |
| Reports.SameNameTwice | kolla/image/kolla_worker.py:640-653 | input for which one name is reported as built and as failed |
| Reports.EmptyIff | kolla/image/kolla_worker.py:627-632 | the report is recomputed only when there are no images |
| Reports.ExitCodeIff | kolla/cmd/build.py:33-39 | the exit code is 0 without a report, else 0 or 1, and 0 iff each image ends BUILT, UNMATCHED, SKIPPED or UNBUILDABLE or may fail |
| Results.ZeroMeansDelivered | kolla/cmd/build.py:33-39 | after a drained run the exit code is 0 iff every image to be built was built and, with push, last pushed successfully, or may fail |
| Tasks.BuildTask.ProcessItems | kolla/image/tasks.py:314-319 | the item loop stops at the first failure or exception, with the status of that failure |
| Tasks.BuildTask.MakeAnArchive | kolla/image/tasks.py:309-356 | the status writes and the way it ends are those of the verdict on the archive |
| Tasks.BuildTask.Builder | kolla/image/tasks.py:358-476 | the guards and the writes of one attempt, in order, with the final status and the exception |
| Tasks.BuildTask.Run | kolla/image/tasks.py:159-162 | excluded images are left alone, an error status of the parent gives PARENT_ERROR, else the attempt is made; `success` is set exactly when it did not raise and the image is BUILT or SKIPPED |
| Tasks.BuildTask.Followups | kolla/image/tasks.py:164-182 | a transfer iff push is on and the build succeeded; every child that is not UNMATCHED, SKIPPED or UNBUILDABLE exactly as often as it is listed, in the order of the list, and nothing else |
| Tasks.PickedIsKept | kolla/image/tasks.py:176-181 | the positions of the followed-up children determine them: no other choice meets the contract |
| Tasks.KeptCounts | kolla/image/tasks.py:176-181 | a child is followed up as often as it is listed if it was not excluded, else never |
| Tasks.PushTask.Run | kolla/image/tasks.py:95-141 | BUILT, CONNECTION_ERROR or PUSH_ERROR by outcome; `success` iff the push went through, which resets earlier errors |
| Tasks.BuiltIff | kolla/image/tasks.py:374-476 | an attempt ends BUILT iff no stage failed, an unfound squash layer not counting as failure |
| Tasks.AttemptEnds | kolla/image/tasks.py:303-476 | an attempt ends with ERROR, and with CONNECTION_ERROR, exactly for these outcomes of source, items, directory and engine |
| Tasks.AttemptRaises | kolla/image/tasks.py:303-476 | an exception leaves the attempt exactly if the source raised, or an item, an archive or packing of a stage that was reached did |
| Tasks.StuckBuildingIff | kolla/image/tasks.py:303-424 | the image stays BUILDING iff the source raised, or plugins or else additions stopped without a status: which items, archives and packing outcomes these are is spelled out |
| Tasks.SquashErrorLost | kolla/image/tasks.py:448-473 | an ERROR is written and does not last iff every stage worked and squashing found no parent layer; the writes are then BUILDING, ERROR, BUILT |
| Tasks.StopsSilentlyIff | kolla/image/tasks.py:309-356 | an archive stage ends without a status iff an item raises before any fails, or all are delivered and an archive is no good, or packing what was delivered raises |
| Tasks.RejectedPluginSticks | kolla/image/tasks.py:321-329 | input: a plugin archive that is rejected, and the image stays BUILDING |
| Tasks.LayerMissingIsBuilt | kolla/image/tasks.py:448-473 | input: a squash without parent layer, and the image ends BUILT |
| Refinement.BuildAlone | kolla/image/build.py:71-84 | the steps of one build attempt, not interleaved, have the status, success and next try of `BuildTask.run` |
| Refinement.PushAlone | kolla/image/build.py:71-84 | the same for a push attempt |
| Refinement.FollowupsAlone | kolla/image/tasks.py:164-182 | the steps that evaluate the followups end with the transfer, if push is on, and one build task for each image that `Followups` picks, in order |
| Scheduler.RunInv | kolla/image/build.py:63-91 | the invariant holds after every schedule |
| Scheduler.InvWork | kolla/image/build.py:63-91 | every step of every worker keeps the invariant |
| CountingSteps.CountedWork | kolla/image/build.py:85-91 | every worker step keeps the count of each task: created exactly as often as it is due, queued, held or closed |
| Drain.TalliedWork | kolla/image/build.py:85-91 | every worker step keeps: the unfinished counter is the tasks queued or in flight plus all tombstones put |
| Runs.OneWriter | kolla/image/build.py:63-91 | in every reachable state at most one queued or running task can still write the status of an image |
| Runs.OneWritingWorker | kolla/image/build.py:71-84 | two workers writing the status of one image are the same worker |
| Runs.ParentsFirst | kolla/image/tasks.py:164-182 | a build task of a child is queued, and writes, only after its parent was written BUILT by its own build |
| Runs.TwoReads | kolla/image/build.py:193-194 | build counter read as zero and later push counter read as zero: no task is left then or ever after |
| Runs.DrainIsFinal | kolla/image/build.py:192-198 | once the polling loop is left no task is left in any later state |
| Outcomes.ExactlyOnce | kolla/image/tasks.py:159-182 | in a drained run a matched image gets exactly one build task iff the chain above it was built, else none, and stays MATCHED |
| Outcomes.DrainedCounts | kolla/image/build.py:85-91 | in a drained state every task ever created is taken, decided and closed, and there are exactly as many as were due |
| Outcomes.EndStatus | kolla/image/tasks.py:95-141 | in a drained run each built image gets exactly one push task if push is on, and ends BUILT iff its last push attempt succeeded |
| Outcomes.ParentErrorOnlyByPush | kolla/image/tasks.py:367-372 | PARENT_ERROR needs push and an error written earlier by a push of the parent |
| Outcomes.ExcludedUntouched | kolla/image/kolla_worker.py:811-818 | unmatched, skipped and unbuildable images never get a task or change status |
| Outcomes.AttemptBound | kolla/image/build.py:71-91 | at most (retries+1)*B build attempts, as many push attempts and B transfers are begun in any run |
| Outcomes.BegunIs | kolla/image/build.py:71-84 | the attempts a schedule begins are those that ended and those still running |
| Outcomes.AttemptsPerImage | kolla/image/build.py:71-84 | counting attempts over the run or image by image gives the same |
| Termination.MeasureWork | kolla/image/build.py:63-91 | every step of a worker decreases the measure |
| Termination.MeasureMain | kolla/image/build.py:178-204 | the main thread does not increase it |
| Termination.BoundedWork | kolla/image/build.py:63-91 | worker steps so far plus the measure never exceed the measure at the start: every schedule is finite |
| Termination.StartMeasure | kolla/image/build.py:63-91 | the bound in closed form |
| Shutdown.TombStays | kolla/image/build.py:65-69 | on both paths a tombstone, once put, is in its queue or held by a worker about to put it back |
| Shutdown.NoDeadlock | kolla/image/build.py:196-204 | after the tombstones, while a started worker has not stopped some worker can step |
| Shutdown.AllStop | kolla/image/build.py:196-204 | when no worker can step any more, all started workers have stopped |
| Shutdown.Progress | kolla/image/build.py:178-194 | while tasks are left and the main thread polls, some worker can step |
| Shutdown.PollingEnds | kolla/image/build.py:192-198 | when no worker can step during polling, both counters are zero and the next reads leave the loop |
| Shutdown.CanDrain | kolla/image/build.py:178-198 | every reachable state of the polling loop can be continued until the loop is left, with nothing left to do |
| Shutdown.AtMostOneMore | kolla/image/build.py:63-89 | a worker told to stop takes at most one more item, only if it was waiting, begins no attempt, and follows up no task unless it was at it |
| Paths.LastPiece | docker/base/set_configs.py:521-524 | the last piece of a split is the base name |
| Paths.ResolversAgree | docker/base/set_configs.py:615-620 | the resolvers of backup and of check give the same path for every entry |
| Paths.DestinationIs | docker/base/set_configs.py:157-163 | a resolved destination is the one written, with what follows the last slash of the source appended iff it ends with a slash |
| Paths.ResolvedHasDirname | docker/base/set_configs.py:127-130 | whether a resolved destination has a parent to create is decided by the destination as written |
| Paths.ComponentsConcat | docker/base/set_configs.py:525 | the backup of an absolute path lies below the directory of the defaults |
| Paths.ComponentsAre | docker/base/set_configs.py:525 | the names on a path, by cases that determine them: nothing, one name, two sides of a slash |
| Restarts.BackupPlace | docker/base/set_configs.py:521-525 | the backup of an absolute path is at the same place below `/etc/kolla/defaults` |
| ConfigFiles.ConfigFile.CopyFile | docker/base/set_configs.py:91-100 | a copied file replaces whatever was at the destination |
| ConfigFiles.ConfigFile.MergeDirectories | docker/base/set_configs.py:102-116 | the recursion computes the overlay of the source on the destination, and ends because source trees shrink |
| ConfigFiles.ConfigFile.CreateParentDirs | docker/base/set_configs.py:127-130 | missing ancestors are created; it fails, and changes nothing, iff the dirname is empty or an ancestor is a file |
| ConfigFiles.ConfigFile.Copy | docker/base/set_configs.py:149-176 | every copied node with content, owner and mode; what is kept, replaced or removed below the destination; parents; and which exception, in each case and for every file system |
| Overlays.CopyMeansOne | docker/base/set_configs.py:149-176 | this contract determines the resulting file system and the exception |
| FileSystems.PlacedMeans | docker/base/set_configs.py:132-147 | the properties of a copy: those of the source, or the configured owner and mode, directories being searchable by whom the mode lets read or search |
| Overlays.OwnerApplied | docker/base/set_configs.py:132-147 | input: a file of root becomes one of its service with mode 0600 |
| Merging.NextChild | docker/base/set_configs.py:111-114 | a recursive call is on a smaller source tree, apart from its destination |
| Merging.MergedNext | docker/base/set_configs.py:111-114 | merging one more child extends what has been merged by the overlay of that child |
| Merging.MergedEnd | docker/base/set_configs.py:102-116 | with all children merged the result is the overlay |
| Merging.FileIsOverlay | docker/base/set_configs.py:91-100 | copying a file is the overlay of a one-node tree |
| Copying.OverlayAfterDelete | docker/base/set_configs.py:165-169 | deleting, creating parents and merging is a replacement of the tree |
| Overlays.OverlayIdempotent | docker/base/set_configs.py:102-116 | merging twice is merging once |
| Overlays.ReplacedIsSource | docker/base/set_configs.py:149-169 | without merge the destination is exactly the source tree; nothing else but created parents changes |
| Overlays.MergedIsUnion | docker/base/set_configs.py:102-116 | with merge directories are united, the source wins elsewhere, and the source is unchanged |
| Overlays.CopiedWF | docker/base/set_configs.py:149-176 | every node still lies in a directory afterwards |
| Defaults.Container.RemoveOrRestoreConfigs | docker/base/set_configs.py:476-498 | file system, swapped state and exception are those of the specification, also when a copy fails half way |
| Defaults.Container.BackupConfigs | docker/base/set_configs.py:501-537 | the same for the backup loop with all its skips |
| Defaults.Container.HandleDefaults | docker/base/set_configs.py:540-556 | restore, then back up, and save the state only if nothing failed |
| Defaults.Container.CopyConfig | docker/base/set_configs.py:315-334 | entries are copied in order up to the first failure; the command is written only if none failed |
| Defaults.CopyStops | docker/base/set_configs.py:315-320 | copying works iff each entry can be copied onto what the ones before it left; else it stops with the first that fails |
| Defaults.Container.ExecuteConfigStrategy | docker/base/set_configs.py:559-577 | the three strategies and the marker, with the permissions set after the copy; a second start with COPY_ONCE changes nothing |
| Permissions.HandlePermissions | docker/base/set_configs.py:347-410 | the entries are applied one after the other |
| Permissions.HandlePermission | docker/base/set_configs.py:347-410 | owner and mode are set on the path, and with `recurse` on every node below it, in whatever order the walk visits; nothing else changes |
| Permissions.AllPermittedMeans | docker/base/set_configs.py:347-348 | each entry does this to what the ones before it left |
| Permissions.PermittedShape | docker/base/set_configs.py:361-410 | only attributes change, and only of nodes that the entry reaches |
| Permissions.PermittedIdempotent | docker/base/set_configs.py:361-410 | applying an entry twice is applying it once |
| Defaults.Container.CheckTracking | docker/base/set_configs.py:610-636 | raises iff some tracked path differs from every destination of the configuration, as written or with the base name of the source behind a final slash |
| Tracking.HandledState | docker/base/set_configs.py:553-556 | a start that works swaps every old entry once and adds fresh ones behind them, for destinations of its configuration |
| Tracking.KeysOnlyGrow | docker/base/set_configs.py:488-498 | over any start keys and their order stay, null backups stay null, the pair of paths of an entry stays |
| Tracking.SourceIsKeyIff | docker/base/set_configs.py:496 | after any history an entry with a backup has its own path as source iff it was swapped an even number of times |
| Tracking.KeysDistinct | docker/base/set_configs.py:530-537 | no path is tracked twice |
| Tracking.TrackedComesFrom | docker/base/set_configs.py:516-537 | every tracked path was a destination of the start that added it |
| Tracking.TrackedIff | docker/base/set_configs.py:516-537 | a path is tracked after `backup_configs` iff it was before or an entry resolves to it whose source exists at its turn and whose destination is not yet tracked |
| Tracking.DroppedIsReported | docker/base/set_configs.py:610-636 | once a path is tracked, the check raises for every later configuration that does not list it, whatever happened in between |
| Drift.RemovedFileDrifts | docker/base/set_configs.py:610-636 | input: a tracked file that is no longer listed, and one that is |
| Tracking.DriftIff | docker/base/set_configs.py:610-636 | after a start that worked the check raises iff it would have raised on the earlier state, or the start reaches an entry without destination whose source exists then |
| Tracking.FreshDriftIff | docker/base/set_configs.py:610-636 | the same for `handle_defaults` on a fresh container, as a condition on its file system and entries alone |
| Tracking.FirstStartDriftIff | docker/base/set_configs.py:610-636 | the same for a first start that also copied everything; entries without destination are then optional and were missing at the copy |
| Tracking.FreshNeverDrifts | docker/base/set_configs.py:610-636 | a first start that got through to its end never drifts if no optional entry lacks a destination |
| Drift.SourceAtItsTurn | docker/base/set_configs.py:516-537 | for a source that no earlier backup touches, existing at its turn is existing before the start |
| Drift.EmptyDestinationDrifts | docker/base/set_configs.py:610-636 | input: a first start that gets through to its end and drifts |
| Tracking.StateStaysSound | docker/base/set_configs.py:540-556 | what the next start asks of the saved state holds after any history |
| RoundTrip.FirstStart | docker/base/set_configs.py:516-537 | the first start saves the original tree of every path it tracks, or records its absence, and changes nothing outside the directory of the defaults |
| RoundTrip.RestartLoop | docker/base/set_configs.py:488-498 | a restart makes every entry's source tree a copy of its destination tree, entries not disturbing each other |
| RoundTrip.RestartWorksIff | docker/base/set_configs.py:488-498 | the restoring pass works iff each single copy is possible on the file system it starts with |
| RoundTrip.FirstRestart | docker/base/set_configs.py:476-498 | whatever happened in between outside the saved defaults, the first restart gives every tracked path its original tree and attributes, or absence |
| Restarts.FirstStartFailsIff | docker/base/set_configs.py:540-556 | on a container without saved defaults `handle_defaults` fails iff a file stands where their directory has to be |
| Restarts.ConfigCopyHarmless | docker/base/set_configs.py:315-320 | copying the configuration, however far it gets, leaves the saved defaults and the ancestors of destinations alone |
| Restarts.StartThenRestart | docker/base/set_configs.py:540-556 | first start, configuration copy and restoring pass of the first restart compose to the identity on every tracked path, without error |
| Restarts.RestartByAge | docker/base/set_configs.py:495-498 | after any history a restoring pass that works restores entries of even age and overwrites the backups of those of odd age |
| Restarts.OriginalKeptIff | docker/base/set_configs.py:495-498 | at an odd age the backup keeps the original iff the tracked path holds the original when the restart begins |
| Restarts.OriginalIsLost | docker/base/set_configs.py:495-498 | input for which a restoring pass at odd age replaces the saved original by the configuration |
| Timeline.BackupReplaced | docker/base/set_configs.py:540-577 | for all inputs, over start, copy, start, copy, start: the backup, first the original, holds in the end what the path held after the second copy |
| Timeline.ConfigInPlace | docker/base/set_configs.py:315-320 | what the path holds after a copy: the tree of the configured source |
| Timeline.HistoryIsSpread | docker/base/set_configs.py:516-537 | starts with parts of one separate configuration keep the tracked paths apart from each other and from the backups |
| Restarts.NothingToBackUp | docker/base/set_configs.py:516-519 | a start whose destinations are all tracked only restores |
| Repos.EnableRpm | kolla/template/methods.py:140-183 | the text is the chain that writes the header and appends the lines of the record, with KeyError exactly for missing keys |
| Repos.EnableDeb | kolla/template/methods.py:191-204 | the same for the deb templates |
| Repos.HandleRepos | kolla/template/methods.py:98-216 | KeyError iff some name has no record or its record lacks a key that is read; else the text of the chunks of all names, separated in enable mode |
| Repos.RecordInForce | kolla/template/methods.py:128-134 | the record of distribution and architecture wins, then that of the distribution, then that of the package type |
| Repos.ChunksFail | kolla/template/methods.py:136-212 | which names and records raise KeyError, on the repository data alone |
| Repos.SplitLinesAre | kolla/template/methods.py:156-173 | the lines of a value contain no newline and make up the value |
| Repos.TrailingIsJoined | kolla/template/methods.py:185-186 | separators after all but the last repository put exactly one between neighbours |
| Installed.ChunkEffect | kolla/template/methods.py:136-207 | one chunk of enable mode installs exactly the described file, whatever was there, or switches the distribution's repository on |
| Installed.FilesAsDescribed | kolla/template/methods.py:136-207 | after the whole chain, from any files, every listed repository that is not the distribution's has exactly its described file |
| Records.InstalledDebFile | kolla/template/methods.py:191-204 | the file that the record in force gives, line by line |
| Records.InstalledRpmFile | kolla/template/methods.py:140-183 | the same for rpm: header, switches, one line per key, and the origin |
| Records.ArchitectureWins | kolla/template/repos.yaml:53-67 | input: two records for rabbitmq on Debian; on aarch64 the file names the architecture of the second |
| Records.CommandTexts | kolla/template/methods.py:21-46 | the four kinds of commands as text |
| Records.ChainText | kolla/template/methods.py:185-186 | a chain is joined by `&&` |
| Installed.OtherFilesKept | kolla/template/methods.py:136-207 | every other file is unchanged |
| Installed.DistroEnabled | kolla/template/methods.py:166-183 | a repository of the distribution is switched on and its added lines follow what its file had |
| Installed.EnableIsOneChain | kolla/template/methods.py:185-216 | the text of enable mode is one RUN instruction chaining all commands with single separators |
| Installed.RunFlat | kolla/template/methods.py:136-216 | running that chain is running the chunks in order |
| Installed.DisableChainedIff | kolla/template/methods.py:188-189 | the text of disable mode is one instruction with a correct chain iff at most one rpm repository of the distribution is listed |
| Installed.DisableCount | kolla/template/methods.py:136-189 | disable mode has as many commands as rpm repositories of the distribution are listed |
| Installed.TwoRepositoriesRunTogether | kolla/template/methods.py:188-189 | input: two such repositories, whose commands follow each other without a separator |

## Left out

- Docker and podman calls, git, HTTP, checksums and tar handling: an attempt takes their outcomes as input.
- Rendering of templates, work directories, option registration, logging, summaries and graph output.
- Regular expressions and profiles: the filter is an arbitrary predicate on names, and the sets of unbuildable and cached names are inputs.
- A second KeyboardInterrupt, one that arrives while the threads are joined, and the join timeouts: no further step of a worker depends on them.
- Options of the build command read by the scheduler are fixed for a run; both thread counts are at least 1, which `kolla/common/config.py` asks for.
- BoundedWork: bounds the steps of the workers; how often the main thread polls before it sees both counters at zero is up to the schedule (PollingEnds and CanDrain say that it can).
- FindParents: asks that the images were not linked before, as the only caller does; a second call would list children twice.
- FilterImages: asks for a ranking that shows the FROM lines to be free of cycles; on a cycle the unbuildable walk does not end.
- LinkChildren: an image that names itself is covered here but excluded by the ranking later.
- Sharing of `Image` objects between threads: the concurrent part uses positions in the list; `Prepare` connects the two.
- Symbolic links, glob patterns, `.` and `..` in paths, time stamps and permission failures: names of paths are literal, a source is one path, the current directory is the root.
- A trailing slash after the name of a regular file: `Components` drops it, so such a source exists in the model.
- Copy: asks that source and destination are not inside each other; the code does not check it and the recursion would copy into itself.
- The files of the script itself (state file, `/run_command`, `/configured`) are fields of the container, not nodes of its file system; a backup that lands on the state file is not seen.
- HandlePermissions: exclusions, glob patterns, the parsing of mode strings and the set-user-ID bits that the kernel may clear when an owner changes are not modelled.
- `check`, `_cmp_file` and `_cmp_dir`: the content part of the check is not modelled; `_cmp_dir` compares directories at a wrong path, so nothing is claimed for it.
- Users and groups exist; an owner is an opaque string.
- CheckTracking: models the part of `execute_config_check` up to line 636.
- StartThenRestart: asks for absolute destinations that are not inside each other or the defaults directory; nested ones would restore over each other.
- OtherFilesKept: a record's own file is excluded even if the same name is listed as a repository of the distribution with added lines.
- Quotes in repository values, and line ends other than the newline in multi-line values.
- The TypeError of `handle_repos` for an argument that is not a list.
- `debian_package_install`: joining two lists with a separator, no property that spans operations.
