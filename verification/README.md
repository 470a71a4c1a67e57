# SyncHarbor in Dafny

SyncHarbor keeps one local folder and any number of clouds equal. A change on one replica becomes a tree of
commands that first reaches the local folder and then every other cloud; a database of rows and links says
which local file is which file of each cloud. This project models the logic of the program and proves what
it keeps and where it ends.

The modules, from the bottom up:

- `Common`, `Schema`, `PathIndex`, `Store`, `Records`: paths, the tables as values, the missing part of a
  path, the database object whose methods perform one statement each, and the payloads of commands.
- `ActiveCount`, `ThreadSafeQueue`, `HttpClient`, `CallbackDispatcher`: the executors and the counter other
  threads wait on.
- `EventRegistry`: expected events, and which report each of them suppresses.
- `Commands`, `Engine`: command trees and factories; the change engine as interleaved steps of the main
  thread, the HTTP worker and the callback worker.
- `Scheduler`: one running change per path, with the others hanging on it as nested dependents. The providers
  only emit changes whose dependents are for other paths, which is what its refinement needs.
- `Disk`, `DirectoryMove`, `LocalStorage`, `Propagation`: the local stage of a change, the re-indexing of a
  moved tree, and the spread of a change to all clouds in any order.
- `Emission`, `Google`, `GoogleLaws`, `Dropbox`, `DropboxLaws`: how reported entries become changes, and why
  an applied entry falls silent.
- `Workspace`, `PathCreation`: all replicas together, and the creation of a path everywhere.
- `Listing`, `Reconcile`, `Push`, `InitialSync`: the initial synchronisation, from the first scan to the last
  wait.

Values are used where the program computes values, objects and loops where it updates state. Threads are
state machines whose steps interleave freely. Time, inode numbers, check sums, server ids and server answers
are arbitrary values: methods such as `Workspace.Stat`, `Workspace.ServerId` and `Push.ServerHash` promise
nothing, or freshness only, so that what is proved holds for whatever the outside returns.

## Where the code does not meet the expectation

These are proved as exact conditions; the code is modelled as it is.

- **Updates of Dropbox files.** An update is written below the root of the account, every other request below
  the home folder (src/dropbox.cpp:161 against 82, 110, 186, 239, 311, 348). Unless the home folder is the
  root, the file keeps its old version (`InitialSync.HomeBelowRootKeepsOldVersion`). What happens at the other
  place depends on what stands there. A file is replaced, which may be another synchronised one
  (`InitialSync.UpdateHitsAnotherFile`). Where nothing stands a new file appears, possibly below the home folder
  (`InitialSync.UpdateAddsAFile`), and an update is sent even for a file that is the same everywhere. A new file
  where a folder is still to be created makes path creation throw (`InitialSync.UpdateObstructsAFolder`).
  `InitialSync.MissedExactly` and `InitialSync.StrayIsAdded` say which files are missed and added. Where a stray
  update meets an upload or a new folder the order of the two decides (`Push.TheLaterWriteStays`,
  `Push.TheEarlierFileStays`, `Push.TheEarlierKindStays`).
- **Uploads between Google clouds.** In the push phase of the initial synchronisation an upload carries the
  parent id of its record. If the winner came from one Google cloud and another Google cloud has nothing at
  the path, the id names a folder that the target does not have. `Push.AcceptedExactly` shows that nothing
  else is refused, `InitialSync.TwoGoogleCloudsDiverge` gives a start on which it happens.
  `InitialSync.IdenticalExactly` joins these conditions.
- **Names with a slash.** Google allows a slash in a name. Such a name becomes several path components but is
  later compared with the last one, so that the entry emits a move again and again. `GoogleLaws.NoSyncLoop`
  gives the exact condition, `GoogleLaws.SlashNameMovesAgain` an entry.
- **Moved out and renamed.** A Google file that leaves the tree under a new name is deleted under a path it
  never had locally (`GoogleLaws.DeletionPathExact`, at an entry `GoogleLaws.MovedOutIsDeletedElsewhere`).
- **The barrier.** The three waits are sound for the two-stage trees of the initial synchronisation but not for
  the trees of the factories: `Engine.BarrierExactForFactories` says for which, and runs one past it.
- **At the request limit.** A request is taken from the queue before the limit is tested, and then destroyed
  (`HttpClient.AdmitAllDropsExactlyAtLimit`); `HttpClient.LimitDestroys` runs into it, and
  `HttpClient.DestroyedKeepsBusy` shows that waiting for idleness never ends after that.

## Model

| member | source | states |
|---|---|---|
| `InitialSync.InitialSync` | src/sync-manager.cpp:250-553 | for every order of paths, clouds, candidates and completions, unless the creation of a path throws, which it cannot if no stray update obstructs a folder: the local folder ends with the winning version of every file; a cloud that lacked the file receives the winner unless its upload is refused or meets a stray update; a cloud that held it ends with the update that lands there, or what was there; below a Dropbox home nothing else stands but files that stray updates have added, all of those that had to be; every known path has exactly one row, which describes the local node, every folder is linked in each cloud, and every file in each cloud that holds it, and its link shows what was listed, or the answer to the file's own last request |
| `InitialSync.IdenticalExactly` | src/sync-manager.cpp:429-535 | all replicas end with the same paths, kinds and contents, and nothing else below a home folder, only if no upload is refused, no file missed and no file added, and, unless an upload meets the update of another path, exactly then |
| `InitialSync.MissedExactly` | src/dropbox.cpp:161 | below a Dropbox home other than the root a file is missed exactly when it is sent an update with other contents, as long as no update of another path lands on it |
| `InitialSync.NotMissed` | src/dropbox.cpp:161 | no file is missed in a Google cloud or below the root of a Dropbox account |
| `InitialSync.LinksShowNodes` | src/commands.cpp:205-271 | in a Google cloud and below the root of a Dropbox account the link of every file has the id, size, time and check sum of the file as it stands there at the end; only the answer to a Dropbox update may have left time and check sum out, and then they are the payload's time and none |
| `InitialSync.StrayIsAdded` | src/dropbox.cpp:161-164 | a file that stands below a home folder at the end and is in no tree was put there by a stray update that finds nothing known at its place nor a file above it, unless an upload is contested |
| `InitialSync.HomeBelowRootKeepsOldVersion` | src/dropbox.cpp:153-161 | a concrete start (one Dropbox cloud below `/Sync`, one file newer here, nothing refused, nothing raced) on which the cloud keeps its old version |
| `InitialSync.UpdateHitsAnotherFile` | src/dropbox.cpp:153-161 | a concrete start (`a` the same everywhere, `Sync/a` older below `/Sync`) on which the update of `Sync/a` replaces `a` |
| `InitialSync.NestedStarts` | src/dropbox.cpp:153-161 | that start meets everything the initial synchronisation assumes |
| `InitialSync.UpdateAddsAFile` | src/dropbox.cpp:161-164 | a concrete start (`Sync` and `Sync/a` below `/Sync`, the same here and there) on which nothing is refused, missed, contested or obstructed, and every end has an added file `a` in the cloud |
| `InitialSync.UpdateObstructsAFolder` | src/dropbox.cpp:265-288 | the same with a local directory `a` that the cloud lacks: once the update of `Sync/a` has landed the folder `a` cannot be created |
| `InitialSync.LoneStarts` | src/dropbox.cpp:153-161 | both starts meet everything the initial synchronisation assumes |
| `InitialSync.TwoGoogleCloudsDiverge` | src/google.cpp:522-537 | a concrete start (one file, two Google clouds) on which convergence fails |
| `InitialSync.RootHomesSuffice` | src/google.cpp:522-537 | corollary: with at most one Google cloud nothing is refused; with every Dropbox home at the root nothing is missed, added, contested or obstructed |
| `InitialSync.Barrier` | src/sync-manager.cpp:423-425 | when the waits return every winner is on disk under its path, every known directory exists, no cloud file has changed yet |
| `InitialSync.PushAll` | src/sync-manager.cpp:429-543 | the push loop, which visits every path once, and its wait keep the second-half invariant for every path and cloud, with pushes ending at any time; only an obstructed folder can end it early |
| `InitialSync.Ends` | src/sync-manager.cpp:537-543 | the invariant, with every path announced and no push left, is convergence and full indexing |
| `Listing.WinnerIsMaximal` | src/sync-manager.cpp:325-332 | the winner is a version of some replica, of maximal modified time among all replicas; the local file wins ties with the clouds |
| `Listing.Best` | src/sync-manager.cpp:325-332 | the first candidate of maximal modified time |
| `Listing.BestOf` | src/sync-manager.cpp:325-332 | the scanning loop finds that candidate |
| `Listing.ListClouds` | src/sync-manager.cpp:280-309 | the groups hold every entry of every cloud exactly once |
| `Reconcile.ScanLocal` | src/sync-manager.cpp:267-277 | one row for each local node, with what was measured, its id in the local map, no links |
| `Reconcile.ReconcileAll` | src/sync-manager.cpp:315-425 | the loop over all reported paths, each visited once, and the wait keep the first-half invariant, and leave no download running |
| `Reconcile.ReconcilePath` | src/sync-manager.cpp:315-416 | one path: new here, newer in a cloud, or nothing to do; the invariant then covers the path |
| `Reconcile.PullNew` | src/sync-manager.cpp:338-385 | a directory is made everywhere at once, a file is downloaded once its parent exists everywhere |
| `Reconcile.PullUpdate` | src/sync-manager.cpp:386-413 | an existing local file is replaced only by a strictly newer one |
| `Reconcile.CompleteDownload` | src/LocalStorage.cpp:590-625 | the local stage puts exactly the winner at its path, with one row, and a link only for a file that was new |
| `Reconcile.InstallNewOk` | src/LocalStorage.cpp:603-615 | a new file keeps rows and disk in one-to-one step and in agreement, keeps all links true, and touches no other path |
| `Reconcile.InstallUpdateOk` | src/LocalStorage.cpp:44-76 | an updated file keeps every row at its path and every link as it was |
| `Reconcile.GrowKeepsPhase1` | src/sync-manager.cpp:572-581 | creating a path while downloads run disturbs no file, link or running download |
| `Reconcile.EnsurePath` | src/sync-manager.cpp:563-581 | the test every New change passes; afterwards every prefix is linked in every cloud, unless a file stands where a folder is to be created, exactly then it throws |
| `Push.AcceptedExactly` | src/google.cpp:522-537 | an upload lands in the right folder if and only if it is not refused in the sense above and, on Dropbox, no folder stands at its path |
| `Push.RunUpload` | src/commands.cpp:205-229 | an upload that is not refused and has no folder in its way stores the winner at the path of one cloud, and the new link has the time, check sum and size of the stored file; any other changes nothing |
| `Push.RunOverwrite` | src/dropbox.cpp:153-170 | an update of a Google file replaces that file, one of a Dropbox file replaces whatever file stands at its path below the root of the account, or creates one outside the tree; the link of the file it was meant for then shows the answer about the file written: its size, and its time and check sum unless a Dropbox answer leaves them out. With a folder at the place or a file above it nothing changes, the link included |
| `Push.OverwrittenKeepsPhase2` | src/commands.cpp:247-271 | the end of an update changes the cell it lands on and nothing else |
| `Push.TargetIsHit` | src/dropbox.cpp:161 | exactly one path's update lands on a given path |
| `Push.TheLaterWriteStays` | src/dropbox.cpp:82-161 | where an upload and the update of another path write to one place, the later of the two decides the contents |
| `Push.TheEarlierKindStays` | src/dropbox.cpp:265-288 | where an update is written to the place of a folder still to be created, the earlier decides: the folder cannot be created, or the update is turned down |
| `Push.TheEarlierFileStays` | src/dropbox.cpp:82-161 | where an update is written below a file still to be uploaded, the earlier decides: the upload finds a folder, or the update is turned down |
| `Push.LittersAreWritten` | src/dropbox.cpp:161-164 | a stray update for a place where nothing known stands is never turned down, at any time of the second half |
| `Push.WayIsClear` | src/dropbox.cpp:265-288 | at any time of the second half no path creation throws, if no stray update of the start is for the place of a folder |
| `Push.CompletePushes` | src/sync-manager.cpp:537-543 | any number of pushes, in any order, keep the second-half invariant |
| `Push.PushToCloud` | src/sync-manager.cpp:488-530 | one cloud: upload what it lacks, link the source of the winner and skip it, link every other version and send it an update |
| `Push.PushPath` | src/sync-manager.cpp:429-535 | one local file is announced to every cloud; a directory is absorbed and exists and is linked everywhere |
| `Push.UploadedKeepsPhase2` | src/commands.cpp:213-229 | the end of an upload changes one cell of one cloud and nothing else |
| `Push.GrowKeepsPhase2` | src/sync-manager.cpp:572-581 | creating a path while pushes run disturbs no file, link or running push |
| `PathCreation.CreatePath` | src/sync-manager.cpp:613-669 | it throws exactly if some cloud has a file where it is to create a folder; otherwise the missing part is empty afterwards; replicas, rows and links only gained folders of the path; rows, disk, trees and links agree as before |
| `PathCreation.CloudsCreatePath` | src/sync-manager.cpp:642-664 | every cloud reports one entry per missing prefix, with the global id of its row and the id it has for the folder |
| `PathCreation.AssignGlobalIds` | src/sync-manager.cpp:648-655 | the id of the row just written, or the one the tables find |
| `PathCreation.LinksAdded` | src/CallbackDispatcher.cpp:116-129 | old links win, every entry gets its link, no other link appears |
| `Workspace.SyncDbWrite` | src/CallbackDispatcher.cpp:116-129 | local entries become rows and receive consecutive ids, cloud entries become links |
| `Workspace.LocalCreatePath` | src/LocalStorage.cpp:203-244 | exactly the missing directories are made, and exactly those are reported |
| `Workspace.GoogleCreatePath` | src/google.cpp:118-259 | existing folders are kept, the rest is created under new ids and the right parents, one true entry per segment |
| `Workspace.DropboxCreatePath` | src/dropbox.cpp:219-307 | the same for the provider that goes by paths; it throws exactly if a file stands where a folder is to be created |
| `Workspace.RowsIndex` | src/LocalStorage.cpp:225-238 | the new rows index exactly the new directories, and no path gets two rows |
| `PathIndex.CountMeansEveryCloud` | src/database.cpp:347-365 | equally many links as clouds means a link in each cloud, and conversely (pigeonhole) |
| `PathIndex.MissingPartExact` | src/database.cpp:312-380 | the missing part is the suffix from the first prefix not linked everywhere, and nothing else is |
| `PathIndex.NothingMissing` | src/database.cpp:378-380 | it is empty exactly when every prefix is linked everywhere |
| `PathIndex.ParentResolves` | src/database.cpp:382-431 | then every cloud resolves the parent to a non-empty id, unless it is the root |
| `PathIndex.ParentStaysResolved` | src/database.cpp:382-431 | and keeps doing so over every run of statements without a deletion or a move |
| `Propagation.UploadPayloadsHaveParents` | src/commands.cpp:62-67 | every upload payload built by the local stage names the parent folder of its own cloud, the one known when the change started |
| `Propagation.LocalUploadCallback` | src/commands.cpp:58-74 | each next command gets the measured payload with its own cloud id and parent id; the tables gain the row and the source link |
| `Propagation.LocalUpdateCallback` | src/commands.cpp:91-110 | each next command gets the measured payload with its own cloud id and the id its cloud knows the file by; a missing link stops the chain |
| `Propagation.LocalMoveCallback` | src/commands.cpp:127-148 | each next command gets the payload with file, old parent and new parent ids of its own cloud |
| `Propagation.LocalDeleteCallback` | src/commands.cpp:165-191 | the ids are read before row and links go; the local file goes only for a change from a cloud; a missing link keeps everything |
| `Propagation.CloudUploadCallback` | src/commands.cpp:213-225 | the new link of its own cloud has each field that the answer names, and the payload's where it names none; an existing link wins, and all else stays |
| `Propagation.CloudUpdateCallback` | src/commands.cpp:255-267 | hash, time and size of its own link are the answered ones, or the payload's where nothing was answered; id, parent and all else stay |
| `Propagation.CloudMoveCallback` | src/commands.cpp:297-309 | the own link has the payload's id and the answered time and parent, or the payload's; hash, size and all else stay |
| `Propagation.OrderIsIrrelevant` | include/change-factory.h:150-158 | any two interleavings of the cloud commands, mixed with other changes, leave the same row and links |
| `Propagation.LeavesLand` | src/commands.cpp:213-267 | in every interleaving the link of each cloud shows exactly that cloud's own statement |
| `Propagation.NewChainIndexes` | include/change-factory.h:42-54 | a full New chain on an unknown path: one row, exactly one link per cloud, with that cloud's own answer |
| `Propagation.UpdateChainKeeps` | include/change-factory.h:93-106 | a full Update chain keeps the row's place and every link |
| `Propagation.UpdateReaches` | src/commands.cpp:255-267 | and each link shows the source's data or its own cloud's answer |
| `Propagation.MoveChainKeeps` | include/change-factory.h:69-80 | a full Move chain, of a file or a tree, takes the row to the new path and keeps every link |
| `Propagation.MoveReaches` | src/commands.cpp:297-309 | and each link shows the place its own cloud reported |
| `Propagation.DeleteChainForgets` | src/commands.cpp:165-191 | a Delete chain leaves neither row nor links, and nothing later brings them back |
| `LocalStorage.LocalStorage.ProccesUpload` | src/LocalStorage.cpp:590-625 | a download is renamed into place and measured; its new row shows the file on disk, the new link of its source what the source reported; all else stays |
| `LocalStorage.LocalStorage.ProccesUpdate` | src/LocalStorage.cpp:44-76 | the old file makes way for the download, the row shows the new file, the source's link what was reported, all else stays, and the deletion is announced |
| `LocalStorage.LocalStorage.ProccesMove` | src/LocalStorage.cpp:78-123 | rename, link, row, and the walk below a directory in any order |
| `LocalStorage.LocalStorage.ProccesDelete` | src/LocalStorage.cpp:125-129 | only a deletion that comes from a cloud is announced |
| `LocalStorage.LocalStorage.FollowNodes` | src/LocalStorage.cpp:105-121 | every node below the directory is visited once, in some order |
| `DirectoryMove.DirectoryMoveKeepsAgreement` | src/LocalStorage.cpp:78-123 | after rename and walk, in any order, every node has a row at its path again |
| `DirectoryMove.DirectoryMoveIsExact` | src/LocalStorage.cpp:105-121 | rows of moved nodes have exactly their prefix replaced and the time of their node, the link of the reporting cloud has the reported id, parent and time, all other rows and links are unchanged |
| `DirectoryMove.DirectoryMoveKeepsOneRow` | src/LocalStorage.cpp:105-121 | no two rows carry the file id of one node, as before the move |
| `DirectoryMove.WalkIsOrderIndependent` | src/LocalStorage.cpp:105-121 | whatever the order of visits, each row ends where its node is |
| `GoogleLaws.NoSyncLoop` | src/google.cpp:786-948 | once the emitted change is applied, to a file or with the whole walk below a directory, the same entry is silent: exactly when the name is one component (New, Move, Move with Update), always for Update, exactly when the entry is forgotten for Delete |
| `GoogleLaws.SlashNameMovesAgain` | src/google.cpp:829-853 | a concrete entry named `a/b` whose applied move is followed by a move of the same entry to `a/a/b` |
| `GoogleLaws.DeleteSettles` | src/google.cpp:820-856 | when exactly an entry falls silent after its deletion: by the second link with the same id if there is one, by the new folder that adopts the file if not |
| `GoogleLaws.DeletionPathExact` | src/google.cpp:829-853 | a deletion names the file's own path exactly when the file was not renamed while it was moved out |
| `GoogleLaws.MovedOutIsDeletedElsewhere` | src/google.cpp:829-853 | a concrete file `d/a`, moved out as `b`, whose deletion names `d/b` |
| `GoogleLaws.EmittedCarryElsewhere` | src/google.cpp:890-911 | over all pages, no emitted change carries a dependent for its own path |
| `GoogleLaws.NewPathsAreTrue` | src/google.cpp:761-818 | over all pages of a batch every new entry is given the concatenation of names from the home folder down |
| `GoogleLaws.TruePathUnique` | src/google.cpp:761-818 | that path is unique |
| `Google.EmitsExactly` | src/google.cpp:786-948 | field by field: a known entry is deleted when trashed or moved out, moved if and only if its path changed, updated if and only if it is no directory, its time is later than the link's and its hash differs, with the entry's hash, time and size; an unknown one is new in the folder it names, if that is known, and otherwise silent |
| `Google.SuppressedExactly` | src/google.cpp:875-899 | a new entry is looked up by its path as New, any other by its id as Delete, Move or Update; a hit takes that expectation and the change away, a miss leaves both |
| `GoogleLaws.BatchExactly` | src/google.cpp:761-948 | a batch yields what its entries emit, in order, without the suppressed ones |
| `Google.GoogleDrive.ProccessChanges` | src/google.cpp:752-956 | one batch is taken, the registry is emptied into a snapshot, every entry of every page is interpreted in order |
| `Google.GoogleDrive.ProccessEntry` | src/google.cpp:869-948 | suppression consumes only a matching expectation; everything else is emitted |
| `Google.GoogleDrive.EvaluateLinked` | src/google.cpp:819-868 | the flags of a linked entry give the classification of `Google.EmitsExactly`, in raw fields |
| `Dropbox.Dropbox.ProccessChanges` | src/dropbox.cpp:673-824 | entries in order, then the waiting deletions in any order |
| `Dropbox.Dropbox.Evaluate` | src/dropbox.cpp:687-737 | the flags of an entry give exactly the specified classification |
| `Dropbox.EmitsExactly` | src/dropbox.cpp:687-812 | field by field: the id is the entry's own or the one the tables hold for its path; a known entry is deleted, moved if and only if its path changed, updated if and only if it is a file, its time is later and its hash differs; an unknown one is new unless reported as deleted |
| `Dropbox.SuppressedExactly` | src/dropbox.cpp:734-749 | new entries and deletions are looked up by path, moves and updates by id; a hit takes that expectation and the change away, a miss leaves both |
| `DropboxLaws.BatchExactly` | src/dropbox.cpp:681-824 | a batch yields what its entries emit, in order, but for deletions; at its end exactly those are left that no later move to their path has cancelled, of several for one path the first |
| `DropboxLaws.NoSyncLoop` | src/dropbox.cpp:700-812 | once the emitted change is applied, the same entry is silent |
| `DropboxLaws.DeleteSettles` | src/dropbox.cpp:716-737 | a deletion reported by id repeats exactly when a second link of the cloud carries the id |
| `DropboxLaws.DeleteByPathSettles` | src/dropbox.cpp:700-702 | a deletion reported by path alone does not repeat if paths and ids are unique and ids are not empty |
| `DropboxLaws.EmittedCarryElsewhere` | src/dropbox.cpp:752-773 | no emitted change, at once or at the end of the batch, carries a dependent for its own path |
| `Emission.LeavesAreInvisible` | include/change-factory.h:150-158 | the commands for the other clouds change nothing that the source cloud can see |
| `Emission.NewIsKnown` | src/LocalStorage.cpp:603-615 | after a New chain the source's id is found, at the new path, with the reported data |
| `Emission.MoveIsKnown` | src/LocalStorage.cpp:96-121 | after a Move chain, the walk below a directory included, the source's id is found at the new path and parent |
| `Emission.LocalMoveApplies` | src/LocalStorage.cpp:78-123 | the local stage of the move of a file or a tree, followed by the other clouds, is such a chain |
| `Emission.UpdateIsKnown` | src/LocalStorage.cpp:66 | after an Update chain the source's link shows the reported data, at the old path |
| `Scheduler.FifoRefinement` | src/sync-manager.cpp:555-611 | over every run the nested dependents represent one FIFO queue per path, and changes start in arrival order |
| `Scheduler.NothingWaits` | src/sync-manager.cpp:315-535 | when each path is handed one change, as in each phase of the initial synchronisation, nothing ever waits and a completion starts nothing |
| `Scheduler.PhaseNeverWaits` | src/sync-manager.cpp:315-535 | so whenever the changes are announced by a loop that visits each of its paths once, as `Reconcile.ReconcileAll` and `InitialSync.PushAll` do |
| `Scheduler.AllCompletedLeavesNothing` | src/sync-manager.cpp:597-611 | once every started change has completed the table of running changes is empty |
| `Scheduler.CompletionIsFifoExactly` | src/sync-manager.cpp:597-611 | a completion is a FIFO dequeue exactly when the finished change carried nothing for its own path or nothing else waited |
| `Scheduler.OneRunningPerPath` | src/sync-manager.cpp:589-595 | starts and completions alternate on every path |
| `Scheduler.ChangeConservation` | src/sync-manager.cpp:555-611 | every accepted change, attached ones included, is exactly one of running or waiting, absorbed, completed; one that is no creation of a directory, nor carried by one, is never absorbed |
| `Scheduler.AbsorbedExactly` | src/sync-manager.cpp:563-570 | over every run everything absorbed is the creation of a directory, and every such creation that arrives is absorbed |
| `Scheduler.StartsWhenIdle` | src/sync-manager.cpp:572-583 | any other change starts on arrival exactly if as many changes were completed as started on its path |
| `Scheduler.ChangeScheduler.HandleChange` | src/sync-manager.cpp:555-587 | a directory that is new is absorbed; any other change starts if its path is idle, and is otherwise the last dependent of the one that runs there |
| `Scheduler.ChangeScheduler.OnChangeCompleted` | src/sync-manager.cpp:597-611 | the running change leaves, its dependents are handled in order |
| `Engine.ExactlyOnce` | src/change.cpp:93-104 | in every reachable state the counter is the number of unfinished commands; the completion fires at most once, exactly when none is left, and exactly once if none was dropped |
| `Engine.AlwaysRouted` | src/commands.cpp:42-52 | no queued command lacks its payload, and each pool only receives commands it can process |
| `Engine.BarrierSound` | src/sync-manager.cpp:423-425 | if callbacks submit no requests, the three waits return only when both pools hold nothing of the phase |
| `Engine.InitialSyncBarrier` | src/sync-manager.cpp:340-411 | the trees of both phases of the initial synchronisation meet that condition |
| `Engine.WaitsMeanCompletion` | src/sync-manager.cpp:423-425 | when the waits of a phase have returned, every change that lost no command has completed, once |
| `Engine.BarrierExactForFactories` | src/sync-manager.cpp:423-425 | for a factory tree the waits are a barrier exactly when there is no other cloud to reach |
| `Engine.StepCounts` | src/CallbackDispatcher.cpp:74-79 | each counter covers its queue and every hand-over in progress, at every step of every thread |
| `Commands.Produce` | include/change-factory.h:42-130 | constructor by constructor: New, Update, Move and Delete each run the local command of that name once and below it the cloud command of that name for every cloud but the source and the local one, each once; only a New or Update from a cloud starts with the download of its kind; the counter is the size of the tree |
| `Commands.CloudsRepeatTheLocalDeed` | include/change-factory.h:42-130 | every cloud repeats the deed of the local stage (upload, update, move or delete), nothing stands below it, and a download stands only at the root of what a cloud reported as new or edited |
| `Commands.DeliverLoads` | src/commands.cpp:42-74 | in such a tree every next command is handed its payload and is otherwise left alone |
| `Commands.Make` | include/change-factory.h:20-40 | the root carries its payload, each stage hangs under the one before |
| `Commands.AddNextCommands` | include/change-factory.h:135-164 | one local command, or one command for each cloud but the source |
| `Commands.ShapeIsWellFormed` | src/commands.cpp:42-52 | kinds alternate and one kind of payload is passed down |
| `Commands.ShapeSize` | src/commands.cpp:23-28 | the counter of a new change |
| `Commands.Change.OnCommandFinished` | src/change.cpp:97-104 | exactly the call that reaches zero completes the change |
| `HttpClient.PoolConservation` | src/Networking.cpp:103-230 | below 120 requests: the counter is queued plus in flight plus delayed, and every request is in exactly one place or has ended once |
| `HttpClient.BelowLimitDropsNothing` | src/Networking.cpp:136-149 | nothing is destroyed while the limit is not reached |
| `HttpClient.AdmitAllDropsExactlyAtLimit` | src/Networking.cpp:136-149 | below 120 the whole queue is in flight afterwards, beside what was; at 120 exactly the first request is taken out and destroyed |
| `HttpClient.LimitDestroys` | src/Networking.cpp:136-149 | a run that reaches 120 outstanding requests and destroys one, which is then nowhere; with 119 nothing is destroyed |
| `HttpClient.DestroyedKeepsBusy` | src/Networking.cpp:95-101 | once a request was destroyed the counter never returns to zero |
| `HttpClient.IdleExactly` | src/Networking.cpp:95-101 | the counter is zero exactly when nothing is queued, in flight, delayed, or was destroyed |
| `HttpClient.ReleaseDueExact` | src/Networking.cpp:217-230 | the requests whose timer is ahead remain delayed, in order; those whose timer has run out stand behind the old queue, in order |
| `HttpClient.HttpClient.SubmitRequest` | src/Networking.cpp:103-118 | counted, then queued |
| `HttpClient.HttpClient.AdmitWhenIdle` | src/Networking.cpp:136-142 | with the counter at zero the worker blocks for one request and takes it |
| `HttpClient.HttpClient.AdmitWhileBusy` | src/Networking.cpp:136-149 | the intake loop |
| `HttpClient.HttpClient.HandleCompletion` | src/Networking.cpp:165-211 | 200 hands the request over; 403, 408, 429 and 500 to 599 delay it with one more retry, or throw on the seventh; any other code and any transfer error fail it; only the delay keeps it counted |
| `HttpClient.OutcomesExact` | src/Networking.cpp:182-211 | over every run a request was handed over exactly if a transfer of it was answered with 200, and failed exactly if one ended in an error or in a code that is not retried |
| `HttpClient.RipenessExact` | src/Networking.cpp:217-230 | due and not due are told apart by the timer alone, and together they are the list |
| `HttpClient.HttpClient.CheckDelayedRequests` | src/Networking.cpp:217-230 | the loop leaves exactly that delayed list and that queue |
| `CallbackDispatcher.CallbackDispatcher.Submit` | src/CallbackDispatcher.cpp:52-61 | counted, then queued |
| `CallbackDispatcher.CallbackDispatcher.WorkerTurn` | src/CallbackDispatcher.cpp:63-81 | the oldest command is called back once and stops being counted |
| `CallbackDispatcher.CallbackDispatcher.Finish` | src/CallbackDispatcher.cpp:14-26 | every command submitted so far is called back, in order, once |
| `ActiveCount.NoWakeupIsLost` | src/active-count.cpp:7-26 | with count zero and a waiter asleep or about to sleep, some decrementer is still before its notification |
| `ActiveCount.ReturnedSawZero` | src/active-count.cpp:21-26 | a waiter returns only after seeing zero |
| `ActiveCount.NeverStuckAtZero` | src/active-count.cpp:7-26 | while the count is zero a waiter that has not returned never leaves every thread without a step |
| `EventRegistry.SuppressionExact` | src/event-registry.cpp:3-64 | a report is suppressed exactly when the window snapshotted by its batch registered that key first with that type and no earlier report used it up |
| `EventRegistry.SuppressesAtMostOnce` | src/event-registry.cpp:50-64 | one registration suppresses at most one report over the whole history |
| `Records.PathTextInjective` | src/event-registry.cpp:8-20 | different paths of components that are not empty and hold no slash have different keys |
| `EventRegistry.ThreadSafeEventsRegistry.Add` | src/event-registry.cpp:3-6 | a held key keeps its first type |
| `EventRegistry.ThreadSafeEventsRegistry.Check` | src/event-registry.cpp:13-20 | found and removed, or not found and unchanged |
| `EventRegistry.ThreadSafeEventsRegistry.CopyMap` | src/event-registry.cpp:31-36 | the snapshot holds everything, the registry nothing |
| `ThreadSafeQueue.Queue.PushAll` | include/thread-safe-queue.h:14-27 | the batch is appended in order |
| `ThreadSafeQueue.Queue.Pop` | include/thread-safe-queue.h:39-50 | the oldest item, or nothing once closed and empty |
| `Schema.RunKeepsIntegrity` | src/database.cpp:1055-1075 | every link refers to an existing row and cloud, over every run of statements |
| `Schema.IssuedNeverReused` | src/database.cpp:433-478 | global ids strictly increase |
| `Schema.DeletedStaysGone` | src/database.cpp:846-878 | a deleted row and its links never come back |
| `Schema.UndeletedSurvives` | src/database.cpp:846-878 | a row that is not deleted keeps its id, its kind and its links |
| `Schema.FindByPath` | src/database.cpp:156-181 | the first row with the path, or the certainty that there is none |
| `Schema.FindByFileId` | src/database.cpp:183-223 | the first row with the file id, or the certainty that there is none |
| `Schema.FindLink` | src/database.cpp:566-603 | the first link of the cloud with the id, or the certainty that there is none |
| `Store.Database.RegisterCloud` | src/database.cpp:43-73 | a new cloud under a new id, never that of the local storage |
| `Store.Database.InsertFile` | src/database.cpp:433-478 | a new row under a new id |
| `Store.Database.InsertLink` | src/database.cpp:880-924 | an existing link wins, a broken foreign key changes nothing |
| `Store.Database.SetLinkContent` | src/database.cpp:670-716 | hash, time and size of one link |
| `Store.Database.SetFileContent` | src/database.cpp:718-763 | size, hash, time and file id of one row |
| `Store.Database.SetLinkPlace` | src/database.cpp:765-804 | id, time and parent of one link |
| `Store.Database.SetFilePlace` | src/database.cpp:806-844 | path and time of one row |
| `Store.Database.Delete` | src/database.cpp:846-878 | exactly the row and all of its links |
| `Store.Database.GetMissingPathPart` | src/database.cpp:312-380 | the accumulating walk computes the specified suffix |

## Left out

- libcurl, SQLite internals, JSON, OAuth, the local HTTP server, URL building beyond the folder or path that a
  request names, headers, MIME tables, logging, `main` and daemonising: requests are nondeterministic outcomes,
  SQL statements their relational effect.
- The file watcher and the handlers of local events (src/LocalStorage.cpp:246-349, 469-588, 627-703): changes
  from the local folder enter the model as the changes they create.
- Check sums, inode numbers and clocks are opaque values; the contents of a file are a number that stands for
  its bytes.
- Data races on the table of running changes: `handleChange` and `onChangeCompleted` are atomic steps.
- Progress: a failed request leaves its change pending forever, a New change that needs a path waits on its own
  dispatcher, and a seventh retry ends the worker (the model says `ok == false` and stops there).
- `ThreadSafeQueue::close` as a wakeup, and restarting a closed queue.
- Dropbox's pairing of deletions with moves is modelled as the code does it (`DropboxLaws.BatchExactly`); that a
  move cancels the deletion of its old path is not claimed, because deletions are kept under the reported path.
- Google's `maybe_new` entries are stored and never read; the model keeps the empty path such a folder leaves
  in the path map. An absolute name, which would replace the whole path when joined, is not modelled.
- Directory entries reported as new are absorbed by path creation; `GoogleLaws.NoSyncLoop` and
  `DropboxLaws.NoSyncLoop` speak about changes that run through a command chain.
- Names, types and configurations of clouds, among them the uniqueness of names: a cloud is its id.
- Rows with equal keys: a lookup without an order returns the row with the smallest global id.
- Leading slashes that `normalizePath` removes (src/utils.cpp:3-15): paths are lists of components.
- Registry keys are relative paths; the constant home directory in front of them is dropped.
- The remote trees of `Workspace` are keyed by path: Google's query for a folder by name and parent is answered
  by the node at that path, under the parent id that the loop carries along.
- Registrations of expected events by the upload, update and move requests of the clouds and by path creation
  are not part of `Workspace` and `Push`; `EventRegistry` treats arbitrary sequences of registrations.
- Path creation is one step towards the two pools: downloads and pushes end before or after it, not inside.
- `std::filesystem::is_directory` on a relative path in the push loop (src/sync-manager.cpp:444) is taken to be
  false; directories then go through the general branch, as modelled.
- Documents of office suites are handled like files in the initial synchronisation.
- Temporary download files are on the disk of `LocalStorage`; in `Reconcile` the download and its installation
  are one step.
- InitialSync.InitialSync: assumes that each path occurs at most once per cloud and has the same kind on every
  replica; that the parent of every node is a folder of the same replica, which leaves out a Google name with
  a slash in a listing; that a listing reports everything below the home folder; that no two clouds share an
  account; that requests succeed, except for uploads with a foreign parent id and uploads, updates and folder
  creations with something in their way; that fewer than 120 requests are outstanding; and that the tables know
  no file at the start. When path creation throws (`ok` is false) nothing is said of what it leaves behind.
- InitialSync.LinksShowNodes: an answer to a Dropbox update that does not say that it is about a file leaves the
  payload's time and no check sum in the link (src/dropbox.cpp:464-485); nothing is said of which answers do.
  Below another Dropbox home the link shows the answer about the file that was written (`Push.RunOverwrite`).
- InitialSync.IdenticalExactly: where an upload meets the update of another path only one direction is stated,
  because the order of the two requests decides.
- What stands in a Dropbox account outside the trees is known by its contents only; folders that come into being
  above such a file are implied. Paths are compared with regard to case, and whether the server takes the double
  slash of a path below a home folder that is the root is not modelled.
- Engine.ExactlyOnce: the completion of a change dispatches no dependents in this model; within a phase of the
  initial synchronisation there are none (`Scheduler.PhaseNeverWaits`). The waits of `Reconcile` and `Push` run
  until no job is left, which is what `Engine.WaitsMeanCompletion` shows of the waits for the pools; the
  state machines are not joined in one statement.
- Scheduler.FifoRefinement: assumes that attached changes target other paths than their carrier, which
  `GoogleLaws.EmittedCarryElsewhere` and `DropboxLaws.EmittedCarryElsewhere` show of every emitted change;
  without it the order is the one of `Scheduler.CompletionIsFifoExactly`.
- HttpClient.PoolConservation: assumes fewer than 120 outstanding requests.
- DropboxLaws.NoSyncLoop: assumes that files and folders are reported with an id, and for deletions that ids
  are unique, and paths too if the deletion names no id.
- DirectoryMove.DirectoryMoveKeepsAgreement: assumes that every node on disk had a row at its path with a file
  id of its own, and that the target of the move is free.
- Two Dropbox folder conflicts are answered by the existing folder's id; the withdrawal of the expectation
  registered for it is not modelled.
