# runj: verified model

runj is an OCI runtime for FreeBSD jails with a containerd shim. This project models four
parts of it in Dafny and proves what they promise.

**The shim's process manager** (`Shim*.dfy`). RPC handlers, the exit-processing goroutine and
the event forwarder interleave freely over a map of processes, fields under one lock per
process, close-once channels and a queue of 128 events. `Shim` is a step system: each thread
has a program point; acquiring a lock, releasing one, and executing a program point are
separate steps. Commands that work or fail and the iteration order of a map are choices of
the environment. The event order (`ShimOrder`) and the absence of circular waiting
(`ShimDeadlock`) need no assumption about callers. The close-once channel and the result of
Wait (`ShimClose`) assume a discipline, stated as `Disciplined`: one of Start and Delete in
flight per exec id, one report per process, and no reuse of a PID that a process still records
or whose report is still being looked up. The waiters of a deleted process (`ShimWaiters`)
assume that no Exec of the id is in flight beside them either. `ShimRaces` shows that both are
needed: from every state with a created exec process, any two overlapping requests can close
its channel twice, and a Delete that overlaps an Exec can leave a Wait on a process that is
mapped no longer and whose channel is open. `ShimEvents` says where each event and each recorded
PID comes from. `ShimObjects` has the process and service objects as classes and Create, Exec,
startPrimary, startAux, deleteAux, Wait and checkProcesses as methods over them, each proved to
do what its program points in the step system do (`ShimAlone`).

**The create and start protocol** (`StateFile.dfy`, `StateRaces.dfy`, `StateLive.dfy`,
`Lifecycle.dfy`, `LifecycleProofs.dfy`, `LifecycleLive.dfy`).
`StateFile` is the state directory at inode level: partial writes and reads, O_EXCL, rename,
temporary files and removal, with any number of Save, Load, create and delete commands
interleaving. `Lifecycle` is one container's commands around the exec fifo, with blocking
opens, buffered bytes, end of file and discarded bytes. `StateLive` and `LifecycleLive` say what
the commands can do from every reachable state when nothing fails, and that each one that fails
has a cause in its run.

**Create as a transaction** (`Mounts.dfy`, `Transaction.dfy`, `Host*.dfy`). `Host.Machine` runs
create and delete on a world of state files, jails, a mount table, interface owners and
processes. Each acquiring call and each undo call may fail, as decided by two arbitrary
functions. `HostCalls` says, of these functions, the world and the configuration, at which
call a command ends; `HostWorlds` what it leaves there, when that is nothing, and what a failed
create leaves whose undo calls fail as well;
`HostWitnesses` has runs that leave something.

**The jail parameters** (`Binary.dfy`, `JailParams.dfy`, `OciConfig.dfy`, `ConfigPaths.dfy`).
From config.json and the extension file through merging and validation to name/value buffers
for jail_set(2), with a decoder that reads buffers back. `ConfigPaths` relates this view of the
configuration to the one the mounts come from.

## What holds, and where the code falls short

- Overlapping Starts and Deletes of one exec id can close a channel twice
  (`ShimRaces.OverlapClosesTwice`, `ShimRaces.ChannelClosedTwice`), and a Delete that overlaps an
  Exec can take a process away with a Wait on it (`ShimRaces.OverlappingExecStrandsAWaiter`).
- A create whose state was deleted while it ran takes the state of the next create of the id
  away when it fails (`StateRaces.FailureRemovesTheNextState`); without deletes none does
  (`StateFile.OverlappingCreatesKeepTheWinner`).
- The persisted status moves forward in every run whose starts begin after create has ended
  (`LifecycleProofs.StatusOnlyMovesForward`). Otherwise create's last Save can put it back:
  `LifecycleProofs.StatusCanMoveBack` gives a run, `LifecycleProofs.StatusMovesForward` the exact
  step, and `LifecycleProofs.MovingBackNeedsOverlap` the early start behind every such run.
- A failed create restores the world, when its undo calls work, if and only if none of three
  cases applies: its first Save fails, the preparation of a nullfs mount behind another mount
  fails, or its last Save fails (`Host.Machine.Create`, `HostWorlds.CreateAllOrNothing`). The
  cases are conditions on the world, the configuration and the calls that work. While both
  Saves work, a configuration with no nullfs mount behind another mount is always safe, and
  only such a one (`HostWorlds.SafeConfigurations`). `HostWitnesses` has a create for each case.
  When undo calls fail as well, each part stays or goes by its own call
  (`Transaction.EachIsTried`, `HostWorlds.FailureRemains`).
- Create, exit and delete restore the world if and only if delete's calls up to the removal of
  the state work and its targets unwind create's mounts, as `HostWorlds.Unwinds` says of the
  configuration and the two working directories alone (`Host.Machine.CreateThenDelete`). delete
  reloads the configuration without create's rewriting of the root path. So with mounts an absent
  root crashes it with the jail already gone (`HostWitnesses.AbsentRootCrashesDelete`), and a
  relative or empty one works only from the right working directory, unless destinations of both
  kinds meet by coincidence (`HostWorlds.UnwindsWhenFound`, `HostWorlds.MixedDestinationsCanMeet`).

Where documentation and code differ, the model follows the code:

- `cmd/runj/delete.go:20-26` promises an error for a container that is not stopped; the code
  asks only whether the jail has processes, so a created container is deleted.
- `cmd/runj/kill.go:20-23` allows signals to created containers; the code signals running ones only.
- `docs/bugs.md` calls overlapping starts undefined; the fifo in fact lets at most one succeed.
- Save ignores the error of its rename (`state/state.go:128`).
- Wait returns a zero exit for a process whose start failed or that was deleted before its start.
- Exec that fails after making the process object leaves it in the map.

## Model

| member | source | states |
|---|---|---|
| ShimOrder.ExecStartedBeforeExit | containerd/shim.go:570-604 | In every interleaving, overlapping Starts and Deletes included, a queued TaskExit of an exec process stands behind a TaskExecStarted with the same exec id and PID. |
| ShimOrder.TaskStartBeforeExit | containerd/shim.go:546-568 | An exit that happened after a `runj start` opened the fifo is queued behind that start's TaskStart, unless that start failed; which PID the event carries is `ShimEvents.TaskStartSaysThePid`. |
| ShimEvents.TaskStartSaysThePid | containerd/shim.go:546-568 | In every run, a TaskStart carries the PID that `runj state` answered its own startPrimary, which then opened the fifo and saw `runj start` work, in that order. |
| ShimEvents.TaskCreateSaysThePid | containerd/shim.go:363-377 | In every run, a TaskCreate carries the PID that `runj state` answered its own Create, which then had the primary process record it. |
| ShimEvents.CreatedIsRecorded | containerd/shim.go:370-377 | Once a TaskCreate with a PID has been sent the primary process records a PID that some Create learned; it is the announced one if all Creates learned the same. |
| ShimEvents.PidWasRecorded | containerd/managed_process.go:40-50 | Only Create ever has the primary process record a PID. |
| ShimEvents.TaskExecStartedSaysThePid | containerd/shim.go:580-604 | In every run, a TaskExecStarted carries the PID its own startAux's command came up with for that exec id. |
| ShimEvents.TaskExitSaysTheExit | containerd/shim.go:97-129 | In every run, a TaskExit passes on an exit the reaper reported, of a process made under that exec id that records its PID. |
| ShimEvents.WritersOwnTheLock | containerd/managed_process.go:40-50 | Whoever changes a process, the queue or the map shuts out every other program point that needs its lock. |
| ShimOrder.PublishedStays | containerd/shim.go:146-159 | Events are only appended and taken from the front, so publication keeps the queue's order. |
| ShimOrder.AloneInSection | containerd/shim.go:454-464 | Whoever holds the event lock outside a start knows that no start is between recording a PID, or opening the fifo, and its start event. |
| ShimInvariant.NextWell | containerd/shim.go:131-144 | Every step keeps objects under their exec ids, recorded PIDs, lock ownership and the bound of the queue. |
| ShimInvariant.RunScanOk | containerd/shim.go:136-142 | While findProcess iterates over the map, nobody changes it. |
| ShimClose.NextSafe | containerd/shim.go:97-129 | Every disciplined step keeps the invariant behind the theorems on closing and on Wait. |
| ShimClose.WaitblockClosedOnce | containerd/shim.go:128-128 | With at most one of Start and Delete in flight per exec id, a process's channel is closed at most once over its three close sites; Execs may overlap them. |
| ShimWaiters.DeleteStrandsNoWaiter | containerd/shim.go:266-291 | With no Exec in flight beside it either, Delete removes only a process whose channel is closed or which the exit goroutine holds. |
| ShimWaiters.HeldIsClosed | containerd/shim.go:99-129 | In every run, an object that the exit goroutine holds is let go only once its channel is closed. |
| ShimWaiters.NextGuarded | containerd/shim.go:273-286 | Every step keeps that an object without a state is still being made, and that a Delete past its close leaves a closed or held object. |
| ShimRaces.OverlapClosesTwice | containerd/shim.go:278-280 | From every reachable state with a created exec process and free locks, any two overlapping requests, Starts that fail or Deletes, reach a state with two closes of its channel. |
| ShimRaces.ChannelClosedTwice | containerd/shim.go:587-591 | Such a double close is reachable for each of the four pairs. |
| ShimRaces.OverlappingExecStrandsAWaiter | containerd/shim.go:273-286 | A Delete that overlaps an Exec can unmap a process with its channel open, held by nobody, and a Wait blocked on it. |
| ShimClose.WaitReturnsTheExit | containerd/shim.go:754-776 | A Wait released by the exit goroutine returns an exit the reaper delivered for that PID, whose TaskExit is already queued; otherwise the zero exit. |
| ShimDeadlock.NoCircularWait | containerd/shim.go:454-464 | No reachable state has threads that wait for each other's locks in a circle. |
| ShimDeadlock.ThreadProgress | containerd/shim.go:131-159 | Every thread is at rest, can step, or waits for a lock or for room in the queue. |
| ShimDeadlock.BlockedByRunnable | containerd/shim.go:146-159 | Whoever holds a lock somebody waits for can step, waits for the forwarder, which can step, or waits for a thread that can step. |
| ShimDeadlock.WaitDescends | containerd/shim.go:553-566 | Waiting goes down the order: the event lock and the map lock before a process lock or the queue. |
| ShimObjects.ManagedProcess.SetPID | containerd/managed_process.go:40-50 | A PID once recorded stays; setting succeeds exactly if the process then has that PID. |
| ShimObjects.Service.NewAuxiliary | containerd/shim.go:432-444 | Refuses exactly the exec ids in use; otherwise the service is the step system's state with one new object under the id. |
| ShimObjects.Service.FindProcess | containerd/shim.go:131-144 | The primary process wins; otherwise a process with that PID under its own id; nothing exactly when nobody records the PID; and the step system's scan gets to the same answer. |
| ShimObjects.Service.Exec | containerd/shim.go:658-711 | Succeeds exactly if the id is free and both preparations work; then a created process with that spec file is mapped and announced. Run by itself, follows the step system's program points to the state that `AfterExec` gives. |
| ShimObjects.Service.StartAux | containerd/shim.go:570-604 | Succeeds exactly if there is a created process and the command works: then the process runs, records the command's PID unless it has one, and is announced with it; if the command fails it is stopped and its waiters are released. Follows the program points to the state that `AfterStart` gives. |
| ShimObjects.Service.StartPrimary | containerd/shim.go:546-568 | Answers the PID of `runj state` exactly if that and `runj start` work, and then, and only then, announces this PID. |
| ShimObjects.Service.CreateTask | containerd/shim.go:363-377 | Answers the PID of `runj state` exactly if the commands work; it is announced, and the primary process records it unless it records one already. |
| ShimObjects.Service.WaitFor | containerd/shim.go:754-776 | Refused exactly without such a process; otherwise waits while the channel is open and then returns the process's exit. |
| ShimObjects.Service.DeleteAux | containerd/shim.go:266-291 | Succeeds exactly if there is a process that does not run: its map entry and spec file go, and the waiters of one that was never started are released. Follows the program points to the state that `AfterDelete` gives. |
| ShimObjects.Service.CheckProcesses | containerd/shim.go:99-129 | An exit of a PID nobody records changes nothing; otherwise the process that records it, the primary one first, is stopped, has the exit, is announced and has its waiters released; all as the program points do, whatever the iteration order of the map. |
| ShimAlone.ReapProbes | containerd/shim.go:138-142 | Looking at one entry of the map ends the scan exactly if its process records the PID. |
| StateFile.StateJsonIsWhole | state/state.go:97-130 | state.json names an empty or a completely written file, for any interleaving of Saves, creates and deletes. |
| StateFile.LoadReturnsASavedState | state/state.go:83-95 | Load fails or returns a complete state that some Save was given; when it may fail is `StateLive.LoadReadsStateJson`. |
| StateLive.LoadReadsStateJson | state/state.go:83-95 | In every run, a Load returns what state.json held when it opened the file, and nothing if there was none, unless one of its own operations failed. |
| StateLive.LoadReadsBack | state/state.go:83-95 | From every reachable state whose state.json holds a record, a new Load can return it. |
| StateLive.SaveWrites | state/state.go:108-130 | Wherever the directory is there, a Save can get to its end, and then state.json holds what it saved. |
| StateLive.UpdateWorks | cmd/runj/start.go:56-57 | Wherever the directory is there, a command that updates the state can do so. |
| StateLive.CreateClaims | state/state.go:97-106 | A create that finds no state file can become the owner of the id with its first state saved. |
| StateLive.CreateFinishes | cmd/runj/create.go:118-125 | A create whose body is done can save its last state and succeed. |
| StateLive.DeleteFrees | state/dir.go:15-41 | A delete can free the id. |
| StateLive.FailureHasACause | state/state.go:97-130 | A create, save or delete that ends without success had an operation fail, found a state file, or found the directory gone. |
| StateFile.OneOwnerAtATime | state/state.go:97-106 | A create becomes owner of an id only when no other create owns it and no state file exists. |
| StateFile.OneWinner | state/state.go:97-106 | Of the creates past O_EXCL whose state has not been removed there is at most one, and the state file is there for it. |
| StateFile.CreateRemovesItsOwn | cmd/runj/create.go:118-125 | A create about to remove the state directory owns it exactly if its own state was not removed before. |
| StateRaces.FailureRemovesTheNextState | cmd/runj/create.go:118-125 | The failing side is reachable: after a delete, a failing create removes the directory of the create that owns the id. |
| StateFile.OverlappingCreatesKeepTheWinner | state/dir.go:15-41 | Without deletes, whoever removes the state directory owns it; a losing create removes nothing. |
| LifecycleProofs.TokenConserved | jail/entrypoint.go:149-200 | Unwritten, buffered, read and discarded bytes add up to one; the program runs at most once, after the byte was written. |
| LifecycleProofs.StartSucceedsOnce | cmd/runj/start.go:45-57 | Of any number of overlapping starts at most one succeeds, and it has read the byte; that one can is `LifecycleLive.StartCanSucceed`. |
| LifecycleLive.StartCanSucceed | cmd/runj/start.go:41-57 | From every reachable state of a created container whose helper waits at the fifo, a new start can succeed: the status is running, the fifo is gone and the program runs, once. |
| LifecycleLive.FailedStartHasACause | cmd/runj/start.go:41-57 | A start that fails was killed, found no state, found the process of a running container, found the fifo gone, read no byte, or had a call of its own fail. |
| LifecycleLive.CreateCanFinish | cmd/runj/create.go:118-125 | create can end with a container recorded as created that can be started. |
| LifecycleProofs.ProgramWaitsForStart | cmd/runj-entrypoint/main.go:72-108 | The program runs, and the helper's open returns, only after some start was opening or had opened the fifo for reading. |
| LifecycleProofs.RunningMeansStarted | cmd/runj/ext_exec.go:53-64 | Running or stopped on disk, a process entered by exec and a signal sent by kill all mean that the byte was read. |
| LifecycleProofs.StatusMovesForward | cmd/runj/create.go:118-125 | The persisted status moves back exactly where create saves `created` over running or stopped. |
| LifecycleProofs.StatusOnlyMovesForward | cmd/runj/start.go:41-57 | In every run whose starts begin after create has ended, the status goes only forward from any point to any later one, until the state is gone for good. |
| LifecycleProofs.SequentialStatusMovesForward | cmd/runj/kill.go:68-80 | The same for commands that run one after the other. |
| LifecycleProofs.MovingBackNeedsOverlap | cmd/runj/create.go:118-125 | A status that moves back has a start behind it that began before create had ended. |
| LifecycleProofs.StatusCanMoveBack | cmd/runj/create.go:118-125 | There is such a run: a start finishes while create runs its hooks, and the program runs while the file says created. |
| LifecycleProofs.NextInv | cmd/runj/state.go:65-78 | Every step of create, start, state, kill, exec, delete and the helper keeps the token and status invariants. |
| LifecycleLive.GateHasAsked | cmd/runj/kill.go:64-87 | A process enters the container, and a signal is sent, only after that command has loaded a running state and then seen a process. |
| LifecycleLive.StoppedHasAsked | cmd/runj/state.go:65-77 | The status is put to stopped only by a command that has loaded a running state and then seen no process. |
| LifecycleLive.ExecCanEnter | cmd/runj/ext_exec.go:53-64 | From every reachable state of a running container a new exec can enter. |
| LifecycleLive.RefusedExecHasACause | cmd/runj/ext_exec.go:53-64 | An exec that is refused loaded no running state, saw no process, or had a call of its own fail. |
| LifecycleLive.KillCanSignal | cmd/runj/kill.go:64-87 | From every reachable state of a running container a new kill can send its signal. |
| LifecycleLive.QueryCanRecordStopped | cmd/runj/state.go:65-77 | A state or kill that finds no process of a running container can record it as stopped, and kill then sends no signal. |
| LifecycleLive.DeleteHasAsked | cmd/runj/delete.go:41-50 | delete removes only after it has loaded a state and then seen no process. |
| LifecycleLive.DeleteCanRemove | cmd/runj/delete.go:40-80 | From every reachable state with a state file a new delete can remove it with the fifo. |
| Mounts.UnmountLast | jail/mount.go:76-88 | The last mount can always be unmounted, and that gives the table before it. |
| Mounts.MountThenUnmount | jail/mount.go:76-88 | Unmounting in reverse restores the table for every list of mounts, nested and repeated places included, and reports no error. |
| Mounts.UnmountKeepsFirstError | jail/mount.go:76-88 | The reported error is the first one met: all targets behind it were unmounted and it was refused. |
| Mounts.UnmountTriesEach | jail/mount.go:78-88 | Every target is tried, last to first, on the table that the ones behind it left; one that is refused changes nothing. |
| Transaction.JailUndone | cmd/runj/create.go:187-191 | Removing the jail undoes its creation and returns interfaces that had moved into it. |
| Transaction.MountsUndone | cmd/runj/create.go:196-201 | The unmounting undo gives the mount table back. |
| Transaction.InterfacesUndone | jail/vnet.go:22-44 | Moving the interfaces out restores every owner. |
| Transaction.MovesOutAPrefix | jail/vnet.go:36-42 | When a call may fail, the interfaces that come back are those before the first that is refused, and no call is made behind it. |
| Transaction.RollBackReliable | cmd/runj/create.go:187-224 | Undo actions whose calls all work do, last in first out, what each is for. |
| Transaction.EachIsTried | cmd/runj/create.go:187-224 | Whichever undo calls fail: the state is gone exactly if its own removal works, the jail exactly if its own does, the process exactly if its own does, and unmounting and moving out are tried. |
| Host.Machine.Unmount | jail/mount.go:76-88 | The loop computes the table and first error of `Mounts.UnmountAll`, going on after errors. |
| Host.Machine.Mount | jail/mount.go:12-52 | Ends as `MountOutcome` says for the calls that fail; all mounts, or after a refused mount none, or after a failed nullfs preparation those before it. |
| HostCalls.MountsWhenAllWork | jail/mount.go:24-52 | Mounting succeeds exactly when each of its calls works. |
| HostCalls.PrepareFailsExactly | jail/mount.go:35-44 | Mounting ends in the preparation of mount i exactly if it is a nullfs mount, all calls before it work and one of its own two does not. |
| HostCalls.RefusedExactly | jail/mount.go:45-48 | Mounting ends in the refusal of mount i exactly if all calls before the mount itself work and that one does not. |
| HostCalls.InterfaceStopsExactly | jail/vnet.go:36-42 | Moving ends at interface i exactly if it is the first whose call fails, that the host does not own or that is named twice. |
| HostCalls.HookStopsExactly | cmd/runj/create.go:237-246 | The hooks end at hook i exactly if it is the first whose call fails. |
| HostCalls.CreateSucceedsWhen | cmd/runj/create.go:110-250 | create gets through exactly if the id is free, configuration, socket and interfaces allow it and every call works. |
| HostCalls.DeleteSucceedsWhen | cmd/runj/delete.go:40-92 | delete gets through exactly if there is a state, no process, the jail and unmountable targets, and every call works. |
| HostWorlds.StopsWithin | jail/mount.go:24-52 | Mounting stops at one of the mounts, and only a nullfs mount can fail in its preparation. |
| HostWitnesses.FirstSaveLeavesTheState | state/state.go:100-106 | A create whose first Save fails leaves an empty state file in any world where the id is free. |
| HostWitnesses.NullfsLeavesAMount | jail/mount.go:35-44 | A create that misses the source of a nullfs mount leaves the tmpfs before it mounted. |
| HostWitnesses.LastSaveLeavesEverything | cmd/runj/create.go:118-122 | A create whose last Save fails leaves all it acquired. |
| HostWitnesses.AbsentRootCrashesDelete | cmd/runj/delete.go:60-74 | Without a root, delete crashes when the jail is gone and the state is not. |
| Host.Machine.MoveIn | jail/vnet.go:22-44 | Stops at the interface `InterfaceOutcome` says, with exactly those before it in the jail. |
| Host.Machine.MoveBack | jail/vnet.go:22-44 | Returns interfaces to the host up to the first that is refused, whichever calls fail. |
| Host.Machine.RunHooks | cmd/runj/create.go:237-246 | Runs the hooks up to the first that fails, and none behind it. |
| Host.Machine.MakeJail | cmd/runj/create.go:126-186 | A jail under a new number exactly if the configuration and the console socket fit, the name is free and the calls work. |
| Host.Machine.RunDeferred | cmd/runj/create.go:187-239 | Runs the registered undo actions last in, first out, as `TryRollBack` says; one that fails does not keep the others from running (`Transaction.EachIsTried`). |
| Host.Machine.AcquireOrUndo | cmd/runj/create.go:126-250 | Fails at the site the calls decide; everything is acquired, or what was acquired is undone but for mounts before a failed nullfs preparation; if undo calls fail as well, exactly what `Remains` says stays. |
| Host.Machine.Create | cmd/runj/create.go:110-250 | Fails at the site that the world, the configuration and the calls that work decide. On success the record is `created` with the PID of the one new process and the configuration's version, and the new resources are there and no others. With working undo calls a failure leaves the world unchanged if and only if not `LeavesSomething`; with any others, state, jail and process stay exactly if their own removals fail. |
| HostWorlds.CreateAllOrNothing | cmd/runj/create.go:114-247 | For all inputs, what a failed create leaves is the world before if and only if none of the three cases holds, each a condition on the inputs. |
| HostWorlds.CreatedHolds | cmd/runj/create.go:118-121 | What success means: recorded as created with the configuration's version and the PID of the one new process, with a jail that owns the interfaces and every mount at its place; when only the last Save fails, the same but recorded as creating without a PID. |
| HostWorlds.FailureRemains | cmd/runj/create.go:187-224 | What a failed create leaves when undo calls fail as well, part by part and for every failing site. |
| HostWorlds.PartlyUndoneMeans | cmd/runj/create.go:118-125 | In short: state, jail and process are still there exactly if their own removals failed. |
| HostWorlds.SafeConfigurations | jail/mount.go:24-52 | While both Saves work, no failure can leave anything exactly for configurations without a nullfs mount behind another mount, or which create refuses anyway. |
| HostWorlds.DeletedMeans | cmd/runj/delete.go:40-92 | What is gone by the site at which delete ends: the recorded process and no other, then the jail with its interfaces back on the host, then the mounts, then the state. |
| Host.Machine.DestroyJail | cmd/runj/delete.go:56-67 | The jail goes with its interfaces exactly if it is there and the calls work. |
| Host.Machine.Delete | cmd/runj/delete.go:40-92 | Ends at the site that its calls decide, and leaves at each site exactly what `DeletedWorld` says; in plain terms, what `GoneBy` says is gone by then. |
| HostWorlds.SameTargets | cmd/runj/delete.go:64-74 | delete's unmount targets are create's destinations exactly under `FindsTheMounts`. |
| HostWorlds.MissedMountsStay | jail/mount.go:78-88 | Where `Unwinds` fails, delete crashes, an unmount is refused, or the table differs from the one before create, whichever calls work. |
| HostWorlds.TableRestoredWhenUnwound | cmd/runj/delete.go:64-74 | Unmounting gives the table back without an error if and only if the targets unwind create's mounts, whatever else is mounted. |
| HostWorlds.UnwindsWhenFound | cmd/runj/delete.go:64-74 | Targets that are create's destinations unwind them, and with destinations of one kind only those do. |
| HostWorlds.UnwindsSamePlaces | jail/mount.go:78-88 | Targets that unwind the mounts are their places, each as often as it is one. |
| HostWorlds.MixedDestinationsCanMeet | jail/mount.go:81-81 | With an empty root path and destinations of both kinds, targets that are not create's destinations one by one can unwind them. |
| Mounts.UnmountedPlaces | jail/mount.go:78-88 | When no unmount is refused, the places that are gone are the targets, each as often as it was one. |
| Mounts.UnmountAllAbove | jail/mount.go:78-88 | Targets that unmount a container's mounts alone do so on top of every table. |
| Mounts.UnmountAllWithin | jail/mount.go:78-88 | Only such targets give a table back. |
| Host.Machine.CreateThenDelete | cmd/runj/delete.go:23-26 | For every configuration: after create, the program's end and delete, the world is the initial one, so that the id is free again, if and only if delete's targets unwind the mounts and its calls up to the removal of the state work. |
| Binary.FromCStringOfCString | jail/syscall.go:126-136 | A terminated string reads back exactly if it holds no NUL byte. |
| Binary.FromLe32OfLe32 | jail/syscall.go:138-146 | A 32-bit integer reads back from its four bytes, negative ones included. |
| Binary.PiecesOfConcat | jail/syscall.go:148-166 | Addresses put into one buffer come apart again in order. |
| JailParams.ParseKeyOfKey | jail/params.go:29-198 | The kernel's table of names knows each name that is passed, as the parameter it is meant for, so all names differ. |
| JailParams.NetIPIovec | jail/syscall.go:148-166 | Refuses exactly a list of mixed families; otherwise all addresses in order in one buffer that is not empty. |
| JailParams.ParseAddrs | jail/params.go:122-133 | Accepts exactly lists whose every entry is an address of the family, and keeps their order. |
| JailParams.AppendMode | jail/params.go:85-120 | Encodes a sharing mode or names it as the fault; `disable` is for address families only. |
| JailParams.AppendHost | jail/params.go:60-83 | A host mode is refused exactly when unknown, or inherited together with names. |
| JailParams.AppendStatfs | jail/params.go:178-188 | Only 0, 1 and 2 are accepted; nil passes nothing. |
| JailParams.EncodeNext | jail/syscall.go:175-185 | Appending one more parameter extends the decoded table by exactly that parameter. |
| JailParams.ReadableValue | jail/syscall.go:126-166 | Every value has the form the kernel asks for: terminated text, a known mode, whole addresses, or nothing. |
| JailParams.DecodeOfEncoded | jail/params.go:29-198 | A table of all parameters decodes to the strings, modes, addresses and numbers asked for. |
| JailParams.Encode | jail/params.go:29-198 | Succeeds exactly on acceptable parameters, names a parameter at fault otherwise; decoding the result, by the kernel's own table of names and with every value in the form it asks for, gives every parameter back, with an even count of buffers and no name twice. |
| OciConfig.Merge | oci/config.go:72-104 | The spec changed in place is the configuration overridden by the extension: a mode the extension sets wins, what it lists comes behind, and everything else stays; missing sections are made, a missing spec or extension changes nothing. |
| OciConfig.MergeTwice | oci/config.go:72-104 | Merging two extensions in turn is merging their combination. |
| OciConfig.MergeKeeps | oci/config.go:72-104 | Exactly which extensions leave a configuration as it is. |
| OciConfig.Collect | cmd/runj/create.go:142-181 | The root path is settled and every field goes to its parameter. |
| OciConfig.AcceptedMerged | jail/params.go:29-198 | Merged parameters are acceptable exactly if base, extension, id and root are. |
| OciConfig.MeaningMerged | oci/config.go:86-102 | Merged parameters mean the base with extension modes winning and extension addresses behind. |
| OciConfig.Configure | cmd/runj/create.go:130-186 | From the two files to the buffers: fails exactly when there is no process or something is not acceptable; otherwise the buffers decode to config.json overridden by the extension. |
| ConfigPaths.SameRootPath | cmd/runj/create.go:142-151 | The root path that goes to the kernel is the one below which create mounts, for paths that do not lead upwards. |
| ConfigPaths.SlashJoins | cmd/runj/create.go:146-146 | Putting a slash between two paths is a join of the assumed kind. |
| ConfigPaths.HostSeesTheExtension | oci/config.go:95-101 | The host moves the interfaces of the base and then those of the extension, and sees nothing else of the extension. |

## Left out

- Logging, flags, JSON, ttrpc registration, shim forking, Shutdown and the closing of the event queue.
- Console sockets, pty setup, stdio copying and passing of file descriptors.
- Container-id checks of the shim's handlers: one container per shim.
- The shim's State, Kill, ResizePty and Connect appear as lookups and field reads followed by a command; deleting the container itself as a command.
- Bodies of external commands (ps, jexec, mount, ifconfig, the jail system calls, the reaper) and of `netip.ParseAddr`, which is a parameter; they work or fail.
- Hooks: success or failure only, no effects, and no hook that calls runj itself.
- Pid-file contents and directories made for mount destinations, which create does not undo.
- A delete repeated after a partial failure.
- Times are numbers; temporary file names are never used twice; removing a directory tree is one step.
- Paths are sequences of names without `.` and `..` and without symbolic links.
- Lifecycle follows one create of an id; several creates of one id are in StateFile.
- Interruption of create or delete by a signal; a killed start and a killed helper are in Lifecycle.
- ShimObjects has each handler running by itself, with room in the event queue; interleaving and waiting are in Shim, where objects are values.
- ShimObjects.Service.StartAux: splits startAux into the parts before and after its command; likewise the other handlers.
- Host.Machine.Create: a rename in Save whose error is ignored counts as working here; StateFile and Lifecycle model it.
- Host.Machine.Create: the single function of the source is split into stages, each with its own contract.
- ShimClose.WaitblockClosedOnce: assumes the discipline, without which it fails (ShimRaces.OverlapClosesTwice); the reuse of PIDs and repeated reports are assumptions about the kernel and the reaper.
- HostWorlds.CreateAllOrNothing: assumes that undo calls work (`HostWorlds.FailureRemains` is about those that do not) and that removing a jail returns its interfaces.
- ConfigPaths.SameRootPath: takes filepath.Join as a parameter that puts the names of its arguments one after the other, which it does for paths without `..`.
- JailParams.Encode: zones of IPv6 addresses are accepted and dropped, as in the source; only the address bytes come back.
- Looking up jails by name or number (`jail/syscall.go:42-64`) and the error buffer of the system calls.
