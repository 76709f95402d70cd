# Verified model of the macOS VM launcher

The launcher has two commands. `init` prepares a workspace: it migrates an old
directory layout, loads or rebuilds the machine's configuration, unpacks the boot
image, creates the data disk and writes the configuration. `start` runs the machine:
it starts gvproxy and a VMM (krunkit or vfkit), serves a REST interface, and shuts
everything down, syncing the guest's disk first. This project models the parts of both
whose behaviour spans whole runs, and proves what every run keeps.

`dafny verify dfyconfig.toml` checks everything.

## The parts

**The run and shutdown protocol of `start`** (`RunProtocol`, `RunLog`, `RunInvariant`,
`RunTheorems`, `RunCauses`, `RunEffects`, `RunTermination`, `RunExample`, `Startup`, `StartAlone`). Four errgroup goroutines, the
`context.AfterFunc` thread that syncs the disk, two child processes, the two goroutines
that wait for them, the goroutine that stops the REST server and the main goroutine are
threads of a labelled transition system. A label is one atomic step of one thread
together with whatever the surroundings choose in it, so a list of labels is a schedule,
and theorems over all lists of labels are theorems over all interleavings. `RunLog` says,
on the history of observed actions alone, what may come after what; `RunInvariant` shows
that every history of the system is of that kind; the theorems are read off.
Assumed of the libraries: the first non-nil error recorded by an errgroup is its
context's cause and the result of `Wait`; a cancel-cause function keeps the first cause;
`exec.CommandContext` refuses to start a command once its context is done and kills it
when it becomes done. `Startup` has the same start in place, without interleaving: the
command list, the provider's flags and the waiting loops; `StartAlone` shows that the
starter thread, when nothing else moves, does what those calls add up to.

**The `/exec` stream** (`EventStream`, `EventPrinter`, `ExecStream`, `ExecWriters`).
`EventStream` is a parser of event streams after the HTML Living Standard, sections 9.2.5
and 9.2.6; `EventPrinter` is what the handler prints; `ExecStream` is the concurrent
handler, with the producer, the two copying goroutines, the three channels and the
handler's select as a second transition system.

**Repeated `init`** (`InitSpec`, `InitCommand`, `InitEffects`, `InitTheorems`,
`InitOutcomes`, `InitHistory`). `InitSpec` gives what one run does as a function of the files found and of
the outcome of each step; `InitCommand` does it step by step on a workspace and a
configuration object that are updated in place, and is proved to follow that function.
Contents of files are identities: which version an image was unpacked for and whether it
is whole, which disk a data disk is. `InitOutcomes` spells one run out: the names of the
files, what makes a configuration load, what a run needs to succeed and what it leaves.
`InitHistory` runs any sequence of succeeding and
failing runs of `init`, between which others may change every file but the two disks,
and may lose or spoil the configuration.

**Text forms** (`ShellWords`, `ShellScript`, `ScriptPrinter`, `SshCmd`, `Volumes`, `MountScript`,
`LogFile`). `ShellWords` divides a line into words after sections 2.2 and 2.3 of XCU in
POSIX.1-2017, `ShellScript` reads a script of simple commands after section 2.9.1; the
printers of the ssh command line and, by way of `ScriptPrinter`, of the guest's boot script
are proved against them.

## Where the code does not do what one would expect

- `Wait` does not wait for the `AfterFunc` thread. If a child ends by itself the process
  may be gone before the disk sync that was decided on has begun, with the other child
  still alive (`RunExample.ExitWithoutSync`). That this happens only if a child ended by itself is
  `RunTheorems.NoExitDuringDueSync`.
- The SSH flag is set and `Ready` is reported even if neither ssh nor Podman ever answered
  (`Startup.Stubber.StartVMProvider`).
- A lone CR in the output breaks the event stream; `EventPrinter.StreamRoundTrip` is the
  exact condition. The error of a failed command may never reach the client
  (`ExecStream.ErrorMayBeLost`).
- The boot image can stay stale. The flag's help text says the image is made anew when the
  version differs; but after a failed run for another version a run for the persisted
  version succeeds and leaves the other image (`InitTheorems.StaleImage`). So the image of
  a successful run need not come from the persisted version, nor from a run made since
  the last successful write. `InitTheorems.ImageAfterSuccess` has the exact condition for
  one run, `InitHistory.RequestedImageAfterHistory` the one after any history.
- The update path does not look at the VMM's name, though the help text names two
  (`InitTheorems.UnknownVmm`); and with an empty VMM or version a run succeeds whose
  configuration the next run cannot load (`InitTheorems.WrittenConfigLoads`).
- Seven machine names put the user's data where migration deletes it: the five directory
  names of the old layout, and the empty name and a dot, which stand for the workspace
  itself (`InitTheorems.SafeNames`). On a volume that ignores case their other spellings,
  such as `Data`, are the same names.
- A data disk that could be created but not sized is kept, empty, by later successful runs
  (`InitTheorems.UnsizedDiskIsKept`; `InitTheorems.DiskAfterSuccess` has the exact condition).
- A volume whose target only begins with the text `/tmp/initfs` is attached by the host but
  never mounted by the guest (`MountScript.InitfsIsAttached`).
- A comment says trimming the log discards the first 5 MB; the code discards the first `n`
  MiB of a file larger than that, so the file may still be over the limit afterwards
  (`LogFile.TrimBound`).

## Model

| member | source | states |
|---|---|---|
| RunInvariant.StepKeeps | cmd/start.go:60-120 | whichever thread takes a step, every program counter, shared cell and child state stays consistent with the history, and the action observed was one the history allows |
| RunInvariant.RunKeeps | cmd/start.go:60-120 | the same along every schedule |
| RunTheorems.PastIsHistory | cmd/start.go:60-120 | the summary the rules of a history speak of holds exactly the actions of the history, its first recorded error and its first cancelling waiter |
| RunTheorems.SyncBeforeKill | pkg/machine/shim/host.go:87-99 | a child is killed by the context only after the inner context was cancelled with the group's first error, and that came after the disk sync had finished or after SSH was found not ready |
| RunTheorems.KilledState | pkg/machine/shim/host.go:87-114 | once a child is killed the group context is done, the inner context is cancelled with the same cause, and the AfterFunc thread is through, having seen SSH not ready or having finished its sync |
| RunTheorems.NoStartAfterInnerCancel | pkg/machine/shim/host.go:101-114 | no child starts after the inner context was cancelled |
| RunTheorems.NoExitDuringDueSync | cmd/start.go:99-120 | if the group has been waited for while a sync that was decided on is unfinished, some child ended by itself and its end is what the starter returned |
| RunExample.ExitWithoutSync | pkg/machine/shim/host.go:89-99 | from every reachable state in which the machine is up and nobody has failed, and for every live child, a schedule ends with the process gone, a sync decided on but not begun, and that child alive |
| RunTheorems.OneErrorStory | cmd/start.go:60-120 | what `Wait` returns is never nil, is the first error recorded by any goroutine, and is the cause of the group context and of the inner context if that is done |
| RunTheorems.RaceReturnsFirst | pkg/machine/shim/host.go:68-81 | `RaceWait` returns the end of the child whose waiter cancelled first, and that child is dead |
| RunTheorems.RaceWaitWakes | pkg/machine/shim/host.go:68-81 | while `RaceWait` waits and a child is dead, a step towards its return is enabled |
| RunTheorems.RegistryAgreement | pkg/registry/cmds.go:14-20 | the command list is a prefix of gvproxy, VMM; all in it were started and registered once; from the moment `Start` has succeeded it is both |
| RunTheorems.ReadyMeansBothFlags | pkg/machine/krunkit/stubber.go:59-68 | Ready is reported only with both readiness flags set, and Podman is never marked ready before SSH |
| RunTheorems.StarterEventOrder | pkg/machine/gvproxy/gvproxy.go:72-81 | the starter's events are a prefix of StartGvProxy, StartVMM, Ready |
| RunTheorems.LoadComesFirst | cmd/start.go:54-60 | LoadMachineConfig is the first thing reported of a run whose goroutines were started, and is reported once |
| RunTheorems.SyncEventOrder | pkg/machine/shim/host.go:89-96 | SyncMachineDisk is reported at most once, after the VMM was started and SSH was set ready, and not before the group has an error |
| RunTheorems.ExitEventLast | cmd/main.go:66-75 | after the exit report nothing but a late SyncMachineDisk is reported |
| RunCauses.ErrorsAreReal | cmd/start.go:60-120 | along every schedule, an error a goroutine reports and the end of a child have happened: the parent was seen gone, a signal arrived, REST failed, a step of the start failed or the inner context was cancelled, the child exited or was killed |
| RunCauses.CausesComeFirst | cmd/start.go:60-120 | the cause of a recorded error is in the schedule, or in the history, before the step that records it |
| RunEffects.FailuresAreReported | cmd/start.go:63-89 | no failure in a schedule is missed: a parent seen gone and a signal are what that goroutine comes back with, a failing REST service is on its way back with its error or back, and a command that gives up has aborted |
| RunEffects.NobodyIsDeaf | cmd/start.go:63-89 | in every reachable state the running listener can hear a signal, and the running watcher can tick and then look, whatever it will see |
| RunEffects.FailureEndsTheRun | cmd/start.go:38-121 | a schedule with such a failure in it can be continued by no step of the program itself if and only if the process is gone |
| RunEffects.GoneHasReported | cmd/main.go:66-75 | a process that is gone has reported its error and its exit |
| RunTermination.StepPays | pkg/machine/gvproxy/gvproxy.go:85-101 | every step but a tick of the watcher's clock makes the measure over all threads smaller, and a tick adds one |
| RunTermination.SomeStepEnabled | cmd/start.go:63-118 | once the group has an error and until the process is gone, some step of the program itself is enabled: no tick, look at the parent, signal, failing REST server or child that ends by itself is needed |
| RunTermination.ShutdownTerminates | cmd/start.go:63-120 | every schedule from a state whose group has an error is bounded by the measure and twice its ticks, and no step of the program itself can continue it if and only if the process is gone |
| RunTermination.WholeRunIsBounded | cmd/start.go:38-121 | a whole run takes at most 505 steps and two for every tick |
| Startup.WaitForSocket | pkg/machine/gvproxy/gvproxy.go:85-101 | succeeds if and only if within 100 tries the socket is there before the context is found done |
| Startup.WaitSSHStarted | pkg/machine/machine_common.go:58-73 | succeeds if and only if within 100 tries ssh answers before the context is found done |
| Startup.WaitPodmanReady | pkg/machine/machine_common.go:32-51 | succeeds if and only if Podman answers before the timer and before the context is found done |
| Startup.Stubber.StartNetworkProvider | pkg/machine/gvproxy/gvproxy.go:26-81 | gvproxy is on the list if and only if it was spawned, however the wait for its socket ends |
| Startup.Stubber.StartKrunKit | pkg/machine/krunkit/stubber.go:77-119 | the VMM is on the list if and only if it was spawned and its pid file written |
| Startup.Stubber.StartVMProvider | pkg/machine/krunkit/stubber.go:54-71 | both flags are set and Ready is reported if and only if the VMM is up, whatever ssh and Podman answer |
| Startup.Stubber.Start | pkg/machine/shim/host.go:87-131 | succeeds exactly if network, source disk and VMM do; then the list is gvproxy, VMM; a failed start leaves SSH not ready |
| Startup.SocketWaitAlone | pkg/machine/gvproxy/gvproxy.go:85-101 | the starter thread, left alone, ends its wait as the loop does, for every sequence of probes |
| Startup.SshWaitAlone | pkg/machine/krunkit/stubber.go:59-62 | the starter thread, left alone, always gets to setting the SSH flag, after all tries if and only if none answers |
| Startup.PodmanWaitAlone | pkg/machine/machine_common.go:32-51 | the starter thread, left alone, always gets to setting the Podman flag, at the timer's try if and only if Podman answers at none before it |
| StartAlone.StartAlone | pkg/machine/shim/host.go:87-131 | from every reachable state in which the starter is about to begin, and for every outcome of its calls, the starter alone ends with the error of the first call that failed or ready to wait, with exactly the children, list, flags and events those calls add up to, and changes nothing else |
| StartAlone.CancelledWaitsEnd | pkg/machine/gvproxy/gvproxy.go:85-101 | once the inner context is done each of the three waits ends at its next turn, whatever the probe says |
| EventStream.ParseOfPrefix | pkg/api/backend/exec.go:132-162 | a client that received the beginning of a stream has dispatched a beginning of its messages |
| EventStream.ParseIsCrFree | pkg/api/backend/exec.go:199-201 | no message a client dispatches has a CR in it |
| EventPrinter.TrimSpaceMeaning | pkg/api/backend/exec.go:199-201 | trimming takes all white space off both ends and nothing else |
| EventPrinter.CrlfToLfDropsCr | pkg/api/backend/exec.go:199-201 | the text meant is the trimmed text without the CRs that an LF follows |
| EventPrinter.StreamRoundTrip | pkg/api/backend/exec.go:122-162 | an event-stream parser reads the printed bytes as exactly the events meant, pings leaving none, if and only if no printed text has a CR that no LF follows |
| EventPrinter.CutOffRoundTrip | pkg/api/backend/exec.go:132-162 | cut off anywhere, the stream is read as a beginning of the events meant |
| ExecStream.NothingLostOnTheWay | pkg/api/backend/exec.go:107-162 | in every run the chunks sent are those printed followed by those queued, in order; errors likewise, of which there is at most one |
| ExecStream.ChunksInterleave | pkg/api/backend/exec.go:63-76 | the chunks sent interleave a beginning of stdout with a beginning of stderr, each in its order |
| ExecStream.DoneIsLast | pkg/api/backend/exec.go:122-130 | `done` is printed at most once and only as the last thing |
| ExecStream.LastStderrIsKept | pkg/api/backend/exec.go:27-73 | what each failing call sends: nothing for the key, its name and error for the dial and the session, and for the command its last write to stderr, a line break and the error, in this order |
| ExecStream.ErrorSentIsTheFailure | pkg/api/backend/exec.go:27-77 | over every run the error sent is that of the first failing call, and a run without one sends none |
| ExecStream.ClientReadsTheError | pkg/api/backend/exec.go:69-73 | whatever happens after a command has failed, once its error is sent and taken, the one `error` message a client of a clean stream reads is the command's last write to stderr, a line break and the error |
| ExecStream.ProducerNeverBlocks | pkg/api/backend/exec.go:111-120 | whatever the client does, no send of the producer blocks or meets a closed channel |
| ExecStream.ClosedMeansDone | pkg/api/backend/exec.go:132-149 | when the looping handler finds a channel closed, the done case is ready |
| ExecStream.ClientReadsTheStream | pkg/api/backend/exec.go:107-163 | through the concurrent handler, the client reads the trimmed texts of the first chunks sent, in order, all if the queue was emptied, and at most one error; exactly if no printed text has a lone CR |
| ExecStream.StayingClientSeesDone | pkg/api/backend/exec.go:122-136 | a client that never disconnects reads `done` as the last message when the handler is back |
| ExecStream.NoDoneForTheGone | pkg/api/backend/exec.go:122-130 | once the client has left a handler that is not back, `done` is never printed |
| ExecStream.PingsAreTimed | pkg/api/backend/exec.go:157-160 | a comment is printed for every firing of the timer and for nothing else |
| ExecStream.ErrorMayBeLost | pkg/api/backend/exec.go:132-149 | some schedule ends with the error of a failed dial unread |
| ExecWriters.CopyBoth | pkg/api/backend/exec.go:165-193 | in whatever order the two writers are used, the channel gets every write in that order and the last stderr write is remembered |
| InitCommand.Workspace.MigrateData | cmd/init.go:125-170 | in place: removes the old directories, moves the old disk, with every early return |
| InitCommand.Workspace.CreateAndResizeDisk | pkg/machine/machine_common.go:203-228 | in place: deletes if forced, keeps what exists, else creates and sizes |
| InitCommand.Workspace.InitializeVM | pkg/machine/machine_common.go:77-105 | in place: the rebuild path, with every failure point |
| InitCommand.Workspace.Update | pkg/machine/shim/host.go:42-65 | in place: the update path; on success the configuration is the old one with the options put in |
| InitCommand.Workspace.InitMachine | cmd/init.go:76-123 | in place: the whole command follows its specification function, files and result |
| InitEffects.MigrateFrame | cmd/init.go:125-170 | for a machine with a directory of its own, migration changes in it the data disk only, and only by moving the old one in |
| InitOutcomes.OldArm64Disk | cmd/init.go:142-169 | on arm64 the file `data/libkrun/default-arm64-data.raw`, if it is there and directories and rename work, becomes the machine's `data/data.img` and is gone from its old place; otherwise both places are as they were |
| InitOutcomes.OldAmd64Disk | cmd/init.go:142-169 | the same on amd64 for `data/vfkit/default-amd64-data.raw` |
| InitOutcomes.OtherArchStays | cmd/init.go:142-157 | a workspace without the old disk of this architecture keeps every file it has under `data` |
| InitOutcomes.MovedExactly | cmd/init.go:142-165 | what a whole run moves in is that file, if directories and rename work |
| InitTheorems.RunFollows | cmd/init.go:90-122 | image, data disk, old disk and configuration after a run are determined by what its record says it did, for every outcome of every step |
| InitTheorems.RunWrites | cmd/init.go:104-118 | a run succeeds if and only if it persisted a configuration, which then has what was asked for; what was written, dropped and created follows from the versions |
| InitTheorems.FailedInitKeepsConfig | cmd/init.go:112-118 | a failed run leaves the persisted configuration as it was |
| InitTheorems.ImageAfterSuccess | pkg/machine/shim/host.go:48-54 | a successful run leaves the requested image if and only if it rebuilt, or the persisted version was another, or the image was that one already |
| InitTheorems.StaleImage | pkg/machine/shim/host.go:48-54 | in every loadable workspace without an old-layout disk two further runs, one failing at the write and one succeeding, leave another version's image |
| InitTheorems.DataDiskSurvives | pkg/machine/shim/host.go:56-62 | one run leaves the data disk the same if and only if it neither moved an old disk over it nor dropped it, which it does only for a loadable configuration with another data version |
| InitTheorems.DiskAfterSuccess | pkg/machine/machine_common.go:211-227 | after a successful run there is a data disk, and it has its full size if and only if another data version was asked for, or there was none, or the disk found or moved in had it |
| InitTheorems.UnsizedDiskIsKept | pkg/machine/machine_common.go:211-227 | on every workspace with no configuration and no disk, a run that cannot size the disk fails, and the next one succeeds and keeps that disk |
| InitTheorems.DroppedExactly | pkg/machine/shim/host.go:42-62 | a run deletes the disk to make it anew if and only if it loads a configuration with another data version, the boot image is not asked for or is unpacked, and the deletion works |
| InitTheorems.WrittenConfigLoads | pkg/machine/vmconfig/vmconfig.go:236-257 | the next load accepts what a successful run wrote if and only if VMM and versions are not empty |
| InitOutcomes.LoadsExactly | pkg/machine/vmconfig/vmconfig.go:111-175 | a configuration init wrote loads if and only if it is there, its VMM, versions and port are set, and the boot image, the data disk, both keys and the five directories exist at the machine's paths |
| InitOutcomes.RebuildsExactly | cmd/init.go:97-110 | with a configuration persisted, a run updates if and only if all of that holds once migration is through |
| InitOutcomes.SucceedsExactly | cmd/init.go:97-122 | a run succeeds if and only if each step its path comes to works, with the steps of both paths named |
| InitOutcomes.TouchedAndCreated | pkg/machine/shim/host.go:27-65 | exactly when, and with what, a run writes the boot image, and exactly when and which data disk it creates |
| InitOutcomes.SuccessIsComplete | pkg/machine/vmconfig/vmconfig.go:111-175 | whatever a run started from, if it succeeds the boot image, the data disk, both keys and the five directories are there |
| InitOutcomes.RebuildPersistsPort | pkg/machine/vmconfig/vmconfig.go:97-109 | a rebuilding run persists port 61234 unless something listens on it, and then the free port it was given |
| InitOutcomes.KeysExactly | pkg/machine/vmconfig/vmconfig.go:71-89 | what becomes of both keys in every run, failed or not: an update leaves them, a rebuild that comes to them removes the old ones and makes new ones |
| InitOutcomes.DirsAfterMigration | cmd/init.go:157-161 | migration adds the machine's directory and its data directory, as far as it gets, exactly if there is an old disk of this architecture |
| InitOutcomes.DirsMadeInOrder | pkg/machine/vmconfig/vmconfig.go:51-69 | how many of the directories logs, config, socks, data and pids are made, in this order |
| InitTheorems.PathsAgree | pkg/machine/vmconfig/vmconfig.go:178-228 | two successful runs with the same options, from any two workspaces and on either path, persist the same configuration but for the ssh port |
| InitTheorems.UpdateKeepsPort | pkg/machine/shim/host.go:42-65 | an updating run keeps the persisted ssh port |
| InitTheorems.SecondInitChangesNothing | cmd/init.go:97-118 | a second identical run changes no file of the machine and fails only if the write fails |
| InitTheorems.UnknownVmm | pkg/machine/shim/host.go:27-46 | whatever its steps do, a run with an unknown VMM succeeds only if it updates, persisting that name, and else does nothing but migrate; if its steps work it succeeds if and only if it updates |
| InitTheorems.SafeNames | cmd/init.go:125-169 | among names of one component, migration is safe for user data if and only if the name is not empty, a dot, logs, pids, config, socks or data |
| InitTheorems.ConfigIsLost | cmd/init.go:134-136 | for the names logs, pids, config and socks, the empty name and a dot, no run finds a configuration to load once migration has removed what it meant to |
| InitHistory.BootImageProvenance | cmd/init.go:95-118 | after any history the image is what the last run that wrote it left; the persisted version's if that run succeeded, not that version's if it failed updating |
| InitHistory.RequestedImageAfterHistory | pkg/machine/shim/host.go:48-54 | after any history a successful run leaves the requested image if and only if it rebuilt, or another version is asked for than is persisted, or the last run that wrote the image left just that one; it did if it succeeded |
| InitHistory.UserDataSurvives | cmd/init.go:125-170 | over any history, with failures and lost or spoilt configurations, the user's disk is still the same if and only if no run, given what it was asked and what it found, dropped it for another data version or moved an old one over it |
| InitHistory.SameVersionKeepsDisk | pkg/machine/shim/host.go:56-62 | if every run asks for the data version persisted at that point, or none is, and there is no old-layout disk, the user's disk survives |
| InitHistory.LossHasAReason | pkg/machine/shim/host.go:56-62 | if the user's disk is lost, some run could load a configuration and was asked for another data version than its, or moved the old disk in |
| InitHistory.DroppedOnlyWhenAsked | pkg/machine/shim/host.go:56-62 | a run drops the disk only if the persisted configuration can be loaded and has another data version |
| InitHistory.Repeat | cmd/init.go:76-123 | the command, repeated on a workspace updated in place, goes through exactly the histories of these theorems |
| InitHistory.OldDiskMovesOnce | cmd/init.go:142-169 | over any history the old-layout disk is moved at most once, and what is moved is that disk |
| ShellWords.QuotingRoundTrip | pkg/ssh/cmd.go:67-73 | a POSIX shell divides the printed line into exactly the words, empty ones included, if and only if every word is plain |
| SshCmd.Cmd.String | pkg/ssh/cmd.go:67-73 | the line is that of name and arguments, and the stored arguments are left unchanged |
| SshCmd.RunLogged | pkg/machine/ssh/service/runner.go:18-30 | the logged line is the executed one, and is read as name and arguments exactly if they are plain |
| Volumes.SplitIsTheOnlyOne | pkg/machine/volumes/volumes_unix.go:10-12 | the parts of a three-way split are the only well-formed ones whose join is the input |
| Volumes.ExtractMountOptions | pkg/machine/volumes/volumes.go:32-49 | read-only if and only if some `ro` comes after the last `rw` |
| Volumes.SplitVolume | pkg/machine/volumes/volumes.go:51-58 | source, target and mode depend on the volume alone, not on its index |
| Volumes.VolumeRoundTrip | pkg/machine/volumes/volumes.go:51-58 | `source:target:options` gives back both paths with a slash, and the mode of the last recognised option, if and only if neither path has a colon |
| Volumes.ShortVolumes | pkg/machine/volumes/volumes_unix.go:14-19 | without options a volume is writable, without a target it is mounted where it comes from |
| Volumes.CmdLineVolumesToMounts | pkg/machine/volumes/volumes.go:68-79 | gives the mounts of the non-empty volumes, in order |
| Volumes.MountsOfConcat | pkg/machine/volumes/volumes.go:68-79 | the mounts of a concatenated list are the concatenation of the mounts |
| Volumes.InitfsIsLast | cmd/init.go:92-93 | the volume init appends becomes the last mount, whatever the user asked for |
| MountScript.Ignition.GenerateMountScripts | pkg/machine/ignition/ignition_v3.go:95-119 | in place: appends the texts of the mounts whose target does not begin with the script's directory |
| MountScript.Ignition.GenerateConfig | pkg/machine/ignition/ignition_v3.go:52-76 | in place: starts the buffer afresh and, if key and time zone can be read, holds the whole script; with plain texts the guest reads it as linking `/etc/localtime` to the zone that follows `/var/db/timezone/zoneinfo/` in the host's link, writing the VM type, appending the host's key, and making and mounting every selected directory |
| MountScript.ScriptSetsUp | pkg/machine/ignition/temple.go:6-26 | the same of the script as a value, command by command |
| MountScript.KeyHandedOn | pkg/machine/ignition/ignition_v3.go:121-143 | the key put into the script is the public key file's text without the white space around it, if an identity is configured |
| MountScript.TrimPrefixMeaning | pkg/machine/ignition/ignition_v3.go:168-174 | a prefix that is there is taken off, once, and a text without it is left alone |
| ScriptPrinter.ScriptRoundTrip | pkg/machine/ignition/temple.go:6-26 | a shell reads a script printed line by line, with the texts put in between double quotes, as exactly the commands meant if and only if every text is plain |
| ScriptPrinter.ReadSpends | pkg/machine/ignition/temple.go:6-26 | whatever script a shell reads, its commands hold no more single quotes than the script, and if no fewer then each double quote and backslash in them has cost a backslash |
| MountScript.ScriptIsRead | pkg/machine/ignition/temple.go:6-26 | a POSIX shell reads the whole generated script as exactly the commands meant, in order, with their redirections, if and only if every text put in is plain |
| MountScript.GuestMountsAreSelected | pkg/machine/ignition/ignition_v3.go:95-119 | over the whole script the guest mounts type, tag and target of exactly the selected mounts, in order, if the texts put in are plain |
| MountScript.PlainMountIsReadable | pkg/machine/ignition/temple.go:6-10 | plain source, tag, target and type are enough for every text printed for a mount to be plain |
| MountScript.VirtIOFsToVFKitVirtIODevice | pkg/machine/machine_common.go:190-200 | one device a mount, in order, or none at all if one is refused |
| MountScript.SetupDevices | pkg/machine/machine_common.go:110-152 | boot disk, entropy, network, data disk and source disk in this order, then the mounts' devices |
| MountScript.TagsAreAttached | pkg/machine/machine_common.go:145-149 | every tag the guest mounts belongs to an attached device with the mount's own source |
| MountScript.MountedUnlessPrefixed | pkg/machine/ignition/ignition_v3.go:99-99 | an attached mount is mounted by the guest if and only if it is a virtiofs mount whose target does not begin with the directory's text |
| MountScript.InitfsIsAttached | cmd/init.go:92-93 | the script directory is always attached and never mounted by the script, and so is any volume whose target begins with its text |
| LogFile.File.DiscardBytesAtBegin | pkg/machine/fs/path.go:82-107 | in place: drops the first `n` MiB of a larger file and nothing of another |
| LogFile.ContentIsSuffix | pkg/machine/fs/path.go:82-107 | after any appends and trims the file is what was logged, short of what the trims dropped at its front |
| LogFile.Replay | cmd/main.go:93-117 | a file object put through appends and start-up trims holds what the sequence says |
| LogFile.TrimBound | cmd/main.go:77-100 | a trim leaves the file within the limit if and only if it was within twice the limit |

## Left out

- The goroutines of `start` and of `/exec` are values in transition systems, not objects: interleaving is what is proved about them. `Startup` and `ExecWriters` hold the in-place forms of what is sequential in them.
- A check of the context by `exec.CommandContext` and the start of the child are one step; a goroutine's return and its recording by the errgroup are two.
- krunkit and vfkit follow one protocol and share one model; the arguments of the child processes are not part of this model.
- ssh calls, timers, pings and reports over HTTP are nondeterministic steps with a budget; an ssh call is assumed to come back and a killed child to die.
- The child process that unpacks the source disk (`tar`) is one step that succeeds or fails; ssh-agent forwarding and time synchronisation run beside the protocol and cannot end it, and are left out.
- The REST routes other than `/exec`, the JSON bodies and error replies, and the header checks before the stream begins are left out.
- Text is sequences of characters: invalid UTF-8 is not modelled, and the recording writer keeps a value where the original keeps the caller's buffer.
- The tag of a mount is whatever the digest parameter gives; that different targets have different tags is not claimed.
- MountScript.GuestMountsAreSelected: asks for every text of the script to be plain; if one is not, the guest may still make the right mounts, for example when it only spoils a message.
- JSON is modelled field by field; an atomic write leaves the old configuration or the new one, and a failed one the old.
- A machine's name is at most one path component: names with a separator and two dots are left out of every theorem about files (`InitEffects.Free`). With a separator the boot image's path, which ends in the whole name, lies in a directory that no run makes.
- The theorems about the contents of a machine's directory are about names that give it one of its own and that migration spares; what happens to the other names of one component is `InitTheorems.SafeNames` and `InitTheorems.ConfigIsLost`. Other spellings of a name on a volume that ignores case are not identified.
- A file's existence is taken to be what `Stat` says; the case in which `Stat` fails for another reason and the file counts as existing is left out.
- A crash in the middle of a run of `init` is not modelled, only steps that fail.
- Log trimming assumes that opening, copying and renaming succeed, as the original does not look at their errors.
- The ignition file's own writing, the location of the executables, and finding and killing processes of an earlier run are left out.
