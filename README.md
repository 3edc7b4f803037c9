# Brightbox volume device plugin — a Dafny model

The plugin advertises block-storage volumes attached to a node as
Kubernetes device-plugin resources. A volume shows up as a symlink
`/dev/disk/by-id/...vol-xxxxx`. This project models the sequential rules
inside the plugin's goroutine and gRPC plumbing, and proves properties of
them:

- **Volume watcher** (`watcher.dfy`, module `Volwatch`; helpers in
  `fsevents.dfy` and `volume_names.dfy`). It covers how a directory listing
  becomes a snapshot of identifiers (`vol-.....$`, taken as a suffix check),
  and how events are classified (`isDirRemove`, `isDirCreate`,
  `isVolChange`). It also covers the watcher's state machine: start-up, the
  event switch in its fixed order, `readAndNotify`, and cancellation. The
  state machine has two forms. One is a class `VolumeWatcher` whose methods
  update a cancellation flag, a "run has returned" flag, a log of watch
  adds and an append-only outbox of snapshots. The other is a set of pure
  functions on `WatchState` that each method is proved against. Lemmas
  about whole runs are stated on those functions.
- **Device plugin session** (`device_plugin.dfy`, module `DevicePlugin`).
  `ListAndWatch` is a loop over the inputs its `select` receives (lister
  done, or an update possibly from a closed channel) and the outcomes of the
  stream sends. It produces the messages sent, the acknowledgements made
  and how the call ends. The loop is proved against `ListAndWatchSpec`.
  `Allocate` is the nested loop that builds device specs. It takes an
  arbitrary `evalSymlinks: string -> Result<string>` standing for
  `filepath.EvalSymlinks`, and is proved against `AllocateSpec`. The
  constant calls of the device-plugin API are modelled too.
- **Older discovery loop** (`lister.dfy`, module `Lister`). It covers
  `Discover` over a sequence of iterations, `waitForChanges` as a function
  of the signals its watch delivers, the exact-op matchers, and the
  resource namespace.

I/O is replaced by inputs:
- `os.ReadDir` results are `ReadResult` values: entries, not-exist, or
  another error with the entries read before it.
- The outcomes of fsnotify `Add` calls are booleans.
- Channel receives are input sequences.
- Send outcomes are `SendOutcome` values.
- The lister's `Err()` is a parameter.

## Model

| member | source | states |
|---|---|---|
| `FsEvents.ParentDir` | volwatch/watcher.go:106 | `path.Dir` on a clean path. A bare name gives "."; otherwise the result is non-empty and either the prefix of the path up to its last slash, or "/" exactly when the only slash is the leading one (the result is thereby fixed for every path with a slash) |
| `FsEvents.ParentOfChild` | volwatch/watcher.go:192-195 | the parent of `dir/name` is `dir` when `name` has no slash |
| `VolumeNames.FindVolume` | volwatch/watcher.go:101 | `vol-.....$` matches exactly when some suffix of the name is `vol-` plus five non-newline characters; the match is that nine-character suffix |
| `VolumeNames.Identifiers` | volwatch/watcher.go:197-208 | the snapshot is never longer than the listing, and every identifier in it is nine characters starting with `vol-` |
| `VolumeNames.IdentifiersAppend` | volwatch/watcher.go:199-206 | enumeration keeps listing order and judges each entry on its own: the snapshot of `a + b` is the snapshot of `a` followed by that of `b` |
| `VolumeNames.IdentifiersMembership` | volwatch/watcher.go:199-206 | an identifier is in the snapshot iff some non-directory entry's name has it as its match (both directions) |
| `Volwatch.IDDevicePathIsEntry` | volwatch/watcher.go:42-45 | for a single path element, the joined path lies directly in `/dev/disk/by-id` and its last element is the id |
| `Volwatch.DeviceDirParent` | volwatch/watcher.go:106 | the base directory the watcher adds first, `path.Dir(deviceDir)`, is `/dev/disk` |
| `Volwatch.Classify` | volwatch/watcher.go:128-155 | an event takes the first switch arm whose predicate holds, in source order: watched dir removed, base dir removed, watched dir created, volume change, else ignored (each as an iff) |
| `Volwatch.VolumeEntryEventIsChange` | volwatch/watcher.go:150-152 | a Create or Remove of an entry of the device directory is classified as a volume change, whatever other flags it carries |
| `Volwatch.DirectoryEventIsNotVolumeChange` | volwatch/watcher.go:182-195 | an event naming the watched directory itself (not a root) is never a volume change of it |
| `Volwatch.EnumerateVolumes` | volwatch/watcher.go:197-208 | the append loop returns exactly the snapshot `Identifiers` of the listing |
| `Volwatch.AfterRead` | volwatch/watcher.go:166-180 | a successful read appends exactly one snapshot, the listing's; not-exist changes nothing; any other error cancels and appends nothing; adds and the run flag never change |
| `Volwatch.AfterStart` | volwatch/watcher.go:105-119 | the base dir is added first. If that fails: cancelled, returned, no snapshot. Otherwise a successful add and read of the watched dir push exactly its snapshot; a failed add or a vanished dir push none and do not cancel |
| `Volwatch.AfterEvent` | volwatch/watcher.go:121-155 | one received input never makes the loop return and never undoes a cancellation; it adds at most the watched dir and appends at most one snapshot, that of this input's successful read |
| `Volwatch.EventBranches` | volwatch/watcher.go:121-155 | a watch error or closed channel cancels and nothing else. Removal of the watched dir changes nothing. Removal of the base dir cancels. Creation of the watched dir re-adds it, then reads or cancels. A volume change reads. Anything else is ignored |
| `Volwatch.LoopOutbox` | volwatch/watcher.go:120-157 | over any run from a `Valid()` state: outbox and add log only grow at the end; at most one snapshot per input, each that of one of the inputs' reads; once cancelled nothing more is pushed; the loop has returned iff cancelled |
| `Volwatch.CancellationIsSticky` | volwatch/watcher.go:81-94 | from a `Valid()` state, once `Err()` is non-nil, after any further run `Done()` is closed and `Err()` is the cancellation error |
| `Volwatch.StartupSnapshotComesFirst` | volwatch/watcher.go:115-119 | when the watched dir is added and read at start-up, its snapshot is the first one pushed, whatever events follow |
| `Volwatch.BaseWatchFailureCancels` | volwatch/watcher.go:108-114 | when the base dir cannot be watched, the watcher ends cancelled with no snapshot, whatever follows |
| `Volwatch.CreatedEmptyDirectoryGivesEmptySnapshot` | volwatch/watcher_test.go:21-36 | a watcher started without its directory pushes one empty snapshot (not none) when the directory is created empty |
| `Volwatch.VolumeWatcher.constructor` | volwatch/watcher.go:65-71 | a new watcher is uncancelled, running, with no adds and an empty outbox; it keeps `Valid()`: the loop has returned only once cancelled |
| `Volwatch.NewWatchDir` | volwatch/watcher.go:57-74 | a fresh watcher on `dir` when the fsnotify watcher can be created, nil otherwise; it keeps `Valid()`: the loop has returned only once cancelled |
| `Volwatch.VolumeWatcher.Cancel` | volwatch/watcher.go:86-94 | sets the cancellation flag and nothing else; `Done()` is then closed and `Err()` is the cancellation error; it keeps `Valid()`: the loop has returned only once cancelled |
| `Volwatch.VolumeWatcher.WarnAndCancel` | volwatch/watcher.go:160-164 | cancels and changes nothing else; it keeps `Valid()`: the loop has returned only once cancelled |
| `Volwatch.VolumeWatcher.ReadAndNotify` | volwatch/watcher.go:166-180 | the new state is `AfterRead` of the old one; it keeps `Valid()`: the loop has returned only once cancelled |
| `Volwatch.VolumeWatcher.Handle` | volwatch/watcher.go:121-155 | the switch written as in the source leaves the state `AfterEvent` computes from the old one; it keeps `Valid()`: the loop has returned only once cancelled |
| `Volwatch.VolumeWatcher.Run` | volwatch/watcher.go:105-158 | from a fresh watcher, start-up then the loop leave exactly the state `AfterLoop(AfterStart(...))`; it keeps `Valid()`: the loop has returned only once cancelled |
| `DevicePlugin.GetDevicePluginOptions` | device_plugin.go:23-27 | empty options, no error |
| `DevicePlugin.GetPreferredAllocation` | device_plugin.go:100-102 | nil response, no error |
| `DevicePlugin.PreStartContainer` | device_plugin.go:144-146 | nil response, no error |
| `DevicePlugin.IsRemovedIsExact` | device_plugin.go:29-31 | `isRemoved` holds only for events whose sole flag is Remove; a removal carrying a second flag is not "removed" |
| `DevicePlugin.Start` | device_plugin.go:36-39 | subscribes under the plugin's volume id, no error |
| `DevicePlugin.Stop` | device_plugin.go:42-45 | unsubscribes the plugin's volume id, no error |
| `DevicePlugin.ListAndWatch` | device_plugin.go:50-93 | the loop's messages, acknowledgements and return are exactly those of `ListAndWatchSpec` |
| `DevicePlugin.WatchSendsAtMostMissing` | device_plugin.go:66-92 | after the present message, the loop sends nothing or exactly the empty list |
| `DevicePlugin.SessionSendsAtMostTwo` | device_plugin.go:53-92 | every call sends one or two messages. The first lists exactly this volume, healthy; a second is the empty list and the last |
| `DevicePlugin.FirstSendFailure` | device_plugin.go:61-64 | a failed first send returns its error, with nothing else sent or acknowledged |
| `DevicePlugin.WatchWhileListed` | device_plugin.go:76-90 | while every update lists the volume, each is acknowledged once, nothing is sent and the call keeps waiting |
| `DevicePlugin.WatchEndsAtFirstAbsence` | device_plugin.go:66-87 | at the first done signal, update lacking the volume, or closed channel: the empty list is sent. An update is acknowledged after the send returns (a zero-value call for a closed channel). The call returns the send error, else the lister's `Err()` for done and nil for an update |
| `DevicePlugin.ContainerSpecsSucceeds` | device_plugin.go:115-133 | a container succeeds iff every one of its ids resolves; a failure carries the error of some id that does not |
| `DevicePlugin.ContainerSpecsLayout` | device_plugin.go:115-133 | a successful container has two specs per id, in order: the by-id path, then its resolved target, each with container path equal to host path and "rw" |
| `DevicePlugin.ContainerSpecsFailureSticks` | device_plugin.go:116-120 | once an id fails to resolve, the ids after it do not change the container's result: the first failure is returned |
| `DevicePlugin.AllocateFailureSticks` | device_plugin.go:111-124 | once a container fails, the containers after it do not change the result: the first failure is returned |
| `DevicePlugin.AllocateShape` | device_plugin.go:111-138 | Allocate succeeds iff every container does. The response has one entry per container request, in order; a failure carries one container's error |
| `DevicePlugin.AllocateFailsOnUnresolvedId` | device_plugin.go:116-120 | one id that does not resolve, anywhere, fails the whole call |
| `DevicePlugin.Allocate` | device_plugin.go:107-139 | the nested loop's result, a response or the error that replaces the nil response, is exactly `AllocateSpec` |
| `Lister.GetResourceNamespace` | lister.go:24-26 | always `volumes.brightbox.com` |
| `Lister.MatchersAreExact` | lister.go:65-73 | `isWatchDir` and `isVolume` are the watcher's `Has`-based tests restricted to single-flag events; any event with two or more flags matches neither |
| `Lister.CombinedFlagsMissed` | lister.go:65-68 | a Create+Chmod of the watch directory satisfies `isDirCreate` but not `isWatchDir` |
| `Lister.EnumerateVolumes` | lister.go:117-128 | returns exactly the snapshot `Identifiers` of the listing |
| `Lister.WaitForChangesOutcome` | lister.go:82-107 | the wait returns true iff a matching event comes before any closed channel or error. It is still blocked iff every signal so far is a non-matching event; otherwise it returns false |
| `Lister.DiscoverRound` | lister.go:30-47 | a missing directory pushes nil and waits on its parent with `isWatchDir`. Otherwise the entries returned are enumerated and pushed, and the wait is on the directory with `isVolume` |
| `Lister.ReadErrorIsNotAbsence` | lister.go:30-42 | a read error other than not-exist takes the `else` branch: the partial entries are enumerated and the directory is watched |
| `Lister.IterationsFromStop` | lister.go:29-48 | counting iterations from `i`: at least one more when one remains, never past the last; every wait before the last has returned, and when iterations remain the last is still blocked |
| `Lister.Iterations` | lister.go:29-48 | the loop goes on after any wait that returned, true or false alike, and stays in the first blocked one: every wait but the last has returned, and when iterations remain the last is blocked |
| `Lister.Discover` | lister.go:28-49 | the loop makes exactly `Iterations` iterations; iteration `k` pushes the list and makes the wait that `RoundList`/`RoundWait` give for its read |
| `Lister.BaseDirIsParent` | lister.go:34 | the directory watched while the watch directory is missing is `path.Dir(watchDir)`, `/dev/disk` |

## Behaviour worth noting

- The code emits full `vol-xxxxx` identifiers, the nine-character match of
  the pattern.
- The `vol-.....$` pattern accepts any five characters except a newline in
  the last five places.
- When the watched directory is removed, the watcher only logs. It neither
  unwatches it nor emits a snapshot.
- When the base directory is removed, the watcher cancels itself for good.
- When the directory is missing, `Discover` pushes a nil list.

## Left out

- Goroutines, channels and `select`: inputs arrive as sequences in a fixed
  order, so Go's random choice among ready `select` arms is not modelled.
  Once the watcher is cancelled, its loop takes the `Done` arm at the next
  pass.
- Blocking sends are not modelled. For ListAndWatch, a send whose outcome
  is not among the inputs leaves the call `Pending`. For the watcher, a
  snapshot counts as delivered when it is appended to the outbox.
- fsnotify, `os.ReadDir` and `filepath.EvalSymlinks`: their results are
  inputs or a function parameter.
- `Volwatch.IDDevicePathIsEntry`: `IDDevicePath` appends the target to the
  device directory after a slash, which is what `filepath.Join` gives for a
  non-empty clean target without a slash. The cleaning `Join` does for an
  empty target, `.`, `..` or slashes inside the target is not modelled.
- `FsEvents.ParentDir`: exact only for clean paths, since `path.Clean`'s
  handling of `.`, `..` and repeated slashes is not modelled (a path
  starting `//` does get "/", as `path.Dir` gives).
- The regular-expression engine: only the fixed pattern is modelled, on
  characters, whereas Go's `.` matches runes within UTF-8 bytes.
- Logging, `fatal`/`os.Exit`: the lister's fatal exits on watcher creation
  or `Add` failure (lister.go:76-79, 110-113) and `main.go` are process
  control and wiring.
- `NewPlugin` (lister.go:51-55) builds `&volumeDevicePlugin{kind}`, which
  does not fit the three-field struct at device_plugin.go:15-19. It is not
  modelled. `NewLister` (main.go:21) is defined elsewhere in the program; its
  definition is not modelled.
- `VolumeLister`, `Completion`, `Subscribe`/`Unsubscribe` and the plugin
  manager are not part of this model. `Start`/`Stop` record only the call
  and its key. `CompleteFunc` calls are an acknowledgement log.
- `DevicePlugin.WatchEndsAtFirstAbsence`: when the update channel is closed,
  `CompleteFunc` is called on a zero-value completion (device_plugin.go:76-81).
  The model records that call as `CompletedZeroValue` and does not decide
  whether it panics, because `Completion` is defined elsewhere in the
  program and its definition is not modelled.
- `Events()` and `Event.Volumes()` (volwatch/watcher.go:27-29, 77-79) only
  expose the channel and the slice. The outbox field `emitted` stands for
  them.
- The subscriber registry's fan-out, acknowledgement barrier and
  subscriber races are not part of this model: that code is defined
  elsewhere in the program and its definition is not modelled.
