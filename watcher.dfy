/** The volume watcher of package volwatch: it watches the device directory
    and its parent, classifies file-system events, and pushes a fresh
    snapshot of volume identifiers whenever the directory's contents or
    presence change. */
module Volwatch {
  import opened Outcomes
  import opened FsEvents
  import opened VolumeNames

  /** The directory the watcher watches by default. */
  const DeviceDir: string := "/dev/disk/by-id"

  /** `IDDevicePath(target)`, i.e. `filepath.Join(deviceDir, target)`, for a
      target that path cleaning leaves alone: the target appended to the
      device directory after a slash. */
  function IDDevicePath(target: string): string {
    DeviceDir + "/" + target
  }

  /** For a target without a slash, `IDDevicePath` names the entry of that
      name inside the device directory: its parent is the device directory
      and what follows the separating slash is the target. */
  lemma IDDevicePathIsEntry(target: string)
    requires '/' !in target
    ensures var p := IDDevicePath(target);
      ParentDir(p) == DeviceDir && |p| == |DeviceDir| + 1 + |target| &&
      p[|DeviceDir|] == '/' && p[|DeviceDir| + 1..] == target
  {
    ParentOfChild(DeviceDir, target);
  }

  lemma DeviceDirParent()
    ensures ParentDir(DeviceDir) == "/dev/disk"
  {
    assert DeviceDir == "/dev/disk" + "/" + "by-id";
    ParentOfChild("/dev/disk", "by-id");
  }

  /** `isDirRemove`: the event has the Remove flag and names the target. */
  predicate IsDirRemove(event: FsEvent, targetDir: string) {
    event.Has(Remove) && event.name == targetDir
  }

  /** `isDirCreate`: the event has the Create flag and names the target. */
  predicate IsDirCreate(event: FsEvent, targetDir: string) {
    event.Has(Create) && event.name == targetDir
  }

  /** `isVolChange`: the event has the Create or the Remove flag and names an
      entry directly inside the target. */
  predicate IsVolChange(event: FsEvent, targetDir: string) {
    (event.Has(Create) || event.Has(Remove)) && ParentDir(event.name) == targetDir
  }

  /** The arms of the event switch in `run`, in the order they are tried. */
  datatype Branch = WatchDirRemoved | BaseDirRemoved | WatchDirCreated | VolumeChanged | Ignored

  /** Which arm of the switch an event takes: the first arm whose predicate
      holds, and `Ignored` when none does. */
  function Classify(event: FsEvent, watchDir: string): (b: Branch)
    ensures b == WatchDirRemoved <==> IsDirRemove(event, watchDir)
    ensures b == BaseDirRemoved <==>
      !IsDirRemove(event, watchDir) && IsDirRemove(event, ParentDir(watchDir))
    ensures b == WatchDirCreated <==>
      !IsDirRemove(event, watchDir) && !IsDirRemove(event, ParentDir(watchDir)) &&
      IsDirCreate(event, watchDir)
    ensures b == VolumeChanged <==>
      !IsDirRemove(event, watchDir) && !IsDirRemove(event, ParentDir(watchDir)) &&
      !IsDirCreate(event, watchDir) && IsVolChange(event, watchDir)
    ensures b == Ignored <==>
      !IsDirRemove(event, watchDir) && !IsDirRemove(event, ParentDir(watchDir)) &&
      !IsDirCreate(event, watchDir) && !IsVolChange(event, watchDir)
  {
    if IsDirRemove(event, watchDir) then WatchDirRemoved
    else if IsDirRemove(event, ParentDir(watchDir)) then BaseDirRemoved
    else if IsDirCreate(event, watchDir) then WatchDirCreated
    else if IsVolChange(event, watchDir) then VolumeChanged
    else Ignored
  }

  /** A Create or Remove of an entry of the device directory is a volume
      change, whatever other flags it carries. */
  lemma VolumeEntryEventIsChange(id: string, ops: set<Op>)
    requires '/' !in id
    requires Create in ops || Remove in ops
    ensures Classify(FsEvent(IDDevicePath(id), ops), DeviceDir) == VolumeChanged
  {
    var p := IDDevicePath(id);
    IDDevicePathIsEntry(id);
    DeviceDirParent();
    assert p != DeviceDir by { assert |p| > |DeviceDir|; }
    assert p != "/dev/disk" by { assert |p| > |DeviceDir|; }
  }

  /** An event naming the watched directory itself is never taken for a
      change inside it (unless the path is a root, where it is its own
      parent). */
  lemma DirectoryEventIsNotVolumeChange(event: FsEvent, watchDir: string)
    requires event.name == watchDir && '/' in watchDir && watchDir != "/"
    ensures !IsVolChange(event, watchDir)
  {
    var d := ParentDir(watchDir);
    if d != "/" {
      assert |d| < |watchDir|;
    }
  }

  /** `enumerateVolumes`: the identifiers of a directory listing, in
      listing order, skipping directories and names without a match. */
  method EnumerateVolumes(dirents: seq<DirEntry>) returns (result: seq<string>)
    ensures result == Identifiers(dirents)
  {
    result := [];
    for i := 0 to |dirents|
      invariant result == Identifiers(dirents[..i])
    {
      var ent := dirents[i];
      assert dirents[..i + 1] == dirents[..i] + [ent];
      IdentifiersAppend(dirents[..i], [ent]);
      if ent.isDir {
        continue;
      }
      var m := FindVolume(ent.name);
      if m.Some? {
        result := result + [m.value];
      }
    }
    assert dirents[..|dirents|] == dirents;
  }

  /** The observable state of a watcher: whether its context is cancelled,
      whether its `run` loop has returned, the directories it has asked the
      fsnotify watch to add (in order), and the snapshots it has pushed onto
      its events channel (in order). */
  datatype WatchState = WatchState(
    cancelled: bool,
    exited: bool,
    adds: seq<string>,
    emitted: seq<seq<string>>)
  {
    /** `Done()` is closed exactly when the context is cancelled. */
    predicate Done() { cancelled }

    /** `Err()`: nil until cancelled, then the cancellation error. */
    function Err(): Option<Error> { if cancelled then Some(Canceled) else None }

    /** A state a watcher can be in: its loop returns only once its context
        is cancelled. */
    predicate Valid() { exited ==> cancelled }
  }

  /** A freshly created watcher. */
  const Initial: WatchState := WatchState(false, false, [], [])

  /** What the watch loop can receive: a value on the watch's error channel,
      a closed events channel, or an event. An event carries the outcomes
      of the calls its arm may make: the re-add of the watched directory
      and the directory read. */
  datatype WatchInput =
    | WatchError(err: Error)
    | EventsClosed
    | Notify(event: FsEvent, addOk: bool, read: ReadResult)

  /** `readAndNotify`: a successful read pushes the snapshot of the listing,
      a not-exist error does nothing, any other error cancels. */
  function AfterRead(s: WatchState, read: ReadResult): (r: WatchState)
    ensures r.exited == s.exited && r.adds == s.adds
    ensures read.Entries? ==>
      r.emitted == s.emitted + [Identifiers(read.entries)] && r.cancelled == s.cancelled
    ensures read.NotExist? ==> r == s
    ensures read.ReadFailed? ==> r.emitted == s.emitted && r.cancelled
  {
    match read
    case Entries(files) => s.(emitted := s.emitted + [Identifiers(files)])
    case NotExist => s
    case ReadFailed(_) => s.(cancelled := true)
  }

  /** The start of `run`: add the base directory (on failure cancel and
      return), then add the watched directory and, if that worked, read it
      and notify. */
  function AfterStart(watchDir: string, baseAdded: bool, dirAdded: bool, read: ReadResult): (s: WatchState)
    ensures s.adds == if baseAdded then [ParentDir(watchDir), watchDir] else [ParentDir(watchDir)]
    ensures !baseAdded ==> s.cancelled && s.exited && s.emitted == []
    ensures baseAdded ==> !s.exited
    ensures baseAdded && dirAdded && read.Entries? ==>
      s.emitted == [Identifiers(read.entries)] && !s.cancelled
    ensures baseAdded && (!dirAdded || read.NotExist?) ==> s.emitted == [] && !s.cancelled
    ensures baseAdded && dirAdded && read.ReadFailed? ==> s.emitted == [] && s.cancelled
  {
    var added := Initial.(adds := [ParentDir(watchDir)]);
    if !baseAdded then added.(cancelled := true, exited := true)
    else
      var both := added.(adds := added.adds + [watchDir]);
      if dirAdded then AfterRead(both, read) else both
  }

  /** One pass of the loop that received an input rather than the
      cancellation signal: the arm of the select, and for an event the arm
      of the switch that `Classify` picks. */
  function AfterEvent(s: WatchState, watchDir: string, input: WatchInput): (r: WatchState)
    ensures r.exited == s.exited
    ensures s.cancelled ==> r.cancelled
    ensures r.adds == s.adds || r.adds == s.adds + [watchDir]
    ensures r.emitted == s.emitted ||
      (input.Notify? && input.read.Entries? && r.emitted == s.emitted + [Identifiers(input.read.entries)])
  {
    match input
    case WatchError(_) => s.(cancelled := true)
    case EventsClosed => s.(cancelled := true)
    case Notify(event, addOk, read) =>
      match Classify(event, watchDir)
      case WatchDirRemoved => s
      case BaseDirRemoved => s.(cancelled := true)
      case WatchDirCreated =>
        var readded := s.(adds := s.adds + [watchDir]);
        if addOk then AfterRead(readded, read) else readded.(cancelled := true)
      case VolumeChanged => AfterRead(s, read)
      case Ignored => s
  }

  /** Each arm in the order the switch tries them, and what it does. */
  lemma EventBranches(s: WatchState, watchDir: string, input: WatchInput)
    ensures !input.Notify? ==> AfterEvent(s, watchDir, input) == s.(cancelled := true)
    ensures input.Notify? && IsDirRemove(input.event, watchDir) ==>
      AfterEvent(s, watchDir, input) == s
    ensures (input.Notify? && !IsDirRemove(input.event, watchDir) &&
             IsDirRemove(input.event, ParentDir(watchDir))) ==>
      AfterEvent(s, watchDir, input) == s.(cancelled := true)
    ensures (input.Notify? && !IsDirRemove(input.event, watchDir) &&
             !IsDirRemove(input.event, ParentDir(watchDir)) && IsDirCreate(input.event, watchDir)) ==>
      AfterEvent(s, watchDir, input) ==
        if input.addOk then AfterRead(s.(adds := s.adds + [watchDir]), input.read)
        else s.(adds := s.adds + [watchDir], cancelled := true)
    ensures input.Notify? && Classify(input.event, watchDir) == VolumeChanged ==>
      AfterEvent(s, watchDir, input) == AfterRead(s, input.read)
    ensures input.Notify? && Classify(input.event, watchDir) == Ignored ==>
      AfterEvent(s, watchDir, input) == s
  {
  }

  /** The `for { select }` loop of `run` over a sequence of inputs: once the
      context is cancelled the next pass takes the `Done` arm and returns;
      otherwise the next input is handled. */
  function AfterLoop(s: WatchState, watchDir: string, inputs: seq<WatchInput>): WatchState
    decreases |inputs|
  {
    if s.exited then s
    else if s.cancelled then s.(exited := true)
    else if inputs == [] then s
    else AfterLoop(AfterEvent(s, watchDir, inputs[0]), watchDir, inputs[1..])
  }

  /** The snapshots that the inputs' successful reads would produce. */
  function ReadSnapshots(inputs: seq<WatchInput>): seq<seq<string>> {
    if inputs == [] then []
    else
      (if inputs[0].Notify? && inputs[0].read.Entries?
       then [Identifiers(inputs[0].read.entries)] else [])
      + ReadSnapshots(inputs[1..])
  }

  /** Over any run of the loop: the outbox and the add log only grow at the
      end; at most one snapshot is pushed per input, and each is the
      snapshot of one of the inputs' reads; cancellation is never undone,
      and once cancelled nothing more is pushed or added and the loop has
      returned; the loop has returned exactly when it is cancelled. */
  lemma {:induction false} LoopOutbox(s: WatchState, watchDir: string, inputs: seq<WatchInput>)
    requires s.Valid()
    ensures var r := AfterLoop(s, watchDir, inputs);
      s.emitted <= r.emitted && s.adds <= r.adds &&
      |r.emitted| <= |s.emitted| + |inputs| &&
      (forall k :: |s.emitted| <= k < |r.emitted| ==> r.emitted[k] in ReadSnapshots(inputs)) &&
      (s.cancelled ==> r.cancelled && r.emitted == s.emitted && r.adds == s.adds) &&
      (r.exited <==> r.cancelled)
    decreases |inputs|
  {
    if !s.exited && !s.cancelled && inputs != [] {
      var t := AfterEvent(s, watchDir, inputs[0]);
      LoopOutbox(t, watchDir, inputs[1..]);
      var r := AfterLoop(s, watchDir, inputs);
      assert r == AfterLoop(t, watchDir, inputs[1..]);
      assert ReadSnapshots(inputs) ==
        (if inputs[0].Notify? && inputs[0].read.Entries?
         then [Identifiers(inputs[0].read.entries)] else []) + ReadSnapshots(inputs[1..]);
      forall k | |s.emitted| <= k < |r.emitted| ensures r.emitted[k] in ReadSnapshots(inputs) {
        if k >= |t.emitted| {
          assert r.emitted[k] in ReadSnapshots(inputs[1..]);
        } else {
          assert t.emitted[k] == Identifiers(inputs[0].read.entries);
        }
      }
    }
  }

  /** Cancellation is permanent: once `Err()` reports an error, `Done()` is
      closed and `Err()` reports the cancellation after any further run of
      the loop. */
  lemma CancellationIsSticky(s: WatchState, watchDir: string, inputs: seq<WatchInput>)
    requires s.Valid()
    requires s.Err().Some?
    ensures AfterLoop(s, watchDir, inputs).Done()
    ensures AfterLoop(s, watchDir, inputs).Err() == Some(Canceled)
  {
    LoopOutbox(s, watchDir, inputs);
  }

  /** When the watched directory can be added at start-up, its snapshot is
      the first one pushed, before any event is handled. */
  lemma StartupSnapshotComesFirst(watchDir: string, entries: seq<DirEntry>, inputs: seq<WatchInput>)
    ensures var r := AfterLoop(AfterStart(watchDir, true, true, Entries(entries)), watchDir, inputs);
      |r.emitted| >= 1 && r.emitted[0] == Identifiers(entries)
  {
    LoopOutbox(AfterStart(watchDir, true, true, Entries(entries)), watchDir, inputs);
  }

  /** When the base directory cannot be watched, the watcher is cancelled
      and has pushed nothing, whatever follows. */
  lemma BaseWatchFailureCancels(watchDir: string, dirAdded: bool, read: ReadResult, inputs: seq<WatchInput>)
    ensures var r := AfterLoop(AfterStart(watchDir, false, dirAdded, read), watchDir, inputs);
      r.cancelled && r.exited && r.emitted == []
  {
    LoopOutbox(AfterStart(watchDir, false, dirAdded, read), watchDir, inputs);
  }

  /** A watcher started while its directory is missing pushes an empty
      snapshot, not none, once the directory is created empty. */
  lemma CreatedEmptyDirectoryGivesEmptySnapshot(watchDir: string, read: ReadResult)
    ensures
      AfterLoop(AfterStart(watchDir, true, false, read), watchDir,
                [Notify(FsEvent(watchDir, {Create}), true, Entries([]))]).emitted == [[]]
  {
    var e := FsEvent(watchDir, {Create});
    assert Classify(e, watchDir) == WatchDirCreated;
  }

  /** A volume watcher: its cancellation flag, whether its `run` loop has
      returned, the log of directories added to its fsnotify watch, and the
      snapshots pushed onto its events channel. */
  class VolumeWatcher {
    const watchDir: string
    var cancelled: bool
    var exited: bool
    var adds: seq<string>
    var emitted: seq<seq<string>>

    function State(): WatchState
      reads this
    {
      WatchState(cancelled, exited, adds, emitted)
    }

    /** The states the lemmas about runs are about. */
    predicate Valid()
      reads this
    {
      State().Valid()
    }

    constructor (dir: string)
      ensures watchDir == dir && State() == Initial && Valid()
    {
      watchDir := dir;
      cancelled, exited := false, false;
      adds, emitted := [], [];
    }

    /** `Done()`: closed once the watcher has been cancelled. */
    function Done(): bool
      reads this
    {
      State().Done()
    }

    /** `Err()`: the cancellation error once cancelled, nil before. */
    function Err(): Option<Error>
      reads this
    {
      State().Err()
    }

    /** `Cancel()`: cancels the context; nothing else changes. */
    method Cancel()
      requires Valid()
      modifies this
      ensures Valid()
      ensures State() == old(State()).(cancelled := true)
      ensures Done() && Err() == Some(Canceled)
    {
      cancelled := true;
    }

    /** `warnAndCancel`: logs (not modelled) and cancels. */
    method WarnAndCancel(message: string, err: Error)
      requires Valid()
      modifies this
      ensures Valid()
      ensures State() == old(State()).(cancelled := true)
    {
      Cancel();
    }

    /** `readAndNotify` on the outcome of reading the watched directory. */
    method ReadAndNotify(read: ReadResult)
      requires Valid()
      modifies this
      ensures Valid()
      ensures State() == AfterRead(old(State()), read)
    {
      match read
      case Entries(files) =>
        var snapshot := EnumerateVolumes(files);
        emitted := emitted + [snapshot];
      case NotExist =>
      case ReadFailed(_) =>
        WarnAndCancel("Failed to read " + watchDir, Failure("read failed"));
    }

    /** One received input of the loop: a watch error, a closed events
      channel, or an event dispatched through the switch. */
    method Handle(input: WatchInput)
      requires Valid()
      modifies this
      ensures Valid()
      ensures State() == AfterEvent(old(State()), watchDir, input)
    {
      match input
      case WatchError(err) =>
        WarnAndCancel("Unexpected volume watch errors", err);
      case EventsClosed =>
        WarnAndCancel("Unexpected volume watch event error", Failure("watch event error"));
      case Notify(event, addOk, read) =>
        if IsDirRemove(event, watchDir) {
          // the watched directory is gone; only logged
        } else if IsDirRemove(event, ParentDir(watchDir)) {
          Cancel();
        } else if IsDirCreate(event, watchDir) {
          adds := adds + [watchDir];
          if addOk {
            ReadAndNotify(read);
          } else {
            WarnAndCancel("Failed to add " + watchDir + " to watcher", Failure("add failed"));
          }
        } else if IsVolChange(event, watchDir) {
          ReadAndNotify(read);
        }
    }

    /** `run`: start-up, then the loop over the given inputs until the
      watcher is cancelled or the inputs run out. `baseAdded` and
      `dirAdded` are the outcomes of the two start-up adds and `read` that
      of the start-up read. */
    method Run(baseAdded: bool, dirAdded: bool, read: ReadResult, inputs: seq<WatchInput>)
      requires State() == Initial
      modifies this
      ensures Valid()
      ensures State() == AfterLoop(AfterStart(watchDir, baseAdded, dirAdded, read), watchDir, inputs)
    {
      var baseDir := ParentDir(watchDir);
      adds := adds + [baseDir];
      if !baseAdded {
        WarnAndCancel("Failed to add " + baseDir + " to watcher", Failure("add failed"));
        exited := true;
        return;
      }
      adds := adds + [watchDir];
      if dirAdded {
        ReadAndNotify(read);
      }
      ghost var start := State();
      assert start == AfterStart(watchDir, baseAdded, dirAdded, read);
      var i := 0;
      while !exited && (cancelled || i < |inputs|)
        invariant 0 <= i <= |inputs|
        invariant Valid()
        invariant AfterLoop(State(), watchDir, inputs[i..]) == AfterLoop(start, watchDir, inputs)
        decreases |inputs| - i, if exited then 0 else 1
      {
        if cancelled {
          exited := true;
        } else {
          Handle(inputs[i]);
          i := i + 1;
        }
      }
    }
  }

  /** `NewWatchDir`: a new watcher on `dir` when the fsnotify watcher could
      be created (`created`), nil otherwise. */
  method NewWatchDir(dir: string, created: bool) returns (w: VolumeWatcher?)
    ensures created <==> w != null
    ensures w != null ==> fresh(w) && w.watchDir == dir && w.State() == Initial && w.Valid()
  {
    if !created {
      return null;
    }
    w := new VolumeWatcher(dir);
  }
}
