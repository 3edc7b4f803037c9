/** The older discovery loop of package main: it pushes the list of volume
    identifiers to the plugin manager, then blocks on a one-shot fsnotify
    watch until something relevant happens, and starts over. */
module Lister {
  import opened Outcomes
  import opened FsEvents
  import opened VolumeNames
  import Volwatch

  /** The resource namespace advertised to the plugin manager. */
  const ResourceNamespace: string := "volumes.brightbox.com"

  /** The directory the lister enumerates. */
  const WatchDir: string := "/dev/disk/by-id"

  /** `path.Dir(watchDir)`, the directory watched while the watch
      directory is missing. */
  const BaseDir: string := "/dev/disk"

  lemma BaseDirIsParent()
    ensures ParentDir(WatchDir) == BaseDir
  {
    assert WatchDir == BaseDir + "/" + "by-id";
    ParentOfChild(BaseDir, "by-id");
  }

  /** `GetResourceNamespace`: always the fixed namespace. */
  function GetResourceNamespace(): (ns: string)
    ensures ns == "volumes.brightbox.com"
  {
    ResourceNamespace
  }

  /** `isWatchDir`: the op is exactly Create and the event names the watch
      directory. */
  predicate IsWatchDir(event: FsEvent) {
    event.OpIs(Create) && event.name == WatchDir
  }

  /** `isVolume`: the op is exactly Create or exactly Remove, and the event
      names an entry directly inside the watch directory. */
  predicate IsVolume(event: FsEvent) {
    (event.OpIs(Create) || event.OpIs(Remove)) && ParentDir(event.name) == WatchDir
  }

  /** The lister's matchers compare the whole op with `==`: they are the
      watcher's `Has`-based predicates restricted to single-flag events, and
      an event carrying two flags never matches. */
  lemma MatchersAreExact(event: FsEvent)
    ensures IsWatchDir(event) <==> Volwatch.IsDirCreate(event, WatchDir) && event.ops == {Create}
    ensures IsVolume(event) <==>
      Volwatch.IsVolChange(event, WatchDir) && (event.ops == {Create} || event.ops == {Remove})
    ensures |event.ops| >= 2 ==> !IsWatchDir(event) && !IsVolume(event)
  {
  }

  /** A creation of the watch directory reported with an extra flag wakes
      the watcher of watcher.go but not the lister. */
  lemma CombinedFlagsMissed()
    ensures Volwatch.IsDirCreate(FsEvent(WatchDir, {Create, Chmod}), WatchDir)
    ensures !IsWatchDir(FsEvent(WatchDir, {Create, Chmod}))
  {
    assert Chmod in {Create, Chmod};
  }

  /** `enumerateVolumes` of lister.go, the same filter as the watcher's. */
  method EnumerateVolumes(dirents: seq<DirEntry>) returns (result: seq<string>)
    ensures result == Identifiers(dirents)
  {
    result := Volwatch.EnumerateVolumes(dirents);
  }

  /** What the goroutine of `waitForChanges` can receive, in order: an event,
      a closed events channel, an error, or a closed errors channel. */
  datatype WatchSignal =
    | EventReceived(event: FsEvent)
    | EventsClosed
    | ErrorReceived(err: Error)
    | ErrorsClosed

  /** The two matchers `Discover` passes to `waitForChanges`. */
  datatype Matcher = WatchDirMatcher | VolumeMatcher

  /** The function a matcher stands for. */
  function MatcherFunction(m: Matcher): FsEvent -> bool {
    match m
    case WatchDirMatcher => IsWatchDir
    case VolumeMatcher => IsVolume
  }

  /** A signal the goroutine passes over: an event that does not match. */
  predicate Skipped(signal: WatchSignal, matchEvent: FsEvent -> bool) {
    signal.EventReceived? && !matchEvent(signal.event)
  }

  /** `waitForChanges` on the signals its watch delivers: `Some(true)` at the
      first matching event, `Some(false)` at a closed channel or an error
      that comes first, and `None` (still blocked) when every signal is a
      non-matching event. */
  function WaitForChanges(signals: seq<WatchSignal>, matchEvent: FsEvent -> bool): Option<bool>
    decreases |signals|
  {
    if signals == [] then None
    else match signals[0]
      case EventReceived(event) =>
        if matchEvent(event) then Some(true) else WaitForChanges(signals[1..], matchEvent)
      case _ => Some(false)
  }

  /** The wait stays blocked exactly when every signal is a non-matching
      event, and reports a change exactly when a matching event comes
      before any closed channel or error; otherwise it reports failure. */
  lemma {:induction false} WaitForChangesOutcome(signals: seq<WatchSignal>, matchEvent: FsEvent -> bool)
    ensures WaitForChanges(signals, matchEvent) == None <==>
      forall i :: 0 <= i < |signals| ==> Skipped(signals[i], matchEvent)
    ensures WaitForChanges(signals, matchEvent) == Some(true) <==>
      exists i :: 0 <= i < |signals| && signals[i].EventReceived? && matchEvent(signals[i].event) &&
        forall j :: 0 <= j < i ==> Skipped(signals[j], matchEvent)
    decreases |signals|
  {
    if signals != [] && Skipped(signals[0], matchEvent) {
      var rest := signals[1..];
      WaitForChangesOutcome(rest, matchEvent);
      assert forall i :: 1 <= i < |signals| ==> signals[i] == rest[i - 1];
      if WaitForChanges(rest, matchEvent) == Some(true) {
        var i :| 0 <= i < |rest| && rest[i].EventReceived? && matchEvent(rest[i].event) &&
          forall j :: 0 <= j < i ==> Skipped(rest[j], matchEvent);
        assert signals[i + 1] == rest[i];
      }
      if exists i :: 0 <= i < |signals| && signals[i].EventReceived? && matchEvent(signals[i].event) &&
          forall j :: 0 <= j < i ==> Skipped(signals[j], matchEvent) {
        var i :| 0 <= i < |signals| && signals[i].EventReceived? && matchEvent(signals[i].event) &&
          forall j :: 0 <= j < i ==> Skipped(signals[j], matchEvent);
        assert i > 0;
        assert forall j :: 0 <= j < i - 1 ==> rest[j] == signals[j + 1];
      }
    }
  }

  /** A call of `waitForChanges`: the directory watched and the matcher. */
  datatype WaitTarget = WaitTarget(dir: string, matcher: Matcher)

  /** One iteration of `Discover`: the outcome of reading the directory and
      the signals its wait then receives. */
  datatype Round = Round(read: ReadResult, signals: seq<WatchSignal>)

  /** The list one iteration pushes: nil when the directory is missing,
      otherwise the identifiers of whatever entries the read returned,
      even alongside an error other than not-exist. */
  function RoundList(read: ReadResult): Option<seq<string>> {
    match read
    case NotExist => None
    case Entries(files) => Some(Identifiers(files))
    case ReadFailed(partial) => Some(Identifiers(partial))
  }

  /** The wait one iteration makes: on the parent (`BaseDir`, see
      `BaseDirIsParent`) for the directory's creation when it is missing,
      on the directory for a volume change otherwise. */
  function RoundWait(read: ReadResult): WaitTarget {
    if read.NotExist? then WaitTarget(BaseDir, WatchDirMatcher)
    else WaitTarget(WatchDir, VolumeMatcher)
  }

  /** An error other than not-exist is not taken for absence: the
      iteration enumerates the entries returned and watches the
      directory. */
  lemma ReadErrorIsNotAbsence(partial: seq<DirEntry>)
    ensures RoundList(ReadFailed(partial)) == Some(Identifiers(partial))
    ensures RoundWait(ReadFailed(partial)) == WaitTarget(WatchDir, VolumeMatcher)
  {
  }

  /** The wait of an iteration has returned, with a match or a failure. */
  predicate WaitEnded(round: Round, wait: WaitTarget) {
    WaitForChanges(round.signals, MatcherFunction(wait.matcher)).Some?
  }

  /** The push of one `Discover` iteration and the wait it then makes. */
  method DiscoverRound(read: ReadResult) returns (list: Option<seq<string>>, wait: WaitTarget)
    ensures list == RoundList(read) && wait == RoundWait(read)
  {
    match read {
      case NotExist =>
        list := None;
        wait := WaitTarget(BaseDir, WatchDirMatcher);
      case Entries(files) =>
        var names := EnumerateVolumes(files);
        list := Some(names);
        wait := WaitTarget(WatchDir, VolumeMatcher);
      case ReadFailed(files) =>
        var names := EnumerateVolumes(files);
        list := Some(names);
        wait := WaitTarget(WatchDir, VolumeMatcher);
    }
  }

  /** How many iterations `Discover` makes over `rounds` from iteration
      `i` on: it goes on after a wait that returned, with a match or a
      failure alike, and stays in the first wait that is still blocked. */
  function IterationsFrom(rounds: seq<Round>, i: nat): (n: nat)
    requires i <= |rounds|
    decreases |rounds| - i
  {
    if i == |rounds| then i
    else if !WaitEnded(rounds[i], RoundWait(rounds[i].read)) then i + 1
    else IterationsFrom(rounds, i + 1)
  }

  /** From iteration `i` on, the loop makes at least one more iteration
      when one remains; every wait before the last has returned, and when
      iterations remain the last wait is still blocked. */
  lemma {:induction false} IterationsFromStop(rounds: seq<Round>, i: nat)
    requires i <= |rounds|
    ensures i <= IterationsFrom(rounds, i) <= |rounds|
    ensures i < |rounds| ==> i < IterationsFrom(rounds, i)
    ensures forall k :: i <= k < IterationsFrom(rounds, i) - 1 ==>
      WaitEnded(rounds[k], RoundWait(rounds[k].read))
    ensures IterationsFrom(rounds, i) < |rounds| ==>
      !WaitEnded(rounds[IterationsFrom(rounds, i) - 1], RoundWait(rounds[IterationsFrom(rounds, i) - 1].read))
    decreases |rounds| - i
  {
    if i < |rounds| && WaitEnded(rounds[i], RoundWait(rounds[i].read)) {
      IterationsFromStop(rounds, i + 1);
    }
  }

  /** The number of iterations `Discover` makes over `rounds`. */
  function Iterations(rounds: seq<Round>): (n: nat)
    ensures n <= |rounds|
    ensures rounds != [] ==> n > 0
    ensures forall k :: 0 <= k < n - 1 ==> WaitEnded(rounds[k], RoundWait(rounds[k].read))
    ensures n < |rounds| ==> !WaitEnded(rounds[n - 1], RoundWait(rounds[n - 1].read))
  {
    IterationsFromStop(rounds, 0);
    IterationsFrom(rounds, 0)
  }

  /** `Discover`: the loop of iterations, each pushing the list
      `RoundList` gives and then making the wait `RoundWait` gives, for as
      many iterations as `Iterations` counts. */
  method Discover(rounds: seq<Round>) returns (pushed: seq<Option<seq<string>>>, waits: seq<WaitTarget>)
    ensures |pushed| == |waits| == Iterations(rounds)
    ensures forall k :: 0 <= k < |pushed| ==>
      pushed[k] == RoundList(rounds[k].read) && waits[k] == RoundWait(rounds[k].read)
  {
    pushed, waits := [], [];
    var i := 0;
    while i < |rounds|
      invariant 0 <= i <= |rounds| && |pushed| == |waits| == i
      invariant IterationsFrom(rounds, i) == IterationsFrom(rounds, 0)
      invariant forall k :: 0 <= k < i ==>
        pushed[k] == RoundList(rounds[k].read) && waits[k] == RoundWait(rounds[k].read)
    {
      var round := rounds[i];
      var list, wait := DiscoverRound(round.read);
      pushed, waits := pushed + [list], waits + [wait];
      var outcome := WaitForChanges(round.signals, MatcherFunction(wait.matcher));
      if outcome == None {
        return;
      }
      i := i + 1;
    }
  }
}
