/** The per-volume device plugin: the ListAndWatch stream that reports the
    volume present and then missing, the Allocate call that maps requested
    ids to device specs, and the constant calls of the device-plugin API. */
module DevicePlugin {
  import opened Outcomes
  import opened FsEvents
  import Volwatch

  /** A plugin instance; the update channel and the lister it subscribes to
      are replaced by the inputs of `ListAndWatch`. */
  datatype VolumeDevicePlugin = VolumeDevicePlugin(volumeID: string)

  datatype Health = Healthy | Unhealthy

  /** One entry of a ListAndWatch response. */
  datatype Device = Device(id: string, health: Health)

  /** `volPresent`: exactly this volume, healthy. */
  function VolPresent(volumeID: string): seq<Device> {
    [Device(volumeID, Healthy)]
  }

  /** `volMissing`: the empty device list. */
  const VolMissing: seq<Device> := []

  /** `DevicePluginOptions` of the device-plugin API. */
  datatype DevicePluginOptions = DevicePluginOptions(preStartRequired: bool, getPreferredAllocationAvailable: bool)

  /** `GetDevicePluginOptions`: empty options and no error. */
  function GetDevicePluginOptions(p: VolumeDevicePlugin): (r: (DevicePluginOptions, Option<Error>))
    ensures !r.0.preStartRequired && !r.0.getPreferredAllocationAvailable
    ensures r.1 == None
  {
    (DevicePluginOptions(false, false), None)
  }

  /** `GetPreferredAllocation`: no preference (a nil response) and no error. */
  function GetPreferredAllocation(p: VolumeDevicePlugin, available: seq<string>, mustInclude: seq<string>, size: nat): (r: (Option<seq<string>>, Option<Error>))
    ensures r.0 == None && r.1 == None
  {
    (None, None)
  }

  /** `PreStartContainer`: nothing to do, a nil response and no error. */
  function PreStartContainer(p: VolumeDevicePlugin, devicesIDs: seq<string>): (r: (Option<()>, Option<Error>))
    ensures r.0 == None && r.1 == None
  {
    (None, None)
  }

  /** `isRemoved`: the event's op is exactly Remove. */
  predicate IsRemoved(event: FsEvent) {
    event.OpIs(Remove)
  }

  /** `isRemoved` is stricter than the watcher's `Has(Remove)` test: a removal
      reported together with another flag is not "removed". */
  lemma IsRemovedIsExact(event: FsEvent)
    ensures IsRemoved(event) ==> event.Has(Remove)
    ensures IsRemoved(event) ==> forall op :: op in event.ops ==> op == Remove
    ensures !IsRemoved(FsEvent(event.name, {Remove, Chmod}))
  {
    assert Chmod in {Remove, Chmod};
  }

  /** The calls `Start` and `Stop` make on the subscriber registry. */
  datatype RegistryCall = Subscribe(key: string) | Unsubscribe(key: string)

  /** `Start`: subscribes under the plugin's volume id, never fails. */
  function Start(p: VolumeDevicePlugin): (r: (RegistryCall, Option<Error>))
    ensures r.0.Subscribe? && r.0.key == p.volumeID && r.1 == None
  {
    (Subscribe(p.volumeID), None)
  }

  /** `Stop`: unsubscribes the plugin's volume id, never fails. */
  function Stop(p: VolumeDevicePlugin): (r: (RegistryCall, Option<Error>))
    ensures r.0.Unsubscribe? && r.0.key == p.volumeID && r.1 == None
  {
    (Unsubscribe(p.volumeID), None)
  }

  // ListAndWatch

  /** What the select of ListAndWatch can receive: the lister's done
      signal, or a value (`ok`) or the closed state (`!ok`) of the update
      channel; a received completion carries its volume list. */
  datatype SessionInput = ListerDone | Update(ok: bool, volumes: seq<string>)

  /** The outcome of one `srv.Send`. */
  datatype SendOutcome = SendOk | SendFailed(err: Error)

  /** One call of `completion.CompleteFunc()`: on a received completion, or
      on the zero-value completion read from a closed channel. */
  datatype Ack = Completed | CompletedZeroValue

  /** How the call ends: still blocked (waiting for an input, or in a send
      whose outcome is not among the inputs), or returned with an error or
      nil. */
  datatype Return = Pending | Returned(err: Option<Error>)

  /** The messages handed to `srv.Send` in order, the acknowledgements in
      order, and how the call ends. */
  datatype Session = Session(sent: seq<seq<Device>>, acks: seq<Ack>, ret: Return)

  /** An update that still lists the volume. */
  predicate StillListed(volumeID: string, input: SessionInput) {
    input.Update? && input.ok && volumeID in input.volumes
  }

  /** The loop of ListAndWatch after the present message went out, with the
      acknowledgements made so far; `sends` are the outcomes of the sends
      still to come. */
  function Watch(volumeID: string, inputs: seq<SessionInput>, sends: seq<SendOutcome>,
                 listerErr: Option<Error>, acks: seq<Ack>): Session
    decreases |inputs|
  {
    if inputs == [] then Session([], acks, Pending)
    else match inputs[0]
      case ListerDone =>
        if sends == [] then Session([VolMissing], acks, Pending)
        else if sends[0].SendFailed? then Session([VolMissing], acks, Returned(Some(sends[0].err)))
        else Session([VolMissing], acks, Returned(listerErr))
      case Update(ok, volumes) =>
        if !(ok && volumeID in volumes) then
          var ack := if ok then Completed else CompletedZeroValue;
          if sends == [] then Session([VolMissing], acks, Pending)
          else if sends[0].SendFailed? then Session([VolMissing], acks + [ack], Returned(Some(sends[0].err)))
          else Session([VolMissing], acks + [ack], Returned(None))
        else Watch(volumeID, inputs[1..], sends, listerErr, acks + [Completed])
  }

  /** A whole ListAndWatch call: the present message, then the loop.
      `listerErr` is what the lister's `Err()` reports once it is done. */
  function ListAndWatchSpec(volumeID: string, inputs: seq<SessionInput>, sends: seq<SendOutcome>,
                            listerErr: Option<Error>): Session
  {
    if sends == [] then Session([VolPresent(volumeID)], [], Pending)
    else if sends[0].SendFailed? then Session([VolPresent(volumeID)], [], Returned(Some(sends[0].err)))
    else
      var w := Watch(volumeID, inputs, sends[1..], listerErr, []);
      Session([VolPresent(volumeID)] + w.sent, w.acks, w.ret)
  }

  /** `ListAndWatch` over the inputs the select receives, in order, and the
      outcomes of the sends, in order. */
  method ListAndWatch(p: VolumeDevicePlugin, inputs: seq<SessionInput>, sends: seq<SendOutcome>,
                      listerErr: Option<Error>)
    returns (sent: seq<seq<Device>>, acks: seq<Ack>, ret: Return)
    ensures Session(sent, acks, ret) == ListAndWatchSpec(p.volumeID, inputs, sends, listerErr)
  {
    sent, acks := [VolPresent(p.volumeID)], [];
    if sends == [] {
      return sent, acks, Pending;
    }
    if sends[0].SendFailed? {
      return sent, acks, Returned(Some(sends[0].err));
    }
    var rest := sends[1..];
    var i := 0;
    while i < |inputs|
      invariant 0 <= i <= |inputs|
      invariant sent == [VolPresent(p.volumeID)]
      invariant Watch(p.volumeID, inputs[i..], rest, listerErr, acks) ==
                Watch(p.volumeID, inputs, rest, listerErr, [])
    {
      match inputs[i] {
        case ListerDone =>
          sent := sent + [VolMissing];
          if rest == [] {
            return sent, acks, Pending;
          }
          if rest[0].SendFailed? {
            return sent, acks, Returned(Some(rest[0].err));
          }
          return sent, acks, Returned(listerErr);
        case Update(ok, volumes) =>
          if !(ok && p.volumeID in volumes) {
            sent := sent + [VolMissing];
            if rest == [] {
              return sent, acks, Pending;
            }
            acks := acks + [if ok then Completed else CompletedZeroValue];
            if rest[0].SendFailed? {
              return sent, acks, Returned(Some(rest[0].err));
            }
            return sent, acks, Returned(None);
          }
          acks := acks + [Completed];
      }
      i := i + 1;
    }
    ret := Pending;
  }

  /** Every call sends the present message first and at most one more
      message, the empty list, which is then the last one. */
  lemma {:induction false} WatchSendsAtMostMissing(volumeID: string, inputs: seq<SessionInput>,
      sends: seq<SendOutcome>, listerErr: Option<Error>, acks: seq<Ack>)
    ensures Watch(volumeID, inputs, sends, listerErr, acks).sent in {[], [VolMissing]}
    decreases |inputs|
  {
    if inputs != [] && StillListed(volumeID, inputs[0]) {
      WatchSendsAtMostMissing(volumeID, inputs[1..], sends, listerErr, acks + [Completed]);
    }
  }

  lemma SessionSendsAtMostTwo(volumeID: string, inputs: seq<SessionInput>, sends: seq<SendOutcome>,
                              listerErr: Option<Error>)
    ensures var r := ListAndWatchSpec(volumeID, inputs, sends, listerErr);
      1 <= |r.sent| <= 2 && r.sent[0] == VolPresent(volumeID) &&
      |r.sent[0]| == 1 && r.sent[0][0].id == volumeID && r.sent[0][0].health == Healthy &&
      (|r.sent| == 2 ==> r.sent[1] == VolMissing)
  {
    WatchSendsAtMostMissing(volumeID, inputs, if sends == [] then [] else sends[1..], listerErr, []);
  }

  /** A failed first send ends the call with that error and nothing else
      sent or acknowledged. */
  lemma FirstSendFailure(volumeID: string, inputs: seq<SessionInput>, e: Error,
                         sends: seq<SendOutcome>, listerErr: Option<Error>)
    ensures ListAndWatchSpec(volumeID, inputs, [SendFailed(e)] + sends, listerErr) ==
      Session([VolPresent(volumeID)], [], Returned(Some(e)))
  {
  }

  /** `k` acknowledgements of `Completed`. */
  function Completions(k: nat): (r: seq<Ack>)
    ensures |r| == k && forall i :: 0 <= i < k ==> r[i] == Completed
  {
    seq(k, _ => Completed)
  }

  /** While every update lists the volume, each is acknowledged once and
      nothing is sent; the call is still waiting when the inputs run out. */
  lemma {:induction false} WatchWhileListed(volumeID: string, inputs: seq<SessionInput>,
      sends: seq<SendOutcome>, listerErr: Option<Error>, acks: seq<Ack>)
    requires forall i :: 0 <= i < |inputs| ==> StillListed(volumeID, inputs[i])
    ensures Watch(volumeID, inputs, sends, listerErr, acks) ==
      Session([], acks + Completions(|inputs|), Pending)
    decreases |inputs|
  {
    if inputs == [] {
      assert acks + Completions(0) == acks;
    } else {
      WatchWhileListed(volumeID, inputs[1..], sends, listerErr, acks + [Completed]);
      assert acks + [Completed] + Completions(|inputs| - 1) == acks + Completions(|inputs|);
    }
  }

  /** How the loop ends at the first input that is not a still-listing
      update, `inputs[k]`: the empty list is sent; an update (received or a
      closed channel) is acknowledged once the send has returned, a done
      lister is not; the call returns the send's error, else the lister's
      error for a done lister and nil for an update. */
  lemma {:induction false} WatchEndsAtFirstAbsence(volumeID: string, inputs: seq<SessionInput>,
      sends: seq<SendOutcome>, listerErr: Option<Error>, acks: seq<Ack>, k: nat)
    requires k < |inputs|
    requires forall i :: 0 <= i < k ==> StillListed(volumeID, inputs[i])
    requires !StillListed(volumeID, inputs[k])
    ensures var r := Watch(volumeID, inputs, sends, listerErr, acks);
      r.sent == [VolMissing] &&
      r.acks == acks + Completions(k) +
        (if inputs[k].Update? && sends != []
         then [if inputs[k].ok then Completed else CompletedZeroValue] else []) &&
      r.ret == (if sends == [] then Pending
                else if sends[0].SendFailed? then Returned(Some(sends[0].err))
                else if inputs[k].ListerDone? then Returned(listerErr)
                else Returned(None))
    decreases k
  {
    if k == 0 {
      assert acks + Completions(0) == acks;
    } else {
      WatchEndsAtFirstAbsence(volumeID, inputs[1..], sends, listerErr, acks + [Completed], k - 1);
      assert acks + [Completed] + Completions(k - 1) == acks + Completions(k);
    }
  }

  // Allocate

  /** A device spec of an allocate response. */
  datatype DeviceSpec = DeviceSpec(containerPath: string, hostPath: string, permissions: string)

  /** A path mounted at the same place in the container, read-write. */
  function ReadWrite(path: string): DeviceSpec {
    DeviceSpec(path, path, "rw")
  }

  /** The device specs of one container request, or the first symlink
      resolution error. `evalSymlinks` stands for `filepath.EvalSymlinks`. */
  function ContainerSpecs(ids: seq<string>, evalSymlinks: string -> Result<string>): Result<seq<DeviceSpec>>
    decreases |ids|
  {
    if ids == [] then Ok([])
    else
      match ContainerSpecs(ids[..|ids| - 1], evalSymlinks)
      case Err(e) => Err(e)
      case Ok(specs) =>
        var idDevicePath := Volwatch.IDDevicePath(ids[|ids| - 1]);
        match evalSymlinks(idDevicePath)
        case Err(e) => Err(e)
        case Ok(diskDevicePath) => Ok(specs + [ReadWrite(idDevicePath), ReadWrite(diskDevicePath)])
  }

  /** A container request succeeds exactly when every id resolves, and a
      failure carries the error of one of the ids. */
  lemma {:induction false} ContainerSpecsSucceeds(ids: seq<string>, evalSymlinks: string -> Result<string>)
    ensures var r := ContainerSpecs(ids, evalSymlinks);
      (r.Ok? <==> forall j :: 0 <= j < |ids| ==> evalSymlinks(Volwatch.IDDevicePath(ids[j])).Ok?) &&
      (r.Err? ==> exists j :: 0 <= j < |ids| && evalSymlinks(Volwatch.IDDevicePath(ids[j])) == Err(r.error))
    decreases |ids|
  {
    if ids != [] {
      var n := |ids| - 1;
      var front := ids[..n];
      ContainerSpecsSucceeds(front, evalSymlinks);
      assert forall j :: 0 <= j < n ==> front[j] == ids[j];
      var r := ContainerSpecs(ids, evalSymlinks);
      if ContainerSpecs(front, evalSymlinks).Err? {
        var j :| 0 <= j < n && evalSymlinks(Volwatch.IDDevicePath(front[j])) == Err(ContainerSpecs(front, evalSymlinks).error);
        assert evalSymlinks(Volwatch.IDDevicePath(ids[j])) == Err(r.error);
      }
    }
  }

  /** The specs of a container request that succeeds: two per id, in
      order, the id's by-id path and then its resolved target, both
      read-write at the same path in the container. */
  lemma {:induction false} ContainerSpecsLayout(ids: seq<string>, evalSymlinks: string -> Result<string>)
    requires ContainerSpecs(ids, evalSymlinks).Ok?
    ensures var specs := ContainerSpecs(ids, evalSymlinks).value;
      |specs| == 2 * |ids| &&
      forall j :: 0 <= j < |ids| ==>
        specs[2 * j] == ReadWrite(Volwatch.IDDevicePath(ids[j])) &&
        evalSymlinks(Volwatch.IDDevicePath(ids[j])).Ok? &&
        specs[2 * j + 1] == ReadWrite(evalSymlinks(Volwatch.IDDevicePath(ids[j])).value)
    decreases |ids|
  {
    if ids != [] {
      var n := |ids| - 1;
      var front := ids[..n];
      ContainerSpecsLayout(front, evalSymlinks);
      var before := ContainerSpecs(front, evalSymlinks).value;
      var path := Volwatch.IDDevicePath(ids[n]);
      var specs := ContainerSpecs(ids, evalSymlinks).value;
      assert specs == before + [ReadWrite(path), ReadWrite(evalSymlinks(path).value)];
      forall j | 0 <= j < |ids|
        ensures specs[2 * j] == ReadWrite(Volwatch.IDDevicePath(ids[j]))
        ensures evalSymlinks(Volwatch.IDDevicePath(ids[j])).Ok?
        ensures specs[2 * j + 1] == ReadWrite(evalSymlinks(Volwatch.IDDevicePath(ids[j])).value)
      {
        if j < n {
          assert front[j] == ids[j];
          assert specs[2 * j] == before[2 * j];
          assert specs[2 * j + 1] == before[2 * j + 1];
        }
      }
    }
  }

  /** An allocate response: one list of device specs per container. */
  datatype AllocateResponse = AllocateResponse(containerResponses: seq<seq<DeviceSpec>>)

  /** The response to a list of container requests (each a list of device
      ids), or the first symlink resolution error, which fails the whole
      call. */
  function AllocateSpec(requests: seq<seq<string>>, evalSymlinks: string -> Result<string>): Result<AllocateResponse>
    decreases |requests|
  {
    if requests == [] then Ok(AllocateResponse([]))
    else
      match AllocateSpec(requests[..|requests| - 1], evalSymlinks)
      case Err(e) => Err(e)
      case Ok(resp) =>
        match ContainerSpecs(requests[|requests| - 1], evalSymlinks)
        case Err(e) => Err(e)
        case Ok(devices) => Ok(AllocateResponse(resp.containerResponses + [devices]))
  }

  /** Allocate succeeds exactly when every container request does; its
      response then has one entry per container request, in order, each
      that container's device specs; a failure carries the error of one of
      the container requests. */
  lemma {:induction false} AllocateShape(requests: seq<seq<string>>, evalSymlinks: string -> Result<string>)
    ensures var r := AllocateSpec(requests, evalSymlinks);
      (r.Ok? <==> forall c :: 0 <= c < |requests| ==> ContainerSpecs(requests[c], evalSymlinks).Ok?) &&
      (r.Ok? ==> (|r.value.containerResponses| == |requests| &&
        forall c :: 0 <= c < |requests| ==>
          r.value.containerResponses[c] == ContainerSpecs(requests[c], evalSymlinks).value)) &&
      (r.Err? ==> exists c :: 0 <= c < |requests| && ContainerSpecs(requests[c], evalSymlinks) == Err(r.error))
    decreases |requests|
  {
    if requests != [] {
      var n := |requests| - 1;
      var front := requests[..n];
      AllocateShape(front, evalSymlinks);
      assert forall c :: 0 <= c < n ==> front[c] == requests[c];
      var r := AllocateSpec(requests, evalSymlinks);
      var last := ContainerSpecs(requests[n], evalSymlinks);
      match AllocateSpec(front, evalSymlinks)
      case Err(e) =>
        var c :| 0 <= c < n && ContainerSpecs(front[c], evalSymlinks) == Err(e);
        assert ContainerSpecs(requests[c], evalSymlinks) == Err(r.error);
      case Ok(resp) =>
        if last.Err? {
          assert ContainerSpecs(requests[n], evalSymlinks) == Err(r.error);
        } else {
          assert r.value.containerResponses == resp.containerResponses + [last.value];
        }
    }
  }

  /** A single id that does not resolve, in any container request, fails the
      whole call. */
  lemma AllocateFailsOnUnresolvedId(requests: seq<seq<string>>, evalSymlinks: string -> Result<string>, c: nat, j: nat)
    requires c < |requests| && j < |requests[c]|
    requires evalSymlinks(Volwatch.IDDevicePath(requests[c][j])).Err?
    ensures AllocateSpec(requests, evalSymlinks).Err?
  {
    ContainerSpecsSucceeds(requests[c], evalSymlinks);
    AllocateShape(requests, evalSymlinks);
  }

  /** Once a prefix of the ids fails, the whole list fails with the same
      error. */
  lemma {:induction false} ContainerSpecsFailureSticks(ids: seq<string>, k: nat, evalSymlinks: string -> Result<string>)
    requires k <= |ids|
    requires ContainerSpecs(ids[..k], evalSymlinks).Err?
    ensures ContainerSpecs(ids, evalSymlinks) == ContainerSpecs(ids[..k], evalSymlinks)
    decreases |ids| - k
  {
    if k < |ids| {
      var longer := ids[..k + 1];
      assert longer[..|longer| - 1] == ids[..k];
      assert ContainerSpecs(longer, evalSymlinks) == ContainerSpecs(ids[..k], evalSymlinks);
      ContainerSpecsFailureSticks(ids, k + 1, evalSymlinks);
    } else {
      assert ids[..k] == ids;
    }
  }

  lemma {:induction false} AllocateFailureSticks(requests: seq<seq<string>>, k: nat, evalSymlinks: string -> Result<string>)
    requires k <= |requests|
    requires AllocateSpec(requests[..k], evalSymlinks).Err?
    ensures AllocateSpec(requests, evalSymlinks) == AllocateSpec(requests[..k], evalSymlinks)
    decreases |requests| - k
  {
    if k < |requests| {
      var longer := requests[..k + 1];
      assert longer[..|longer| - 1] == requests[..k];
      assert AllocateSpec(longer, evalSymlinks) == AllocateSpec(requests[..k], evalSymlinks);
      AllocateFailureSticks(requests, k + 1, evalSymlinks);
    } else {
      assert requests[..k] == requests;
    }
  }

  /** `Allocate`: for each container request, for each requested id, the
      spec of its by-id path and the spec of its resolved target; any
      resolution failure fails the call with a nil response. */
  method Allocate(p: VolumeDevicePlugin, requests: seq<seq<string>>, evalSymlinks: string -> Result<string>)
    returns (r: Result<AllocateResponse>)
    ensures r == AllocateSpec(requests, evalSymlinks)
  {
    var resp: seq<seq<DeviceSpec>> := [];
    for c := 0 to |requests|
      invariant AllocateSpec(requests[..c], evalSymlinks) == Ok(AllocateResponse(resp))
    {
      var ids := requests[c];
      var devices: seq<DeviceSpec> := [];
      for j := 0 to |ids|
        invariant ContainerSpecs(ids[..j], evalSymlinks) == Ok(devices)
      {
        var idDevicePath := Volwatch.IDDevicePath(ids[j]);
        var resolved := evalSymlinks(idDevicePath);
        assert ids[..j + 1][..j] == ids[..j];
        if resolved.Err? {
          ContainerSpecsFailureSticks(ids, j + 1, evalSymlinks);
          assert ids[..|ids|] == ids;
          assert requests[..c + 1][..c] == requests[..c];
          AllocateFailureSticks(requests, c + 1, evalSymlinks);
          return Err(resolved.error);
        }
        devices := devices + [ReadWrite(idDevicePath), ReadWrite(resolved.value)];
      }
      assert ids[..|ids|] == ids;
      assert requests[..c + 1][..c] == requests[..c];
      resp := resp + [devices];
    }
    assert requests[..|requests|] == requests;
    r := Ok(AllocateResponse(resp));
  }
}
