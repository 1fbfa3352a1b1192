/** The selection controller of the current component revision: the mount effect
    with its early exits and its pre-flight fetch, the engine event handlers, the
    teardown, the submission, and the error view. The engine, the host bridge and
    the fetch outcome are inputs; the `await` on the pre-flight fetch splits the
    initialisation into `Mount` (everything before it) and `ResumeAfterPreflight`
    (everything after it), between which a teardown may run. */
module AppController {
  import opened Environment
  import opened RegionCorrection
  import Clock

  /** The region id the handler listens to. */
  const SelectionId: string := "selection"

  /** The first render's `startTime`/`endTime`; the decode handler captured these. */
  const InitialStart: real := 0.0
  const InitialEnd: real := 2.0

  /** What the pre-flight fetch must find in the `content-type` header. */
  const AudioMime: string := "audio/mpeg"

  /** The outcome of the pre-flight GET of the audio URL. */
  datatype FetchResult =
    | Rejected                                            // the fetch promise rejected
    | Response(ok: bool, status: int, contentType: Option<string>)

  datatype PreflightError =
    | Unreachable
    | BadStatus(status: int)
    | NoContentType                                       // `null.includes(...)` throws
    | WrongContentType(contentType: string)

  datatype ErrorCause =
    | ContainerMissing
    | HostUnavailable
    | AudioUrlMissing
    | PreflightFailed(why: PreflightError)
    | LoadFailed
    | PlayerInitFailed
    | SendFailed

  /** What the component renders. */
  datatype Screen =
    | ErrorScreen(cause: ErrorCause)
    | EditorScreen(start: string, end: string, success: bool)

  /** How far the asynchronous initialisation has got. */
  datatype InitStep = NotStarted | AwaitingPreflight | Settled

  /** `p` occurs in `t` at position `i`. */
  predicate OccursAt(t: string, p: string, i: int) {
    0 <= i && i + |p| <= |t| && t[i..i + |p|] == p
  }

  /** `t.includes(p)` */
  function Contains(t: string, p: string): (b: bool)
    ensures b <==> exists i :: OccursAt(t, p, i)
    decreases |t|
  {
    if |t| < |p| then false
    else if t[..|p|] == p then assert OccursAt(t, p, 0); true
    else
      var b := Contains(t[1..], p);
      ShiftOccurrence(t, p);
      b
  }

  lemma ShiftOccurrence(t: string, p: string)
    requires |t| >= |p| && t[..|p|] != p
    ensures (exists i :: OccursAt(t, p, i)) <==> (exists i :: OccursAt(t[1..], p, i))
  {
    if exists i :: OccursAt(t, p, i) {
      var i :| OccursAt(t, p, i);
      assert i != 0;
      assert t[1..][i - 1..i - 1 + |p|] == t[i..i + |p|];
      assert OccursAt(t[1..], p, i - 1);
    }
    if exists i :: OccursAt(t[1..], p, i) {
      var i :| OccursAt(t[1..], p, i);
      assert t[1..][i..i + |p|] == t[i + 1..i + 1 + |p|];
      assert OccursAt(t, p, i + 1);
    }
  }

  /** The checks after the pre-flight `await`: a rejected fetch, a non-ok status, a
      missing header or a header without `audio/mpeg` all land in the same catch. */
  function PreflightCheck(r: FetchResult): (e: Option<PreflightError>)
    ensures e == None <==>
      r.Response? && r.ok && r.contentType.Some? && Contains(r.contentType.value, AudioMime)
  {
    match r
    case Rejected => Some(Unreachable)
    case Response(ok, status, contentType) =>
      if !ok then Some(BadStatus(status))
      else if contentType.None? then Some(NoContentType)
      else if !Contains(contentType.value, AudioMime) then Some(WrongContentType(contentType.value))
      else None
  }

  /** `if (!audioUrlValue)`: an absent or empty `audio` parameter. */
  predicate UrlGiven(param: Option<string>) {
    param.Some? && param.value != ""
  }

  class SelectionController {
    /** `window.Telegram?.WebApp`; null when the page is not opened from the host. */
    const host: TelegramHost?
    /** Published state. */
    var startTime: real
    var endTime: real
    var error: Option<ErrorCause>
    var success: bool
    var audioUrl: string
    /** The effect ran; `cleanupRegistered` says whether it returned a cleanup. */
    var effectRan: bool
    var cleanupRegistered: bool
    /** The effect's local `isMounted` flag. */
    var isMounted: bool
    var step: InitStep
    /** `waveSurferRef.current` */
    var handle: Engine?
    /** The engine whose `error`/`decode` handlers and whose regions plug-in's
        `region-updated` handler were registered; null while none were. */
    var wired: Engine?
    /** The regions added by the decode handler, oldest first. */
    var regions: seq<Region>

    ghost predicate Valid()
      reads this
    {
      (isMounted ==> cleanupRegistered) &&
      (cleanupRegistered ==> effectRan) &&
      (step != NotStarted ==> cleanupRegistered) &&
      (step != Settled ==> handle == null && wired == null) &&
      (isMounted && wired != null ==> handle == wired)
    }

    constructor (host: TelegramHost?)
      ensures Valid() && this.host == host
      ensures startTime == InitialStart && endTime == InitialEnd
      ensures error == None && !success && audioUrl == ""
      ensures !effectRan && !cleanupRegistered && !isMounted && step == NotStarted
      ensures handle == null && wired == null && regions == []
    {
      this.host := host;
      startTime, endTime := InitialStart, InitialEnd;
      error, success, audioUrl := None, false, "";
      effectRan, cleanupRegistered, isMounted := false, false, false;
      step := NotStarted;
      handle, wired := null, null;
      regions := [];
    }

    /** The effect, up to the pre-flight `await`: the container check (which
        returns no cleanup), the host check and the `audio` parameter check. */
    method Mount(containerPresent: bool, audioParam: Option<string>)
      requires Valid() && !effectRan
      modifies this`effectRan, this`cleanupRegistered, this`isMounted, this`step, this`error, this`audioUrl
      ensures Valid() && effectRan
      ensures !containerPresent ==>
        error == Some(ContainerMissing) && !cleanupRegistered && !isMounted && step == NotStarted
      ensures containerPresent ==> cleanupRegistered && isMounted && step != NotStarted
      ensures containerPresent && host == null ==>
        error == Some(HostUnavailable) && step == Settled
      ensures containerPresent && host != null && !UrlGiven(audioParam) ==>
        error == Some(AudioUrlMissing) && step == Settled
      ensures containerPresent && host != null && UrlGiven(audioParam) ==>
        error == old(error) && step == AwaitingPreflight && audioUrl == audioParam.value
      ensures !(containerPresent && host != null && UrlGiven(audioParam)) ==> audioUrl == old(audioUrl)
    {
      effectRan := true;
      if !containerPresent {
        error := Some(ContainerMissing);
        return;
      }
      isMounted := true;
      cleanupRegistered := true;
      if host == null {
        error := Some(HostUnavailable);
        step := Settled;
        return;
      }
      if !UrlGiven(audioParam) {
        error := Some(AudioUrlMissing);
        step := Settled;
        return;
      }
      audioUrl := audioParam.value;
      step := AwaitingPreflight;
    }

    /** The continuation after the pre-flight `await`. Nothing here looks at
        `isMounted` except the outer catch: a failed check is reported, and a new
        engine is stored in the handle, even after teardown. */
    method ResumeAfterPreflight(response: FetchResult, createThrows: bool, destroyThrows: bool)
      requires Valid() && step == AwaitingPreflight
      modifies this`step, this`error, this`handle, this`wired
      ensures Valid() && step == Settled
      ensures PreflightCheck(response).Some? ==>
        error == Some(PreflightFailed(PreflightCheck(response).value)) && handle == null && wired == null
      ensures PreflightCheck(response).None? && createThrows ==>
        error == (if isMounted then Some(PlayerInitFailed) else old(error)) && handle == null && wired == null
      ensures PreflightCheck(response).None? && !createThrows ==>
        error == old(error) && handle != null && wired == handle && fresh(handle) &&
        handle.loadedUrl == Some(audioUrl) && handle.duration == 0.0 &&
        handle.destroyCalls == 0 && handle.destroyThrows == destroyThrows
    {
      step := Settled;
      var failure := PreflightCheck(response);
      if failure.Some? {
        error := Some(PreflightFailed(failure.value));
        return;
      }
      if createThrows {
        if isMounted {
          error := Some(PlayerInitFailed);
        }
        return;
      }
      var ws := new Engine(destroyThrows);
      handle := ws;
      wired := ws;
      ws.Load(audioUrl);
    }

    /** The engine's `error` handler. */
    method OnEngineError()
      requires Valid()
      modifies this`error
      ensures Valid()
      ensures error == if wired != null && isMounted then Some(LoadFailed) else old(error)
    {
      if wired != null && isMounted {
        error := Some(LoadFailed);
      }
    }

    /** The second `decode` handler: adds the selection region with the edges the
        effect's closure captured from the first render. It does not look at
        `isMounted`. */
    method OnDecode()
      requires Valid()
      modifies this`regions
      ensures Valid()
      ensures wired == null ==> regions == old(regions)
      ensures wired != null ==>
        |regions| == |old(regions)| + 1 && regions[..|old(regions)|] == old(regions) &&
        fresh(regions[|old(regions)|]) &&
        regions[|old(regions)|].id == SelectionId &&
        regions[|old(regions)|].start == InitialStart && regions[|old(regions)|].end == InitialEnd
    {
      if wired != null {
        var r := new Region(SelectionId, InitialStart, InitialEnd);
        regions := regions + [r];
      }
    }

    /** The `region-updated` handler: ignores foreign regions and events after
        teardown; otherwise repairs the width, pulls an overshooting selection back
        inside the track, writes the edges back onto the region and publishes them. */
    method OnRegionUpdated(region: Region)
      requires Valid()
      modifies this`startTime, this`endTime, region
      ensures Valid()
      ensures wired != null && isMounted && region.id == SelectionId ==>
        var r := Corrected(old(region.start), old(region.end), handle.duration);
        startTime == r.start && endTime == r.end &&
        region.start == startTime && region.end == endTime
      ensures !(wired != null && isMounted && region.id == SelectionId) ==>
        startTime == old(startTime) && endTime == old(endTime) &&
        region.start == old(region.start) && region.end == old(region.end)
    {
      if wired == null || !isMounted || region.id != SelectionId {
        return;
      }
      var newStart := region.start;
      var newEnd := region.end;
      if newStart >= newEnd {
        newEnd := newStart + MinWidth;
        region.end := newEnd;
      }
      var audioDuration := EffectiveDuration(handle.duration);
      if newEnd > audioDuration {
        newEnd := audioDuration;
        newStart := Max(0.0, newEnd - (region.end - region.start));
        region.start := newStart;
        region.end := newEnd;
      }
      startTime := newStart;
      endTime := newEnd;
    }

    /** The effect's cleanup: clears `isMounted`, then takes the engine out of the
        handle before destroying it; an exception from `destroy()` is swallowed.
        When the effect exited at the container check there is no cleanup. */
    method Cleanup()
      requires Valid()
      modifies this`isMounted, this`handle, handle
      ensures Valid()
      ensures old(cleanupRegistered) ==> !isMounted && handle == null
      ensures old(cleanupRegistered) && old(handle) != null ==>
        old(handle).destroyCalls == old(handle.destroyCalls) + 1 &&
        old(handle).duration == old(handle.duration) && old(handle).loadedUrl == old(handle.loadedUrl)
      ensures !old(cleanupRegistered) ==> isMounted == old(isMounted) && handle == old(handle)
      ensures !old(cleanupRegistered) && old(handle) != null ==>
        old(handle).destroyCalls == old(handle.destroyCalls)
    {
      if !cleanupRegistered {
        return;
      }
      isMounted := false;
      if handle != null {
        var ws := handle;
        handle := null;
        var threw := ws.Destroy();
      }
    }

    /** `handleCut`: without a host or with an empty `initData` it reports an
        error and sends nothing; otherwise it sends both formatted edges once and
        shows the success message. */
    method HandleCut()
      requires Valid()
      modifies this`error, this`success, host
      ensures Valid()
      ensures host != null && host.initData != "" ==>
        host.outbox == old(host.outbox) + [Payload(Clock.FormatTime(startTime), Clock.FormatTime(endTime))] &&
        success && error == old(error)
      ensures !(host != null && host.initData != "") ==>
        error == Some(SendFailed) && success == old(success)
      ensures host != null && host.initData == "" ==> host.outbox == old(host.outbox)
    {
      var data := Payload(Clock.FormatTime(startTime), Clock.FormatTime(endTime));
      if host == null || host.initData == "" {
        error := Some(SendFailed);
        return;
      }
      host.SendData(data);
      success := true;
    }

    /** The render switch: any error replaces the editor. */
    function View(): (s: Screen)
      reads this
      ensures s.ErrorScreen? <==> error.Some?
      ensures s.ErrorScreen? ==> s.cause == error.value
      ensures error.None? ==>
        s.start == Clock.FormatTime(startTime) && s.end == Clock.FormatTime(endTime) && s.success == success
    {
      if error.Some? then ErrorScreen(error.value)
      else EditorScreen(Clock.FormatTime(startTime), Clock.FormatTime(endTime), success)
    }
  }

  /** The pre-flight check on a few concrete responses: two headers that name
      `audio/mpeg` pass, another type and a failed status do not. */
  lemma AudioMpegPasses(status: int)
    ensures PreflightCheck(Response(true, status, Some("audio/mpeg"))) == None
    ensures PreflightCheck(Response(true, status, Some("audio/mpeg; charset=binary"))) == None
    ensures PreflightCheck(Response(true, status, Some("audio/ogg"))) == Some(WrongContentType("audio/ogg"))
    ensures PreflightCheck(Response(false, status, Some("audio/mpeg"))) == Some(BadStatus(status))
  {
    assert "audio/mpeg"[0..|AudioMime|] == AudioMime;
    assert "audio/mpeg; charset=binary"[0..|AudioMime|] == AudioMime;
  }

  /** A normal session: mounted, checked, engine created, then unmounted twice.
      The engine is destroyed once although its `destroy()` throws. */
  method TeardownTwiceDestroysOnce(host: TelegramHost) returns (c: SelectionController, engine: Engine)
    ensures engine.destroyCalls == 1 && c.handle == null && !c.isMounted && c.error == None
  {
    c := new SelectionController(host);
    c.Mount(true, Some("https://host/track.mp3"));
    AudioMpegPasses(200);
    c.ResumeAfterPreflight(Response(true, 200, Some(AudioMime)), false, true);
    engine := c.handle;
    c.Cleanup();
    c.Cleanup();
  }

  /** From any state with an engine in the handle, two teardowns destroy that
      engine exactly once and leave the controller unmounted with an empty handle. */
  method TeardownTwiceFromAnyState(c: SelectionController) returns (engine: Engine)
    requires c.Valid() && c.handle != null
    modifies c`isMounted, c`handle, c.handle
    ensures engine == old(c.handle) && engine.destroyCalls == old(c.handle.destroyCalls) + 1
    ensures c.Valid() && c.handle == null && !c.isMounted
  {
    engine := c.handle;
    c.Cleanup();
    c.Cleanup();
  }

  /** From any state, once the cleanup has run the error and region-updated
      handlers publish nothing and leave every region untouched. */
  method NothingPublishedAfterTeardown(c: SelectionController, region: Region)
    requires c.Valid()
    modifies c`isMounted, c`handle, c.handle, c`error, c`startTime, c`endTime, region
    ensures c.Valid() && !c.isMounted
    ensures c.error == old(c.error) && c.startTime == old(c.startTime) && c.endTime == old(c.endTime)
    ensures region.start == old(region.start) && region.end == old(region.end)
  {
    c.Cleanup();
    c.OnEngineError();
    c.OnRegionUpdated(region);
  }

  /** Unmount while the pre-flight fetch is pending: the continuation still stores
      a new engine, which the teardown that already ran did not destroy, but the
      guarded handlers of that engine publish nothing. */
  method TeardownDuringPreflight(host: TelegramHost, region: Region) returns (c: SelectionController)
    modifies region
    ensures c.handle != null && c.handle.destroyCalls == 0 && !c.isMounted
    ensures c.startTime == InitialStart && c.endTime == InitialEnd && c.error == None
    ensures region.start == old(region.start) && region.end == old(region.end)
  {
    c := new SelectionController(host);
    c.Mount(true, Some("https://host/track.mp3"));
    c.Cleanup();
    AudioMpegPasses(200);
    c.ResumeAfterPreflight(Response(true, 200, Some(AudioMime)), false, false);
    c.OnEngineError();
    c.OnRegionUpdated(region);
  }

  /** Unmount while the pre-flight fetch is pending, then the check fails: the
      unguarded `setError` still runs. */
  method LateFailureAfterTeardown(host: TelegramHost) returns (c: SelectionController)
    ensures !c.isMounted && c.error == Some(PreflightFailed(BadStatus(404)))
  {
    c := new SelectionController(host);
    c.Mount(true, Some("https://host/track.mp3"));
    c.Cleanup();
    c.ResumeAfterPreflight(Response(false, 404, None), false, false);
  }

  /** The track decodes to 30 s and the user drags the selection to 25..40: the
      handler pulls it back to 15..30, keeping its width, on the region too. */
  method DragPastEnd(host: TelegramHost) returns (c: SelectionController, selection: Region)
    ensures fresh(c) && c.Valid() && c.host == host && c.error == None
    ensures c.startTime == 15.0 && c.endTime == 30.0
    ensures selection.start == 15.0 && selection.end == 30.0
  {
    c, selection := DecodedTrack(host);
    selection.start, selection.end := 25.0, 40.0;
    assert Corrected(25.0, 40.0, 30.0) == Interval(15.0, 30.0);
    c.OnRegionUpdated(selection);
  }

  /** The set-up of that scenario: the page mounts with an `audio` parameter,
      the pre-flight passes and a 30-second track decodes, adding the selection. */
  method DecodedTrack(host: TelegramHost) returns (c: SelectionController, selection: Region)
    ensures fresh(c) && fresh(selection) && c.Valid() && c.host == host && c.error == None
    ensures c.wired != null && c.isMounted && c.handle.duration == 30.0
    ensures selection.id == SelectionId && selection.start == InitialStart && selection.end == InitialEnd
  {
    c := new SelectionController(host);
    c.Mount(true, Some("https://host/track.mp3"));
    AudioMpegPasses(200);
    c.ResumeAfterPreflight(Response(true, 200, Some(AudioMime)), false, false);
    var engine := c.handle;
    engine.FinishDecode(30.0);
    c.OnDecode();
    selection := c.regions[0];
  }

  /** ... and the cut then sends the two formatted edges once; by
      `Clock.FormatTimeScenario` they are "00:15" and "00:30". */
  method DragPastEndThenCut(host: TelegramHost) returns (c: SelectionController)
    requires host.initData != "" && host.outbox == []
    modifies host
    ensures host.outbox == [Payload(Clock.FormatTime(15.0), Clock.FormatTime(30.0))]
    ensures c.success && c.error == None
  {
    var selection;
    c, selection := DragPastEnd(host);
    c.HandleCut();
  }
}
