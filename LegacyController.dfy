/** The earlier revision of the component (`src/App.jsx`): no liveness flag, no
    correction of the region, a cleanup that destroys through the handle without
    clearing it, and an effect that re-runs whenever `audioUrl` changes. */
module LegacyController {
  import opened Environment
  import Clock

  const DefaultAudioUrl: string := "https://www.soundhelix.com/examples/mp3/SoundHelix-Song-1.mp3"

  /** The region the effect adds. */
  const InitialRegionId: string := "cut"
  const InitialRegionStart: real := 0.0
  const InitialRegionEnd: real := 10.0

  /** `audio || default`: an absent or empty `audio` parameter selects the bundled track. */
  function AudioUrlOrDefault(param: Option<string>): (url: string)
    ensures url != ""
    ensures param.Some? && param.value != "" ==> url == param.value
    ensures (param.None? || param.value == "") ==> url == DefaultAudioUrl
  {
    if param.Some? && param.value != "" then param.value else DefaultAudioUrl
  }

  class LegacyController {
    /** `window.Telegram?.WebApp` */
    const host: TelegramHost?
    /** The `audio` query parameter. */
    const audioParam: Option<string>
    var startTime: real
    var endTime: real
    var failed: bool
    var audioUrl: string
    /** `waveSurferRef.current` */
    var handle: Engine?
    /** Some run of the effect registered a `region-updated` handler. */
    var regionHandlerWired: bool
    /** The regions the effect runs added, oldest first. */
    var regions: seq<Region>

    constructor (host: TelegramHost?, audioParam: Option<string>)
      ensures this.host == host && this.audioParam == audioParam
      ensures startTime == 0.0 && endTime == 0.0 && !failed && audioUrl == ""
      ensures handle == null && !regionHandlerWired && regions == []
    {
      this.host := host;
      this.audioParam := audioParam;
      startTime, endTime := 0.0, 0.0;
      failed, audioUrl := false, "";
      handle, regionHandlerWired, regions := null, false, [];
    }

    /** One run of the effect. It stores the chosen URL in state but loads the
        URL of the render it closed over; when the engine cannot be created the
        handle keeps whatever engine it held before. */
    method RunEffect(createThrows: bool, destroyThrows: bool)
      modifies this`audioUrl, this`handle, this`failed, this`regionHandlerWired, this`regions
      ensures audioUrl == AudioUrlOrDefault(audioParam)
      ensures createThrows ==>
        failed && handle == old(handle) && regionHandlerWired == old(regionHandlerWired) && regions == old(regions)
      ensures !createThrows ==>
        failed == old(failed) && handle != null && fresh(handle) &&
        handle.loadedUrl == Some(old(audioUrl)) && handle.destroyCalls == 0 &&
        handle.destroyThrows == destroyThrows && regionHandlerWired &&
        |regions| == |old(regions)| + 1 && regions[..|old(regions)|] == old(regions) &&
        fresh(regions[|old(regions)|]) && regions[|old(regions)|].id == InitialRegionId &&
        regions[|old(regions)|].start == InitialRegionStart && regions[|old(regions)|].end == InitialRegionEnd
    {
      var renderedUrl := audioUrl;
      audioUrl := AudioUrlOrDefault(audioParam);
      if createThrows {
        failed := true;
        return;
      }
      var ws := new Engine(destroyThrows);
      handle := ws;
      ws.Load(renderedUrl);
      regionHandlerWired := true;
      var r := new Region(InitialRegionId, InitialRegionStart, InitialRegionEnd);
      regions := regions + [r];
    }

    /** The `region-updated` handler: publishes the edges as they are, for any
        region, with no liveness check. */
    method OnRegionUpdated(region: Region)
      modifies this`startTime, this`endTime
      ensures regionHandlerWired ==> startTime == region.start && endTime == region.end
      ensures !regionHandlerWired ==> startTime == old(startTime) && endTime == old(endTime)
    {
      if regionHandlerWired {
        startTime := region.start;
        endTime := region.end;
      }
    }

    /** The cleanup: destroys whatever the handle holds and leaves it there. */
    method Cleanup()
      modifies handle
      ensures handle != null ==> handle.destroyCalls == old(handle.destroyCalls) + 1
      ensures handle != null ==> handle.loadedUrl == old(handle.loadedUrl) && handle.duration == old(handle.duration)
    {
      if handle != null {
        var threw := handle.Destroy();
      }
    }

    /** `handleCut`: sends both formatted edges when the host is present, and
        otherwise only logs them. */
    method HandleCut()
      modifies host
      ensures host != null ==>
        host.outbox == old(host.outbox) + [Payload(Clock.FormatTime(startTime), Clock.FormatTime(endTime))]
    {
      if host != null {
        host.SendData(Payload(Clock.FormatTime(startTime), Clock.FormatTime(endTime)));
      }
    }
  }

  /** The first render's effect loads the empty URL; storing the chosen URL
      changes `audioUrl`, so the cleanup runs and the effect runs again, now
      loading the chosen track. */
  method FirstRunLoadsStaleUrl(host: TelegramHost?) returns (c: LegacyController, first: Engine, second: Engine)
    ensures first.loadedUrl == Some("") && first.destroyCalls == 1
    ensures second.loadedUrl == Some(DefaultAudioUrl) && second.destroyCalls == 0
    ensures c.handle == second && |c.regions| == 2
  {
    c := new LegacyController(host, None);
    c.RunEffect(false, false);
    first := c.handle;
    c.Cleanup();
    c.RunEffect(false, false);
    second := c.handle;
  }

  /** The handle is never cleared: when a re-run fails to create its engine, the
      next cleanup destroys the previous engine a second time. */
  method FailedRerunDestroysTwice(host: TelegramHost?) returns (c: LegacyController, e: Engine)
    ensures e.destroyCalls == 2 && c.handle == e && c.failed
  {
    c := new LegacyController(host, Some("https://host/track.mp3"));
    c.RunEffect(false, false);
    e := c.handle;
    c.Cleanup();
    c.RunEffect(true, false);
    c.Cleanup();
  }

  /** The legacy handler publishes a zero-width, out-of-order or foreign region
      verbatim. */
  method PassThroughPublishesAnything(host: TelegramHost?) returns (c: LegacyController)
    ensures c.startTime == 5.0 && c.endTime == 3.0
  {
    c := new LegacyController(host, None);
    c.RunEffect(false, false);
    var foreign := new Region("other", 5.0, 3.0);
    c.OnRegionUpdated(foreign);
  }
}
