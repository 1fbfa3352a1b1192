/** The collaborators the selection controller talks to, reduced to the state the
    controller can observe: the region object of the regions plug-in, the waveform
    engine handle, and the chat-platform host bridge with its outbox. */
module Environment {

  datatype Option<+T> = None | Some(value: T)

  /** A live region of the regions plug-in. The controller reads `id`, `start` and
      `end` from it and may write `start` and `end` back in place. */
  class Region {
    const id: string
    var start: real
    var end: real

    constructor (id: string, start: real, end: real)
      ensures this.id == id && this.start == start && this.end == end
    {
      this.id := id;
      this.start := start;
      this.end := end;
    }
  }

  /** The waveform engine, seen as an opaque handle: the duration it reports
      (0 until the track is decoded), the URL it was asked to load, and how many
      times `destroy()` has been called on it. */
  class Engine {
    var duration: real
    var loadedUrl: Option<string>
    var destroyCalls: nat
    const destroyThrows: bool

    constructor (destroyThrows: bool)
      ensures duration == 0.0 && loadedUrl == None && destroyCalls == 0
      ensures this.destroyThrows == destroyThrows
    {
      duration := 0.0;
      loadedUrl := None;
      destroyCalls := 0;
      this.destroyThrows := destroyThrows;
    }

    /** `load(url)`: remembers what it was asked to load; decoding is the engine's business. */
    method Load(url: string)
      modifies this
      ensures loadedUrl == Some(url)
      ensures duration == old(duration) && destroyCalls == old(destroyCalls)
    {
      loadedUrl := Some(url);
    }

    /** The engine finishing its decode: from now on `getDuration()` reports `d`. */
    method FinishDecode(d: real)
      requires d >= 0.0
      modifies this
      ensures duration == d
      ensures loadedUrl == old(loadedUrl) && destroyCalls == old(destroyCalls)
    {
      duration := d;
    }

    /** `destroy()`: counted; `threw` says whether this engine raises from it. */
    method Destroy() returns (threw: bool)
      modifies this
      ensures destroyCalls == old(destroyCalls) + 1
      ensures threw == destroyThrows
      ensures duration == old(duration) && loadedUrl == old(loadedUrl)
    {
      destroyCalls := destroyCalls + 1;
      threw := destroyThrows;
    }
  }

  /** What `sendData` is given: the two formatted edges of the selection. */
  datatype Payload = Payload(startTime: string, endTime: string)

  /** The host bridge (`window.Telegram.WebApp`): the opaque session string
      `initData` and the payloads handed to `sendData`, oldest first. */
  class TelegramHost {
    const initData: string
    var outbox: seq<Payload>

    constructor (initData: string)
      ensures this.initData == initData && outbox == []
    {
      this.initData := initData;
      outbox := [];
    }

    method SendData(p: Payload)
      modifies this
      ensures outbox == old(outbox) + [p]
    {
      outbox := outbox + [p];
    }
  }
}
