/**
 * A stand-in for the OpenNI 2 SDK as the fixer uses it.  Nothing of the SDK's
 * own behaviour is modelled: a `World` value fixes, once and for all, what each
 * call answers (whether a device opens, which sensors it has, which properties
 * a stream holds, ...), and an `Sdk` object records every call the program
 * makes, in order, in its `trace`.  Properties of the program are then
 * statements about that trace.
 */
module OpenNI {
  import opened Wrappers

  /** One byte of a property buffer (the program keeps them in a vector<char>). */
  newtype byte = x: int | 0 <= x < 256

  /** The nine PS1080 depth-stream properties NiTE needs (XN_STREAM_PROPERTY_*).
      Their numeric values live in PS1080.h, which is not part of this model. */
  datatype PropertyId =
    | ConstShift | ParamCoeff | ShiftScale | MaxShift | S2DTable | D2STable
    | ZeroPlaneDistance | ZeroPlanePixelSize | EmitterDcmosDistance

  /** The three devices `main` opens: the ONI file, a connected sensor, the virtual PS1080. */
  datatype Role = SourceFile | Physical | Virtual

  datatype Sensor = Depth | Color

  /** A video stream, named by the device that owns it and its sensor. */
  datatype StreamRef = StreamRef(role: Role, sensor: Sensor)

  /** The URI handed to Device::open; ANY_DEVICE is the null URI. */
  datatype Uri = AnyDevice | Named(path: string)

  /** What a stream answers to getProperty: the bytes stored under each id. */
  type PropertyStore = map<PropertyId, seq<byte>>

  /** What a device offers once it is open. */
  datatype DeviceSpec = DeviceSpec(hasDepth: bool, hasColor: bool, depthCreates: bool, colorCreates: bool)

  /**
   * The frame counts a playback controller reports for the depth and color
   * streams.  main reads the color count and never uses it; the field is kept
   * only so that the value mirrors both getNumberOfFrames calls.
   */
  datatype Playback = Playback(depthFrames: int, colorFrames: int)

  /**
   * The fixed answers of the SDK.  A role missing from `devices` cannot be
   * opened; a stream missing from `stores` holds no property; `writable` says
   * which setProperty calls a stream accepts; `playback` is what
   * getPlaybackControl returns for the source device.
   */
  datatype World = World(
    devices: map<Role, DeviceSpec>,
    stores: map<StreamRef, PropertyStore>,
    writable: map<StreamRef, set<PropertyId>>,
    playback: Option<Playback>)
  {
    function Device(r: Role): Option<DeviceSpec> {
      if r in devices then Some(devices[r]) else None
    }

    function Store(s: StreamRef): PropertyStore {
      if s in stores then stores[s] else map[]
    }

    function Writable(s: StreamRef): set<PropertyId> {
      if s in writable then writable[s] else {}
    }
  }

  /** Calls on a video stream. */
  datatype StreamOp = Create | Destroy | Start | Stop | ReadFrame | GetImage | SetImage | ReleaseFrame

  /** One call into the SDK, as it appears in the trace. */
  datatype Event =
    | DeviceOpen(role: Role, uri: Uri)
    | DeviceClose(role: Role)
    | StreamCall(op: StreamOp, stream: StreamRef)
    | PropertyGet(stream: StreamRef, id: PropertyId)
    | PropertySet(stream: StreamRef, id: PropertyId, data: seq<byte>)
    | GeneralCopy(from: StreamRef, stream: StreamRef)
    | ListenerAdd(from: StreamRef, stream: StreamRef)
    | RecorderCreate(path: string)
    | RecorderAttach(stream: StreamRef)
    | RecorderStart
    | RecorderStop
    | Seek(stream: StreamRef, frame: int)

  /** Does the call act on one of the streams or on the device of role `r`? */
  predicate Touches(e: Event, r: Role) {
    match e
    case DeviceOpen(role, _) => role == r
    case DeviceClose(role) => role == r
    case GeneralCopy(from, to) => from.role == r || to.role == r
    case ListenerAdd(from, to) => from.role == r || to.role == r
    case RecorderCreate(_) => false
    case RecorderStart => false
    case RecorderStop => false
    case _ => e.stream.role == r
  }

  /** Regrouping a trace: lets a proof extend a trace one segment at a time. */
  lemma AppendAssoc(a: seq<Event>, b: seq<Event>, c: seq<Event>)
    ensures a + (b + c) == (a + b) + c
  {
  }

  /** How many times the call `e` occurs in the trace `t`. */
  function Count(t: seq<Event>, e: Event): nat
    decreases t
  {
    if t == [] then 0 else (if t[0] == e then 1 else 0) + Count(t[1..], e)
  }

  lemma {:induction false} CountAppend(a: seq<Event>, b: seq<Event>, e: Event)
    ensures Count(a + b, e) == Count(a, e) + Count(b, e)
    decreases a
  {
    if a == [] {
      assert a + b == b;
    } else {
      assert (a + b)[0] == a[0] && (a + b)[1..] == a[1..] + b;
      CountAppend(a[1..], b, e);
    }
  }

  /** A call occurs in a trace exactly when it is counted there. */
  lemma {:induction false} CountPositive(t: seq<Event>, e: Event)
    ensures Count(t, e) > 0 <==> e in t
    decreases t
  {
    if t != [] {
      CountPositive(t[1..], e);
      assert t == [t[0]] + t[1..];
    }
  }

  /**
   * getProperty(id, buffer, &size) with a buffer of `size` bytes: it succeeds
   * exactly when the stream holds the property with that many bytes, and then
   * yields them.
   */
  function Fetch(store: PropertyStore, id: PropertyId, size: nat): Option<seq<byte>> {
    if id in store && |store[id]| == size then Some(store[id]) else None
  }

  /** The SDK: fixed answers and the record of the calls made so far. */
  class Sdk {
    const world: World
    var trace: seq<Event>

    constructor (world: World)
      ensures this.world == world && trace == []
    {
      this.world := world;
      trace := [];
    }

    /** A call whose status the program ignores (close, destroy, start, stop, seek, recorder calls, ...). */
    method Call(e: Event)
      modifies this`trace
      ensures trace == old(trace) + [e]
    {
      trace := trace + [e];
    }

    /** Device::open(uri) for the device playing `role`. */
    method OpenDevice(role: Role, uri: Uri) returns (ok: bool)
      modifies this`trace
      ensures ok <==> world.Device(role).Some?
      ensures trace == old(trace) + [DeviceOpen(role, uri)]
    {
      ok := role in world.devices;
      trace := trace + [DeviceOpen(role, uri)];
    }

    /** Device::hasSensor on an opened device. */
    function HasSensor(role: Role, sensor: Sensor): bool
      requires world.Device(role).Some?
    {
      var d := world.devices[role];
      if sensor == Depth then d.hasDepth else d.hasColor
    }

    /** VideoStream::create(device, sensor). */
    method CreateStream(s: StreamRef) returns (ok: bool)
      requires world.Device(s.role).Some?
      modifies this`trace
      ensures ok <==> (var d := world.devices[s.role]; if s.sensor == Depth then d.depthCreates else d.colorCreates)
      ensures trace == old(trace) + [StreamCall(Create, s)]
    {
      var d := world.devices[s.role];
      ok := if s.sensor == Depth then d.depthCreates else d.colorCreates;
      trace := trace + [StreamCall(Create, s)];
    }

    /** VideoStream::getProperty(id, data, &size), with a buffer of `size` bytes. */
    method GetProperty(s: StreamRef, id: PropertyId, size: nat) returns (r: Option<seq<byte>>)
      modifies this`trace
      ensures r == Fetch(world.Store(s), id, size)
      ensures trace == old(trace) + [PropertyGet(s, id)]
    {
      r := Fetch(world.Store(s), id, size);
      trace := trace + [PropertyGet(s, id)];
    }

    /** VideoStream::setProperty(id, data, size). */
    method SetProperty(s: StreamRef, id: PropertyId, data: seq<byte>) returns (ok: bool)
      modifies this`trace
      ensures ok <==> id in world.Writable(s)
      ensures trace == old(trace) + [PropertySet(s, id, data)]
    {
      ok := id in world.Writable(s);
      trace := trace + [PropertySet(s, id, data)];
    }
  }
}
