/**
 * main: check the ONI file's depth stream for the NiTE properties, harvest the
 * missing ones from a connected sensor, and re-record the file through a
 * virtual PS1080 device that carries them.
 *
 * `Expected` is the reference outcome (exit code and SDK calls) for a given
 * SDK world and argument vector; `Run` is proved to produce it, and the
 * lemmas below state what the program promises in terms of it.
 */
module Fixer {
  import opened Wrappers
  import opened OpenNI
  import opened NiteProperty
  import opened Device

  const SourceDepth := StreamRef(SourceFile, Depth)
  const SourceColor := StreamRef(SourceFile, Color)
  const PhysicalDepth := StreamRef(Physical, Depth)
  const VirtualDepth := StreamRef(Virtual, Depth)
  const VirtualColor := StreamRef(Virtual, Color)

  /** The URI of the virtual PS1080 driver. */
  const VirtualUri := "\\OpenNI2\\VirtualDevice\\PS1080"

  /** The source path: argv[1] when there are exactly two arguments, else the empty string. */
  function SourcePath(args: seq<string>): string {
    if |args| == 3 then args[1] else ""
  }

  /** The target path: argv[2] when there are exactly two arguments, else the empty string. */
  function TargetPath(args: seq<string>): string {
    if |args| == 3 then args[2] else ""
  }

  // ---------------------------------------------------------------------------
  // The seek loop

  /** How many seeks the do-while loop issues for a depth frame count `frames`. */
  function SeekCount(frames: int): nat {
    if frames >= 1 then frames else 1
  }

  /** Seeks of `s` to the frames 1, 2, ..., n. */
  function Seeks(s: StreamRef, n: nat): seq<Event> {
    seq(n, i requires 0 <= i < n => Seek(s, i + 1))
  }

  /** The loop over `++iDepth`: seek, then stop once the frame count is reached. */
  method SeekAll(sdk: Sdk, stream: StreamRef, frames: int)
    modifies sdk`trace
    ensures sdk.trace == old(sdk.trace) + Seeks(stream, SeekCount(frames))
  {
    var frame := 0;
    while true
      invariant 0 <= frame < SeekCount(frames)
      invariant sdk.trace == old(sdk.trace) + Seeks(stream, frame)
      decreases SeekCount(frames) - frame
    {
      frame := frame + 1;
      sdk.Call(Seek(stream, frame));
      assert Seeks(stream, frame) == Seeks(stream, frame - 1) + [Seek(stream, frame)];
      if frame >= frames {
        break;
      }
    }
  }

  /**
   * The loop seeks to 1, 2, ... in increasing order and ends at the frame
   * count; with a count of zero or less it still seeks once, to 1.
   */
  lemma SeeksSpec(s: StreamRef, frames: int)
    ensures var t := Seeks(s, SeekCount(frames));
      && |t| == (if frames >= 1 then frames else 1)
      && (forall i :: 0 <= i < |t| ==> t[i] == Seek(s, i + 1))
      && t[|t| - 1] == Seek(s, if frames >= 1 then frames else 1)
      && (frames <= 0 ==> t == [Seek(s, 1)])
  {
  }

  // ---------------------------------------------------------------------------
  // The stages of main, as functions of the SDK world

  function SourceOpen(w: World, args: seq<string>): OpenState {
    OpenResult(SourceFile, Named(SourcePath(args)), w.Device(SourceFile), false)
  }

  function FirstPass(w: World): seq<Property> {
    LoadAll(InitialTable(), w.Store(SourceDepth), false)
  }

  function PhysicalOpen(w: World): OpenState {
    OpenResult(Physical, AnyDevice, w.Device(Physical), true)
  }

  function Harvested(w: World): seq<Property> {
    LoadAll(FirstPass(w), w.Store(PhysicalDepth), false)
  }

  /** The connected sensor: open it depth-only, load from it, close it if the table is now complete. */
  function HarvestCalls(w: World, t: seq<Property>): seq<Event> {
    var po := PhysicalOpen(w);
    po.events +
    if !po.ok then []
    else Queries(t, PhysicalDepth, false) +
         if !AllLoaded(LoadAll(t, w.Store(PhysicalDepth), false)) then []
         else StreamCalls(Destroy, Physical, po.depthValid, po.colorValid) + [DeviceClose(Physical)]
  }

  /** Copying general properties, writing the table, attaching the relays and the recorder. */
  function SetupCalls(table: seq<Property>, virtualColor: bool): seq<Event> {
    [GeneralCopy(SourceDepth, VirtualDepth)] + Writes(table, VirtualDepth) +
    [ListenerAdd(SourceDepth, VirtualDepth), RecorderAttach(VirtualDepth)] +
    (if virtualColor then [GeneralCopy(SourceColor, VirtualColor), ListenerAdd(SourceColor, VirtualColor),
                           RecorderAttach(VirtualColor)] else [])
  }

  /** Starting the recorder, then the virtual device, then the source. */
  function StartCalls(sourceColor: bool, virtualColor: bool): seq<Event> {
    [RecorderStart] + StreamCalls(StreamOp.Start, Virtual, true, virtualColor) +
    StreamCalls(StreamOp.Start, SourceFile, true, sourceColor)
  }

  /** Stopping the recorder, then the source, then the virtual device. */
  function StopCalls(sourceColor: bool, virtualColor: bool): seq<Event> {
    [RecorderStop] + StreamCalls(StreamOp.Stop, SourceFile, true, sourceColor) +
    StreamCalls(StreamOp.Stop, Virtual, true, virtualColor)
  }

  /** Closing the source, then the virtual device. */
  function CloseCalls(sourceColor: bool, virtualColor: bool): seq<Event> {
    StreamCalls(Destroy, SourceFile, true, sourceColor) + [DeviceClose(SourceFile)] +
    StreamCalls(Destroy, Virtual, true, virtualColor) + [DeviceClose(Virtual)]
  }

  /** Starting, seeking through the file, stopping and closing, in the program's order. */
  function ReplayCalls(frames: int, sourceColor: bool, virtualColor: bool): seq<Event> {
    StartCalls(sourceColor, virtualColor) + Seeks(SourceDepth, SeekCount(frames)) +
    StopCalls(sourceColor, virtualColor) + CloseCalls(sourceColor, virtualColor)
  }

  /** The virtual device, opened depth-only when the source has no valid color stream. */
  function VirtualOpenFor(w: World, sourceColor: bool): OpenState {
    OpenResult(Virtual, Named(VirtualUri), w.Device(Virtual), !sourceColor)
  }

  /** Creating the recorder and the virtual device, then, if it opened, setting up and replaying. */
  function RecordCalls(w: World, t: seq<Property>, target: string, frames: int, sourceColor: bool): seq<Event> {
    var vo := VirtualOpenFor(w, sourceColor);
    [RecorderCreate(target)] + vo.events +
    if !vo.ok then [] else SetupCalls(t, vo.colorValid) + ReplayCalls(frames, sourceColor, vo.colorValid)
  }

  /** An exit code with the SDK calls made up to the exit. */
  datatype Outcome = Outcome(code: int, trace: seq<Event>)

  /** What main does in the world `w` with the argument vector `args`. */
  function Expected(w: World, args: seq<string>): Outcome {
    var so := SourceOpen(w, args);
    if !so.ok || w.playback.None? then Outcome(-1, so.events)
    else
      var r := Repair(w, TargetPath(args), w.playback.value.depthFrames, so.colorValid);
      Outcome(r.code, so.events + r.trace)
  }

  /** What main does once the source is open and playing back: check, harvest, re-record. */
  function Repair(w: World, target: string, frames: int, sourceColor: bool): Outcome {
    var e1 := Queries(InitialTable(), SourceDepth, false);
    if AllLoaded(FirstPass(w)) then Outcome(0, e1)
    else
      var r := Recover(w, FirstPass(w), target, frames, sourceColor);
      Outcome(r.code, e1 + r.trace)
  }

  /** What main does with the incomplete table `t`: harvest from a sensor, then re-record. */
  function Recover(w: World, t: seq<Property>, target: string, frames: int, sourceColor: bool): Outcome {
    var e := HarvestCalls(w, t);
    var loaded := LoadAll(t, w.Store(PhysicalDepth), false);
    if !(PhysicalOpen(w).ok && AllLoaded(loaded)) then Outcome(-1, e)
    else
      Outcome(if VirtualOpenFor(w, sourceColor).ok then 0 else -1,
              e + RecordCalls(w, loaded, target, frames, sourceColor))
  }

  /** main(argc, argv), once OpenNI is initialised. */
  method Run(sdk: Sdk, args: seq<string>) returns (code: int)
    modifies sdk`trace
    ensures code == Expected(sdk.world, args).code
    ensures sdk.trace == old(sdk.trace) + Expected(sdk.world, args).trace
  {
    ghost var w := sdk.world;
    ghost var t := sdk.trace;
    var source, target := "", "";
    if |args| == 3 {
      source, target := args[1], args[2];
    }
    var table := new NiteProperties();

    // Open and check the source file.
    var oniFile := new NIDevice(SourceFile);
    var ok := oniFile.OpenDevice(sdk, Named(source), false);
    ghost var so := SourceOpen(w, args);
    if !ok {
      return -1;
    }
    var play := sdk.world.playback;
    if play.None? {
      return -1;
    }
    assert oniFile.depthValid && oniFile.colorValid == so.colorValid;
    code := RepairWith(sdk, table, oniFile, target, play.value.depthFrames);
    AppendAssoc(t, so.events, Repair(w, TargetPath(args), play.value.depthFrames, so.colorValid).trace);
  }

  /** The body of main after the source checks: load, and recover when incomplete. */
  method RepairWith(sdk: Sdk, table: NiteProperties, oniFile: NIDevice, target: string, depthFrames: int)
      returns (code: int)
    requires table.properties == InitialTable()
    requires oniFile.role == SourceFile && oniFile.depthValid
    modifies sdk`trace, table, oniFile
    ensures var r := Repair(sdk.world, target, depthFrames, old(oniFile.colorValid));
      code == r.code && sdk.trace == old(sdk.trace) + r.trace
    ensures table.properties ==
      if AllLoaded(FirstPass(sdk.world)) || !PhysicalOpen(sdk.world).ok then FirstPass(sdk.world) else Harvested(sdk.world)
    ensures AllLoaded(FirstPass(sdk.world)) || code != 0 ==> unchanged(oniFile)
    ensures !AllLoaded(FirstPass(sdk.world)) && code == 0 ==> !oniFile.deviceOpen && !oniFile.depthValid && !oniFile.colorValid
  {
    ghost var t := sdk.trace;
    InitialTableShape();
    var ok := table.LoadProperties(sdk, SourceDepth, false);
    if ok {
      return 0;
    }
    ghost var r := Recover(sdk.world, table.properties, target, depthFrames, oniFile.colorValid);
    code := RecoverWith(sdk, table, oniFile, target, depthFrames);
    AppendAssoc(t, Queries(InitialTable(), SourceDepth, false), r.trace);
  }

  /** Harvest the missing entries from a sensor and, if the table is then complete, re-record. */
  method RecoverWith(sdk: Sdk, table: NiteProperties, oniFile: NIDevice, target: string, depthFrames: int)
      returns (code: int)
    requires table.Valid()
    requires oniFile.role == SourceFile && oniFile.depthValid
    modifies sdk`trace, table, oniFile
    ensures var r := Recover(sdk.world, old(table.properties), target, depthFrames, old(oniFile.colorValid));
      code == r.code && sdk.trace == old(sdk.trace) + r.trace
    ensures table.properties ==
      if PhysicalOpen(sdk.world).ok then LoadAll(old(table.properties), sdk.world.Store(PhysicalDepth), false)
      else old(table.properties)
    ensures code == 0 ==> !oniFile.deviceOpen && !oniFile.depthValid && !oniFile.colorValid
    ensures code != 0 ==> unchanged(oniFile)
  {
    ghost var w := sdk.world;
    ghost var t := sdk.trace;
    ghost var t0 := table.properties;
    ghost var sc := oniFile.colorValid;
    var ok := Harvest(sdk, table);
    if !ok {
      return -1;
    }
    code := Record(sdk, table, oniFile, target, depthFrames);
    AppendAssoc(t, HarvestCalls(w, t0), RecordCalls(w, table.properties, target, depthFrames, sc));
  }

  /** main.cpp's region "Create a physical device to read property". */
  method Harvest(sdk: Sdk, table: NiteProperties) returns (ok: bool)
    requires table.Valid()
    modifies sdk`trace, table
    ensures table.Valid()
    ensures var loaded := LoadAll(old(table.properties), sdk.world.Store(PhysicalDepth), false);
      && ok == (PhysicalOpen(sdk.world).ok && AllLoaded(loaded))
      && table.properties == (if PhysicalOpen(sdk.world).ok then loaded else old(table.properties))
      && sdk.trace == old(sdk.trace) + HarvestCalls(sdk.world, old(table.properties))
  {
    var physical := new NIDevice(Physical);
    ok := physical.OpenDevice(sdk, AnyDevice, true);
    if !ok {
      return false;
    }
    ok := table.LoadProperties(sdk, PhysicalDepth, false);
    if !ok {
      return false;
    }
    physical.Close(sdk);
  }

  /** main.cpp's region "Create a virtual device to record", then the re-recording itself. */
  method Record(sdk: Sdk, table: NiteProperties, oniFile: NIDevice, target: string, depthFrames: int) returns (code: int)
    requires table.Valid()
    requires oniFile.role == SourceFile && oniFile.depthValid
    modifies sdk`trace, oniFile
    ensures code == if VirtualOpenFor(sdk.world, old(oniFile.colorValid)).ok then 0 else -1
    ensures code == 0 ==> !oniFile.deviceOpen && !oniFile.depthValid && !oniFile.colorValid
    ensures code != 0 ==> unchanged(oniFile)
    ensures sdk.trace == old(sdk.trace) + RecordCalls(sdk.world, table.properties, target, depthFrames, old(oniFile.colorValid))
  {
    ghost var t := sdk.trace;
    ghost var vo := VirtualOpenFor(sdk.world, oniFile.colorValid);
    sdk.Call(RecorderCreate(target));
    var virtual := new NIDevice(Virtual);
    var ok := virtual.OpenDevice(sdk, Named(VirtualUri), !oniFile.colorValid);
    AppendAssoc(t, [RecorderCreate(target)], vo.events);
    ghost var head := [RecorderCreate(target)] + vo.events;
    assert sdk.trace == t + head;
    if !ok {
      assert RecordCalls(sdk.world, table.properties, target, depthFrames, oniFile.colorValid) == head;
      return -1;
    }
    ghost var sc, vc := oniFile.colorValid, virtual.colorValid;
    ghost var setup := SetupCalls(table.properties, vc);
    Setup(sdk, table, virtual);
    AppendAssoc(t, head, setup);
    assert sdk.trace == t + (head + setup);
    Replay(sdk, oniFile, virtual, depthFrames);
    AppendAssoc(t, head + setup, ReplayCalls(depthFrames, sc, vc));
    AppendAssoc(head, setup, ReplayCalls(depthFrames, sc, vc));
    assert RecordCalls(sdk.world, table.properties, target, depthFrames, sc) == head + (setup + ReplayCalls(depthFrames, sc, vc));
    code := 0;
  }

  /** Copy the general properties, write the table, attach the relays and the recorder. */
  method Setup(sdk: Sdk, table: NiteProperties, virtual: NIDevice)
    requires table.Valid()
    modifies sdk`trace
    ensures sdk.trace == old(sdk.trace) + SetupCalls(table.properties, virtual.colorValid)
  {
    ghost var t := sdk.trace;
    sdk.Call(GeneralCopy(SourceDepth, VirtualDepth));
    ghost var done: seq<Event> := [GeneralCopy(SourceDepth, VirtualDepth)];
    var failed := table.WriteProperties(sdk, VirtualDepth);
    AppendAssoc(t, done, Writes(table.properties, VirtualDepth));
    done := done + Writes(table.properties, VirtualDepth);
    sdk.Call(ListenerAdd(SourceDepth, VirtualDepth));
    sdk.Call(RecorderAttach(VirtualDepth));
    AppendAssoc(t, done, [ListenerAdd(SourceDepth, VirtualDepth), RecorderAttach(VirtualDepth)]);
    done := done + [ListenerAdd(SourceDepth, VirtualDepth), RecorderAttach(VirtualDepth)];
    assert sdk.trace == t + done;
    if virtual.colorValid {
      sdk.Call(GeneralCopy(SourceColor, VirtualColor));
      sdk.Call(ListenerAdd(SourceColor, VirtualColor));
      sdk.Call(RecorderAttach(VirtualColor));
      ghost var colorSetup := [GeneralCopy(SourceColor, VirtualColor), ListenerAdd(SourceColor, VirtualColor),
                               RecorderAttach(VirtualColor)];
      AppendAssoc(t, done, colorSetup);
      done := done + colorSetup;
    }
    assert done == SetupCalls(table.properties, virtual.colorValid);
  }

  /** Start the recorder, the virtual device and the source; seek through the file; stop and close. */
  method Replay(sdk: Sdk, oniFile: NIDevice, virtual: NIDevice, depthFrames: int)
    requires oniFile.role == SourceFile && oniFile.depthValid
    requires virtual.role == Virtual && virtual.depthValid
    requires oniFile != virtual
    modifies sdk`trace, oniFile, virtual
    ensures sdk.trace == old(sdk.trace) + ReplayCalls(depthFrames, old(oniFile.colorValid), old(virtual.colorValid))
    ensures !oniFile.deviceOpen && !oniFile.depthValid && !oniFile.colorValid && !virtual.deviceOpen && !virtual.depthValid && !virtual.colorValid
  {
    ghost var t := sdk.trace;
    ghost var sc, vc := oniFile.colorValid, virtual.colorValid;
    ghost var a, b, c, d := StartCalls(sc, vc), Seeks(SourceDepth, SeekCount(depthFrames)), StopCalls(sc, vc), CloseCalls(sc, vc);
    StartAll(sdk, oniFile, virtual);
    SeekAll(sdk, SourceDepth, depthFrames);
    AppendAssoc(t, a, b);
    StopAll(sdk, oniFile, virtual);
    AppendAssoc(t, a + b, c);
    CloseAll(sdk, oniFile, virtual);
    AppendAssoc(t, a + b + c, d);
  }

  /** The recorder, then the virtual device, then the source starts. */
  method StartAll(sdk: Sdk, oniFile: NIDevice, virtual: NIDevice)
    requires oniFile.role == SourceFile && oniFile.depthValid
    requires virtual.role == Virtual && virtual.depthValid
    modifies sdk`trace
    ensures sdk.trace == old(sdk.trace) + StartCalls(oniFile.colorValid, virtual.colorValid)
  {
    ghost var t := sdk.trace;
    sdk.Call(RecorderStart);
    virtual.Start(sdk);
    ghost var v := StreamCalls(StreamOp.Start, Virtual, true, virtual.colorValid);
    AppendAssoc(t, [RecorderStart], v);
    oniFile.Start(sdk);
    AppendAssoc(t, [RecorderStart] + v, StreamCalls(StreamOp.Start, SourceFile, true, oniFile.colorValid));
  }

  /** The recorder, then the source, then the virtual device stops. */
  method StopAll(sdk: Sdk, oniFile: NIDevice, virtual: NIDevice)
    requires oniFile.role == SourceFile && oniFile.depthValid
    requires virtual.role == Virtual && virtual.depthValid
    modifies sdk`trace
    ensures sdk.trace == old(sdk.trace) + StopCalls(oniFile.colorValid, virtual.colorValid)
  {
    ghost var t := sdk.trace;
    sdk.Call(RecorderStop);
    oniFile.Stop(sdk);
    ghost var s := StreamCalls(StreamOp.Stop, SourceFile, true, oniFile.colorValid);
    AppendAssoc(t, [RecorderStop], s);
    virtual.Stop(sdk);
    AppendAssoc(t, [RecorderStop] + s, StreamCalls(StreamOp.Stop, Virtual, true, virtual.colorValid));
  }

  /** The source, then the virtual device closes. */
  method CloseAll(sdk: Sdk, oniFile: NIDevice, virtual: NIDevice)
    requires oniFile.role == SourceFile && oniFile.depthValid
    requires virtual.role == Virtual && virtual.depthValid
    requires oniFile != virtual
    modifies sdk`trace, oniFile, virtual
    ensures sdk.trace == old(sdk.trace) + CloseCalls(old(oniFile.colorValid), old(virtual.colorValid))
    ensures !oniFile.deviceOpen && !oniFile.depthValid && !oniFile.colorValid && !virtual.deviceOpen && !virtual.depthValid && !virtual.colorValid
  {
    ghost var t := sdk.trace;
    ghost var sc, vc := oniFile.colorValid, virtual.colorValid;
    oniFile.Close(sdk);
    ghost var s := StreamCalls(Destroy, SourceFile, true, sc);
    AppendAssoc(t, s, [DeviceClose(SourceFile)]);
    virtual.Close(sdk);
    ghost var v := StreamCalls(Destroy, Virtual, true, vc);
    AppendAssoc(t, s + [DeviceClose(SourceFile)], v);
    AppendAssoc(t, s + [DeviceClose(SourceFile)] + v, [DeviceClose(Virtual)]);
  }
}
