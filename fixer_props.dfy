/**
 * What main promises, stated on its reference outcome `Expected`: which exit
 * code each stage yields, which SDK calls each early exit leaves behind, the
 * depth-only choice for the virtual device, the start/stop order of the
 * re-recording, the seeks it issues and the table it writes.
 */
module FixerProperties {
  import opened Wrappers
  import opened OpenNI
  import opened NiteProperty
  import opened Device
  import opened Fixer

  /** The source opened with a depth stream and has a playback controller. */
  predicate SourceUsable(w: World, args: seq<string>) {
    SourceOpen(w, args).ok && w.playback.Some?
  }

  /** main gets past the harvest and reaches the region "Create a virtual device to record". */
  predicate ReachesRecording(w: World, args: seq<string>) {
    SourceUsable(w, args) && !AllLoaded(FirstPass(w)) && PhysicalOpen(w).ok && AllLoaded(Harvested(w))
  }

  /** The virtual device's open, depth-only when the source has no valid color stream. */
  function VirtualOpen(w: World, args: seq<string>): OpenState {
    VirtualOpenFor(w, SourceOpen(w, args).colorValid)
  }

  /** main reaches the re-recording loop: the virtual device opened as well. */
  predicate Rerecords(w: World, args: seq<string>) {
    ReachesRecording(w, args) && VirtualOpen(w, args).ok
  }

  /** The depth frame count main reads from the playback controller (0 when there is none). */
  function DepthFrames(w: World): int {
    if w.playback.Some? then w.playback.value.depthFrames else 0
  }

  /** The replay of a run that re-records. */
  function ReplaySegment(w: World, args: seq<string>): seq<Event> {
    ReplayCalls(DepthFrames(w), SourceOpen(w, args).colorValid, VirtualOpen(w, args).colorValid)
  }

  /**
   * What main may do before the re-recording region: open the source and the
   * sensor, create their streams, read properties, and close the sensor.
   */
  predicate Preparatory(e: Event) {
    match e
    case DeviceOpen(role, _) => role != Virtual
    case StreamCall(op, s) => (op == Create && s.role != Virtual) || (op == Destroy && s.role == Physical)
    case PropertyGet(s, _) => s.role != Virtual
    case DeviceClose(role) => role == Physical
    case _ => false
  }

  /** The calls main makes before the re-recording region. */
  function Preparation(w: World, args: seq<string>): seq<Event> {
    var so := SourceOpen(w, args);
    if !SourceUsable(w, args) then so.events
    else if AllLoaded(FirstPass(w)) then so.events + Queries(InitialTable(), SourceDepth, false)
    else so.events + Queries(InitialTable(), SourceDepth, false) + HarvestCalls(w, FirstPass(w))
  }

  /** The calls of the region "Create a virtual device to record" up to the replay. */
  function Opening(w: World, args: seq<string>): seq<Event> {
    [RecorderCreate(TargetPath(args))] + VirtualOpen(w, args).events
  }

  /** The calls of the re-recording region, when main reaches it. */
  function Recording(w: World, args: seq<string>): seq<Event> {
    if !ReachesRecording(w, args) then []
    else if !VirtualOpen(w, args).ok then Opening(w, args)
    else Opening(w, args) + SetupCalls(Harvested(w), VirtualOpen(w, args).colorValid) + ReplaySegment(w, args)
  }

  // ---------------------------------------------------------------------------
  // Exit codes and the shape of the trace

  /**
   * main exits with 0 exactly when the source is usable and either already
   * complete or re-recorded; every other path exits with -1.
   */
  lemma ExitCode(w: World, args: seq<string>)
    ensures Expected(w, args).code == 0 || Expected(w, args).code == -1
    ensures Expected(w, args).code == 0 <==>
      SourceUsable(w, args) && (AllLoaded(FirstPass(w)) || Rerecords(w, args))
  {
  }

  /** Every run is a preparation followed by the re-recording region, empty unless main reaches it. */
  lemma PreparationThenRecording(w: World, args: seq<string>)
    ensures Expected(w, args).trace == Preparation(w, args) + Recording(w, args)
  {
    if SourceUsable(w, args) && !AllLoaded(FirstPass(w)) {
      var so := SourceOpen(w, args);
      var e1 := Queries(InitialTable(), SourceDepth, false);
      var h := HarvestCalls(w, FirstPass(w));
      RecoverSplit(w, args);
      assert Expected(w, args).trace == so.events + (e1 + (h + Recording(w, args)));
      AppendAssoc(e1, h, Recording(w, args));
      AppendAssoc(so.events, e1 + h, Recording(w, args));
      AppendAssoc(so.events, e1, h);
    }
  }

  /** After an incomplete first pass: the sensor stage, then the re-recording region. */
  lemma RecoverSplit(w: World, args: seq<string>)
    requires SourceUsable(w, args) && !AllLoaded(FirstPass(w))
    ensures Recover(w, FirstPass(w), TargetPath(args), DepthFrames(w), SourceOpen(w, args).colorValid).trace ==
      HarvestCalls(w, FirstPass(w)) + Recording(w, args)
  {
    if ReachesRecording(w, args) {
      RecordCallsSplit(w, args);
    }
  }

  /** The re-recording region, as the reference function builds it. */
  lemma RecordCallsSplit(w: World, args: seq<string>)
    requires ReachesRecording(w, args)
    ensures RecordCalls(w, Harvested(w), TargetPath(args), DepthFrames(w), SourceOpen(w, args).colorValid) ==
      Recording(w, args)
  {
    var vo := VirtualOpen(w, args);
    if vo.ok {
      AppendAssoc(Opening(w, args), SetupCalls(Harvested(w), vo.colorValid), ReplaySegment(w, args));
    }
  }

  /**
   * The preparation only opens the source and the sensor, creates their
   * streams, reads properties and closes the sensor: it never touches the
   * virtual device or the recorder, starts, stops or seeks a stream, writes a
   * property, or closes the source.
   */
  lemma PreparationIsPreparatory(w: World, args: seq<string>)
    ensures forall e :: e in Preparation(w, args) ==> Preparatory(e)
  {
    OpenResultSpec(SourceFile, Named(SourcePath(args)), w.Device(SourceFile), false);
    QueriesPreparatory(InitialTable(), SourceDepth);
    HarvestCallsPreparatory(w, FirstPass(w));
    AllPreparatory(SourceOpen(w, args).events, Queries(InitialTable(), SourceDepth, false), HarvestCalls(w, FirstPass(w)));
  }

  /** Three runs of preparatory calls make a preparatory run. */
  lemma AllPreparatory(a: seq<Event>, b: seq<Event>, c: seq<Event>)
    requires forall e :: e in a ==> Preparatory(e)
    requires forall e :: e in b ==> Preparatory(e)
    requires forall e :: e in c ==> Preparatory(e)
    ensures forall e :: e in a + b ==> Preparatory(e)
    ensures forall e :: e in a + b + c ==> Preparatory(e)
  {
  }

  /** A pass's getProperty calls on a stream other than the virtual device's are preparatory. */
  lemma QueriesPreparatory(t: seq<Property>, s: StreamRef)
    requires s.role != Virtual
    ensures forall e :: e in Queries(t, s, false) ==> Preparatory(e)
  {
    QueriesMembers(t, s, false);
  }

  /** The sensor stage only opens the sensor, reads from it and closes it. */
  lemma HarvestCallsPreparatory(w: World, t: seq<Property>)
    ensures forall e :: e in HarvestCalls(w, t) ==> Preparatory(e)
  {
    var po := PhysicalOpen(w);
    OpenResultSpec(Physical, AnyDevice, w.Device(Physical), true);
    QueriesPreparatory(t, PhysicalDepth);
    StreamCallsSpec(Destroy, Physical, po.depthValid, po.colorValid);
  }

  /**
   * The connected sensor is closed exactly when the table became complete
   * from it; when its open or its properties fail, main returns without
   * closing it.
   */
  lemma SensorClosedOnlyWhenComplete(w: World, t: seq<Property>)
    ensures DeviceClose(Physical) in HarvestCalls(w, t) <==>
      PhysicalOpen(w).ok && AllLoaded(LoadAll(t, w.Store(PhysicalDepth), false))
  {
    var po := PhysicalOpen(w);
    OpenResultSpec(Physical, AnyDevice, w.Device(Physical), true);
    QueriesMembers(t, PhysicalDepth, false);
    StreamCallsSpec(Destroy, Physical, po.depthValid, po.colorValid);
  }

  // ---------------------------------------------------------------------------
  // The early exits

  /**
   * The argument count is reported but not enforced: main always goes on to
   * open the source, with argv[1] or, for a wrong count, the empty path.
   */
  lemma ArgumentsNotEnforced(w: World, args: seq<string>)
    ensures Expected(w, args).trace != []
    ensures Expected(w, args).trace[0] == DeviceOpen(SourceFile, Named(if |args| == 3 then args[1] else ""))
  {
    var so := SourceOpen(w, args);
    OpenResultSpec(SourceFile, Named(SourcePath(args)), w.Device(SourceFile), false);
    PreparationThenRecording(w, args);
    assert Preparation(w, args)[0] == so.events[0];
  }

  /**
   * A source that does not open with a depth stream (and a color stream if it
   * has a color sensor), or has no playback controller, ends main with -1
   * after the open alone.
   */
  lemma SourceRejected(w: World, args: seq<string>)
    requires !SourceUsable(w, args)
    ensures Expected(w, args).code == -1
    ensures forall e :: e in Expected(w, args).trace ==>
      Touches(e, SourceFile) && (e.DeviceOpen? || (e.StreamCall? && e.op == Create))
  {
    SourceOpenEvents(w, args);
  }

  /**
   * A usable source that already holds all nine properties ends main with 0:
   * nothing beyond the source was opened, nothing was written or recorded.
   */
  lemma NothingToFix(w: World, args: seq<string>)
    requires SourceUsable(w, args) && AllLoaded(FirstPass(w))
    ensures Expected(w, args).code == 0
    ensures forall e :: e in Expected(w, args).trace ==>
      Touches(e, SourceFile) && (e.DeviceOpen? || e.PropertyGet? || (e.StreamCall? && e.op == Create))
    ensures forall i :: 0 <= i < |Catalog| ==> PropertyGet(SourceDepth, Catalog[i].id) in Expected(w, args).trace
  {
    ExitCode(w, args);
    PreparationThenRecording(w, args);
    SourceChecks(w, args, Expected(w, args).trace);
    SourceQueried(w, args, Expected(w, args).trace);
  }

  /** The calls of opening the source and checking its properties. */
  lemma SourceChecks(w: World, args: seq<string>, t: seq<Event>)
    requires t == SourceOpen(w, args).events + Queries(InitialTable(), SourceDepth, false)
    ensures forall e :: e in t ==>
      Touches(e, SourceFile) && (e.DeviceOpen? || e.PropertyGet? || (e.StreamCall? && e.op == Create))
  {
    SourceOpenEvents(w, args);
    QueriesOn(InitialTable(), SourceDepth);
  }

  /** Every one of the nine properties is asked of the source. */
  lemma SourceQueried(w: World, args: seq<string>, t: seq<Event>)
    requires t == SourceOpen(w, args).events + Queries(InitialTable(), SourceDepth, false)
    ensures forall i :: 0 <= i < |Catalog| ==> PropertyGet(SourceDepth, Catalog[i].id) in t
  {
    FirstQuery();
    forall i | 0 <= i < |Catalog|
      ensures PropertyGet(SourceDepth, Catalog[i].id) in t
    {
      assert PropertyGet(SourceDepth, Catalog[i].id) in Queries(InitialTable(), SourceDepth, false);
    }
  }

  /** The first pass asks the source for every one of the nine properties. */
  lemma FirstQuery()
    ensures forall i :: 0 <= i < |Catalog| ==> PropertyGet(SourceDepth, Catalog[i].id) in Queries(InitialTable(), SourceDepth, false)
  {
    QueriesMembers(InitialTable(), SourceDepth, false);
    InitialTableShape();
    forall i | 0 <= i < |Catalog|
      ensures PropertyGet(SourceDepth, Catalog[i].id) in Queries(InitialTable(), SourceDepth, false)
    {
      assert Shape(InitialTable())[i] == Catalog[i];
      assert Queried(InitialTable()[i], false);
    }
  }

  /**
   * When the sensor cannot be opened or does not supply every missing
   * property, main ends with -1 before creating the recorder, and leaves the
   * source (and the sensor) open.
   */
  lemma HarvestFailed(w: World, args: seq<string>)
    requires SourceUsable(w, args) && !AllLoaded(FirstPass(w))
    requires !(PhysicalOpen(w).ok && AllLoaded(Harvested(w)))
    ensures Expected(w, args).code == -1
    ensures forall e :: e in Expected(w, args).trace ==> Preparatory(e)
    ensures DeviceClose(Physical) !in Expected(w, args).trace
    ensures DeviceClose(SourceFile) !in Expected(w, args).trace
  {
    FailedHarvestOutcome(w, args);
    PreparationIsPreparatory(w, args);
    SensorLeftOpen(w, args, Preparation(w, args));
  }

  /** A failed harvest ends main with -1 right after the preparation. */
  lemma FailedHarvestOutcome(w: World, args: seq<string>)
    requires SourceUsable(w, args) && !AllLoaded(FirstPass(w))
    requires !(PhysicalOpen(w).ok && AllLoaded(Harvested(w)))
    ensures Preparation(w, args) ==
      SourceOpen(w, args).events + Queries(InitialTable(), SourceDepth, false) + HarvestCalls(w, FirstPass(w))
    ensures Expected(w, args) == Outcome(-1, Preparation(w, args))
  {
    var so := SourceOpen(w, args);
    RepairFails(w, TargetPath(args), w.playback.value.depthFrames, so.colorValid);
    AppendAssoc(so.events, Queries(InitialTable(), SourceDepth, false), HarvestCalls(w, FirstPass(w)));
  }

  /** The body of main after the source checks ends with -1 when the harvest fails. */
  lemma RepairFails(w: World, target: string, frames: int, sourceColor: bool)
    requires !AllLoaded(FirstPass(w))
    requires !(PhysicalOpen(w).ok && AllLoaded(Harvested(w)))
    ensures Repair(w, target, frames, sourceColor) ==
      Outcome(-1, Queries(InitialTable(), SourceDepth, false) + HarvestCalls(w, FirstPass(w)))
  {
    RecoverFails(w, FirstPass(w), target, frames, sourceColor);
  }

  /** Recovering from a table the sensor cannot complete ends with -1 after the harvest. */
  lemma RecoverFails(w: World, t: seq<Property>, target: string, frames: int, sourceColor: bool)
    requires !(PhysicalOpen(w).ok && AllLoaded(LoadAll(t, w.Store(PhysicalDepth), false)))
    ensures Recover(w, t, target, frames, sourceColor) == Outcome(-1, HarvestCalls(w, t))
  {
  }

  /** A failed harvest does not close the sensor. */
  lemma SensorLeftOpen(w: World, args: seq<string>, t: seq<Event>)
    requires !(PhysicalOpen(w).ok && AllLoaded(Harvested(w)))
    requires t == SourceOpen(w, args).events + Queries(InitialTable(), SourceDepth, false) + HarvestCalls(w, FirstPass(w))
    ensures DeviceClose(Physical) !in t
  {
    SourceOpenEvents(w, args);
    QueriesOn(InitialTable(), SourceDepth);
    SensorClosedOnlyWhenComplete(w, FirstPass(w));
    NotInThree(SourceOpen(w, args).events, Queries(InitialTable(), SourceDepth, false), HarvestCalls(w, FirstPass(w)),
               DeviceClose(Physical));
  }

  /** A call in none of three segments is not in their concatenation. */
  lemma NotInThree(a: seq<Event>, b: seq<Event>, c: seq<Event>, e: Event)
    requires e !in a && e !in b && e !in c
    ensures e !in a + b + c
  {
  }

  /** The source's open only opens it and creates its streams. */
  lemma SourceOpenEvents(w: World, args: seq<string>)
    ensures forall e :: e in SourceOpen(w, args).events ==>
      Touches(e, SourceFile) && (e.DeviceOpen? || (e.StreamCall? && e.op == Create))
  {
    OpenResultSpec(SourceFile, Named(SourcePath(args)), w.Device(SourceFile), false);
  }

  /** A pass over `t` only queries the stream `s`. */
  lemma QueriesOn(t: seq<Property>, s: StreamRef)
    ensures forall e :: e in Queries(t, s, false) ==> e.PropertyGet? && e.stream == s
  {
    QueriesMembers(t, s, false);
  }

  /**
   * When the virtual device cannot be opened, main ends with -1, but only
   * after creating the recorder on the target path; nothing is started,
   * seeked or closed but the sensor.
   */
  lemma VirtualRejected(w: World, args: seq<string>)
    requires ReachesRecording(w, args) && !Rerecords(w, args)
    ensures Expected(w, args).code == -1
    ensures RecorderCreate(TargetPath(args)) in Expected(w, args).trace
    ensures Within(Expected(w, args).trace, Unreplayed, Unreplayed)
  {
    ExitCode(w, args);
    PreparationThenRecording(w, args);
    VirtualRejectedTrace(w, args, Expected(w, args).trace);
  }

  lemma VirtualRejectedTrace(w: World, args: seq<string>, t: seq<Event>)
    requires ReachesRecording(w, args) && !Rerecords(w, args)
    requires t == Preparation(w, args) + Recording(w, args)
    ensures RecorderCreate(TargetPath(args)) in t && Within(t, Unreplayed, Unreplayed)
  {
    PreparationUnreplayed(w, args);
    OpeningUnreplayed(w, args);
    WithinConcat(Preparation(w, args), Opening(w, args), Unreplayed, Unreplayed);
  }

  // ---------------------------------------------------------------------------
  // The re-recording

  /**
   * A call's position in the replay: the recorder, virtual and source starts,
   * the seeks, the recorder, source and virtual stops, then the source's and
   * the virtual device's destroys and closes. Every other call is Unreplayed.
   */
  function Phase(e: Event): nat {
    match e
    case RecorderStart => 0
    case StreamCall(op, s) =>
      if op == StreamOp.Start && s.role != Physical then (if s.role == Virtual then 1 else 2)
      else if op == StreamOp.Stop && s.role != Physical then (if s.role == SourceFile then 5 else 6)
      else if op == Destroy && s.role != Physical then (if s.role == SourceFile then 7 else 9)
      else Unreplayed
    case Seek(_, _) => 3
    case RecorderStop => 4
    case DeviceClose(r) => if r == SourceFile then 8 else if r == Virtual then 10 else Unreplayed
    case _ => Unreplayed
  }

  /** The phase of every call that is not part of the replay. */
  const Unreplayed: nat := 11

  /** The calls of `t` come in nondecreasing phase. */
  predicate Ordered(t: seq<Event>) {
    forall i, j :: 0 <= i < j < |t| ==> Phase(t[i]) <= Phase(t[j])
  }

  /** Every call of `t` has a phase between `lo` and `hi`. */
  predicate Within(t: seq<Event>, lo: nat, hi: nat) {
    forall e :: e in t ==> lo <= Phase(e) <= hi
  }

  /** Two ordered traces, the first ending no later than the second begins, make an ordered trace. */
  lemma OrderedConcat(a: seq<Event>, b: seq<Event>, lo: nat, m: nat, n: nat, hi: nat)
    requires Ordered(a) && Within(a, lo, m)
    requires Ordered(b) && Within(b, n, hi)
    requires lo <= m <= n <= hi
    ensures Ordered(a + b) && Within(a + b, lo, hi)
  {
    forall i, j | 0 <= i < j < |a + b|
      ensures Phase((a + b)[i]) <= Phase((a + b)[j])
    {
      if j < |a| {
        assert (a + b)[i] == a[i] && (a + b)[j] == a[j];
      } else if i < |a| {
        assert (a + b)[i] == a[i] && (a + b)[j] == b[j - |a|];
      } else {
        assert (a + b)[i] == b[i - |a|] && (a + b)[j] == b[j - |a|];
      }
    }
    forall e | e in a + b
      ensures lo <= Phase(e) <= hi
    {
      assert e in a || e in b;
    }
  }

  /** Two traces within the same phases make one. */
  lemma WithinConcat(a: seq<Event>, b: seq<Event>, lo: nat, hi: nat)
    requires Within(a, lo, hi) && Within(b, lo, hi)
    ensures Within(a + b, lo, hi)
  {
    forall e | e in a + b
      ensures lo <= Phase(e) <= hi
    {
      assert e in a || e in b;
    }
  }

  /** Every call `op` issues on one device has the same phase. */
  lemma StreamCallsPhase(op: StreamOp, role: Role, d: bool, c: bool)
    ensures var p := Phase(StreamCall(op, StreamRef(role, Depth)));
      Ordered(StreamCalls(op, role, d, c)) && Within(StreamCalls(op, role, d, c), p, p)
  {
  }

  /** The start block: the recorder, then the virtual device, then the source. */
  lemma StartOrdered(sc: bool, vc: bool)
    ensures Ordered(StartCalls(sc, vc)) && Within(StartCalls(sc, vc), 0, 2)
  {
    StreamCallsPhase(StreamOp.Start, Virtual, true, vc);
    StreamCallsPhase(StreamOp.Start, SourceFile, true, sc);
    OrderedConcat([RecorderStart], StreamCalls(StreamOp.Start, Virtual, true, vc), 0, 0, 1, 1);
    OrderedConcat([RecorderStart] + StreamCalls(StreamOp.Start, Virtual, true, vc),
                  StreamCalls(StreamOp.Start, SourceFile, true, sc), 0, 1, 2, 2);
  }

  /** The stop block: the recorder, then the source, then the virtual device. */
  lemma StopOrdered(sc: bool, vc: bool)
    ensures Ordered(StopCalls(sc, vc)) && Within(StopCalls(sc, vc), 4, 6)
  {
    StreamCallsPhase(StreamOp.Stop, SourceFile, true, sc);
    StreamCallsPhase(StreamOp.Stop, Virtual, true, vc);
    OrderedConcat([RecorderStop], StreamCalls(StreamOp.Stop, SourceFile, true, sc), 4, 4, 5, 5);
    OrderedConcat([RecorderStop] + StreamCalls(StreamOp.Stop, SourceFile, true, sc),
                  StreamCalls(StreamOp.Stop, Virtual, true, vc), 4, 5, 6, 6);
  }

  /** The close block: the source's streams and device, then the virtual device's. */
  lemma CloseOrdered(sc: bool, vc: bool)
    ensures Ordered(CloseCalls(sc, vc)) && Within(CloseCalls(sc, vc), 7, 10)
  {
    var ds, dv := StreamCalls(Destroy, SourceFile, true, sc), StreamCalls(Destroy, Virtual, true, vc);
    StreamCallsPhase(Destroy, SourceFile, true, sc);
    StreamCallsPhase(Destroy, Virtual, true, vc);
    OrderedConcat(ds, [DeviceClose(SourceFile)], 7, 7, 8, 8);
    OrderedConcat(ds + [DeviceClose(SourceFile)], dv, 7, 8, 9, 9);
    OrderedConcat(ds + [DeviceClose(SourceFile)] + dv, [DeviceClose(Virtual)], 7, 9, 10, 10);
  }

  /**
   * The replay starts the recorder, then the virtual device, then the source;
   * seeks; stops the recorder, then the source, then the virtual device; and
   * destroys and closes the source before the virtual device. It begins by
   * starting the recorder and ends by closing the virtual device.
   */
  lemma ReplayOrder(frames: int, sc: bool, vc: bool)
    ensures Ordered(ReplayCalls(frames, sc, vc)) && Within(ReplayCalls(frames, sc, vc), 0, 10)
    ensures ReplayCalls(frames, sc, vc)[0] == RecorderStart
    ensures ReplayCalls(frames, sc, vc)[|ReplayCalls(frames, sc, vc)| - 1] == DeviceClose(Virtual)
  {
    var seeks := Seeks(SourceDepth, SeekCount(frames));
    StartOrdered(sc, vc);
    StopOrdered(sc, vc);
    CloseOrdered(sc, vc);
    assert Ordered(seeks) && Within(seeks, 3, 3);
    OrderedConcat(StartCalls(sc, vc), seeks, 0, 2, 3, 3);
    OrderedConcat(StartCalls(sc, vc) + seeks, StopCalls(sc, vc), 0, 3, 4, 6);
    OrderedConcat(StartCalls(sc, vc) + seeks + StopCalls(sc, vc), CloseCalls(sc, vc), 0, 6, 7, 10);
    assert ReplayCalls(frames, sc, vc)[0] == StartCalls(sc, vc)[0];
  }

  /**
   * The calls before the replay are all Unreplayed; the setup attaches the
   * virtual depth stream to the recorder exactly once, and the virtual color
   * stream exactly when it is valid.
   */
  lemma SetupUnreplayed(t: seq<Property>, vc: bool)
    ensures Within(SetupCalls(t, vc), Unreplayed, Unreplayed)
    ensures Count(SetupCalls(t, vc), RecorderAttach(VirtualDepth)) == 1
    ensures RecorderAttach(VirtualColor) in SetupCalls(t, vc) <==> vc
    ensures StreamCall(Create, VirtualColor) !in SetupCalls(t, vc)
  {
    WritesMembers(t, VirtualDepth);
    SetupAttachesDepthOnce(t, vc);
  }

  /** The setup's one depth attach. */
  lemma SetupAttachesDepthOnce(t: seq<Property>, vc: bool)
    ensures Count(SetupCalls(t, vc), RecorderAttach(VirtualDepth)) == 1
  {
    var e := RecorderAttach(VirtualDepth);
    var head, writes, depth := [GeneralCopy(SourceDepth, VirtualDepth)], Writes(t, VirtualDepth),
                               [ListenerAdd(SourceDepth, VirtualDepth), e];
    var color := if vc then [GeneralCopy(SourceColor, VirtualColor), ListenerAdd(SourceColor, VirtualColor),
                             RecorderAttach(VirtualColor)] else [];
    WritesMembers(t, VirtualDepth);
    CountPositive(writes, e);
    CountPositive(color, e);
    CountAppend(head + writes + depth, color, e);
    CountAppend(head + writes, depth, e);
    CountAppend(head, writes, e);
    CountAppend([depth[0]], [e], e);
    assert depth == [depth[0]] + [e];
  }

  /** Creating the recorder and opening the virtual device are Unreplayed. */
  lemma OpeningUnreplayed(w: World, args: seq<string>)
    ensures Within(Opening(w, args), Unreplayed, Unreplayed)
    ensures RecorderAttach(VirtualColor) !in Opening(w, args)
    ensures RecorderAttach(VirtualDepth) !in Opening(w, args)
    ensures RecorderCreate(TargetPath(args)) in Opening(w, args)
  {
    OpenResultSpec(Virtual, Named(VirtualUri), w.Device(Virtual), !SourceOpen(w, args).colorValid);
  }

  /** The calls of a run that re-records before its replay. */
  function Prefix(w: World, args: seq<string>): seq<Event> {
    Preparation(w, args) + Opening(w, args) + SetupCalls(Harvested(w), VirtualOpen(w, args).colorValid)
  }

  /** A run that re-records is its prefix followed by the replay. */
  lemma {:induction false} RecordingSplit(w: World, args: seq<string>)
    requires Rerecords(w, args)
    ensures Expected(w, args).trace == Prefix(w, args) + ReplaySegment(w, args)
  {
    PreparationThenRecording(w, args);
    var p, o := Preparation(w, args), Opening(w, args);
    var s, r := SetupCalls(Harvested(w), VirtualOpen(w, args).colorValid), ReplaySegment(w, args);
    AppendAssoc(p, o + s, r);
    AppendAssoc(p, o, s);
  }

  /** The prefix has no replay call. */
  lemma PrefixUnreplayed(w: World, args: seq<string>)
    ensures Within(Prefix(w, args), Unreplayed, Unreplayed)
  {
    PreparationUnreplayed(w, args);
    OpeningUnreplayed(w, args);
    SetupUnreplayed(Harvested(w), VirtualOpen(w, args).colorValid);
    WithinConcat(Preparation(w, args), Opening(w, args), Unreplayed, Unreplayed);
    WithinConcat(Preparation(w, args) + Opening(w, args), SetupCalls(Harvested(w), VirtualOpen(w, args).colorValid),
                 Unreplayed, Unreplayed);
  }

  /**
   * A run that re-records exits with 0 and ends with the replay; nothing
   * before the replay starts the recorder, starts, stops or destroys a
   * stream of the source or the virtual device, seeks, or closes either.
   */
  lemma RerecordingEndsWithReplay(w: World, args: seq<string>)
    requires Rerecords(w, args)
    ensures var rc := ReplaySegment(w, args);
      var t := Expected(w, args).trace;
      && Expected(w, args).code == 0
      && |rc| <= |t| && t[|t| - |rc|..] == rc
      && Within(t[..|t| - |rc|], Unreplayed, Unreplayed)
  {
    ExitCode(w, args);
    RecordingSplit(w, args);
    PrefixUnreplayed(w, args);
    SplitSuffix(Expected(w, args).trace, Prefix(w, args), ReplaySegment(w, args));
  }

  /** Cutting a concatenation where its second part begins. */
  lemma SplitSuffix(t: seq<Event>, p: seq<Event>, r: seq<Event>)
    requires t == p + r
    ensures |r| <= |t| && t[|t| - |r|..] == r && t[..|t| - |r|] == p
  {
  }

  /** The preparation has no replay call. */
  lemma PreparationUnreplayed(w: World, args: seq<string>)
    ensures Within(Preparation(w, args), Unreplayed, Unreplayed)
  {
    PreparationIsPreparatory(w, args);
    PreparatoryUnreplayed(Preparation(w, args));
  }

  /** Preparatory calls are no replay calls. */
  lemma PreparatoryUnreplayed(t: seq<Event>)
    requires forall e :: e in t ==> Preparatory(e)
    ensures Within(t, Unreplayed, Unreplayed)
  {
  }

  /** A call outside the phases of a trace does not occur in it. */
  lemma CountOutside(t: seq<Event>, lo: nat, hi: nat, e: Event)
    requires Within(t, lo, hi) && !(lo <= Phase(e) <= hi)
    ensures Count(t, e) == 0
  {
    CountPositive(t, e);
  }

  /** Seeking to 1, ..., n visits frame k once when 1 <= k <= n, and otherwise never. */
  lemma {:induction false} SeeksCount(s: StreamRef, n: nat, k: int)
    ensures Count(Seeks(s, n), Seek(s, k)) == if 1 <= k <= n then 1 else 0
  {
    if n > 0 {
      assert Seeks(s, n) == Seeks(s, n - 1) + [Seek(s, n)];
      SeeksCount(s, n - 1, k);
      CountAppend(Seeks(s, n - 1), [Seek(s, n)], Seek(s, k));
      assert [Seek(s, n)][1..] == [];
    }
  }

  /** The replay seeks the source's depth stream to each frame of the loop exactly once, and to no other. */
  lemma ReplaySeeks(frames: int, sc: bool, vc: bool, k: int)
    ensures Count(ReplayCalls(frames, sc, vc), Seek(SourceDepth, k)) == if 1 <= k <= SeekCount(frames) then 1 else 0
  {
    var e := Seek(SourceDepth, k);
    var seeks := Seeks(SourceDepth, SeekCount(frames));
    StartOrdered(sc, vc);
    StopOrdered(sc, vc);
    CloseOrdered(sc, vc);
    CountOutside(StartCalls(sc, vc), 0, 2, e);
    CountOutside(StopCalls(sc, vc), 4, 6, e);
    CountOutside(CloseCalls(sc, vc), 7, 10, e);
    SeeksCount(SourceDepth, SeekCount(frames), k);
    CountAppend(StartCalls(sc, vc), seeks, e);
    CountAppend(StartCalls(sc, vc) + seeks, StopCalls(sc, vc), e);
    CountAppend(StartCalls(sc, vc) + seeks + StopCalls(sc, vc), CloseCalls(sc, vc), e);
  }

  /** A run that does not re-record has no replay call at all. */
  lemma NoReplayUnlessRerecords(w: World, args: seq<string>)
    requires !Rerecords(w, args)
    ensures Within(Expected(w, args).trace, Unreplayed, Unreplayed)
  {
    if ReachesRecording(w, args) {
      VirtualRejected(w, args);
    } else {
      PreparationThenRecording(w, args);
      PreparationUnreplayed(w, args);
      assert Expected(w, args).trace == Preparation(w, args) + [];
    }
  }

  /**
   * The loop seeks the source's depth stream to every frame from 1 to the
   * frame count (to frame 1 alone when the count is zero or less), each
   * exactly once, and main seeks nothing when it does not re-record.
   */
  lemma SeekConservation(w: World, args: seq<string>, k: int)
    ensures Count(Expected(w, args).trace, Seek(SourceDepth, k)) ==
      if Rerecords(w, args) && 1 <= k <= SeekCount(DepthFrames(w)) then 1 else 0
  {
    var e := Seek(SourceDepth, k);
    if Rerecords(w, args) {
      RecordingSplit(w, args);
      PrefixUnreplayed(w, args);
      CountAppend(Prefix(w, args), ReplaySegment(w, args), e);
      CountOutside(Prefix(w, args), Unreplayed, Unreplayed, e);
      ReplaySeeks(DepthFrames(w), SourceOpen(w, args).colorValid, VirtualOpen(w, args).colorValid, k);
    } else {
      NoReplayUnlessRerecords(w, args);
      CountOutside(Expected(w, args).trace, Unreplayed, Unreplayed, e);
    }
  }

  /**
   * The virtual device gets a color stream exactly when main reaches it, its
   * depth stream is created, the source has a valid color stream and the
   * virtual device has a color sensor: it is opened depth-only otherwise.
   */
  lemma DepthOnlyChoice(w: World, args: seq<string>)
    ensures StreamCall(Create, VirtualColor) in Expected(w, args).trace <==>
      ReachesRecording(w, args) && VirtualOpen(w, args).depthValid &&
      SourceOpen(w, args).colorValid && w.Device(Virtual).Some? && w.Device(Virtual).value.hasColor
  {
    PreparationThenRecording(w, args);
    InRecording(w, args, Expected(w, args).trace, StreamCall(Create, VirtualColor));
    if ReachesRecording(w, args) {
      OpenResultSpec(Virtual, Named(VirtualUri), w.Device(Virtual), !SourceOpen(w, args).colorValid);
      SetupUnreplayed(Harvested(w), VirtualOpen(w, args).colorValid);
    }
  }

  /** Color frames are recorded exactly when main re-records and the virtual device got a color stream. */
  lemma ColorRecorded(w: World, args: seq<string>)
    ensures RecorderAttach(VirtualColor) in Expected(w, args).trace <==>
      Rerecords(w, args) && SourceOpen(w, args).colorValid && w.Device(Virtual).Some? && w.Device(Virtual).value.hasColor
  {
    PreparationThenRecording(w, args);
    InRecording(w, args, Expected(w, args).trace, RecorderAttach(VirtualColor));
    if ReachesRecording(w, args) {
      OpeningUnreplayed(w, args);
      OpenResultSpec(Virtual, Named(VirtualUri), w.Device(Virtual), !SourceOpen(w, args).colorValid);
      SetupUnreplayed(Harvested(w), VirtualOpen(w, args).colorValid);
    }
  }

  /**
   * The recorder gets the virtual depth stream exactly once in a run that
   * re-records, and never otherwise.
   */
  lemma DepthRecorded(w: World, args: seq<string>)
    ensures Count(Expected(w, args).trace, RecorderAttach(VirtualDepth)) == if Rerecords(w, args) then 1 else 0
    ensures RecorderAttach(VirtualDepth) in Expected(w, args).trace <==> Rerecords(w, args)
  {
    var t := Expected(w, args).trace;
    if Rerecords(w, args) {
      RecordingSplit(w, args);
      DepthRecordedOnce(w, args, t);
    } else {
      PreparationThenRecording(w, args);
      DepthNotRecorded(w, args, t);
    }
    CountPositive(t, RecorderAttach(VirtualDepth));
  }

  /** In a run that re-records, the depth attach is counted once, in the setup. */
  lemma DepthRecordedOnce(w: World, args: seq<string>, t: seq<Event>)
    requires t == Prefix(w, args) + ReplaySegment(w, args)
    ensures Count(t, RecorderAttach(VirtualDepth)) == 1
  {
    var e := RecorderAttach(VirtualDepth);
    var p, o := Preparation(w, args), Opening(w, args);
    var s, r := SetupCalls(Harvested(w), VirtualOpen(w, args).colorValid), ReplaySegment(w, args);
    PreparationExcludes(w, args, e);
    OpeningUnreplayed(w, args);
    SetupAttachesDepthOnce(Harvested(w), VirtualOpen(w, args).colorValid);
    ReplayExcludes(DepthFrames(w), SourceOpen(w, args).colorValid, VirtualOpen(w, args).colorValid, e);
    CountOnceInThird(p, o, s, r, e);
  }

  /** A call main never makes before the re-recording region is not in the preparation. */
  lemma PreparationExcludes(w: World, args: seq<string>, e: Event)
    requires !Preparatory(e)
    ensures e !in Preparation(w, args)
  {
    PreparationIsPreparatory(w, args);
  }

  /** A call outside the replay's phases is not in the replay. */
  lemma ReplayExcludes(frames: int, sc: bool, vc: bool, e: Event)
    requires Phase(e) == Unreplayed
    ensures e !in ReplayCalls(frames, sc, vc)
  {
    ReplayOrder(frames, sc, vc);
  }

  /** In a run that does not re-record, the depth stream is never attached. */
  lemma DepthNotRecorded(w: World, args: seq<string>, t: seq<Event>)
    requires !Rerecords(w, args) && t == Preparation(w, args) + Recording(w, args)
    ensures RecorderAttach(VirtualDepth) !in t
  {
    InRecording(w, args, t, RecorderAttach(VirtualDepth));
    OpeningUnreplayed(w, args);
  }

  /** A call absent from three segments is counted in their concatenation with a fourth as in that fourth. */
  lemma CountOnceInThird(p: seq<Event>, o: seq<Event>, s: seq<Event>, r: seq<Event>, e: Event)
    requires e !in p && e !in o && e !in r && Count(s, e) == 1
    ensures Count(p + o + s + r, e) == 1
  {
    CountAppend(p + o + s, r, e);
    CountAppend(p + o, s, e);
    CountAppend(p, o, e);
    CountPositive(p, e);
    CountPositive(o, e);
    CountPositive(r, e);
  }

  /** A call that is neither preparatory nor part of the replay occurs only after the virtual open. */
  lemma InRecording(w: World, args: seq<string>, t: seq<Event>, e: Event)
    requires t == Preparation(w, args) + Recording(w, args)
    requires !Preparatory(e) && Phase(e) == Unreplayed
    ensures e in t <==> (ReachesRecording(w, args) && (e in Opening(w, args) ||
      (VirtualOpen(w, args).ok && e in SetupCalls(Harvested(w), VirtualOpen(w, args).colorValid))))
  {
    PreparationIsPreparatory(w, args);
    if ReachesRecording(w, args) {
      RecordingTail(w, args, e);
    }
  }

  /** An Unreplayed call in the re-recording region after the virtual open is in the setup. */
  lemma RecordingTail(w: World, args: seq<string>, e: Event)
    requires ReachesRecording(w, args) && Phase(e) == Unreplayed
    ensures e in Recording(w, args) <==> (e in Opening(w, args) ||
      (VirtualOpen(w, args).ok && e in SetupCalls(Harvested(w), VirtualOpen(w, args).colorValid)))
  {
    if VirtualOpen(w, args).ok {
      ReplayOrder(DepthFrames(w), SourceOpen(w, args).colorValid, VirtualOpen(w, args).colorValid);
      assert e !in ReplaySegment(w, args);
    }
  }

  // ---------------------------------------------------------------------------
  // The table written into the virtual depth stream

  /**
   * When main reaches the virtual device, every entry of the table it writes
   * is loaded with the bytes of the first of the source and the sensor that
   * answered for it, and a stream that keeps what it is written gives the
   * same complete table back to a fresh LoadProperties.
   */
  lemma WrittenTable(w: World, args: seq<string>, store: PropertyStore)
    requires ReachesRecording(w, args)
    ensures var t := Harvested(w);
      && Shape(t) == Catalog && AllLoaded(t)
      && (forall i :: 0 <= i < |t| ==>
            FirstHit(Catalog[i].id, Catalog[i].size, [w.Store(SourceDepth), w.Store(PhysicalDepth)]) == Some(t[i].data))
      && LoadAll(InitialTable(), Apply(store, Writes(t, VirtualDepth)), false) == t
  {
    var stores := [w.Store(SourceDepth), w.Store(PhysicalDepth)];
    var t := Harvested(w);
    InitialTableShape();
    LoadEachTwo(InitialTable(), stores[0], stores[1]);
    forall i | 0 <= i < |t|
      ensures FirstHit(Catalog[i].id, Catalog[i].size, stores) == Some(t[i].data)
    {
      LoadEachAt(InitialTable(), stores, i);
      assert Shape(InitialTable())[i] == Catalog[i];
      assert t[i].loaded;
    }
    LoadEachAt(InitialTable(), stores, 0);
    WriteLoadRoundTrip(t, store, VirtualDepth);
  }

  /** When main re-records, it writes every entry of that table into the virtual depth stream. */
  lemma TableWritten(w: World, args: seq<string>, i: nat)
    requires Rerecords(w, args) && i < |Catalog|
    ensures PropertySet(VirtualDepth, Catalog[i].id, Harvested(w)[i].data) in Expected(w, args).trace
  {
    var t := Harvested(w);
    var setup := SetupCalls(t, VirtualOpen(w, args).colorValid);
    RecordingSplit(w, args);
    WrittenTable(w, args, map[]);
    CatalogShaped(t);
    WritesMembers(t, VirtualDepth);
    assert Writes(t, VirtualDepth)[i] == PropertySet(VirtualDepth, Catalog[i].id, t[i].data);
    assert PropertySet(VirtualDepth, Catalog[i].id, t[i].data) in setup;
  }
}
