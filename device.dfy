/**
 * CNIDevice: one OpenNI device with its depth stream and its optional color
 * stream.  Which of them are valid decides what Close, Start and Stop touch.
 */
module Device {
  import opened Wrappers
  import opened OpenNI

  /** What OpenDevice leaves behind: its answer, the handles it made valid, the calls it issued. */
  datatype OpenState = OpenState(ok: bool, deviceOpen: bool, depthValid: bool, colorValid: bool, events: seq<Event>)

  /**
   * OpenDevice(uri, depthOnly) on a device whose open answers `spec` (None: the
   * open fails).  The depth stream is mandatory; the color stream is made only
   * when depthOnly is false and the device has a color sensor, and then it must
   * be made.
   */
  function OpenResult(role: Role, uri: Uri, spec: Option<DeviceSpec>, depthOnly: bool): OpenState
  {
    var opening := [DeviceOpen(role, uri)];
    if spec.None? then OpenState(false, false, false, false, opening)
    else
      var d := spec.value;
      if !d.hasDepth then OpenState(false, true, false, false, opening)
      else
        var withDepth := opening + [StreamCall(Create, StreamRef(role, Depth))];
        if !d.depthCreates then OpenState(false, true, false, false, withDepth)
        else if !depthOnly && d.hasColor then
          OpenState(d.colorCreates, true, true, d.colorCreates, withDepth + [StreamCall(Create, StreamRef(role, Color))])
        else OpenState(true, true, true, false, withDepth)
  }

  /** The rules of OpenDevice, stated on OpenResult. */
  lemma OpenResultSpec(role: Role, uri: Uri, spec: Option<DeviceSpec>, depthOnly: bool)
    ensures var r := OpenResult(role, uri, spec, depthOnly);
      && (r.deviceOpen <==> spec.Some?)
      && (r.depthValid <==> spec.Some? && spec.value.hasDepth && spec.value.depthCreates)
      && (r.ok <==> r.depthValid && (!depthOnly && spec.value.hasColor ==> spec.value.colorCreates))
      && (r.colorValid <==> r.ok && !depthOnly && spec.value.hasColor)
      && (StreamCall(Create, StreamRef(role, Color)) in r.events <==>
          r.depthValid && !depthOnly && spec.value.hasColor)
      && (StreamCall(Create, StreamRef(role, Depth)) in r.events <==> spec.Some? && spec.value.hasDepth)
      && r.events != [] && r.events[0] == DeviceOpen(role, uri)
      && (forall e :: e in r.events ==> Touches(e, role) && (e.DeviceOpen? || (e.StreamCall? && e.op == Create)))
  {
  }

  /** The calls `op` issues on the valid streams of a device, depth first. */
  function StreamCalls(op: StreamOp, role: Role, depthValid: bool, colorValid: bool): seq<Event> {
    (if depthValid then [StreamCall(op, StreamRef(role, Depth))] else []) +
    (if colorValid then [StreamCall(op, StreamRef(role, Color))] else [])
  }

  /** Close, Start and Stop act on a stream exactly when it is valid, and on nothing else. */
  lemma StreamCallsSpec(op: StreamOp, role: Role, depthValid: bool, colorValid: bool)
    ensures var r := StreamCalls(op, role, depthValid, colorValid);
      && (StreamCall(op, StreamRef(role, Depth)) in r <==> depthValid)
      && (StreamCall(op, StreamRef(role, Color)) in r <==> colorValid)
      && |r| == (if depthValid then 1 else 0) + (if colorValid then 1 else 0)
      && (depthValid ==> r[0] == StreamCall(op, StreamRef(role, Depth)))
      && (forall e :: e in r ==> e.StreamCall? && e.op == op && e.stream.role == role)
  {
  }

  class NIDevice {
    const role: Role
    var deviceOpen: bool
    var depthValid: bool
    var colorValid: bool

    constructor (role: Role)
      ensures this.role == role && !deviceOpen && !depthValid && !colorValid
    {
      this.role := role;
      deviceOpen, depthValid, colorValid := false, false, false;
    }

    /** OpenDevice(uri, depthOnly), on a device that has not been opened yet. */
    method OpenDevice(sdk: Sdk, uri: Uri, depthOnly: bool) returns (ok: bool)
      requires !deviceOpen && !depthValid && !colorValid
      modifies this, sdk`trace
      ensures var r := OpenResult(role, uri, sdk.world.Device(role), depthOnly);
        ok == r.ok && deviceOpen == r.deviceOpen && depthValid == r.depthValid && colorValid == r.colorValid &&
        sdk.trace == old(sdk.trace) + r.events
    {
      var isOpen := sdk.OpenDevice(role, uri);
      if !isOpen {
        return false;
      }
      deviceOpen := true;
      if sdk.HasSensor(role, Depth) {
        var created := sdk.CreateStream(StreamRef(role, Depth));
        if !created {
          return false;
        }
        depthValid := true;
      } else {
        return false;
      }
      if !depthOnly && sdk.HasSensor(role, Color) {
        var created := sdk.CreateStream(StreamRef(role, Color));
        if !created {
          return false;
        }
        colorValid := true;
      }
      return true;
    }

    /** Close(): destroy the valid streams, then close the device. */
    method Close(sdk: Sdk)
      modifies this, sdk`trace
      ensures !deviceOpen && !depthValid && !colorValid
      ensures sdk.trace == old(sdk.trace) + StreamCalls(Destroy, role, old(depthValid), old(colorValid)) + [DeviceClose(role)]
    {
      if depthValid {
        sdk.Call(StreamCall(Destroy, StreamRef(role, Depth)));
        depthValid := false;
      }
      if colorValid {
        sdk.Call(StreamCall(Destroy, StreamRef(role, Color)));
        colorValid := false;
      }
      sdk.Call(DeviceClose(role));
      deviceOpen := false;
    }

    /** Start(): start every valid stream. */
    method Start(sdk: Sdk)
      modifies sdk`trace
      ensures sdk.trace == old(sdk.trace) + StreamCalls(StreamOp.Start, role, depthValid, colorValid)
    {
      if depthValid {
        sdk.Call(StreamCall(StreamOp.Start, StreamRef(role, Depth)));
      }
      if colorValid {
        sdk.Call(StreamCall(StreamOp.Start, StreamRef(role, Color)));
      }
    }

    /** Stop(): stop every valid stream. */
    method Stop(sdk: Sdk)
      modifies sdk`trace
      ensures sdk.trace == old(sdk.trace) + StreamCalls(StreamOp.Stop, role, depthValid, colorValid)
    {
      if depthValid {
        sdk.Call(StreamCall(StreamOp.Stop, StreamRef(role, Depth)));
      }
      if colorValid {
        sdk.Call(StreamCall(StreamOp.Stop, StreamRef(role, Color)));
      }
    }
  }
}
