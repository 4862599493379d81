/**
 * CFrameCopy: the new-frame listener that copies every frame of a source
 * stream into the virtual stream it was built for.
 */
module Relay {
  import opened Wrappers
  import opened OpenNI

  /** A frame as readFrame yields it (VideoFrameRef): its payload, index and timestamp. */
  datatype Frame = Frame(data: seq<byte>, frameIndex: int, timestamp: int)

  /** The writable frame GET_VIRTUAL_STREAM_IMAGE hands out, with its pixel buffer. */
  class OniFrame {
    var data: array<byte>
    var frameIndex: int
    var timestamp: int

    constructor (capacity: nat)
      ensures fresh(data) && data.Length == capacity
      ensures forall k :: 0 <= k < capacity ==> data[k] == 0
      ensures frameIndex == 0 && timestamp == 0
    {
      data := new byte[capacity](_ => 0);
      frameIndex, timestamp := 0, 0;
    }
  }

  /** A buffer after memcpy(buffer, payload, |payload|): the payload, then the rest as it was. */
  function Overlay(buffer: seq<byte>, payload: seq<byte>): (r: seq<byte>)
    requires |payload| <= |buffer|
    ensures |r| == |buffer|
    ensures r[..|payload|] == payload
    ensures r[|payload|..] == buffer[|payload|..]
  {
    payload + buffer[|payload|..]
  }

  /**
   * The calls one notification issues: readFrame on the source; when it
   * succeeds, GET on the target; when that succeeds too, SET on the target;
   * and in every case the release of the source frame.
   */
  function RelayCalls(source: StreamRef, target: StreamRef, readOk: bool, getOk: bool): (r: seq<Event>)
  {
    [StreamCall(ReadFrame, source)] +
    (if readOk then [StreamCall(GetImage, target)] + (if getOk then [StreamCall(SetImage, target)] else []) else []) +
    [StreamCall(ReleaseFrame, source)]
  }

  /**
   * Exactly one SET when both calls succeed and none otherwise; the source
   * frame is read first and released last, exactly once.
   */
  lemma RelayCallsSpec(source: StreamRef, target: StreamRef, readOk: bool, getOk: bool)
    ensures var r := RelayCalls(source, target, readOk, getOk);
      && Count(r, StreamCall(SetImage, target)) == (if readOk && getOk then 1 else 0)
      && Count(r, StreamCall(GetImage, target)) == (if readOk then 1 else 0)
      && Count(r, StreamCall(ReleaseFrame, source)) == 1
      && r[0] == StreamCall(ReadFrame, source)
      && r[|r| - 1] == StreamCall(ReleaseFrame, source)
  {
    var rd, gt, st, rl := StreamCall(ReadFrame, source), StreamCall(GetImage, target),
                          StreamCall(SetImage, target), StreamCall(ReleaseFrame, source);
    var mid := if readOk then [gt] + (if getOk then [st] else []) else [];
    CountAppend([rd] + mid, [rl], st);
    CountAppend([rd], mid, st);
    CountAppend([rd] + mid, [rl], gt);
    CountAppend([rd], mid, gt);
    CountAppend([rd] + mid, [rl], rl);
    CountAppend([rd], mid, rl);
    if readOk {
      CountAppend([gt], if getOk then [st] else [], st);
      CountAppend([gt], if getOk then [st] else [], gt);
      CountAppend([gt], if getOk then [st] else [], rl);
    }
  }

  /** CFrameCopy, bound at construction to the stream it writes into. */
  class FrameCopy {
    const target: StreamRef

    constructor (target: StreamRef)
      ensures this.target == target
    {
      this.target := target;
    }

    /**
     * onNewFrame(source).  `read` is what readFrame answers and `acquired`
     * what GET_VIRTUAL_STREAM_IMAGE answers (None: the call fails).  The
     * virtual stream's buffer is sized by its video mode, which is the source's,
     * so it holds the payload.
     */
    method OnNewFrame(sdk: Sdk, source: StreamRef, read: Option<Frame>, acquired: Option<OniFrame>)
      requires read.Some? && acquired.Some? ==> |read.value.data| <= acquired.value.data.Length
      modifies sdk`trace, if acquired.Some? then {acquired.value, acquired.value.data} else {}
      ensures sdk.trace == old(sdk.trace) + RelayCalls(source, target, read.Some?, acquired.Some?)
      ensures acquired.Some? ==> acquired.value.data == old(acquired.value.data)
      ensures read.Some? && acquired.Some? ==>
        && acquired.value.data[..] == Overlay(old(acquired.value.data[..]), read.value.data)
        && acquired.value.frameIndex == read.value.frameIndex
        && acquired.value.timestamp == read.value.timestamp
      ensures read.None? && acquired.Some? ==>
        unchanged(acquired.value) && unchanged(acquired.value.data)
    {
      sdk.Call(StreamCall(ReadFrame, source));
      if read.Some? {
        sdk.Call(StreamCall(GetImage, target));
        if acquired.Some? {
          var frame, dst := read.value, acquired.value;
          forall k | 0 <= k < |frame.data| {
            dst.data[k] := frame.data[k];
          }
          dst.frameIndex := frame.frameIndex;
          dst.timestamp := frame.timestamp;
          sdk.Call(StreamCall(SetImage, target));
        }
      }
      sdk.Call(StreamCall(ReleaseFrame, source));
    }
  }
}
