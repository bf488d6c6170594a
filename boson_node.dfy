/**
 The acquisition loop of the Boson camera node.

 Each cycle takes the frame the driver captured (its pixels and its monotonic
 timestamp), the display-normalised copy of it, and the calibration manager's
 answer, and publishes a `mono16` raw image, a `mono8` normalised image and,
 only when the camera is calibrated, a camera-info message. All of them carry
 the same header stamp. Publishing is appending to a per-topic log.
 */
module BosonNode {
  import opened Clock

  datatype Encoding = Mono16 | Mono8

  /** A `cv::Mat` as far as the node uses it: its size and its pixels. */
  datatype Image = Image(rows: int, cols: int, pixels: seq<int>)

  /** A `sensor_msgs::Image` reduced to the fields the node sets or passes through. */
  datatype ImageMsg = ImageMsg(encoding: Encoding, width: int, height: int, stamp: Time, data: seq<int>)

  /** A `sensor_msgs::CameraInfo`: its header stamp and the calibration it carries. */
  datatype CameraInfo = CameraInfo(stamp: Time, calibration: seq<real>)

  /** One publish call, tagged with the topic it went to. */
  datatype Published = Raw(image: ImageMsg) | Normalized(image: ImageMsg) | Info(info: CameraInfo)

  /** What one cycle consumes from its collaborators. */
  datatype Capture = Capture(ts: Timeval, frame: Image, normalized: Image, calibrated: bool, info: CameraInfo)

  /** `cv_bridge::CvImage(std_msgs::Header(), encoding, img).toImageMsg()`: a zero stamp and the image's own size. */
  function ToImageMsg(encoding: Encoding, img: Image): ImageMsg
  {
    ImageMsg(encoding, img.cols, img.rows, Time(0, 0), img.pixels)
  }

  /** The header fields the node writes into a message. */
  function WithHeader(m: ImageMsg, width: int, height: int, stamp: Time): ImageMsg
  {
    m.(width := width, height := height, stamp := stamp)
  }

  /**
   The loop over `msg[0]`, `msg[1]`: each message gets the camera's size and
   the frame stamp, recomputed in every iteration from the same timestamp and
   offset; encoding and pixels are kept.
   */
  method SetHeaders(raw: ImageMsg, normalized: ImageMsg, width: int, height: int, ts: Timeval, offset: Timespec)
    returns (msgs: seq<ImageMsg>)
    ensures |msgs| == 2
    ensures msgs[0] == WithHeader(raw, width, height, FrameStamp(ts, offset))
    ensures msgs[1] == WithHeader(normalized, width, height, FrameStamp(ts, offset))
    ensures msgs[0].stamp == msgs[1].stamp
  {
    var msg := new ImageMsg[2][raw, normalized];
    for i := 0 to 2
      invariant forall k :: 0 <= k < i ==> msg[k] == WithHeader([raw, normalized][k], width, height, FrameStamp(ts, offset))
      invariant forall k :: i <= k < 2 ==> msg[k] == [raw, normalized][k]
    {
      msg[i] := msg[i].(width := width, height := height);
      msg[i] := msg[i].(stamp := Time(ts.sec + offset.sec, msg[i].stamp.nsec));
      msg[i] := msg[i].(stamp := Time(msg[i].stamp.sec, ts.usec * NanosPerMicro + offset.nsec));
    }
    msgs := msg[..];
  }

  /** The raw message a cycle publishes. */
  function RawMsg(offset: Timespec, width: int, height: int, c: Capture): ImageMsg
  {
    WithHeader(ToImageMsg(Mono16, c.frame), width, height, FrameStamp(c.ts, offset))
  }

  /** The normalised message a cycle publishes. */
  function NormalizedMsg(offset: Timespec, width: int, height: int, c: Capture): ImageMsg
  {
    WithHeader(ToImageMsg(Mono8, c.normalized), width, height, FrameStamp(c.ts, offset))
  }

  /** The camera-info message a calibrated cycle publishes: the manager's info, restamped. */
  function InfoMsg(offset: Timespec, c: Capture): CameraInfo
  {
    c.info.(stamp := FrameStamp(c.ts, offset))
  }

  /** The raw topic after a run of cycles: one message per cycle, in order. */
  function RawLog(offset: Timespec, width: int, height: int, cs: seq<Capture>): seq<ImageMsg>
  {
    if cs == [] then [] else RawLog(offset, width, height, cs[..|cs| - 1]) + [RawMsg(offset, width, height, cs[|cs| - 1])]
  }

  /** The normalised topic after a run of cycles: one message per cycle, in order. */
  function NormalizedLog(offset: Timespec, width: int, height: int, cs: seq<Capture>): seq<ImageMsg>
  {
    if cs == [] then [] else NormalizedLog(offset, width, height, cs[..|cs| - 1]) + [NormalizedMsg(offset, width, height, cs[|cs| - 1])]
  }

  /** The calibration topic after a run of cycles: one message per calibrated cycle, in order. */
  function CalibrationLog(offset: Timespec, cs: seq<Capture>): seq<CameraInfo>
  {
    if cs == [] then []
    else
      var last := cs[|cs| - 1];
      CalibrationLog(offset, cs[..|cs| - 1]) + (if last.calibrated then [InfoMsg(offset, last)] else [])
  }

  /** The positions of the calibrated cycles, in increasing order. */
  function CalibratedIndices(cs: seq<Capture>): seq<nat>
  {
    if cs == [] then []
    else CalibratedIndices(cs[..|cs| - 1]) + (if cs[|cs| - 1].calibrated then [|cs| - 1] else [])
  }

  /** The publish calls of one cycle, in the order the loop makes them. */
  function CycleTrace(offset: Timespec, width: int, height: int, c: Capture): seq<Published>
  {
    [Raw(RawMsg(offset, width, height, c)), Normalized(NormalizedMsg(offset, width, height, c))]
      + (if c.calibrated then [Info(InfoMsg(offset, c))] else [])
  }

  /** All publish calls of a run of cycles, across the three topics, in order. */
  function Trace(offset: Timespec, width: int, height: int, cs: seq<Capture>): seq<Published>
  {
    if cs == [] then []
    else Trace(offset, width, height, cs[..|cs| - 1]) + CycleTrace(offset, width, height, cs[|cs| - 1])
  }

  /** One more cycle extends every topic, and the cross-topic trace, by what that cycle publishes. */
  lemma HistorySnoc(offset: Timespec, width: int, height: int, cs: seq<Capture>, c: Capture)
    ensures RawLog(offset, width, height, cs + [c]) == RawLog(offset, width, height, cs) + [RawMsg(offset, width, height, c)]
    ensures NormalizedLog(offset, width, height, cs + [c]) == NormalizedLog(offset, width, height, cs) + [NormalizedMsg(offset, width, height, c)]
    ensures CalibrationLog(offset, cs + [c]) == CalibrationLog(offset, cs) + (if c.calibrated then [InfoMsg(offset, c)] else [])
    ensures Trace(offset, width, height, cs + [c]) == Trace(offset, width, height, cs) + CycleTrace(offset, width, height, c)
  {
  }

  /** The camera-info messages among some publish calls, in order. */
  function Infos(ps: seq<Published>): seq<CameraInfo>
  {
    if ps == [] then []
    else (if ps[0].Info? then [ps[0].info] else []) + Infos(ps[1..])
  }

  function CountCalibrated(cs: seq<Capture>): nat
  {
    if cs == [] then 0
    else CountCalibrated(cs[..|cs| - 1]) + (if cs[|cs| - 1].calibrated then 1 else 0)
  }

  /** The raw topic holds one message per cycle, the i-th being the i-th cycle's raw image. */
  lemma {:induction false} RawLogAt(offset: Timespec, width: int, height: int, cs: seq<Capture>)
    ensures |RawLog(offset, width, height, cs)| == |cs|
    ensures forall i :: 0 <= i < |cs| ==> RawLog(offset, width, height, cs)[i] == RawMsg(offset, width, height, cs[i])
  {
    if cs != [] {
      var init := cs[..|cs| - 1];
      RawLogAt(offset, width, height, init);
      assert forall i :: 0 <= i < |init| ==> init[i] == cs[i];
    }
  }

  /** The normalised topic holds one message per cycle, the i-th being the i-th cycle's normalised image. */
  lemma {:induction false} NormalizedLogAt(offset: Timespec, width: int, height: int, cs: seq<Capture>)
    ensures |NormalizedLog(offset, width, height, cs)| == |cs|
    ensures forall i :: 0 <= i < |cs| ==> NormalizedLog(offset, width, height, cs)[i] == NormalizedMsg(offset, width, height, cs[i])
  {
    if cs != [] {
      var init := cs[..|cs| - 1];
      NormalizedLogAt(offset, width, height, init);
      assert forall i :: 0 <= i < |init| ==> init[i] == cs[i];
    }
  }

  /**
   The k-th camera-info message is the restamped info of the k-th calibrated
   cycle: the messages come in cycle order, one for every calibrated cycle.
   */
  lemma {:induction false} CalibrationLogInOrder(offset: Timespec, cs: seq<Capture>)
    ensures |CalibrationLog(offset, cs)| == |CalibratedIndices(cs)|
    ensures forall k :: 0 <= k < |CalibratedIndices(cs)| ==>
              CalibratedIndices(cs)[k] < |cs| && cs[CalibratedIndices(cs)[k]].calibrated
              && CalibrationLog(offset, cs)[k] == InfoMsg(offset, cs[CalibratedIndices(cs)[k]])
    ensures forall k, l :: 0 <= k < l < |CalibratedIndices(cs)| ==> CalibratedIndices(cs)[k] < CalibratedIndices(cs)[l]
    ensures forall i :: 0 <= i < |cs| && cs[i].calibrated ==> i in CalibratedIndices(cs)
  {
    if cs != [] {
      var init := cs[..|cs| - 1];
      CalibrationLogInOrder(offset, init);
      assert forall i :: 0 <= i < |init| ==> init[i] == cs[i];
    }
  }

  /** Infos distributes over concatenation. */
  lemma {:induction false} InfosAppend(ps: seq<Published>, qs: seq<Published>)
    ensures Infos(ps + qs) == Infos(ps) + Infos(qs)
  {
    if ps == [] {
      assert ps + qs == qs;
    } else {
      var head := if ps[0].Info? then [ps[0].info] else [];
      InfosAppend(ps[1..], qs);
      assert (ps + qs)[0] == ps[0] && (ps + qs)[1..] == ps[1..] + qs;
      assert Infos(ps + qs) == head + Infos(ps[1..] + qs);
      assert Infos(ps) == head + Infos(ps[1..]);
    }
  }

  /** The camera-info messages of the cross-topic trace are exactly the camera-info topic. */
  lemma {:induction false} TraceInfos(offset: Timespec, width: int, height: int, cs: seq<Capture>)
    ensures Infos(Trace(offset, width, height, cs)) == CalibrationLog(offset, cs)
    ensures |Trace(offset, width, height, cs)| == 2 * |cs| + |CalibrationLog(offset, cs)|
  {
    if cs != [] {
      var init := cs[..|cs| - 1];
      var last := cs[|cs| - 1];
      TraceInfos(offset, width, height, init);
      InfosAppend(Trace(offset, width, height, init), CycleTrace(offset, width, height, last));
      var raws := [Raw(RawMsg(offset, width, height, last)), Normalized(NormalizedMsg(offset, width, height, last))];
      assert Infos(raws) == [] by {
        var tail := raws[1..];
        assert tail == [raws[1]] && tail[1..] == [];
        assert Infos(tail) == [];
        assert Infos(raws) == Infos(tail);
      }
      if last.calibrated {
        InfosAppend(raws, [Info(InfoMsg(offset, last))]);
        assert Infos([Info(InfoMsg(offset, last))]) == [InfoMsg(offset, last)] by {
          assert [Info(InfoMsg(offset, last))][1..] == [];
        }
      } else {
        assert CycleTrace(offset, width, height, last) == raws;
      }
    }
  }

  /** The artifacts of one cycle agree: one stamp, one size, the two encodings. */
  lemma CycleArtifactsAgree(offset: Timespec, width: int, height: int, c: Capture)
    ensures RawMsg(offset, width, height, c).stamp == NormalizedMsg(offset, width, height, c).stamp == InfoMsg(offset, c).stamp
    ensures TimeNanos(RawMsg(offset, width, height, c).stamp) == ValNanos(c.ts) + SpecNanos(offset)
    ensures RawMsg(offset, width, height, c).width == NormalizedMsg(offset, width, height, c).width == width
    ensures RawMsg(offset, width, height, c).height == NormalizedMsg(offset, width, height, c).height == height
    ensures RawMsg(offset, width, height, c).encoding == Mono16 && NormalizedMsg(offset, width, height, c).encoding == Mono8
    ensures RawMsg(offset, width, height, c).data == c.frame.pixels
    ensures NormalizedMsg(offset, width, height, c).data == c.normalized.pixels
  {
  }

  /** There is a calibration message for each calibrated cycle and for no other. */
  lemma {:induction false} CalibrationLogLength(offset: Timespec, cs: seq<Capture>)
    ensures |CalibrationLog(offset, cs)| == CountCalibrated(cs) <= |cs|
  {
    if cs != [] {
      CalibrationLogLength(offset, cs[..|cs| - 1]);
    }
  }

  /** The calibration topic stays empty exactly as long as no cycle was calibrated. */
  lemma {:induction false} CalibrationLogEmpty(offset: Timespec, cs: seq<Capture>)
    ensures CalibrationLog(offset, cs) == [] <==> forall i :: 0 <= i < |cs| ==> !cs[i].calibrated
  {
    if cs != [] {
      var init := cs[..|cs| - 1];
      CalibrationLogEmpty(offset, init);
      assert forall i :: 0 <= i < |init| ==> init[i] == cs[i];
    }
  }

  /**
   Every calibration message is the info of a calibrated cycle, stamped with
   that cycle's frame stamp, which is also the stamp of its two image messages.
   */
  lemma {:induction false} CalibrationLogStamps(offset: Timespec, width: int, height: int, cs: seq<Capture>, k: nat)
    requires k < |CalibrationLog(offset, cs)|
    ensures exists i :: 0 <= i < |cs| && cs[i].calibrated && CalibrationLog(offset, cs)[k] == InfoMsg(offset, cs[i])
                        && CalibrationLog(offset, cs)[k].stamp == RawMsg(offset, width, height, cs[i]).stamp
  {
    var init := cs[..|cs| - 1];
    var last := cs[|cs| - 1];
    if k < |CalibrationLog(offset, init)| {
      CalibrationLogStamps(offset, width, height, init, k);
      var i :| 0 <= i < |init| && init[i].calibrated && CalibrationLog(offset, init)[k] == InfoMsg(offset, init[i])
               && CalibrationLog(offset, init)[k].stamp == RawMsg(offset, width, height, init[i]).stamp;
      assert init[i] == cs[i];
    } else {
      assert last.calibrated && CalibrationLog(offset, cs)[k] == InfoMsg(offset, last);
    }
  }

  /** Frames captured in time order give image stamps in time order. */
  lemma StampsInOrder(offset: Timespec, width: int, height: int, cs: seq<Capture>)
    requires forall p, q :: 0 <= p <= q < |cs| ==> ValNanos(cs[p].ts) <= ValNanos(cs[q].ts)
    ensures forall p, q :: 0 <= p <= q < |RawLog(offset, width, height, cs)| ==>
              TimeNanos(RawLog(offset, width, height, cs)[p].stamp) <= TimeNanos(RawLog(offset, width, height, cs)[q].stamp)
  {
    RawLogAt(offset, width, height, cs);
  }

  /**
   Each camera-info message carries the stamp of the raw and of the normalised
   image published in the same cycle: the k-th info message goes with the
   images at the position of the k-th calibrated cycle.
   */
  lemma InfoMatchesImages(offset: Timespec, width: int, height: int, cs: seq<Capture>)
    ensures |CalibrationLog(offset, cs)| == |CalibratedIndices(cs)|
    ensures forall k :: 0 <= k < |CalibratedIndices(cs)| ==>
              CalibratedIndices(cs)[k] < |RawLog(offset, width, height, cs)|
              && CalibratedIndices(cs)[k] < |NormalizedLog(offset, width, height, cs)|
              && CalibrationLog(offset, cs)[k].stamp == RawLog(offset, width, height, cs)[CalibratedIndices(cs)[k]].stamp
              && CalibrationLog(offset, cs)[k].stamp == NormalizedLog(offset, width, height, cs)[CalibratedIndices(cs)[k]].stamp
  {
    CalibrationLogInOrder(offset, cs);
    RawLogAt(offset, width, height, cs);
    NormalizedLogAt(offset, width, height, cs);
  }

  /**
   The node's state across cycles. The offset and the camera size are fixed
   when the loop is set up; `framecount` and the three topics change per cycle.
   `history` records what each cycle consumed.
   */
  class AcquisitionLoop {
    const offset: Timespec
    const width: int
    const height: int
    var framecount: int
    var rawLog: seq<ImageMsg>
    var normalizedLog: seq<ImageMsg>
    var infoLog: seq<CameraInfo>
    ghost var history: seq<Capture>
    ghost var published: seq<Published>

    /** The topics hold exactly what the recorded cycles published, one pair of images per cycle. */
    ghost predicate Valid()
      reads this
    {
      && framecount == |history|
      && rawLog == RawLog(offset, width, height, history)
      && normalizedLog == NormalizedLog(offset, width, height, history)
      && infoLog == CalibrationLog(offset, history)
      && published == Trace(offset, width, height, history)
    }

    /** Set-up before the loop: the offset from the two clock readings, a zero frame count, empty topics. */
    constructor (mono: Timespec, now: Time, cameraWidth: int, cameraHeight: int)
      ensures Valid()
      ensures offset == ResetTime(mono, now)
      ensures width == cameraWidth && height == cameraHeight
      ensures framecount == 0 && history == [] && published == []
      ensures rawLog == [] && normalizedLog == [] && infoLog == []
    {
      offset := ResetTime(mono, now);
      width, height := cameraWidth, cameraHeight;
      framecount := 0;
      rawLog, normalizedLog, infoLog := [], [], [];
      history := [];
      published := [];
    }

    /**
     One pass of the loop: count the frame, stamp both images alike, publish
     raw then normalised, and publish the restamped camera info if and only if
     the camera is calibrated.
     */
    method Cycle(ts: Timeval, frame: Image, normalized: Image, calibrated: bool, info: CameraInfo)
      requires Valid()
      modifies this
      ensures Valid()
      ensures history == old(history) + [Capture(ts, frame, normalized, calibrated, info)]
      ensures framecount == old(framecount) + 1
      ensures rawLog == old(rawLog) + [RawMsg(offset, width, height, Capture(ts, frame, normalized, calibrated, info))]
      ensures normalizedLog == old(normalizedLog) + [NormalizedMsg(offset, width, height, Capture(ts, frame, normalized, calibrated, info))]
      ensures infoLog == if calibrated then old(infoLog) + [InfoMsg(offset, Capture(ts, frame, normalized, calibrated, info))] else old(infoLog)
      ensures published == old(published) + [Raw(rawLog[|rawLog| - 1]), Normalized(normalizedLog[|normalizedLog| - 1])]
                             + (if calibrated then [Info(infoLog[|infoLog| - 1])] else [])
      ensures rawLog[|rawLog| - 1].stamp == normalizedLog[|normalizedLog| - 1].stamp == FrameStamp(ts, offset)
    {
      ghost var c := Capture(ts, frame, normalized, calibrated, info);
      HistorySnoc(offset, width, height, history, c);
      framecount := framecount + 1;
      var msgs := SetHeaders(ToImageMsg(Mono16, frame), ToImageMsg(Mono8, normalized), width, height, ts, offset);
      assert msgs[0] == RawMsg(offset, width, height, c) && msgs[1] == NormalizedMsg(offset, width, height, c);
      rawLog := rawLog + [msgs[0]];
      published := published + [Raw(msgs[0])];
      normalizedLog := normalizedLog + [msgs[1]];
      published := published + [Normalized(msgs[1])];
      if calibrated {
        var infoMsg := info.(stamp := Time(ts.sec + offset.sec, ts.usec * NanosPerMicro + offset.nsec));
        assert infoMsg == InfoMsg(offset, c);
        infoLog := infoLog + [infoMsg];
        published := published + [Info(infoMsg)];
      }
      assert published == old(published) + CycleTrace(offset, width, height, c);
      history := history + [c];
    }
  }

  /**
   Five cycles one tenth of a second apart, the camera calibrated from the
   fourth on: five raw and five normalised images, two camera-info messages,
   raw stamps strictly increasing from one cycle to the next.
   */
  method FiveCycleScenario(mono: Timespec, now: Time, frame: Image, normalized: Image, info: CameraInfo)
  {
    var node := new AcquisitionLoop(mono, now, 320, 256);
    var t := Timeval(7, 0);
    node.Cycle(t, frame, normalized, false, info);
    node.Cycle(Timeval(7, 100_000), frame, normalized, false, info);
    node.Cycle(Timeval(7, 200_000), frame, normalized, false, info);
    node.Cycle(Timeval(7, 300_000), frame, normalized, true, info);
    node.Cycle(Timeval(7, 400_000), frame, normalized, true, info);
    assert node.framecount == 5 && |node.rawLog| == 5 && |node.normalizedLog| == 5;
    assert |node.infoLog| == 2;
    assert node.infoLog[0].stamp == node.rawLog[3].stamp;
    assert node.infoLog[1].stamp == node.normalizedLog[4].stamp;
    FrameStampOrder(t, Timeval(7, 100_000), node.offset);
    FrameStampOrder(Timeval(7, 100_000), Timeval(7, 200_000), node.offset);
    FrameStampOrder(Timeval(7, 200_000), Timeval(7, 300_000), node.offset);
    FrameStampOrder(Timeval(7, 300_000), Timeval(7, 400_000), node.offset);
    assert forall k :: 0 <= k < 4 ==> TimeNanos(node.rawLog[k].stamp) < TimeNanos(node.rawLog[k + 1].stamp);
  }
}
