# Boson camera node: timestamp arithmetic and acquisition cycle

This project models the core of the ROS node that streams a FLIR Boson
thermal camera (`src/boson_ros_node.cpp`), and proves properties of the model.
The core is the part of that file that has its own logic:

- `get_reset_time`, which computes once at start-up the offset from the
  monotonic clock to the ROS wall clock;
- the stamping of each frame, which adds that offset to the driver's
  per-frame `timeval`;
- one pass of the `while (ros::ok())` loop, which counts the frame, builds a
  `mono16` raw and a `mono8` normalised image message, writes the camera size
  and the stamp into both, publishes them, and publishes the restamped camera
  info only when the camera is calibrated.

`clock.dfy` (module `Clock`) holds the timestamp arithmetic as pure functions
and lemmas. The driver's `timeval`, a `timespec` and a `ros::Time` are each a
pair of integers, and the meaning of a pair is its total number of
nanoseconds. The code subtracts and adds the two fields separately, with no
borrow and no carry. So the sub-second field of the offset can be negative.
For in-range readings, the sub-second field of a stamp lies in
[-999,999,999, 1,999,998,999] (`FrameStampNsecRange`), and both ends are
reached (`FrameStampNotCanonical`): it can be negative or at least 10^9.
On the model's mathematical integers they also prove that the total is right:
the stamp's total equals the frame time plus the offset. From that follow
three results, again for mathematical integers:

- stamping preserves and reflects the order of frame times;
- stamping the reset instant itself gives back the wall-clock reading, up to
  the sub-microsecond part the driver drops;
- the monotonic clock is read before the wall clock (lines 21 and 27), so the
  offset is too large by the time between the two reads. When the two clocks
  run at the same rate, a later frame's stamp leads the true wall time by at
  most that gap and trails it by less than one microsecond.

In the program, the nanosecond field is stored into the `uint32` field of the
ROS header (lines 101 and 111). A negative value, which `FrameStampNotCanonical`
shows arises from in-range readings, reaches that conversion. The conversion
of a negative floating-point value to an unsigned integer is undefined in C++,
so for those frames the published total need not equal the model's total. The
model does not capture that conversion.

`boson_node.dfy` (module `BosonNode`) holds the loop as a class,
`AcquisitionLoop`. The offset and the camera size are `const` fields, fixed
when the loop is set up, so the offset cannot be reassigned (the source
declares `epoch_time` once at line 65 and never assigns it again). `framecount` and
the three topics (raw, normalised, camera info) are fields, and publishing
appends to a topic. `Cycle` takes what a pass consumes from its
collaborators:

- the driver's frame timestamp `camera.last_ts`;
- the captured frame;
- its normalised copy;
- the answer of `isCalibrated()`;
- the manager's camera info.

The two-message array and its `for` loop are kept in `SetHeaders`. A ghost
`history` of the captures and the predicate `Valid()` tie the topics to
value-level functions (`RawLog`, `NormalizedLog`, `CalibrationLog`). A ghost
`published` trace records every publish call across the three topics in the
order the loop makes them, tagged with its topic, so `Cycle`'s contract states
the order raw, then normalised, then camera info. The lemmas about those
functions state:

- one stamp is shared by all artifacts of a cycle;
- the calibration gate publishes exactly one message per calibrated cycle, and
  the k-th camera-info message belongs to the k-th calibrated cycle;
- the i-th raw and the i-th normalised message belong to the i-th cycle;
- every camera-info message carries the stamp of the raw and the normalised
  message of its own cycle, at the position of that cycle in the image topics;
- frames in time order give a raw topic whose stamps are in time order.

Points of the code that the model keeps as they are:

- `captureRawFrame` (line 83) has no fault branch: its result is used as it
  is. The model has no skip path.
- The stamp expression is evaluated three times: for `msg[0]` and `msg[1]` in
  the loop (lines 100-101) and for the camera info (lines 110-111). The model
  does the same. The stamps are still identical, because the expression
  depends only on the frame timestamp and the fixed offset.
- Image width and height are the camera's `width` and `height`. They
  overwrite the size that `toImageMsg` took from the image.

## Model

| member | source | states |
|---|---|---|
| `Clock.ResetTime` | src/boson_ros_node.cpp:18-34 | the offset's total nanoseconds are wall minus monotonic, and its seconds field is exactly wall seconds minus monotonic seconds (no borrow, so the nanoseconds carry the rest) |
| `Clock.ResetTimeNoBorrow` | src/boson_ros_node.cpp:29-31 | for in-range readings the offset's nanoseconds lie in (-10^9, 10^9) and are negative exactly when the wall nanoseconds are smaller than the monotonic ones |
| `Clock.FrameStamp` | src/boson_ros_node.cpp:100-101 | the stamp's total nanoseconds are the frame time's (microseconds scaled by 1000) plus the offset's, and its seconds are the frame seconds plus the offset seconds (no carry) |
| `Clock.FrameStampNsecRange` | src/boson_ros_node.cpp:100-101 | for in-range inputs the stamp's nanosecond field lies in [-999,999,999, 1,999,998,999], not in [0, 10^9) |
| `Clock.FrameStampNotCanonical` | src/boson_ros_node.cpp:100-101 | in-range readings that reach both ends of that range: a stamp nanosecond field of -999,999,999 and one of 1,999,998,999 |
| `Clock.FrameStampOrder` | src/boson_ros_node.cpp:100-101 | with a fixed offset, stamps are ordered (strictly or not) exactly as frame times are, and their differences are equal |
| `Clock.RoundTripAtReset` | src/boson_ros_node.cpp:100-101 | stamping the reset's monotonic reading, truncated to microseconds, gives the wall reading's seconds and its nanoseconds less `mono.nsec mod 1000`, an error in [0, 1000) ns |
| `Clock.FrameStampAccuracy` | src/boson_ros_node.cpp:18-34 | with the wall clock read `gap` ns after the monotonic clock and both clocks advancing equally afterwards, a later frame's stamp minus the true wall time lies in (gap - 1000, gap] ns: ahead by at most the gap, behind by less than one microsecond |
| `BosonNode.SetHeaders` | src/boson_ros_node.cpp:93-102 | both messages get the camera size and the frame stamp, keep their encoding and pixels, and end with identical stamps |
| `BosonNode.CycleArtifactsAgree` | src/boson_ros_node.cpp:94-111 | raw, normalised and camera-info messages of one cycle carry the same stamp; both images have the camera size, encodings `mono16`/`mono8`, and the frame's and the normalised image's pixels |
| `BosonNode.CalibrationLogLength` | src/boson_ros_node.cpp:107-115 | the camera-info topic holds one message per calibrated cycle, so never more than the number of cycles |
| `BosonNode.CalibrationLogEmpty` | src/boson_ros_node.cpp:107-115 | the camera-info topic is empty if and only if no cycle was calibrated |
| `BosonNode.CalibrationLogInOrder` | src/boson_ros_node.cpp:107-112 | the k-th camera-info message is the restamped info of the k-th calibrated cycle; those cycle positions strictly increase, and every calibrated cycle has one |
| `BosonNode.TraceInfos` | src/boson_ros_node.cpp:104-112 | the camera-info calls in the cross-topic trace are exactly the camera-info topic, and the trace holds two image calls per cycle plus one call per camera-info message |
| `BosonNode.CalibrationLogStamps` | src/boson_ros_node.cpp:107-112 | each camera-info message is the info of some calibrated cycle, restamped with that cycle's stamp, the one its raw image carries |
| `BosonNode.RawLogAt` | src/boson_ros_node.cpp:94-104 | the raw topic holds one message per cycle, and its i-th message is the i-th cycle's `mono16` image with that cycle's stamp |
| `BosonNode.NormalizedLogAt` | src/boson_ros_node.cpp:95-105 | the normalised topic holds one message per cycle, and its i-th message is the i-th cycle's `mono8` image with that cycle's stamp |
| `BosonNode.InfoMatchesImages` | src/boson_ros_node.cpp:100-111 | the k-th camera-info message has the same stamp as the raw and the normalised message at the position of the k-th calibrated cycle |
| `BosonNode.StampsInOrder` | src/boson_ros_node.cpp:100-104 | when frame times do not decrease across cycles, the stamps along the raw topic do not decrease |
| `BosonNode.AcquisitionLoop.constructor` | src/boson_ros_node.cpp:64-79 | set-up: the offset is `ResetTime` of the two clock readings, the frame count is zero, the topics and the publish trace are empty |
| `BosonNode.AcquisitionLoop.Cycle` | src/boson_ros_node.cpp:82-119 | the frame count goes up by one; one raw and one normalised message are appended to their topics with the shared stamp; camera info is appended, restamped, if and only if the camera is calibrated; the publish trace grows by raw, then normalised, then (if calibrated) camera info; nothing else changes and `Valid()` is kept |

## Left out

- The clock reads `clock_gettime(CLOCK_MONOTONIC)` and `ros::Time::now()` are I/O. They are parameters of the constructor.
- The camera driver calls `init`, `allocateBuffer`, `startStream`, `captureRawFrame`, `stopStream` and `closeConnection` are left out. The driver is not part of this model, so the captured frame and `camera.last_ts` are parameters of `Cycle`.
- OpenCV's `normalize(..., NORM_MINMAX)` and `convertTo(CV_8UC1, 1/256)` are floating-point library routines. The normalised image is a parameter of `Cycle`, so the model does not relate its pixels to the raw frame's.
- ROS node and parameter handling, `image_transport`, `cv_bridge` transport, `spinOnce` and the `ros::Rate` pacing are plumbing. Publishing is modelled as appending to a sequence, and the frame rate is not modelled.
- The shutdown sequence is left out: it consists only of transport and driver calls.
- Clock.FrameStamp: the stamp fields are mathematical integers. The model omits the `uint32` header fields, the `double` product `tv_usec * 1e3`, and the conversion of a negative or too-large value into `uint32`. The range lemmas say which values reach those conversions. For a negative nanosecond field that conversion is undefined in C++, so the total-nanosecond, order and accuracy results hold for the model's integers and not necessarily for the published header.
- Clock.ToMicros: the driver is not part of this model. `RoundTripAtReset` and `FrameStampAccuracy` assume that the driver's `camera.last_ts` is the CLOCK_MONOTONIC time truncated to whole microseconds. `ToMicros` states that assumption, and nothing in the source shows it.
- BosonNode.AcquisitionLoop.Cycle: `framecount` is an unbounded integer, and the overflow of the C `int` is not modelled.
- BosonNode.AcquisitionLoop.Cycle: the source reads `camera.width` and `camera.height` on every pass (lines 98-99). The model fixes them as `const` fields when the loop is set up, so it does not capture a camera size that changes while the loop runs.
- The camera info's other fields (`K`, `D`, `R`, `P`, size) are one opaque payload that the node passes through unchanged.
