# household-sentinel: a verified model of the detection loop and the box rescale

household-sentinel is a webcam monitor. A browser page captures camera frames
and posts each one to a FastAPI server. The server runs a YOLO model and
returns boxes. The page draws the boxes, lists the detections, and raises an
audio-visual alarm when a "sofa" is seen. This project models the two precise
parts of that system in Dafny and proves properties of them:

- **The server's box rescale** (`rescale.dfy`, module `Rescale`). Every frame
  is resized to 640 x 640 before inference. Each integer corner `c` of a box is
  then mapped back as `int(c * orig / 640)`: x corners use the frame width,
  y corners the frame height. Boxes are turned into detections one by one, in
  order, and the reply also carries the frame's width and height.
- **The client's detection cycle** (`render.dfy`, `controller.dfy`,
  `client.dfy`).
  - `Render` covers what one reply is turned into:
    - the alarm test (lower-cased class equal to `sofa`);
    - each box's colour;
    - the rectangle and label position;
    - the list rows.
  - `Controller` is the whole page as a state machine (`Page`) with one
    function per handler: Start, the loaded-metadata handler, one `detectFrame`
    call (`Tick`), the end of a cycle (`Complete`), and Stop. Its lemmas
    connect these over arbitrary event traces.
  - `Client.DetectionLoop` is the same state as a class with fields. Each
    handler is a method whose new state is stated as the `Controller` function
    of the old state. The per-detection `forEach` becomes a loop that appends
    to the `rows` and `drawings` fields.

### The loop chains and the shared flag

Every Start gives the video a new source. When that source's metadata loads,
the handler calls `detectFrame`, which starts a new chain of calls that
reschedules itself on every animation frame. Stop never ends a chain, so after
stop/start cycles several chains run at once. They share the one `processing`
flag. A chain `Waiting` for its frame runs a `Tick`: the cycle begins only when
the video is not paused and the flag is down, and then the flag is raised. A
chain `InFlight` is suspended inside its cycle until `Complete`.
`Controller.SingleFlight` states the invariant: the number of chains in flight
is at most 1 while the flag is up and 0 while it is down. The lemmas prove that
every event keeps it, so two cycles never overlap, however many chains there
are.

### Behaviour of the code that the model keeps

These are things the code does, stated as lemmas:

- The flag is lowered on the reply path and on the caught-error path.
- On a caught error only the status text changes, so a raised alarm stays
  raised.
- A reply that arrives after Stop is still applied. It can raise the alarm on
  a page that reads "Offline" (`LateReplyIsApplied`).
- The status keeps reading "NETWORK ERROR ..." after later replies succeed,
  because the reply path never writes the status.
- A failed cycle leaves the list showing the rows of the last reply, but the
  canvas shows no box: the boxes were already cleared when the cycle began
  (`FailedCycleShowsNoBoxes`).
- The frame is encoded (static/script.js:82-84) outside the `try`. A cycle
  that begins while the stream's metadata is still pending sizes the canvas
  to a video of size zero. The canvas then has no pixels, the encoder yields
  no image, and appending it to the form throws. The cycle ends without
  lowering the flag and without rescheduling its chain, and from then on no
  cycle ever runs (`CycleBeforeMetadataJams`, `JammedGateStaysJammed`). After
  Stop and Start, `video.play()` lets an old chain tick before the new
  stream's size is known, and that reaches this path
  (`RestartBeforeMetadataCanJam`). The model records at the tick whether the
  metadata was pending. For the other cycles the outcome of the request
  depends on the network and the server. It is an input of the model:
  `Received` or `Failed`.

### What the client does not do (the model follows the code)

- The client does not rescale boxes to the display. It draws them exactly as
  received (`DrawingIsUnscaled`) and ignores `orig_width`/`orig_height`. The
  server already returns frame-space coordinates, and the canvas is sized to
  the video.
- The client has no confidence threshold, for display or for the alarm
  (`AnyAlarmIff`). The only threshold is the model's `conf=0.25` on the
  server, which is left out with inference.
- Results are not discarded after Stop (`LateReplyIsApplied`).
- Start resets only the page's alert styling, not the alert overlay.

### Modelling assumptions

- Clearing the video's source (Stop) runs the media element's load algorithm.
  That pauses the video and drops any pending metadata load.
- `video.play()` (Start) unpauses it at once.
- Assigning the canvas's width in `resizeCanvas` (static/script.js:76, via
  :20) resets its bitmap, so the boxes of earlier cycles are gone once a
  cycle begins.
- `index.html` is not part of this model. The initial page is taken to be the
  state Stop produces.
- `Rescale.Detection` is an entry of the reply as the server builds it, and
  `Render.Detection` is the same JSON entry as the client reads it: `class`,
  `confidence` and the four corners of `box`. The model does not connect the
  two modules; the client takes any detections as input.

## Model

| member | source | states |
|---|---|---|
| Rescale.ScaleIsTruncatedQuotient | app/main.py:63-66 | the rescaled coordinate is the truncated quotient of c*orig by 640: r*640 <= c*orig < (r+1)*640 |
| Rescale.ScaleBounded | app/main.py:63-66 | a coordinate in [0, 640] maps into [0, orig], and 640 maps exactly to orig |
| Rescale.ScaleMonotone | app/main.py:63-66 | c1 <= c2 implies rescaled c1 <= rescaled c2 |
| Rescale.ScaleIdentity | app/main.py:63-66 | when the frame is 640 pixels on that axis the map is the identity |
| Rescale.RescaleBoxKeepsCorners | app/main.py:57-66 | a box with x1 <= x2 and y1 <= y2 keeps that order after rescaling, and a box whose far corner lies inside the 640 square lands inside the frame: x2 <= width and y2 <= height |
| Rescale.BuildDetections | app/main.py:53-72 | one detection per model box, in the same order, each the rescaled box with its class name and confidence |
| Rescale.Detect | app/main.py:39-81 | an undecodable frame fails the request; otherwise the reply holds the rescaled detections in box order and orig_width/orig_height equal the decoded frame's width and height |
| Render.AlarmClassIsCaseInsensitiveSofa | static/script.js:88-108 | a detection is alarm-class iff its class is exactly the four letters s,o,f,a in any mix of cases |
| Render.ColourChoice | static/script.js:115 | colour is '#FF3F6B' iff alarm-class, else '#00D1FF' |
| Render.DrawingIsUnscaled | static/script.js:106-120 | the rectangle is drawn at (x1, y1) with size (x2-x1, y2-y1): the received corners, unscaled |
| Render.LabelPlacement | static/script.js:127-130 | the label's top is y1-25 (resting on the box) when y1 > 25, else y1+10; for y1 >= 0 it is on the canvas |
| Render.RowsMatchDetections | static/script.js:137-147 | exactly one list row per detection, in received order, with its class, confidence and alarm styling |
| Render.DrawingsMatchDetections | static/script.js:105-134 | exactly one drawing per detection, in received order |
| Render.AnyAlarmIff | static/script.js:86-112 | the accumulator is true iff some detection is alarm-class; no confidence is consulted |
| Controller.TickGate | static/script.js:73-76 | a detectFrame call begins a cycle iff the video is not paused and the flag is down; a cycle that begins raises the flag, clears the canvas, and is marked blank iff metadata is pending; a closed gate leaves the page unchanged |
| Controller.NoSecondCycle | static/script.js:74-75 | while any chain is in a cycle, a tick of any other chain changes nothing |
| Controller.CompleteReopensGate | static/script.js:172-180 | after a reply or a caught error the flag is down and the chain is rescheduled |
| Controller.BlankFrameJamsGate | static/script.js:82-84 | a frame that encodes to nothing ends the chain with the flag still raised and no cycle in flight, whatever the request would have returned |
| Controller.CycleBeforeMetadataJams | static/script.js:73-84 | a cycle that begins while the metadata is pending ends with the flag raised and no cycle in flight |
| Controller.StepKeepsSingleFlight | static/script.js:39-180 | every event (start, metadata load, tick, completion, stop) keeps the single-flight invariant and removes no chain |
| Controller.RunKeepsSingleFlight | static/script.js:39-180 | any interleaving of events over any number of chains keeps the invariant, and chains only accumulate |
| Controller.MutualExclusion | static/script.js:17-180 | from the initial page, after any events, at most one chain is in a cycle and the flag is up while one is |
| Controller.ReplyRendersAndDecidesAlarm | static/script.js:102-170 | a reply rebuilds list and boxes one per detection in order; overlay, page styling and audio playing are on iff some detection is alarm-class; CLEAR rewinds audio to 0, ALERT keeps its position; status unchanged |
| Controller.FailureOnlySetsStatus | static/script.js:172-176 | a caught error sets the network-error status and changes no list row, drawing, overlay or audio state, so a raised alarm persists |
| Controller.FailedCycleShowsNoBoxes | static/script.js:74-76 | a failed cycle ends with the network-error status, the earlier list rows, no boxes on the canvas, and the flag down |
| Controller.StopIsIdempotent | static/script.js:50-71 | Stop sets camera, video, canvas, list, status, buttons, overlay and audio to fixed values, leaves flag and chains, and Stop twice equals Stop once |
| Controller.StoppedLoopIsIdle | static/script.js:52-74 | in the state Stop leaves, a tick of any waiting chain changes nothing |
| Controller.CompleteEndsOneCycle | static/script.js:82-178 | the end of a cycle, blank or not, leaves the video's paused and metadata state and lowers the count of cycles in flight by one |
| Controller.StepWhileStopped | static/script.js:39-180 | with the video paused and no metadata pending, any event except a granted Start keeps it so and does not add a cycle in flight |
| Controller.StoppedLoopStaysIdle | static/script.js:50-74 | after Stop, over any events without a granted Start, the video stays paused, no metadata is pending and the count of cycles in flight never grows |
| Controller.LateReplyIsApplied | static/script.js:90-170 | a reply arriving after Stop is still applied: an alarm-class detection raises overlay and audio while the status reads Offline |
| Controller.JammedGateStaysJammed | static/script.js:74-82 | once the flag is up with no cycle in flight, it stays so after any further events |
| Controller.RestartBeforeMetadataCanJam | static/script.js:24-84 | Start, a cycle, Stop, Start, then an old chain's tick before metadata with a blank frame leaves the gate jammed |
| Client.DetectionLoop.constructor | static/script.js:16-17 | the page starts with the flag down, no chain, video paused, and the offline interface |
| Client.DetectionLoop.PressStart | static/script.js:24-48 | granted: stream attached and playing, list emptied, page alert styling removed, status active; denied: only the status changes; invariant kept |
| Client.DetectionLoop.DetectFrame | static/script.js:73-82 | the gate: the new state is Tick of the old; invariant kept |
| Client.DetectionLoop.MetadataLoaded | static/script.js:39-42 | a new chain is added and ticks at once; invariant kept |
| Client.DetectionLoop.RenderDetections | static/script.js:96-148 | the forEach loop: rows and drawings end as one per detection in order and the accumulator as AnyAlarm |
| Client.DetectionLoop.SetAlarm | static/script.js:150-170 | the ALERT/CLEAR branch on overlay, page styling and audio |
| Client.DetectionLoop.ApplyOutcome | static/script.js:90-176 | the try/catch body: a reply is rendered and decides the alarm, an error sets the status |
| Client.DetectionLoop.Settle | static/script.js:82-180 | the end of a cycle: the new state is Complete of the old; invariant kept |
| Client.DetectionLoop.PressStop | static/script.js:50-71 | the new state is Stop of the old; invariant kept |

## Left out

- Canvas pixels are not modelled: `drawImage`, `clearRect`, stroke width, fonts. The label's width comes from `measureText`, a font-metric call into the browser, so it is not modelled.
- `toBlob` JPEG encoding, `fetch` and `response.json` are browser I/O. Their combined result is the `Outcome` input of a completion.
- `getUserMedia` is I/O. Its result is the `granted` input of Start. Track stopping is the `cameraOn` flag. `requestAnimationFrame` timing is the order of events in a trace.
- A reply that parses but is malformed is not modelled. With no `detections` array the list is emptied (static/script.js:102) and then the `forEach` throws (:105). With a malformed detection the `forEach` throws partway through, leaving a partly rebuilt list. In both cases the canvas has been repainted. A reply is either well formed (`Received`) or fails as a whole (`Failed`).
- Console output (`console.error` at static/script.js:44 and :173, `console.log` at :159) is I/O. It does not change the page.
- The `play()` promise and its rejection are a foreign API. Only the playing flag and the position are kept. The position is not advanced while playing.
- CSS class strings are not modelled. The alert overlay and the page's alert styling are two booleans. The glow and border classes of the video container and scanner are not modelled. The Start/Stop buttons are one `stopShown` flag.
- The status element's CSS class is not modelled, only its text.
- Render.ToLower: lower-cases ASCII letters only, while `toLowerCase` maps all of Unicode. This affects only non-ASCII class names, which cannot equal `sofa` after lower-casing in either version.
- `toFixed(1)` and `round(conf, 3)` are float formatting. Confidence is an opaque `real`, carried along and never inspected.
- Rescale.Scale: models the exact integer quotient, not Python's float division followed by `int`. The two agree for non-negative integers at realistic frame sizes: when the quotient is an integer, float division is exact; otherwise the quotient is at least 1/640 away from an integer.
- Negative or fractional box corners are not modelled. The `map(int, ...)` truncation of the model's floats is a library boundary, so corners are taken as non-negative integers.
- The class-name lookup `results.names[cls_id]` belongs to the model library. A model box carries the resolved name.
- Not modelled at all (library wrappers and process setup): YOLO inference, `cv2.imdecode` (its failure is the `None` frame input), `cv2.resize`, `cv2.imwrite`, the debug prints, torch GPU setup, model loading, and the FastAPI routing and static mount.
