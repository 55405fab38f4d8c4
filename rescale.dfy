// The server side of /detect: the model sees every frame resized to a
// 640 x 640 square, and each box it reports is mapped back to the pixel
// space of the decoded frame before the JSON reply is built.

module Rescale {

  /** Side of the square the frame is resized to before inference. */
  const INFERENCE_SIZE: nat := 640

  /** A box as the model reports it, its corners already truncated to
      integers, with its confidence (opaque here) and its resolved class name. */
  datatype ModelBox = ModelBox(x1: nat, y1: nat, x2: nat, y2: nat, confidence: real, name: string)

  /** One entry of the "detections" array of the reply. */
  datatype Detection = Detection(cls: string, confidence: real, x1: nat, y1: nat, x2: nat, y2: nat)

  /** The JSON reply: the detections and the decoded frame's size. */
  datatype Response = Response(detections: seq<Detection>, origWidth: nat, origHeight: nat)

  /** Height and width of the decoded frame (the first two entries of its shape). */
  datatype FrameShape = FrameShape(height: nat, width: nat)

  /** Why a request fails before any reply is built. */
  datatype Failure = UndecodableFrame

  datatype Option<T> = None | Some(value: T)

  datatype Result<T> = Ok(value: T) | Err(failure: Failure)

  /** `int(c * orig / 640)` for a non-negative corner coordinate: the exact
      product is divided by 640 and truncated, which on non-negative values
      is floor division. */
  function Scale(c: nat, orig: nat): nat
  {
    c * orig / INFERENCE_SIZE
  }

  /** Maps one model box back: x corners by the frame width, y corners by
      the frame height; the class name and confidence are carried over. */
  function RescaleBox(b: ModelBox, origW: nat, origH: nat): Detection
  {
    Detection(b.name, b.confidence,
              Scale(b.x1, origW), Scale(b.y1, origH),
              Scale(b.x2, origW), Scale(b.y2, origH))
  }

  /** Auxiliary: multiplication by a non-negative factor is monotone. */
  lemma MulMonotone(a: nat, b: nat, k: nat)
    requires a <= b
    ensures a * k <= b * k
  {
  }

  /** Auxiliary: a positive factor can be cancelled from an inequality. */
  lemma MulCancel(a: nat, b: nat, k: nat)
    requires 0 < k && a * k <= b * k
    ensures a <= b
  {
  }

  /** The scaled coordinate is the truncated quotient of c * orig by 640:
      the largest r with r * 640 <= c * orig. */
  lemma ScaleIsTruncatedQuotient(c: nat, orig: nat)
    ensures Scale(c, orig) * INFERENCE_SIZE <= c * orig < (Scale(c, orig) + 1) * INFERENCE_SIZE
  {
  }

  /** A coordinate inside the inference square lands inside the frame, and
      the far edge 640 lands exactly on the frame's size. */
  lemma ScaleBounded(c: nat, orig: nat)
    requires c <= INFERENCE_SIZE
    ensures 0 <= Scale(c, orig) <= orig
    ensures c == INFERENCE_SIZE ==> Scale(c, orig) == orig
  {
    ScaleIsTruncatedQuotient(c, orig);
    MulMonotone(c, INFERENCE_SIZE, orig);
    MulCancel(Scale(c, orig), orig, INFERENCE_SIZE);
  }

  /** Scaling preserves the order of coordinates. */
  lemma ScaleMonotone(c1: nat, c2: nat, orig: nat)
    requires c1 <= c2
    ensures Scale(c1, orig) <= Scale(c2, orig)
  {
    ScaleIsTruncatedQuotient(c1, orig);
    ScaleIsTruncatedQuotient(c2, orig);
    MulMonotone(c1, c2, orig);
    MulCancel(Scale(c1, orig), Scale(c2, orig) + 1, INFERENCE_SIZE);
    assert Scale(c1, orig) != Scale(c2, orig) + 1;
  }

  /** A frame that already is 640 pixels on a side is left as it is. */
  lemma ScaleIdentity(c: nat)
    ensures Scale(c, INFERENCE_SIZE) == c
  {
  }

  /** A rescaled box keeps its corner order, and a box inside the inference
      square lands inside the frame. */
  lemma RescaleBoxKeepsCorners(b: ModelBox, origW: nat, origH: nat)
    requires b.x1 <= b.x2 && b.y1 <= b.y2
    ensures var d := RescaleBox(b, origW, origH);
      d.x1 <= d.x2 && d.y1 <= d.y2
    ensures var d := RescaleBox(b, origW, origH);
      b.x2 <= INFERENCE_SIZE && b.y2 <= INFERENCE_SIZE ==> d.x2 <= origW && d.y2 <= origH
  {
    ScaleMonotone(b.x1, b.x2, origW);
    ScaleMonotone(b.y1, b.y2, origH);
    if b.x2 <= INFERENCE_SIZE && b.y2 <= INFERENCE_SIZE {
      ScaleBounded(b.x2, origW);
      ScaleBounded(b.y2, origH);
    }
  }

  /** The loop of `detect` over the model's boxes: one detection per box,
      appended in the order the boxes come. */
  method BuildDetections(boxes: seq<ModelBox>, origW: nat, origH: nat) returns (detections: seq<Detection>)
    ensures |detections| == |boxes|
    ensures forall i :: 0 <= i < |boxes| ==> detections[i] == RescaleBox(boxes[i], origW, origH)
  {
    detections := [];
    for k := 0 to |boxes|
      invariant |detections| == k
      invariant forall i :: 0 <= i < k ==> detections[i] == RescaleBox(boxes[i], origW, origH)
    {
      var b := boxes[k];
      var x1 := Scale(b.x1, origW);
      var y1 := Scale(b.y1, origH);
      var x2 := Scale(b.x2, origW);
      var y2 := Scale(b.y2, origH);
      detections := detections + [Detection(b.name, b.confidence, x1, y1, x2, y2)];
    }
  }

  /** The handler: a frame that does not decode fails the request; otherwise
      the reply holds one rescaled detection per model box, in order, and the
      decoded frame's width and height. */
  method Detect(frame: Option<FrameShape>, boxes: seq<ModelBox>) returns (r: Result<Response>)
    ensures frame.None? <==> r.Err?
    ensures r.Ok? ==> r.value.origWidth == frame.value.width && r.value.origHeight == frame.value.height
    ensures r.Ok? ==> |r.value.detections| == |boxes|
    ensures r.Ok? ==> forall i :: 0 <= i < |boxes| ==>
      r.value.detections[i] == RescaleBox(boxes[i], frame.value.width, frame.value.height)
  {
    if frame.None? {
      return Err(UndecodableFrame);
    }
    var origH, origW := frame.value.height, frame.value.width;
    var detections := BuildDetections(boxes, origW, origH);
    r := Ok(Response(detections, origW, origH));
  }
}
