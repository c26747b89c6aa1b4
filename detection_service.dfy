/**
 * `DetectionService`: object crop, face crop, smart crop and the detection
 * listing. Nothing here is cached; the detectors' outputs come from the
 * toolkit, and the YOLO and smart-crop handles from the model manager.
 */
module Detection {
  import opened Wrappers
  import opened Imaging
  import opened AiModels

  const YoloConfidence: real := 0.5
  const NoObject := "No matching object found."
  const NoFace := "No face detected in the image."

  function Min(a: int, b: int): int { if a <= b then a else b }

  function Max(a: int, b: int): int { if a >= b then a else b }

  /** Python's `int(x)` on a float: truncation toward zero. */
  function Trunc(x: real): (n: int)
    ensures x >= 0.0 ==> n as real <= x < n as real + 1.0
    ensures x < 0.0 ==> n as real - 1.0 < x <= n as real
  {
    if x >= 0.0 then x.Floor else -((-x).Floor)
  }

  /** `map(int, box.xyxy[0])`: the integer crop box of one prediction. */
  function PixelBox(p: Prediction): (b: Box)
    ensures p.x0 >= 0.0 ==> b.x0 == p.x0.Floor
    ensures p.y0 >= 0.0 ==> b.y0 == p.y0.Floor
    ensures p.x1 >= 0.0 ==> b.x1 == p.x1.Floor
    ensures p.y1 >= 0.0 ==> b.y1 == p.y1.Floor
  {
    Box(Trunc(p.x0), Trunc(p.y0), Trunc(p.x1), Trunc(p.y1))
  }

  /**
   * What `detect_and_crop` does with the predictions: none means not found;
   * otherwise the image is cropped to the first box as the detector ranked it.
   */
  function CropToFirst(tk: Toolkit, image: Image, preds: seq<Prediction>): (r: Result<Image, Error>)
    ensures |preds| == 0 <==> r == Failure(ValueError(NoObject))
    ensures |preds| > 0 ==> r == Crop(tk, image, PixelBox(preds[0]))
  {
    if |preds| == 0 then Failure(ValueError(NoObject))
    else Crop(tk, image, PixelBox(preds[0]))
  }

  /** Only the first prediction matters: the others are never looked at, nor re-sorted. */
  lemma CropIgnoresLaterBoxes(tk: Toolkit, image: Image, a: seq<Prediction>, b: seq<Prediction>)
    requires |a| > 0 && |b| > 0 && a[0] == b[0]
    ensures CropToFirst(tk, image, a) == CropToFirst(tk, image, b)
  {
  }

  /** `detect_and_crop`: load YOLO (its failure propagates), predict with the prompt as the only class, crop. */
  method DetectAndCrop(tk: Toolkit, models: ModelManager, yoloBuild: Result<Handle, Fault>, image: Image, prompt: string)
    returns (r: Result<Image, Error>)
    modifies models
    ensures models.sdPipe == old(models.sdPipe) && models.smartCrop == old(models.smartCrop)
    ensures models.yolo == (if old(models.yolo).Some? then old(models.yolo)
                            else if yoloBuild.Success? then Some(yoloBuild.value) else None)
    ensures models.yolo.None? ==> r == Failure(ProviderError(yoloBuild.error))
    ensures models.yolo.Some? ==> r == CropToFirst(tk, image, tk.detect(models.yolo.value, image, prompt, YoloConfidence))
  {
    var yolo := models.LoadYolo(yoloBuild);
    if yolo.Failure? {
      return Failure(ProviderError(yolo.error));
    }
    r := CropToFirst(tk, image, tk.detect(yolo.value, image, prompt, YoloConfidence));
  }

  /**
   * The padded face box: each edge moves out by `padding` and is clamped to
   * the image. The width and height are clamped as `w + 2 * padding` after
   * the left and top clamps, so a face near the left (top) edge gets the
   * unused padding added on the right (bottom).
   */
  function FaceBox(face: FaceRect, padding: int, width: int, height: int): (b: Box)
    ensures b.x0 >= 0 && b.y0 >= 0
    ensures b.x1 <= width && b.y1 <= height
    ensures face.x >= padding ==> b.x0 == face.x - padding && b.x1 == Min(width, face.x + face.w + padding)
    ensures face.x < padding ==> b.x0 == 0 && b.x1 == Min(width, face.w + 2 * padding)
    ensures face.y >= padding ==> b.y0 == face.y - padding && b.y1 == Min(height, face.y + face.h + padding)
    ensures face.y < padding ==> b.y0 == 0 && b.y1 == Min(height, face.h + 2 * padding)
  {
    var x := Max(0, face.x - padding);
    var y := Max(0, face.y - padding);
    var w := Min(width - x, face.w + 2 * padding);
    var h := Min(height - y, face.h + 2 * padding);
    Box(x, y, x + w, y + h)
  }

  /** A face inside the image, padded by a non-negative amount, gives a well-ordered box inside the image. */
  lemma FaceBoxInsideImage(face: FaceRect, padding: int, width: int, height: int)
    requires 0 <= face.x && 0 <= face.w && face.x + face.w <= width
    requires 0 <= face.y && 0 <= face.h && face.y + face.h <= height
    requires padding >= 0
    ensures var b := FaceBox(face, padding, width, height);
            && 0 <= b.x0 <= face.x && face.x + face.w <= b.x1 <= width
            && 0 <= b.y0 <= face.y && face.y + face.h <= b.y1 <= height
  {
  }

  /** The asymmetry: a 20-pixel face at x = 10 with padding 50 gets 10 pixels on its left and 90 on its right. */
  lemma FaceBoxLeftClampExample()
    ensures FaceBox(FaceRect(10, 200, 20, 20), 50, 1000, 1000) == Box(0, 150, 120, 270)
  {
  }

  /** `face_crop`: no face means not found; otherwise the first face is padded, clamped and cropped. */
  function FaceCrop(tk: Toolkit, image: Image, padding: int): (r: Result<Image, Error>)
    ensures |tk.faces(image)| == 0 <==> r == Failure(ValueError(NoFace))
    ensures |tk.faces(image)| > 0 ==>
              r == Crop(tk, image, FaceBox(tk.faces(image)[0], padding, image.width, image.height))
    ensures r.Success? ==> r.value.width <= image.width && r.value.height <= image.height
  {
    var faces := tk.faces(image);
    if |faces| == 0 then Failure(ValueError(NoFace))
    else Crop(tk, image, FaceBox(faces[0], padding, image.width, image.height))
  }

  /** When the cascade's first face lies inside the image and padding is non-negative, the crop succeeds. */
  lemma FaceCropSucceedsInside(tk: Toolkit, image: Image, padding: int)
    requires |tk.faces(image)| > 0 && padding >= 0
    requires var f := tk.faces(image)[0];
             0 <= f.x && 0 <= f.w && f.x + f.w <= image.width && 0 <= f.y && 0 <= f.h && f.y + f.h <= image.height
    ensures FaceCrop(tk, image, padding).Success?
  {
    FaceBoxInsideImage(tk.faces(image)[0], padding, image.width, image.height);
  }

  /** The crop box built from `top_crop`. */
  function SmartCropBox(c: CropRect): (b: Box)
    ensures b.x0 == c.x && b.y0 == c.y
    ensures b.x1 - b.x0 == c.width && b.y1 - b.y0 == c.height
  {
    Box(c.x, c.y, c.x + c.width, c.y + c.height)
  }

  /**
   * What `smart_crop` does with the suggestion: crop to it, then resize to
   * the requested size, so a result always has exactly that size.
   */
  function SmartCropTo(tk: Toolkit, image: Image, suggestion: CropRect, width: int, height: int): (r: Result<Image, Error>)
    ensures r.Success? ==> r.value.width == width && r.value.height == height && r.value.mode == image.mode
    ensures suggestion.width >= 0 && suggestion.height >= 0 && width > 0 && height > 0 ==> r.Success?
    ensures r.Success? ==> suggestion.width >= 0 && suggestion.height >= 0
    ensures Crop(tk, image, SmartCropBox(suggestion)).Success? ==>
              r == Resize(tk, Crop(tk, image, SmartCropBox(suggestion)).value, width, height)
  {
    match Crop(tk, image, SmartCropBox(suggestion))
    case Failure(e) => Failure(e)
    case Success(cropped) => Resize(tk, cropped, width, height)
  }

  /** `smart_crop`: load the smart-cropper (its failure propagates), ask for a suggestion, crop and resize. */
  method SmartCrop(tk: Toolkit, models: ModelManager, smartCropBuild: Result<Handle, Fault>,
                   image: Image, width: int, height: int) returns (r: Result<Image, Error>)
    modifies models
    ensures models.yolo == old(models.yolo) && models.sdPipe == old(models.sdPipe)
    ensures models.smartCrop == (if old(models.smartCrop).Some? then old(models.smartCrop)
                                 else if smartCropBuild.Success? then Some(smartCropBuild.value) else None)
    ensures models.smartCrop.None? ==> r == Failure(ProviderError(smartCropBuild.error))
    ensures models.smartCrop.Some? ==>
              r == SmartCropTo(tk, image, tk.suggest(models.smartCrop.value, image, width, height), width, height)
    ensures r.Success? ==> r.value.width == width && r.value.height == height
  {
    var sc := models.LoadSmartCrop(smartCropBuild);
    if sc.Failure? {
      return Failure(ProviderError(sc.error));
    }
    r := SmartCropTo(tk, image, tk.suggest(sc.value, image, width, height), width, height);
  }

  /** One entry of the listing: `{'bbox': ..., 'confidence': ..., 'class': prompt}`. */
  datatype DetectionEntry = DetectionEntry(bbox: Box, confidence: real, className: string)

  /** `{'detections': ..., 'count': ...}`. */
  datatype DetectionInfo = DetectionInfo(detections: seq<DetectionEntry>, count: int)

  /** One prediction's entry: its integer box, its confidence unchanged, the prompt as its class. */
  function EntryOf(p: Prediction, prompt: string): (e: DetectionEntry)
    ensures e.bbox == PixelBox(p) && e.confidence == p.conf && e.className == prompt
  {
    DetectionEntry(PixelBox(p), p.conf, prompt)
  }

  /**
   * The loop of `get_detection_info`: one entry per prediction, in the
   * detector's order, each labelled with the prompt, and the count of them.
   * No predictions give an empty listing, not an error.
   */
  method ListDetections(preds: seq<Prediction>, prompt: string) returns (info: DetectionInfo)
    ensures info.count == |info.detections| == |preds|
    ensures forall i :: 0 <= i < |preds| ==> info.detections[i] == EntryOf(preds[i], prompt)
    ensures forall e :: e in info.detections ==> e.className == prompt
  {
    var detections: seq<DetectionEntry> := [];
    for i := 0 to |preds|
      invariant |detections| == i
      invariant forall j :: 0 <= j < i ==> detections[j] == EntryOf(preds[j], prompt)
    {
      detections := detections + [EntryOf(preds[i], prompt)];
    }
    info := DetectionInfo(detections, |detections|);
  }

  /** The first listed box is the box `detect_and_crop` crops to. */
  lemma FirstEntryIsCropBox(tk: Toolkit, image: Image, preds: seq<Prediction>, prompt: string)
    requires |preds| > 0
    ensures CropToFirst(tk, image, preds) == Crop(tk, image, EntryOf(preds[0], prompt).bbox)
  {
  }

  /** `get_detection_info`: load YOLO (its failure propagates), predict, list. */
  method GetDetectionInfo(tk: Toolkit, models: ModelManager, yoloBuild: Result<Handle, Fault>, image: Image, prompt: string)
    returns (r: Result<DetectionInfo, Error>)
    modifies models
    ensures models.sdPipe == old(models.sdPipe) && models.smartCrop == old(models.smartCrop)
    ensures models.yolo == (if old(models.yolo).Some? then old(models.yolo)
                            else if yoloBuild.Success? then Some(yoloBuild.value) else None)
    ensures models.yolo.None? ==> r == Failure(ProviderError(yoloBuild.error))
    ensures models.yolo.Some? ==>
              var preds := tk.detect(models.yolo.value, image, prompt, YoloConfidence);
              && r.Success?
              && r.value.count == |r.value.detections| == |preds|
              && forall i :: 0 <= i < |preds| ==> r.value.detections[i] == EntryOf(preds[i], prompt)
  {
    var yolo := models.LoadYolo(yoloBuild);
    if yolo.Failure? {
      return Failure(ProviderError(yolo.error));
    }
    var info := ListDetections(tk.detect(yolo.value, image, prompt, YoloConfidence), prompt);
    r := Success(info);
  }
}
