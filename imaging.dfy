/**
 * Image artefacts and the capabilities the services consume.
 *
 * An image is abstract: its size, its mode and a token standing for its pixel
 * data. Decoding, encoding, the pixel maths of Pillow and the AI providers are
 * fields of a `Toolkit`: total functions the model knows nothing about. Where a
 * library call has a size or mode effect (crop, resize, paste, putalpha,
 * convert), this module states that effect itself, so the model never depends
 * on an unproved law about a provider.
 */
module Imaging {
  import opened Wrappers

  newtype byte = b: int | 0 <= b < 256
  type Bytes = seq<byte>

  datatype Mode = RGB | RGBA

  /** Stands for the pixel planes of an image; their values are not modelled. */
  datatype Pixels = Pixels(id: nat)

  /** Stands for the values of a single 8-bit channel. */
  datatype Channel = Channel(id: nat)

  /** A single-band image (an alpha mask): its size and its channel values. */
  datatype Mask = Mask(width: nat, height: nat, channel: Channel)

  /**
   * Stands for the random starting latents the diffusion pipe draws on a call
   * that passes no seeded generator; each call may draw different ones.
   */
  datatype Latents = Latents(draw: nat)

  datatype Image = Image(width: nat, height: nat, mode: Mode, pixels: Pixels)

  /** An RGB colour as the hex parser returns it. */
  datatype Rgb = Rgb(r: int, g: int, b: int) {
    predicate InByteRange() {
      0 <= r < 256 && 0 <= g < 256 && 0 <= b < 256
    }
  }

  /** A crop box (left, upper, right, lower) in pixel coordinates. */
  datatype Box = Box(x0: int, y0: int, x1: int, y1: int)

  /** A loaded model object held by the model manager. */
  datatype Handle = Handle(id: nat)

  /** An exception raised inside a provider or a model loader. */
  datatype Fault = Fault(message: string)

  /** The exceptions the core raises. */
  datatype Error =
    | ValueError(message: string)
    | RuntimeError(message: string)
    | ProviderError(fault: Fault)

  /** One raw YOLO box: float corners `xyxy` and its confidence `conf`. */
  datatype Prediction = Prediction(x0: real, y0: real, x1: real, y1: real, conf: real)

  /** One Haar-cascade face: `(x, y, w, h)`. */
  datatype FaceRect = FaceRect(x: int, y: int, w: int, h: int)

  /** The `top_crop` a smart-crop analysis suggests. */
  datatype CropRect = CropRect(x: int, y: int, width: int, height: int)

  datatype Toolkit = Toolkit(
    // PIL's PNG codec: `image_to_bytes` and `Image.open`
    encode: Image -> Bytes,
    decode: Bytes -> Image,
    // pixel data produced by Pillow operations
    addOpaqueAlpha: Pixels -> Pixels,          // convert("RGBA") of an RGB image
    alpha: Pixels -> Channel,                  // getchannel('A')
    blur: (Channel, int) -> Channel,           // GaussianBlur(radius)
    putAlpha: (Pixels, Channel) -> Pixels,     // putalpha(mask)
    fill: (nat, nat, Rgb) -> Pixels,           // Image.new("RGB", size, colour)
    paste: (Pixels, Pixels, Channel) -> Pixels,  // base.paste(fg, (0, 0), mask)
    cropPixels: (Image, Box) -> Pixels,        // crop(box)
    resample: (Image, nat, nat) -> Pixels,     // resize((w, h))
    thumbnail: (Image, int) -> Image,          // thumbnail((m, m))
    // AI providers
    remove: Image -> Result<Pixels, Fault>,    // rembg: an RGBA cut-out of the same size
    generate: (Handle, string, int, int, Latents) -> Result<Image, Fault>,  // sd_pipe(prompt, width, height).images[0]
    detect: (Handle, Image, string, real) -> seq<Prediction>,      // set_classes([prompt]); predict(image, conf)
    faces: Image -> seq<FaceRect>,             // detectMultiScale(gray, 1.1, 4)
    suggest: (Handle, Image, int, int) -> CropRect  // smart_crop.crop(image, w, h)['top_crop']
  )

  /** PNG is lossless: decoding what was encoded gives the image back. */
  ghost predicate LosslessCodec(tk: Toolkit) {
    forall img :: tk.decode(tk.encode(img)) == img
  }

  /** `convert("RGBA")`: an RGBA image is copied, an RGB one gains an opaque alpha channel. */
  function ToRgba(tk: Toolkit, img: Image): (r: Image)
    ensures r.mode == RGBA && r.width == img.width && r.height == img.height
    ensures img.mode == RGBA ==> r == img
  {
    if img.mode == RGBA then img
    else Image(img.width, img.height, RGBA, tk.addOpaqueAlpha(img.pixels))
  }

  /** `getchannel('A')`, which exists only on an image with an alpha band: a mask of the image's size. */
  function Alpha(tk: Toolkit, img: Image): (m: Mask)
    requires img.mode == RGBA
    ensures m.width == img.width && m.height == img.height
  {
    Mask(img.width, img.height, tk.alpha(img.pixels))
  }

  /** `mask.filter(GaussianBlur(radius))`: a mask of the same size with softened values. */
  function Blur(tk: Toolkit, mask: Mask, radius: int): (r: Mask)
    ensures r.width == mask.width && r.height == mask.height
  {
    Mask(mask.width, mask.height, tk.blur(mask.channel, radius))
  }

  /**
   * `putalpha(mask)`: same size, mode RGBA, alpha replaced by `mask`. Pillow
   * raises unless the mask has the image's size.
   */
  function PutAlpha(tk: Toolkit, img: Image, mask: Mask): (r: Image)
    requires mask.width == img.width && mask.height == img.height
    ensures r.width == img.width && r.height == img.height && r.mode == RGBA
  {
    Image(img.width, img.height, RGBA, tk.putAlpha(img.pixels, mask.channel))
  }

  /** `Image.new("RGB", (w, h), colour)`. */
  function NewCanvas(tk: Toolkit, w: nat, h: nat, colour: Rgb): (r: Image)
    ensures r.width == w && r.height == h && r.mode == RGB
  {
    Image(w, h, RGB, tk.fill(w, h, colour))
  }

  /**
   * `base.paste(fg, (0, 0), mask)`: the base keeps its size and mode; only its
   * pixels change. Pillow raises unless the mask has the pasted image's size.
   */
  function Paste(tk: Toolkit, base: Image, fg: Image, mask: Mask): (r: Image)
    requires mask.width == fg.width && mask.height == fg.height
    ensures r.width == base.width && r.height == base.height && r.mode == base.mode
  {
    Image(base.width, base.height, base.mode, tk.paste(base.pixels, fg.pixels, mask.channel))
  }

  const RightBeforeLeft := "Coordinate 'right' is less than 'left'"
  const LowerBeforeUpper := "Coordinate 'lower' is less than 'upper'"

  /** Pillow's `crop(box)`: a reversed box raises, any other box gives a (x1-x0) by (y1-y0) image. */
  function Crop(tk: Toolkit, img: Image, box: Box): (r: Result<Image, Error>)
    ensures r.Success? <==> box.x0 <= box.x1 && box.y0 <= box.y1
    ensures r.Success? ==> r.value.width == box.x1 - box.x0 && r.value.height == box.y1 - box.y0
    ensures r.Success? ==> r.value.mode == img.mode
    ensures r.Failure? ==> r.error.ValueError?
  {
    if box.x1 < box.x0 then Failure(ValueError(RightBeforeLeft))
    else if box.y1 < box.y0 then Failure(ValueError(LowerBeforeUpper))
    else Success(Image(box.x1 - box.x0, box.y1 - box.y0, img.mode, tk.cropPixels(img, box)))
  }

  const NonPositiveSize := "height and width must be > 0"

  /**
   * Pillow's `resize((w, h))`: a request for the image's own size returns a
   * copy; a non-positive size raises; otherwise the result has exactly the
   * requested size.
   */
  function Resize(tk: Toolkit, img: Image, w: int, h: int): (r: Result<Image, Error>)
    ensures r.Success? <==> (w == img.width && h == img.height) || (w > 0 && h > 0)
    ensures r.Success? ==> r.value.width == w && r.value.height == h && r.value.mode == img.mode
    ensures w == img.width && h == img.height ==> r == Success(img)
  {
    if w == img.width && h == img.height then Success(img)
    else if w < 1 || h < 1 then Failure(ValueError(NonPositiveSize))
    else Success(Image(w, h, img.mode, tk.resample(img, w, h)))
  }
}
