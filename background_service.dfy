/**
 * `BackgroundService`: background removal/recolouring and generative
 * background swap, each memoised by its own bounded LRU table.
 */
module Background {
  import opened Wrappers
  import opened Imaging
  import opened ImageUtils
  import opened Lru
  import opened AiModels

  const RemovalCapacity := 32
  const SwapCapacity := 16
  const SdUnavailable := "Stable Diffusion model is not available."

  /** The removal memo key: PNG bytes, the colour argument exactly as passed, the blur radius. */
  datatype RemovalKey = RemovalKey(imageBytes: Bytes, bgColor: Option<string>, edgeBlurRadius: int)

  /** The swap memo key: PNG bytes, the prompt, and the generation size. */
  datatype SwapKey = SwapKey(imageBytes: Bytes, prompt: string, width: int, height: int)

  /** Python truthiness of the optional colour string. */
  predicate Truthy(s: Option<string>)
    ensures !Truthy(s) <==> s == None || s == Some("")
  {
    s.Some? && s.value != ""
  }

  /** `remove(image)`: rembg's cut-out, an RGBA image of the input's size, or its exception. */
  function Cutout(tk: Toolkit, img: Image): (r: Result<Image, Error>)
    ensures r.Success? <==> tk.remove(img).Success?
    ensures r.Success? ==> r.value.mode == RGBA && r.value.width == img.width && r.value.height == img.height
    ensures r.Success? ==> r.value.pixels == tk.remove(img).value
    ensures r.Failure? ==> r.error == ProviderError(tk.remove(img).error)
  {
    match tk.remove(img)
    case Failure(f) => Failure(ProviderError(f))
    case Success(p) => Success(Image(img.width, img.height, RGBA, p))
  }

  /** Edge refinement: the alpha channel is blurred only for a positive radius. */
  function RefineEdges(tk: Toolkit, fg: Image, radius: int): (r: Image)
    requires fg.mode == RGBA
    ensures r.mode == RGBA && r.width == fg.width && r.height == fg.height
    ensures radius <= 0 ==> r == fg
    ensures radius > 0 ==> r == PutAlpha(tk, fg, Blur(tk, Alpha(tk, fg), radius))
  {
    if radius > 0 then PutAlpha(tk, fg, Blur(tk, Alpha(tk, fg), radius)) else fg
  }

  /**
   * Background colour replacement: a truthy colour is validated and the
   * foreground is pasted through its own alpha onto a canvas of that colour
   * and of the foreground's size; otherwise the foreground is returned as is.
   */
  function ReplaceBackground(tk: Toolkit, fg: Image, bgColor: Option<string>): (r: Result<Image, Error>)
    requires fg.mode == RGBA
    ensures !Truthy(bgColor) ==> r == Success(fg)
    ensures Truthy(bgColor) ==>
              match ValidateHexColor(bgColor)
              case Failure(e) => r == Failure(e)
              case Success(c) =>
                c.Some? && r == Success(Paste(tk, NewCanvas(tk, fg.width, fg.height, c.value), fg, Alpha(tk, fg)))
    ensures r.Success? ==> r.value.width == fg.width && r.value.height == fg.height
    ensures r.Success? ==> r.value.mode == (if Truthy(bgColor) then RGB else RGBA)
  {
    if Truthy(bgColor) then
      match ValidateHexColor(bgColor)
      case Failure(e) => Failure(e)
      // the inner `if bg_color:`; a non-empty string never validates to no colour
      case Success(None) => Success(fg)
      case Success(Some(c)) =>
        Success(Paste(tk, NewCanvas(tk, fg.width, fg.height, c), fg, Alpha(tk, fg)))
    else Success(fg)
  }

  /** The image `_process_background_removal_cached` works on: its bytes decoded, as RGBA. */
  function RemovalInput(tk: Toolkit, key: RemovalKey): (img: Image)
    ensures img.mode == RGBA
    ensures img.width == tk.decode(key.imageBytes).width && img.height == tk.decode(key.imageBytes).height
  {
    ToRgba(tk, tk.decode(key.imageBytes))
  }

  /**
   * The body of `_process_background_removal_cached`: remove, then refine the
   * edges, then replace the colour. The remover runs first, so its exception
   * wins over an invalid colour.
   */
  function RemovalPipeline(tk: Toolkit, key: RemovalKey): (r: Result<Image, Error>)
    ensures Cutout(tk, RemovalInput(tk, key)).Failure? ==> r == Failure(Cutout(tk, RemovalInput(tk, key)).error)
    ensures Cutout(tk, RemovalInput(tk, key)).Success? ==>
              r == ReplaceBackground(tk, RefineEdges(tk, Cutout(tk, RemovalInput(tk, key)).value, key.edgeBlurRadius), key.bgColor)
    ensures r.Success? ==> r.value.width == RemovalInput(tk, key).width && r.value.height == RemovalInput(tk, key).height
    ensures r.Success? ==> r.value.mode == (if Truthy(key.bgColor) then RGB else RGBA)
    ensures r.Failure? && Cutout(tk, RemovalInput(tk, key)).Success? ==>
              Truthy(key.bgColor) && r == Failure(ValidateHexColor(key.bgColor).error)
    ensures !Truthy(key.bgColor) && key.edgeBlurRadius <= 0 ==> r == Cutout(tk, RemovalInput(tk, key))
  {
    match Cutout(tk, RemovalInput(tk, key))
    case Failure(e) => Failure(e)
    case Success(fg) => ReplaceBackground(tk, RefineEdges(tk, fg, key.edgeBlurRadius), key.bgColor)
  }

  /** `remove_background`'s key derivation. */
  function RemovalKeyFor(tk: Toolkit, image: Image, bgColor: Option<string>, edgeBlurRadius: int): (k: RemovalKey)
    ensures k.imageBytes == tk.encode(image) && k.bgColor == bgColor && k.edgeBlurRadius == edgeBlurRadius
    ensures LosslessCodec(tk) ==> RemovalInput(tk, k) == ToRgba(tk, image)
  {
    RemovalKey(tk.encode(image), bgColor, edgeBlurRadius)
  }

  /** `swap_background`'s defaulting: the image's own size stands in only for an absent argument. */
  function SwapKeyFor(tk: Toolkit, image: Image, prompt: string, width: Option<int>, height: Option<int>): (k: SwapKey)
    ensures k.imageBytes == tk.encode(image) && k.prompt == prompt
    ensures k.width == (if width.None? then image.width else width.value)
    ensures k.height == (if height.None? then image.height else height.value)
  {
    SwapKey(tk.encode(image), prompt, width.GetOr(image.width), height.GetOr(image.height))
  }

  /**
   * The body of `_process_background_swap_cached` once the pipe is known:
   * remove, generate at the requested size, resize to the subject, paste the
   * subject through its own alpha at (0, 0). `noise` is the latents the pipe
   * draws on this call.
   */
  function SwapPipeline(tk: Toolkit, pipe: Handle, key: SwapKey, noise: Latents): (r: Result<Image, Error>)
    ensures Cutout(tk, tk.decode(key.imageBytes)).Failure? ==> r == Failure(Cutout(tk, tk.decode(key.imageBytes)).error)
    ensures r.Success? ==>
              && tk.generate(pipe, key.prompt, key.width, key.height, noise).Success?
              && r.value.width == tk.decode(key.imageBytes).width
              && r.value.height == tk.decode(key.imageBytes).height
              && r.value.mode == tk.generate(pipe, key.prompt, key.width, key.height, noise).value.mode
    ensures Cutout(tk, tk.decode(key.imageBytes)).Success? && tk.generate(pipe, key.prompt, key.width, key.height, noise).Failure? ==>
              r == Failure(ProviderError(tk.generate(pipe, key.prompt, key.width, key.height, noise).error))
    ensures (&& Cutout(tk, tk.decode(key.imageBytes)).Success?
             && tk.generate(pipe, key.prompt, key.width, key.height, noise).Success?
             && tk.decode(key.imageBytes).width > 0 && tk.decode(key.imageBytes).height > 0) ==> r.Success?
    ensures r.Success? ==>
              var subject := Cutout(tk, tk.decode(key.imageBytes)).value;
              var bg := Resize(tk, tk.generate(pipe, key.prompt, key.width, key.height, noise).value, subject.width, subject.height);
              bg.Success? && r.value == Paste(tk, bg.value, subject, Alpha(tk, subject))
  {
    match Cutout(tk, tk.decode(key.imageBytes))
    case Failure(e) => Failure(e)
    case Success(subject) =>
      match tk.generate(pipe, key.prompt, key.width, key.height, noise)
      case Failure(f) => Failure(ProviderError(f))
      case Success(generated) =>
        match Resize(tk, generated, subject.width, subject.height)
        case Failure(e) => Failure(e)
        case Success(bg) => Success(Paste(tk, bg, subject, Alpha(tk, subject)))
  }

  /** Whether a swap that got past the pipe check calls the generator: only after a successful cut-out. */
  predicate SwapGenerates(tk: Toolkit, key: SwapKey) {
    Cutout(tk, tk.decode(key.imageBytes)).Success?
  }

  /**
   * With a lossless codec, a removal result has exactly the input image's
   * size, whether or not it was recoloured.
   */
  lemma RemovalKeepsImageSize(tk: Toolkit, image: Image, bgColor: Option<string>, edgeBlurRadius: int)
    requires LosslessCodec(tk)
    ensures var r := RemovalPipeline(tk, RemovalKeyFor(tk, image, bgColor, edgeBlurRadius));
            r.Success? ==> r.value.width == image.width && r.value.height == image.height
  {
    assert tk.decode(tk.encode(image)) == image;
  }

  /**
   * With a lossless codec, the swapped image always has the input image's
   * size, whatever generation size was requested.
   */
  lemma SwapCanvasIsSubjectSize(tk: Toolkit, pipe: Handle, image: Image, prompt: string, width: Option<int>, height: Option<int>,
                                 noise: Latents)
    requires LosslessCodec(tk)
    ensures var r := SwapPipeline(tk, pipe, SwapKeyFor(tk, image, prompt, width, height), noise);
            r.Success? ==> r.value.width == image.width && r.value.height == image.height
  {
    assert tk.decode(tk.encode(image)) == image;
  }

  /**
   * Keys are exact: a blur of 0 or 1, no colour or "#00FF00", and even no
   * colour or "" are separate entries, although the last two compute the same
   * transparent result.
   */
  lemma RemovalKeySensitivity(tk: Toolkit, image: Image)
    ensures RemovalKeyFor(tk, image, None, 0) != RemovalKeyFor(tk, image, None, 1)
    ensures RemovalKeyFor(tk, image, None, 0) != RemovalKeyFor(tk, image, Some("#00FF00"), 0)
    ensures RemovalKeyFor(tk, image, None, 0) != RemovalKeyFor(tk, image, Some(""), 0)
    ensures RemovalPipeline(tk, RemovalKeyFor(tk, image, None, 0)) == RemovalPipeline(tk, RemovalKeyFor(tk, image, Some(""), 0))
  {
  }

  class BackgroundService {
    const tk: Toolkit
    const models: ModelManager
    const removalCache: LruCache<RemovalKey, Image>
    const swapCache: LruCache<SwapKey, Image>
    /** How often the remover and the generator have been invoked. */
    ghost var removeCalls: nat
    ghost var generateCalls: nat
    /** For each stored swap result, the latents drawn by the call that computed it. */
    ghost var swapNoise: map<SwapKey, Latents>

    /**
     * Both tables are well formed at their fixed capacities, and every stored
     * result is what the pipeline computes for its key. A swap result is what
     * the pipe the model manager holds computes with the latents of the call
     * that stored it; recomputing the key may draw other latents.
     */
    ghost predicate Valid()
      reads this, removalCache, swapCache, models
    {
      && removalCache.Valid() && removalCache.capacity == RemovalCapacity
      && swapCache.Valid() && swapCache.capacity == SwapCapacity
      && (removalCache as object) != (swapCache as object)
      && (forall k :: k in removalCache.entries ==> RemovalPipeline(tk, k) == Success(removalCache.entries[k]))
      && (forall k :: k in swapCache.entries ==>
            && k in swapNoise && models.sdPipe.Some?
            && SwapPipeline(tk, models.sdPipe.value, k, swapNoise[k]) == Success(swapCache.entries[k]))
    }

    constructor (tk: Toolkit, models: ModelManager)
      ensures Valid() && fresh(removalCache) && fresh(swapCache)
      ensures this.tk == tk && this.models == models
      ensures removalCache.entries == map[] && swapCache.entries == map[]
      ensures removeCalls == 0 && generateCalls == 0 && swapNoise == map[]
    {
      this.tk := tk;
      this.models := models;
      removalCache := new LruCache<RemovalKey, Image>(RemovalCapacity);
      swapCache := new LruCache<SwapKey, Image>(SwapCapacity);
      removeCalls, generateCalls := 0, 0;
      swapNoise := map[];
    }

    /**
     * `remove_background`: the result is always the pipeline's for the key; a
     * hit calls nothing and refreshes the key; a miss runs the pipeline once
     * and stores only a success.
     */
    method RemoveBackground(image: Image, bgColor: Option<string>, edgeBlurRadius: int) returns (r: Result<Image, Error>)
      requires Valid()
      modifies this, removalCache
      ensures Valid()
      ensures r == RemovalPipeline(tk, RemovalKeyFor(tk, image, bgColor, edgeBlurRadius))
      ensures var key := RemovalKeyFor(tk, image, bgColor, edgeBlurRadius);
              if key in old(removalCache.entries) then
                && r == Success(old(removalCache.entries[key]))
                && removeCalls == old(removeCalls)
                && removalCache.State() == Refresh(old(removalCache.State()), key)
              else
                && removeCalls == old(removeCalls) + 1
                && removalCache.State() ==
                     if r.Success? then Admit(old(removalCache.State()), RemovalCapacity, key, r.value)
                     else old(removalCache.State())
      ensures generateCalls == old(generateCalls) && swapNoise == old(swapNoise)
    {
      var key := RemovalKeyFor(tk, image, bgColor, edgeBlurRadius);
      var hit := removalCache.Get(key);
      if hit.Some? {
        r := Success(hit.value);
      } else {
        r := RemovalPipeline(tk, key);
        removeCalls := removeCalls + 1;
        if r.Success? {
          removalCache.Put(key, r.value);
        }
      }
    }

    /**
     * `swap_background`: a hit calls nothing, not even the pipe loader. A miss
     * asks the model manager for the pipe and fails before the remover runs if
     * there is none; otherwise it runs the pipeline once, with the latents
     * `noise` the pipe draws on this call, and stores only a success.
     */
    method SwapBackground(image: Image, prompt: string, width: Option<int>, height: Option<int>,
                          sdBuild: Result<Handle, Fault>, noise: Latents) returns (r: Result<Image, Error>)
      requires Valid()
      modifies this, swapCache, models
      ensures Valid()
      ensures models.yolo == old(models.yolo) && models.smartCrop == old(models.smartCrop)
      ensures var key := SwapKeyFor(tk, image, prompt, width, height);
              r.Success? ==> models.sdPipe.Some? && key in swapNoise && r == SwapPipeline(tk, models.sdPipe.value, key, swapNoise[key])
      ensures var key := SwapKeyFor(tk, image, prompt, width, height);
              if key in old(swapCache.entries) then
                && r == Success(old(swapCache.entries[key]))
                && removeCalls == old(removeCalls) && generateCalls == old(generateCalls)
                && models.sdPipe == old(models.sdPipe) && swapNoise == old(swapNoise)
                && swapCache.State() == Refresh(old(swapCache.State()), key)
              else
                && (old(models.sdPipe).Some? ==> models.sdPipe == old(models.sdPipe))
                && (old(models.sdPipe).None? ==> models.sdPipe == (if sdBuild.Success? then Some(sdBuild.value) else None))
                && (models.sdPipe.None? ==>
                      && r == Failure(RuntimeError(SdUnavailable))
                      && removeCalls == old(removeCalls) && generateCalls == old(generateCalls)
                      && swapNoise == old(swapNoise) && swapCache.State() == old(swapCache.State()))
                && (models.sdPipe.Some? ==>
                      && r == SwapPipeline(tk, models.sdPipe.value, key, noise)
                      && removeCalls == old(removeCalls) + 1
                      && generateCalls == old(generateCalls) + (if SwapGenerates(tk, key) then 1 else 0)
                      && swapCache.State() ==
                           (if r.Success? then Admit(old(swapCache.State()), SwapCapacity, key, r.value)
                            else old(swapCache.State()))
                      && swapNoise == (if r.Success? then old(swapNoise)[key := noise] else old(swapNoise)))
    {
      var key := SwapKeyFor(tk, image, prompt, width, height);
      var hit := swapCache.Get(key);
      if hit.Some? {
        r := Success(hit.value);
        return;
      }
      var pipe := models.LoadStableDiffusion(sdBuild);
      if pipe.None? {
        return Failure(RuntimeError(SdUnavailable));
      }
      r := SwapPipeline(tk, pipe.value, key, noise);
      removeCalls := removeCalls + 1;
      if SwapGenerates(tk, key) {
        generateCalls := generateCalls + 1;
      }
      if r.Success? {
        swapCache.Put(key, r.value);
        swapNoise := swapNoise[key := noise];
      }
    }
  }

  /**
   * Two identical removal requests in a row give the same answer, and when
   * the first succeeded the second is served from the table without calling
   * the remover again.
   */
  method RepeatedRemoval(svc: BackgroundService, image: Image, bgColor: Option<string>, edgeBlurRadius: int)
    returns (first: Result<Image, Error>, second: Result<Image, Error>)
    requires svc.Valid()
    modifies svc, svc.removalCache
    ensures svc.Valid()
    ensures first == second
    ensures first.Success? ==>
              svc.removeCalls == old(svc.removeCalls) +
                (if RemovalKeyFor(svc.tk, image, bgColor, edgeBlurRadius) in old(svc.removalCache.entries) then 0 else 1)
  {
    first := svc.RemoveBackground(image, bgColor, edgeBlurRadius);
    ghost var calls := svc.removeCalls;
    second := svc.RemoveBackground(image, bgColor, edgeBlurRadius);
    assert first.Success? ==> svc.removeCalls == calls;
  }
}
