# AutoRender AI core, modelled in Dafny

This project models the sequential core of the AutoRender AI image service:

- the background pipeline of `BackgroundService`, with its two `functools.lru_cache`
  memo tables (removal, 32 entries; swap, 16 entries);
- the post-processing of `DetectionService` (first-box object crop, padded face crop,
  smart crop with a forced resize, the detection listing);
- the hex colour parser and the size condition of `compress_image` in `ImageUtils`;
- the lazy, set-once model handles of `ModelManager`.

Images are abstract: a width, a height, a mode (RGB or RGBA) and a token standing for the
pixel data. The AI providers (rembg, Stable Diffusion, YOLO, the Haar cascade, smartcrop),
the PNG codec and Pillow's pixel maths are the fields of a `Toolkit` record: total functions
the model knows nothing about. Each provider's known size or mode effect is built into the
model instead of assumed. For example, rembg's pixels become an RGBA image of its input's
size, and a Pillow crop, resize or paste produces the size and mode that Pillow documents.
Where Pillow raises, the model raises too: a crop box whose right edge is left of its left
edge, or a resize to a non-positive size other than the image's own.

Exceptions are values of `Result`: `ValueError` and `RuntimeError` carry the source's own
messages, and `ProviderError` carries whatever a provider or a model loader raised. A
loader's outcome (a handle, or the exception its library raises) is a `build` parameter of
the method that may attempt it.

Module layout, one file per source file plus shared modules:

| file | module | models |
|---|---|---|
| wrappers.dfy | Wrappers | Option and Result |
| imaging.dfy | Imaging | image values, the toolkit, Pillow's size and mode effects |
| lru.dfy | Lru | `lru_cache`'s bounded table: the spec functions and the class `LruCache` |
| image_utils.dfy | ImageUtils | `autorender_ai/services/image_utils.py` |
| ai_models.dfy | AiModels | `autorender_ai/models/ai_models.py` |
| background_service.dfy | Background | `autorender_ai/services/background_service.py` |
| detection_service.dfy | Detection | `autorender_ai/services/detection_service.py` |

The memo tables follow CPython's bounded `lru_cache`. A hit returns the stored value and
makes its key the most recent. A miss runs the body. If the body raises, nothing is stored.
Otherwise the result is stored as the most recent entry, and if the table already held
`maxsize` entries, the least recent one is dropped first. `BackgroundService.Valid()` also
states that every stored removal entry equals what the removal pipeline computes for its key,
so a removal hit is indistinguishable from a recomputation. A swap is different: the source
calls the diffusion pipe without a seeded generator, so each call draws fresh random latents.
The model passes those latents to each swap call as a parameter. A stored swap entry equals
the pipeline's result with the latents of the call that stored it. Recomputing the same key
after an eviction or a failure may give a different image. The table keeps the first sample.
Ghost counters record how often the remover and the generator ran.

## Behaviour of the code worth knowing

- The background colour is validated after `remove` has run (line 47 comes after line 37),
  so the remover always runs first. `Background.RemovalPipeline` states that a remover failure wins
  over an invalid colour.
- The face box is not padded symmetrically. The left and top edges are clamped first, and
  the width and height stay `w + 2 * padding`, so the padding that is cut off on the left
  (top) goes to the right (bottom). `Detection.FaceBoxLeftClampExample` shows one case.
- Errors are `ValueError` and `RuntimeError` told apart by their messages. A missing prompt
  is rejected by the routes, not by the core.
- While Stable Diffusion is unavailable, each swap miss tries to load it again, because the
  loader only builds while the handle is `None`.

## Model

| member | source | states |
|---|---|---|
| `ImageUtils.StripHashes` | autorender_ai/services/image_utils.py:121 | removes every leading '#' and nothing else: the result is a suffix, all removed characters are '#', and it does not start with '#' |
| `ImageUtils.ValidateHexColor` | autorender_ai/services/image_utils.py:105-128 | `None`/`""` give no colour (both directions); after stripping, a length other than 6 raises the format error, six characters with a non-hex one raise the hex error, and success happens exactly for six hex digits; the channels are in 0..255 |
| `ImageUtils.PairValue` | autorender_ai/services/image_utils.py:126 | two hex digits read in base 16 give a channel value in 0..255 |
| `ImageUtils.FormatThenValidate` | autorender_ai/services/image_utils.py:118-126 | formatting any colour with channels in 0..255 as six hex digits, behind any number of '#', and parsing it gives the colour back |
| `ImageUtils.ValidateThenFormat` | autorender_ai/services/image_utils.py:121-126 | the converse: an accepted string, stripped of its '#'s and upper-cased, is exactly the formatted colour |
| `ImageUtils.CompressImage` | autorender_ai/services/image_utils.py:60-73 | an image within `max_size` in both dimensions is returned untouched; a larger one is thumbnailed |
| `ImageUtils.CompressedFits` | autorender_ai/services/image_utils.py:60-73 | when the thumbnail fits its bound, the compressed image always fits `max_size` by `max_size` and keeps its mode |
| `Imaging.ToRgba` | autorender_ai/services/background_service.py:34 | `convert("RGBA")` gives an RGBA image of the same size and leaves an RGBA image unchanged |
| `Imaging.Alpha` | autorender_ai/services/background_service.py:41 | `getchannel('A')` of an RGBA image is a mask of the image's size (also the masks at lines 50 and 105) |
| `Imaging.Blur` | autorender_ai/services/background_service.py:42 | the Gaussian blur keeps the mask's size |
| `Imaging.PutAlpha` | autorender_ai/services/background_service.py:43 | `putalpha` takes a mask of the image's size, keeps the size and makes the image RGBA, whatever its mode was |
| `Imaging.NewCanvas` | autorender_ai/services/background_service.py:49 | `Image.new("RGB", size, colour)` has exactly the requested size and mode RGB |
| `Imaging.Paste` | autorender_ai/services/background_service.py:50 | pasting through a mask of the pasted image's size keeps the base's size and mode |
| `Imaging.Crop` | autorender_ai/services/detection_service.py:55 | Pillow's crop: succeeds exactly for a non-reversed box, giving an image of the box's size and the input's mode; a reversed box raises `ValueError` |
| `Imaging.Resize` | autorender_ai/services/detection_service.py:129 | Pillow's resize: the image's own size returns it unchanged, any other success has exactly the requested size and the input's mode, and a non-positive size raises |
| `Lru.Lookup` | autorender_ai/services/background_service.py:21 | a lookup returns a value exactly when an entry is stored under exactly that key, and returns that entry |
| `Lru.Refresh` | autorender_ai/services/background_service.py:21 | a hit keeps every stored entry, makes its key the most recent and keeps exactly the same keys in the order |
| `Lru.Admit` | autorender_ai/services/background_service.py:21 | after a completed miss the key is stored; a key already present leaves the table alone; a new key gets the computed value and becomes the most recent; no other key gains or changes an entry |
| `Lru.WithoutKeepsOrder` | autorender_ai/services/background_service.py:21 | taking a key out of the recency order at its position keeps the keys before and after it in order |
| `Lru.SizeBound` | autorender_ai/services/background_service.py:21 | a well-formed table holds no more entries than its capacity, and its recency order lists each of them once |
| `Lru.RefreshKeepsInv` | autorender_ai/services/background_service.py:21 | a hit keeps the table well formed and keeps its entries; the key moves from its position to the end and every other key keeps its relative recency order |
| `Lru.AdmitKeepsInv` | autorender_ai/services/background_service.py:21 | storing a result keeps the table well formed and within capacity, and the key is then present |
| `Lru.AdmitEvictsLeastRecent` | autorender_ai/services/background_service.py:21 | a new key arriving at a full table drops exactly the least recently used key, keeps every other entry unchanged, keeps the surviving keys in their recency order and becomes the most recent |
| `Lru.AdmitBelowCapacityKeepsAll` | autorender_ai/services/background_service.py:74 | below capacity, storing a new key drops nothing, adds its entry and appends it to the recency order behind every existing key |
| `Lru.RefreshedKeySurvivesNextAdmit` | autorender_ai/services/background_service.py:74 | with capacity two or more, a key just hit is not evicted by the next insertion |
| `Lru.LruCache.constructor` | autorender_ai/services/background_service.py:21 | a new cache of a positive capacity is empty and well formed |
| `Lru.LruCache.Get` | autorender_ai/services/background_service.py:21 | the cache probe: returns the lookup result and refreshes a hit key, keeping the table well formed |
| `Lru.LruCache.Put` | autorender_ai/services/background_service.py:21 | stores a computed result as the table's admission rule says, keeping it well formed |
| `AiModels.ModelManager.constructor` | autorender_ai/models/ai_models.py:16-23 | all three handles start empty |
| `AiModels.ModelManager.LoadYolo` | autorender_ai/models/ai_models.py:27-37 | builds only while empty; a set handle is returned without using the build; a failed build is re-raised and leaves the handle empty; other handles unchanged |
| `AiModels.ModelManager.LoadStableDiffusion` | autorender_ai/models/ai_models.py:39-53 | builds only while empty; a failed build is swallowed, leaving the handle empty and returning `None`; the result is always the handle |
| `AiModels.ModelManager.LoadSmartCrop` | autorender_ai/models/ai_models.py:55-61 | builds only while empty; a failed build propagates and leaves the handle empty |
| `AiModels.ModelManager.LoadAll` | autorender_ai/models/ai_models.py:63-85 | never raises; each empty handle is built from its build when that succeeds and stays empty when it fails, a set handle is kept; returns a map with exactly the keys yolo, stable_diffusion and smart_crop, each the handle now held or `None`, agreeing with the status view |
| `AiModels.ModelManager.Status` | autorender_ai/models/ai_models.py:87-94 | each model is reported loaded exactly when its handle is set; the device is reported as configured |
| `Background.RemovalInput` | autorender_ai/services/background_service.py:34 | the cached body works on the decoded bytes as an RGBA image of the same size |
| `Background.RemovalKeyFor` | autorender_ai/services/background_service.py:67-72 | the key holds the image's encoded bytes, the colour argument and the radius exactly as passed; with a lossless codec the cached body sees the caller's image, converted to RGBA |
| `Background.Truthy` | autorender_ai/services/background_service.py:46 | the only falsy colour arguments are `None` and the empty string |
| `Background.Cutout` | autorender_ai/services/background_service.py:37 | the remover either fails, with its exception propagated, or gives an RGBA image of its input's size holding exactly the remover's pixels |
| `Background.RefineEdges` | autorender_ai/services/background_service.py:40-43 | the alpha is blurred by the radius only when it is positive; otherwise the remover's image is kept exactly |
| `Background.ReplaceBackground` | autorender_ai/services/background_service.py:46-53 | a falsy colour returns the foreground unchanged; a truthy one is validated (its error raised) and gives an RGB image of the foreground's size, the foreground pasted through its own alpha onto a canvas of that colour |
| `Background.RemovalPipeline` | autorender_ai/services/background_service.py:22-53 | remove, then refine, then recolour; a remover failure wins over an invalid colour; a success has the decoded input's size, RGB exactly when the colour is truthy; the only other failure is the colour's `ValueError`; no colour and radius at most 0 give the remover's image itself |
| `Background.SwapKeyFor` | autorender_ai/services/background_service.py:123-133 | the image's width and height stand in only for an absent argument; the key is (bytes, prompt, width, height) |
| `Background.SwapPipeline` | autorender_ai/services/background_service.py:93-107 | a remover failure propagates; a generator failure after a successful cut-out propagates as the generator's own exception; a successful cut-out and generation on a non-empty image always give a success; a success required a successful generation, is the subject pasted through its own alpha onto the generated image resized to the subject's size, and so has the subject's size, whatever size was requested, and the generated image's mode |
| `Background.RemovalKeepsImageSize` | autorender_ai/services/background_service.py:34-53 | with a lossless codec, a removal result has the input image's size |
| `Background.SwapCanvasIsSubjectSize` | autorender_ai/services/background_service.py:99-105 | with a lossless codec, a swap result has the input image's size, for every requested width and height and whatever latents the pipe drew |
| `Background.RemovalKeySensitivity` | autorender_ai/services/background_service.py:68-72 | blur 0 and 1, no colour and "#00FF00", and no colour and "" are distinct keys, the last two although they compute the same result |
| `Background.BackgroundService.constructor` | autorender_ai/services/background_service.py:18-19 | a new service has two empty, well-formed tables of capacities 32 and 16, has called no provider and records no latents |
| `Background.BackgroundService.RemoveBackground` | autorender_ai/services/background_service.py:55-72 | the answer is always the pipeline's for (bytes, colour, radius); a hit returns the stored entry, calls no provider and refreshes the key; a miss calls the remover once and stores the result only on success, evicting as the table's rule says |
| `Background.BackgroundService.SwapBackground` | autorender_ai/services/background_service.py:109-133 | a hit returns the stored entry without loading or calling anything; a miss with no pipe fails with the `RuntimeError` before the remover runs and stores nothing; otherwise the answer is the pipeline's with the loaded pipe and this call's latents, the remover runs once, and only a success is stored, together with those latents; any success is the pipeline's result for its key with the latents recorded for it |
| `Background.RepeatedRemoval` | autorender_ai/services/background_service.py:21-22 | two identical removal calls give the same answer, and after a success the remover ran exactly once if the key was new and not at all if it was cached |
| `Detection.PixelBox` | autorender_ai/services/detection_service.py:52 | each corner is the float truncated to an integer, which for a non-negative coordinate is its floor |
| `Detection.Trunc` | autorender_ai/services/detection_service.py:52 | `int()` of a float truncates toward zero |
| `Detection.CropToFirst` | autorender_ai/services/detection_service.py:47-55 | no boxes raise "No matching object found." (both directions); otherwise the crop is to box 0 |
| `Detection.CropIgnoresLaterBoxes` | autorender_ai/services/detection_service.py:51-55 | two box lists with the same first box give the same crop, so there is no re-sorting |
| `Detection.DetectAndCrop` | autorender_ai/services/detection_service.py:19-57 | the YOLO handle is loaded from the build only while empty; a load failure propagates as the build's exception before any prediction; otherwise the result is the first-box crop of the prediction for the prompt |
| `Detection.FaceBox` | autorender_ai/services/detection_service.py:89-93 | left and top are at least 0, right and bottom at most the image size; with `x >= padding` the box is (x-p, min(W, x+w+p)), otherwise (0, min(W, w+2p)); likewise vertically |
| `Detection.FaceBoxInsideImage` | autorender_ai/services/detection_service.py:89-96 | a face inside the image with non-negative padding gives a box that contains the face and lies inside the image |
| `Detection.FaceBoxLeftClampExample` | autorender_ai/services/detection_service.py:90-92 | a face at x = 10, 20 wide, padding 50, gets the box 0..120: more padding on the right than on the left |
| `Detection.FaceCrop` | autorender_ai/services/detection_service.py:83-96 | no faces raise "No face detected in the image." (both directions); otherwise the crop is to the padded first face, never larger than the image |
| `Detection.FaceCropSucceedsInside` | autorender_ai/services/detection_service.py:83-96 | a first face inside the image with non-negative padding always crops successfully |
| `Detection.SmartCropBox` | autorender_ai/services/detection_service.py:120-125 | the crop box starts at the suggestion's (x, y) and spans exactly its width and height |
| `Detection.SmartCropTo` | autorender_ai/services/detection_service.py:120-131 | the image is cropped to the suggestion's box and the crop is resized to the requested size; every success has exactly the requested width and height; a non-negative suggestion and a positive size always succeed |
| `Detection.SmartCrop` | autorender_ai/services/detection_service.py:100-131 | the smart-crop handle is loaded from the build only while empty; a load failure propagates as the build's exception; otherwise the crop-and-resize of the suggestion, of exactly the requested size |
| `Detection.EntryOf` | autorender_ai/services/detection_service.py:162-169 | one entry holds the prediction's integer box, its confidence unchanged and the prompt as its class |
| `Detection.ListDetections` | autorender_ai/services/detection_service.py:157-174 | one entry per prediction in the detector's order, each with the prompt as its class, and a count equal to the number of entries; no predictions give an empty list |
| `Detection.FirstEntryIsCropBox` | autorender_ai/services/detection_service.py:52 | the first listed box is the box the object crop uses |
| `Detection.GetDetectionInfo` | autorender_ai/services/detection_service.py:133-174 | the YOLO handle is loaded from the build only while empty; a load failure propagates as the build's exception; otherwise the listing of the predictions for the prompt, never an error |

## Left out

- The HTTP layer (the routes, their error-to-status mapping, `load_image_from_request` with its network fetch, the apps and package `__init__` files): boundary and I/O code.
- `image_to_base64`, `image_to_bytes` and `bytes_to_image`: library codecs, modelled as the toolkit's opaque `encode` and `decode`. A decoding failure cannot happen on bytes that `encode` produced, so it is not modelled.
- Pixel values: Gaussian blur, alpha paste, LANCZOS resampling, `Image.new` fills and the RGB-to-RGBA conversion return opaque tokens. Only their size and mode effects are modelled.
- Image modes other than RGB and RGBA are not modelled.
- In-place updates: `putalpha`, `paste` and `thumbnail` mutate a PIL image in place. The model produces a new value. The sharing of the one cached PIL object between callers is not modelled.
- Concurrency: the caches have no lock and no single-flight, and model loading has no guard against races. The model is sequential.
- Exceptions raised inside YOLO prediction, the Haar cascade or smartcrop are not modelled; those providers return values. Exceptions from rembg, the diffusion pipe and the model loaders are modelled.
- Detection.DetectAndCrop: the `RuntimeError("YOLO model is not available.")` branch is not modelled, because the loader returns a handle or raises, and a handle is always truthy. The same holds for `Detection.GetDetectionInfo` and for the smart-crop branch of `Detection.SmartCrop`.
- The `except` branch of `load_all_models` for Stable Diffusion cannot run, because that loader never raises. It is not modelled separately.
- Detection.FaceBox: computes over unbounded integers. OpenCV returns the face as NumPy `int32` values, so `x - padding` and `w + 2 * padding` are 32-bit arithmetic. With a `padding` near 2^30 or more (the route passes it unchecked), NumPy wraps around or raises `OverflowError`, while the model returns the clamped box. This depends on the NumPy version, so only paddings well inside the 32-bit range are modelled faithfully.
- ImageUtils.ValidateHexColor: accepts only the characters 0-9, a-f and A-F in each pair. Python's `int(..., 16)` also accepts a sign, surrounding whitespace, an underscore between digits and non-ASCII digits, so `"-f-f-f"` parses there. This is a deliberate tightening.
- ImageUtils.CompressImage: the thumbnail's aspect-preserving size is not computed. Only the promise that it fits in `max_size` by `max_size` is used, in `ImageUtils.CompressedFits`.
- `self` in the cache key: there is one service instance, so the model has one table per operation.
- Python's `lru_cache` compares keys with `==`, so `1`, `1.0` and `True` would collide as radii. The model's keys are typed, so this is not modelled.
- `config.py`: `LRU_CACHE_SIZE` and `SD_CACHE_SIZE` are never read. The capacities 32 and 16 are written at the decorators. The device is a constructor parameter of the model manager.
- The random latents of the diffusion pipe are a parameter of each swap call (`Latents`). How torch draws them is not modelled, and neither are the pixel values they lead to.
- Log output (`print`) is left out.
