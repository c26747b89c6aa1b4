/**
 * `ModelManager`: three lazily loaded model handles. Each loader builds its
 * model only while the handle is empty; what building would produce right now
 * (a handle, or the exception the library raises) is passed in as `build`.
 */
module AiModels {
  import opened Wrappers
  import opened Imaging

  datatype ModelStatus = ModelStatus(yolo: bool, stableDiffusion: bool, smartCrop: bool, device: string)

  const YoloKey := "yolo"
  const StableDiffusionKey := "stable_diffusion"
  const SmartCropKey := "smart_crop"

  class ModelManager {
    const device: string
    var yolo: Option<Handle>
    var sdPipe: Option<Handle>
    var smartCrop: Option<Handle>

    constructor (device: string)
      ensures this.device == device
      ensures yolo == None && sdPipe == None && smartCrop == None
    {
      this.device := device;
      yolo, sdPipe, smartCrop := None, None, None;
    }

    /** `load_yolo_model`: builds once; a failed build is re-raised and leaves the handle empty. */
    method LoadYolo(build: Result<Handle, Fault>) returns (r: Result<Handle, Fault>)
      modifies this
      ensures sdPipe == old(sdPipe) && smartCrop == old(smartCrop)
      ensures old(yolo).Some? ==> yolo == old(yolo) && r == Success(old(yolo).value)
      ensures old(yolo).None? ==> r == build && yolo == (if build.Success? then Some(build.value) else None)
      ensures r.Success? <==> yolo.Some?
      ensures r.Success? ==> yolo == Some(r.value)
    {
      if yolo.None? {
        match build
        case Failure(f) =>
          return Failure(f);
        case Success(h) =>
          yolo := Some(h);
      }
      r := Success(yolo.value);
    }

    /**
     * `load_stable_diffusion_model`: builds once; a failed build is swallowed,
     * so the handle stays empty, `None` is returned, and the next call tries again.
     */
    method LoadStableDiffusion(build: Result<Handle, Fault>) returns (r: Option<Handle>)
      modifies this
      ensures yolo == old(yolo) && smartCrop == old(smartCrop)
      ensures old(sdPipe).Some? ==> sdPipe == old(sdPipe)
      ensures old(sdPipe).None? ==> sdPipe == (if build.Success? then Some(build.value) else None)
      ensures r == sdPipe
    {
      if sdPipe.None? {
        sdPipe := if build.Success? then Some(build.value) else None;
      }
      r := sdPipe;
    }

    /** `load_smart_crop`: builds once, with no handler, so a failed build propagates. */
    method LoadSmartCrop(build: Result<Handle, Fault>) returns (r: Result<Handle, Fault>)
      modifies this
      ensures yolo == old(yolo) && sdPipe == old(sdPipe)
      ensures old(smartCrop).Some? ==> smartCrop == old(smartCrop) && r == Success(old(smartCrop).value)
      ensures old(smartCrop).None? ==> r == build && smartCrop == (if build.Success? then Some(build.value) else None)
      ensures r.Success? <==> smartCrop.Some?
      ensures r.Success? ==> smartCrop == Some(r.value)
    {
      if smartCrop.None? {
        match build
        case Failure(f) =>
          return Failure(f);
        case Success(h) =>
          smartCrop := Some(h);
      }
      r := Success(smartCrop.value);
    }

    /**
     * `load_all_models`: tries every loader, records `None` for each one that
     * failed, and never raises.
     */
    method LoadAll(yoloBuild: Result<Handle, Fault>, sdBuild: Result<Handle, Fault>,
                   smartCropBuild: Result<Handle, Fault>)
      returns (models: map<string, Option<Handle>>)
      modifies this
      ensures models.Keys == {YoloKey, StableDiffusionKey, SmartCropKey}
      ensures models[YoloKey] == yolo && models[StableDiffusionKey] == sdPipe && models[SmartCropKey] == smartCrop
      ensures Status() == ModelStatus(models[YoloKey].Some?, models[StableDiffusionKey].Some?,
                                      models[SmartCropKey].Some?, device)
      ensures old(yolo).Some? ==> yolo == old(yolo)
      ensures old(sdPipe).Some? ==> sdPipe == old(sdPipe)
      ensures old(smartCrop).Some? ==> smartCrop == old(smartCrop)
      ensures old(yolo).None? ==> yolo == (if yoloBuild.Success? then Some(yoloBuild.value) else None)
      ensures old(sdPipe).None? ==> sdPipe == (if sdBuild.Success? then Some(sdBuild.value) else None)
      ensures old(smartCrop).None? ==>
                smartCrop == (if smartCropBuild.Success? then Some(smartCropBuild.value) else None)
    {
      models := map[];
      var y := LoadYolo(yoloBuild);
      models := models[YoloKey := if y.Success? then Some(y.value) else None];
      var sd := LoadStableDiffusion(sdBuild);
      models := models[StableDiffusionKey := sd];
      var sc := LoadSmartCrop(smartCropBuild);
      models := models[SmartCropKey := if sc.Success? then Some(sc.value) else None];
    }

    /** `get_model_status`: a model is reported loaded exactly when its handle is set. */
    function Status(): (s: ModelStatus)
      reads this
      ensures s.yolo <==> yolo != None
      ensures s.stableDiffusion <==> sdPipe != None
      ensures s.smartCrop <==> smartCrop != None
      ensures s.device == device
    {
      ModelStatus(yolo.Some?, sdPipe.Some?, smartCrop.Some?, device)
    }
  }
}
