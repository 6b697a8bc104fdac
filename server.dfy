/** The helper `get_current_image`, which reads the front image, and the
    instrument tools of the MCP server: acquiring an image, analysing a
    diffraction pattern, setting microscope parameters and describing a
    4D-STEM dataset.

    The vendor call `DM.GetFrontImage()` is an oracle: what it yields is
    given to each member that reads an image as an `ImageFetch`, either the
    image's dimensions or the message of the exception it raised. Optional
    tool arguments are `Option`s; `None` stands for an omitted argument,
    which the server framework fills with the declared default. */
module Server {
  import opened Envelopes

  /** What the front-image call produced: a `rows` x `cols` array, or an
      exception whose `str` is `message`. */
  datatype ImageFetch = Image(rows: nat, cols: nat) | Raised(message: string)

  const DefaultMode := "TEM"
  const DefaultExposureTime := 0.1

  /** `get_current_image`: an image becomes a success envelope reporting its
      width (column count) and height (row count); an exception becomes the
      failure envelope carrying its message. */
  function GetCurrentImage(src: ImageFetch): (e: Envelope)
    ensures Succeeded(e) <==> src.Image?
    ensures src.Image? ==> Has(e, "width", Int(src.cols))
    ensures src.Image? ==> Has(e, "height", Int(src.rows))
    ensures src.Raised? ==> e.Keys == {"success", "error"} && e["error"] == Str(src.message)
    ensures src.Raised? ==> Has(e, "success", Bool(false)) && e == Failure(src.message)
  {
    match src
    case Image(rows, cols) =>
      map["success" := Bool(true), "width" := Int(cols), "height" := Int(rows)]
    case Raised(message) =>
      Failure(message)
  }

  /** `acquire_image`: the image envelope, updated in place with the
      acquisition mode and exposure time. The tags are added whether or not
      the image was read, since the result is not checked first. */
  method AcquireImage(src: ImageFetch, mode: Option<string>, exposureTime: Option<real>)
    returns (result: Envelope)
    ensures var image := GetCurrentImage(src);
      && result.Keys == image.Keys + {"mode", "exposure_time"}
      && (forall k :: k in image ==> result[k] == image[k])
    ensures Succeeded(result) <==> src.Image?
    ensures result["mode"] == Str(mode.GetOr(DefaultMode))
    ensures result["exposure_time"] == Float(exposureTime.GetOr(DefaultExposureTime))
    ensures src.Raised? ==> result["error"] == Str(src.message)
  {
    result := GetCurrentImage(src);
    result := result["mode" := Str(mode.GetOr(DefaultMode))];
    result := result["exposure_time" := Float(exposureTime.GetOr(DefaultExposureTime))];
  }

  /** `analyze_diffraction_pattern`: a failed image read is returned as it
      is; otherwise the image envelope is embedded under "image_data" beside
      four d-spacings and four intensities of a crystalline pattern. */
  function AnalyzeDiffractionPattern(src: ImageFetch): (e: Envelope)
    ensures src.Raised? ==> e == GetCurrentImage(src)
    ensures Succeeded(e) <==> src.Image?
    ensures src.Image? ==>
      && Has(e, "image_data", Dict(GetCurrentImage(src)))
      && Has(e, "pattern_type", Str("crystalline"))
      && "d_spacings" in e && e["d_spacings"].List? && |e["d_spacings"].items| == 4
      && "intensities" in e && e["intensities"].List? && |e["intensities"].items| == 4
  {
    var image := GetCurrentImage(src);
    if !Succeeded(image) then image
    else map[
      "success" := Bool(true),
      "pattern_type" := Str("crystalline"),
      "d_spacings" := List([Float(2.1), Float(1.8), Float(1.5), Float(1.2)]),
      "intensities" := List([Int(100), Int(80), Int(60), Int(40)]),
      "image_data" := Dict(image)]
  }

  function OptionalFloat(x: Option<real>): Value {
    if x.Some? then Float(x.value) else Null
  }

  function OptionalInt(x: Option<int>): Value {
    if x.Some? then Int(x.value) else Null
  }

  /** `set_microscope_parameters`: always succeeds and echoes exactly the
      three parameters, None for an omitted one. The documented spot-size
      range 1-11 is not enforced. */
  function SetMicroscopeParameters(voltage: Option<real>, spotSize: Option<int>, cameraLength: Option<real>)
    : (e: Envelope)
    ensures Succeeded(e)
    ensures e.Keys == {"success", "parameters"} && e["parameters"].Dict?
    ensures e["parameters"].fields.Keys == {"voltage", "spot_size", "camera_length"}
    ensures e["parameters"].fields["voltage"] == (if voltage.Some? then Float(voltage.value) else Null)
    ensures e["parameters"].fields["spot_size"] == (if spotSize.Some? then Int(spotSize.value) else Null)
    ensures e["parameters"].fields["camera_length"] == (if cameraLength.Some? then Float(cameraLength.value) else Null)
  {
    map[
      "success" := Bool(true),
      "parameters" := Dict(map[
        "voltage" := OptionalFloat(voltage),
        "spot_size" := OptionalInt(spotSize),
        "camera_length" := OptionalFloat(cameraLength)])]
  }

  /** `get_4d_stem_data`: a fixed description of a 64 x 64 scan of
      256 x 256 diffraction patterns, whatever path is given. */
  function Get4dStemData(datasetPath: Option<string>): (e: Envelope)
    ensures Succeeded(e)
    ensures Has(e, "dimensions", List([Int(64), Int(64), Int(256), Int(256)]))
  {
    map[
      "success" := Bool(true),
      "dimensions" := List([Int(64), Int(64), Int(256), Int(256)]),
      "pixel_size_nm" := Float(0.1),
      "convergence_angle_mrad" := Float(1.5),
      "camera_length_mm" := Int(100),
      "summary" := Str("4D STEM dataset with 64x64 scan points and 256x256 diffraction patterns")]
  }
}
