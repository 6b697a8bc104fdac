/** `process_4d_stem_data`: opens a 4D-STEM dataset and, by processing
    type, reports a virtual-detector or strain-mapping result with its
    parameters filled from the caller's dictionary or the defaults. */
module StemProcessing {
  import opened Envelopes

  /** What opening the dataset at the caller's path did: it opened, or it
      raised an exception whose `str` is `message`. */
  datatype OpenOutcome = Opened | OpenRaised(message: string)

  const DefaultProcessingType := "virtual_detector"

  /** `process_4d_stem_data`. The dataset is opened before the processing
      type is looked at, so a failed open wins over an unknown type. An
      omitted `parameters` is the empty dictionary. */
  function Process4dStemData(dataset: OpenOutcome, processingType: Option<string>,
                             parameters: Option<map<string, Value>>): (e: Envelope)
    ensures dataset.OpenRaised? ==> e == Failure(dataset.message)
    ensures var kind := processingType.GetOr(DefaultProcessingType);
      dataset.Opened? ==> (Succeeded(e) <==> kind == "virtual_detector" || kind == "strain_mapping")
    ensures var kind := processingType.GetOr(DefaultProcessingType);
      dataset.Opened? && kind != "virtual_detector" && kind != "strain_mapping" ==>
        e == Failure("Unknown processing type: " + kind)
    ensures Succeeded(e) ==>
      && Has(e, "processing_type", Str(processingType.GetOr(DefaultProcessingType)))
      && "parameters" in e && e["parameters"].Dict?
    ensures var kind := processingType.GetOr(DefaultProcessingType);
      var given := parameters.GetOr(map[]);
      dataset.Opened? && kind == "virtual_detector" ==>
        var echoed := e["parameters"].fields;
        && echoed.Keys == {"inner_angle", "outer_angle"}
        && echoed["inner_angle"] == (if "inner_angle" in given then given["inner_angle"] else Int(0))
        && echoed["outer_angle"] == (if "outer_angle" in given then given["outer_angle"] else Int(30))
    ensures var kind := processingType.GetOr(DefaultProcessingType);
      var given := parameters.GetOr(map[]);
      dataset.Opened? && kind == "strain_mapping" ==>
        var echoed := e["parameters"].fields;
        && echoed.Keys == {"reference_point"}
        && echoed["reference_point"]
           == (if "reference_point" in given then given["reference_point"] else List([Int(32), Int(32)]))
  {
    var params := parameters.GetOr(map[]);
    var kind := processingType.GetOr(DefaultProcessingType);
    match dataset
    case OpenRaised(message) => Failure(message)
    case Opened =>
      if kind == "virtual_detector" then
        map[
          "success" := Bool(true),
          "processing_type" := Str(kind),
          "parameters" := Dict(map[
            "inner_angle" := Get(params, "inner_angle", Int(0)),
            "outer_angle" := Get(params, "outer_angle", Int(30))])]
      else if kind == "strain_mapping" then
        map[
          "success" := Bool(true),
          "processing_type" := Str(kind),
          "parameters" := Dict(map[
            "reference_point" := Get(params, "reference_point", List([Int(32), Int(32)]))])]
      else
        Failure("Unknown processing type: " + kind)
  }
}
