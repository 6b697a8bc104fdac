/** `run_experiment_workflow`: checks a workflow name against a fixed
    catalog of three workflows and the caller's parameters against that
    workflow's required parameters, before the (simulated) run. */
module ExperimentWorkflows {
  import opened Envelopes

  datatype Workflow = Workflow(name: string, description: string, requiredParams: seq<string>)

  /** The catalog, in the order its dictionary literal lists the workflows. */
  const Catalog: seq<Workflow> := [
    Workflow("tomography_tilt_series", "Acquire a tomography tilt series",
             ["start_angle", "end_angle", "angle_step"]),
    Workflow("eels_spectrum_imaging", "Acquire an EELS spectrum image",
             ["scan_size_x", "scan_size_y", "exposure_time"]),
    Workflow("4d_stem_mapping", "Acquire a 4D STEM dataset",
             ["scan_size_x", "scan_size_y", "camera_length"])
  ]

  function Names(ws: seq<Workflow>): (names: seq<string>)
    ensures |names| == |ws|
    ensures forall i :: 0 <= i < |ws| ==> names[i] == ws[i].name
  {
    if ws == [] then [] else [ws[0].name] + Names(ws[1..])
  }

  /** The first workflow of `ws` called `name`, if any. */
  function Find(ws: seq<Workflow>, name: string): (r: Option<Workflow>)
    ensures r.None? <==> name !in Names(ws)
    ensures r.Some? ==> r.value in ws && r.value.name == name
  {
    if ws == [] then None
    else if ws[0].name == name then Some(ws[0])
    else Find(ws[1..], name)
  }

  /** The required parameters that `supplied` lacks, in required order. */
  function Missing(required: seq<string>, supplied: set<string>): seq<string> {
    if required == [] then []
    else if required[0] in supplied then Missing(required[1..], supplied)
    else [required[0]] + Missing(required[1..], supplied)
  }

  /** `xs` is `ys` with some elements left out and the rest kept in order. */
  predicate Subsequence(xs: seq<string>, ys: seq<string>) {
    if xs == [] then true
    else if ys == [] then false
    else (xs[0] == ys[0] && Subsequence(xs[1..], ys[1..])) || Subsequence(xs, ys[1..])
  }

  /** Checking one more required name appends it when it is not supplied:
      the step of the checking loop. */
  lemma {:induction false} MissingAppend(required: seq<string>, supplied: set<string>, p: string)
    ensures Missing(required + [p], supplied)
         == Missing(required, supplied) + (if p in supplied then [] else [p])
  {
    if required == [] {
      assert required + [p] == [p];
    } else {
      assert (required + [p])[1..] == required[1..] + [p];
      MissingAppend(required[1..], supplied, p);
    }
  }

  /** A name is missing exactly when it is required and not supplied. */
  lemma {:induction false} MissingMembership(required: seq<string>, supplied: set<string>, p: string)
    ensures p in Missing(required, supplied) <==> p in required && p !in supplied
  {
    if required != [] {
      MissingMembership(required[1..], supplied, p);
      assert required == [required[0]] + required[1..];
    }
  }

  /** The missing names keep the order of the required list. */
  lemma {:induction false} MissingIsSubsequence(required: seq<string>, supplied: set<string>)
    ensures Subsequence(Missing(required, supplied), required)
  {
    if required != [] {
      MissingIsSubsequence(required[1..], supplied);
      if required[0] !in supplied {
        assert Missing(required, supplied)[1..] == Missing(required[1..], supplied);
      }
    }
  }

  /** Keys that are not required never change what is missing, so extra
      parameters never cause a failure. */
  lemma {:induction false} ExtraKeysIgnored(required: seq<string>, supplied: set<string>, extra: set<string>)
    requires forall k :: k in extra ==> k !in required
    ensures Missing(required, supplied + extra) == Missing(required, supplied)
  {
    if required != [] {
      assert forall k :: k in required[1..] ==> k in required;
      ExtraKeysIgnored(required[1..], supplied, extra);
    }
  }

  /** Nothing is missing exactly when every required name is supplied. */
  lemma NothingMissing(required: seq<string>, supplied: set<string>)
    ensures Missing(required, supplied) == [] <==> forall p :: p in required ==> p in supplied
  {
    if Missing(required, supplied) == [] {
      forall p | p in required ensures p in supplied {
        MissingMembership(required, supplied, p);
      }
    } else {
      var p := Missing(required, supplied)[0];
      MissingMembership(required, supplied, p);
    }
  }

  /** The checking loop: collects the required names absent from
      `parameters`, in required order. */
  method MissingParams(required: seq<string>, parameters: map<string, Value>)
    returns (missing: seq<string>)
    ensures missing == Missing(required, parameters.Keys)
  {
    missing := [];
    for i := 0 to |required|
      invariant missing == Missing(required[..i], parameters.Keys)
    {
      assert required[..i + 1] == required[..i] + [required[i]];
      MissingAppend(required[..i], parameters.Keys, required[i]);
      if required[i] !in parameters {
        missing := missing + [required[i]];
      }
    }
    assert required[..|required|] == required;
  }

  /** The failure for a name outside the catalog, listing the known names. */
  function UnknownWorkflow(workflowName: string): Envelope {
    map[
      "success" := Bool(false),
      "error" := Str("Unknown workflow: " + workflowName),
      "available_workflows" := List(Strs(Names(Catalog)))]
  }

  /** `run_experiment_workflow`. `now` is `int(time.time())` and
      `durationDraw` the run time drawn for the simulated result. An omitted
      `parameters` is taken as the empty dictionary. */
  method RunExperimentWorkflow(workflowName: string, parameters: Option<map<string, Value>>,
                               now: nat, durationDraw: int)
    returns (e: Envelope)
    ensures Find(Catalog, workflowName).None? ==>
      && e.Keys == {"success", "error", "available_workflows"}
      && Has(e, "success", Bool(false))
      && Has(e, "error", Str("Unknown workflow: " + workflowName))
      && Has(e, "available_workflows", List([Str("tomography_tilt_series"), Str("eels_spectrum_imaging"), Str("4d_stem_mapping")]))
    ensures var supplied := parameters.GetOr(map[]);
      Succeeded(e) <==>
        && Find(Catalog, workflowName).Some?
        && forall p :: p in Find(Catalog, workflowName).value.requiredParams ==> p in supplied
    ensures Find(Catalog, workflowName).Some? && !Succeeded(e) ==>
      var required := Find(Catalog, workflowName).value.requiredParams;
      var missing := Missing(required, parameters.GetOr(map[]).Keys);
      && e.Keys == {"success", "error", "required_params"}
      && Has(e, "success", Bool(false))
      && missing != []
      && Has(e, "error", Str("Missing required parameters: " + ReprList(missing)))
      && Has(e, "required_params", List(Strs(required)))
    ensures Succeeded(e) ==>
      && Has(e, "workflow_name", Str(workflowName))
      && Has(e, "parameters", Dict(parameters.GetOr(map[])))
      && Has(e, "status", Str("completed"))
  {
    var supplied := parameters.GetOr(map[]);
    var found := Find(Catalog, workflowName);
    if found.None? {
      return UnknownWorkflow(workflowName);
    }
    var required := found.value.requiredParams;
    var missing := MissingParams(required, supplied);
    NothingMissing(required, supplied.Keys);
    if missing != [] {
      return map[
        "success" := Bool(false),
        "error" := Str("Missing required parameters: " + ReprList(missing)),
        "required_params" := List(Strs(required))];
    }
    var fileName := workflowName + "_result_" + NatToString(now) + ".dm4";
    e := map[
      "success" := Bool(true),
      "workflow_name" := Str(workflowName),
      "parameters" := Dict(supplied),
      "status" := Str("completed"),
      "results" := Dict(map[
        "files_created" := List([Str(fileName)]),
        "duration_seconds" := Int(durationDraw)])];
  }

  /** `eels_spectrum_imaging` with no parameters lacks all three of its
      required parameters, reported in order. */
  lemma EelsWithoutParameters()
    ensures Find(Catalog, "eels_spectrum_imaging").Some?
    ensures Missing(Find(Catalog, "eels_spectrum_imaging").value.requiredParams, {})
         == ["scan_size_x", "scan_size_y", "exposure_time"]
  {
  }
}
