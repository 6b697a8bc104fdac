/** `ai_assisted_focus`: a simulated focus search that raises a focus
    quality score in capped steps until it reaches a threshold or ten steps
    have been taken.

    The random draws are inputs: `start` is the initial quality and, for the
    k-th step (from 0), `defocus(k)` the defocus change and `gain(k)` the
    quality increase. Qualities are exact reals here. */
module AssistedFocus {
  import opened Envelopes

  datatype FocusStep = FocusStep(defocusChangeNm: real, qualityBefore: real, qualityAfter: real)

  /** The loop stops after this many steps even below the threshold. */
  const MaxSteps := 10
  const DefaultThreshold := 0.8

  function Min(a: real, b: real): real {
    if a <= b then a else b
  }

  /** Quality after a step from `q` with gain `g`: the sum, capped at 1.0. */
  function Improve(q: real, g: real): (r: real)
    ensures r <= 1.0 && r <= q + g
    ensures r == q + g || r == 1.0
    ensures q + g <= 1.0 ==> r == q + g
    ensures q + g >= 1.0 ==> r == 1.0
  {
    Min(q + g, 1.0)
  }

  /** The steps the loop takes from quality `q` once `k` steps are done. */
  function Steps(q: real, k: nat, threshold: real, defocus: nat -> real, gain: nat -> real)
    : seq<FocusStep>
    decreases MaxSteps - k
  {
    if q >= threshold || k >= MaxSteps then []
    else
      var next := Improve(q, gain(k));
      [FocusStep(defocus(k), q, next)] + Steps(next, k + 1, threshold, defocus, gain)
  }

  /** The quality the loop ends with from quality `q` once `k` steps are done. */
  function FinalQuality(q: real, k: nat, threshold: real, gain: nat -> real): real
    decreases MaxSteps - k
  {
    if q >= threshold || k >= MaxSteps then q
    else FinalQuality(Improve(q, gain(k)), k + 1, threshold, gain)
  }

  /** The focus loop itself: steps are appended while the quality is below
      the threshold, and the tenth step ends the loop. */
  method FocusLoop(start: real, threshold: real, defocus: nat -> real, gain: nat -> real)
    returns (steps: seq<FocusStep>, current: real)
    ensures steps == Steps(start, 0, threshold, defocus, gain)
    ensures current == FinalQuality(start, 0, threshold, gain)
  {
    steps := [];
    current := start;
    while current < threshold
      invariant |steps| < MaxSteps
      invariant steps + Steps(current, |steps|, threshold, defocus, gain)
             == Steps(start, 0, threshold, defocus, gain)
      invariant FinalQuality(current, |steps|, threshold, gain) == FinalQuality(start, 0, threshold, gain)
      decreases MaxSteps - |steps|
    {
      var k := |steps|;
      var defocusChange := defocus(k);
      var newQuality := Improve(current, gain(k));
      var step := FocusStep(defocusChange, current, newQuality);
      var rest := Steps(newQuality, k + 1, threshold, defocus, gain);
      assert Steps(current, k, threshold, defocus, gain) == [step] + rest;
      assert FinalQuality(current, k, threshold, gain) == FinalQuality(newQuality, k + 1, threshold, gain);
      assert (steps + [step]) + rest == steps + ([step] + rest);
      steps := steps + [step];
      current := newQuality;
      if |steps| >= MaxSteps {
        break;
      }
    }
  }

  /** At most `MaxSteps - k` further steps are taken. */
  lemma {:induction false} StepsBounded(q: real, k: nat, threshold: real, defocus: nat -> real, gain: nat -> real)
    requires k <= MaxSteps
    ensures |Steps(q, k, threshold, defocus, gain)| <= MaxSteps - k
    decreases MaxSteps - k
  {
    if !(q >= threshold || k >= MaxSteps) {
      StepsBounded(Improve(q, gain(k)), k + 1, threshold, defocus, gain);
    }
  }

  /** The steps form a chain from `q` to the final quality: each step
      starts below the threshold where the previous one ended, ends at or
      below 1.0, and uses the draws of its own index. */
  lemma {:induction false} StepsChain(q: real, k: nat, threshold: real, defocus: nat -> real, gain: nat -> real)
    ensures var s := Steps(q, k, threshold, defocus, gain);
      var final := FinalQuality(q, k, threshold, gain);
      && (s == [] ==> final == q)
      && (s != [] ==> s[0].qualityBefore == q && s[|s| - 1].qualityAfter == final)
      && (forall i :: 0 <= i < |s| ==> s[i].qualityAfter <= 1.0 && s[i].qualityBefore < threshold)
      && (forall i :: 0 <= i < |s| ==>
            s[i].defocusChangeNm == defocus(k + i) && s[i].qualityAfter == Improve(s[i].qualityBefore, gain(k + i)))
      && (forall i :: 0 <= i < |s| - 1 ==> s[i].qualityAfter == s[i + 1].qualityBefore)
    decreases MaxSteps - k
  {
    if !(q >= threshold || k >= MaxSteps) {
      var next := Improve(q, gain(k));
      StepsChain(next, k + 1, threshold, defocus, gain);
      var s := Steps(q, k, threshold, defocus, gain);
      var rest := Steps(next, k + 1, threshold, defocus, gain);
      assert s == [FocusStep(defocus(k), q, next)] + rest;
      forall i | 0 < i < |s| ensures s[i] == rest[i - 1] && k + i == (k + 1) + (i - 1) { }
    }
  }

  /** The loop ends below the threshold only after all ten steps. */
  lemma {:induction false} StopsEarlyOnlyAtThreshold(q: real, k: nat, threshold: real, defocus: nat -> real, gain: nat -> real)
    requires k <= MaxSteps
    ensures FinalQuality(q, k, threshold, gain) < threshold ==>
      |Steps(q, k, threshold, defocus, gain)| == MaxSteps - k
    decreases MaxSteps - k
  {
    if !(q >= threshold || k >= MaxSteps) {
      StopsEarlyOnlyAtThreshold(Improve(q, gain(k)), k + 1, threshold, defocus, gain);
    }
  }

  /** With every gain at least 0.05, each remaining step raises the final
      quality by 0.05 until it reaches 1.0, unless the threshold stops the
      loop first. */
  lemma {:induction false} FinalQualityLowerBound(q: real, k: nat, threshold: real, gain: nat -> real)
    requires k <= MaxSteps
    requires forall i :: 0.05 <= gain(i)
    ensures var final := FinalQuality(q, k, threshold, gain);
      final >= threshold || final >= Min(q + 0.05 * (MaxSteps - k) as real, 1.0)
    decreases MaxSteps - k
  {
    if !(q >= threshold || k >= MaxSteps) {
      FinalQualityLowerBound(Improve(q, gain(k)), k + 1, threshold, gain);
    }
  }

  /** With the draw ranges of the source (start at least 0.3, gains at
      least 0.05), any threshold up to the default 0.8 is always reached. */
  lemma DefaultThresholdReached(start: real, threshold: real, gain: nat -> real)
    requires 0.3 <= start
    requires threshold <= DefaultThreshold
    requires forall i :: 0.05 <= gain(i)
    ensures FinalQuality(start, 0, threshold, gain) >= threshold
  {
    FinalQualityLowerBound(start, 0, threshold, gain);
  }

  /** A threshold above 1.0 is never reached: the loop takes all ten steps
      unless it starts at or above the threshold. */
  lemma UnreachableThreshold(start: real, threshold: real, defocus: nat -> real, gain: nat -> real)
    requires threshold > 1.0 && start < threshold
    ensures FinalQuality(start, 0, threshold, gain) < threshold
    ensures |Steps(start, 0, threshold, defocus, gain)| == MaxSteps
  {
    StepsChain(start, 0, threshold, defocus, gain);
    StopsEarlyOnlyAtThreshold(start, 0, threshold, defocus, gain);
  }

  function StepValue(s: FocusStep): Value {
    Dict(map[
      "defocus_change_nm" := Float(s.defocusChangeNm),
      "quality_before" := Float(s.qualityBefore),
      "quality_after" := Float(s.qualityAfter)])
  }

  function StepValues(steps: seq<FocusStep>): (vs: seq<Value>)
    ensures |vs| == |steps|
    ensures forall i :: 0 <= i < |steps| ==> vs[i] == StepValue(steps[i])
  {
    seq(|steps|, i requires 0 <= i < |steps| => StepValue(steps[i]))
  }

  function TargetAreaValue(targetArea: Option<seq<real>>): Value {
    if targetArea.None? then Null
    else List(seq(|targetArea.value|, i requires 0 <= i < |targetArea.value| => Float(targetArea.value[i])))
  }

  /** `ai_assisted_focus`. An omitted threshold is 0.8; an omitted target
      area is None and is echoed as given. */
  method AiAssistedFocus(targetArea: Option<seq<real>>, qualityThreshold: Option<real>,
                         start: real, defocus: nat -> real, gain: nat -> real)
    returns (e: Envelope)
    ensures Succeeded(e)
    ensures Has(e, "target_area", TargetAreaValue(targetArea))
    ensures Has(e, "initial_quality", Float(start))
    ensures var threshold := qualityThreshold.GetOr(DefaultThreshold);
      var final := FinalQuality(start, 0, threshold, gain);
      && Has(e, "final_quality", Float(final))
      && Has(e, "status", Str(if final >= threshold then "optimal_focus" else "best_possible"))
    ensures var threshold := qualityThreshold.GetOr(DefaultThreshold);
      && Has(e, "steps", List(StepValues(Steps(start, 0, threshold, defocus, gain))))
      && |e["steps"].items| <= MaxSteps
  {
    var threshold := qualityThreshold.GetOr(DefaultThreshold);
    var steps, current := FocusLoop(start, threshold, defocus, gain);
    StepsBounded(start, 0, threshold, defocus, gain);
    StepsChain(start, 0, threshold, defocus, gain);
    var initial := if steps != [] then steps[0].qualityBefore else current;
    e := map[
      "success" := Bool(true),
      "target_area" := TargetAreaValue(targetArea),
      "initial_quality" := Float(initial),
      "final_quality" := Float(current),
      "steps" := List(StepValues(steps)),
      "status" := Str(if current >= threshold then "optimal_focus" else "best_possible")];
  }
}
