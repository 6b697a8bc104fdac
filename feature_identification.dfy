/** `ai_identify_features`: reads the front image and reports simulated
    particles, defects and interfaces, each kind only when asked for.

    The random draws are inputs, one record per detected feature: the
    length of each sequence is the drawn count. Each feature's record gets
    its position in its list as id; interface points are the drawn start
    moved by the j-th drawn offset times j, clamped into the image. */
module FeatureIdentification {
  import opened Envelopes
  import Server

  datatype ParticleDraw = ParticleDraw(centerX: int, centerY: int, diameterNm: real, circularity: real)
  datatype DefectDraw = DefectDraw(positionX: int, positionY: int, kind: string, confidence: real)
  datatype Offset = Offset(dx: int, dy: int)
  datatype InterfaceDraw = InterfaceDraw(startX: int, startY: int, offsets: seq<Offset>, kind: string, confidence: real)
  datatype FeatureDraws = FeatureDraws(particles: seq<ParticleDraw>, defects: seq<DefectDraw>,
                                       interfaces: seq<InterfaceDraw>)

  datatype Particle = Particle(id: nat, draw: ParticleDraw)
  datatype Defect = Defect(id: nat, draw: DefectDraw)
  datatype Point = Point(x: int, y: int)
  datatype Interface = Interface(id: nat, points: seq<Point>, kind: string, confidence: real)

  const DefaultFeatureTypes := ["particles", "defects", "interfaces"]

  /** `min(max(v, 0), hi)`. */
  function Clamp(v: int, hi: nat): (r: int)
    ensures 0 <= r <= hi
    ensures 0 <= v <= hi ==> r == v
    ensures v < 0 ==> r == 0
    ensures v > hi ==> r == hi
  {
    var low := if v > 0 then v else 0;
    if low < hi then low else hi
  }

  /** The j-th point of an interface drawn as `d`, in a `width` x `height`
      image. */
  function InterfacePoint(d: InterfaceDraw, j: nat, width: nat, height: nat): Point
    requires j < |d.offsets|
  {
    Point(Clamp(d.startX + d.offsets[j].dx * j, width), Clamp(d.startY + d.offsets[j].dy * j, height))
  }

  /** The points of an interface drawn as `d`: every one lies inside
      [0, width] x [0, height], the far edges included. */
  function TracedPoints(d: InterfaceDraw, width: nat, height: nat): (points: seq<Point>)
    ensures |points| == |d.offsets|
    ensures forall j :: 0 <= j < |points| ==> 0 <= points[j].x <= width && 0 <= points[j].y <= height
  {
    seq(|d.offsets|, j requires 0 <= j < |d.offsets| => InterfacePoint(d, j, width, height))
  }

  /** The particle loop: the i-th record is the i-th draw with id i. */
  method DetectParticles(draws: seq<ParticleDraw>) returns (particles: seq<Particle>)
    ensures |particles| == |draws|
    ensures forall i :: 0 <= i < |draws| ==> particles[i].id == i && particles[i].draw == draws[i]
  {
    particles := [];
    for i := 0 to |draws|
      invariant |particles| == i
      invariant forall j :: 0 <= j < i ==> particles[j].id == j && particles[j].draw == draws[j]
    {
      particles := particles + [Particle(i, draws[i])];
    }
  }

  /** The defect loop: the i-th record is the i-th draw with id i. */
  method DetectDefects(draws: seq<DefectDraw>) returns (defects: seq<Defect>)
    ensures |defects| == |draws|
    ensures forall i :: 0 <= i < |draws| ==> defects[i].id == i && defects[i].draw == draws[i]
  {
    defects := [];
    for i := 0 to |draws|
      invariant |defects| == i
      invariant forall j :: 0 <= j < i ==> defects[j].id == j && defects[j].draw == draws[j]
    {
      defects := defects + [Defect(i, draws[i])];
    }
  }

  /** The point loop of one interface. */
  method TracePoints(d: InterfaceDraw, width: nat, height: nat) returns (points: seq<Point>)
    ensures points == TracedPoints(d, width, height)
  {
    points := [];
    for j := 0 to |d.offsets|
      invariant |points| == j
      invariant forall m :: 0 <= m < j ==> points[m] == InterfacePoint(d, m, width, height)
    {
      points := points + [InterfacePoint(d, j, width, height)];
    }
  }

  /** The interface loop: the i-th interface has id i, the i-th draw's kind
      and confidence, and points that all lie inside the image bounds. */
  method DetectInterfaces(draws: seq<InterfaceDraw>, width: nat, height: nat)
    returns (interfaces: seq<Interface>)
    ensures |interfaces| == |draws|
    ensures forall i :: 0 <= i < |draws| ==>
      interfaces[i] == Interface(i, TracedPoints(draws[i], width, height), draws[i].kind, draws[i].confidence)
    ensures forall i, j :: 0 <= i < |interfaces| && 0 <= j < |interfaces[i].points| ==>
      0 <= interfaces[i].points[j].x <= width && 0 <= interfaces[i].points[j].y <= height
  {
    interfaces := [];
    for i := 0 to |draws|
      invariant |interfaces| == i
      invariant forall m :: 0 <= m < i ==>
        interfaces[m] == Interface(m, TracedPoints(draws[m], width, height), draws[m].kind, draws[m].confidence)
    {
      var points := TracePoints(draws[i], width, height);
      interfaces := interfaces + [Interface(i, points, draws[i].kind, draws[i].confidence)];
    }
  }

  function ParticleValue(p: Particle): Value {
    Dict(map[
      "id" := Int(p.id),
      "center_x" := Int(p.draw.centerX),
      "center_y" := Int(p.draw.centerY),
      "diameter_nm" := Float(p.draw.diameterNm),
      "circularity" := Float(p.draw.circularity)])
  }

  function DefectValue(d: Defect): Value {
    Dict(map[
      "id" := Int(d.id),
      "position_x" := Int(d.draw.positionX),
      "position_y" := Int(d.draw.positionY),
      "type" := Str(d.draw.kind),
      "confidence" := Float(d.draw.confidence)])
  }

  function PointValue(p: Point): Value {
    List([Int(p.x), Int(p.y)])
  }

  function InterfaceValue(f: Interface): Value {
    Dict(map[
      "id" := Int(f.id),
      "points" := List(seq(|f.points|, j requires 0 <= j < |f.points| => PointValue(f.points[j]))),
      "type" := Str(f.kind),
      "confidence" := Float(f.confidence)])
  }

  function ParticleRecords(draws: seq<ParticleDraw>): (records: seq<Value>)
    ensures |records| == |draws|
  {
    seq(|draws|, i requires 0 <= i < |draws| => ParticleValue(Particle(i, draws[i])))
  }

  function DefectRecords(draws: seq<DefectDraw>): (records: seq<Value>)
    ensures |records| == |draws|
  {
    seq(|draws|, i requires 0 <= i < |draws| => DefectValue(Defect(i, draws[i])))
  }

  function InterfaceRecords(draws: seq<InterfaceDraw>, width: nat, height: nat): (records: seq<Value>)
    ensures |records| == |draws|
  {
    seq(|draws|, i requires 0 <= i < |draws| =>
      InterfaceValue(Interface(i, TracedPoints(draws[i], width, height), draws[i].kind, draws[i].confidence)))
  }

  /** The record list is numbered: the i-th record's "id" is i. */
  predicate Numbered(records: seq<Value>) {
    forall i :: 0 <= i < |records| ==> records[i].Dict? && Has(records[i].fields, "id", Int(i))
  }

  /** The `features` dictionary for the requested `tags`: a key for exactly
      the requested kinds, each a numbered list with one record per draw. */
  function Features(tags: seq<string>, draws: FeatureDraws, width: nat, height: nat)
    : (features: map<string, Value>)
    ensures "particles" in features <==> "particles" in tags
    ensures "defects" in features <==> "defects" in tags
    ensures "interfaces" in features <==> "interfaces" in tags
    ensures features.Keys <= {"particles", "defects", "interfaces"}
    ensures forall tag :: tag in features ==> features[tag].List? && Numbered(features[tag].items)
    ensures "particles" in features ==> |features["particles"].items| == |draws.particles|
    ensures "defects" in features ==> |features["defects"].items| == |draws.defects|
    ensures "interfaces" in features ==> |features["interfaces"].items| == |draws.interfaces|
  {
    var withParticles: map<string, Value> :=
      if "particles" in tags then map["particles" := List(ParticleRecords(draws.particles))] else map[];
    var withDefects :=
      if "defects" in tags then withParticles["defects" := List(DefectRecords(draws.defects))] else withParticles;
    if "interfaces" in tags
    then withDefects["interfaces" := List(InterfaceRecords(draws.interfaces, width, height))]
    else withDefects
  }

  /** `len(features.get(tag, []))`. */
  function Count(features: map<string, Value>, tag: string): nat {
    if tag in features && features[tag].List? then |features[tag].items| else 0
  }

  /** The parts of the summary line, one "<count> <tag>" per requested tag,
      in request order; a tag with no list counts 0. */
  function SummaryParts(features: map<string, Value>, tags: seq<string>): (parts: seq<string>)
    ensures |parts| == |tags|
    ensures forall i :: 0 <= i < |tags| ==> parts[i] == NatToString(Count(features, tags[i])) + " " + tags[i]
  {
    if tags == [] then []
    else [NatToString(Count(features, tags[0])) + " " + tags[0]] + SummaryParts(features, tags[1..])
  }

  /** The summary names each requested tag with the number of features
      found for it: the draw count for the three known kinds, 0 for any
      other tag. */
  lemma SummaryReportsCounts(tags: seq<string>, draws: FeatureDraws, width: nat, height: nat, i: nat)
    requires i < |tags|
    ensures var n := if tags[i] == "particles" then |draws.particles|
                     else if tags[i] == "defects" then |draws.defects|
                     else if tags[i] == "interfaces" then |draws.interfaces|
                     else 0;
      SummaryParts(Features(tags, draws, width, height), tags)[i] == NatToString(n) + " " + tags[i]
  {
    var features := Features(tags, draws, width, height);
    assert tags[i] in tags;
    if tags[i] !in {"particles", "defects", "interfaces"} {
      assert tags[i] !in features;
    }
  }

  /** The detection part: an empty dictionary that each requested kind
      adds its list to. */
  method CollectFeatures(tags: seq<string>, draws: FeatureDraws, width: nat, height: nat)
    returns (features: map<string, Value>)
    ensures features == Features(tags, draws, width, height)
  {
    features := map[];
    if "particles" in tags {
      var particles := DetectParticles(draws.particles);
      var records := seq(|particles|, i requires 0 <= i < |particles| => ParticleValue(particles[i]));
      assert records == ParticleRecords(draws.particles);
      features := features["particles" := List(records)];
    }
    if "defects" in tags {
      var defects := DetectDefects(draws.defects);
      var records := seq(|defects|, i requires 0 <= i < |defects| => DefectValue(defects[i]));
      assert records == DefectRecords(draws.defects);
      features := features["defects" := List(records)];
    }
    if "interfaces" in tags {
      var interfaces := DetectInterfaces(draws.interfaces, width, height);
      var records := seq(|interfaces|, i requires 0 <= i < |interfaces| => InterfaceValue(interfaces[i]));
      assert records == InterfaceRecords(draws.interfaces, width, height);
      features := features["interfaces" := List(records)];
    }
  }

  /** `ai_identify_features`. A failed image read is returned unchanged;
      otherwise the envelope carries the requested tags, the features found
      for them and a one-line summary of the counts. */
  method AiIdentifyFeatures(src: Server.ImageFetch, featureTypes: Option<seq<string>>, draws: FeatureDraws)
    returns (e: Envelope)
    ensures src.Raised? ==> e == Server.GetCurrentImage(src)
    ensures Succeeded(e) <==> src.Image?
    ensures src.Image? ==>
      var tags := featureTypes.GetOr(DefaultFeatureTypes);
      var features := Features(tags, draws, src.cols, src.rows);
      && Has(e, "feature_types", List(Strs(tags)))
      && Has(e, "features", Dict(features))
      && Has(e, "summary", Str("Identified features in image: " + Join(", ", SummaryParts(features, tags))))
  {
    var image := Server.GetCurrentImage(src);
    if !Succeeded(image) {
      return image;
    }
    var tags := featureTypes.GetOr(DefaultFeatureTypes);
    var features := CollectFeatures(tags, draws, src.cols, src.rows);
    e := map[
      "success" := Bool(true),
      "feature_types" := List(Strs(tags)),
      "features" := Dict(features),
      "summary" := Str("Identified features in image: " + Join(", ", SummaryParts(features, tags)))];
  }
}
