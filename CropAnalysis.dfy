/**
 * The crop-disease classifier of the `analyze-crop` serverless handler: keyword scoring of
 * image labels, the crop-specific disease table, the canned (mock) result catalogue and the
 * handler's choice between the two.
 */
module CropAnalysis {
  import opened Common
  import opened Text

  datatype Severity = Healthy | Mild | Moderate | Severe

  /** One label of an image-annotation response. */
  datatype Label = Label(description: string, score: real)

  /** The first element of the annotation response; `labelAnnotations` may be missing. */
  datatype VisionResult = VisionResult(labelAnnotations: Option<seq<Label>>)

  /** The classification record the handler stores. */
  datatype Analysis = Analysis(disease: string, severity: Severity, confidence: int, treatments: seq<string>)

  const DiseaseIndicators: seq<string> := [
    "leaf spot", "blight", "rust", "mold", "fungus", "disease", "infection",
    "wilted", "damaged", "brown", "yellow", "spotted", "diseased"
  ]

  const HealthyIndicators: seq<string> := [
    "healthy", "green", "fresh", "plant", "leaf", "crop", "vegetation"
  ]

  const HealthyTreatments: seq<string> := [
    "Continue current care routine",
    "Monitor for any changes",
    "Maintain proper watering schedule"
  ]

  const SevereTreatments: seq<string> := [
    "Apply appropriate fungicide immediately",
    "Remove affected plant parts",
    "Improve air circulation",
    "Consult agricultural extension service"
  ]

  const ModerateTreatments: seq<string> := [
    "Monitor closely for progression",
    "Consider preventive treatment",
    "Improve cultural practices",
    "Test soil conditions"
  ]

  /** `Math.min(Math.max(c, 60), 95)`. */
  function Clamp(c: int): (r: int)
    ensures 60 <= r <= 95
    ensures 60 <= c <= 95 ==> r == c
    ensures c < 60 ==> r == 60
    ensures c > 95 ==> r == 95
  {
    if c < 60 then 60 else if c > 95 then 95 else c
  }

  // ---------------------------------------------------------------------------------------
  // Scoring
  // ---------------------------------------------------------------------------------------

  /** The labels with their descriptions lower-cased (the `map` before scoring). */
  function Lowered(labels: seq<Label>): (r: seq<Label>)
    ensures |r| == |labels|
    ensures forall i :: 0 <= i < |r| ==> r[i] == Label(ToLower(labels[i].description), labels[i].score)
  {
    seq(|labels|, i requires 0 <= i < |labels| => Label(ToLower(labels[i].description), labels[i].score))
  }

  /** The indicators of `inds` that `desc` contains, in list order. */
  function Matches(desc: string, inds: seq<string>): (r: seq<string>)
    ensures |r| <= |inds|
    ensures forall j :: 0 <= j < |r| ==> r[j] in inds && Contains(desc, r[j])
  {
    if inds == [] then []
    else
      var last := inds[|inds| - 1];
      Matches(desc, inds[..|inds| - 1]) + (if Contains(desc, last) then [last] else [])
  }

  /** What one label adds to a sum while the inner `forEach` runs over `inds`. */
  function MatchScore(desc: string, score: real, inds: seq<string>): real
  {
    if inds == [] then 0.0
    else
      MatchScore(desc, score, inds[..|inds| - 1]) + (if Contains(desc, inds[|inds| - 1]) then score else 0.0)
  }

  /** Sum of each label's contribution over the disease indicators. */
  function DiseaseScore(labels: seq<Label>): real
  {
    if labels == [] then 0.0
    else
      var l := labels[|labels| - 1];
      DiseaseScore(labels[..|labels| - 1]) + MatchScore(l.description, l.score, DiseaseIndicators)
  }

  /** Sum of each label's contribution over the healthy indicators. */
  function HealthScore(labels: seq<Label>): real
  {
    if labels == [] then 0.0
    else
      var l := labels[|labels| - 1];
      HealthScore(labels[..|labels| - 1]) + MatchScore(l.description, l.score, HealthyIndicators)
  }

  /** The `detectedDiseases` list: matched disease indicators, label by label. */
  function Detected(labels: seq<Label>): seq<string>
  {
    if labels == [] then []
    else
      var l := labels[|labels| - 1];
      Detected(labels[..|labels| - 1]) + Matches(l.description, DiseaseIndicators)
  }

  // ---------------------------------------------------------------------------------------
  // Tables
  // ---------------------------------------------------------------------------------------

  const DiseaseMap: map<string, map<string, string>> := map[
    "cassava" := map[
      "leaf spot" := "Cassava Bacterial Blight",
      "mosaic" := "Cassava Mosaic Disease",
      "yellow" := "Cassava Mosaic Disease",
      "brown" := "Cassava Brown Streak Disease",
      "streak" := "Cassava Brown Streak Disease"
    ],
    "sugarcane" := map[
      "red" := "Red Rot",
      "rot" := "Red Rot",
      "smut" := "Smut Disease",
      "rust" := "Orange Rust",
      "yellow" := "Yellow Leaf Disease"
    ],
    "tomato" := map[
      "leaf spot" := "Early Blight",
      "blight" := "Late Blight",
      "yellow" := "Septoria Leaf Spot",
      "brown" := "Alternaria Stem Canker"
    ]
  ]

  /** `getCropSpecificDisease`: the table entry for (lower-cased crop, indicator), else a generic name. */
  function CropSpecificDisease(cropType: string, indicator: string): (r: string)
    ensures var crop := ToLower(cropType);
      if crop in DiseaseMap && indicator in DiseaseMap[crop] && DiseaseMap[crop][indicator] != ""
      then r == DiseaseMap[crop][indicator]
      else r == cropType + " Disease Detected"
  {
    var crop := ToLower(cropType);
    if crop in DiseaseMap && indicator in DiseaseMap[crop] && DiseaseMap[crop][indicator] != ""
    then DiseaseMap[crop][indicator]
    else cropType + " Disease Detected"
  }

  const DefaultMock := Analysis("Leaf Spot Disease", Mild, 78, [
    "Apply broad-spectrum fungicide",
    "Improve ventilation",
    "Monitor plant health",
    "Consider soil testing"
  ])

  const MockDatabase: map<string, seq<Analysis>> := map[
    "cassava" := [
      Analysis("Cassava Mosaic Disease", Moderate, 89, [
        "Use virus-free planting material",
        "Control whitefly vectors",
        "Remove infected plants",
        "Apply neem-based pesticides"
      ]),
      Analysis("Cassava Brown Streak Disease", Severe, 92, [
        "Plant resistant varieties",
        "Control whitefly vectors",
        "Remove infected plants immediately",
        "Maintain field hygiene"
      ]),
      Analysis("Healthy", Healthy, 96, [
        "Continue current care routine",
        "Monitor for pest activity",
        "Maintain proper spacing"
      ])
    ],
    "sugarcane" := [
      Analysis("Red Rot", Severe, 91, [
        "Use disease-resistant varieties",
        "Treat seeds with fungicide",
        "Improve drainage",
        "Remove infected plants"
      ]),
      Analysis("Smut Disease", Moderate, 87, [
        "Hot water treatment of seeds",
        "Use resistant varieties",
        "Remove affected shoots",
        "Apply appropriate fungicides"
      ]),
      Analysis("Healthy", Healthy, 95, [
        "Maintain current practices",
        "Monitor for diseases",
        "Ensure proper nutrition"
      ])
    ],
    "tomato" := [
      Analysis("Early Blight", Moderate, 89, [
        "Apply copper-based fungicide",
        "Improve air circulation",
        "Remove affected leaves",
        "Monitor weekly for 4 weeks"
      ]),
      Analysis("Late Blight", Severe, 94, [
        "Apply systemic fungicide immediately",
        "Remove all affected plant parts",
        "Increase plant spacing",
        "Apply preventive treatments weekly"
      ]),
      Analysis("Healthy", Healthy, 97, [
        "Continue current care routine",
        "Monitor for any changes",
        "Maintain proper watering schedule"
      ])
    ]
  ]

  /** The candidate list for a crop: its own bucket, or the default bucket for any other crop. */
  function MockBucket(cropType: string): (b: seq<Analysis>)
    ensures |b| > 0
    ensures ToLower(cropType) in MockDatabase ==> b == MockDatabase[ToLower(cropType)]
    ensures ToLower(cropType) !in MockDatabase ==> b == [DefaultMock]
  {
    var crop := ToLower(cropType);
    if crop in MockDatabase then MockDatabase[crop] else [DefaultMock]
  }

  /** `generateMockAnalysis`, with `Math.random()` supplied as `rand`. */
  function GenerateMockAnalysis(cropType: string, rand: real): (a: Analysis)
    requires 0.0 <= rand < 1.0
    ensures a in MockBucket(cropType)
    ensures ToLower(cropType) !in MockDatabase ==> a == DefaultMock
  {
    var bucket := MockBucket(cropType);
    var n := |bucket| as real;
    assert 0.0 <= rand * n < n;
    bucket[(rand * n).Floor]
  }

  // ---------------------------------------------------------------------------------------
  // The verdict
  // ---------------------------------------------------------------------------------------

  /** Name, severity, confidence and treatments from the two sums and the recorded keywords. */
  function Verdict(diseaseScore: real, healthScore: real, detected: seq<string>, cropType: string): (a: Analysis)
  {
    var baseline := Round(healthScore / (if healthScore + diseaseScore == 0.0 then 1.0 else healthScore + diseaseScore) * 100.0);
    if diseaseScore > healthScore * 0.3 then
      var disease := if |detected| > 0 then CropSpecificDisease(cropType, detected[0]) else "Leaf Abnormality Detected";
      if diseaseScore > healthScore then
        Analysis(disease, Severe, Clamp(Round(diseaseScore * 100.0)), SevereTreatments)
      else
        Analysis(disease, Moderate, Clamp(Round(diseaseScore * 80.0)), ModerateTreatments)
    else
      Analysis("Healthy", Healthy, Clamp(baseline), HealthyTreatments)
  }

  /** The label-scoring path on already lower-cased labels. */
  function Classify(labels: seq<Label>, cropType: string): Analysis
  {
    Verdict(DiseaseScore(labels), HealthScore(labels), Detected(labels), cropType)
  }

  // ---------------------------------------------------------------------------------------
  // The algorithm as the handler runs it
  // ---------------------------------------------------------------------------------------

  /** The inner `forEach` over one indicator list for one label: the score it adds and the indicators hit. */
  method ScoreAgainst(desc: string, score: real, inds: seq<string>) returns (added: real, hits: seq<string>)
    ensures added == MatchScore(desc, score, inds)
    ensures hits == Matches(desc, inds)
  {
    added, hits := 0.0, [];
    var j := 0;
    while j < |inds|
      invariant 0 <= j <= |inds|
      invariant added == MatchScore(desc, score, inds[..j])
      invariant hits == Matches(desc, inds[..j])
    {
      if Contains(desc, inds[j]) {
        added := added + score;
        hits := hits + [inds[j]];
      }
      assert inds[..j + 1][..j] == inds[..j];
      j := j + 1;
    }
    assert inds[..j] == inds;
  }

  /** The outer `forEach` over the labels: both sums and the `detectedDiseases` list. */
  method ScoreLabels(labels: seq<Label>) returns (diseaseScore: real, healthScore: real, detectedDiseases: seq<string>)
    ensures diseaseScore == DiseaseScore(labels)
    ensures healthScore == HealthScore(labels)
    ensures detectedDiseases == Detected(labels)
  {
    diseaseScore, healthScore, detectedDiseases := 0.0, 0.0, [];
    var i := 0;
    while i < |labels|
      invariant 0 <= i <= |labels|
      invariant diseaseScore == DiseaseScore(labels[..i])
      invariant healthScore == HealthScore(labels[..i])
      invariant detectedDiseases == Detected(labels[..i])
    {
      var current := labels[i];
      var added, hits := ScoreAgainst(current.description, current.score, DiseaseIndicators);
      diseaseScore := diseaseScore + added;
      detectedDiseases := detectedDiseases + hits;
      added, hits := ScoreAgainst(current.description, current.score, HealthyIndicators);
      healthScore := healthScore + added;
      assert labels[..i + 1][..i] == labels[..i];
      i := i + 1;
    }
    assert labels[..i] == labels;
  }

  /** `processVisionResults`: score the lower-cased labels, then branch on the two sums. */
  method ProcessVisionResults(vision: Option<VisionResult>, cropType: string, rand: real) returns (a: Analysis)
    requires 0.0 <= rand < 1.0
    ensures vision.None? || vision.value.labelAnnotations.None? ==> a == GenerateMockAnalysis(cropType, rand)
    ensures vision.Some? && vision.value.labelAnnotations.Some? ==>
      a == Classify(Lowered(vision.value.labelAnnotations.value), cropType)
  {
    if vision.None? || vision.value.labelAnnotations.None? {
      return GenerateMockAnalysis(cropType, rand);
    }
    var labels := Lowered(vision.value.labelAnnotations.value);
    var diseaseScore, healthScore, detectedDiseases := ScoreLabels(labels);

    var disease := "Healthy";
    var severity := Healthy;
    var confidence := Round(healthScore / (if healthScore + diseaseScore == 0.0 then 1.0 else healthScore + diseaseScore) * 100.0);
    var treatments := HealthyTreatments;

    if diseaseScore > healthScore * 0.3 {
      if |detectedDiseases| > 0 {
        disease := CropSpecificDisease(cropType, detectedDiseases[0]);
      } else {
        disease := "Leaf Abnormality Detected";
      }
      if diseaseScore > healthScore {
        severity := Severe;
        confidence := Round(diseaseScore * 100.0);
        treatments := SevereTreatments;
      } else {
        severity := Moderate;
        confidence := Round(diseaseScore * 80.0);
        treatments := ModerateTreatments;
      }
    }

    a := Analysis(disease, severity, Clamp(confidence), treatments);
  }

  /** What the label-annotation request produced, as the handler sees it. */
  datatype VisionCall =
    | CallFailed          // image fetch failed, non-OK response, an error inside the response, or a throw while scoring
    | Responded(first: Option<VisionResult>)

  /** The handler's choice between label scoring and the canned catalogue. */
  method AnalyzeCrop(call: VisionCall, cropType: string, rand: real) returns (a: Analysis)
    requires 0.0 <= rand < 1.0
    ensures call.CallFailed? || call.first.None? || call.first.value.labelAnnotations.None? ==>
      a == GenerateMockAnalysis(cropType, rand)
    ensures call.Responded? && call.first.Some? && call.first.value.labelAnnotations.Some? ==>
      a == Classify(Lowered(call.first.value.labelAnnotations.value), cropType)
  {
    match call
    case CallFailed =>
      a := GenerateMockAnalysis(cropType, rand);
    case Responded(first) =>
      a := ProcessVisionResults(first, cropType, rand);
  }
}
