/** Properties of the crop-disease classifier. */
module CropAnalysisLemmas {
  import opened Common
  import opened Text
  import opened CropAnalysis
  import opened Lists

  // ---------------------------------------------------------------------------------------
  // Scoring rules
  // ---------------------------------------------------------------------------------------

  /** Each (label, indicator) pair whose indicator occurs in the description adds the label's score once. */
  lemma {:induction false} MatchScorePerPair(desc: string, score: real, inds: seq<string>)
    ensures MatchScore(desc, score, inds) == score * |Matches(desc, inds)| as real
  {
    if inds != [] {
      MatchScorePerPair(desc, score, inds[..|inds| - 1]);
    }
  }

  /** No indicator is recorded exactly when the description contains none of them. */
  lemma {:induction false} MatchesEmptyIff(desc: string, inds: seq<string>)
    ensures Matches(desc, inds) == [] <==> forall j :: 0 <= j < |inds| ==> !Contains(desc, inds[j])
  {
    if inds != [] {
      var p := inds[..|inds| - 1];
      MatchesEmptyIff(desc, p);
      assert forall j :: 0 <= j < |p| ==> p[j] == inds[j];
    }
  }

  /** The first recorded indicator is the first one, in list order, that the description contains. */
  lemma {:induction false} MatchesFirst(desc: string, inds: seq<string>, m: nat)
    requires m < |inds| && Contains(desc, inds[m])
    requires forall j :: 0 <= j < m ==> !Contains(desc, inds[j])
    ensures Matches(desc, inds) != [] && Matches(desc, inds)[0] == inds[m]
  {
    var p := inds[..|inds| - 1];
    if m == |inds| - 1 {
      MatchesEmptyIff(desc, p);
    } else {
      MatchesFirst(desc, p, m);
    }
  }

  /** `detectedDiseases` is empty exactly when no label hit a disease indicator. */
  lemma {:induction false} DetectedEmptyIff(labels: seq<Label>)
    ensures Detected(labels) == [] <==> forall j :: 0 <= j < |labels| ==> Matches(labels[j].description, DiseaseIndicators) == []
  {
    if labels != [] {
      var p := labels[..|labels| - 1];
      DetectedEmptyIff(p);
      assert forall j :: 0 <= j < |p| ==> p[j] == labels[j];
    }
  }

  /** The head of `detectedDiseases` comes from the first label that hit any disease indicator. */
  lemma {:induction false} DetectedFirst(labels: seq<Label>, k: nat)
    requires k < |labels| && Matches(labels[k].description, DiseaseIndicators) != []
    requires forall j :: 0 <= j < k ==> Matches(labels[j].description, DiseaseIndicators) == []
    ensures Detected(labels) != [] && Detected(labels)[0] == Matches(labels[k].description, DiseaseIndicators)[0]
  {
    var p := labels[..|labels| - 1];
    var last := labels[|labels| - 1];
    assert Detected(labels) == Detected(p) + Matches(last.description, DiseaseIndicators);
    if k == |labels| - 1 {
      assert forall j :: 0 <= j < |p| ==> p[j] == labels[j];
      DetectedEmptyIff(p);
    } else {
      assert p[k] == labels[k];
      DetectedFirst(p, k);
    }
  }

  /**
   * The keyword that names the disease: taken in label order, then in indicator-list order.
   * Label k is the first to contain any disease indicator, and indicator m is the first it contains.
   */
  lemma FirstRecordedKeyword(labels: seq<Label>, k: nat, m: nat)
    requires k < |labels|
    requires forall j, n :: 0 <= j < k && 0 <= n < |DiseaseIndicators| ==> !Contains(labels[j].description, DiseaseIndicators[n])
    requires m < |DiseaseIndicators| && Contains(labels[k].description, DiseaseIndicators[m])
    requires forall n :: 0 <= n < m ==> !Contains(labels[k].description, DiseaseIndicators[n])
    ensures Detected(labels) != [] && Detected(labels)[0] == DiseaseIndicators[m]
  {
    forall j | 0 <= j < k
      ensures Matches(labels[j].description, DiseaseIndicators) == []
    {
      MatchesEmptyIff(labels[j].description, DiseaseIndicators);
    }
    MatchesFirst(labels[k].description, DiseaseIndicators, m);
    DetectedFirst(labels, k);
  }

  /** Without any recorded keyword the disease score is zero. */
  lemma {:induction false} NoKeywordNoDiseaseScore(labels: seq<Label>)
    requires Detected(labels) == []
    ensures DiseaseScore(labels) == 0.0
  {
    if labels != [] {
      var l := labels[|labels| - 1];
      NoKeywordNoDiseaseScore(labels[..|labels| - 1]);
      MatchScorePerPair(l.description, l.score, DiseaseIndicators);
    }
  }

  /** A label with a non-negative score adds a non-negative amount. */
  lemma {:induction false} MatchScoreNonNegative(desc: string, score: real, inds: seq<string>)
    requires score >= 0.0
    ensures MatchScore(desc, score, inds) >= 0.0
  {
    if inds != [] {
      MatchScoreNonNegative(desc, score, inds[..|inds| - 1]);
    }
  }

  predicate NonNegativeScores(labels: seq<Label>) {
    forall i :: 0 <= i < |labels| ==> labels[i].score >= 0.0
  }

  /** With non-negative label scores both sums are non-negative. */
  lemma {:induction false} ScoresNonNegative(labels: seq<Label>)
    requires NonNegativeScores(labels)
    ensures DiseaseScore(labels) >= 0.0 && HealthScore(labels) >= 0.0
  {
    if labels != [] {
      var l := labels[|labels| - 1];
      ScoresNonNegative(labels[..|labels| - 1]);
      MatchScoreNonNegative(l.description, l.score, DiseaseIndicators);
      MatchScoreNonNegative(l.description, l.score, HealthyIndicators);
    }
  }

  // ---------------------------------------------------------------------------------------
  // The verdict
  // ---------------------------------------------------------------------------------------

  /** Severity by threshold, treatments by severity, confidence always clamped (the label-scoring path). */
  lemma VerdictShape(d: real, h: real, detected: seq<string>, cropType: string)
    ensures var a := Verdict(d, h, detected, cropType);
      && (a.severity == Healthy <==> d <= h * 0.3)
      && (a.severity == Moderate <==> h * 0.3 < d <= h)
      && (a.severity == Severe <==> d > h * 0.3 && d > h)
      && a.severity != Mild
      && 60 <= a.confidence <= 95
      && |a.treatments| == (if a.severity == Healthy then 3 else 4)
      && (a.severity == Healthy ==> a.disease == "Healthy" && a.treatments == HealthyTreatments)
      && (a.severity == Severe ==> a.treatments == SevereTreatments)
      && (a.severity == Moderate ==> a.treatments == ModerateTreatments)
      && (a.severity == Healthy ==> a.confidence == Clamp(Round(h / (if h + d == 0.0 then 1.0 else h + d) * 100.0)))
      && (a.severity != Healthy && detected != [] ==> a.disease == CropSpecificDisease(cropType, detected[0]))
      && (a.severity != Healthy && detected == [] ==> a.disease == "Leaf Abnormality Detected")
      && (a.severity == Severe ==> a.confidence == Clamp(Round(d * 100.0)))
      && (a.severity == Moderate ==> a.confidence == Clamp(Round(d * 80.0)))
  {
  }

  /** A name built as `<crop> Disease Detected` is never the "Leaf Abnormality Detected" literal. */
  lemma FallbackNameIsNotAbnormality(cropType: string)
    ensures cropType + " Disease Detected" != "Leaf Abnormality Detected"
  {
    if |cropType| == 8 {
      assert (cropType + " Disease Detected")[8] == ' ';
    }
  }

  /** Neither a table entry nor the generic fallback is the "Leaf Abnormality Detected" literal. */
  lemma CropSpecificDiseaseNeverAbnormality(cropType: string, indicator: string)
    ensures CropSpecificDisease(cropType, indicator) != "Leaf Abnormality Detected"
  {
    FallbackNameIsNotAbnormality(cropType);
  }

  /**
   * With non-negative scores, entering the disease branch means a keyword was recorded,
   * so "Leaf Abnormality Detected" is never produced.
   */
  lemma LeafAbnormalityUnreachable(labels: seq<Label>, cropType: string)
    requires NonNegativeScores(labels)
    ensures DiseaseScore(labels) > HealthScore(labels) * 0.3 ==> Detected(labels) != []
    ensures Classify(labels, cropType).disease != "Leaf Abnormality Detected"
  {
    ScoresNonNegative(labels);
    if Detected(labels) == [] {
      NoKeywordNoDiseaseScore(labels);
    } else {
      CropSpecificDiseaseNeverAbnormality(cropType, Detected(labels)[0]);
    }
  }

  /** No indicator at all: the denominator falls back to 1, the baseline is 0 and is clamped to 60. */
  lemma NoIndicatorIsHealthy60(labels: seq<Label>, cropType: string)
    requires forall i :: 0 <= i < |labels| ==>
      Matches(labels[i].description, DiseaseIndicators) == [] && Matches(labels[i].description, HealthyIndicators) == []
    ensures Classify(labels, cropType) == Analysis("Healthy", Healthy, 60, HealthyTreatments)
  {
    DetectedEmptyIff(labels);
    NoKeywordNoDiseaseScore(labels);
    NoHealthyScore(labels);
  }

  /** Without healthy-indicator hits the health score is zero. */
  lemma {:induction false} NoHealthyScore(labels: seq<Label>)
    requires forall i :: 0 <= i < |labels| ==> Matches(labels[i].description, HealthyIndicators) == []
    ensures HealthScore(labels) == 0.0
  {
    if labels != [] {
      var l := labels[|labels| - 1];
      NoHealthyScore(labels[..|labels| - 1]);
      MatchScorePerPair(l.description, l.score, HealthyIndicators);
    }
  }

  /** With 0 <= d <= 0.3 h and h > 0 the share h/(h+d) is at least 10/13. */
  lemma HealthShareAtLeast(d: real, h: real)
    requires d >= 0.0 && h > 0.0 && d <= h * 0.3
    ensures h / (h + d) >= 10.0 / 13.0
  {
  }

  /** Hence the healthy-branch baseline round(h/(h+d) * 100) is at least 77. */
  lemma HealthyBaselineAtLeast77(d: real, h: real)
    requires d >= 0.0 && h > 0.0 && d <= h * 0.3
    ensures Round(h / (if h + d == 0.0 then 1.0 else h + d) * 100.0) >= 77
  {
    HealthShareAtLeast(d, h);
    assert h / (h + d) * 100.0 + 0.5 >= 77.0;
  }

  /** A healthy verdict on non-negative scores has confidence 60 (no healthy signal) or at least 77. */
  lemma HealthyConfidenceBand(labels: seq<Label>, cropType: string)
    requires NonNegativeScores(labels)
    ensures var a := Classify(labels, cropType);
      a.severity == Healthy ==> (if HealthScore(labels) == 0.0 then a.confidence == 60 else 77 <= a.confidence <= 95)
  {
    ScoresNonNegative(labels);
    var d, h := DiseaseScore(labels), HealthScore(labels);
    if d <= h * 0.3 && h > 0.0 {
      HealthyBaselineAtLeast77(d, h);
    }
  }

  // ---------------------------------------------------------------------------------------
  // Concrete labels
  // ---------------------------------------------------------------------------------------

  /** Recording distributes over concatenation of indicator lists. */
  lemma {:induction false} MatchesAppend(desc: string, a: seq<string>, b: seq<string>)
    ensures Matches(desc, a + b) == Matches(desc, a) + Matches(desc, b)
  {
    if b == [] {
      assert a + b == a;
    } else {
      assert (a + b)[..|a + b| - 1] == a + b[..|b| - 1];
      MatchesAppend(desc, a, b[..|b| - 1]);
    }
  }

  /** Exactly one indicator of the list occurs in the description. */
  lemma {:induction false} MatchesSingleHit(desc: string, inds: seq<string>, m: nat)
    requires m < |inds| && Contains(desc, inds[m])
    requires forall j :: 0 <= j < |inds| && j != m ==> !Contains(desc, inds[j])
    ensures Matches(desc, inds) == [inds[m]]
  {
    var front := inds[..|inds| - 1];
    assert forall j :: 0 <= j < |front| ==> front[j] == inds[j];
    if m == |inds| - 1 {
      MatchesEmptyIff(desc, front);
    } else {
      MatchesSingleHit(desc, front, m);
    }
  }

  /** "leaf spot" hits the disease indicator 'leaf spot' and the healthy indicator 'leaf'. */
  lemma LeafSpotCountsTowardBoth()
    ensures Matches("leaf spot", DiseaseIndicators) == ["leaf spot"]
    ensures Matches("leaf spot", HealthyIndicators) == ["leaf"]
  {
    LeafSpotDiseaseHits();
    LeafSpotHealthyHits();
  }

  lemma LeafSpotDiseaseHits()
    ensures Matches("leaf spot", DiseaseIndicators) == ["leaf spot"]
  {
    var s := "leaf spot";
    NotContainsMissingChar(s, "blight", 0);
    NotContainsMissingChar(s, "rust", 0);
    NotContainsMissingChar(s, "mold", 0);
    NotContainsMissingChar(s, "fungus", 1);
    NotContainsMissingChar(s, "disease", 0);
    NotContainsMissingChar(s, "infection", 0);
    NotContainsMissingChar(s, "wilted", 0);
    NotContainsMissingChar(s, "damaged", 0);
    NotContainsMissingChar(s, "brown", 0);
    NotContainsMissingChar(s, "yellow", 0);
    NotContainsMissingChar(s, "spotted", 6);
    NotContainsMissingChar(s, "diseased", 0);
    ContainsPrefix(s, "leaf spot");
    MatchesSingleHit(s, DiseaseIndicators, 0);
  }

  lemma LeafSpotHealthyHits()
    ensures Matches("leaf spot", HealthyIndicators) == ["leaf"]
  {
    var s := "leaf spot";
    NotContainsMissingChar(s, "healthy", 0);
    NotContainsMissingChar(s, "green", 0);
    NotContainsMissingChar(s, "fresh", 1);
    NotContainsMissingChar(s, "plant", 3);
    NotContainsMissingChar(s, "crop", 0);
    NotContainsMissingChar(s, "vegetation", 0);
    ContainsPrefix(s, "leaf");
    MatchesSingleHit(s, HealthyIndicators, 4);
  }

  /** "diseased" hits both 'disease' and 'diseased', so its score is added twice to the disease sum. */
  lemma DiseasedCountsTwice(score: real)
    ensures Matches("diseased", DiseaseIndicators) == ["disease", "diseased"]
    ensures Matches("diseased", HealthyIndicators) == []
    ensures MatchScore("diseased", score, DiseaseIndicators) == 2.0 * score
  {
    DiseasedDiseaseHits();
    DiseasedHealthyHits();
    MatchScorePerPair("diseased", score, DiseaseIndicators);
  }

  lemma DiseasedDiseaseHits()
    ensures Matches("diseased", DiseaseIndicators) == ["disease", "diseased"]
  {
    var s := "diseased";
    NotContainsMissingChar(s, "leaf spot", 0);
    NotContainsMissingChar(s, "blight", 0);
    NotContainsMissingChar(s, "rust", 0);
    NotContainsMissingChar(s, "mold", 0);
    NotContainsMissingChar(s, "fungus", 0);
    NotContainsMissingChar(s, "infection", 1);
    NotContainsMissingChar(s, "wilted", 0);
    NotContainsMissingChar(s, "damaged", 2);
    NotContainsMissingChar(s, "brown", 0);
    NotContainsMissingChar(s, "yellow", 0);
    NotContainsMissingChar(s, "spotted", 1);
    ContainsPrefix(s, "disease");
    var front := DiseaseIndicators[..12];
    MatchesSingleHit(s, front, 5);
    ContainsPrefix(s, "diseased");
    assert DiseaseIndicators[..|DiseaseIndicators| - 1] == front;
  }

  lemma DiseasedHealthyHits()
    ensures Matches("diseased", HealthyIndicators) == []
  {
    var s := "diseased";
    NotContainsMissingChar(s, "healthy", 0);
    NotContainsMissingChar(s, "green", 0);
    NotContainsMissingChar(s, "fresh", 0);
    NotContainsMissingChar(s, "plant", 0);
    NotContainsMissingChar(s, "leaf", 0);
    NotContainsMissingChar(s, "crop", 0);
    NotContainsMissingChar(s, "vegetation", 0);
    MatchesEmptyIff(s, HealthyIndicators);
  }

  /**
   * One "leaf spot" label at 0.9 on a tomato: both sums are 0.9, so the verdict is moderate with
   * confidence round(0.9 * 80) = 72, named `Early Blight` from the tomato table.
   */
  lemma TomatoLeafSpotExample()
    ensures Classify(Lowered([Label("leaf spot", 0.9)]), "tomato") == Analysis("Early Blight", Moderate, 72, ModerateTreatments)
  {
    ToLowerIdempotent("leaf spot");
    ToLowerIdempotent("tomato");
    var labels := [Label("leaf spot", 0.9)];
    assert Lowered(labels) == labels;
    assert labels[..0] == [];
    LeafSpotCountsTowardBoth();
    MatchScorePerPair("leaf spot", 0.9, DiseaseIndicators);
    MatchScorePerPair("leaf spot", 0.9, HealthyIndicators);
    assert DiseaseScore(labels) == 0.9;
    assert HealthScore(labels) == 0.9;
    assert Detected(labels) == ["leaf spot"];
    assert CropSpecificDisease("tomato", "leaf spot") == "Early Blight";
  }

  // ---------------------------------------------------------------------------------------
  // The canned catalogue
  // ---------------------------------------------------------------------------------------

  /** Crop names are matched case-insensitively, and catalogue confidences are not clamped (96, 97). */
  lemma MockConfidencesNotClamped()
    ensures GenerateMockAnalysis("Cassava", 0.9).confidence == 96
    ensures GenerateMockAnalysis("TOMATO", 0.9).confidence == 97
  {
    assert ToLower("Cassava") == "cassava";
    assert ToLower("TOMATO") == "tomato";
  }

  /** `Math.floor(x * n)` is `k` exactly when `x` lies in the `k`-th of `n` equal cells of [0, 1). */
  lemma FloorCell(x: real, n: nat, k: nat)
    requires n > 0
    ensures (k as real / n as real <= x < (k + 1) as real / n as real) <==> (x * n as real).Floor == k
  {
    var m := n as real;
    assert k as real / m <= x <==> k as real <= x * m by {
      assert k as real / m * m == k as real;
    }
    assert x < (k + 1) as real / m <==> x * m < (k + 1) as real by {
      assert (k + 1) as real / m * m == (k + 1) as real;
    }
  }

  /** No two entries of a crop's candidate list are equal (their confidences differ). */
  lemma MockBucketDistinct(cropType: string)
    ensures var b := MockBucket(cropType);
      forall i, j :: 0 <= i < j < |b| ==> b[i] != b[j]
  {
    var b := MockBucket(cropType);
    forall i, j | 0 <= i < j < |b|
      ensures b[i] != b[j]
    {
      assert b[i].confidence != b[j].confidence;
    }
  }

  /**
   * The fallback draw is uniform: with `n` candidates, entry `k` is picked exactly when `rand`
   * lies in [k/n, (k+1)/n).
   */
  lemma MockDrawUniform(cropType: string, rand: real, k: nat)
    requires 0.0 <= rand < 1.0
    requires k < |MockBucket(cropType)|
    ensures var n := |MockBucket(cropType)| as real;
      (k as real / n <= rand < (k + 1) as real / n) <==> GenerateMockAnalysis(cropType, rand) == MockBucket(cropType)[k]
  {
    var b := MockBucket(cropType);
    FloorCell(rand, |b|, k);
    MockBucketDistinct(cropType);
    var i := (rand * |b| as real).Floor;
    assert 0 <= i < |b|;
    assert GenerateMockAnalysis(cropType, rand) == b[i];
    if i != k {
      assert b[i] != b[k] by {
        if i < k { } else { }
      }
    }
  }

  /** Every canned result has at least three treatments and a confidence between 78 and 97. */
  lemma MockResultBounds(cropType: string, rand: real)
    requires 0.0 <= rand < 1.0
    ensures var a := GenerateMockAnalysis(cropType, rand);
      |a.treatments| >= 3 && 78 <= a.confidence <= 97
  {
    var crop := ToLower(cropType);
    if crop in MockDatabase {
      assert crop == "cassava" || crop == "sugarcane" || crop == "tomato";
    }
  }

  // ---------------------------------------------------------------------------------------
  // Completeness of recording, and the disease-name table
  // ---------------------------------------------------------------------------------------

  /** One entry is recorded per indicator position whose indicator the description contains. */
  lemma {:induction false} MatchesCount(desc: string, inds: seq<string>)
    ensures |Matches(desc, inds)| == CountWhere(inds, (s: string) => Contains(desc, s))
  {
    if inds != [] {
      var front := inds[..|inds| - 1];
      MatchesCount(desc, front);
      assert inds == front + [inds[|inds| - 1]];
      CountWhereAppend(front, [inds[|inds| - 1]], (s: string) => Contains(desc, s));
    }
  }

  /** Every indicator the description contains is recorded. */
  lemma {:induction false} MatchesComplete(desc: string, inds: seq<string>, k: nat)
    requires k < |inds| && Contains(desc, inds[k])
    ensures inds[k] in Matches(desc, inds)
  {
    var front := inds[..|inds| - 1];
    if k < |inds| - 1 {
      assert front[k] == inds[k];
      MatchesComplete(desc, front, k);
    }
  }

  /** A table hit depends only on the lower-cased crop; a miss keeps the caller's spelling. */
  lemma CropSpecificDiseaseCaseInsensitive(a: string, b: string, indicator: string)
    requires ToLower(a) == ToLower(b)
    ensures ToLower(a) in DiseaseMap && indicator in DiseaseMap[ToLower(a)] ==>
      CropSpecificDisease(a, indicator) == CropSpecificDisease(b, indicator) == DiseaseMap[ToLower(a)][indicator]
    ensures ToLower(a) !in DiseaseMap ==>
      CropSpecificDisease(a, indicator) == a + " Disease Detected" && CropSpecificDisease(b, indicator) == b + " Disease Detected"
  {
    if ToLower(a) in DiseaseMap && indicator in DiseaseMap[ToLower(a)] {
      var crop := ToLower(a);
      assert crop == "cassava" || crop == "sugarcane" || crop == "tomato";
      assert DiseaseMap[crop][indicator] != "";
    }
  }

  /** The table's names for tomato, reached from any capitalisation of the crop. */
  lemma TomatoNames()
    ensures CropSpecificDisease("Tomato", "blight") == "Late Blight"
    ensures CropSpecificDisease("TOMATO", "leaf spot") == "Early Blight"
    ensures CropSpecificDisease("Tomato", "rust") == "Tomato Disease Detected"
  {
    assert ToLower("Tomato") == "tomato";
    assert ToLower("TOMATO") == "tomato";
  }

  /** An empty label list is scored, not sent to the catalogue: Healthy with confidence 60. */
  lemma EmptyLabelsHealthy60(cropType: string)
    ensures Classify(Lowered([]), cropType) == Analysis("Healthy", Healthy, 60, HealthyTreatments)
  {
    assert Lowered([]) == [];
  }
}
