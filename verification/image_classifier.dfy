/** The image path of the chatbot (`analyzeImage`): an ordered cascade of
    seven rules over the extracted features, first match wins, Mixed at
    0.75 when none fires, and a Mixed 0.7 fallback when the image cannot
    be loaded or drawn.

    The `Math.random()` draw is the parameter `r`, with `0 <= r < 1`.
    `variance < t` is written `meanSquare < t * t` and `variance > t` is
    written `meanSquare > t * t` (see module Features). */
module ImageClassifier {
  import opened Common
  import opened Pixels
  import opened Features
  import opened Categories

  predicate VarianceBelow(f: FeatureVector, t: real) {
    f.meanSquare < t * t
  }

  predicate VarianceAbove(f: FeatureVector, t: real) {
    f.meanSquare > t * t
  }

  /** The predicate of each rule of the cascade, with the thresholds on
      the (square-rooted) `variance` of `analyzeImage`. Mixed is the default and has
      no rule. */
  predicate Fires(c: Category, f: FeatureVector) {
    match c
    case Plastic => (f.isBlue || f.brightness > 200.0) && VarianceBelow(f, 30.0) && f.edgeDensity < 0.1
    case Paper => (f.isBrown || f.brightness > 200.0) && VarianceAbove(f, 20.0) && VarianceBelow(f, 50.0)
                  && f.edgeDensity < 0.08
    case Glass => VarianceBelow(f, 15.0) && f.brightness > 180.0 && 0.05 < f.edgeDensity < 0.15
    case Metal => f.isGray && VarianceBelow(f, 30.0) && f.edgeDensity > 0.1
    case Electronic => VarianceAbove(f, 60.0) && f.edgeDensity > 0.2
    case Organic => (f.isGreen || f.isBrown) && VarianceAbove(f, 40.0)
    case Hazardous => f.isDark && VarianceAbove(f, 50.0) && f.edgeDensity > 0.15
    case Mixed => false
  }

  /** The rule cascade of `analyzeImage`: the first rule, in the order of
      its `if` chain, whose predicate holds. */
  function Cascade(f: FeatureVector): Category {
    if Fires(Plastic, f) then Plastic
    else if Fires(Paper, f) then Paper
    else if Fires(Glass, f) then Glass
    else if Fires(Metal, f) then Metal
    else if Fires(Electronic, f) then Electronic
    else if Fires(Organic, f) then Organic
    else if Fires(Hazardous, f) then Hazardous
    else Mixed
  }

  /** The classification the cascade reports: the confidence is the
      branch's base plus `r` times its jitter (Mixed: 0.75 flat). */
  function Classify(f: FeatureVector, r: real): (res: Classification)
    requires 0.0 <= r < 1.0
    ensures res.recyclable <==> res.category in {Plastic, Paper, Glass, Metal}
    ensures 0.75 <= res.confidence < 0.99
    ensures res.category == Mixed ==> res.confidence == 0.75
    ensures res.instructions == Instructions(res.category)
  {
    var category := Cascade(f);
    RecyclableMembership(category);
    Classification(category, Base(category) + r * Jitter(category), Recyclable(category), Instructions(category))
  }

  // ---------------------------------------------------------------------
  // Reference definition: the rule table searched first-match
  // ---------------------------------------------------------------------

  /** The order in which the rules are tried. */
  const RuleOrder: seq<Category> := [Plastic, Paper, Glass, Metal, Electronic, Organic, Hazardous]

  function RuleFires(f: FeatureVector): Category -> bool {
    c => Fires(c, f)
  }

  /** Base confidence and jitter width of each rule. */
  function Base(c: Category): real {
    match c
    case Plastic => 0.88
    case Paper => 0.9
    case Glass => 0.87
    case Metal => 0.92
    case Electronic => 0.82
    case Organic => 0.85
    case Hazardous => 0.79
    case Mixed => 0.75
  }

  function Jitter(c: Category): real {
    match c
    case Plastic => 0.1
    case Paper => 0.08
    case Glass => 0.1
    case Metal => 0.07
    case Electronic => 0.1
    case Organic => 0.1
    case Hazardous => 0.1
    case Mixed => 0.0
  }

  lemma RuleTableUnfolded(f: FeatureVector)
    ensures FirstWhere(RuleOrder, RuleFires(f)) ==
      if Fires(Plastic, f) then Some(Plastic)
      else if Fires(Paper, f) then Some(Paper)
      else if Fires(Glass, f) then Some(Glass)
      else if Fires(Metal, f) then Some(Metal)
      else if Fires(Electronic, f) then Some(Electronic)
      else if Fires(Organic, f) then Some(Organic)
      else if Fires(Hazardous, f) then Some(Hazardous)
      else None
  {
    FirstWhereOfSeven(RuleOrder, RuleFires(f));
  }

  /** The cascade is the rule table searched first-match: the category is
      the first rule in order whose predicate holds, Mixed when none does. */
  lemma ClassifyIsFirstMatch(f: FeatureVector, r: real)
    requires 0.0 <= r < 1.0
    ensures Classify(f, r).category == FirstWhere(RuleOrder, RuleFires(f)).GetOr(Mixed)
  {
    RuleTableUnfolded(f);
  }

  /** Mixed is chosen exactly when no rule fires. */
  lemma MixedIffNoRule(f: FeatureVector, r: real)
    requires 0.0 <= r < 1.0
    ensures Classify(f, r).category == Mixed <==> forall i :: 0 <= i < |RuleOrder| ==> !Fires(RuleOrder[i], f)
  {
    ClassifyIsFirstMatch(f, r);
  }

  /** First match wins: when a rule fires, the result is that rule or one
      tried before it, never a later one. */
  lemma FirstMatchWins(f: FeatureVector, r: real, k: nat)
    requires 0.0 <= r < 1.0
    requires k < |RuleOrder| && Fires(RuleOrder[k], f)
    ensures exists j :: 0 <= j <= k && RuleOrder[j] == Classify(f, r).category
  {
    ClassifyIsFirstMatch(f, r);
    FirstWhereIsEarliest(RuleOrder, RuleFires(f), k);
  }

  /** A smooth, bright image with few edges satisfies the glass rule but is
      caught by the plastic rule, which is tried first. */
  lemma BrightGlassIsPlastic(f: FeatureVector, r: real)
    requires 0.0 <= r < 1.0
    requires Fires(Glass, f) && f.brightness > 200.0 && f.edgeDensity < 0.1
    ensures Classify(f, r).category == Plastic
    ensures 0.88 <= Classify(f, r).confidence < 0.98
  {
  }

  /** A single-colour image has no texture and no edges, so it is Plastic
      when its colour is blue-dominant or brighter than 200 on average, and
      Mixed at 0.75 otherwise. */
  lemma UniformImageClass(img: Image, r: real)
    requires WellFormed(img) && PixelCount(img) > 0 && Uniform(img)
    requires 0.0 <= r < 1.0
    ensures var p, res := img.pixels[0], Classify(Extract(img), r);
      res.category == (if (p.b > p.r && p.b > p.g) || p.r + p.g + p.b > 600 then Plastic else Mixed)
      && (res.category == Mixed ==> res.confidence == 0.75)
  {
    var p, f := img.pixels[0], Extract(img);
    UniformFeatures(img);
    assert f.brightness == (p.r as real + p.g as real + p.b as real) / 3.0;
    assert f.brightness > 200.0 <==> p.r + p.g + p.b > 600;
    assert f.isBlue <==> p.b > p.r && p.b > p.g;
    FlatFeaturesClass(f, r);
  }

  /** Features with no texture and no edges fire only the plastic rule. */
  lemma FlatFeaturesClass(f: FeatureVector, r: real)
    requires 0.0 <= r < 1.0
    requires f.meanSquare == 0.0 && f.edgeDensity == 0.0
    ensures Classify(f, r).category == (if f.isBlue || f.brightness > 200.0 then Plastic else Mixed)
  {
    assert !Fires(Paper, f) && !Fires(Glass, f) && !Fires(Metal, f) && !Fires(Electronic, f);
    assert !Fires(Organic, f) && !Fires(Hazardous, f);
  }

  // ---------------------------------------------------------------------
  // analyzeImage
  // ---------------------------------------------------------------------

  /** What the browser delivers for an uploaded image: a load error
      (`onerror`), a canvas without a 2D context, or the decoded buffer. */
  datatype ImageLoad = LoadFailed | NoCanvasContext | Loaded(img: Image)

  /** The low-confidence answer given when the image cannot be analysed. */
  const Fallback: Classification := Classification(Mixed, 0.7, false, Instructions(Mixed))

  /** The classification `analyzeImage` resolves with. None when the
      decoded image has no pixels: `getImageData` then throws and the
      promise never resolves. */
  function AnalyzeImage(load: ImageLoad, r: real): (res: Option<Classification>)
    requires 0.0 <= r < 1.0
    requires load.Loaded? ==> WellFormed(load.img)
    ensures res.None? <==> load.Loaded? && PixelCount(load.img) == 0
    ensures !load.Loaded? ==> res == Some(Fallback)
    ensures res.Some? ==> 0.7 <= res.value.confidence < 0.99
    ensures res.Some? ==> (res.value.recyclable <==> res.value.category in {Plastic, Paper, Glass, Metal})
    ensures res.Some? ==> res.value.instructions == Instructions(res.value.category)
  {
    match load
    case LoadFailed => Some(Fallback)
    case NoCanvasContext => Some(Fallback)
    case Loaded(img) =>
      if PixelCount(img) == 0 then None else Some(Classify(Extract(img), r))
  }
}
