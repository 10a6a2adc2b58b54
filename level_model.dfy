/**
 * LevelModel.swift: the decoded description of one level and its rating
 * thresholds.  `getRating` compares the elapsed time with each threshold in
 * the fixed order triple, double, single; nothing requires the thresholds to
 * be ordered, and a negative time (a clock anomaly) earns three stars.
 */
module LevelModels {
  import opened Geometry
  import opened Ratings
  import opened Configs

  datatype RatingOptions = RatingOptions(single: real, double: real, triple: real) {

    /** `getRating(for:)`: the first threshold the time does not exceed decides. */
    function GetRating(time: real): (r: Rating) {
      if time <= triple then Triple
      else if time <= double then Double
      else if time <= single then Single
      else Empty
    }

    /** The thresholds are in the order their names suggest. */
    predicate Ordered() {
      triple <= double <= single
    }
  }

  /** `RatingOptions.empty`: every threshold is -1. */
  const EmptyRatingOptions := RatingOptions(-1.0, -1.0, -1.0)

  datatype BodyConfig = BodyConfig(rect: Rect)
  datatype ArrowConfig = ArrowConfig(position: Point, isReversed: bool, isAlternative: bool)
  datatype RainbowConfig = RainbowConfig(position: Point, rotation: real)

  datatype LevelNodeStructure = LevelNodeStructure(
    overlayPath: string, physicsBorderPath: string, levelRect: Rect,
    startPosition: Point, isStartReversed: bool,
    finishPosition: Point, isFinishReversed: bool)

  /** `LevelNodeStructure.empty`: empty paths, zero geometry, nothing reversed. */
  const EmptyLayout := LevelNodeStructure("", "", Rect(Zero, Size(0.0, 0.0)), Zero, false, Zero, false)

  datatype LevelModel = LevelModel(
    levelNum: int, layoutStructure: LevelNodeStructure, ratingOptions: RatingOptions,
    switches: seq<SwitchConfig>, bridges: seq<BridgeConfig>, physicsBodys: seq<BodyConfig>,
    arrows: seq<ArrowConfig>, rainbows: seq<RainbowConfig>)

  /** `LevelModel.empty`, the model a GameScene gets from its required initializer. */
  const EmptyLevel := LevelModel(-1, EmptyLayout, EmptyRatingOptions, [], [], [], [], [])

  /** The number of thresholds, among the three, that `time` does not exceed. */
  function ThresholdsMet(o: RatingOptions, time: real): (n: nat)
    ensures n <= 3
  {
    (if time <= o.triple then 1 else 0) + (if time <= o.double then 1 else 0)
      + (if time <= o.single then 1 else 0)
  }

  /** Each rating is given exactly on its band of times, boundaries included. */
  lemma RatingBands(o: RatingOptions, t: real)
    ensures o.GetRating(t) == Triple <==> t <= o.triple
    ensures o.GetRating(t) == Double <==> o.triple < t <= o.double
    ensures o.GetRating(t) == Single <==> o.triple < t && o.double < t && t <= o.single
    ensures o.GetRating(t) == Empty <==> o.triple < t && o.double < t && o.single < t
  {
  }

  /** With ordered thresholds, the stars earned are the number of thresholds met. */
  lemma RatingCountsThresholds(o: RatingOptions, t: real)
    requires o.Ordered()
    ensures o.GetRating(t).RawValue() == ThresholdsMet(o, t)
  {
  }

  /** With ordered thresholds, taking longer never earns more stars. */
  lemma RatingMonotone(o: RatingOptions, t1: real, t2: real)
    requires o.Ordered() && t1 <= t2
    ensures o.GetRating(t2).RawValue() <= o.GetRating(t1).RawValue()
  {
    RatingCountsThresholds(o, t1);
    RatingCountsThresholds(o, t2);
  }

  /** The empty thresholds give no star for any time above -1, hence for every non-negative time. */
  lemma EmptyOptionsGiveNoStars(t: real)
    requires t > -1.0
    ensures EmptyRatingOptions.GetRating(t) == Empty
  {
  }

  /** A negative elapsed time earns three stars whenever the triple threshold is not negative. */
  lemma NegativeTimeEarnsTriple(o: RatingOptions, t: real)
    requires t < 0.0 && 0.0 <= o.triple
    ensures o.GetRating(t) == Triple
  {
  }

  /** The worked example: thresholds 30 / 20 / 10 seconds. */
  lemma RatingExample()
    ensures RatingOptions(30.0, 20.0, 10.0).GetRating(15.0) == Double
    ensures RatingOptions(30.0, 20.0, 10.0).GetRating(31.0) == Empty
    ensures RatingOptions(30.0, 20.0, 10.0).GetRating(10.0) == Triple
  {
  }

  /** `LevelModel.empty` has level number -1 and no switches, bridges, bodies, arrows or rainbows. */
  lemma EmptyLevelIsEmpty()
    ensures EmptyLevel.levelNum == -1
    ensures EmptyLevel.switches == [] && EmptyLevel.bridges == [] && EmptyLevel.physicsBodys == []
    ensures EmptyLevel.arrows == [] && EmptyLevel.rainbows == []
    ensures EmptyLevel.ratingOptions == EmptyRatingOptions
  {
  }
}
