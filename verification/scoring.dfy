/**
 * The score calculator: folds a sparse question-id -> rating map over the
 * catalog into three channel sums, a total, and four rounded percentages
 * against the hard-coded maxima 100 / 33 / 33 / 34.
 */
module Scoring {
  import opened AssessmentData

  /**
   * Ratings keyed by question id. The map may be sparse, may carry keys that
   * are not question ids, and its values are not range-checked.
   */
  type Responses = map<string, int>

  /** The rating recorded for question `id`; an unanswered question counts as 0. */
  function RatingOf(r: Responses, id: string): int
  {
    if id in r then r[id] else 0
  }

  /** Each question's rating under `r`, as a function the channel sums can fold. */
  function Rating(r: Responses): Question -> int
  {
    (q: Question) => RatingOf(r, q.id)
  }

  /** Points scored in channel `c` over the questions `qs`. */
  function ChannelScore(qs: seq<Question>, r: Responses, c: Channel): int
  {
    ChannelSum(qs, c, Rating(r))
  }

  /** Sum of the ratings of all of `qs`, whatever their channel. */
  function RatingTotal(qs: seq<Question>, r: Responses): int
  {
    if |qs| == 0 then 0 else RatingOf(r, qs[0].id) + RatingTotal(qs[1..], r)
  }

  /** Raw channel scores, their total, and the rounded percentages. */
  datatype ScoreBreakdown = ScoreBreakdown(
    totalScore: int,
    websiteScore: int,
    socialScore: int,
    adScore: int,
    percentage: int,
    websitePercentage: int,
    socialPercentage: int,
    adPercentage: int)
  {
    /** The raw score of channel `c`. */
    function Score(c: Channel): int
    {
      match c
      case Website => websiteScore
      case Social => socialScore
      case Ads => adScore
    }

    /** The rounded percentage of channel `c`. */
    function Percentage(c: Channel): int
    {
      match c
      case Website => websitePercentage
      case Social => socialPercentage
      case Ads => adPercentage
    }
  }

  /** The maxima the percentages are taken against; fixed, not read from the catalog. */
  const MaxTotal: int := 100
  const MaxWebsite: int := 33
  const MaxSocial: int := 33
  const MaxAds: int := 34

  /** The hard-coded maximum of channel `c`. */
  function ChannelMax(c: Channel): int
  {
    match c
    case Website => MaxWebsite
    case Social => MaxSocial
    case Ads => MaxAds
  }

  /**
   * `Math.round(s / m * 100)` in exact integer arithmetic. `Math.round(x)` is
   * floor(x + 1/2), so the result p is the integer nearest to 100*s/m, a half
   * rounding up: p - 1/2 <= 100*s/m < p + 1/2 (`RoundPercentNearest`).
   */
  function RoundPercent(s: int, m: int): int
    requires m > 0
  {
    (200 * s + m) / (2 * m)
  }

  /** The rounded percentage is the integer nearest to 100*s/m, a half rounding up. */
  lemma RoundPercentNearest(s: int, m: int)
    requires m > 0
    ensures var p := RoundPercent(s, m); m * (2 * p - 1) <= 200 * s < m * (2 * p + 1)
  {
    var p := RoundPercent(s, m);
    assert 2 * m * p <= 200 * s + m < 2 * m * p + 2 * m;
  }

  /** The channel sums of a question list partition the sum of all its ratings. */
  lemma {:induction false} ChannelScoresPartition(qs: seq<Question>, r: Responses)
    ensures ChannelScore(qs, r, Website) + ChannelScore(qs, r, Social) + ChannelScore(qs, r, Ads)
            == RatingTotal(qs, r)
  {
    if |qs| > 0 {
      ChannelScoresPartition(qs[1..], r);
    }
  }

  /**
   * The breakdown of three channel scores: their total, and each score
   * rounded against its fixed maximum.
   */
  function Breakdown(websiteScore: int, socialScore: int, adScore: int): (b: ScoreBreakdown)
    ensures b.websiteScore == websiteScore && b.socialScore == socialScore && b.adScore == adScore
    ensures b.totalScore == websiteScore + socialScore + adScore
    ensures b.percentage == b.totalScore
    ensures b.websitePercentage == RoundPercent(websiteScore, MaxWebsite)
    ensures b.socialPercentage == RoundPercent(socialScore, MaxSocial)
    ensures b.adPercentage == RoundPercent(adScore, MaxAds)
  {
    var totalScore := websiteScore + socialScore + adScore;
    ScoreBreakdown(
      totalScore,
      websiteScore,
      socialScore,
      adScore,
      RoundPercent(totalScore, MaxTotal),
      RoundPercent(websiteScore, MaxWebsite),
      RoundPercent(socialScore, MaxSocial),
      RoundPercent(adScore, MaxAds))
  }

  /**
   * calculateScores: sum each question's rating (0 when absent, otherwise
   * taken as is) into its channel, total the channels, and round each score
   * against its fixed maximum.
   */
  function CalculateScores(r: Responses): (b: ScoreBreakdown)
    ensures forall c :: b.Score(c) == ChannelScore(Questions, r, c)
    ensures b.totalScore == b.websiteScore + b.socialScore + b.adScore
    ensures b.totalScore == RatingTotal(Questions, r)
    ensures b.percentage == b.totalScore
    ensures b.websitePercentage == RoundPercent(b.websiteScore, MaxWebsite)
    ensures b.socialPercentage == RoundPercent(b.socialScore, MaxSocial)
    ensures b.adPercentage == RoundPercent(b.adScore, MaxAds)
  {
    ChannelScoresPartition(Questions, r);
    Breakdown(ChannelScore(Questions, r, Website), ChannelScore(Questions, r, Social), ChannelScore(Questions, r, Ads))
  }

  /** Each channel percentage is the channel score rounded against the channel's fixed maximum. */
  lemma PercentagesRounded(r: Responses)
    ensures var b := CalculateScores(r);
      forall c :: b.Percentage(c) == RoundPercent(b.Score(c), ChannelMax(c))
  {
    var b := CalculateScores(r);
    forall c: Channel
      ensures b.Percentage(c) == RoundPercent(b.Score(c), ChannelMax(c))
    {
      match c
      case Website =>
      case Social =>
      case Ads =>
    }
  }

  /** The hard-coded maxima agree with the catalog's own per-channel point sums. */
  lemma MaximaMatchCatalog()
    ensures forall c :: ChannelMax(c) == MaxScores(c)
    ensures MaxTotal == TotalMaxScore()
  {
    CatalogMaxScores();
  }

  /** Scaling by a positive factor keeps the order. */
  lemma ScaleMono(m: int, x: int, y: int)
    requires m > 0 && x <= y
    ensures m * x <= m * y
  {
  }

  /** Rounding never reverses the order of two scores. */
  lemma RoundPercentMono(s: int, t: int, m: int)
    requires m > 0 && s <= t
    ensures RoundPercent(s, m) <= RoundPercent(t, m)
  {
    var p, q := RoundPercent(s, m), RoundPercent(t, m);
    RoundPercentNearest(s, m);
    RoundPercentNearest(t, m);
    if p > q {
      ScaleMono(m, 2 * q + 1, 2 * p - 1);
      assert false;
    }
  }

  /** Rounding maps [0, m] onto [0, 100], with 0 and m sent exactly to 0 and 100. */
  lemma RoundPercentRange(s: int, m: int)
    requires m > 0
    ensures RoundPercent(0, m) == 0
    ensures RoundPercent(m, m) == 100
    ensures 0 <= s <= m ==> 0 <= RoundPercent(s, m) <= 100
  {
    var z := RoundPercent(0, m);
    RoundPercentNearest(0, m);
    RoundPercentNearest(m, m);
    if z > 0 {
      ScaleMono(m, 1, 2 * z - 1);
      assert false;
    }
    if z < 0 {
      ScaleMono(m, 2 * z + 1, -1);
      assert false;
    }
    var h := RoundPercent(m, m);
    if h > 100 {
      ScaleMono(m, 201, 2 * h - 1);
      assert false;
    }
    if h < 100 {
      ScaleMono(m, 2 * h + 1, 199);
      assert false;
    }
    if 0 <= s <= m {
      RoundPercentMono(0, s, m);
      RoundPercentMono(s, m, m);
    }
  }

  /**
   * The breakdown reads the responses only through the ratings of catalog
   * questions: an absent key, a key rated 0 and a key that is not a question
   * id are indistinguishable to it.
   */
  lemma ScoresDependOnRatingsOnly(r1: Responses, r2: Responses)
    requires forall i :: 0 <= i < |Questions| ==> RatingOf(r1, Questions[i].id) == RatingOf(r2, Questions[i].id)
    ensures CalculateScores(r1) == CalculateScores(r2)
  {
    forall c: Channel
      ensures ChannelScore(Questions, r1, c) == ChannelScore(Questions, r2, c)
    {
      ChannelSumAgree(Questions, c, Rating(r1), Rating(r2));
    }
  }

  /** Leaving a question unanswered scores exactly like answering it with 0. */
  lemma AbsentCountsAsZero(r: Responses, id: string)
    ensures CalculateScores(r - {id}) == CalculateScores(r[id := 0])
  {
    ScoresDependOnRatingsOnly(r - {id}, r[id := 0]);
  }

  /** Raising ratings never lowers any score or percentage. */
  lemma ScoresMonotone(r1: Responses, r2: Responses)
    requires forall i :: 0 <= i < |Questions| ==> RatingOf(r1, Questions[i].id) <= RatingOf(r2, Questions[i].id)
    ensures var b1, b2 := CalculateScores(r1), CalculateScores(r2);
      && (forall c :: b1.Score(c) <= b2.Score(c) && b1.Percentage(c) <= b2.Percentage(c))
      && b1.totalScore <= b2.totalScore
      && b1.percentage <= b2.percentage
  {
    var b1, b2 := CalculateScores(r1), CalculateScores(r2);
    PercentagesRounded(r1);
    PercentagesRounded(r2);
    forall c: Channel
      ensures b1.Score(c) <= b2.Score(c) && b1.Percentage(c) <= b2.Percentage(c)
    {
      ChannelSumMono(Questions, c, Rating(r1), Rating(r2));
      RoundPercentMono(b1.Score(c), b2.Score(c), ChannelMax(c));
    }
  }

  /**
   * With every rating inside [0, maxScore], each channel score lies between 0
   * and its channel maximum and every percentage lies in [0, 100].
   */
  lemma ScoresInRange(r: Responses)
    requires forall i :: 0 <= i < |Questions| ==> 0 <= RatingOf(r, Questions[i].id) <= Questions[i].maxScore
    ensures var b := CalculateScores(r);
      && (forall c :: 0 <= b.Score(c) <= ChannelMax(c) && 0 <= b.Percentage(c) <= 100)
      && 0 <= b.totalScore <= MaxTotal
      && 0 <= b.percentage <= 100
  {
    var b := CalculateScores(r);
    PercentagesRounded(r);
    MaximaMatchCatalog();
    var zero := (q: Question) => 0;
    forall c: Channel
      ensures 0 <= b.Score(c) <= ChannelMax(c) && 0 <= b.Percentage(c) <= 100
    {
      ChannelSumZero(Questions, c, zero);
      ChannelSumMono(Questions, c, zero, Rating(r));
      ChannelSumMono(Questions, c, Rating(r), MaxScoreOf);
      RoundPercentRange(b.Score(c), ChannelMax(c));
    }
  }

  /** Answering every question at its maximum fills every channel. */
  lemma AllMaxChannels(r: Responses)
    requires forall i :: 0 <= i < |Questions| ==> RatingOf(r, Questions[i].id) == Questions[i].maxScore
    ensures forall c :: ChannelScore(Questions, r, c) == ChannelMax(c)
  {
    forall c: Channel
      ensures ChannelScore(Questions, r, c) == MaxScores(c)
    {
      ChannelSumAgree(Questions, c, Rating(r), MaxScoreOf);
    }
    MaximaMatchCatalog();
  }

  /** Answering every question at its maximum scores 100 overall and 100% in every channel. */
  lemma AllMaxScores(r: Responses)
    requires forall i :: 0 <= i < |Questions| ==> RatingOf(r, Questions[i].id) == Questions[i].maxScore
    ensures CalculateScores(r) == ScoreBreakdown(100, MaxWebsite, MaxSocial, MaxAds, 100, 100, 100, 100)
  {
    AllMaxChannels(r);
    ScoresOfChannels(r, MaxWebsite, MaxSocial, MaxAds);
    FullBreakdown();
  }

  /** The channel maxima make a full breakdown. */
  lemma FullBreakdown()
    ensures Breakdown(MaxWebsite, MaxSocial, MaxAds) == ScoreBreakdown(100, MaxWebsite, MaxSocial, MaxAds, 100, 100, 100, 100)
  {
    RoundPercentRange(0, MaxWebsite);
    RoundPercentRange(0, MaxAds);
    RoundPercentRange(0, MaxTotal);
  }

  /** The breakdown is determined by the three channel scores. */
  lemma ScoresOfChannels(r: Responses, websiteScore: int, socialScore: int, adScore: int)
    requires ChannelScore(Questions, r, Website) == websiteScore
    requires ChannelScore(Questions, r, Social) == socialScore
    requires ChannelScore(Questions, r, Ads) == adScore
    ensures CalculateScores(r) == Breakdown(websiteScore, socialScore, adScore)
  {
  }

  /** No rating counts as zero in every channel. */
  lemma NoRatingsChannels()
    ensures forall c :: ChannelScore(Questions, map[], c) == 0
  {
    forall c: Channel
      ensures ChannelScore(Questions, map[], c) == 0
    {
      ChannelSumZero(Questions, c, Rating(map[]));
    }
  }

  /** An empty response map scores zero everywhere. */
  lemma EmptyScores()
    ensures CalculateScores(map[]) == ScoreBreakdown(0, 0, 0, 0, 0, 0, 0, 0)
  {
    NoRatingsChannels();
    ScoresOfChannels(map[], 0, 0, 0);
    RoundPercentRange(0, MaxWebsite);
    RoundPercentRange(0, MaxAds);
  }
}
