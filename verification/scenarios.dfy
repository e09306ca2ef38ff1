/**
 * Worked examples of the engine on the real catalog: the empty questionnaire,
 * an input where the cut to six bites, and the rounding example 17/33.
 */
module Scenarios {
  import opened AssessmentData
  import opened Scoring
  import opened Ranking
  import opened Recommendations
  import opened Wrappers

  /** A website score of 17 out of 33 is 51.5..% and shows as 52. */
  lemma RoundSeventeenOfThirtyThree()
    ensures RoundPercent(17, MaxWebsite) == 52
  {
  }

  /**
   * Moving `x` in front of entries that all have other gaps leaves every
   * per-gap selection as it was.
   */
  lemma WithGapMoveFront(a: seq<Weak>, x: Weak, b: seq<Weak>, g: int)
    requires forall i :: 0 <= i < |a| ==> a[i].gap != x.gap
    ensures WithGap([x] + a + b, g) == WithGap(a + [x] + b, g)
  {
    WithGapAppend(a + [x], b, g);
    WithGapAppend([x] + a, b, g);
    WithGapSwapFront(a, x, g);
  }

  /** Moving `x` past entries that all have other gaps leaves every per-gap selection as it was. */
  lemma WithGapSwapFront(a: seq<Weak>, x: Weak, g: int)
    requires forall i :: 0 <= i < |a| ==> a[i].gap != x.gap
    ensures WithGap([x] + a, g) == WithGap(a + [x], g)
  {
    WithGapAppend(a, [x], g);
    WithGapAppend([x], a, g);
    assert WithGap([x], g) == if g == x.gap then [x] else [];
    if g == x.gap {
      WithGapAbsent(a, g);
    }
  }

  /** Entries `a`, then `x`, then `b`, where every entry of `a` and `b` has gap `k`. */
  predicate OneAbove(a: seq<Weak>, x: Weak, b: seq<Weak>, k: int)
  {
    && x.gap > k
    && (forall i :: 0 <= i < |a| ==> a[i].gap == k)
    && (forall i :: 0 <= i < |b| ==> b[i].gap == k)
  }

  /** Sorting entries that all share one gap except a single bigger one moves that entry to the front and keeps the rest in order. */
  lemma SortOneAbove(a: seq<Weak>, x: Weak, b: seq<Weak>, k: int)
    requires OneAbove(a, x, b, k)
    ensures SortByGap(a + [x] + b) == [x] + a + b
  {
    var t := [x] + a + b;
    assert NonIncreasing(t) by {
      assert forall i :: 0 <= i < |a + b| ==> (a + b)[i].gap == k by {
        forall i | 0 <= i < |a + b|
          ensures (a + b)[i].gap == k
        {
          if i >= |a| {
            assert (a + b)[i] == b[i - |a|];
          }
        }
      }
      HeadThenFlat(x, a + b, k);
      assert t == [x] + (a + b);
    }
    forall g: int
      ensures WithGap(t, g) == WithGap(a + [x] + b, g)
    {
      WithGapMoveFront(a, x, b, g);
    }
    SortByGapIsTheStableSort(a + [x] + b, t);
  }

  /** The 33 entries split around position 30 into a single gap-4 entry between gap-3 runs. */
  lemma SplitAtThirty(e: seq<Weak>)
    requires |e| == 33
    requires forall i :: 0 <= i < |e| ==> e[i].gap == (if i == 30 then 4 else 3)
    ensures OneAbove(e[..30], e[30], e[31..], 3)
    ensures e == e[..30] + [e[30]] + e[31..]
  {
    var a, b := e[..30], e[31..];
    forall i | 0 <= i < |a|
      ensures a[i].gap == 3
    {
      assert a[i] == e[i];
    }
    forall i | 0 <= i < |b|
      ensures b[i].gap == 3
    {
      assert b[i] == e[i + 31];
    }
    assert e == a + [e[30]] + b;
  }

  /** A list is gap-sorted when a head of gap above `k` is followed by entries all of gap `k`. */
  lemma HeadThenFlat(x: Weak, rest: seq<Weak>, k: int)
    requires x.gap >= k
    requires forall i :: 0 <= i < |rest| ==> rest[i].gap == k
    ensures NonIncreasing([x] + rest)
  {
    var t := [x] + rest;
    forall i, j | 0 <= i < j < |t|
      ensures t[i].gap >= t[j].gap
    {
      assert t[j] == rest[j - 1];
      if i > 0 {
        assert t[i] == rest[i - 1];
      }
    }
  }

  /** With every gap significant, the ranking is the first ten of `x` followed by `a` and `b`. */
  lemma RankOneAbove(a: seq<Weak>, x: Weak, b: seq<Weak>, k: int)
    requires OneAbove(a, x, b, k) && k >= MinGap
    ensures TopOf(a + [x] + b) == Take([x] + a + b, TopCount)
  {
    var e := a + [x] + b;
    forall i | 0 <= i < |e|
      ensures e[i].gap >= MinGap
    {
      if i < |a| {
        assert e[i] == a[i];
      } else if i > |a| {
        assert e[i] == b[i - |a| - 1];
      }
    }
    SignificantKeepsAll(e);
    SortOneAbove(a, x, b, k);
  }

  /**
   * Ranking 33 entries whose gaps are all 3 except a 4 at position 30: that
   * entry comes first, followed by the first nine entries.
   */
  lemma RankingWithOneBiggerGap(e: seq<Weak>)
    requires |e| == 33
    requires forall i :: 0 <= i < |e| ==> e[i].gap == (if i == 30 then 4 else 3)
    ensures TopOf(e) == [e[30]] + e[..9]
  {
    SplitAtThirty(e);
    RankOneAbove(e[..30], e[30], e[31..], 3);
    TakeFront(e[30], e[..30], e[31..], 9);
    assert e[..30][..9] == e[..9];
  }

  /** Cutting `[x] + a + b` to `n + 1` entries, with `n` within `a`, keeps `x` and the first `n` of `a`. */
  lemma TakeFront(x: Weak, a: seq<Weak>, b: seq<Weak>, n: nat)
    requires n <= |a|
    ensures Take([x] + a + b, n + 1) == [x] + a[..n]
  {
    var t := [x] + a + b;
    assert forall i :: 0 <= i < n + 1 ==> t[..n + 1][i] == ([x] + a[..n])[i] by {
      forall i | 0 <= i < n + 1
        ensures t[..n + 1][i] == ([x] + a[..n])[i]
      {
        if i > 0 {
          assert t[i] == a[i - 1];
        }
      }
    }
  }

  /** No catalog question carries a nonzero rating: each is unanswered or answered 0. */
  predicate NothingScored(r: Responses)
  {
    forall i :: 0 <= i < |Questions| ==> RatingOf(r, Questions[i].id) == 0
  }

  /** The annotated catalog when nothing is scored: every rating 0, every gap the full maximum. */
  lemma UnscoredAnnotation(r: Responses)
    requires NothingScored(r)
    ensures var e := Annotate(Questions, r);
      && |e| == 33
      && (forall i :: 0 <= i < |e| ==> e[i] == Weak(Questions[i], 0, Questions[i].maxScore))
      && (forall i :: 0 <= i < |e| ==> e[i].gap == (if i == 30 then 4 else 3))
  {
    CatalogShape();
  }

  /** When nothing is scored the ranked opportunities are `ads_landing_friction` and then the first nine website questions. */
  lemma UnscoredRanking(r: Responses)
    requires NothingScored(r)
    ensures var e := Annotate(Questions, r);
      WeakQuestions(Questions, r) == [e[30]] + e[..9]
  {
    UnscoredAnnotation(r);
    RankingWithOneBiggerGap(Annotate(Questions, r));
  }

  /**
   * In a ranking made of entry 30 (an ads question) followed by entries 0..8
   * (website questions), the first website entry is entry 0, the first ads
   * entry is entry 30, and there is no social entry.
   */
  lemma FirstsOfRanking(e: seq<Weak>, top: seq<Weak>)
    requires |e| == 33 && top == [e[30]] + e[..9]
    requires forall i :: 0 <= i < |e| ==>
      e[i].question.channel == (if i < 11 then Website else if i < 22 then Social else Ads)
    ensures FirstOfChannel(top, Website) == Some(e[0])
    ensures FirstOfChannel(top, Social) == None
    ensures FirstOfChannel(top, Ads) == Some(e[30])
  {
    assert forall i :: 1 <= i < |top| ==> top[i] == e[i - 1];
    FirstOfChannelAt(top, Website, 1);
    FirstOfChannelAt(top, Ads, 0);
  }

  /** The channel of every catalog entry, read through the annotation. */
  lemma AnnotatedChannels(r: Responses)
    ensures var e := Annotate(Questions, r);
      forall i :: 0 <= i < |e| ==>
        e[i].question.channel == (if i < 11 then Website else if i < 22 then Social else Ads)
  {
    CatalogShape();
  }

  /** Nothing scored scores zero everywhere. */
  lemma UnscoredScores(r: Responses)
    requires NothingScored(r)
    ensures CalculateScores(r) == ScoreBreakdown(0, 0, 0, 0, 0, 0, 0, 0)
  {
    ScoresDependOnRatingsOnly(r, map[]);
    EmptyScores();
  }

  /**
   * With every score zero and the channel lookups as given, the cut assembly
   * is the website and ads tactical items, the foundation item and the three
   * boosters, in that order.
   */
  lemma ZeroScoreAssembly(top: seq<Weak>, w: Weak, a: Weak)
    requires FirstOfChannel(top, Website) == Some(w)
    requires FirstOfChannel(top, Social) == None
    requires FirstOfChannel(top, Ads) == Some(a)
    ensures Take(Assemble(top, ScoreBreakdown(0, 0, 0, 0, 0, 0, 0, 0)), MaxRecommendations)
            == [Tactical(Website, w), Tactical(Ads, a), Foundation, Booster(Website), Booster(Social), Booster(Ads)]
  {
    ZeroScoreSteps(top, w, a);
    ZeroStepsItems(w, a);
  }

  /** Those step outputs list six items, the social tactical slot being empty. */
  lemma ZeroStepsItems(w: Weak, a: Weak)
    ensures Steps(Some(Tactical(Website, w)), None, Some(Tactical(Ads, a)), Some(Foundation),
                  Some(Booster(Website)), Some(Booster(Social)), Some(Booster(Ads))).Items()
            == [Tactical(Website, w), Tactical(Ads, a), Foundation, Booster(Website), Booster(Social), Booster(Ads)]
  {
  }

  /** The step outputs for an all-zero breakdown: every step but the social tactical one fires, the strategic one with the foundation item. */
  lemma ZeroScoreSteps(top: seq<Weak>, w: Weak, a: Weak)
    requires FirstOfChannel(top, Website) == Some(w)
    requires FirstOfChannel(top, Social) == None
    requires FirstOfChannel(top, Ads) == Some(a)
    ensures StepsFor(top, ScoreBreakdown(0, 0, 0, 0, 0, 0, 0, 0))
            == Steps(Some(Tactical(Website, w)), None, Some(Tactical(Ads, a)), Some(Foundation),
                     Some(Booster(Website)), Some(Booster(Social)), Some(Booster(Ads)))
  {
  }

  /**
   * The empty questionnaire, or one answered all 0, whose breakdown is all
   * zeros (`UnscoredScores`): exactly six recommendations, namely the website
   * tactical item for its first question, the ads tactical item for
   * `ads_landing_friction`, the foundation item and all three boosters. No
   * social question survives the top-ten cut, so there is no social tactical
   * item.
   */
  lemma UnscoredRecommendations(r: Responses)
    requires NothingScored(r)
    ensures var e := Annotate(Questions, r);
      |e| == 33 &&
      GenerateRecommendations(r, ScoreBreakdown(0, 0, 0, 0, 0, 0, 0, 0))
      == [Tactical(Website, e[0]), Tactical(Ads, e[30]), Foundation, Booster(Website), Booster(Social), Booster(Ads)]
  {
    var e := Annotate(Questions, r);
    UnscoredFirsts(r);
    ZeroScoreAssembly(WeakQuestions(Questions, r), e[0], e[30]);
  }

  /** The first ranked entry of each channel when nothing is scored. */
  lemma UnscoredFirsts(r: Responses)
    requires NothingScored(r)
    ensures var e, top := Annotate(Questions, r), WeakQuestions(Questions, r);
      && |e| == 33
      && FirstOfChannel(top, Website) == Some(e[0])
      && FirstOfChannel(top, Social) == None
      && FirstOfChannel(top, Ads) == Some(e[30])
  {
    UnscoredAnnotation(r);
    UnscoredRanking(r);
    AnnotatedChannels(r);
    FirstsOfRanking(Annotate(Questions, r), WeakQuestions(Questions, r));
  }

  /**
   * The two tactical items of the unscored questionnaire name "Social Proof"
   * and "Landing Page", both with high impact.
   */
  lemma UnscoredTacticalItems(r: Responses)
    requires NothingScored(r)
    ensures var e := Annotate(Questions, r);
      && |e| == 33
      && e[0].question.id == "web_social_proof"
      && e[30].question.id == "ads_landing_friction"
      && Tactical(Website, e[0]).title == "Enhance Social Proof on Website"
      && Tactical(Website, e[0]).impact == High
      && Tactical(Ads, e[30]).title == "Optimize Landing Page in Advertising"
      && Tactical(Ads, e[30]).impact == High
  {
    var e := Annotate(Questions, r);
    UnscoredAnnotation(r);
    TacticalCategories();
    SocialProofTitle(e[0]);
    LandingPageTitle(e[30]);
  }

  /** The website tactical item for a "Social Proof" question with a gap of 3 or more. */
  lemma SocialProofTitle(w: Weak)
    requires w.question.category == "Social Proof" && w.gap >= 3
    ensures Tactical(Website, w).title == "Enhance Social Proof on Website"
    ensures Tactical(Website, w).impact == High
  {
  }

  /** The ads tactical item for a "Landing Page" question with a gap of 3 or more. */
  lemma LandingPageTitle(w: Weak)
    requires w.question.category == "Landing Page" && w.gap >= 3
    ensures Tactical(Ads, w).title == "Optimize Landing Page in Advertising"
    ensures Tactical(Ads, w).impact == High
  {
  }

  /** The first website question and the ads landing question, as the catalog lists them. */
  lemma TacticalCategories()
    ensures Questions[0].id == "web_social_proof" && Questions[0].category == "Social Proof"
    ensures Questions[30].id == "ads_landing_friction" && Questions[30].category == "Landing Page"
  {
  }

  /** The empty response map scores nothing. */
  lemma EmptyIsUnscored()
    ensures NothingScored(map[])
  {
  }

  /**
   * The rating of catalog position `i` in an input where the cut to six
   * bites: the first two questions of each channel at 0,
   * `ads_landing_friction` (position 30) at 3, every other question at 2.
   */
  function CapRating(i: int): int
  {
    if LeadingPair(i) then 0 else if i == 30 then 3 else 2
  }

  /** Position `i` is one of the first two of its channel's block. */
  predicate LeadingPair(i: int)
  {
    i < 2 || 11 <= i < 13 || 22 <= i < 24
  }

  /** Gap 3 at the leading pair of each block of eleven, gap 1 elsewhere. */
  predicate LeadingLayout(e: seq<Weak>)
  {
    |e| == 33 && forall i :: 0 <= i < |e| ==> e[i].gap == (if LeadingPair(i) then 3 else 1)
  }

  /** Every catalog position `i` carries the rating `rating(i)`. */
  predicate RatedBy(r: Responses, rating: int -> int)
  {
    forall i :: 0 <= i < |Questions| ==> RatingOf(r, Questions[i].id) == rating(i)
  }

  /** Every catalog question is rated as `CapRating` says. */
  predicate CapInput(r: Responses)
  {
    RatedBy(r, CapRating)
  }

  /** The sum of a list of ratings. */
  function Total(xs: seq<int>): int
  {
    if |xs| == 0 then 0 else xs[0] + Total(xs[1..])
  }

  /** A channel sum over questions of that channel is the plain sum of their values. */
  lemma {:induction false} ChannelSumOfValues(qs: seq<Question>, c: Channel, f: Question -> int, vals: seq<int>)
    requires |vals| == |qs|
    requires forall i :: 0 <= i < |qs| ==> qs[i].channel == c && f(qs[i]) == vals[i]
    ensures ChannelSum(qs, c, f) == Total(vals)
  {
    if |qs| > 0 {
      ChannelSumOfValues(qs[1..], c, f, vals[1..]);
    }
  }

  /** The ratings `CapRating` gives a channel's block, in catalog order. */
  function CapBlockRatings(c: Channel): seq<int>
  {
    match c
    case Website => [0, 0, 2, 2, 2, 2, 2, 2, 2, 2, 2]
    case Social => [0, 0, 2, 2, 2, 2, 2, 2, 2, 2, 2]
    case Ads => [0, 0, 2, 2, 2, 2, 2, 2, 3, 2, 2]
  }

  /** `CapBlockRatings` lists `CapRating` over the block's catalog positions. */
  lemma CapBlockRatingsAgree(c: Channel)
    ensures |CapBlockRatings(c)| == 11
    ensures forall i :: 0 <= i < 11 ==> CapBlockRatings(c)[i] == CapRating(BlockStart(c) + i)
  {
  }

  /**
   * A channel's score is the plain sum of the ratings its block of eleven
   * receives, listed in catalog order as `vals`.
   */
  lemma BlockScore(r: Responses, rating: int -> int, c: Channel, vals: seq<int>)
    requires RatedBy(r, rating)
    requires |vals| == 11 && forall i :: 0 <= i < 11 ==> vals[i] == rating(BlockStart(c) + i)
    ensures ChannelScore(Questions, r, c) == Total(vals)
  {
    BlockValues(r, rating, c, vals);
    ChannelSumOfValues(Block(c), c, Rating(r), vals);
    CatalogSumOfChannel(c, Rating(r));
  }

  /** The ratings a channel's block receives, question by question. */
  lemma BlockValues(r: Responses, rating: int -> int, c: Channel, vals: seq<int>)
    requires RatedBy(r, rating)
    requires |vals| == 11 && forall i :: 0 <= i < 11 ==> vals[i] == rating(BlockStart(c) + i)
    ensures |Block(c)| == 11
    ensures forall i :: 0 <= i < |Block(c)| ==> Block(c)[i].channel == c && Rating(r)(Block(c)[i]) == vals[i]
  {
    BlockInCatalog(c);
    BlockChannels(c);
    var blk := Block(c);
    forall i | 0 <= i < |blk|
      ensures blk[i].channel == c && Rating(r)(blk[i]) == vals[i]
    {
      var k := BlockStart(c) + i;
      assert blk[i] == Questions[k];
      assert RatingOf(r, Questions[k].id) == rating(k);
    }
  }

  /** The channel scores of the capped input: 18, 18 and 19. */
  lemma CapChannelScore(r: Responses, c: Channel)
    requires CapInput(r)
    ensures ChannelScore(Questions, r, c) == Total(CapBlockRatings(c))
  {
    CapBlockRatingsAgree(c);
    BlockScore(r, CapRating, c, CapBlockRatings(c));
  }

  /**
   * The breakdown of the capped input: scores 18 / 18 / 19, total 55, and
   * percentages 55 overall, 55 / 55 / 56 per channel.
   */
  lemma CapScores(r: Responses)
    requires CapInput(r)
    ensures CalculateScores(r) == ScoreBreakdown(55, 18, 18, 19, 55, 55, 55, 56)
  {
    CapChannelScore(r, Website);
    CapChannelScore(r, Social);
    CapChannelScore(r, Ads);
    CapTotals();
    ScoresOfChannels(r, 18, 18, 19);
    CapBreakdownOf();
  }

  /** The block sums of the capped ratings. */
  lemma CapTotals()
    ensures Total(CapBlockRatings(Website)) == 18
    ensures Total(CapBlockRatings(Social)) == 18
    ensures Total(CapBlockRatings(Ads)) == 19
  {
    CapWebsiteTotal();
    CapSocialTotal();
    CapAdsTotal();
  }

  /** The capped website ratings sum to 18. */
  lemma CapWebsiteTotal()
    ensures Total(CapBlockRatings(Website)) == 18
  {
  }

  /** The capped social ratings sum to 18. */
  lemma CapSocialTotal()
    ensures Total(CapBlockRatings(Social)) == 18
  {
  }

  /** The capped ads ratings sum to 19. */
  lemma CapAdsTotal()
    ensures Total(CapBlockRatings(Ads)) == 19
  {
  }

  /** 55 of 100 is 55%, 18 of 33 rounds to 55%, 19 of 34 rounds to 56%. */
  lemma CapPercentages()
    ensures RoundPercent(55, MaxTotal) == 55
    ensures RoundPercent(18, MaxWebsite) == 55
    ensures RoundPercent(18, MaxSocial) == 55
    ensures RoundPercent(19, MaxAds) == 56
  {
  }

  /** The breakdown assembled from the capped scores. */
  lemma CapBreakdownOf()
    ensures Breakdown(18, 18, 19) == ScoreBreakdown(55, 18, 18, 19, 55, 55, 55, 56)
  {
    CapPercentages();
  }

  /** The annotated catalog of the capped input: gap 3 for the first two questions of each channel, gap 1 elsewhere. */
  lemma CapAnnotation(r: Responses)
    requires CapInput(r)
    ensures var e := Annotate(Questions, r);
      LeadingLayout(e)
  {
    CatalogShape();
  }

  /** Filtering a block of eleven whose first two entries alone qualify keeps those two. */
  lemma SignificantOfBlock(blk: seq<Weak>)
    requires |blk| == 11
    requires forall i :: 0 <= i < |blk| ==> (blk[i].gap >= MinGap <==> i < 2)
    ensures Significant(blk) == blk[..2]
  {
    assert blk == blk[..2] + blk[2..];
    SignificantAppend(blk[..2], blk[2..]);
    SignificantKeepsAll(blk[..2]);
    SignificantDropsAll(blk[2..]);
  }

  /**
   * Ranking 33 entries with gap 3 at the first two positions of each block of
   * eleven and gap 1 elsewhere keeps exactly those six, in catalog order.
   */
  lemma RankingOfLeadingPairs(e: seq<Weak>)
    requires LeadingLayout(e)
    ensures TopOf(e) == [e[0], e[1], e[11], e[12], e[22], e[23]]
  {
    var six := [e[0], e[1], e[11], e[12], e[22], e[23]];
    LeadingPairsFilter(e);
    LeadingGaps(e);
    RankingOfFlat(six, 3);
    assert TopOf(e) == Take(SortByGap(six), TopCount);
  }

  /** The filter keeps the six leading-pair entries. */
  lemma LeadingPairsFilter(e: seq<Weak>)
    requires LeadingLayout(e)
    ensures Significant(e) == [e[0], e[1], e[11], e[12], e[22], e[23]]
  {
    SignificantOfSlice(e, 0);
    SignificantOfSlice(e, 11);
    SignificantOfSlice(e, 22);
    JoinFiltered(e);
  }

  /** The six leading-pair entries all have gap 3. */
  lemma LeadingGaps(e: seq<Weak>)
    requires LeadingLayout(e)
    ensures forall i :: 0 <= i < 6 ==> [e[0], e[1], e[11], e[12], e[22], e[23]][i].gap == 3
  {
    assert e[0].gap == 3 && e[1].gap == 3 && e[11].gap == 3 && e[12].gap == 3 && e[22].gap == 3 && e[23].gap == 3;
  }

  /** When each block of eleven filters down to its first two entries, the whole list filters down to those six. */
  lemma JoinFiltered(e: seq<Weak>)
    requires |e| == 33
    requires Significant(e[0..11]) == [e[0], e[1]]
    requires Significant(e[11..22]) == [e[11], e[12]]
    requires Significant(e[22..33]) == [e[22], e[23]]
    ensures Significant(e) == [e[0], e[1], e[11], e[12], e[22], e[23]]
  {
    var w, s, a := e[0..11], e[11..22], e[22..33];
    SplitThree(e);
    SignificantAppend(w + s, a);
    SignificantAppend(w, s);
    PairsJoin(e[0], e[1], e[11], e[12], e[22], e[23]);
  }

  /** A list of 33 is its three blocks of eleven laid end to end. */
  lemma SplitThree(e: seq<Weak>)
    requires |e| == 33
    ensures e == e[0..11] + e[11..22] + e[22..33]
  {
  }

  /** Three pairs laid end to end. */
  lemma PairsJoin(x1: Weak, x2: Weak, x3: Weak, x4: Weak, x5: Weak, x6: Weak)
    ensures [x1, x2] + [x3, x4] + [x5, x6] == [x1, x2, x3, x4, x5, x6]
  {
  }

  /** Up to ten significant entries of one common gap rank as they stand. */
  lemma RankingOfFlat(ws: seq<Weak>, k: int)
    requires |ws| <= TopCount && k >= MinGap
    requires forall i :: 0 <= i < |ws| ==> ws[i].gap == k
    ensures Take(SortByGap(ws), TopCount) == ws
  {
    FlatIsSorted(ws, k);
    SortByGapKeepsSorted(ws);
  }

  /** Entries of one common gap are gap-sorted in any order. */
  lemma FlatIsSorted(ws: seq<Weak>, k: int)
    requires forall i :: 0 <= i < |ws| ==> ws[i].gap == k
    ensures NonIncreasing(ws)
  {
  }

  /** One block of the leading-pairs layout filters down to its first two entries. */
  lemma SignificantOfSlice(e: seq<Weak>, k: nat)
    requires LeadingLayout(e) && (k == 0 || k == 11 || k == 22)
    ensures Significant(e[k..k + 11]) == [e[k], e[k + 1]]
  {
    var blk := e[k..k + 11];
    forall i | 0 <= i < |blk|
      ensures blk[i].gap >= MinGap <==> i < 2
    {
      assert blk[i] == e[k + i];
    }
    SignificantOfBlock(blk);
    assert blk[..2] == [e[k], e[k + 1]];
  }

  /** The ranked opportunities of the capped input: the first two questions of each channel. */
  lemma CapRanking(r: Responses)
    requires CapInput(r)
    ensures var e := Annotate(Questions, r);
      |e| == 33 && WeakQuestions(Questions, r) == [e[0], e[1], e[11], e[12], e[22], e[23]]
  {
    CapAnnotation(r);
    RankingOfLeadingPairs(Annotate(Questions, r));
  }

  /** The first ranked entry of each channel for the capped input. */
  lemma CapFirsts(r: Responses)
    requires CapInput(r)
    ensures var e, top := Annotate(Questions, r), WeakQuestions(Questions, r);
      && |e| == 33
      && FirstOfChannel(top, Website) == Some(e[0])
      && FirstOfChannel(top, Social) == Some(e[11])
      && FirstOfChannel(top, Ads) == Some(e[22])
  {
    CapRanking(r);
    AnnotatedChannels(r);
    FirstsOfPairs(Annotate(Questions, r), WeakQuestions(Questions, r));
  }

  /** In the ranking of leading pairs, each channel's first entry is the first of its pair. */
  lemma FirstsOfPairs(e: seq<Weak>, top: seq<Weak>)
    requires |e| == 33 && top == [e[0], e[1], e[11], e[12], e[22], e[23]]
    requires forall i :: 0 <= i < |e| ==>
      e[i].question.channel == (if i < 11 then Website else if i < 22 then Social else Ads)
    ensures FirstOfChannel(top, Website) == Some(e[0])
    ensures FirstOfChannel(top, Social) == Some(e[11])
    ensures FirstOfChannel(top, Ads) == Some(e[22])
  {
    assert top[0] == e[0] && top[1] == e[1] && top[2] == e[11] && top[3] == e[12] && top[4] == e[22];
    FirstOfChannelAt(top, Website, 0);
    FirstOfChannelAt(top, Social, 2);
    FirstOfChannelAt(top, Ads, 4);
  }

  /** The breakdown of the capped input, as `CapScores` computes it. */
  const CapBreakdown: ScoreBreakdown := ScoreBreakdown(55, 18, 18, 19, 55, 55, 55, 56)

  /**
   * With the capped breakdown every step fires: three tactical items, the
   * consistency item and three boosters, seven in all; the cut keeps the
   * first six.
   */
  lemma CapAssembly(top: seq<Weak>, w: Weak, s: Weak, a: Weak)
    requires FirstOfChannel(top, Website) == Some(w)
    requires FirstOfChannel(top, Social) == Some(s)
    requires FirstOfChannel(top, Ads) == Some(a)
    ensures Assemble(top, CapBreakdown)
            == [Tactical(Website, w), Tactical(Social, s), Tactical(Ads, a), Consistency,
                Booster(Website), Booster(Social), Booster(Ads)]
    ensures Take(Assemble(top, CapBreakdown), MaxRecommendations)
            == [Tactical(Website, w), Tactical(Social, s), Tactical(Ads, a), Consistency,
                Booster(Website), Booster(Social)]
    ensures Booster(Ads) !in Take(Assemble(top, CapBreakdown), MaxRecommendations)
  {
    CapSteps(top, w, s, a);
    AssembleAllSteps(top, CapBreakdown);
    CutSeven(Tactical(Website, w), Tactical(Social, s), Tactical(Ads, a), Consistency,
             Booster(Website), Booster(Social), Booster(Ads));
    NotAmongFirstSix(w, s, a);
  }

  /** Under the capped breakdown each channel's rule fires, and the strategic step picks consistency. */
  lemma CapSteps(top: seq<Weak>, w: Weak, s: Weak, a: Weak)
    requires FirstOfChannel(top, Website) == Some(w)
    requires FirstOfChannel(top, Social) == Some(s)
    requires FirstOfChannel(top, Ads) == Some(a)
    ensures TacticalFor(top, CapBreakdown, Website) == Some(Tactical(Website, w))
    ensures TacticalFor(top, CapBreakdown, Social) == Some(Tactical(Social, s))
    ensures TacticalFor(top, CapBreakdown, Ads) == Some(Tactical(Ads, a))
    ensures StrategicFor(CapBreakdown.percentage) == Some(Consistency)
    ensures forall c :: BoosterFor(CapBreakdown, c).Some?
  {
    CapFixedSteps();
  }

  /** The capped breakdown picks consistency and every booster. */
  lemma CapFixedSteps()
    ensures StrategicFor(CapBreakdown.percentage) == Some(Consistency)
    ensures forall c :: BoosterFor(CapBreakdown, c).Some?
  {
  }

  /** The ads booster is none of the first six items of the capped assembly. */
  lemma NotAmongFirstSix(w: Weak, s: Weak, a: Weak)
    ensures Booster(Ads) !in [Tactical(Website, w), Tactical(Social, s), Tactical(Ads, a), Consistency,
                              Booster(Website), Booster(Social)]
  {
    assert Booster(Ads).effort == High && Booster(Social).effort == Low && Booster(Website).effort == Medium;
  }

  /** When every step fires, the assembly lists the seven items in step order. */
  lemma AssembleAllSteps(top: seq<Weak>, b: ScoreBreakdown)
    requires forall c :: TacticalFor(top, b, c).Some? && BoosterFor(b, c).Some?
    requires StrategicFor(b.percentage).Some?
    ensures Assemble(top, b)
            == [TacticalFor(top, b, Website).value, TacticalFor(top, b, Social).value, TacticalFor(top, b, Ads).value,
                StrategicFor(b.percentage).value,
                Booster(Website), Booster(Social), Booster(Ads)]
  {
    var st := StepsFor(top, b);
    assert st.TacticalOf(Website).Some? && st.TacticalOf(Social).Some? && st.TacticalOf(Ads).Some?;
    assert st.BoosterOf(Website).Some? && st.BoosterOf(Social).Some? && st.BoosterOf(Ads).Some?;
    ItemsAllPresent(st);
  }

  /** Cutting seven items to six drops the last. */
  lemma CutSeven(x1: Recommendation, x2: Recommendation, x3: Recommendation, x4: Recommendation,
                 x5: Recommendation, x6: Recommendation, x7: Recommendation)
    ensures Take([x1, x2, x3, x4, x5, x6, x7], MaxRecommendations) == [x1, x2, x3, x4, x5, x6]
  {
    assert [x1, x2, x3, x4, x5, x6, x7][..6] == [x1, x2, x3, x4, x5, x6];
  }

  /**
   * The cut to six bites: the capped input plans seven items and the output
   * loses the ads booster, although the ads score 19 is below 20.
   */
  lemma CapDropsAdsBooster(r: Responses)
    requires CapInput(r)
    ensures var e := Annotate(Questions, r);
      && |e| == 33
      && Planned(r, CapBreakdown)
         == [Tactical(Website, e[0]), Tactical(Social, e[11]), Tactical(Ads, e[22]), Consistency,
             Booster(Website), Booster(Social), Booster(Ads)]
      && GenerateRecommendations(r, CapBreakdown)
         == [Tactical(Website, e[0]), Tactical(Social, e[11]), Tactical(Ads, e[22]), Consistency,
             Booster(Website), Booster(Social)]
      && CapBreakdown.Score(Ads) < BoosterBelow
      && Booster(Ads) !in GenerateRecommendations(r, CapBreakdown)
  {
    var e := Annotate(Questions, r);
    CapFirsts(r);
    CapAssembly(WeakQuestions(Questions, r), e[0], e[11], e[22]);
  }

  /** The response map answering catalog position `i` with `rating(i)`. */
  function ResponsesOf(rating: int -> int): (r: Responses)
    ensures RatedBy(r, rating)
  {
    CatalogIdsDistinct();
    Answering(Questions, rating)
  }

  /** The response map answering position `i` of `qs` with `rating(i)`, for questions with distinct ids. */
  function Answering(qs: seq<Question>, rating: int -> int): (r: Responses)
    requires forall i, j :: 0 <= i < j < |qs| ==> qs[i].id != qs[j].id
    ensures forall i :: 0 <= i < |qs| ==> RatingOf(r, qs[i].id) == rating(i)
  {
    var r := map i | 0 <= i < |qs| :: qs[i].id := rating(i);
    assert forall i :: 0 <= i < |qs| ==> qs[i].id in r && r[qs[i].id] == rating(i) by {
      forall i | 0 <= i < |qs|
        ensures qs[i].id in r && r[qs[i].id] == rating(i)
      {
        assert forall j :: 0 <= j < |qs| && qs[j].id == qs[i].id ==> j == i;
      }
    }
    r
  }

  /** The capped input exists: answering each position with `CapRating` meets it. */
  lemma CapInputExists()
    ensures CapInput(ResponsesOf(CapRating))
  {
  }

  /** Website questions answered 1, every other question at its maximum. */
  function WebsiteOnesRating(i: int): int
  {
    if i < 11 then 1 else if i == 30 then 4 else 3
  }

  /** The ratings `WebsiteOnesRating` gives a channel's block, in catalog order. */
  function WebsiteOnesBlock(c: Channel): seq<int>
  {
    match c
    case Website => [1, 1, 1, 1, 1, 1, 1, 1, 1, 1, 1]
    case Social => [3, 3, 3, 3, 3, 3, 3, 3, 3, 3, 3]
    case Ads => [3, 3, 3, 3, 3, 3, 3, 3, 4, 3, 3]
  }

  /** `WebsiteOnesBlock` lists `WebsiteOnesRating` over the block's catalog positions. */
  lemma WebsiteOnesBlockAgrees(c: Channel)
    ensures |WebsiteOnesBlock(c)| == 11
    ensures forall i :: 0 <= i < 11 ==> WebsiteOnesBlock(c)[i] == WebsiteOnesRating(BlockStart(c) + i)
  {
  }

  /** One channel score of the website-ones input. */
  lemma WebsiteOnesChannelScore(r: Responses, c: Channel)
    requires RatedBy(r, WebsiteOnesRating)
    ensures ChannelScore(Questions, r, c) == Total(WebsiteOnesBlock(c))
  {
    WebsiteOnesBlockAgrees(c);
    BlockScore(r, WebsiteOnesRating, c, WebsiteOnesBlock(c));
  }

  /** The scores of the website-ones input: 11 / 33 / 34, total 78, percentages 33 / 100 / 100 and 78 overall. */
  lemma WebsiteOnesScores(r: Responses)
    requires RatedBy(r, WebsiteOnesRating)
    ensures CalculateScores(r) == ScoreBreakdown(78, 11, 33, 34, 78, 33, 100, 100)
  {
    WebsiteOnesChannelScore(r, Website);
    WebsiteOnesChannelScore(r, Social);
    WebsiteOnesChannelScore(r, Ads);
    WebsiteOnesTotals();
    ScoresOfChannels(r, 11, 33, 34);
    WebsiteOnesBreakdownOf();
  }

  /** The block sums of the website-ones input. */
  lemma WebsiteOnesTotals()
    ensures Total(WebsiteOnesBlock(Website)) == 11
    ensures Total(WebsiteOnesBlock(Social)) == 33
    ensures Total(WebsiteOnesBlock(Ads)) == 34
  {
  }

  /** The rounded percentages of the website-ones scores. */
  lemma WebsiteOnesPercentages()
    ensures RoundPercent(78, MaxTotal) == 78
    ensures RoundPercent(11, MaxWebsite) == 33
    ensures RoundPercent(33, MaxSocial) == 100
    ensures RoundPercent(34, MaxAds) == 100
  {
  }

  /** The breakdown assembled from the website-ones scores. */
  lemma WebsiteOnesBreakdownOf()
    ensures Breakdown(11, 33, 34) == ScoreBreakdown(78, 11, 33, 34, 78, 33, 100, 100)
  {
    WebsiteOnesPercentages();
  }

  /** The annotated catalog of the website-ones input: gap 2 on every website question, 0 elsewhere. */
  lemma WebsiteOnesAnnotation(r: Responses)
    requires RatedBy(r, WebsiteOnesRating)
    ensures var e := Annotate(Questions, r);
      && |e| == 33
      && (forall i :: 0 <= i < |e| ==> e[i].gap == (if i < 11 then 2 else 0))
  {
    CatalogShape();
  }

  /**
   * Ranking 33 entries with gap 2 on the first eleven and 0 elsewhere keeps
   * the first ten of them, in catalog order.
   */
  lemma RankingOfFirstBlock(e: seq<Weak>)
    requires |e| == 33
    requires forall i :: 0 <= i < |e| ==> e[i].gap == (if i < 11 then 2 else 0)
    ensures TopOf(e) == e[..10]
  {
    FirstBlockFilter(e);
    var head := e[..11];
    FlatIsSorted(head, 2);
    SortByGapKeepsSorted(head);
    assert TopOf(e) == Take(head, TopCount);
    assert head[..10] == e[..10];
  }

  /** The filter keeps exactly the first eleven entries, all of gap 2. */
  lemma FirstBlockFilter(e: seq<Weak>)
    requires |e| == 33
    requires forall i :: 0 <= i < |e| ==> e[i].gap == (if i < 11 then 2 else 0)
    ensures Significant(e) == e[..11]
    ensures forall i :: 0 <= i < 11 ==> e[..11][i].gap == 2
  {
    var head, tail := e[..11], e[11..];
    assert e == head + tail;
    assert forall i :: 0 <= i < |head| ==> head[i].gap == 2;
    assert forall i :: 0 <= i < |tail| ==> tail[i].gap == 0;
    SignificantAppend(head, tail);
    SignificantKeepsAll(head);
    SignificantDropsAll(tail);
    assert head + [] == head;
  }

  /** When every ranked entry is a website question, only the website lookup finds one. */
  lemma FirstsOfWebsiteOnly(top: seq<Weak>)
    requires |top| > 0
    requires forall i :: 0 <= i < |top| ==> top[i].question.channel == Website
    ensures FirstOfChannel(top, Website) == Some(top[0])
    ensures FirstOfChannel(top, Social) == None
    ensures FirstOfChannel(top, Ads) == None
  {
    FirstOfChannelAt(top, Website, 0);
  }

  /** The first ranked entry of each channel for the website-ones input. */
  lemma WebsiteOnesFirsts(r: Responses)
    requires RatedBy(r, WebsiteOnesRating)
    ensures var e, top := Annotate(Questions, r), WeakQuestions(Questions, r);
      && |e| == 33
      && e[0].gap == 2
      && FirstOfChannel(top, Website) == Some(e[0])
      && FirstOfChannel(top, Social) == None
      && FirstOfChannel(top, Ads) == None
  {
    var e := Annotate(Questions, r);
    WebsiteOnesAnnotation(r);
    RankingOfFirstBlock(e);
    AnnotatedChannels(r);
    FirstsOfWebsiteOnly(e[..10]);
  }

  /** The breakdown of the website-ones input, as `WebsiteOnesScores` computes it. */
  const WebsiteOnesBreakdown: ScoreBreakdown := ScoreBreakdown(78, 11, 33, 34, 78, 33, 100, 100)

  /**
   * The website-ones input gets exactly two items: the website tactical item
   * (of medium impact, its gap being 2) and the website booster. The overall
   * 78% is past the strategic cut-off 75, the other channels are at 100%, and
   * their scores are above the booster threshold.
   */
  lemma WebsiteOnesRecommendations(r: Responses)
    requires RatedBy(r, WebsiteOnesRating)
    ensures var e := Annotate(Questions, r);
      && |e| == 33
      && GenerateRecommendations(r, WebsiteOnesBreakdown) == [Tactical(Website, e[0]), Booster(Website)]
      && Tactical(Website, e[0]).impact == Medium
  {
    var e := Annotate(Questions, r);
    WebsiteOnesFirsts(r);
    WebsiteOnlyAssembly(WeakQuestions(Questions, r), e[0]);
  }

  /** The assembly for the website-ones breakdown when only a website question is ranked. */
  lemma WebsiteOnlyAssembly(top: seq<Weak>, w: Weak)
    requires FirstOfChannel(top, Website) == Some(w)
    requires FirstOfChannel(top, Social) == None
    requires FirstOfChannel(top, Ads) == None
    ensures Take(Assemble(top, WebsiteOnesBreakdown), MaxRecommendations) == [Tactical(Website, w), Booster(Website)]
  {
  }

  /** The website-ones input exists. */
  lemma WebsiteOnesInputExists()
    ensures RatedBy(ResponsesOf(WebsiteOnesRating), WebsiteOnesRating)
  {
  }

  /** Website questions answered 1, every other question answered 3, `ads_landing_friction` included. */
  function AllThreesRating(i: int): int
  {
    if i < 11 then 1 else 3
  }

  /** The ratings `AllThreesRating` gives a channel's block, in catalog order. */
  function AllThreesBlock(c: Channel): seq<int>
  {
    match c
    case Website => [1, 1, 1, 1, 1, 1, 1, 1, 1, 1, 1]
    case Social => [3, 3, 3, 3, 3, 3, 3, 3, 3, 3, 3]
    case Ads => [3, 3, 3, 3, 3, 3, 3, 3, 3, 3, 3]
  }

  /** `AllThreesBlock` lists `AllThreesRating` over the block's catalog positions. */
  lemma AllThreesBlockAgrees(c: Channel)
    ensures |AllThreesBlock(c)| == 11
    ensures forall i :: 0 <= i < 11 ==> AllThreesBlock(c)[i] == AllThreesRating(BlockStart(c) + i)
  {
  }

  /** One channel score of the all-threes input. */
  lemma AllThreesChannelScore(r: Responses, c: Channel)
    requires RatedBy(r, AllThreesRating)
    ensures ChannelScore(Questions, r, c) == Total(AllThreesBlock(c))
  {
    AllThreesBlockAgrees(c);
    BlockScore(r, AllThreesRating, c, AllThreesBlock(c));
  }

  /**
   * Answering every non-website question with 3 leaves the ads channel one
   * point short, because `ads_landing_friction` is worth 4: 33 of 34, shown
   * as 97%, and a total of 77.
   */
  lemma AllThreesScores(r: Responses)
    requires RatedBy(r, AllThreesRating)
    ensures CalculateScores(r) == ScoreBreakdown(77, 11, 33, 33, 77, 33, 100, 97)
  {
    AllThreesChannelScore(r, Website);
    AllThreesChannelScore(r, Social);
    AllThreesChannelScore(r, Ads);
    AllThreesTotals();
    ScoresOfChannels(r, 11, 33, 33);
    AllThreesBreakdownOf();
  }

  /** The block sums of the all-threes input. */
  lemma AllThreesTotals()
    ensures Total(AllThreesBlock(Website)) == 11
    ensures Total(AllThreesBlock(Social)) == 33
    ensures Total(AllThreesBlock(Ads)) == 33
  {
  }

  /** The rounded percentages of the all-threes scores. */
  lemma AllThreesPercentages()
    ensures RoundPercent(77, MaxTotal) == 77
    ensures RoundPercent(11, MaxWebsite) == 33
    ensures RoundPercent(33, MaxSocial) == 100
    ensures RoundPercent(33, MaxAds) == 97
  {
  }

  /** The breakdown assembled from the all-threes scores. */
  lemma AllThreesBreakdownOf()
    ensures Breakdown(11, 33, 33) == ScoreBreakdown(77, 11, 33, 33, 77, 33, 100, 97)
  {
    AllThreesPercentages();
  }
}
