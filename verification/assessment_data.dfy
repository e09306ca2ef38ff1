/**
 * The fixed questionnaire the scoring engine reads: 33 rating questions split
 * over three marketing channels, with the per-channel point maxima derived from it.
 */
module AssessmentData {

  /** The three channels a question can belong to. */
  datatype Channel = Website | Social | Ads

  /**
   * One questionnaire entry. Scoring reads only `id`, `channel` and
   * `maxScore`; `category` is quoted in recommendation titles. The entry's
   * display text and description live in `QuestionProse`, keyed by id.
   */
  datatype Question = Question(id: string, category: string, channel: Channel, maxScore: int)

  /**
   * The display text and description of each question, in catalog order.
   * Nothing in scoring or ranking reads them; a rendered tactical
   * recommendation quotes them through `QuestionProse`.
   */
  const ProseTexts: seq<(string, string)> := WebsiteProse + SocialProse + AdsProse

  /** Display texts of the website block. */
  const WebsiteProse: seq<(string, string)> := [
    // web_social_proof
    ("Social Proof Implementation",
     "Do you display customer testimonials, reviews, case studies, or user counts prominently?"),
    // web_trust_signals
    ("Trust & Authority Signals",
     "Do you showcase certifications, awards, press mentions, or expert endorsements?"),
    // web_urgency
    ("Urgency and Scarcity",
     "Do you use limited-time offers, stock indicators, or countdown timers effectively?"),
    // web_choice_architecture
    ("Choice Architecture",
     "Are your pricing tiers, product options, and CTAs strategically designed with clear defaults?"),
    // web_loss_aversion
    ("Loss Aversion Framing",
     "Do you frame benefits in terms of what customers might lose rather than gain?"),
    // web_visual_hierarchy
    ("Visual Hierarchy",
     "Is your design using color, contrast, and whitespace to guide attention effectively?"),
    // web_reciprocity
    ("Reciprocity Triggers",
     "Do you offer free value (guides, tools, trials) before asking for commitment?"),
    // web_consistency
    ("Consistency & Commitment",
     "Do you use micro-commitments (email signup, quiz, preferences) before the main ask?"),
    // web_anchoring
    ("Price Anchoring",
     "Do you strategically display higher prices first or show original vs. discounted prices?"),
    // web_friction_reduction
    ("Friction Reduction",
     "Have you minimized form fields, steps, and cognitive load in your conversion funnel?"),
    // web_progress_indicators
    ("Progress Indicators",
     "Do you show progress bars, step numbers, or completion percentages in multi-step processes?")
  ]

  /** Display texts of the social block. */
  const SocialProse: seq<(string, string)> := [
    // social_engagement_triggers
    ("Engagement Triggers",
     "Do you use questions, polls, and interactive content to boost engagement?"),
    // social_storytelling
    ("Narrative & Storytelling",
     "Do you use compelling stories, customer journeys, and emotional narratives?"),
    // social_social_proof
    ("User-Generated Content",
     "Do you showcase customer photos, reviews, testimonials, and success stories?"),
    // social_authority
    ("Authority Positioning",
     "Do you share expertise, insights, and thought leadership content?"),
    // social_consistency
    ("Posting Consistency",
     "Do you maintain a consistent posting schedule and brand voice?"),
    // social_visual_appeal
    ("Visual Appeal",
     "Are your visuals attention-grabbing, on-brand, and optimized for each platform?"),
    // social_fomo
    ("FOMO Creation",
     "Do you create fear of missing out through exclusive offers, limited spots, or trending content?"),
    // social_community
    ("Community Building",
     "Do you foster a sense of belonging and encourage user interaction and community?"),
    // social_cta_clarity
    ("Clear CTAs",
     "Are your calls-to-action clear, compelling, and easy to act on?"),
    // social_timing
    ("Strategic Timing",
     "Do you post at optimal times based on audience analytics and platform algorithms?"),
    // social_emotional_triggers
    ("Emotional Resonance",
     "Do your posts trigger strong emotions (joy, curiosity, inspiration, urgency)?")
  ]

  /** Display texts of the ads block. */
  const AdsProse: seq<(string, string)> := [
    // ads_headline_hooks
    ("Headline Hooks",
     "Do your ad headlines use proven psychological triggers (curiosity, benefit, urgency)?"),
    // ads_visual_attention
    ("Attention-Grabbing Visuals",
     "Do your ad visuals stop the scroll and direct attention to key elements?"),
    // ads_social_proof
    ("Social Proof in Ads",
     "Do you include testimonials, ratings, user counts, or endorsements in ads?"),
    // ads_benefit_clarity
    ("Benefit Clarity",
     "Is your unique value proposition instantly clear and compelling?"),
    // ads_urgency_scarcity
    ("Urgency & Scarcity",
     "Do you use time-limited offers, exclusive access, or limited availability?"),
    // ads_cta_strength
    ("CTA Effectiveness",
     "Are your CTAs action-oriented, specific, and create urgency?"),
    // ads_targeting
    ("Audience Targeting",
     "Are you using behavioral and psychographic targeting (not just demographics)?"),
    // ads_landing_congruence
    ("Ad-to-Landing Page Congruence",
     "Does your landing page match the ad's promise, visuals, and messaging?"),
    // ads_landing_friction
    ("Landing Page Optimization",
     "Is your landing page optimized with minimal friction, clear path to conversion?"),
    // ads_testing
    ("A/B Testing",
     "Do you systematically test headlines, visuals, and CTAs based on behavioral principles?"),
    // ads_retargeting
    ("Behavioral Retargeting",
     "Do you use strategic retargeting with different messages for different behavior segments?")
  ]

  /** Eleven website questions, 3 points each. */
  const WebsiteQuestions: seq<Question> := [
    Question("web_social_proof", "Social Proof", Website, 3),
    Question("web_trust_signals", "Trust Signals", Website, 3),
    Question("web_urgency", "Urgency & Scarcity", Website, 3),
    Question("web_choice_architecture", "Choice Architecture", Website, 3),
    Question("web_loss_aversion", "Loss Aversion", Website, 3),
    Question("web_visual_hierarchy", "Visual Psychology", Website, 3),
    Question("web_reciprocity", "Reciprocity", Website, 3),
    Question("web_consistency", "Consistency", Website, 3),
    Question("web_anchoring", "Anchoring", Website, 3),
    Question("web_friction_reduction", "Friction Reduction", Website, 3),
    Question("web_progress_indicators", "Progress Tracking", Website, 3)
  ]

  /** Eleven social-media questions, 3 points each. */
  const SocialQuestions: seq<Question> := [
    Question("social_engagement_triggers", "Engagement", Social, 3),
    Question("social_storytelling", "Storytelling", Social, 3),
    Question("social_social_proof", "Social Proof", Social, 3),
    Question("social_authority", "Authority", Social, 3),
    Question("social_consistency", "Consistency", Social, 3),
    Question("social_visual_appeal", "Visual Psychology", Social, 3),
    Question("social_fomo", "FOMO", Social, 3),
    Question("social_community", "Community", Social, 3),
    Question("social_cta_clarity", "Calls to Action", Social, 3),
    Question("social_timing", "Timing", Social, 3),
    Question("social_emotional_triggers", "Emotional Triggers", Social, 3)
  ]

  /** Eleven advertising questions: ten at 3 points and the landing-page question at 4. */
  const AdsQuestions: seq<Question> := [
    Question("ads_headline_hooks", "Ad Creative", Ads, 3),
    Question("ads_visual_attention", "Visual Design", Ads, 3),
    Question("ads_social_proof", "Social Proof", Ads, 3),
    Question("ads_benefit_clarity", "Value Proposition", Ads, 3),
    Question("ads_urgency_scarcity", "Urgency", Ads, 3),
    Question("ads_cta_strength", "Call to Action", Ads, 3),
    Question("ads_targeting", "Targeting", Ads, 3),
    Question("ads_landing_congruence", "Message Match", Ads, 3),
    Question("ads_landing_friction", "Landing Page", Ads, 4),
    Question("ads_testing", "Testing", Ads, 3),
    Question("ads_retargeting", "Retargeting", Ads, 3)
  ]

  /** The catalog in authored order: all website, then all social, then all ads questions. */
  const Questions: seq<Question> := WebsiteQuestions + SocialQuestions + AdsQuestions

  /** Points a question is worth, as a function value the channel sums can fold. */
  function MaxScoreOf(q: Question): int
  {
    q.maxScore
  }

  /** Sum of `f` over the questions of `qs` that belong to channel `c`. */
  function ChannelSum(qs: seq<Question>, c: Channel, f: Question -> int): int
  {
    if |qs| == 0 then 0
    else (if qs[0].channel == c then f(qs[0]) else 0) + ChannelSum(qs[1..], c, f)
  }

  /** Points available in channel `c`: the sum of its questions' `maxScore`. */
  function MaxScores(c: Channel): int
  {
    ChannelSum(Questions, c, MaxScoreOf)
  }

  /** Points available over the whole questionnaire. */
  function TotalMaxScore(): int
  {
    MaxScores(Website) + MaxScores(Social) + MaxScores(Ads)
  }

  /** Position of a channel in the catalog's authored order. */
  function ChannelRank(c: Channel): nat
  {
    match c
    case Website => 0
    case Social => 1
    case Ads => 2
  }

  /** A channel sum over a concatenation is the sum of the two parts. */
  lemma {:induction false} ChannelSumAppend(a: seq<Question>, b: seq<Question>, c: Channel, f: Question -> int)
    ensures ChannelSum(a + b, c, f) == ChannelSum(a, c, f) + ChannelSum(b, c, f)
  {
    if |a| == 0 {
      assert a + b == b;
    } else {
      assert (a + b)[1..] == a[1..] + b;
      ChannelSumAppend(a[1..], b, c, f);
    }
  }

  /** A channel sum may be cut at any position. */
  lemma ChannelSumSplit(qs: seq<Question>, k: nat, c: Channel, f: Question -> int)
    requires k <= |qs|
    ensures ChannelSum(qs, c, f) == ChannelSum(qs[..k], c, f) + ChannelSum(qs[k..], c, f)
  {
    assert qs == qs[..k] + qs[k..];
    ChannelSumAppend(qs[..k], qs[k..], c, f);
  }

  /** Over questions that all belong to `c` and all score `k`, the channel sum is `k` per question. */
  lemma {:induction false} ChannelSumUniform(qs: seq<Question>, c: Channel, f: Question -> int, k: int)
    requires forall i :: 0 <= i < |qs| ==> qs[i].channel == c && f(qs[i]) == k
    ensures ChannelSum(qs, c, f) == k * |qs|
  {
    if |qs| > 0 {
      ChannelSumUniform(qs[1..], c, f, k);
    }
  }

  /** Questions of other channels contribute nothing to a channel sum. */
  lemma {:induction false} ChannelSumOther(qs: seq<Question>, c: Channel, f: Question -> int)
    requires forall i :: 0 <= i < |qs| ==> qs[i].channel != c
    ensures ChannelSum(qs, c, f) == 0
  {
    if |qs| > 0 {
      ChannelSumOther(qs[1..], c, f);
    }
  }

  /** A channel sum only grows when every question's contribution grows. */
  lemma {:induction false} ChannelSumMono(qs: seq<Question>, c: Channel, f: Question -> int, g: Question -> int)
    requires forall i :: 0 <= i < |qs| ==> f(qs[i]) <= g(qs[i])
    ensures ChannelSum(qs, c, f) <= ChannelSum(qs, c, g)
  {
    if |qs| > 0 {
      ChannelSumMono(qs[1..], c, f, g);
    }
  }

  /** A contribution that is zero on every question gives a zero channel sum. */
  lemma {:induction false} ChannelSumZero(qs: seq<Question>, c: Channel, f: Question -> int)
    requires forall i :: 0 <= i < |qs| ==> f(qs[i]) == 0
    ensures ChannelSum(qs, c, f) == 0
  {
    if |qs| > 0 {
      ChannelSumZero(qs[1..], c, f);
    }
  }

  /** Two contributions that agree on every question give the same channel sum. */
  lemma ChannelSumAgree(qs: seq<Question>, c: Channel, f: Question -> int, g: Question -> int)
    requires forall i :: 0 <= i < |qs| ==> f(qs[i]) == g(qs[i])
    ensures ChannelSum(qs, c, f) == ChannelSum(qs, c, g)
  {
    ChannelSumMono(qs, c, f, g);
    ChannelSumMono(qs, c, g, f);
  }

  /** The block of the catalog authored for channel `c`. */
  function Block(c: Channel): seq<Question>
  {
    match c
    case Website => WebsiteQuestions
    case Social => SocialQuestions
    case Ads => AdsQuestions
  }

  /** Each block has eleven questions, all of its own channel. */
  lemma BlockChannels(c: Channel)
    ensures |Block(c)| == 11
    ensures forall i :: 0 <= i < |Block(c)| ==> Block(c)[i].channel == c
  {
  }

  /** Where a channel's block starts in the catalog. */
  function BlockStart(c: Channel): nat
  {
    match c
    case Website => 0
    case Social => 11
    case Ads => 22
  }

  /** Each block is the stretch of the catalog starting at its offset. */
  lemma BlockInCatalog(c: Channel)
    ensures |Block(c)| == 11 && BlockStart(c) + 11 <= |Questions|
    ensures forall i :: 0 <= i < |Block(c)| ==> Block(c)[i] == Questions[BlockStart(c) + i]
  {
    match c
    case Website =>
      assert Block(c) == WebsiteQuestions && BlockStart(c) == 0;
      WebsiteInCatalog();
    case Social =>
      assert Block(c) == SocialQuestions && BlockStart(c) == 11;
      SocialInCatalog();
    case Ads =>
      assert Block(c) == AdsQuestions && BlockStart(c) == 22;
      AdsInCatalog();
  }

  /** The website block opens the catalog. */
  lemma WebsiteInCatalog()
    ensures |WebsiteQuestions| == 11 && 11 <= |Questions|
    ensures forall i :: 0 <= i < |WebsiteQuestions| ==> WebsiteQuestions[i] == Questions[i]
  {
    ThreeParts(WebsiteQuestions, SocialQuestions, AdsQuestions);
  }

  /** The social block follows the eleven website questions. */
  lemma SocialInCatalog()
    ensures |SocialQuestions| == 11 && 22 <= |Questions|
    ensures forall i :: 0 <= i < |SocialQuestions| ==> SocialQuestions[i] == Questions[11 + i]
  {
    ThreeParts(WebsiteQuestions, SocialQuestions, AdsQuestions);
  }

  /** The ads block follows the website and social blocks. */
  lemma AdsInCatalog()
    ensures |AdsQuestions| == 11 && 33 <= |Questions|
    ensures forall i :: 0 <= i < |AdsQuestions| ==> AdsQuestions[i] == Questions[22 + i]
  {
    ThreeParts(WebsiteQuestions, SocialQuestions, AdsQuestions);
  }

  /** Where each part of `a + b + c` sits in the whole. */
  lemma ThreeParts<T>(a: seq<T>, b: seq<T>, c: seq<T>)
    ensures forall i :: 0 <= i < |a| ==> (a + b + c)[i] == a[i]
    ensures forall i :: 0 <= i < |b| ==> (a + b + c)[|a| + i] == b[i]
    ensures forall i :: 0 <= i < |c| ==> (a + b + c)[|a| + |b| + i] == c[i]
  {
  }

  /** Every question of `qs` belongs to channel `c`. */
  predicate AllOf(qs: seq<Question>, c: Channel)
  {
    forall i :: 0 <= i < |qs| ==> qs[i].channel == c
  }

  /** A channel sum over three lists laid end to end is the sum of the three. */
  lemma ChannelSumThree(a: seq<Question>, b: seq<Question>, d: seq<Question>, c: Channel, f: Question -> int)
    ensures ChannelSum(a + b + d, c, f) == ChannelSum(a, c, f) + ChannelSum(b, c, f) + ChannelSum(d, c, f)
  {
    ChannelSumAppend(a, b, c, f);
    ChannelSumAppend(a + b, d, c, f);
  }

  /** Over a website, a social and an ads list laid end to end, only the list of channel `c` adds to a channel-`c` sum. */
  lemma ChannelSumOwnPart(w: seq<Question>, s: seq<Question>, a: seq<Question>, c: Channel, f: Question -> int)
    requires AllOf(w, Website) && AllOf(s, Social) && AllOf(a, Ads)
    ensures ChannelSum(w + s + a, c, f) == ChannelSum(match c case Website => w case Social => s case Ads => a, c, f)
  {
    ChannelSumThree(w, s, a, c, f);
    if c != Website {
      ChannelSumOther(w, c, f);
    }
    if c != Social {
      ChannelSumOther(s, c, f);
    }
    if c != Ads {
      ChannelSumOther(a, c, f);
    }
  }

  /** Only the block of channel `c` contributes to a channel-`c` sum over the catalog. */
  lemma CatalogSumOfChannel(c: Channel, f: Question -> int)
    ensures ChannelSum(Questions, c, f) == ChannelSum(Block(c), c, f)
  {
    BlockChannels(Website);
    BlockChannels(Social);
    BlockChannels(Ads);
    ChannelSumOwnPart(WebsiteQuestions, SocialQuestions, AdsQuestions, c, f);
  }

  /** A block of `k`-point questions of channel `c` holds `k` points per question for `c` and none for the others. */
  lemma BlockMax(qs: seq<Question>, c: Channel, k: int)
    requires forall i :: 0 <= i < |qs| ==> qs[i].channel == c && qs[i].maxScore == k
    ensures forall d :: ChannelSum(qs, d, MaxScoreOf) == if d == c then k * |qs| else 0
  {
    forall d | true
      ensures ChannelSum(qs, d, MaxScoreOf) == if d == c then k * |qs| else 0
    {
      if d == c {
        ChannelSumUniform(qs, c, MaxScoreOf, k);
      } else {
        ChannelSumOther(qs, d, MaxScoreOf);
      }
    }
  }

  /** The website block: eleven 3-point website questions. */
  lemma WebsiteBlockMax()
    ensures forall d :: ChannelSum(WebsiteQuestions, d, MaxScoreOf) == if d == Website then 33 else 0
  {
    BlockMax(WebsiteQuestions, Website, 3);
  }

  /** The social block: eleven 3-point social questions. */
  lemma SocialBlockMax()
    ensures forall d :: ChannelSum(SocialQuestions, d, MaxScoreOf) == if d == Social then 33 else 0
  {
    BlockMax(SocialQuestions, Social, 3);
  }

  /**
   * The ads block holds 34 ads points, ten 3-point questions around the
   * 4-point one, and nothing for the other channels.
   */
  lemma AdsBlockMax()
    ensures ChannelSum(AdsQuestions, Website, MaxScoreOf) == 0
    ensures ChannelSum(AdsQuestions, Social, MaxScoreOf) == 0
    ensures ChannelSum(AdsQuestions, Ads, MaxScoreOf) == 34
  {
    BlockMaxExceptOne(AdsQuestions, Ads, 3, 8, 4);
  }

  /** Multiplication distributes over addition. */
  lemma Distribute(k: int, x: int, y: int)
    ensures k * x + k * y == k * (x + y)
  {
  }

  /**
   * A block of channel-`c` questions worth `k` points each, except the one at
   * position `j`, worth `m`, holds `k` points per other question plus `m` for
   * `c`, and none for the other channels.
   */
  lemma BlockMaxExceptOne(qs: seq<Question>, c: Channel, k: int, j: nat, m: int)
    requires j < |qs|
    requires forall i :: 0 <= i < |qs| ==> qs[i].channel == c && qs[i].maxScore == (if i == j then m else k)
    ensures forall d :: ChannelSum(qs, d, MaxScoreOf) == if d == c then k * (|qs| - 1) + m else 0
  {
    forall d | true
      ensures ChannelSum(qs, d, MaxScoreOf) == if d == c then k * (|qs| - 1) + m else 0
    {
      if d == c {
        BlockMaxOwn(qs, c, k, j, m);
      } else {
        ChannelSumOther(qs, d, MaxScoreOf);
      }
    }
  }

  /** The channel-`c` part of `BlockMaxExceptOne`: `k` points per other question plus `m`. */
  lemma BlockMaxOwn(qs: seq<Question>, c: Channel, k: int, j: nat, m: int)
    requires j < |qs|
    requires forall i :: 0 <= i < |qs| ==> qs[i].channel == c && qs[i].maxScore == (if i == j then m else k)
    ensures ChannelSum(qs, c, MaxScoreOf) == k * (|qs| - 1) + m
  {
    var head, mid, tail := qs[..j], qs[j..j + 1], qs[j + 1..];
    ChannelSumSplit(qs, j, c, MaxScoreOf);
    ChannelSumSplit(qs[j..], 1, c, MaxScoreOf);
    assert qs[j..][..1] == mid && qs[j..][1..] == tail;
    forall i | 0 <= i < |head|
      ensures head[i].channel == c && MaxScoreOf(head[i]) == k
    {
      assert head[i] == qs[i];
    }
    ChannelSumUniform(head, c, MaxScoreOf, k);
    ChannelSumUniform(mid, c, MaxScoreOf, m);
    forall i | 0 <= i < |tail|
      ensures tail[i].channel == c && MaxScoreOf(tail[i]) == k
    {
      assert tail[i] == qs[j + 1 + i];
    }
    ChannelSumUniform(tail, c, MaxScoreOf, k);
    Distribute(k, |head|, |tail|);
  }

  /** Channel `c` is worth what the three blocks hold for it. */
  lemma MaxScoresByBlock(c: Channel)
    ensures MaxScores(c) == (match c case Website => 33 case Social => 33 case Ads => 34)
  {
    CatalogSumOfChannel(c, MaxScoreOf);
    match c
    case Website => WebsiteBlockMax();
    case Social => SocialBlockMax();
    case Ads => AdsBlockMax();
  }

  /**
   * The channel maxima the scoring constants rely on: 33 website points,
   * 33 social points, 34 ads points, 100 in all.
   */
  lemma CatalogMaxScores()
    ensures MaxScores(Website) == 33
    ensures MaxScores(Social) == 33
    ensures MaxScores(Ads) == 34
    ensures TotalMaxScore() == 100
  {
    MaxScoresByBlock(Website);
    MaxScoresByBlock(Social);
    MaxScoresByBlock(Ads);
  }

  /** Every question id occurs once, so a response map keys each question unambiguously. */
  lemma CatalogIdsDistinct()
    ensures forall i, j :: 0 <= i < j < |Questions| ==> Questions[i].id != Questions[j].id
  {
    forall i, j | 0 <= i < j < |Questions|
      ensures Questions[i].id != Questions[j].id
    {
      var ci, cj := ChannelAt(i), ChannelAt(j);
      BlockInCatalog(ci);
      BlockInCatalog(cj);
      assert Questions[i] == Block(ci)[i - BlockStart(ci)];
      assert Questions[j] == Block(cj)[j - BlockStart(cj)];
      if ci == cj {
        BlockIdsDistinct(ci);
      } else {
        BlockIdsLead(ci);
        BlockIdsLead(cj);
      }
    }
  }

  /** The channel of the block holding catalog position `i`. */
  function ChannelAt(i: nat): (c: Channel)
    requires i < 33
    ensures BlockStart(c) <= i < BlockStart(c) + 11
  {
    if i < 11 then Website else if i < 22 then Social else Ads
  }

  /** The letter every id of a channel's block starts with: `web_`, `social_`, `ads_`. */
  function Lead(c: Channel): char
  {
    match c
    case Website => 'w'
    case Social => 's'
    case Ads => 'a'
  }

  /** Every id of a block starts with its channel's letter. */
  lemma BlockIdsLead(c: Channel)
    ensures forall i :: 0 <= i < |Block(c)| ==> |Block(c)[i].id| > 0 && Block(c)[i].id[0] == Lead(c)
  {
  }

  /** The ids within one block are pairwise distinct. */
  lemma BlockIdsDistinct(c: Channel)
    ensures forall i, j :: 0 <= i < j < |Block(c)| ==> Block(c)[i].id != Block(c)[j].id
  {
    match c
    case Website => WebsiteIdsDistinct();
    case Social => SocialIdsDistinct();
    case Ads => AdsIdsDistinct();
  }

  /** The website ids are pairwise distinct. */
  lemma WebsiteIdsDistinct()
    ensures forall i, j :: 0 <= i < j < |WebsiteQuestions| ==> WebsiteQuestions[i].id != WebsiteQuestions[j].id
  {
  }

  /** The social ids are pairwise distinct. */
  lemma SocialIdsDistinct()
    ensures forall i, j :: 0 <= i < j < |SocialQuestions| ==> SocialQuestions[i].id != SocialQuestions[j].id
  {
  }

  /** The ads ids are pairwise distinct. */
  lemma AdsIdsDistinct()
    ensures forall i, j :: 0 <= i < j < |AdsQuestions| ==> AdsQuestions[i].id != AdsQuestions[j].id
  {
  }

  /**
   * Every question is worth 3 or 4 points (only `ads_landing_friction`, at
   * position 30, is worth 4), and the catalog lists all website questions,
   * then all social questions, then all ads questions.
   */
  lemma CatalogShape()
    ensures |Questions| == 33
    ensures forall i :: 0 <= i < |Questions| ==> Questions[i].maxScore == (if i == 30 then 4 else 3)
    ensures forall i :: 0 <= i < |Questions| ==>
      Questions[i].channel == (if i < 11 then Website else if i < 22 then Social else Ads)
    ensures forall i, j :: 0 <= i <= j < |Questions| ==>
      ChannelRank(Questions[i].channel) <= ChannelRank(Questions[j].channel)
    ensures Questions[30].id == "ads_landing_friction"
  {
  }

  /** One display text per catalog question. */
  lemma ProseCount()
    ensures |ProseTexts| == 33
  {
  }

  /** The ids of `qs`, as a set. */
  function IdSet(qs: seq<Question>): set<string>
  {
    set i | 0 <= i < |qs| :: qs[i].id
  }

  /**
   * Pairs the i-th question's id with the i-th text. Distinct ids make this a
   * map whose keys are exactly the ids.
   */
  function Keyed(qs: seq<Question>, texts: seq<(string, string)>): (m: map<string, (string, string)>)
    requires |texts| == |qs|
    requires forall i, j :: 0 <= i < j < |qs| ==> qs[i].id != qs[j].id
    ensures m.Keys == IdSet(qs)
    ensures forall i :: 0 <= i < |qs| ==> m[qs[i].id] == texts[i]
  {
    map i | 0 <= i < |qs| :: qs[i].id := texts[i]
  }

  /** Display text and description by question id. */
  function QuestionProse(): map<string, (string, string)>
  {
    CatalogIdsDistinct();
    CatalogShape();
    ProseCount();
    Keyed(Questions, ProseTexts)
  }

  /** The display texts are keyed by exactly the catalog's ids, each question by its own text. */
  lemma ProseKeysAreCatalogIds()
    ensures QuestionProse().Keys == IdSet(Questions)
    ensures forall i :: 0 <= i < |Questions| ==> QuestionProse()[Questions[i].id] == ProseTexts[i]
  {
    CatalogIdsDistinct();
    CatalogShape();
    ProseCount();
  }
}
