/**
 * generateRecommendations: at most one tactical item per channel built from
 * the channel's weakest ranked question, at most one strategic item chosen by
 * the overall percentage, a booster per channel with a low raw score, all
 * concatenated in a fixed order and cut to six.
 */
module Recommendations {
  import opened AssessmentData
  import opened Scoring
  import opened Ranking
  import opened Wrappers

  /** Impact and effort grades. */
  datatype Level = Low | Medium | High

  /** What a recommendation addresses: one channel, or all of them. */
  datatype Target = Only(channel: Channel) | AllChannels

  /** The fixed prose of the templates that quote no question. */
  datatype Template = FoundationProse | ConsistencyProse | WebsiteBoosterProse | SocialBoosterProse | AdsBoosterProse

  /**
   * A recommendation's description: a fixed template, or the quoted text and
   * description of question `questionId` (rendered "text: description")
   * followed by the closing sentence of channel `closing`.
   */
  datatype Wording = Fixed(template: Template) | Quote(questionId: string, closing: Channel)

  /** A fully rendered suggestion. */
  datatype Recommendation = Recommendation(
    title: string,
    description: Wording,
    impact: Level,
    effort: Level,
    timeline: string,
    channel: Target)

  /** A channel percentage below this earns a tactical item. */
  const TacticalBelow: int := 70
  /** An overall percentage below this earns the foundation item. */
  const FoundationBelow: int := 50
  /** An overall percentage below this (and at least 50) earns the consistency item. */
  const ConsistencyBelow: int := 75
  /** A raw channel score below this earns the channel's booster. */
  const BoosterBelow: int := 20
  /** Length of the returned list at most. */
  const MaxRecommendations: nat := 6

  /** The smallest gap that makes a tactical item "High" impact. */
  const HighImpactGap: int := 3

  /** The sentence closing a tactical item's description in channel `c`. */
  function ClosingSentence(c: Channel): string
  {
    match c
    case Website => " This is currently underutilized and represents a significant opportunity for conversion improvement."
    case Social => " Implementing this can significantly boost engagement and brand trust."
    case Ads => " This optimization can improve ad performance and ROI."
  }

  /**
   * The tactical item for channel `c` built from ranked entry `w`: its title
   * names the question's category, its description quotes the question's text
   * and description, its impact depends on the gap, and its effort and
   * timeline are fixed per channel.
   */
  function Tactical(c: Channel, w: Weak): (rec: Recommendation)
    ensures rec.channel == Only(c)
    ensures rec.impact == High <==> w.gap >= HighImpactGap
    ensures rec.impact != Low
    ensures rec.description == Quote(w.question.id, c)
  {
    var q := w.question;
    var impact := if w.gap >= HighImpactGap then High else Medium;
    match c
    case Website =>
      Recommendation("Enhance " + q.category + " on Website", Quote(q.id, Website),
                     impact, Medium, "2-4 weeks", Only(Website))
    case Social =>
      Recommendation("Improve " + q.category + " in Social Media", Quote(q.id, Social),
                     impact, Low, "1-2 weeks", Only(Social))
    case Ads =>
      Recommendation("Optimize " + q.category + " in Advertising", Quote(q.id, Ads),
                     impact, Medium, "1-3 weeks", Only(Ads))
  }

  /** The strategic item for a low overall score. */
  const Foundation: Recommendation := Recommendation(
    "Establish Behavioral Science Foundation",
    Fixed(FoundationProse),
    High, High, "4-8 weeks", AllChannels)

  /** The strategic item for a moderate overall score. */
  const Consistency: Recommendation := Recommendation(
    "Enhance Cross-Channel Consistency",
    Fixed(ConsistencyProse),
    High, Medium, "3-6 weeks", AllChannels)

  /** A description as displayed. */
  function Rendered(w: Wording): string
  {
    match w
    case Fixed(t) => TemplateText(t)
    case Quote(id, c) =>
      var prose := if id in QuestionProse() then QuestionProse()[id] else ("", "");
      prose.0 + ": " + prose.1 + ClosingSentence(c)
  }

  /** The titles of the three boosters. */
  const WebsiteBoosterTitle: string := "Implement Website Social Proof Suite"
  const SocialBoosterTitle: string := "Develop Social Media Engagement Strategy"
  const AdsBoosterTitle: string := "Rebuild Ad Creative with Behavioral Principles"

  /** The prose of each fixed template. */
  function TemplateText(t: Template): string
  {
    match t
    case FoundationProse =>
      "Your current BSOS score indicates limited behavioral science application. Focus on implementing core principles like social proof, clear CTAs, and visual hierarchy across all channels. This will create a strong foundation for conversion optimization."
    case ConsistencyProse =>
      "You have moderate behavioral science application. Focus on creating consistent persuasion architecture across website, social, and ads. Ensure messaging, social proof, and urgency tactics are aligned for maximum impact."
    case WebsiteBoosterProse =>
      "Add testimonials, reviews, case studies, and trust badges to your website. Display real-time activity notifications and customer counts to leverage social proof psychology."
    case SocialBoosterProse =>
      "Create a content calendar focused on interactive posts (polls, questions, UGC). Use storytelling and emotional triggers to increase engagement and build community."
    case AdsBoosterProse =>
      "Redesign ad creatives to include clear urgency signals, social proof elements, and benefit-focused headlines. Ensure landing pages match ad promises perfectly."
  }

  /** The fixed-text booster for channel `c`, independent of any question. */
  function Booster(c: Channel): (rec: Recommendation)
    ensures rec.channel == Only(c)
    ensures rec.description.Fixed?
  {
    match c
    case Website => Recommendation(WebsiteBoosterTitle, Fixed(WebsiteBoosterProse), High, Medium, "2-3 weeks", Only(Website))
    case Social => Recommendation(SocialBoosterTitle, Fixed(SocialBoosterProse), Medium, Low, "1-2 weeks", Only(Social))
    case Ads => Recommendation(AdsBoosterTitle, Fixed(AdsBoosterProse), High, High, "3-4 weeks", Only(Ads))
  }

  /** A tactical item never coincides with the booster of its channel. */
  lemma TacticalIsNotBooster(c: Channel, w: Weak)
    ensures Tactical(c, w) != Booster(c)
  {
  }

  /**
   * Step 2 for channel `c`: a tactical item exactly when the ranked list
   * holds a question of `c` and the channel's percentage is below 70, built
   * from the first such question.
   */
  function TacticalFor(top: seq<Weak>, b: ScoreBreakdown, c: Channel): (o: Option<Recommendation>)
    ensures o.Some? <==> (exists i :: 0 <= i < |top| && top[i].question.channel == c) && b.Percentage(c) < TacticalBelow
    ensures o.Some? ==> exists i :: 0 <= i < |top| && top[i].question.channel == c
                                    && (forall j :: 0 <= j < i ==> top[j].question.channel != c)
                                    && o.value == Tactical(c, top[i])
  {
    match FirstOfChannel(top, c)
    case None => None
    case Some(w) => if b.Percentage(c) < TacticalBelow then Some(Tactical(c, w)) else None
  }

  /** Step 3: foundation below 50, consistency from 50 up to 75, nothing from 75 on. */
  function StrategicFor(percentage: int): (o: Option<Recommendation>)
    ensures o.None? <==> percentage >= ConsistencyBelow
    ensures o.Some? ==> o.value.channel == AllChannels && o.value.impact == High
    ensures o == Some(Foundation) <==> percentage < FoundationBelow
    ensures o == Some(Consistency) <==> FoundationBelow <= percentage < ConsistencyBelow
  {
    if percentage < FoundationBelow then Some(Foundation)
    else if percentage < ConsistencyBelow then Some(Consistency)
    else None
  }

  /** Step 4 for channel `c`: the booster exactly when the raw channel score is below 20. */
  function BoosterFor(b: ScoreBreakdown, c: Channel): (o: Option<Recommendation>)
    ensures o.Some? <==> b.Score(c) < BoosterBelow
    ensures o.Some? ==> o.value == Booster(c)
  {
    if b.Score(c) < BoosterBelow then Some(Booster(c)) else None
  }

  /** The outputs of steps 2 to 4, each present or not, in the order they are concatenated. */
  datatype Steps = Steps(
    websiteTactical: Option<Recommendation>,
    socialTactical: Option<Recommendation>,
    adsTactical: Option<Recommendation>,
    strategic: Option<Recommendation>,
    websiteBooster: Option<Recommendation>,
    socialBooster: Option<Recommendation>,
    adsBooster: Option<Recommendation>)
  {
    /** The tactical output for channel `c`. */
    function TacticalOf(c: Channel): Option<Recommendation>
    {
      match c
      case Website => websiteTactical
      case Social => socialTactical
      case Ads => adsTactical
    }

    /** The booster output for channel `c`. */
    function BoosterOf(c: Channel): Option<Recommendation>
    {
      match c
      case Website => websiteBooster
      case Social => socialBooster
      case Ads => adsBooster
    }

    /** The present outputs, concatenated in step order. */
    function Items(): (s: seq<Recommendation>)
      ensures |s| <= 7
    {
      ToSeq(websiteTactical) + ToSeq(socialTactical) + ToSeq(adsTactical) + ToSeq(strategic)
      + ToSeq(websiteBooster) + ToSeq(socialBooster) + ToSeq(adsBooster)
    }
  }

  /** An item is listed exactly when some step output it. */
  lemma ItemsMembers(st: Steps, x: Recommendation)
    ensures x in st.Items() <==>
      || (exists c :: st.TacticalOf(c) == Some(x))
      || st.strategic == Some(x)
      || (exists c :: st.BoosterOf(c) == Some(x))
  {
    if st.websiteTactical == Some(x) { assert st.TacticalOf(Website) == Some(x); }
    if st.socialTactical == Some(x) { assert st.TacticalOf(Social) == Some(x); }
    if st.adsTactical == Some(x) { assert st.TacticalOf(Ads) == Some(x); }
    if st.websiteBooster == Some(x) { assert st.BoosterOf(Website) == Some(x); }
    if st.socialBooster == Some(x) { assert st.BoosterOf(Social) == Some(x); }
    if st.adsBooster == Some(x) { assert st.BoosterOf(Ads) == Some(x); }
  }

  /** A tactical output sits among the first three places. */
  lemma ItemsTacticalPlace(st: Steps, c: Channel)
    requires st.TacticalOf(c).Some?
    ensures exists k :: 0 <= k < 3 && k < |st.Items()| && st.Items()[k] == st.TacticalOf(c).value
  {
    var tw, ts := ToSeq(st.websiteTactical), ToSeq(st.socialTactical);
    var k := match c case Website => 0 case Social => |tw| case Ads => |tw| + |ts|;
    assert st.Items()[k] == st.TacticalOf(c).value;
  }

  /** The strategic output sits among the first four places. */
  lemma ItemsStrategicPlace(st: Steps)
    requires st.strategic.Some?
    ensures exists k :: 0 <= k < 4 && k < |st.Items()| && st.Items()[k] == st.strategic.value
  {
    var front := ToSeq(st.websiteTactical) + ToSeq(st.socialTactical) + ToSeq(st.adsTactical);
    assert st.Items()[|front|] == st.strategic.value;
  }

  /** The website and social boosters sit among the first six places. */
  lemma ItemsBoosterPlace(st: Steps, c: Channel)
    requires st.BoosterOf(c).Some? && c != Ads
    ensures exists k :: 0 <= k < 6 && k < |st.Items()| && st.Items()[k] == st.BoosterOf(c).value
  {
    var front := ToSeq(st.websiteTactical) + ToSeq(st.socialTactical) + ToSeq(st.adsTactical) + ToSeq(st.strategic);
    var k := if c == Website then |front| else |front| + |ToSeq(st.websiteBooster)|;
    assert st.Items()[k] == st.BoosterOf(c).value;
  }

  /** Seven items are listed only when every step fired, the ads booster last. */
  lemma ItemsAllSeven(st: Steps)
    requires |st.Items()| == 7
    ensures st.adsBooster.Some? && st.Items()[6] == st.adsBooster.value
  {
    assert |ToSeq(st.adsBooster)| == 1;
  }

  /** When every step fired, the seven outputs are listed in step order. */
  lemma ItemsAllPresent(st: Steps)
    requires st.websiteTactical.Some? && st.socialTactical.Some? && st.adsTactical.Some? && st.strategic.Some?
    requires st.websiteBooster.Some? && st.socialBooster.Some? && st.adsBooster.Some?
    ensures st.Items()
            == [st.websiteTactical.value, st.socialTactical.value, st.adsTactical.value, st.strategic.value,
                st.websiteBooster.value, st.socialBooster.value, st.adsBooster.value]
  {
  }

  /** How many entries of `s` satisfy `p`. */
  function Occurrences(s: seq<Recommendation>, p: Recommendation -> bool): nat
  {
    if |s| == 0 then 0 else (if p(s[0]) then 1 else 0) + Occurrences(s[1..], p)
  }

  /** Counting distributes over concatenation. */
  lemma {:induction false} OccurrencesAppend(a: seq<Recommendation>, b: seq<Recommendation>, p: Recommendation -> bool)
    ensures Occurrences(a + b, p) == Occurrences(a, p) + Occurrences(b, p)
  {
    if |a| == 0 {
      assert a + b == b;
    } else {
      assert (a + b)[1..] == a[1..] + b;
      OccurrencesAppend(a[1..], b, p);
    }
  }

  /** A prefix holds no more matching entries than the whole list. */
  lemma OccurrencesPrefix(t: seq<Recommendation>, s: seq<Recommendation>, p: Recommendation -> bool)
    requires t <= s
    ensures Occurrences(t, p) <= Occurrences(s, p)
  {
    assert s == t + s[|t|..];
    OccurrencesAppend(t, s[|t|..], p);
  }

  /** A matching entry at position `j` is counted. */
  lemma {:induction false} OccurrencesAtLeastOne(s: seq<Recommendation>, p: Recommendation -> bool, j: nat)
    requires j < |s| && p(s[j])
    ensures Occurrences(s, p) >= 1
  {
    if j > 0 {
      OccurrencesAtLeastOne(s[1..], p, j - 1);
    }
  }

  /** Matching entries at two positions are both counted. */
  lemma {:induction false} OccurrencesAtLeastTwo(s: seq<Recommendation>, p: Recommendation -> bool, i: nat, j: nat)
    requires i < j < |s| && p(s[i]) && p(s[j])
    ensures Occurrences(s, p) >= 2
  {
    if i > 0 {
      OccurrencesAtLeastTwo(s[1..], p, i - 1, j - 1);
    } else {
      OccurrencesAtLeastOne(s[1..], p, j - 1);
    }
  }

  /** A step output counts once when it is present and satisfies `p`. */
  function Hit(o: Option<Recommendation>, p: Recommendation -> bool): nat
  {
    if o.Some? && p(o.value) then 1 else 0
  }

  /** How many of the seven step outputs are present and satisfy `p`. */
  function Hits(st: Steps, p: Recommendation -> bool): nat
  {
    Hit(st.websiteTactical, p) + Hit(st.socialTactical, p) + Hit(st.adsTactical, p) + Hit(st.strategic, p)
    + Hit(st.websiteBooster, p) + Hit(st.socialBooster, p) + Hit(st.adsBooster, p)
  }

  /** An option listed as zero or one entries is counted as its hit. */
  lemma OccurrencesOfOption(o: Option<Recommendation>, p: Recommendation -> bool)
    ensures Occurrences(ToSeq(o), p) == Hit(o, p)
  {
    if o.Some? {
      assert ToSeq(o)[1..] == [];
    }
  }

  /** The listed items hold as many matching entries as there are matching step outputs. */
  lemma ItemsOccurrences(st: Steps, p: Recommendation -> bool)
    ensures Occurrences(st.Items(), p) == Hits(st, p)
  {
    var s1, s2, s3, s4 := ToSeq(st.websiteTactical), ToSeq(st.socialTactical), ToSeq(st.adsTactical), ToSeq(st.strategic);
    var s5, s6, s7 := ToSeq(st.websiteBooster), ToSeq(st.socialBooster), ToSeq(st.adsBooster);
    OccurrencesAppend(s1, s2, p);
    OccurrencesAppend(s1 + s2, s3, p);
    OccurrencesAppend(s1 + s2 + s3, s4, p);
    OccurrencesAppend(s1 + s2 + s3 + s4, s5, p);
    OccurrencesAppend(s1 + s2 + s3 + s4 + s5, s6, p);
    OccurrencesAppend(s1 + s2 + s3 + s4 + s5 + s6, s7, p);
    OccurrencesOfOption(st.websiteTactical, p);
    OccurrencesOfOption(st.socialTactical, p);
    OccurrencesOfOption(st.adsTactical, p);
    OccurrencesOfOption(st.strategic, p);
    OccurrencesOfOption(st.websiteBooster, p);
    OccurrencesOfOption(st.socialBooster, p);
    OccurrencesOfOption(st.adsBooster, p);
  }

  /** The outputs of steps 2 to 4 for the ranked opportunities `top` and the breakdown `b`. */
  function StepsFor(top: seq<Weak>, b: ScoreBreakdown): (st: Steps)
    ensures forall c :: st.TacticalOf(c) == TacticalFor(top, b, c) && st.BoosterOf(c) == BoosterFor(b, c)
    ensures st.strategic == StrategicFor(b.percentage)
  {
    Steps(TacticalFor(top, b, Website), TacticalFor(top, b, Social), TacticalFor(top, b, Ads),
          StrategicFor(b.percentage),
          BoosterFor(b, Website), BoosterFor(b, Social), BoosterFor(b, Ads))
  }

  /**
   * Everything the steps produce from the ranked opportunities `top` and the
   * breakdown, in the fixed order, before the cut to six.
   */
  function Assemble(top: seq<Weak>, b: ScoreBreakdown): seq<Recommendation>
  {
    StepsFor(top, b).Items()
  }

  /** The plan for responses `r`: the assembly over the catalog's ranked opportunities. */
  function Planned(r: Responses, b: ScoreBreakdown): seq<Recommendation>
  {
    Assemble(WeakQuestions(Questions, r), b)
  }

  /**
   * generateRecommendations: the planned items in their fixed order, cut to
   * the first six; nothing is re-sorted after assembly.
   */
  function GenerateRecommendations(r: Responses, b: ScoreBreakdown): (recs: seq<Recommendation>)
    ensures |recs| <= MaxRecommendations
    ensures recs <= Planned(r, b)
    ensures |recs| == if |Planned(r, b)| < MaxRecommendations then |Planned(r, b)| else MaxRecommendations
  {
    Take(Planned(r, b), MaxRecommendations)
  }

  /** When all seven items are assembled, the ads booster is the last. */
  lemma AssembleSeventh(top: seq<Weak>, b: ScoreBreakdown)
    requires |Assemble(top, b)| == 7
    ensures Assemble(top, b)[6] == Booster(Ads)
  {
    ItemsAllSeven(StepsFor(top, b));
  }

  /** A tactical item sits among the first three places of the assembly. */
  lemma AssembleTactical(top: seq<Weak>, b: ScoreBreakdown, c: Channel)
    requires TacticalFor(top, b, c).Some?
    ensures exists k :: 0 <= k < 3 && k < |Assemble(top, b)| && Assemble(top, b)[k] == TacticalFor(top, b, c).value
  {
    var st := StepsFor(top, b);
    ItemsTacticalPlace(st, c);
    var k :| 0 <= k < 3 && k < |st.Items()| && st.Items()[k] == st.TacticalOf(c).value;
    assert Assemble(top, b)[k] == TacticalFor(top, b, c).value;
  }

  /** The only item of channel `c` in an assembly other than its booster is its tactical item. */
  lemma AssembleChannelItem(top: seq<Weak>, b: ScoreBreakdown, c: Channel, rec: Recommendation)
    requires rec in Assemble(top, b) && rec.channel == Only(c) && rec != Booster(c)
    ensures TacticalFor(top, b, c) == Some(rec)
  {
    var st := StepsFor(top, b);
    ItemsMembers(st, rec);
  }

  /** The strategic item sits among the first four places of the assembly; no other item addresses all channels. */
  lemma AssembleStrategic(top: seq<Weak>, b: ScoreBreakdown)
    ensures forall rec :: rec in Assemble(top, b) && rec.channel == AllChannels ==> StrategicFor(b.percentage) == Some(rec)
    ensures StrategicFor(b.percentage).Some? ==>
      exists k :: 0 <= k < 4 && k < |Assemble(top, b)| && Assemble(top, b)[k] == StrategicFor(b.percentage).value
  {
    var st := StepsFor(top, b);
    forall rec | rec in Assemble(top, b) && rec.channel == AllChannels
      ensures StrategicFor(b.percentage) == Some(rec)
    {
      ItemsMembers(st, rec);
    }
    if st.strategic.Some? {
      ItemsStrategicPlace(st);
    }
  }

  /** Channel `c`'s booster is in an assembly exactly when its score is below 20, and then before any later booster. */
  lemma AssembleBooster(top: seq<Weak>, b: ScoreBreakdown, c: Channel)
    ensures Booster(c) in Assemble(top, b) <==> b.Score(c) < BoosterBelow
    ensures b.Score(c) < BoosterBelow && c != Ads ==>
      exists k :: 0 <= k < 6 && k < |Assemble(top, b)| && Assemble(top, b)[k] == Booster(c)
  {
    var st := StepsFor(top, b);
    ItemsMembers(st, Booster(c));
    if b.Score(c) < BoosterBelow {
      assert st.BoosterOf(c) == Some(Booster(c));
      if c != Ads {
        ItemsBoosterPlace(st, c);
      }
    }
  }

  /**
   * The cut to six drops at most one item, and only the ads booster: when it
   * drops anything, all seven items were planned and the ads booster was last.
   */
  lemma CapDropsOnlyAdsBooster(r: Responses, b: ScoreBreakdown)
    ensures |Planned(r, b)| <= 7
    ensures var plan, recs := Planned(r, b), GenerateRecommendations(r, b);
      |recs| < |plan| ==> |plan| == 7 && plan[6] == Booster(Ads) && recs == plan[..6]
  {
    var top := WeakQuestions(Questions, r);
    if |GenerateRecommendations(r, b)| < |Planned(r, b)| {
      AssembleSeventh(top, b);
    }
  }

  /** Items of channel `c` other than its booster. */
  function ChannelItemOf(c: Channel): Recommendation -> bool
  {
    (rec: Recommendation) => rec.channel == Only(c) && rec != Booster(c)
  }

  /** Items addressed to all channels. */
  function AllChannelsItem(): Recommendation -> bool
  {
    (rec: Recommendation) => rec.channel == AllChannels
  }

  /** Channel `c`'s booster. */
  function BoosterOfChannel(c: Channel): Recommendation -> bool
  {
    (rec: Recommendation) => rec == Booster(c)
  }

  /** Only channel `c`'s tactical step can produce a non-booster item of `c`. */
  lemma ChannelItemHits(top: seq<Weak>, b: ScoreBreakdown, c: Channel)
    ensures Hits(StepsFor(top, b), ChannelItemOf(c)) <= 1
  {
    var st := StepsFor(top, b);
    forall d | d != c
      ensures Hit(st.TacticalOf(d), ChannelItemOf(c)) == 0 && Hit(st.BoosterOf(d), ChannelItemOf(c)) == 0
    {
    }
    assert Hit(st.BoosterOf(c), ChannelItemOf(c)) == 0;
    assert Hit(st.strategic, ChannelItemOf(c)) == 0;
  }

  /** Only the strategic step produces an item addressed to all channels. */
  lemma AllChannelsHits(top: seq<Weak>, b: ScoreBreakdown)
    ensures Hits(StepsFor(top, b), AllChannelsItem()) <= 1
  {
    var st := StepsFor(top, b);
    forall d
      ensures Hit(st.TacticalOf(d), AllChannelsItem()) == 0 && Hit(st.BoosterOf(d), AllChannelsItem()) == 0
    {
    }
  }

  /** Only channel `c`'s booster step produces its booster. */
  lemma BoosterHits(top: seq<Weak>, b: ScoreBreakdown, c: Channel)
    ensures Hits(StepsFor(top, b), BoosterOfChannel(c)) <= 1
  {
    var st := StepsFor(top, b);
    forall d
      ensures Hit(st.TacticalOf(d), BoosterOfChannel(c)) == 0
    {
      if st.TacticalOf(d).Some? && d == c {
        var i :| 0 <= i < |top| && top[i].question.channel == d && st.TacticalOf(d).value == Tactical(d, top[i]);
        TacticalIsNotBooster(c, top[i]);
      }
    }
    forall d | d != c
      ensures Hit(st.BoosterOf(d), BoosterOfChannel(c)) == 0
    {
    }
    assert Hit(st.strategic, BoosterOfChannel(c)) == 0;
  }

  /** When at most one step can produce an item satisfying `p`, no two places of the cut assembly both satisfy it. */
  lemma CutAtMostOne(top: seq<Weak>, b: ScoreBreakdown, p: Recommendation -> bool)
    requires Hits(StepsFor(top, b), p) <= 1
    ensures var recs := Take(Assemble(top, b), MaxRecommendations);
      forall i, j :: 0 <= i < j < |recs| ==> !(p(recs[i]) && p(recs[j]))
  {
    var st := StepsFor(top, b);
    var recs := Take(Assemble(top, b), MaxRecommendations);
    ItemsOccurrences(st, p);
    OccurrencesPrefix(recs, st.Items(), p);
    forall i, j | 0 <= i < j < |recs|
      ensures !(p(recs[i]) && p(recs[j]))
    {
      if p(recs[i]) && p(recs[j]) {
        OccurrencesAtLeastTwo(recs, p, i, j);
      }
    }
  }

  /** No two places of the output both hold a non-booster item of channel `c`. */
  lemma ChannelItemOnce(r: Responses, b: ScoreBreakdown, c: Channel)
    ensures var recs := GenerateRecommendations(r, b);
      forall i, j :: 0 <= i < j < |recs| ==>
        !(recs[i].channel == Only(c) && recs[i] != Booster(c) && recs[j].channel == Only(c) && recs[j] != Booster(c))
  {
    var top := WeakQuestions(Questions, r);
    ChannelItemHits(top, b, c);
    CutAtMostOne(top, b, ChannelItemOf(c));
  }

  /** No two places of the output both hold an item addressed to all channels. */
  lemma AllChannelsOnce(r: Responses, b: ScoreBreakdown)
    ensures var recs := GenerateRecommendations(r, b);
      forall i, j :: 0 <= i < j < |recs| ==> !(recs[i].channel == AllChannels && recs[j].channel == AllChannels)
  {
    var top := WeakQuestions(Questions, r);
    AllChannelsHits(top, b);
    CutAtMostOne(top, b, AllChannelsItem());
  }

  /** No two places of the output both hold channel `c`'s booster. */
  lemma BoosterOnce(r: Responses, b: ScoreBreakdown, c: Channel)
    ensures var recs := GenerateRecommendations(r, b);
      forall i, j :: 0 <= i < j < |recs| ==> !(recs[i] == Booster(c) && recs[j] == Booster(c))
  {
    var top := WeakQuestions(Questions, r);
    BoosterHits(top, b, c);
    CutAtMostOne(top, b, BoosterOfChannel(c));
  }

  /**
   * A channel gets a tactical item exactly when one of its questions is among
   * the ten ranked opportunities and its percentage is below 70; the item is
   * built from the channel's first ranked question, and every channel item of
   * the output other than the booster is that item, listed once.
   */
  lemma ChannelTacticalItem(r: Responses, b: ScoreBreakdown, c: Channel)
    ensures var top, recs := WeakQuestions(Questions, r), GenerateRecommendations(r, b);
      && ((exists rec :: rec in recs && rec.channel == Only(c) && rec != Booster(c))
          <==> (exists i :: 0 <= i < |top| && top[i].question.channel == c) && b.Percentage(c) < TacticalBelow)
      && (forall rec :: rec in recs && rec.channel == Only(c) && rec != Booster(c) ==>
            FirstOfChannel(top, c).Some? && rec == Tactical(c, FirstOfChannel(top, c).value))
      && (forall i, j :: 0 <= i < j < |recs| ==>
            !(recs[i].channel == Only(c) && recs[i] != Booster(c) && recs[j].channel == Only(c) && recs[j] != Booster(c)))
  {
    var top := WeakQuestions(Questions, r);
    var recs := GenerateRecommendations(r, b);
    ChannelItemOnce(r, b, c);
    forall rec | rec in recs && rec.channel == Only(c) && rec != Booster(c)
      ensures TacticalFor(top, b, c) == Some(rec)
    {
      AssembleChannelItem(top, b, c, rec);
    }
    var t := TacticalFor(top, b, c);
    if t.Some? {
      AssembleTactical(top, b, c);
      var k :| 0 <= k < 3 && k < |Assemble(top, b)| && Assemble(top, b)[k] == t.value;
      assert recs[k] == t.value;
      TacticalIsNotBooster(c, FirstOfChannel(top, c).value);
    }
  }

  /**
   * The output carries the foundation item exactly when the overall percentage
   * is below 50, the consistency item exactly when it lies in [50, 75), and no
   * other item addressed to all channels; at most one such item is listed.
   */
  lemma StrategicItem(r: Responses, b: ScoreBreakdown)
    ensures var recs := GenerateRecommendations(r, b);
      && (Foundation in recs <==> b.percentage < FoundationBelow)
      && (Consistency in recs <==> FoundationBelow <= b.percentage < ConsistencyBelow)
      && (forall rec :: rec in recs && rec.channel == AllChannels ==> rec == Foundation || rec == Consistency)
      && (forall i, j :: 0 <= i < j < |recs| ==> !(recs[i].channel == AllChannels && recs[j].channel == AllChannels))
  {
    StrategicSurvives(WeakQuestions(Questions, r), b);
    AllChannelsOnce(r, b);
  }

  /** The strategic part of the cut assembly, for any ranked list. */
  lemma StrategicSurvives(top: seq<Weak>, b: ScoreBreakdown)
    ensures var recs := Take(Assemble(top, b), MaxRecommendations);
      && (Foundation in recs <==> b.percentage < FoundationBelow)
      && (Consistency in recs <==> FoundationBelow <= b.percentage < ConsistencyBelow)
      && (forall rec :: rec in recs && rec.channel == AllChannels ==> rec == Foundation || rec == Consistency)
  {
    var plan := Assemble(top, b);
    var recs := Take(plan, MaxRecommendations);
    AssembleStrategic(top, b);
    var st := StrategicFor(b.percentage);
    if st.Some? {
      var k :| 0 <= k < 4 && k < |plan| && plan[k] == st.value;
      assert recs[k] == st.value;
    }
    assert Foundation in recs ==> st == Some(Foundation);
    assert Consistency in recs ==> st == Some(Consistency);
  }

  /**
   * The output carries channel `c`'s booster only when the raw channel score
   * is below 20, and always then, except for the ads booster when all seven
   * items were planned. It is listed at most once.
   */
  lemma BoosterItem(r: Responses, b: ScoreBreakdown, c: Channel)
    ensures var recs := GenerateRecommendations(r, b);
      && (Booster(c) in recs ==> b.Score(c) < BoosterBelow)
      && (b.Score(c) < BoosterBelow && (c != Ads || |Planned(r, b)| < 7) ==> Booster(c) in recs)
      && (forall i, j :: 0 <= i < j < |recs| ==> !(recs[i] == Booster(c) && recs[j] == Booster(c)))
  {
    var top := WeakQuestions(Questions, r);
    var recs := GenerateRecommendations(r, b);
    BoosterOnce(r, b, c);
    AssembleBooster(top, b, c);
    if b.Score(c) < BoosterBelow && c != Ads {
      var k :| 0 <= k < 6 && k < |Assemble(top, b)| && Assemble(top, b)[k] == Booster(c);
      assert recs[k] == Booster(c);
    }
  }

  /**
   * The whole report reads the responses only through the ratings of catalog
   * questions: absent keys, zero ratings and foreign keys are indistinguishable.
   */
  lemma ReportDependsOnRatingsOnly(r1: Responses, r2: Responses)
    requires forall i :: 0 <= i < |Questions| ==> RatingOf(r1, Questions[i].id) == RatingOf(r2, Questions[i].id)
    ensures CalculateScores(r1) == CalculateScores(r2)
    ensures GenerateRecommendations(r1, CalculateScores(r1)) == GenerateRecommendations(r2, CalculateScores(r2))
  {
    ScoresDependOnRatingsOnly(r1, r2);
    AnnotateAgree(Questions, r1, r2);
  }

  /** Annotation sees only the ratings of the listed questions. */
  lemma AnnotateAgree(qs: seq<Question>, r1: Responses, r2: Responses)
    requires forall i :: 0 <= i < |qs| ==> RatingOf(r1, qs[i].id) == RatingOf(r2, qs[i].id)
    ensures Annotate(qs, r1) == Annotate(qs, r2)
  {
  }

  /** Leaving a question unanswered yields the same report as answering it with 0. */
  lemma ReportAbsentCountsAsZero(r: Responses, id: string)
    ensures CalculateScores(r - {id}) == CalculateScores(r[id := 0])
    ensures GenerateRecommendations(r - {id}, CalculateScores(r - {id}))
            == GenerateRecommendations(r[id := 0], CalculateScores(r[id := 0]))
  {
    var r1, r2 := r - {id}, r[id := 0];
    assert forall s :: RatingOf(r1, s) == RatingOf(r2, s);
    ReportDependsOnRatingsOnly(r1, r2);
  }
}
