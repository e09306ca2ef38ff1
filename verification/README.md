# Behavioural-science assessment scoring, in Dafny

This project models the scoring core of the BSOS ("The Behavioral Science
Optimization Score") marketing assessment. A visitor rates 33 questions. The
questions are split evenly over three channels: website, social media and
paid ads. Every question is worth 3 points, except `ads_landing_friction`,
which is worth 4. The core does three things:

- `calculateScores` sums the ratings per channel. It rounds each channel
  score to a percentage of the fixed maxima 33 / 33 / 34, and the total to a
  percentage of 100.
- `generateRecommendations` ranks the "weak" questions: those with a gap
  (maximum minus rating) of at least 2. Gaps are sorted descending, with ties
  kept in catalog order, and at most ten are kept. It then emits, in a fixed
  order:
  - up to three channel tactical items (the first ranked question of each
    channel, when the channel is below 70%);
  - at most one strategic item: foundation below 50% overall, consistency
    from 50% to below 75%, none from 75%;
  - up to three channel boosters (channel score below 20).
  The output is cut to six items.
- `getScoreLabel` and `getScoreColor` map a percentage to one of four bands.

Modules:

- `AssessmentData`: the catalog. It holds `Question`, the three blocks of
  eleven questions and the per-channel maxima derived from them.
- `Scoring`: `Responses` (a map from question id to rating), `ScoreBreakdown`
  and `CalculateScores`.
- `Ranking`: the annotated questions (`Weak`), the gap filter, the stable sort
  by descending gap, the top-ten cut and the first ranked question of a
  channel.
- `Recommendations`: the recommendation items, the seven steps
  (`Steps`/`StepsFor`), their assembly in step order and
  `GenerateRecommendations`.
- `Labels`: the score label and the colour class.
- `Scenarios`: worked examples on the real catalog.
- `Wrappers`: `Option`.

`Math.round(100 * s / m)` is modelled as `RoundPercent(s, m) = (200 * s + m) / (2 * m)`
using floor division. For integer `s` and the maxima 33, 34 and 100 this never
meets a half-way tie. `RoundPercentNearest` states the rounding property that
defines it. A missing response counts as 0, exactly like the source's
`responses[id] || 0` does for integer ratings. The stable `Array.prototype.sort`
is modelled as an insertion sort. Its stability is stated as "for every gap
`g`, the entries of gap `g` keep their input order". `SortByGapIsTheStableSort`
proves that this determines the result: every stable sort gives the same
output.

The recommendation texts are not duplicated inside the items. A tactical
item's description is `Quote(questionId, channel)`: it quotes a catalog
question by id, and the source builds it as the question's text, a colon, its
description and a channel-specific closing sentence. The other items carry a
`Fixed` template. `Recommendations.Rendered` spells out both kinds of text.
Titles, impact, effort, timeline and channel are kept literally.

Rating every non-website question 3 does not fill the ads channel.
`ads_landing_friction` is worth 4, so ads reaches 33/34 (97%) and the total
77 (`Scenarios.AllThreesScores`). Ads 34 and total 78 need that question rated
4 (`Scenarios.WebsiteOnesScores`).

## Model

| member | source | states |
|---|---|---|
| AssessmentData.CatalogShape | lib/assessment-data.ts:12-282 | the catalog has 33 questions; all are worth 3 except position 30 (`ads_landing_friction`), worth 4; they are listed website first, then social, then ads |
| AssessmentData.CatalogIdsDistinct | lib/assessment-data.ts:14-281 | no two catalog questions share an id, so a response map keys each question unambiguously |
| AssessmentData.Keyed | lib/assessment-data.ts:3-10 | pairing distinct ids with texts position by position gives a map whose keys are exactly the ids, each mapped to its own question's text |
| AssessmentData.ProseKeysAreCatalogIds | lib/assessment-data.ts:12-282 | every catalog question has a display text and description, every keyed text belongs to a catalog question, and each id maps to its own question's text and description |
| AssessmentData.BlockChannels | lib/assessment-data.ts:12-282 | each authored block has eleven questions, all of its own channel |
| AssessmentData.BlockInCatalog | lib/assessment-data.ts:12-282 | each channel's block is the stretch of the catalog starting at offset 0, 11 or 22 |
| AssessmentData.ChannelSumAppend | lib/assessment-data.ts:285-295 | a per-channel sum (filter by channel, then reduce) over a concatenation is the sum over the parts |
| AssessmentData.ChannelSumMono | lib/assessment-data.ts:285-295 | a per-channel sum grows when every question's contribution grows |
| AssessmentData.ChannelSumOwnPart | lib/assessment-data.ts:285-295 | over website, social and ads lists laid end to end, only the list of channel c adds to the channel-c sum |
| AssessmentData.CatalogSumOfChannel | lib/assessment-data.ts:285-295 | a channel sum over the whole catalog equals the sum over that channel's block |
| AssessmentData.BlockMaxExceptOne | lib/assessment-data.ts:193-281 | a block of k-point questions with one m-point question holds k·(n−1)+m points for its channel and none for the others |
| AssessmentData.AdsBlockMax | lib/assessment-data.ts:193-281 | the ads block holds 34 ads points, because the landing-page question is worth 4 |
| AssessmentData.MaxScoresByBlock | lib/assessment-data.ts:285-295 | maxScores is 33 for website, 33 for social and 34 for ads |
| AssessmentData.CatalogMaxScores | lib/assessment-data.ts:285-297 | the derived maxima are 33 / 33 / 34 and totalMaxScore is 100 |
| Scoring.RoundPercentNearest | lib/scoring.ts:56-59 | the rounded percentage p is the integer nearest to 100·s/m: m(2p−1) ≤ 200s < m(2p+1) |
| Scoring.ChannelScoresPartition | lib/scoring.ts:34-45 | the three channel scores add up to the sum of all ratings, since every question belongs to exactly one channel |
| Scoring.Breakdown | lib/scoring.ts:45-60 | the breakdown of three channel scores: total is their sum; overall percentage equals the total; each channel percentage is its score rounded against 33, 33 or 34 |
| Scoring.CalculateScores | lib/scoring.ts:29-61 | each channel score is the sum of that channel's ratings (missing ones count 0); the total is the sum of all ratings; percentages are rounded against the fixed maxima |
| Scoring.PercentagesRounded | lib/scoring.ts:56-59 | for every channel, its percentage is its score rounded against that channel's maximum |
| Scoring.MaximaMatchCatalog | lib/scoring.ts:46-49 | the hard-coded maxima 100 / 33 / 33 / 34 agree with the maxima derived from the catalog |
| Scoring.RoundPercentMono | lib/scoring.ts:56-59 | rounding to a percentage never reverses the order of two scores |
| Scoring.RoundPercentRange | lib/scoring.ts:56-59 | 0 points is 0%, full points is 100%, and a score within bounds rounds within 0..100 |
| Scoring.ScoresDependOnRatingsOnly | lib/scoring.ts:34-35 | two response maps that rate every catalog question alike get the same breakdown; keys outside the catalog are ignored |
| Scoring.AbsentCountsAsZero | lib/scoring.ts:35 | leaving a question unanswered scores exactly like answering it 0 |
| Scoring.ScoresMonotone | lib/scoring.ts:29-61 | raising ratings never lowers any score or percentage |
| Scoring.ScoresInRange | lib/scoring.ts:29-61 | with every rating between 0 and its maximum, each score is within its channel maximum and every percentage within 0..100 |
| Scoring.AllMaxScores | lib/scoring.ts:29-61 | all ratings at their maximum give 33 / 33 / 34, total 100, and 100% everywhere |
| Scoring.EmptyScores | lib/scoring.ts:29-61 | the empty response map scores 0 everywhere |
| Ranking.Annotate | lib/scoring.ts:70-75 | each question becomes an entry with its rating (0 when missing) and gap maxScore − rating, in catalog order |
| Ranking.Significant | lib/scoring.ts:76 | the filter keeps exactly the entries with gap at least 2 |
| Ranking.WithGapSignificant | lib/scoring.ts:76 | filtering keeps each gap ≥ 2's entries in order and drops every smaller gap |
| Ranking.SignificantAppend | lib/scoring.ts:76 | the filter distributes over concatenation |
| Ranking.InsertSorted | lib/scoring.ts:77 | inserting into a gap-sorted list keeps it sorted |
| Ranking.InsertStable | lib/scoring.ts:77 | insertion places the new entry after every earlier entry of its gap and moves nothing else |
| Ranking.SortByGap | lib/scoring.ts:77 | the sort result is ordered by descending gap, is a permutation of the input, and keeps input order within each gap |
| Ranking.SortedStableUnique | lib/scoring.ts:77 | two gap-sorted lists with the same entries of each gap, in the same order, are equal |
| Ranking.SortByGapIsTheStableSort | lib/scoring.ts:77 | any stable descending-gap sort of the input equals the model's sort |
| Ranking.Take | lib/scoring.ts:78 | slice(0, n) is the prefix of length min(n, length) |
| Ranking.TopStable | lib/scoring.ts:70-78 | within each gap, the ranking lists a prefix of the input's entries of that gap |
| Ranking.TopComplete | lib/scoring.ts:70-78 | a gap-≥2 entry left out of the ranking was cut by ten ranked entries whose gaps are all at least its own |
| Ranking.WeakQuestions | lib/scoring.ts:70-78 | at most ten entries, all from the input with gap ≥ 2; sorted by gap; per-gap input order kept; any omitted significant entry is outranked by a full list |
| Ranking.FirstOfChannel | lib/scoring.ts:81-83 | the first entry of the channel, or none exactly when no entry has that channel |
| Ranking.FirstOfChannelHasMaxGap | lib/scoring.ts:81-83 | in a sorted ranking, a channel's first entry has that channel's biggest gap |
| Ranking.CatalogGapsInRange | lib/scoring.ts:74 | with ratings within bounds, every gap lies between 0 and the question's maximum |
| Recommendations.Tactical | lib/scoring.ts:84-119 | a tactical item targets its channel, is High impact exactly when the gap is at least 3 (otherwise Medium), and quotes its question |
| Recommendations.Booster | lib/scoring.ts:146-180 | a booster targets its channel and carries fixed text |
| Recommendations.TacticalIsNotBooster | lib/scoring.ts:81-180 | a channel's tactical item and its booster are different items |
| Recommendations.TacticalFor | lib/scoring.ts:80-120 | a tactical item appears exactly when some ranked question has the channel and the channel is below 70%; it is built from the channel's first ranked question |
| Recommendations.StrategicFor | lib/scoring.ts:122-143 | the foundation item below 50%, the consistency item from 50 to below 75, nothing from 75 |
| Recommendations.BoosterFor | lib/scoring.ts:145-180 | a channel booster appears exactly when the channel score is below 20 |
| Recommendations.ItemsMembers | lib/scoring.ts:80-180 | an item is in the assembly exactly when some step produced it |
| Recommendations.ItemsAllPresent | lib/scoring.ts:80-180 | when all seven steps fire, the assembly is their outputs in step order |
| Recommendations.GenerateRecommendations | lib/scoring.ts:63-184 | at most six items; a prefix of the step-order assembly; exactly min(6, planned) of them |
| Recommendations.AssembleSeventh | lib/scoring.ts:170-183 | when seven items are planned, the seventh is the ads booster |
| Recommendations.AssembleChannelItem | lib/scoring.ts:80-180 | a planned channel item that is not the booster is that channel's tactical item |
| Recommendations.AssembleBooster | lib/scoring.ts:145-180 | a booster is planned exactly when its channel score is below 20; website and social boosters are among the first six |
| Recommendations.CapDropsOnlyAdsBooster | lib/scoring.ts:183 | the cut to six removes at most one item, and only when seven are planned: the ads booster |
| Recommendations.ChannelTacticalItem | lib/scoring.ts:80-120 | the output holds a channel's non-booster item exactly when a ranked question has the channel and the channel is below 70%, and it is the tactical item of the first such question; no two places of the output hold such an item |
| Recommendations.StrategicItem | lib/scoring.ts:122-143 | the output holds the foundation item exactly below 50%, the consistency item exactly from 50 to below 75, and no other all-channel item; no two places of the output hold an all-channel item |
| Recommendations.BoosterItem | lib/scoring.ts:145-183 | a booster in the output means its channel scored below 20; below 20 puts it in the output, unless it is the ads booster of a seven-item plan; no two places of the output hold the same booster |
| Recommendations.ReportDependsOnRatingsOnly | lib/scoring.ts:63-78 | responses that rate the catalog alike get the same breakdown and the same recommendations |
| Recommendations.ReportAbsentCountsAsZero | lib/scoring.ts:73-74 | leaving a question unanswered changes neither the scores nor the recommendations compared with answering 0 |
| Labels.ScoreLabel | lib/scoring.ts:186-191 | Sophisticated from 75, Moderate from 50, Limited from 25, Minimal below, each as an if-and-only-if |
| Labels.ScoreColor | lib/scoring.ts:193-198 | green from 75, blue from 50, yellow from 25, red below, each as an if-and-only-if |
| Labels.LabelAndColorShareBand | lib/scoring.ts:186-198 | label and colour are both read off the same four-band index |
| Labels.SameLabelIffSameColor | lib/scoring.ts:186-198 | two percentages share a label exactly when they share a colour |
| Labels.BandMonotone | lib/scoring.ts:186-198 | a higher percentage never gets a lower band |
| Scenarios.RoundSeventeenOfThirtyThree | lib/scoring.ts:57 | 17 of 33 website points show as 52% |
| Scenarios.UnscoredScores | lib/scoring.ts:29-61 | a questionnaire with every rating 0 or missing scores 0 everywhere |
| Scenarios.UnscoredRanking | lib/scoring.ts:70-78 | with nothing scored, the ranking is `ads_landing_friction` (gap 4) followed by the first nine website questions |
| Scenarios.UnscoredRecommendations | lib/scoring.ts:63-184 | with nothing scored, the output is the website and ads tactical items, the foundation item and all three boosters; there is no social tactical item |
| Scenarios.UnscoredTacticalItems | lib/scoring.ts:84-115 | those tactical items are "Enhance Social Proof on Website" and "Optimize Landing Page in Advertising", both High impact |
| Scenarios.CapScores | lib/scoring.ts:29-61 | the capped input scores 18 / 18 / 19, total 55, shown as 55 / 55 / 55 / 56% |
| Scenarios.CapRanking | lib/scoring.ts:70-78 | the capped input ranks the first two questions of each channel, in catalog order |
| Scenarios.CapDropsAdsBooster | lib/scoring.ts:170-183 | the capped input plans seven items and loses the ads booster to the cut, although its ads score is below 20 |
| Scenarios.WebsiteOnesScores | lib/scoring.ts:29-61 | website at 1 and every other question at its maximum scores 11 / 33 / 34, total 78, shown as 78 / 33 / 100 / 100% |
| Scenarios.WebsiteOnesRecommendations | lib/scoring.ts:63-184 | that input gets only the Medium-impact website tactical item and the website booster |
| Scenarios.AllThreesScores | lib/scoring.ts:29-61 | website at 1 and every other question at 3 scores ads 33 of 34 (97%), total 77 |

## Left out

- The HTTP route, the persistence layer, the pages and the slider are not part of this model. The assessment form and slider collect ratings. The route stores them and calls `calculateScores` (app/api/assessment/route.ts:18). The results page calls both engine functions (app/forma/results/[id]/page.tsx:37-38). The landing page is static. None of them holds scoring logic.
- Ratings are integers. JavaScript number behaviour is not modelled: non-integer ratings, NaN (which `|| 0` turns into 0) and precision loss beyond 2^53. Integer ratings, out-of-range ones included, are summed as they are, as in the source.
- `Math.round` on floating point is modelled by exact integer rounding. No half-way case arises for the maxima 33, 34 and 100.
- Question text and description: the catalog keeps them in `ProseTexts`, in catalog order, and `QuestionProse` keys them by id. Scoring and ranking never read them.
- Recommendations.Rendered: spells out the description texts. No property is proved about the text beyond the item's `Quote`/`Fixed` form.
- Recommendations.Tactical: the contract states the channel, the impact rule and the quoted question. The title pattern, effort and timeline are literals in the body; `Scenarios.UnscoredTacticalItems` checks two concrete titles.
- Recommendations.Booster: the contract states the channel and fixed text. The impact, effort and timeline values are literals in the body.
- `maxScores` and `totalMaxScore` are not read by `calculateScores`, which hard-codes its maxima. `Scoring.MaximaMatchCatalog` proves that the two agree.
