/**
 * The four score bands shown next to a percentage: a label and a text colour,
 * both cut at 75, 50 and 25.
 */
module Labels {

  /** The lower edges of the three upper bands. */
  const SophisticatedFrom: int := 75
  const ModerateFrom: int := 50
  const LimitedFrom: int := 25

  /** The band names, weakest first. */
  const LabelNames: seq<string> := ["Minimal", "Limited", "Moderate", "Sophisticated"]

  /** The band colours, weakest first, aligned with `LabelNames`. */
  const ColorNames: seq<string> := ["text-red-600", "text-yellow-600", "text-blue-600", "text-green-600"]

  /** getScoreLabel: the first band whose lower edge the percentage reaches. */
  function ScoreLabel(percentage: int): (name: string)
    ensures name == "Sophisticated" <==> percentage >= SophisticatedFrom
    ensures name == "Moderate" <==> ModerateFrom <= percentage < SophisticatedFrom
    ensures name == "Limited" <==> LimitedFrom <= percentage < ModerateFrom
    ensures name == "Minimal" <==> percentage < LimitedFrom
  {
    if percentage >= SophisticatedFrom then "Sophisticated"
    else if percentage >= ModerateFrom then "Moderate"
    else if percentage >= LimitedFrom then "Limited"
    else "Minimal"
  }

  /** getScoreColor: the colour of the same bands. */
  function ScoreColor(percentage: int): (color: string)
    ensures color == "text-green-600" <==> percentage >= SophisticatedFrom
    ensures color == "text-blue-600" <==> ModerateFrom <= percentage < SophisticatedFrom
    ensures color == "text-yellow-600" <==> LimitedFrom <= percentage < ModerateFrom
    ensures color == "text-red-600" <==> percentage < LimitedFrom
  {
    if percentage >= SophisticatedFrom then "text-green-600"
    else if percentage >= ModerateFrom then "text-blue-600"
    else if percentage >= LimitedFrom then "text-yellow-600"
    else "text-red-600"
  }

  /** The band index 0..3 of a percentage, weakest first. */
  function Band(percentage: int): (k: nat)
    ensures k < 4
  {
    if percentage >= SophisticatedFrom then 3
    else if percentage >= ModerateFrom then 2
    else if percentage >= LimitedFrom then 1
    else 0
  }

  /** Label and colour are the two names of one band: each is the band's entry in its table. */
  lemma LabelAndColorShareBand(percentage: int)
    ensures ScoreLabel(percentage) == LabelNames[Band(percentage)]
    ensures ScoreColor(percentage) == ColorNames[Band(percentage)]
  {
  }

  /** Two percentages get the same label exactly when they get the same colour. */
  lemma SameLabelIffSameColor(p: int, q: int)
    ensures ScoreLabel(p) == ScoreLabel(q) <==> ScoreColor(p) == ScoreColor(q)
  {
    LabelAndColorShareBand(p);
    LabelAndColorShareBand(q);
    assert LabelNames[0] != LabelNames[1] && LabelNames[0] != LabelNames[2] && LabelNames[0] != LabelNames[3];
    assert LabelNames[1] != LabelNames[2] && LabelNames[1] != LabelNames[3] && LabelNames[2] != LabelNames[3];
  }

  /** A higher percentage never gets a weaker band. */
  lemma BandMonotone(p: int, q: int)
    requires p <= q
    ensures Band(p) <= Band(q)
  {
  }
}
