/**
 * The health-score ring (src/components/dashboard/HealthScoreGauge.tsx): the colour of the
 * score text, the word under it and the colour of the ring, all chosen by the same score bands.
 */
module HealthScoreGauge {
  import opened Numbers

  /** `getScoreColor`. */
  function ScoreColor(score: Float): (r: string)
    ensures r == "text-success" <==> AtLeast(score, 80.0)
    ensures r == "text-warning" <==> AtLeast(score, 60.0) && !AtLeast(score, 80.0)
    ensures r == "text-destructive" <==> !AtLeast(score, 60.0)
  {
    if AtLeast(score, 80.0) then "text-success"
    else if AtLeast(score, 60.0) then "text-warning"
    else "text-destructive"
  }

  /** `getScoreLabel`. */
  function ScoreLabel(score: Float): (r: string)
    ensures r == "Excellent" <==> AtLeast(score, 80.0)
    ensures r == "Good" <==> AtLeast(score, 60.0) && !AtLeast(score, 80.0)
    ensures r == "Fair" <==> AtLeast(score, 40.0) && !AtLeast(score, 60.0)
    ensures r == "Poor" <==> !AtLeast(score, 40.0)
  {
    if AtLeast(score, 80.0) then "Excellent"
    else if AtLeast(score, 60.0) then "Good"
    else if AtLeast(score, 40.0) then "Fair"
    else "Poor"
  }

  /** The `stroke` of the score ring: the theme colour of the band the score text is in. */
  function StrokeColor(score: Float): (r: string)
    ensures r == "hsl(var(--success))" <==> ScoreColor(score) == "text-success"
    ensures r == "hsl(var(--warning))" <==> ScoreColor(score) == "text-warning"
    ensures r == "hsl(var(--destructive))" <==> ScoreColor(score) == "text-destructive"
  {
    if AtLeast(score, 80.0) then "hsl(var(--success))"
    else if AtLeast(score, 60.0) then "hsl(var(--warning))"
    else "hsl(var(--destructive))"
  }

  /** How good a text colour is: destructive, then warning, then success. */
  function ColorRank(color: string): nat {
    if color == "text-success" then 2 else if color == "text-warning" then 1 else 0
  }

  /** How good a label is: Poor, Fair, Good, Excellent. */
  function LabelRank(word: string): nat {
    if word == "Excellent" then 3 else if word == "Good" then 2 else if word == "Fair" then 1 else 0
  }

  /** A higher score never gets a worse colour or a worse label. */
  lemma Monotone(a: Float, b: Float)
    requires a.Finite? && b.Finite? && a.v <= b.v
    ensures ColorRank(ScoreColor(a)) <= ColorRank(ScoreColor(b))
    ensures LabelRank(ScoreLabel(a)) <= LabelRank(ScoreLabel(b))
  {
  }

  /** NaN fails every `>=` test and gets the lowest band. */
  lemma NaNScore()
    ensures ScoreColor(NaN) == "text-destructive" && ScoreLabel(NaN) == "Poor"
    ensures StrokeColor(NaN) == "hsl(var(--destructive))"
  {
  }

  /** The ring uses the same bands as the text: the theme colour of each band is the one the text class names. */
  lemma StrokeMatchesText(a: Float, b: Float)
    ensures StrokeColor(a) == "hsl(var(--success))" <==> ScoreColor(a) == "text-success"
    ensures StrokeColor(a) == "hsl(var(--warning))" <==> ScoreColor(a) == "text-warning"
    ensures StrokeColor(a) == "hsl(var(--destructive))" <==> ScoreColor(a) == "text-destructive"
    ensures StrokeColor(a) == StrokeColor(b) <==> ScoreColor(a) == ScoreColor(b)
  {
  }

  /** Excellent goes with success, Good with warning, and both Fair and Poor with destructive. */
  lemma LabelAgreesWithColor(score: Float)
    ensures ScoreLabel(score) == "Excellent" <==> ScoreColor(score) == "text-success"
    ensures ScoreLabel(score) == "Good" <==> ScoreColor(score) == "text-warning"
    ensures ScoreLabel(score) == "Fair" || ScoreLabel(score) == "Poor" <==> ScoreColor(score) == "text-destructive"
  {
  }
}
