/**
 * The change badge of a metric card (src/components/dashboard/MetricCard.tsx): the sign
 * classification of the change, the trend icon, the badge classes, the magnitude shown and
 * the optional benchmark and description rows.
 */
module MetricCard {
  import opened Wrappers
  import opened Numbers

  datatype TrendIcon = TrendingUp | TrendingDown | Minus

  /** `isPositive`, `isNegative`, `isNeutral`. */
  datatype Sign = Sign(isPositive: bool, isNegative: bool, isNeutral: bool)

  /** The three sign flags of a change: for a number exactly one of them holds, for NaN none does. */
  function Classify(change: Float): (s: Sign)
    ensures s.isPositive <==> change.Finite? && change.v > 0.0
    ensures s.isNegative <==> change.Finite? && change.v < 0.0
    ensures s.isNeutral <==> change.Finite? && change.v == 0.0
    ensures change.Finite? ==> FlagCount(s) == 1
    ensures change.NaN? ==> FlagCount(s) == 0
  {
    Sign(IsPositive(change), IsNegative(change), IsZero(change))
  }

  /** How many of the three flags hold. */
  function FlagCount(s: Sign): nat {
    (if s.isPositive then 1 else 0) + (if s.isNegative then 1 else 0) + (if s.isNeutral then 1 else 0)
  }

  /** `getTrendIcon`: for a consistent sign (one flag), the icon of that flag; with no flag, the dash. */
  function GetTrendIcon(s: Sign): (r: TrendIcon)
    ensures FlagCount(s) == 1 ==> (r == TrendingUp <==> s.isPositive)
    ensures FlagCount(s) == 1 ==> (r == TrendingDown <==> s.isNegative)
    ensures FlagCount(s) == 1 ==> (r == Minus <==> s.isNeutral)
    ensures FlagCount(s) == 0 ==> r == Minus
  {
    if s.isPositive then TrendingUp
    else if s.isNegative then TrendingDown
    else Minus
  }

  /** The icon for a change: up when it is positive, down when negative, a dash for zero and NaN. */
  lemma IconOfChange(change: Float)
    ensures GetTrendIcon(Classify(change)) == TrendingUp <==> IsPositive(change)
    ensures GetTrendIcon(Classify(change)) == TrendingDown <==> IsNegative(change)
    ensures GetTrendIcon(Classify(change)) == Minus <==> IsZero(change) || change.NaN?
  {
  }

  const BadgeBase := "flex items-center gap-1 px-2 py-1 rounded-full text-xs font-medium"

  /** `cn(base, {...: isPositive, ...: isNegative, ...: isNeutral})`: the base, then each class whose flag holds. */
  function BadgeClasses(s: Sign): (r: seq<string>)
    ensures |r| >= 1 && r[0] == BadgeBase
    ensures "bg-accent-light text-success" in r <==> s.isPositive
    ensures "bg-destructive/10 text-destructive" in r <==> s.isNegative
    ensures "bg-muted text-muted-foreground" in r <==> s.isNeutral
    ensures |r| == 1 + FlagCount(s)
  {
    [BadgeBase]
      + (if s.isPositive then ["bg-accent-light text-success"] else [])
      + (if s.isNegative then ["bg-destructive/10 text-destructive"] else [])
      + (if s.isNeutral then ["bg-muted text-muted-foreground"] else [])
  }

  /** The number in the badge, `Math.abs(change)` before `toFixed(1)`. */
  function BadgeMagnitude(change: Float): (r: Float)
    ensures r.NaN? <==> change.NaN?
    ensures r.Finite? ==> r.v >= 0.0
  {
    Abs(change)
  }

  /** The badge hides the sign: a change and its negation show the same number. */
  lemma MagnitudeHidesSign(change: Float)
    ensures BadgeMagnitude(Neg(change)) == BadgeMagnitude(change)
    ensures change.Finite? ==> BadgeMagnitude(change) == Finite(if change.v < 0.0 then -change.v else change.v)
  {
  }

  /** `{prop && (...)}` for a string prop: rendered when it is given and non-empty. */
  function OptionalRow(prop: Option<string>): (r: Option<string>)
    ensures r.Some? <==> prop.Some? && prop.value != ""
    ensures r.Some? ==> r == prop
  {
    if prop.Some? && prop.value != "" then prop else None
  }

  datatype Card = Card(
    title: string, value: string, icon: TrendIcon, badgeClasses: seq<string>, magnitude: Float,
    changeLabel: string, benchmarkRow: Option<string>, descriptionRow: Option<string>)

  /** The rendered card. */
  function CardOf(title: string, value: string, change: Float, changeLabel: string,
                  benchmark: Option<string>, description: Option<string>): (c: Card)
    ensures c.icon == TrendingUp <==> IsPositive(change)
    ensures c.icon == TrendingDown <==> IsNegative(change)
    ensures change.Finite? ==> |c.badgeClasses| == 2
    ensures c.magnitude == BadgeMagnitude(Neg(change))
    ensures c.benchmarkRow.Some? <==> benchmark.Some? && benchmark.value != ""
    ensures c.descriptionRow.Some? <==> description.Some? && description.value != ""
  {
    MagnitudeHidesSign(change);
    var s := Classify(change);
    Card(title, value, GetTrendIcon(s), BadgeClasses(s), BadgeMagnitude(change), changeLabel,
         OptionalRow(benchmark), OptionalRow(description))
  }
}
