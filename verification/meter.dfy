/**
 * The confidence meter's classification of a score into one of three
 * display levels, each a fixed (label, colour, text class) triple.
 */
module ConfidenceMeter {

  datatype Level = Level(name: string, color: string, textClass: string)

  const HighLevel: Level := Level("High", "confidence-high", "text-success")
  const MediumLevel: Level := Level("Medium", "confidence-medium", "text-warning")
  const LowLevel: Level := Level("Low", "confidence-low", "text-destructive")

  /** The level shown for a score: High from 70, Medium from 40, Low below. */
  function GetConfidenceLevel(val: real): (r: Level)
    ensures r == HighLevel <==> val >= 70.0
    ensures r == MediumLevel <==> 40.0 <= val < 70.0
    ensures r == LowLevel <==> val < 40.0
  {
    if val >= 70.0 then HighLevel
    else if val >= 40.0 then MediumLevel
    else LowLevel
  }

  /** Low < Medium < High. */
  function Rank(l: Level): nat {
    if l == HighLevel then 2 else if l == MediumLevel then 1 else 0
  }

  /** A higher score never shows a lower level. */
  lemma LevelMonotone(a: real, b: real)
    requires a <= b
    ensures Rank(GetConfidenceLevel(a)) <= Rank(GetConfidenceLevel(b))
  {
  }

  /** The label alone determines colour and text class: the triples never mix. */
  lemma LabelDeterminesLevel(a: real, b: real)
    requires GetConfidenceLevel(a).name == GetConfidenceLevel(b).name
    ensures GetConfidenceLevel(a) == GetConfidenceLevel(b)
  {
  }
}
