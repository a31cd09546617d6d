/** Log levels, the emit/suppress rule and the level-to-label table of the
    log controller (controller/logcontroller.cpp:144-148 and 165-168). */
module Levels {

  import opened Wrappers

  /** The five levels, in the order the enumeration declares them.
      The order is the one the filter compares, not a severity scale. */
  datatype LogLevel = Error | Debug | Warning | Info | Feature

  /** The integer value of a level: its place in the declaration order. */
  function Ordinal(l: LogLevel): (n: nat)
    ensures n < |Labels|
    ensures n == 0 <==> l == Error
    ensures n == 1 <==> l == Debug
    ensures n == 2 <==> l == Warning
    ensures n == 3 <==> l == Info
    ensures n == 4 <==> l == Feature
  {
    match l
    case Error => 0
    case Debug => 1
    case Warning => 2
    case Info => 3
    case Feature => 4
  }

  /** The emit rule: a message is dropped when the threshold's value is
      below the message's and the message is not a Feature message. */
  function ShouldEmit(threshold: LogLevel, level: LogLevel): (emit: bool)
    ensures emit <==> (level == Feature || Ordinal(level) <= Ordinal(threshold))
  {
    !(Ordinal(threshold) < Ordinal(level) && level != Feature)
  }

  /** Raising the threshold never suppresses a message that got through. */
  lemma ShouldEmitMonotone(t: LogLevel, u: LogLevel, level: LogLevel)
    requires Ordinal(t) <= Ordinal(u)
    ensures ShouldEmit(t, level) ==> ShouldEmit(u, level)
  {
  }

  /** With threshold Error only Error and Feature messages pass; with
      threshold Info or Feature every message passes. */
  lemma ExtremeThresholds(level: LogLevel)
    ensures ShouldEmit(Error, level) <==> level in {Error, Feature}
    ensures ShouldEmit(Info, level) && ShouldEmit(Feature, level)
  {
  }

  /** The label table, indexed by ordinal. */
  const Labels: seq<string> := ["Error", "Debug", "Warning", "Info", "Feature"]

  /** The display label of a level: the table entry at its ordinal. */
  function TypeToText(l: LogLevel): (text: string)
    ensures text in Labels
    ensures |text| > 0 && ' ' !in text
  {
    Labels[Ordinal(l)]
  }

  /** The fixed five labels, one per level. */
  lemma LabelTable()
    ensures TypeToText(Error) == "Error"
    ensures TypeToText(Debug) == "Debug"
    ensures TypeToText(Warning) == "Warning"
    ensures TypeToText(Info) == "Info"
    ensures TypeToText(Feature) == "Feature"
  {
  }

  /** Reading a label back: the level whose table entry it is, if any. */
  function LevelOfText(s: string): (r: Option<LogLevel>)
  {
    if s == "Error" then Some(Error)
    else if s == "Debug" then Some(Debug)
    else if s == "Warning" then Some(Warning)
    else if s == "Info" then Some(Info)
    else if s == "Feature" then Some(Feature)
    else None
  }

  /** The label table is a bijection between the levels and the five labels:
      every label reads back as its level, and only labels read back. */
  lemma LabelRoundTrip(l: LogLevel, s: string)
    ensures LevelOfText(TypeToText(l)) == Some(l)
    ensures LevelOfText(s) == Some(l) <==> TypeToText(l) == s
  {
  }

}
