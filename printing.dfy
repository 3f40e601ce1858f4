// The Go colour helpers: the colour of a percentage against strict thresholds, and the lines
// a check writes to the status bar.
module Printing {
  import opened Numeric

  const RED: string := "#FF0000"
  const YELLOW: string := "#FFFC00"

  /**
   * `DefineColor`: red strictly above critical, yellow strictly above warning, and no colour
   * (the empty string) otherwise.
   */
  function DefineColor(currentPercent: int8, warning: int8, critical: int8): (color: string)
    ensures color == RED <==> currentPercent > critical
    ensures color == YELLOW <==> critical >= currentPercent > warning
    ensures color == "" <==> currentPercent <= critical && currentPercent <= warning
  {
    if currentPercent > critical then RED
    else if currentPercent > warning then YELLOW
    else ""
  }

  /** Rank of a colour: none, yellow, red. */
  function Rank(color: string): nat {
    if color == RED then 2 else if color == YELLOW then 1 else 0
  }

  /** With warning at most critical, a higher percentage never gets a lesser colour. */
  lemma DefineColorMonotone(p1: int8, p2: int8, warning: int8, critical: int8)
    requires warning <= critical && p1 <= p2
    ensures Rank(DefineColor(p1, warning, critical)) <= Rank(DefineColor(p2, warning, critical))
  {
  }

  /** The bounds are exclusive: a value equal to critical is yellow at most, equal to warning uncoloured. */
  lemma DefineColorStrictBounds(warning: int8, critical: int8)
    ensures DefineColor(critical, warning, critical) != RED
    ensures DefineColor(warning, warning, critical) != YELLOW
    ensures warning <= critical ==> DefineColor(warning, warning, critical) == ""
  {
  }

  /** `ColorPrint`, as the lines it writes: the message twice, then the colour when there is one. */
  function ColorPrint(message: string, color: string): (lines: seq<string>)
    ensures |lines| >= 2 && lines[0] == message && lines[1] == message
    ensures color == "" <==> |lines| == 2
    ensures color != "" ==> lines[2..] == [color]
  {
    [message, message] + (if color != "" then [color] else [])
  }
}
