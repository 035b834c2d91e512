/** Output-target detection (Sources/Logger/OutputTarget.swift).

    The source reads the `XcodeColors` and `TERM` environment variables and asks
    `isatty` about standard output; here those readings are the inputs. */
module OutputTargets {
  import opened Results

  datatype OutputTarget = Unknown | Console | XcodeColors

  /** ASCII lower-casing of one character. */
  function LowerChar(c: char): (d: char)
    ensures 'A' <= c <= 'Z' ==> d as int == c as int + 32
    ensures !('A' <= c <= 'Z') ==> d == c
  {
    if 'A' <= c <= 'Z' then (c as int + 32) as char else c
  }

  /** `lowercased()`, character by character. */
  function Lowercased(s: string): (r: string)
    ensures |r| == |s|
    ensures forall i :: 0 <= i < |s| ==> r[i] == LowerChar(s[i])
  {
    seq(|s|, i requires 0 <= i < |s| => LowerChar(s[i]))
  }

  /** `OutputTarget.current`: `XcodeColors=YES` wins outright; otherwise a set `TERM`
      other than "dumb" (in any case) on a terminal gives a console; anything else is
      unknown. `isatty` reports a terminal with any non-zero result. */
  function Current(xcodeColors: Option<string>, term: Option<string>, isatty: int): (t: OutputTarget)
    ensures t == XcodeColors <==> xcodeColors == Some("YES")
    ensures t == Console <==>
              && xcodeColors != Some("YES")
              && term.Some?
              && Lowercased(term.value) != "dumb"
              && isatty != 0
    ensures term.None? && xcodeColors != Some("YES") ==> t == Unknown
  {
    if xcodeColors == Some("YES") then XcodeColors
    else if term.Some? && Lowercased(term.value) != "dumb" && isatty != 0 then Console
    else Unknown
  }

  /** "dumb" in any mixture of cases means no console, even on a terminal. */
  lemma DumbTerminalIsUnknown(xcodeColors: Option<string>, isatty: int)
    requires xcodeColors != Some("YES")
    ensures Current(xcodeColors, Some("dumb"), isatty) == Unknown
    ensures Current(xcodeColors, Some("DUMB"), isatty) == Unknown
    ensures Current(xcodeColors, Some("Dumb"), isatty) == Unknown
  {
    assert Lowercased("DUMB") == "dumb";
    assert Lowercased("Dumb") == "dumb";
    assert Lowercased("dumb") == "dumb";
  }
}
