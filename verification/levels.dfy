/** Severity levels (Sources/Logger/Level.swift). */
module Levels {
  import opened Results
  import opened Styling

  datatype Level = Verbose | Debug | Info | Warn | Error | Bug

  /** The integer raw value each case is declared with; every comparison goes through it. */
  function Raw(l: Level): nat
  {
    match l
    case Verbose => 0
    case Debug => 1
    case Info => 2
    case Warn => 3
    case Error => 4
    case Bug => 5
  }

  /** The source's `<`. */
  predicate Less(a: Level, b: Level)
  {
    Raw(a) < Raw(b)
  }

  /** The source's `==`, which compares raw values. */
  predicate Same(a: Level, b: Level)
  {
    Raw(a) == Raw(b)
  }

  /** `>=` as Swift's `Comparable` derives it from `<`. */
  predicate AtLeast(a: Level, b: Level)
  {
    !Less(a, b)
  }

  /** `<=` as Swift's `Comparable` derives it from `<`. */
  predicate AtMost(a: Level, b: Level)
  {
    !Less(b, a)
  }

  /** Every level, least severe first. */
  const Ascending: seq<Level> := [Verbose, Debug, Info, Warn, Error, Bug]

  /** verbose < debug < info < warn < error < bug, and no level is missing from that chain. */
  lemma AscendingIsTheOrder()
    ensures forall l: Level :: l in Ascending
    ensures forall i, j :: 0 <= i < j < |Ascending| ==> Less(Ascending[i], Ascending[j])
  {
    forall l: Level
      ensures l in Ascending
    {
      assert Ascending[Raw(l)] == l;
    }
  }

  /** `<` is a strict total order on levels. */
  lemma LessIsStrictTotalOrder()
    ensures forall a: Level :: !Less(a, a)
    ensures forall a: Level, b: Level, c: Level :: Less(a, b) && Less(b, c) ==> Less(a, c)
    ensures forall a: Level, b: Level :: a != b ==> Less(a, b) || Less(b, a)
  {
  }

  /** The raw-value `==` agrees with identity of cases. */
  lemma SameIsIdentity(a: Level, b: Level)
    ensures Same(a, b) <==> a == b
  {
  }

  /** The lowercase keyword the parser accepts for each level. */
  function Keyword(l: Level): string
  {
    match l
    case Verbose => "verbose"
    case Debug => "debug"
    case Info => "info"
    case Warn => "warn"
    case Error => "error"
    case Bug => "bug"
  }

  /** `Level(string)`: exact, case-sensitive keyword match; anything else throws. */
  function Parse(s: string): (r: Result<Level>)
    ensures forall l: Level :: Keyword(l) == s ==> r == Ok(l)
    ensures r.Ok? ==> Keyword(r.value) == s
    ensures r.Err? ==> r.error == "Invalid level: '" + s + "'"
  {
    if s == "verbose" then Ok(Verbose)
    else if s == "debug" then Ok(Debug)
    else if s == "info" then Ok(Info)
    else if s == "warn" then Ok(Warn)
    else if s == "error" then Ok(Error)
    else if s == "bug" then Ok(Bug)
    else Err("Invalid level: '" + s + "'")
  }

  /** Parsing a level's keyword gives that level back. */
  lemma ParseKeyword(l: Level)
    ensures Parse(Keyword(l)) == Ok(l)
  {
  }

  /** The short display name that `description` returns. */
  function Description(l: Level): (n: string)
    ensures 1 <= |n| <= 4
  {
    match l
    case Verbose => "Verb"
    case Debug => "Debu"
    case Info => "Info"
    case Warn => "Warn"
    case Error => "Erro"
    case Bug => "Bug"
  }

  /** Display names tell levels apart. */
  lemma DescriptionsAreDistinct()
    ensures forall a: Level, b: Level :: Description(a) == Description(b) ==> a == b
  {
  }

  /** A level's own description is not a keyword: there is no description round trip. */
  lemma DescriptionDoesNotParse(l: Level)
    ensures Parse(Description(l)).Err?
  {
  }

  /** The level's colour applied to `s`: `bug` is red and additionally blinks. */
  function Colored(l: Level, s: Styled): Styled
  {
    match l
    case Verbose => Apply(Paint(LightRed), s)
    case Debug => Apply(Paint(Cyan), s)
    case Info => Apply(Paint(LightBlue), s)
    case Warn => Apply(Paint(Yellow), s)
    case Error => Apply(Paint(Red), s)
    case Bug => Apply(Blink, Apply(Paint(Red), s))
  }

  /** `tag`: the display name in the level's colour; only `bug` blinks. */
  function Tag(l: Level): (t: Styled)
    ensures TextOf(t) == Description(l)
    ensures t.Apply? && (t.style == Blink <==> l == Bug)
  {
    var t := Colored(l, Plain(Description(l)));
    assert TextOf(t) == Description(l) by {
      if l == Bug {
        assert TextOf(Apply(Paint(Red), Plain("Bug"))) == "Bug";
      }
    }
    t
  }
}
