/** Styled terminal text.

    The logger decorates strings through an ANSI styling library (`.dim`, `.blink`,
    colours). Here a style is an opaque constructor wrapped around the text it
    decorates, so that "dimmed" or "blinking" can be stated without escape bytes,
    and `TextOf` gives the characters a reader sees once every style is erased. */
module Styling {

  datatype Color = Red | LightRed | Cyan | LightBlue | Yellow | LightYellow | LightGreen | LightMagenta | LightCyan

  datatype Style = Dim | Blink | Paint(color: Color)

  datatype Styled =
    | Plain(text: string)
    | Apply(style: Style, inner: Styled)
    | Cat(left: Styled, right: Styled)

  /** The bullet glyph that status markers and emitted lines start with. */
  const Bullet: string := "\U{25CF}"

  /** The visible characters of `s`: every style erased, pieces concatenated in order. */
  function TextOf(s: Styled): string
  {
    match s
    case Plain(t) => t
    case Apply(_, inner) => TextOf(inner)
    case Cat(l, r) => TextOf(l) + TextOf(r)
  }

  /** The visible characters of each part. */
  function TextsOf(parts: seq<Styled>): (texts: seq<string>)
    ensures |texts| == |parts|
    ensures forall i :: 0 <= i < |parts| ==> texts[i] == TextOf(parts[i])
  {
    seq(|parts|, i requires 0 <= i < |parts| => TextOf(parts[i]))
  }

  /** Swift's `joined(separator:)` on plain strings: `sep` between neighbours, "" for no parts. */
  function JoinStrings(parts: seq<string>, sep: string): string
  {
    if |parts| == 0 then ""
    else if |parts| == 1 then parts[0]
    else parts[0] + sep + JoinStrings(parts[1..], sep)
  }

  /** Erasing styles distributes over concatenation of segment lists. */
  lemma TextsOfAppend(a: seq<Styled>, b: seq<Styled>)
    ensures TextsOf(a + b) == TextsOf(a) + TextsOf(b)
  {
  }

  /** Erasing the styles of a list of at most two segments. */
  lemma TextsOfShort(a: Styled, b: Styled)
    ensures TextsOf([]) == []
    ensures TextsOf([a]) == [TextOf(a)]
    ensures TextsOf([a, b]) == [TextOf(a), TextOf(b)]
  {
  }

  /** `joined(separator:)` on styled strings: the separator itself is unstyled. */
  function Join(parts: seq<Styled>, sep: string): Styled
  {
    if |parts| == 0 then Plain("")
    else if |parts| == 1 then parts[0]
    else Cat(Cat(parts[0], Plain(sep)), Join(parts[1..], sep))
  }

  /** `n` blank characters. */
  function Spaces(n: nat): (s: string)
    ensures |s| == n
    ensures forall i :: 0 <= i < n ==> s[i] == ' '
  {
    seq(n, _ => ' ')
  }

  /** Swift's `String(repeating: s, count: n)`. */
  function Repeat(s: string, n: nat): string
  {
    if n == 0 then "" else s + Repeat(s, n - 1)
  }

  /** Erasing the styles of a join gives the join of the erased parts. */
  lemma {:induction false} TextOfJoin(parts: seq<Styled>, sep: string)
    ensures TextOf(Join(parts, sep)) == JoinStrings(TextsOf(parts), sep)
  {
    if |parts| > 1 {
      TextOfJoin(parts[1..], sep);
      var texts := TextsOf(parts);
      assert texts[1..] == TextsOf(parts[1..]);
      assert JoinStrings(texts, sep) == texts[0] + sep + JoinStrings(texts[1..], sep);
      assert Join(parts, sep) == Cat(Cat(parts[0], Plain(sep)), Join(parts[1..], sep));
      assert TextOf(Cat(parts[0], Plain(sep))) == TextOf(parts[0]) + sep;
    } else if |parts| == 1 {
      assert TextsOf(parts) == [TextOf(parts[0])];
    }
  }

  /** Each part preceded by `sep`, all concatenated: what follows the first part of a join. */
  function Prefixed(parts: seq<string>, sep: string): string
  {
    if |parts| == 0 then "" else sep + parts[0] + Prefixed(parts[1..], sep)
  }

  /** A join is its first part followed by every later part with its separator in front. */
  lemma {:induction false} JoinStringsAsPrefixed(first: string, rest: seq<string>, sep: string)
    ensures JoinStrings([first] + rest, sep) == first + Prefixed(rest, sep)
    decreases |rest|
  {
    if |rest| > 0 {
      JoinStringsAsPrefixed(rest[0], rest[1..], sep);
      assert ([first] + rest)[1..] == rest;
      assert [rest[0]] + rest[1..] == rest;
    }
  }

  /** Prefixing distributes over concatenation of the part lists. */
  lemma {:induction false} PrefixedAppend(xs: seq<string>, ys: seq<string>, sep: string)
    ensures Prefixed(xs + ys, sep) == Prefixed(xs, sep) + Prefixed(ys, sep)
  {
    if |xs| > 0 {
      PrefixedAppend(xs[1..], ys, sep);
      assert (xs + ys)[1..] == xs[1..] + ys;
    } else {
      assert xs + ys == ys;
    }
  }

  /** A line whose segments show `first`, then `middle`, then `last`, reads as `first`,
      each middle piece after a blank, then a blank and `last`. */
  lemma JoinWithMiddle(first: string, middle: seq<string>, last: string)
    ensures JoinStrings([first] + (middle + [last]), " ") == first + (Prefixed(middle, " ") + " " + last)
  {
    JoinStringsAsPrefixed(first, middle + [last], " ");
    PrefixedAppend(middle, [last], " ");
    assert [last][1..] == [];
  }

  /** Repeating a two-blank indent `n` times gives `2 * n` blanks. */
  lemma {:induction false} RepeatTwoBlanks(n: nat)
    ensures Repeat("  ", n) == Spaces(2 * n)
  {
    if n > 0 {
      RepeatTwoBlanks(n - 1);
    }
  }
}
