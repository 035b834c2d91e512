/** One key/value row of a list block (Sources/Logger/ListItem.swift). */
module ListItems {
  import opened Styling
  import opened Values

  datatype ListItem = ListItem(key: string, value: Value)

  /** `count`: the key's length in characters. */
  function Count(item: ListItem): nat
  {
    |item.key|
  }

  /** `strValue`: a Bool shows as a dimmed light-green "yes" or light-red "no";
      any other value shows as its description. */
  function StrValue(item: ListItem): (s: Styled)
    ensures item.value.Flag? ==>
              && s.Apply? && s.style == Dim
              && TextOf(s) == (if item.value.flag then "yes" else "no")
    ensures !item.value.Flag? ==> s == Describe(item.value)
  {
    match item.value
    case Flag(b) =>
      if b then Apply(Dim, Apply(Paint(LightGreen), Plain("yes")))
      else Apply(Dim, Apply(Paint(LightRed), Plain("no")))
    case _ => Describe(item.value)
  }

  /** `key.padding(toLength: width, withPad: " ", startingAt: 0)`: exactly `width`
      characters, the key cut short or filled out with blanks. */
  function PaddedKey(key: string, width: nat): (p: string)
    ensures |p| == width
    ensures width >= |key| ==> p[..|key|] == key && forall i :: |key| <= i < width ==> p[i] == ' '
    ensures width < |key| ==> p == key[..width]
  {
    if width <= |key| then key[..width] else key + Spaces(width - |key|)
  }

  /** `formatted(indent:)`: the padded key, ": ", then the value. */
  function Formatted(item: ListItem, indent: nat): (f: Styled)
    ensures TextOf(f) == PaddedKey(item.key, indent) + ": " + TextOf(StrValue(item))
  {
    Cat(Plain(PaddedKey(item.key, indent) + ": "), StrValue(item))
  }

  /** Padded to at least its own length, a key is kept whole at the start of the row
      and the ": " falls exactly at column `indent`. */
  lemma FormattedKeepsKey(item: ListItem, indent: nat)
    requires indent >= Count(item)
    ensures TextOf(Formatted(item, indent))[..|item.key|] == item.key
    ensures TextOf(Formatted(item, indent))[indent..indent + 2] == ": "
  {
    var text := TextOf(Formatted(item, indent));
    var padded := PaddedKey(item.key, indent);
    assert text == padded + ": " + TextOf(StrValue(item));
    assert text[..|item.key|] == padded[..|item.key|];
    assert text[indent..indent + 2] == ": ";
  }
}
