/** Message items.

    The logger accepts values of any type and turns each into text with
    `String(describing:)`. A value is modelled by what that conversion can see: an
    already styled string (which describes itself), a Bool (which the key/value
    renderer treats specially), or any other value together with its description. */
module Values {
  import opened Styling

  datatype Value =
    | Text(styled: Styled)
    | Flag(flag: bool)
    | Described(description: string)

  /** `String(describing:)` of a message item. */
  function Describe(v: Value): Styled
  {
    match v
    case Text(s) => s
    case Flag(b) => Plain(if b then "true" else "false")
    case Described(d) => Plain(d)
  }

  /** Every item stringified and joined with single blanks: the body of a log line. */
  function Body(items: seq<Value>): Styled
  {
    Join(seq(|items|, i requires 0 <= i < |items| => Describe(items[i])), " ")
  }

  /** The body of a message with a leading item: that item's styled text, then, when
      more follow, a blank and the body of the rest. */
  lemma BodyCons(v: Value, rest: seq<Value>)
    ensures Body([v] + rest)
            == if |rest| == 0 then Describe(v) else Cat(Cat(Describe(v), Plain(" ")), Body(rest))
  {
    var items := [v] + rest;
    var described := seq(|items|, i requires 0 <= i < |items| => Describe(items[i]));
    assert described[0] == Describe(v);
    assert described[1..] == seq(|rest|, i requires 0 <= i < |rest| => Describe(rest[i]));
  }

  /** The visible text of each item. */
  function ItemTexts(items: seq<Value>): (texts: seq<string>)
    ensures |texts| == |items|
  {
    seq(|items|, i requires 0 <= i < |items| => TextOf(Describe(items[i])))
  }

  /** The body shows the items' texts in order, one blank between neighbours. */
  lemma BodyText(items: seq<Value>)
    ensures TextOf(Body(items)) == JoinStrings(ItemTexts(items), " ")
  {
    var described := seq(|items|, i requires 0 <= i < |items| => Describe(items[i]));
    TextOfJoin(described, " ");
    assert TextsOf(described) == ItemTexts(items);
  }
}
