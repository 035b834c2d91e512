/** Rendering of one log line (Sources/Logger/Line.swift).

    A line is laid out as a sequence of segments joined by single blanks: a
    marker, the indentation, then (unless it is a continuation row) an optional
    timestamp, an optional tag trail and an optional blink on the last of those,
    and finally the body. The output target, which the source detects once per
    process, and the formatted wall-clock time are inputs. */
module Lines {
  import opened Results
  import opened Styling
  import opened Values
  import opened Levels
  import opened OutputTargets
  import opened ListLogs

  /** An icon, known only by its styled terminal glyph. */
  datatype Icon = Icon(terminal: Styled)

  datatype Line = Line(
    level: Level,
    content: seq<Value>,
    time: bool,
    tags: seq<string>,
    icon: Option<Icon>,
    status: bool,
    indentation: int,
    blink: bool)

  /** What the tags are joined with. */
  const TagSeparator: string := " \U{203A} "

  /** The glyph closing a tag trail. */
  const TagEnd: string := "\U{203A}"

  /** `Line.init`: the fields as given, except that an explicit `tag` is appended
      after the given tags. */
  function MakeLine(
    level: Level, content: seq<Value>, time: bool, tags: seq<string>, tag: Option<string>,
    icon: Option<Icon>, status: bool, indentation: int, blink: bool): (l: Line)
    ensures |l.tags| == |tags| + (if tag.Some? then 1 else 0)
    ensures l.tags[..|tags|] == tags
    ensures tag.Some? ==> l.tags[|tags|] == tag.value
    ensures l.level == level && l.content == content && l.time == time && l.icon == icon
    ensures l.status == status && l.indentation == indentation && l.blink == blink
  {
    var endTags := if tag.Some? then tags + [tag.value] else tags;
    Line(level, content, time, endTags, icon, status, indentation, blink)
  }

  /** The bullet, coloured by level, for targets that show colour. */
  function ColoredStatusIcon(level: Level): Styled
  {
    match level
    case Info => Apply(Paint(LightBlue), Plain(Bullet))
    case Warn => Apply(Paint(Yellow), Plain(Bullet))
    case Error => Apply(Paint(Red), Plain(Bullet))
    case Bug => Apply(Paint(Red), Plain(Bullet))
    case Debug => Apply(Paint(LightMagenta), Plain(Bullet))
    case Verbose => Apply(Paint(LightCyan), Plain(Bullet))
  }

  /** The bracketed letter used where colour is not available. */
  function PlainStatusIcon(level: Level): string
  {
    match level
    case Info => "[I]"
    case Warn => "[W]"
    case Error => "[E]"
    case Bug => "[B]"
    case Debug => "[D]"
    case Verbose => "[V]"
  }

  /** `statusIcon(for:)`: a coloured bullet on a console or XcodeColors target, the
      bracketed letter on an unknown one. */
  function StatusIcon(level: Level, target: OutputTarget): (s: Styled)
    ensures target != Unknown ==> s.Apply? && s.style.Paint? && TextOf(s) == Bullet
    ensures target == Unknown ==> s == Plain(PlainStatusIcon(level))
  {
    match target
    case XcodeColors => ColoredStatusIcon(level)
    case Console => ColoredStatusIcon(level)
    case Unknown => Plain(PlainStatusIcon(level))
  }

  /** Each bracketed code carries the first letter of its level's display name, so
      the six codes are pairwise distinct. */
  lemma PlainStatusIconNamesLevel(level: Level)
    ensures PlainStatusIcon(level) == "[" + Description(level)[..1] + "]"
    ensures forall other: Level :: PlainStatusIcon(other) == PlainStatusIcon(level) ==> other == level
  {
  }

  /** The first segment: the icon's glyph, else the status icon, else one blank. */
  function Marker(line: Line, target: OutputTarget): Styled
  {
    if line.icon.Some? then line.icon.value.terminal
    else if line.status then StatusIcon(line.level, target)
    else Plain(" ")
  }

  /** The indentation segment: none at depth 0, one blank at depth 1, and two blanks
      per level from depth 2 on. A negative depth makes the source trap. */
  function IndentSegments(depth: int): (segs: seq<Styled>)
    requires depth >= 0
    ensures |segs| == (if depth == 0 then 0 else 1)
    ensures depth == 1 ==> TextOf(segs[0]) == " "
    ensures depth >= 2 ==> TextOf(segs[0]) == Spaces(2 * depth)
  {
    if depth == 0 then []
    else if depth == 1 then [Plain(" ")]
    else
      RepeatTwoBlanks(depth);
      [Plain(Repeat("  ", depth))]
  }

  /** The decorations of a status row: the dimmed, bracketed timestamp when one is
      requested, then the dimmed tag trail and a dimmed closing glyph when there are
      tags. */
  function Decorations(line: Line, clock: string): seq<Styled>
  {
    (if line.time then [Apply(Dim, Plain("[" + clock + "]"))] else [])
    + (if |line.tags| == 0 then [] else [Apply(Dim, Plain(JoinStrings(line.tags, TagSeparator))), Apply(Dim, Plain(TagEnd))])
  }

  /** The last segment restyled to blink when asked; the others untouched. */
  function Blinked(segs: seq<Styled>, blink: bool): (r: seq<Styled>)
    requires |segs| > 0
    ensures |r| == |segs|
    ensures r[..|r| - 1] == segs[..|segs| - 1]
    ensures blink ==> r[|r| - 1] == Apply(Blink, segs[|segs| - 1])
    ensures !blink ==> r == segs
    ensures TextsOf(r) == TextsOf(segs)
  {
    if blink then segs[..|segs| - 1] + [Apply(Blink, segs[|segs| - 1])] else segs
  }

  /** `str`: the content items stringified and joined by blanks. */
  function Str(line: Line): Styled
  {
    Body(line.content)
  }

  /** The segments `render()` joins, in order. The body is always last and only the
      segment just before it can blink. A continuation row (no status) is exactly
      marker, indentation and body. */
  function Segments(line: Line, target: OutputTarget, clock: string): (segs: seq<Styled>)
    requires line.indentation >= 0
    ensures |segs| == 2 + (if line.indentation > 0 then 1 else 0)
                        + (if line.status then (if line.time then 1 else 0) + (if |line.tags| > 0 then 2 else 0) else 0)
    ensures segs[|segs| - 1] == Str(line)
    ensures !line.status ==> segs == [Marker(line, target)] + IndentSegments(line.indentation) + [Str(line)]
    ensures line.status && line.blink ==> segs[|segs| - 2].Apply? && segs[|segs| - 2].style == Blink
    ensures line.icon.Some? && (!line.blink || |segs| > 2) ==> segs[0] == line.icon.value.terminal
    ensures line.status && line.time && (!line.blink || |line.tags| > 0) ==>
              segs[1 + |IndentSegments(line.indentation)|] == Apply(Dim, Plain("[" + clock + "]"))
  {
    var head := [Marker(line, target)] + IndentSegments(line.indentation);
    if !line.status then head + [Str(line)]
    else Blinked(head + Decorations(line, clock), line.blink) + [Str(line)]
  }

  /** `render()`: the segments joined by single blanks. */
  function Render(line: Line, target: OutputTarget, clock: string): Styled
    requires line.indentation >= 0
  {
    Join(Segments(line, target, clock), " ")
  }

  /** What the indentation adds to a line's text, its separating blank included. */
  function IndentText(depth: int): string
    requires depth >= 0
  {
    if depth == 0 then "" else " " + Spaces(if depth == 1 then 1 else 2 * depth)
  }

  /** What timestamp and tag trail add to a status row's text, separating blanks included. */
  function DecorationText(line: Line, clock: string): string
  {
    (if line.time then " [" + clock + "]" else "")
    + (if |line.tags| > 0 then " " + JoinStrings(line.tags, TagSeparator) + " " + TagEnd else "")
  }

  lemma IndentShows(depth: int)
    requires depth >= 0
    ensures Prefixed(TextsOf(IndentSegments(depth)), " ") == IndentText(depth)
  {
    var segs := IndentSegments(depth);
    if depth > 0 {
      assert Spaces(1) == " ";
      assert TextsOf(segs) == [TextOf(segs[0])];
      assert TextsOf(segs)[1..] == [];
    } else {
      assert TextsOf(segs) == [];
    }
  }

  lemma DecorationsShow(line: Line, clock: string)
    ensures Prefixed(TextsOf(Decorations(line, clock)), " ") == DecorationText(line, clock)
  {
    var time: seq<Styled> := if line.time then [Apply(Dim, Plain("[" + clock + "]"))] else [];
    var trail: seq<Styled> := if |line.tags| == 0 then [] else [Apply(Dim, Plain(JoinStrings(line.tags, TagSeparator))), Apply(Dim, Plain(TagEnd))];
    var timeText: seq<string> := if line.time then ["[" + clock + "]"] else [];
    var trailText: seq<string> := if |line.tags| == 0 then [] else [JoinStrings(line.tags, TagSeparator), TagEnd];
    assert Decorations(line, clock) == time + trail;
    TextsOfAppend(time, trail);
    TextsOfShort(Apply(Dim, Plain("[" + clock + "]")), Apply(Dim, Plain(TagEnd)));
    TextsOfShort(Apply(Dim, Plain(JoinStrings(line.tags, TagSeparator))), Apply(Dim, Plain(TagEnd)));
    assert TextsOf(time) == timeText;
    assert TextsOf(trail) == trailText;
    PrefixedAppend(timeText, trailText, " ");
    assert Prefixed(timeText, " ") == (if line.time then " [" + clock + "]" else "") by {
      if line.time {
        assert timeText[1..] == [];
      }
    }
    assert Prefixed(trailText, " ") == (if |line.tags| > 0 then " " + JoinStrings(line.tags, TagSeparator) + " " + TagEnd else "") by {
      if |line.tags| > 0 {
        assert trailText[1..] == [TagEnd];
        assert trailText[1..][1..] == [];
      }
    }
  }

  /** Erasing the styles of a line's segments: the marker's text, then those of the
      indentation, of the decorations on status rows, and of the body. */
  lemma SegmentTexts(line: Line, target: OutputTarget, clock: string)
    requires line.indentation >= 0
    ensures TextsOf(Segments(line, target, clock)) ==
              [TextOf(Marker(line, target))]
              + (TextsOf(IndentSegments(line.indentation))
                 + TextsOf(if line.status then Decorations(line, clock) else [])
                 + [TextOf(Str(line))])
  {
    var marker := [Marker(line, target)];
    var indent := IndentSegments(line.indentation);
    var body := [Str(line)];
    var segs := Segments(line, target, clock);
    var decorations := if line.status then Decorations(line, clock) else [];
    assert TextsOf(segs) == TextsOf(marker + indent + decorations + body) by {
      if line.status {
        TextsOfAppend(Blinked(marker + indent + decorations, line.blink), body);
        TextsOfAppend(marker + indent + decorations, body);
      } else {
        assert segs == marker + indent + decorations + body;
      }
    }
    TextsOfAppend(marker, indent);
    TextsOfAppend(marker + indent, decorations);
    TextsOfAppend(marker + indent + decorations, body);
    TextsOfShort(Marker(line, target), Str(line));
  }

  /** The visible text of a rendered line: marker, indentation, then the timestamp and
      tag trail on status rows only, then one blank and the body. */
  lemma RenderText(line: Line, target: OutputTarget, clock: string)
    requires line.indentation >= 0
    ensures TextOf(Render(line, target, clock)) ==
              TextOf(Marker(line, target))
              + (IndentText(line.indentation) + (if line.status then DecorationText(line, clock) else "")
                 + " " + TextOf(Str(line)))
  {
    var indentTexts := TextsOf(IndentSegments(line.indentation));
    var decorationTexts := TextsOf(if line.status then Decorations(line, clock) else []);
    var marker := TextOf(Marker(line, target));
    var body := TextOf(Str(line));
    var decorationText := if line.status then DecorationText(line, clock) else "";
    var texts := TextsOf(Segments(line, target, clock));
    assert TextOf(Render(line, target, clock)) == JoinStrings(texts, " ") by {
      TextOfJoin(Segments(line, target, clock), " ");
    }
    assert texts == [marker] + (indentTexts + decorationTexts + [body]) by {
      SegmentTexts(line, target, clock);
    }
    assert JoinStrings(texts, " ") == marker + (Prefixed(indentTexts + decorationTexts, " ") + " " + body) by {
      JoinWithMiddle(marker, indentTexts + decorationTexts, body);
    }
    assert Prefixed(indentTexts + decorationTexts, " ") == IndentText(line.indentation) + decorationText by {
      PrefixedAppend(indentTexts, decorationTexts, " ");
      IndentShows(line.indentation);
      if line.status {
        DecorationsShow(line, clock);
      } else {
        assert decorationTexts == [];
      }
    }
  }

  /** Blink only restyles: the blinking and the steady rendering of a line show the
      same text, and differ only in the segment just before the body. */
  lemma BlinkOnlyRestyles(line: Line, target: OutputTarget, clock: string)
    requires line.indentation >= 0 && line.status && line.blink
    ensures var steady := Segments(line.(blink := false), target, clock);
            var blinking := Segments(line, target, clock);
            && |steady| == |blinking|
            && blinking == steady[..|steady| - 2] + [Apply(Blink, steady[|steady| - 2])] + [steady[|steady| - 1]]
    ensures TextOf(Render(line, target, clock)) == TextOf(Render(line.(blink := false), target, clock))
  {
    RenderText(line, target, clock);
    RenderText(line.(blink := false), target, clock);
  }

  /** The tag trail: on a status row with tags and no blink, the two segments before
      the body are the dimmed tags joined by " › " and the dimmed "›". */
  lemma TagTrail(line: Line, target: OutputTarget, clock: string)
    requires line.indentation >= 0 && line.status && !line.blink && |line.tags| > 0
    ensures var segs := Segments(line, target, clock);
            && segs[|segs| - 3] == Apply(Dim, Plain(JoinStrings(line.tags, TagSeparator)))
            && segs[|segs| - 2] == Apply(Dim, Plain(TagEnd))
  {
  }

  /** The line a list row is printed as: a continuation row one level deeper. */
  function ListRowLine(row: Styled, icon: Option<Icon>, indentation: int): Line
  {
    Line(Verbose, [Text(row)], false, [], icon, false, indentation + 1, false)
  }

  /** `verbose(_:tag:icon:block:)`: prints the line's own content at verbose level
      (the `message` argument is not used), then, if a block is given, hands it a
      fresh list and prints each of the list's rows as a continuation row one level
      deeper, in order. */
  method VerboseRows(
    line: Line, message: seq<Value>, tag: Option<string>, icon: Option<Icon>,
    block: Option<ListLog -> ListLog>, target: OutputTarget, clock: string)
    returns (printed: seq<Styled>)
    requires line.indentation >= 0
    ensures |printed| == 1 + (if block.Some? then |block.value(Empty).items| else 0)
    ensures printed[0] == Render(MakeLine(Verbose, line.content, false, line.tags, tag, icon, true, line.indentation, false), target, clock)
    ensures block.Some? && |block.value(Empty).items| > 0 ==>
              var items := block.value(Empty).items;
              forall i :: 0 <= i < |items| ==>
                printed[1 + i] == Render(ListRowLine(Row(items[i], LongestKeyLength(items)), icon, line.indentation), target, clock)
  {
    var header := MakeLine(Verbose, line.content, false, line.tags, tag, icon, true, line.indentation, false);
    printed := [Render(header, target, clock)];
    if block.Some? {
      var rows := Output(block.value(Empty));
      printed := printed + seq(|rows|, i requires 0 <= i < |rows| => Render(ListRowLine(rows[i], icon, line.indentation), target, clock));
    }
  }

  /** A list row without an icon shows a blank, the indentation for one level deeper,
      and the row itself. */
  lemma ListRowText(row: Styled, indentation: int, target: OutputTarget, clock: string)
    requires indentation >= 0
    ensures TextOf(Render(ListRowLine(row, None, indentation), target, clock)) ==
              " " + " " + Spaces(if indentation == 0 then 1 else 2 * (indentation + 1)) + " " + TextOf(row)
  {
    var line := ListRowLine(row, None, indentation);
    RenderText(line, target, clock);
    assert Str(line) == Body([Text(row)]);
    BodyText([Text(row)]);
    assert ItemTexts([Text(row)]) == [TextOf(row)];
  }
}
