# logger-swift, modelled in Dafny

A model of the decision and formatting core of a small leveled console logger for
command-line tools, written in Swift. The model covers:

- **Levels**: six severities ordered by raw value, a strict keyword parser, short
  display names and coloured tags.
- **Threshold resolution**: the level a logger settles on when it is built. The
  inputs are an explicit level, the environment and the command-line arguments.
- **Gating, layout and routing**: what a logging call emits, laid out how, and sent
  to which stream.
- **Line rendering**: marker, indentation, timestamp, tag trail, blink and body,
  joined by single blanks.
- **List blocks**: key/value rows, aligned on the longest key.
- **Output-target detection**, and the `truncated` and `trimmed` string helpers.

Everything is pure. The process environment is a `map<string, string>` (only the
names matter). The arguments are a `seq<string>`. The formatted time of day is a
string parameter, and `isatty` is an integer parameter. The detected output target
is a parameter of rendering. Styled text is a tree
(`Styled = Plain | Apply(style, inner) | Cat(left, right)`), and styles are opaque
constructors, not ANSI bytes. `TextOf` erases the styles to give the characters a
reader sees. A message item (`Value`) is a styled string, a Bool, or any other value
with its description. `Describe` stands for Swift's `String(describing:)`. An emitted
line comes back as an `Emission(stream, line)`. `abort` and `bug` return an exit code
instead of ending the process.

Modules follow the source files: `Levels` (Level.swift), `Loggers` (Logger.swift),
`Lines` (Line.swift), `ListItems` (ListItem.swift), `ListLogs` (ListLog.swift),
`OutputTargets` (OutputTarget.swift) and `StringExtensions` (Extension/String.swift).
They rest on three helper modules: `Results`, `Styling` and `Values`. `ListItems.Count`
models `count` as the key's length in Unicode scalars. Swift counts grapheme clusters;
the two agree when every character is a single scalar.

Notable behaviours of the code, which the model keeps:

- Only `error` lines go to standard error. Every other level, `bug` included, goes to
  standard output (Sources/Logger/Logger.swift:180-185).
- The only flag looked for among the arguments is `--debug`, and the program path is
  searched too (Sources/Logger/Logger.swift:63-69). Apart from that, only the path
  heuristic on the second argument picks the level (Sources/Logger/Logger.swift:80-92).
- A set `DEBUG`/`debug` variable overrides even an explicit level
  (Sources/Logger/Logger.swift:36-41).
- `Logger.output` never renders tags (Sources/Logger/Logger.swift:156-178).
  `Line.render` renders them on every status row that has them
  (Sources/Logger/Line.swift:155-158).

## Model

| member | source | states |
|---|---|---|
| Levels.AscendingIsTheOrder | Sources/Logger/Level.swift:4-10 | verbose < debug < info < warn < error < bug, and every level is in that chain |
| Levels.LessIsStrictTotalOrder | Sources/Logger/Level.swift:33-35 | `<` on raw values is irreflexive, transitive and total on distinct levels |
| Levels.SameIsIdentity | Sources/Logger/Level.swift:37-39 | the raw-value `==` holds exactly for identical levels |
| Levels.Parse | Sources/Logger/Level.swift:14-31 | a string parses to level l exactly when it is l's lowercase keyword; any other string, capitalised forms included, is an error whose message quotes the input |
| Levels.ParseKeyword | Sources/Logger/Level.swift:14-27 | each of the six keywords parses to its own level |
| Levels.Description | Sources/Logger/Level.swift:52-67 | every display name is one to four characters long |
| Levels.DescriptionsAreDistinct | Sources/Logger/Level.swift:52-67 | no two levels share a display name |
| Levels.DescriptionDoesNotParse | Sources/Logger/Level.swift:12-29 | parsing a level's own description fails for every level, so there is no description round trip |
| Levels.Tag | Sources/Logger/Level.swift:41-71 | the tag shows the display name, and its outermost style is blink exactly for `bug` |
| Loggers.ThresholdIsFirstSignal | Sources/Logger/Logger.swift:32-92 | the threshold is the first present signal in the order DEBUG env, explicit level, VERBOSE env, a `--debug` argument, INFO env; failing all, the path heuristic on argv[1] decides |
| Loggers.ThresholdByOutcome | Sources/Logger/Logger.swift:36-92 | exactly which inputs give debug and which give verbose; warn, error and bug arise only from an explicit level with no DEBUG variable set |
| Loggers.Create | Sources/Logger/Logger.swift:32-45 | tags and time are kept; with no DEBUG variable an explicit level is the threshold unchanged; with one, the threshold is debug |
| Loggers.InDebugMode | Sources/Logger/Logger.swift:99-101 | holds exactly when the threshold is verbose or debug |
| Loggers.New | Sources/Logger/Logger.swift:107-109 | the child has the parent's tags with the new tag appended last, no timestamp, and the parent's threshold unless DEBUG is set |
| Loggers.ChildKeepsThreshold | Sources/Logger/Logger.swift:107-108 | under the same environment a child logger's threshold equals its parent's |
| Loggers.Output | Sources/Logger/Logger.swift:149-186 | a line is emitted exactly when the level is at least the threshold, and it goes to standard error exactly when the level is error |
| Loggers.OutputText | Sources/Logger/Logger.swift:149-178 | the emitted text is the bullet, then " [time]" only when the logger asks for time, then a blank and the message items joined by single blanks |
| Loggers.OutputLayout | Sources/Logger/Logger.swift:156-178 | the emitted line is the level's bullet, a blank, the dimmed "[time]" and a blank when the logger asks for time, then the body |
| Loggers.OutputIgnoresTags | Sources/Logger/Logger.swift:156-178 | loggers that differ only in tags emit identical lines |
| Loggers.GatingIsMonotone | Sources/Logger/Logger.swift:150 | a logger with a lower or equal threshold emits everything a stricter one emits, identically |
| Loggers.Log | Sources/Logger/Logger.swift:111-147 | each call gates at its level (todo, blink and abort at warn); only `error` reaches standard error; `abort` exits 0 and `bug` exits 1, and no other call exits |
| Loggers.LogText | Sources/Logger/Logger.swift:111-147 | a visible call emits `output`'s line for its leading items followed by the caller's message, and the text shows every item in order after the bullet and optional time |
| Loggers.BlinkLeadsWithGlyph | Sources/Logger/Logger.swift:111-113 | `blink` puts a red, blinking "⚠" first in the body, before the caller's items |
| Loggers.TodoLeadsWithTodo | Sources/Logger/Logger.swift:115-117 | a visible `todo` line's message starts with "TODO", and the caller's items follow, each after a blank |
| Loggers.InfoLoggerScenario | Sources/Logger/Logger.swift:136-147 | an info logger with tag "a" drops a debug call, shows an info call as the bullet and "x" on standard output with no tag, and `bug` writes to standard output and exits 1 |
| Values.BodyCons | Sources/Logger/Line.swift:118-120 | a body with a leading item is that item's styled text, then a blank and the body of the rest, when any follow |
| Values.BodyText | Sources/Logger/Line.swift:118-120 | the body shows the items' texts in order, joined by single blanks |
| Lines.MakeLine | Sources/Logger/Line.swift:22-48 | the stored tags are the given tags with the optional tag appended at the end; other fields are kept |
| Lines.StatusIcon | Sources/Logger/Line.swift:75-82 | a console or XcodeColors target gets a coloured bullet, and an unknown target gets the bracketed code |
| Lines.PlainStatusIconNamesLevel | Sources/Logger/Line.swift:101-116 | each bracketed code is the first letter of the level's display name, so the six codes are distinct |
| Lines.IndentSegments | Sources/Logger/Line.swift:133-140 | depth 0 adds no segment, depth 1 adds one blank, depth n ≥ 2 adds 2n blanks |
| Lines.Segments | Sources/Logger/Line.swift:122-167 | the segment count is fixed by depth, status, time and tags; the body is last; a continuation row is exactly marker, indentation and body; blink lands on the segment before the body; an icon is the marker; the time segment is the dimmed "[time]" unless blink restyles it |
| Lines.SegmentTexts | Sources/Logger/Line.swift:122-166 | the segments show the marker's text, then the indentation, then the decorations (status rows only), then the body |
| Lines.RenderText | Sources/Logger/Line.swift:122-166 | a rendered line reads: marker, indentation, then " [time]" and " tags › ›" on status rows only, then a blank and the body |
| Lines.BlinkOnlyRestyles | Sources/Logger/Line.swift:160-164 | blinking wraps only the segment before the body and leaves the visible text unchanged |
| Lines.TagTrail | Sources/Logger/Line.swift:155-158 | with tags on a steady status row, the two segments before the body are the dimmed tags joined by " › " and a dimmed "›" |
| Lines.VerboseRows | Sources/Logger/Line.swift:50-73 | prints the line's own content at verbose level with the extra tag, then one continuation row per list item, in order, one level deeper, each the item padded to the longest key and dimmed |
| Lines.ListRowText | Sources/Logger/Line.swift:63-71 | a list row without an icon reads: a blank marker, the indentation one level deeper, a blank, and the row |
| ListItems.StrValue | Sources/Logger/ListItem.swift:19-25 | a Bool shows as a dimmed "yes" or "no"; any other value shows as its description |
| ListItems.PaddedKey | Sources/Logger/ListItem.swift:27-29 | the result has exactly the requested width: the key followed by blanks when it is shorter, otherwise the key cut to that width |
| ListItems.Formatted | Sources/Logger/ListItem.swift:31-33 | the row reads: padded key, ": ", value |
| ListItems.FormattedKeepsKey | Sources/Logger/ListItem.swift:27-33 | padded to at least its own length, the key stays whole at the start and ": " falls at the padding column |
| ListLogs.Kv | Sources/Logger/ListLog.swift:6-8 | appends exactly one item at the end and keeps the earlier items in order |
| ListLogs.LongestKeyLength | Sources/Logger/ListLog.swift:13 | the width is at least every key's length and equals some key's length |
| ListLogs.Output | Sources/Logger/ListLog.swift:10-18 | an empty buffer yields no rows; otherwise one row per item, in insertion order, each formatted at the longest key length and dimmed |
| ListLogs.RowsAreAligned | Sources/Logger/ListLog.swift:13-16 | every row starts with its whole key and has ": " at the same column, the longest key length |
| OutputTargets.Current | Sources/Logger/OutputTarget.swift:30-44 | XcodeColors=YES gives xcodeColors whatever TERM and the tty are; console exactly when TERM is set, is not "dumb" in any case, and isatty is non-zero; an unset TERM gives unknown |
| OutputTargets.DumbTerminalIsUnknown | Sources/Logger/OutputTarget.swift:38-43 | TERM "dumb", "DUMB" or "Dumb" gives unknown even on a terminal |
| StringExtensions.Truncated | Sources/Logger/Extension/String.swift:8-11 | a string shorter than the limit is returned unchanged; otherwise the result is the first limit − 1 characters followed by the delimiter, of length limit − 1 + \|del\|; a limit below 1 on a long enough string traps |
| StringExtensions.TruncatedOverflowsLimit | Sources/Logger/Extension/String.swift:8-10 | with the default delimiter as written, every truncated result is limit + 2 characters long |
| StringExtensions.TruncatedOverflowExample | Sources/Logger/Extension/String.swift:8-10 | "abcdef" truncated at 3 is "ab" plus the three-character delimiter, five characters in all |
| StringExtensions.TruncatedToFit | Sources/Logger/Extension/String.swift:8-10 | with a one-character ellipsis, a successful result never exceeds the limit, and a cut string is exactly limit characters long and ends in the ellipsis |
| StringExtensions.Trimmed | Sources/Logger/Extension/String.swift:4-6 | the result is a contiguous substring; everything dropped from either end is whitespace; the result neither starts nor ends with whitespace |
| StringExtensions.TrimmedIsIdempotent | Sources/Logger/Extension/String.swift:4-6 | trimming twice is trimming once |

## Left out

- Writing to the streams: `fputs`, `print` and the two output-stream structs. An emission is returned as a (stream, line) value instead, without the newline `print` adds.
- Process termination in `abort` and `bug`: it appears only as the returned exit code.
- The `warn(...)` messages that `init` writes while choosing a threshold, and the final "In debug mode" message. They are output, and they do not affect the threshold.
- `DateFormatter` and `Date()`: the formatted "HH:mm:ss" string is a parameter.
- ANSI escape codes: styles are opaque constructors. Which colour each bullet or tag uses is recorded in the model but not stated in any contract.
- `ProcessInfo`, `CommandLine`, `getenv` and `isatty`: they become the environment map, the argument list, the optional variable values and an integer.
- `OutputTarget.current` is computed once per process in the source. Here it is a parameter of rendering.
- The `Printable`, `CustomStringConvertible` and `RawRepresentable` adapters, `hl`, and `Error.localizedDescription`: stringification is the single `Values.Describe`.
- The icon glyph and colour table: an icon is known only by its styled glyph.
- The static `Logger.new(_:)` and the global `log` it uses: the global is not part of this model.
- The unused `colors` array, and the public mutability of `Logger.level`.
- The `tag:` parameters of `verbose`, `debug`, `info` and `error`: the source ignores them, and so does the model.
- The array overload of `ListItem.toString`: a value typed `Any` never selects it.
- `ListLog.output` leaves the buffer as it is. A `ListLog` here is immutable, so two flushes of it give the same rows.
- Package manifest and test suite. The tests also call `indent()`, `ln()` and `icon:`, and use a value returned by `info`; none of these exists in the sources.
- OutputTargets.Current: `lowercased()` is modelled for ASCII letters only, because Unicode case mapping is out of scope; "dumb" is pure ASCII, so only exotic spellings could differ.
- StringExtensions.Trimmed: characters are Unicode scalars, not grapheme clusters. The whitespace class is listed explicitly.
- StringExtensions.Truncated: lengths and prefixes count Unicode scalars. Swift's `count` and `prefix` count grapheme clusters. The two agree when every character is a single scalar, but a cluster such as "e" followed by a combining accent can be split here where the source keeps it whole.
- ListItems.PaddedKey: lengths count characters. Swift's `count` counts grapheme clusters, and `padding(toLength:)` counts UTF-16 units; they agree on ASCII keys.
- Lines.Segments: the contract does not state which colour each status bullet has.
- Lines.Segments: a negative indentation makes `String(repeating:count:)` trap in the source. The model requires a non-negative indentation instead of modelling the trap, and so do `Lines.IndentSegments` and `Lines.Render`.
- ListLogs.RowsAreAligned: the source measures the width with `count` (grapheme clusters) but pads with `padding(toLength:)` (UTF-16 units). Whole keys and a common ": " column therefore hold in the source only for keys whose grapheme count equals their UTF-16 length, ASCII keys for example. A lone key "\u{1F44D}" has count 1 and UTF-16 length 2, so it is padded to one unit and cut. With keys "ab" and "e\u{301}", the second key is not padded and its ": " lands one column left. The model measures and pads in one unit, so the property holds for every key.
- ListItems.FormattedKeepsKey: for the same reason, a key stays whole in the source only when its grapheme count equals its UTF-16 length. "\u{1F44D}" formatted at indent 1 is cut to one UTF-16 unit.

## Findings

| source | as written | input that shows it | evidently intended | confidence | as-written member | corrected member |
|---|---|---|---|---|---|---|
| Sources/Logger/Extension/String.swift:8-10 | the default delimiter is the three characters U+00E2 U+20AC U+00A6. These are the UTF-8 bytes of "…" read as Windows-1252, so every truncated string is limit + 2 characters long | `"abcdef".truncated(3)` gives "ab" followed by the three characters, five in all | a one-character "…", so a truncated string is exactly `limit` characters long | medium, not executed | StringExtensions.TruncatedOverflowExample | StringExtensions.TruncatedToFit |
