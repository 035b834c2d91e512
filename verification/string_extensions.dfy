/** The string helpers of Sources/Logger/Extension/String.swift. */
module StringExtensions {
  import opened Results

  /** The default `del` as the source file spells it: the three characters
      U+00E2 U+20AC U+00A6, which are the UTF-8 bytes of an ellipsis read as
      Windows-1252 text. */
  const WrittenDelimiter: string := "\U{E2}\U{20AC}\U{A6}"

  /** The single-character ellipsis that delimiter evidently stands for. */
  const Ellipsis: string := "\U{2026}"

  /** `truncated(limit, del:)`: a string shorter than `limit` is kept; otherwise its
      first `limit - 1` characters are followed by `del`. Taking a prefix of
      negative length traps, which is the error case. */
  function Truncated(s: string, limit: int, del: string): (r: Result<string>)
    ensures r.Err? <==> |s| >= limit && limit < 1
    ensures |s| < limit ==> r == Ok(s)
    ensures r.Ok? && |s| >= limit ==>
              && |r.value| == limit - 1 + |del|
              && r.value[..limit - 1] == s[..limit - 1]
              && r.value[limit - 1..] == del
  {
    if |s| < limit then Ok(s)
    else if limit - 1 < 0 then Err("Can't take a prefix of negative length from a collection")
    else Ok(s[..limit - 1] + del)
  }

  /** With the delimiter as written, every truncated result is two characters
      longer than the limit it was asked to respect. */
  lemma TruncatedOverflowsLimit(s: string, limit: int)
    requires 1 <= limit <= |s|
    ensures Truncated(s, limit, WrittenDelimiter).Ok?
    ensures |Truncated(s, limit, WrittenDelimiter).value| == limit + 2
  {
  }

  /** A concrete witness: "abcdef" truncated at 3 comes out 5 characters long. */
  lemma TruncatedOverflowExample()
    ensures Truncated("abcdef", 3, WrittenDelimiter) == Ok("ab" + WrittenDelimiter)
    ensures |Truncated("abcdef", 3, WrittenDelimiter).value| == 5
  {
    assert "abcdef"[..2] == "ab";
  }

  /** Truncation with the intended one-character ellipsis: whenever it succeeds the
      result fits within the limit, and a string that had to be cut comes out
      exactly `limit` characters long, ending in the ellipsis. */
  function TruncatedToFit(s: string, limit: int): (r: Result<string>)
    ensures r.Err? <==> |s| >= limit && limit < 1
    ensures r.Ok? ==> |r.value| <= limit
    ensures r.Ok? && |s| >= limit ==> |r.value| == limit && r.value[limit - 1..] == Ellipsis
  {
    Truncated(s, limit, Ellipsis)
  }

  /** The characters Foundation's `whitespacesAndNewlines` contains: the Unicode
      space separators, line and paragraph separators, tab, U+000A to U+000D and
      U+0085. */
  predicate IsWhitespace(c: char)
  {
    || c == '\t' || c == '\n' || c == '\U{B}' || c == '\U{C}' || c == '\r'
    || c == ' ' || c == '\U{85}' || c == '\U{A0}' || c == '\U{1680}'
    || ('\U{2000}' <= c <= '\U{200A}')
    || c == '\U{2028}' || c == '\U{2029}' || c == '\U{202F}' || c == '\U{205F}' || c == '\U{3000}'
  }

  /** The number of whitespace characters `s` starts with. */
  function LeadingWhitespace(s: string): (n: nat)
    ensures n <= |s|
    ensures forall i :: 0 <= i < n ==> IsWhitespace(s[i])
    ensures n == |s| || !IsWhitespace(s[n])
  {
    if |s| == 0 || !IsWhitespace(s[0]) then 0
    else 1 + LeadingWhitespace(s[1..])
  }

  /** The number of whitespace characters `s` ends with. */
  function TrailingWhitespace(s: string): (n: nat)
    ensures n <= |s|
    ensures forall i :: |s| - n <= i < |s| ==> IsWhitespace(s[i])
    ensures n == |s| || !IsWhitespace(s[|s| - n - 1])
  {
    if |s| == 0 || !IsWhitespace(s[|s| - 1]) then 0
    else 1 + TrailingWhitespace(s[..|s| - 1])
  }

  /** `trimmed`: the contiguous run of `s` left once whitespace is stripped from both
      ends. Everything dropped is whitespace and what remains neither starts nor
      ends with whitespace. */
  function Trimmed(s: string): (r: string)
    ensures exists i, j :: 0 <= i <= j <= |s| && r == s[i..j]
                           && (forall k :: 0 <= k < i ==> IsWhitespace(s[k]))
                           && (forall k :: j <= k < |s| ==> IsWhitespace(s[k]))
    ensures |r| > 0 ==> !IsWhitespace(r[0]) && !IsWhitespace(r[|r| - 1])
  {
    var i := LeadingWhitespace(s);
    var rest := s[i..];
    var j := i + |rest| - TrailingWhitespace(rest);
    assert rest[..|rest| - TrailingWhitespace(rest)] == s[i..j];
    s[i..j]
  }

  /** Trimming twice is trimming once. */
  lemma TrimmedIsIdempotent(s: string)
    ensures Trimmed(Trimmed(s)) == Trimmed(s)
  {
    var r := Trimmed(s);
    assert LeadingWhitespace(r) == 0;
    assert r[0..] == r;
    assert TrailingWhitespace(r) == 0;
  }
}
