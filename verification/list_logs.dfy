/** The key/value buffer behind list blocks (Sources/Logger/ListLog.swift). */
module ListLogs {
  import opened Styling
  import opened Values
  import opened ListItems

  /** The items buffered so far, in insertion order. */
  datatype ListLog = ListLog(items: seq<ListItem>)

  const Empty: ListLog := ListLog([])

  /** `kv`: append one item at the end; nothing is rendered yet. */
  function Kv(log: ListLog, key: string, value: Value): (r: ListLog)
    ensures |r.items| == |log.items| + 1
    ensures r.items[..|log.items|] == log.items
    ensures r.items[|log.items|] == ListItem(key, value)
  {
    ListLog(log.items + [ListItem(key, value)])
  }

  /** The length of the longest key, which the source reads off the items sorted by
      descending key length. */
  function LongestKeyLength(items: seq<ListItem>): (n: nat)
    requires |items| > 0
    ensures forall i :: 0 <= i < |items| ==> Count(items[i]) <= n
    ensures exists i :: 0 <= i < |items| && Count(items[i]) == n
  {
    if |items| == 1 then Count(items[0])
    else
      var rest := LongestKeyLength(items[1..]);
      if Count(items[0]) >= rest then Count(items[0]) else rest
  }

  /** One emitted row: the item formatted at the common width, dimmed. */
  function Row(item: ListItem, width: nat): Styled
  {
    Apply(Dim, Formatted(item, width))
  }

  /** `output(block:)`: the rows handed to the callback, in order. An empty buffer
      produces none; otherwise every item yields exactly one row, padded to the
      longest key. */
  method Output(log: ListLog) returns (rows: seq<Styled>)
    ensures |rows| == |log.items|
    ensures |log.items| > 0 ==>
              forall i :: 0 <= i < |rows| ==> rows[i] == Row(log.items[i], LongestKeyLength(log.items))
  {
    rows := [];
    if |log.items| == 0 {
      return;
    }
    var width := Count(log.items[0]);
    var k := 1;
    while k < |log.items|
      invariant 1 <= k <= |log.items|
      invariant forall i :: 0 <= i < k ==> Count(log.items[i]) <= width
      invariant exists i :: 0 <= i < k && Count(log.items[i]) == width
    {
      if Count(log.items[k]) > width {
        width := Count(log.items[k]);
      }
      k := k + 1;
    }
    ghost var longest := LongestKeyLength(log.items);
    assert width == longest;
    var n := 0;
    while n < |log.items|
      invariant 0 <= n <= |log.items|
      invariant |rows| == n
      invariant forall i :: 0 <= i < n ==> rows[i] == Row(log.items[i], width)
    {
      rows := rows + [Row(log.items[n], width)];
      n := n + 1;
    }
  }

  /** Every row of a flush has its key whole at the start and ": " in the same
      column, the longest key's length. */
  lemma RowsAreAligned(log: ListLog, i: int)
    requires 0 <= i < |log.items|
    ensures var width := LongestKeyLength(log.items);
            var text := TextOf(Row(log.items[i], width));
            && text[..|log.items[i].key|] == log.items[i].key
            && text[width..width + 2] == ": "
  {
    FormattedKeepsKey(log.items[i], LongestKeyLength(log.items));
  }
}
