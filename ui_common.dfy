/** Helpers shared by the views of package ui: `max` (internal/ui/model.go)
    and `min` (internal/ui/sessions.go), the token total every view shows,
    and the two window computations the views repeat: the rows shown
    around a cursor, and the clamped scroll offset of a pre-built line
    list. */
module UiCommon {
  import opened SessionTypes

  function Max(a: int, b: int): (r: int)
    ensures r >= a && r >= b
    ensures r == a || r == b
  {
    if a > b then a else b
  }

  function Min(a: int, b: int): (r: int)
    ensures r <= a && r <= b
    ensures r == a || r == b
  {
    if a < b then a else b
  }

  /** The four token counters added up. */
  function TotalTokens(info: SessionInfo): int
  {
    info.inputTokens + info.outputTokens + info.cacheReadTokens + info.cacheWriteTokens
  }

  /** The rows [start, end) of an n-row list shown in listHeight rows with
      the cursor row visible: the window starts at the top until the cursor
      would fall below it, and from then on the cursor is the last row. */
  function CursorWindow(cursor: int, listHeight: int, n: int): (w: (int, int))
    requires listHeight >= 1
    ensures cursor >= 0 ==> 0 <= w.0 <= cursor < w.0 + listHeight
    ensures w.0 > 0 ==> cursor == w.0 + listHeight - 1
    ensures w.1 == Min(w.0 + listHeight, n)
    ensures 0 <= cursor < n ==> 0 <= w.0 <= cursor < w.1 <= n && w.1 - w.0 <= listHeight
  {
    var start := if cursor >= listHeight then cursor - listHeight + 1 else 0;
    var end := if start + listHeight > n then n else start + listHeight;
    (start, end)
  }

  /** The scroll offset and end of the slice of an n-line list shown in a
      view of the given height: the offset is clamped so that the last page
      is full, and the slice never leaves the list.  An offset below zero
      would make the slice fail; the navigation model never produces one. */
  function ScrollWindow(scroll: int, n: nat, height: int): (w: (int, int))
    requires scroll >= 0
    ensures var visibleHeight := Max(1, height - 3);
      && 0 <= w.0 <= w.1 <= n
      && w.0 <= Max(0, n - visibleHeight)
      && (scroll <= n - visibleHeight ==> w.0 == scroll)
      && w.1 - w.0 <= visibleHeight
      && (n >= visibleHeight ==> w.1 - w.0 == visibleHeight)
      && (n < visibleHeight ==> w == (0, n))
  {
    var visibleHeight := if height - 3 < 1 then 1 else height - 3;
    var s := if scroll > n - visibleHeight then Max(0, n - visibleHeight) else scroll;
    var end := if s + visibleHeight > n then n else s + visibleHeight;
    (s, end)
  }
}
