/** The columns and the window of the sessions list
    (internal/ui/sessions.go).  Padding, colours and the cost column are
    not modelled. */
module SessionsView {
  import opened Wrappers
  import opened GoStrings
  import opened SessionTypes
  import opened UiCommon

  /** A session ID as listed: IDs longer than 10 characters become their
      first 8 and "..". */
  function ListedID(id: string): (r: string)
    ensures |r| <= 10
    ensures |id| <= 10 ==> r == id
    ensures |id| > 10 ==> r == id[..8] + ".."
  {
    if |id| > 10 then id[..8] + ".." else id
  }

  /** A project name as listed: names longer than 18 characters become
      their first 15 and "...". */
  function ListedProject(name: string): (r: string)
    ensures |r| <= 18
    ensures |name| <= 18 ==> r == name
    ensures |name| > 18 ==> r == name[..15] + "..."
  {
    if |name| > 18 then name[..15] + "..." else name
  }

  /** formatTokens: plain decimal below 1000; the k and M forms above are
      floating-point and stand here as None. */
  function FormatTokens(n: int): (r: Option<string>)
    ensures r.Some? <==> n < 1000
  {
    if n < 1000 then Some(Itoa(n)) else None
  }

  /** The plain form of a count in [0, 1000) is at most three digits and
      reads back as the count. */
  lemma FormatTokensSmall(n: nat)
    requires n < 1000
    ensures FormatTokens(n) == Some(Digits(n))
    ensures |Digits(n)| <= 3 && DecimalValue(Digits(n)) == n
  {
    DigitsRoundTrip(n);
  }

  /** timeAgo: a dash for the zero time; otherwise a text that depends on
      the wall clock, given here as since. */
  function TimeAgo(t: nat, since: string): (r: string)
    ensures t == 0 ==> r == "—"
    ensures t != 0 ==> r == since
  {
    if t == 0 then "—" else since
  }

  /** The columns of one row of the list. */
  datatype SessionRow = SessionRow(
    status: string,
    project: string,
    id: string,
    ago: string,
    tokens: Option<string>,
    tools: string,
    edits: string)

  /** formatSessionLine: a hollow dot marks a subagent; the tokens column
      is the sum of the four counters; the edits column counts the edited
      and the created files. */
  function FormatSessionRow(s: SessionInfo, since: string): (row: SessionRow)
    ensures row.status == "◦" <==> s.isAgent
    ensures !s.isAgent ==> row.status == "●"
    ensures row.project == ListedProject(s.projectName) && row.id == ListedID(s.id)
    ensures |row.project| <= 18 && |row.id| <= 10
    ensures row.ago == "—" <==> s.lastUpdate == 0 || since == "—"
    ensures row.tokens.Some? <==> TotalTokens(s) < 1000
  {
    SessionRow(
      status := if s.isAgent then "◦" else "●",
      project := ListedProject(s.projectName),
      id := ListedID(s.id),
      ago := TimeAgo(s.lastUpdate, since),
      tokens := FormatTokens(TotalTokens(s)),
      tools := Itoa(s.toolCallCount),
      edits := Itoa(|s.filesWritten| + |s.filesCreated|))
  }

  /** The rows of the list shown: six lines go to the header, at least one
      row is shown, and the cursor row is among them. */
  function ListWindow(cursor: int, height: int, n: int): (w: (int, int))
    ensures 0 <= cursor < n ==> 0 <= w.0 <= cursor < w.1 <= n && w.1 - w.0 <= Max(1, height - 6)
    ensures cursor >= 0 && w.0 <= n ==> w.1 - w.0 == Min(Max(1, height - 6), n - w.0)
  {
    var listHeight := if height - 6 < 1 then 1 else height - 6;
    CursorWindow(cursor, listHeight, n)
  }

  /** The number columns read back as the counts they show: tools and
      edits always, tokens when the total is below 1000. */
  lemma RowCountsReadBack(s: SessionInfo, since: string)
    requires s.toolCallCount >= 0
    ensures var row := FormatSessionRow(s, since);
      && row.tools == Digits(s.toolCallCount) && DecimalValue(row.tools) == s.toolCallCount
      && row.edits == Digits(|s.filesWritten| + |s.filesCreated|)
      && DecimalValue(row.edits) == |s.filesWritten| + |s.filesCreated|
      && (0 <= TotalTokens(s) < 1000 ==>
            row.tokens.value == Digits(TotalTokens(s)) && DecimalValue(row.tokens.value) == TotalTokens(s))
  {
    DigitsRoundTrip(s.toolCallCount);
    DigitsRoundTrip(|s.filesWritten| + |s.filesCreated|);
    if 0 <= TotalTokens(s) < 1000 {
      DigitsRoundTrip(TotalTokens(s));
    }
  }
}
