/** The text and window helpers of the timeline and event views
    (internal/ui/detail.go).  Styling and the assembly of the rendered text
    are not modelled; what is kept is what decides which characters and
    which rows are shown. */
module Detail {
  import opened Wrappers
  import opened Json
  import opened GoStrings
  import opened SessionTypes
  import opened UiCommon

  // ---------------------------------------------------------------------
  // Short strings

  /** The first 8 characters of an ID, or the whole ID when shorter. */
  function ShortID(id: string): (r: string)
    ensures |r| == Min(|id|, 8)
    ensures r == id[..|r|]
  {
    if |id| > 8 then id[..8] else id
  }

  /** The text before the first newline, or all of s when it has none. */
  function FirstLine(s: string): (r: string)
    ensures '\n' !in r
    ensures |r| <= |s| && r == s[..|r|]
    ensures |r| < |s| ==> s[|r|] == '\n'
  {
    var i := IndexOf(s, '\n');
    if i >= 0 then s[..i] else s
  }

  /** The width truncate applies: a non-positive limit means 40. */
  function TruncateLimit(maxLen: int): (lim: int)
    ensures lim >= 1
  {
    if maxLen <= 0 then 40 else maxLen
  }

  /** s cut to the limit with an ellipsis as its last character; unchanged
      when it fits. */
  function Truncate(s: string, maxLen: int): (r: string)
    ensures |s| <= TruncateLimit(maxLen) ==> r == s
    ensures |s| > TruncateLimit(maxLen) ==>
      |r| == TruncateLimit(maxLen) && r[..|r| - 1] == s[..|r| - 1] && r[|r| - 1] == '…'
    ensures |r| <= TruncateLimit(maxLen)
  {
    var lim := TruncateLimit(maxLen);
    if |s| <= lim then s else s[..lim - 1] + "…"
  }

  // ---------------------------------------------------------------------
  // Visible length

  const ESC: char := '\U{1B}'

  predicate IsAsciiLetter(c: char) {
    ('a' <= c <= 'z') || ('A' <= c <= 'Z')
  }

  /** What remains after an escape sequence that was opened just before t:
      everything up to and including its first ASCII letter is dropped. */
  function AfterEscape(t: string): (r: string)
    ensures |r| <= |t|
  {
    if t == [] then []
    else if IsAsciiLetter(t[0]) then t[1..]
    else AfterEscape(t[1..])
  }

  /** The characters of s a terminal prints: s without its escape
      sequences, each running from an ESC to the next ASCII letter. */
  function Visible(s: string): (r: string)
    ensures |r| <= |s|
    ensures ESC !in r
    decreases |s|
  {
    if s == [] then []
    else if s[0] == ESC then Visible(AfterEscape(s[1..]))
    else [s[0]] + Visible(s[1..])
  }

  /** The visible characters still to come at a point of the scan. */
  function Pending(t: string, inEsc: bool): nat
  {
    if inEsc then |Visible(AfterEscape(t))| else |Visible(t)|
  }

  /** visibleLen: the number of printed characters, counted in one pass
      with a flag for "inside an escape sequence". */
  method VisibleLen(s: string) returns (n: nat)
    ensures n == |Visible(s)|
  {
    n := 0;
    var inEsc := false;
    var i := 0;
    while i < |s|
      invariant 0 <= i <= |s|
      invariant n + Pending(s[i..], inEsc) == |Visible(s)|
    {
      var r := s[i];
      assert s[i..][0] == r && s[i..][1..] == s[i + 1..];
      if r == ESC {
        inEsc := true;
      } else if inEsc {
        if IsAsciiLetter(r) {
          inEsc := false;
        }
      } else {
        n := n + 1;
      }
      i := i + 1;
    }
  }

  /** Text without ESC is printed as it is. */
  lemma {:induction false} VisibleWithoutEscape(s: string)
    requires ESC !in s
    ensures Visible(s) == s
  {
    if s != [] {
      assert ESC !in s[1..];
      VisibleWithoutEscape(s[1..]);
    }
  }

  lemma {:induction false} AfterEscapeSkips(p: string, letter: char, t: string)
    requires forall i :: 0 <= i < |p| ==> !IsAsciiLetter(p[i])
    requires IsAsciiLetter(letter)
    ensures AfterEscape(p + [letter] + t) == t
  {
    if p == [] {
      assert (p + [letter] + t)[1..] == t;
    } else {
      assert (p + [letter] + t)[1..] == p[1..] + [letter] + t;
      AfterEscapeSkips(p[1..], letter, t);
    }
  }

  /** An escape sequence (ESC, non-letters, a final letter, as in a colour
      code) adds nothing to the visible text. */
  lemma EscapeSequenceIsInvisible(p: string, letter: char, t: string)
    requires forall i :: 0 <= i < |p| ==> !IsAsciiLetter(p[i])
    requires IsAsciiLetter(letter)
    ensures Visible([ESC] + p + [letter] + t) == Visible(t)
  {
    assert ([ESC] + p + [letter] + t)[1..] == p + [letter] + t;
    AfterEscapeSkips(p, letter, t);
  }

  // ---------------------------------------------------------------------
  // Wrapped lines

  /** The width wrapLines cuts at: a non-positive width means 76. */
  function WrapWidth(maxWidth: int): (w: int)
    ensures w >= 1
  {
    if maxWidth <= 0 then 76 else maxWidth
  }

  const MAX_WRAPPED_LINES: nat := 500

  /** The line standing for the lines beyond the first 500 (its muted
      style is not modelled). */
  function OverflowLine(prefix: string, more: int): string
  {
    prefix + "... (" + Itoa(more) + " more lines)"
  }

  /** wrapLines: each line of s cut to the width and prefixed, for at most
      500 lines, then one line counting the rest. */
  method WrapLines(s: string, maxWidth: int, prefix: string) returns (result: seq<string>)
    ensures var lines := SplitLines(s);
      && |result| == (if |lines| > MAX_WRAPPED_LINES then MAX_WRAPPED_LINES + 1 else |lines|)
      && (forall i :: 0 <= i < Min(|lines|, MAX_WRAPPED_LINES) ==>
            result[i] == prefix + lines[i][..Min(|lines[i]|, WrapWidth(maxWidth))])
      && (|lines| > MAX_WRAPPED_LINES ==>
            result[MAX_WRAPPED_LINES] == OverflowLine(prefix, |lines| - MAX_WRAPPED_LINES))
  {
    var width := maxWidth;
    if width <= 0 {
      width := 76;
    }
    var lines := SplitLines(s);
    result := CutLines(lines, Min(|lines|, MAX_WRAPPED_LINES), width, prefix);
    if |lines| > MAX_WRAPPED_LINES {
      result := result + [OverflowLine(prefix, |lines| - MAX_WRAPPED_LINES)];
    }
  }

  /** The loop of wrapLines over the first n lines: each is cut to the
      width and prefixed. */
  method CutLines(lines: seq<string>, n: int, width: int, prefix: string) returns (result: seq<string>)
    requires 0 <= n <= |lines| && width >= 1
    ensures |result| == n
    ensures forall k :: 0 <= k < n ==> result[k] == prefix + lines[k][..Min(|lines[k]|, width)]
  {
    result := [];
    var i := 0;
    while i < n
      invariant 0 <= i <= n
      invariant |result| == i
      invariant forall k :: 0 <= k < i ==> result[k] == prefix + lines[k][..Min(|lines[k]|, width)]
    {
      var line := lines[i];
      if |line| > width {
        line := line[..width];
      }
      result := result + [prefix + line];
      i := i + 1;
    }
  }

  /** Every wrapped line but the overflow line fits in the prefix plus the
      width, and none holds a newline. */
  lemma WrappedLinesFit(s: string, maxWidth: int, prefix: string, i: int)
    requires 0 <= i < Min(|SplitLines(s)|, MAX_WRAPPED_LINES)
    ensures var line := prefix + SplitLines(s)[i][..Min(|SplitLines(s)[i]|, WrapWidth(maxWidth))];
      |line| <= |prefix| + WrapWidth(maxWidth) && ('\n' !in prefix ==> '\n' !in line)
  {
    var l := SplitLines(s)[i];
    var cut := l[..Min(|l|, WrapWidth(maxWidth))];
    assert forall c :: c in cut ==> c in l;
  }

  // ---------------------------------------------------------------------
  // Tool summary

  /** The one-line summary of a tool call in the timeline.  Known tools
      show their main argument when it is a string; anything else shows
      the JSON encoding of the whole input. */
  function FormatToolSummary(tool: string, input: Json, encode: Json -> string): (r: string)
    ensures tool == "Bash" && StringAt(Entries(input), "command").Some? ==> r == "$ " + FirstLine(StringAt(Entries(input), "command").value)
    ensures tool == "Read" && StringAt(Entries(input), "file_path").Some? ==> r == StringAt(Entries(input), "file_path").value
    ensures tool == "Write" && StringAt(Entries(input), "file_path").Some? ==> r == "→ " + StringAt(Entries(input), "file_path").value
    ensures tool == "Edit" && StringAt(Entries(input), "file_path").Some? ==> r == "✎ " + StringAt(Entries(input), "file_path").value
    ensures tool !in KnownTools ==> r == encode(input)
  {
    var fallback := encode(input);
    if tool == "Bash" then
      match StringAt(Entries(input), "command")
      case Some(cmd) => "$ " + FirstLine(cmd)
      case None => fallback
    else if tool == "Read" then StringAt(Entries(input), "file_path").GetOr(fallback)
    else if tool == "Write" then
      match StringAt(Entries(input), "file_path")
      case Some(fp) => "→ " + fp
      case None => fallback
    else if tool == "Edit" then
      match StringAt(Entries(input), "file_path")
      case Some(fp) => "✎ " + fp
      case None => fallback
    else if tool == "Glob" then StringAt(Entries(input), "pattern").GetOr(fallback)
    else if tool == "Grep" then
      match StringAt(Entries(input), "pattern")
      case Some(p) =>
        var path := if StringOr(Entries(input), "path") == "" then "." else StringOr(Entries(input), "path");
        "\"" + p + "\" " + path
      case None => fallback
    else if tool == "Task" then StringAt(Entries(input), "description").GetOr(fallback)
    else if tool == "TaskCreate" then StringAt(Entries(input), "subject").GetOr(fallback)
    else if tool == "TaskUpdate" then
      match StringAt(Entries(input), "taskId")
      case Some(id) => "#" + id + " → " + StringOr(Entries(input), "status")
      case None => fallback
    else if tool == "WebFetch" then StringAt(Entries(input), "url").GetOr(fallback)
    else if tool == "WebSearch" then StringAt(Entries(input), "query").GetOr(fallback)
    else if tool == "Skill" then StringAt(Entries(input), "skill").GetOr(fallback)
    else fallback
  }

  /** The tools with a summary of their own. */
  const KnownTools: set<string> :=
    {"Bash", "Read", "Write", "Edit", "Glob", "Grep", "Task", "TaskCreate", "TaskUpdate", "WebFetch", "WebSearch", "Skill"}

  /** A tool whose expected argument is missing or not a string falls back
      to the JSON encoding of its input. */
  lemma SummaryFallsBack(tool: string, input: Json, encode: Json -> string)
    requires tool in KnownTools
    requires forall key :: key in Entries(input) ==> !Entries(input)[key].Str?
    ensures FormatToolSummary(tool, input, encode) == encode(input)
  {
  }

  /** A Bash summary is a single line, even for a multi-line command. */
  lemma BashSummaryIsOneLine(input: Json, encode: Json -> string)
    requires StringAt(Entries(input), "command").Some?
    ensures '\n' !in FormatToolSummary("Bash", input, encode)
  {
    var cmd := StringAt(Entries(input), "command").value;
    assert FormatToolSummary("Bash", input, encode) == "$ " + FirstLine(cmd);
  }

  // ---------------------------------------------------------------------
  // Windows

  /** The rows of the timeline: the header takes 3 lines, 4 when the
      file-count bar is shown (some path set is non-empty), and 2 more are
      kept free; at least one row is shown. */
  function TimelineWindow(info: SessionInfo, cursor: int, height: int, n: int): (w: (int, int))
    ensures var headerLines := if info.filesWritten != {} || info.filesCreated != {} || info.filesRead != {} then 4 else 3;
      var listHeight := Max(1, height - headerLines - 2);
      && (0 <= cursor < n ==> 0 <= w.0 <= cursor < w.1 <= n && w.1 - w.0 <= listHeight)
      && (cursor >= 0 && w.0 <= n ==> w.1 - w.0 == Min(listHeight, n - w.0))
  {
    var headerLines := if info.filesWritten != {} || info.filesCreated != {} || info.filesRead != {} then 4 else 3;
    var listHeight := if height - headerLines - 2 < 1 then 1 else height - headerLines - 2;
    CursorWindow(cursor, listHeight, n)
  }
}
