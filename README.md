# verbose — a Dafny model of the transcript parser, session store and terminal views

`verbose` is a terminal viewer for Claude Code session transcripts. Each
transcript is a JSON Lines file under `~/.claude/projects/<encoded-dir>/`.
This project models the viewer's core in Dafny and proves properties of it:

- **Transcript parser** (`session_parser.dfy`, with its properties in
  `parser_properties.dfy`). A transcript is read in two passes.
  - Pass 1 decodes every non-empty line. It remembers the first non-empty
    working directory and the first non-empty model. For each assistant
    message ID it keeps one authoritative revision of the message.
  - Pass 2 replays the records in file order. It builds the event timeline
    (prompts, thinking, text, tool calls, tool results, compactions) and
    the session summary: counters, token totals, the files touched, and
    the start and last-update times.
  - A streamed assistant message is emitted exactly once. It is emitted
    at the first record that carries the authoritative revision's UUID.
    Its events take that record's timestamp and the authoritative
    revision's content and usage.
- **Session store** (`session_store.dfy`). A class holding:
  - the map of parsed sessions, keyed by ID;
  - the set of project directories the watcher was given;
  - the one-slot debounce timer;
  - the one-slot "sessions updated" channel.

  Its methods are the directory scan, the file-event filter, the debounced
  re-parse, and the newest-first listing.
- **Views** (`ui_model.dfy`, `ui_detail.dfy`, `ui_overview.dfy`,
  `ui_sessions.dfy`, `ui_common.dfy`).
  - The navigation state machine of the four screens (session list,
    timeline, overview, event detail) is a class. Each key handler has a
    specification function on a `UiState` value, and the invariants are
    proved over those functions.
  - The pure formatting helpers each get a contract: short IDs, first
    line, truncation, visible width without ANSI escapes, line wrapping,
    tool summaries, thousands separators, list windows and scroll clamps.
- **Supporting modules**:
  - `session_types.dfy`: records and events.
  - `json.dfy`: decoded JSON values and the Go type-assertion idiom
    `v, _ := m[k].(string)`.
  - `gostrings.dfy`: the `strings`, `path/filepath`, `unicode` and `fmt`
    functions the code relies on.
  - `sorting.dfy`: an in-place insertion sort standing in for `sort.Slice`
    and `sort.Strings`.
  - `wrappers.dfy`: `Option`.

The model follows the code, and where nothing in the source says
otherwise it records what the code does:

- **Event order.** Events are never re-sorted by timestamp. They appear in
  file order, as appended in `internal/session/parser.go:97-197`, and an
  emitted assistant message is stamped with the time of the record where
  it is emitted.
- **File-operation sets.** `Edit` feeds `FilesWritten` and `Write` feeds
  `FilesCreated` (`internal/session/parser.go:174-181`), as the field
  comments at `internal/session/types.go:26-27` say.

Where the code comments or the text shown and the code disagree, the model
follows the code:

- **Ties between revisions.** The comment at `internal/session/parser.go:39`
  says the last, most complete revision of an assistant message is kept.
  The code replaces the stored revision only when the new timestamp is
  strictly later (`parser.go:79`). A revision with an equal timestamp
  therefore loses to the one seen earlier in the file. This is proved in
  `ParserProperties.TieKeepsEarlier`.
- **Back from the overview.** The comment at `internal/ui/model.go:177`
  says that esc leaves the overview for the timeline when it was opened
  from there, and for the session list otherwise. But `s` in the list
  selects the session before opening the overview
  (`internal/ui/model.go:278-285`), so a session is always selected there
  and esc always lands on the timeline. The list branch at
  `internal/ui/model.go:181-184` is never reached. This is proved in
  `UiModel.BackFromSummaryShowsTimeline` and
  `UiModel.SummaryFromListThenBack`.
- **Keys in the overview.** The overview's footer
  (`internal/ui/overview.go:100`) says that enter or `t` opens the event
  timeline. The key handler does nothing for enter in the overview
  (`internal/ui/model.go:252-273`), and `t` is not bound at all. Both keys
  leave the overview unchanged; this is proved in
  `UiModel.OverviewIgnoresEnterAndT`.

Timestamps are natural numbers, and 0 stands for Go's zero `time.Time`.
Text is a sequence of characters with one character per byte. Files and
directory listings are given to the parser and the store as values (see
Left out).

## Model

| member | source | states |
|---|---|---|
| SessionParser.SessionID | internal/session/parser.go:20-21 | The session ID is the file name with exactly one trailing `.jsonl` removed; names without that suffix are kept whole. |
| SessionParser.ProjectDirOf | internal/session/parser.go:25-26 | The project directory is the encoded directory name with every `-` turned into `/`; nothing else changes and no `-` remains. |
| SessionParser.ProjectNameOf | internal/session/parser.go:25-27 | The project name is the last element of the decoded project path: a non-empty suffix of the path without trailing slashes, free of `/` (unless it is `/`) and preceded by a `/` when shorter than that path; it is the directory name itself when that has no `-` or `/`. |
| SessionParser.InitialInfo | internal/session/parser.go:29-37 | The starting summary carries the ID, project, agent flag (file name starts `agent-`), first cwd and first model. |
| SessionParser.ItemsText | internal/session/parser.go:247-254 | A tool-result item list whose items all carry no text yields empty output. |
| SessionParser.ToolResultOutput | internal/session/parser.go:243-258 | String content is the output verbatim, array content the concatenated item texts, anything else its JSON encoding. |
| SessionParser.UserBlockEvents | internal/session/parser.go:234-282 | A user block yields exactly one event iff it is an object of type `tool_result`, or of type `text` with non-blank text; the event is a tool result with the block's output, error flag and tool ID, or a prompt with the text, and it carries the record's UUID and time and no tokens. |
| SessionParser.UserBlocks | internal/session/parser.go:234-283 | Every event from a user block list is a prompt with non-blank text or a tool result, with the record's UUID and time and no tokens. |
| SessionParser.ParseUserMessage | internal/session/parser.go:216-287 | A record without a message yields nothing; string content yields one prompt iff it is not blank; all events are user-derived. |
| SessionParser.AssistantBlockEvents | internal/session/parser.go:307-357 | An assistant block yields exactly one event iff it is an object of type `tool_use`, or `thinking`/`text` with non-blank text; the event has the block's name, ID and input or its text, the message's input/output tokens, and the record's UUID and time. |
| SessionParser.AssistantBlocks | internal/session/parser.go:307-357 | Every event from an assistant block list is a non-blank thinking/text or a tool call carrying the message's tokens. |
| SessionParser.ParseAssistantMessage | internal/session/parser.go:289-360 | A record with no message or with non-array content yields nothing; otherwise every event is assistant-derived with the usage's input and output tokens (0 without usage). |
| SessionParser.CompactionEvent | internal/session/parser.go:109-122 | A compaction boundary becomes a compaction event with the pre-compaction tokens and trigger, or 0 and "" when the metadata is absent. |
| SessionParser.ResolveKeepsRevisions | internal/session/parser.go:76-84 | Every entry of the resolved-message map is a revision of the message ID it is filed under. |
| SessionParser.FirstCwdAppend | internal/session/parser.go:70-72 | The first non-empty cwd, once found, is never replaced by later records. |
| SessionParser.FirstModelAppend | internal/session/parser.go:85-87 | The first non-empty model of an assistant revision, once found, is never replaced. |
| SessionParser.CountAppend | internal/session/parser.go:137-144 | Counting events satisfying a predicate distributes over concatenation of event lists. |
| SessionParser.PathsOfAppend | internal/session/parser.go:165-186 | The set of file paths touched by a tool distributes over concatenation of event lists. |
| SessionParser.ParseSpec | internal/session/parser.go:14-17 | Parsing fails exactly when the file cannot be opened; every readable file yields a session. |
| SessionParser.ReadRecords | internal/session/parser.go:56-92 | The first-pass loop yields the decoded records, the resolved-message map and the starting summary the specification functions define. |
| SessionParser.ReadRecord | internal/session/parser.go:67-88 | One decoded record is appended, and the resolved-message map, first cwd and first model after it are those of the records read so far. |
| SessionParser.CountUserLoop | internal/session/parser.go:137-144 | The loop counts exactly the prompts and the failed tool results among a user record's events. |
| SessionParser.TallyTool | internal/session/parser.go:166-184 | One event adds one tool call if it is a tool use, one Bash command if it calls Bash, and its file path to the read/created/written set for Read/Write/Edit. |
| SessionParser.CountToolLoop | internal/session/parser.go:165-186 | The loop's tallies equal the tool-call and Bash counts and the Read/Write/Edit path sets of the emitted events. |
| SessionParser.SystemRecord | internal/session/parser.go:108-123 | A system record appends a compaction event exactly for `compact_boundary` and otherwise only updates the times. |
| SessionParser.UserRecord | internal/session/parser.go:125-144 | A user record with a message that is not a compact summary appends its parsed events and adds its prompts and errors to the counters. |
| SessionParser.AddFinalUsage | internal/session/parser.go:189-195 | The authoritative revision's usage is added to the four token totals, cache creation counting as cache write. |
| SessionParser.AssistantRecord | internal/session/parser.go:146-196 | An assistant record emits the authoritative revision's events only when its ID is new, resolved and its UUID is the authoritative one; otherwise only the times change. |
| SessionParser.EmitMessage | internal/session/parser.go:160-195 | Emitting a message marks its ID seen, appends its events, and adds its tool tallies, file paths and usage. |
| SessionParser.StepRecord | internal/session/parser.go:98-196 | One second-pass iteration updates the state exactly as the record-step function specifies. |
| SessionParser.BuildTimeline | internal/session/parser.go:97-197 | The second-pass loop computes the state obtained by folding the record step over all records. |
| SessionParser.ParseSessionFile | internal/session/parser.go:13-214 | The imperative parser returns exactly the session the specification defines (or none when the file cannot be opened). |
| ParserProperties.DecodedSkipsUnkept | internal/session/parser.go:56-67 | Exactly the non-empty, decodable lines become records, in file order: there are as many records as such lines, every record comes from one, and the i-th such line gives the i-th record. |
| ParserProperties.ItemsTextAppend | internal/session/parser.go:247-254 | Tool-result output concatenates item texts in item order. |
| ParserProperties.UserBlocksAppend | internal/session/parser.go:234-283 | A user message's events appear in the order of its blocks. |
| ParserProperties.AssistantBlocksAppend | internal/session/parser.go:307-357 | An assistant message's events appear in the order of its blocks. |
| ParserProperties.ResolveIsAuthoritative | internal/session/parser.go:76-84 | A message ID is resolved iff some record is a revision of it, and the kept revision is the one with the greatest timestamp, the earliest in the file among ties. |
| ParserProperties.AuthoritativeUnique | internal/session/parser.go:76-84 | At most one position is the authoritative revision of a message ID. |
| ParserProperties.TieKeepsEarlier | internal/session/parser.go:79 | Of two revisions with equal timestamps, the one earlier in the file is kept. |
| ParserProperties.FirstCwdIsFirst | internal/session/parser.go:70-72 | The session cwd is the cwd of the first record that has one, and empty iff no record has one. |
| ParserProperties.FirstModelIsFirst | internal/session/parser.go:85-87 | The session model is the model of the first assistant revision that names one, and empty iff none does. |
| ParserProperties.StepContribution | internal/session/parser.go:107-162 | Each record appends exactly its own events to the timeline and marks its message ID seen exactly when it carries the authoritative revision. |
| ParserProperties.StepEventsByKind | internal/session/parser.go:107-132 | System records add only a compaction event and only at a boundary; user records without a message or that are compact summaries add nothing; non-emitting assistant records and unknown record types change nothing but the times. |
| ParserProperties.BuildSeen | internal/session/parser.go:147-160 | After pass 2, the seen IDs are exactly the IDs of records that carry their authoritative revision. |
| ParserProperties.EmitsAtFirstMatch | internal/session/parser.go:147-160 | A record emits iff it carries its message's authoritative revision and no earlier record did. |
| ParserProperties.ResolvedAreMatched | internal/session/parser.go:153-160 | Every resolved message ID is carried by some record, so every resolved message gets emitted. |
| ParserProperties.EmittedExactlyOnce | internal/session/parser.go:147-162 | Each resolved assistant message is emitted at exactly one record, and unresolved IDs never. |
| ParserProperties.BuildTokens | internal/session/parser.go:188-195 | Each token total after pass 2 is its start value plus the usage of the emitted messages. |
| ParserProperties.TokensAreAuthoritativeSums | internal/session/parser.go:188-195 | Each session token total is the sum over resolved message IDs of the authoritative revision's usage, so duplicate revisions are never double-counted. |
| ParserProperties.StepCountersGrow | internal/session/parser.go:136-186 | Each record raises the counters and file sets by exactly what its own events contribute. |
| ParserProperties.BuildCounters | internal/session/parser.go:136-186 | After pass 2, the counters and file sets agree with the events on the timeline. |
| ParserProperties.SessionCounters | internal/session/parser.go:136-210 | Prompt, error, tool and Bash counts, the three file sets and the event count all agree with the session's timeline. |
| ParserProperties.BuildStartTime | internal/session/parser.go:100-102 | The start time is the least non-zero record timestamp, or zero iff every timestamp is zero. |
| ParserProperties.BuildLastUpdate | internal/session/parser.go:103-105 | The last-update time is the greatest record timestamp. |
| ParserProperties.SessionTimeSpan | internal/session/parser.go:97-105 | A parsed session spans from its least non-zero to its greatest record timestamp. |
| ParserProperties.BuildEventsGrow | internal/session/parser.go:116-162 | The timeline only grows: the events after a prefix of the records are a prefix of the final events. |
| ParserProperties.BuildEventsWellFormed | internal/session/parser.go:107-196 | No timeline event has the System kind; prompts, tool results and compactions carry no tokens; assistant events carry the usage of a resolved revision whose UUID they bear. |
| ParserProperties.SessionEventsWellFormed | internal/session/parser.go:107-196 | Every event of a parsed session is well formed in that sense. |
| ParserProperties.BuildKeepsIdentity | internal/session/parser.go:20-37 | Pass 2 never changes the session's ID, project, path, agent flag, model or cwd. |
| ParserProperties.SessionIdentity | internal/session/parser.go:20-87 | A parsed session is identified by its file name, encoded directory and path, with the first cwd and first model. |
| SessionTypes.Ordinal | internal/session/types.go:45-53 | Event kinds have seven ordinal values. |
| SessionTypes.OrdinalInjective | internal/session/types.go:45-53 | Distinct event kinds have distinct ordinals. |
| SessionTypes.NewEvent | internal/session/types.go:56-86 | A fresh event has the given kind, time and UUID and zero tokens. |
| SessionStore.Put | internal/session/store.go:82-84 | A parsed session with at least one event is filed under its ID, replacing any earlier one; anything else leaves the map unchanged. |
| SessionStore.Store.constructor | internal/session/store.go:36-41 | A new store is empty: no sessions, no watched directories, no pending re-parse, no signal. |
| SessionStore.Store.Scan | internal/session/store.go:47-89 | An unreadable base directory fails and changes nothing; otherwise every project directory is watched and its transcripts are parsed into the map, and the store invariant is kept. |
| SessionStore.Store.ScanProject | internal/session/store.go:68-85 | Scanning one project directory files each non-empty parsed transcript under its ID, in listing order. |
| SessionStore.Store.ScanEntry | internal/session/store.go:54-66 | A directory entry is registered with the watcher and, when it can be read, its files are scanned; plain files are skipped. |
| SessionStore.Store.ScanFile | internal/session/store.go:69-84 | A `.jsonl` file that is not a directory is parsed and stored when it has events; any other file leaves the map unchanged. |
| SessionStore.Store.OnEvent | internal/session/store.go:104-116 | A write or create of a `.jsonl` file (re)starts the one debounce slot for that path; other events leave it alone. |
| SessionStore.Store.FireDebounce | internal/session/store.go:116-130 | When the timer fires, the pending file is re-parsed and stored if it has events, and the update signal is raised exactly then; the slot is cleared. |
| SessionStore.Store.StoreParsed | internal/session/store.go:117-123 | A re-parse is stored iff it succeeded with at least one event, keeping each session filed under its own ID. |
| SessionStore.Store.Receive | internal/ui/model.go:421-427 | Receiving from the one-slot channel reports whether a signal was pending and empties the slot. |
| SessionStore.Store.GetSessions | internal/session/store.go:144-158 | The listing holds each stored session's summary exactly once and is ordered newest-updated first. |
| SessionStore.Store.CollectInfos | internal/session/store.go:148-151 | The collected summaries are exactly the stored ones, each once. |
| SessionStore.Store.GetSession | internal/session/store.go:161-165 | Lookup finds a session iff its ID is stored, and returns that session. |
| SessionStore.NewerFirstIsStrictWeak | internal/session/store.go:153-155 | The "updated later" comparison is a strict weak order, so the sort is well defined. |
| SessionStore.ParsedIsFiledUnderItsID | internal/session/store.go:83 | A parsed transcript's ID is its file name without `.jsonl`. |
| SessionStore.PutKeepsInvariant | internal/session/store.go:78-84 | Storing a parse result keeps every stored session non-empty and filed under its own ID. |
| SessionStore.ScanFilesKeepsInvariant | internal/session/store.go:68-85 | Scanning a project directory keeps that invariant, whatever the parser returns. |
| SessionStore.ScanDirsKeepsInvariant | internal/session/store.go:53-86 | Scanning all project directories keeps that invariant. |
| SessionStore.ScanFilesKeepsKeys | internal/session/store.go:82-84 | Scanning a project never removes a session already in the map. |
| SessionStore.ScanDirsKeepsKeys | internal/session/store.go:53-86 | Scanning all projects never removes a session already in the map. |
| SessionStore.ScanFilesProvenance | internal/session/store.go:68-85 | After a project scan every session is either unchanged or the parse of one of that project's transcripts. |
| SessionStore.ScanDirsProvenance | internal/session/store.go:53-86 | After a full scan every session is either unchanged or the parse of a transcript in one of the listed project directories. |
| SessionStore.ScanFilesLastWins | internal/session/store.go:68-85 | When two transcripts of one project parse to the same ID, the one later in the listing is kept. |
| SessionStore.ScanFilesKeepsOtherIDs | internal/session/store.go:68-85 | Files none of which parses to a stored session with a given ID leave that ID's entry, or its absence, unchanged. |
| SessionStore.ScanDirsLastWins | internal/session/store.go:53-86 | Across all project directories in listing order, the session kept for an ID is the parse of the last transcript yielding that ID, even when an earlier directory yielded it too. |
| SessionStore.QualifiesByFileName | internal/session/store.go:104-109 | A file event qualifies iff its file name ends in `.jsonl` and it is a write or a create. |
| Sorting.SortBy | internal/session/store.go:153-155 | Sorting leaves the array ordered by the comparison and a permutation of its old contents. |
| Sorting.LessStringIsStrictWeak | internal/ui/overview.go:159 | Lexicographic string order is a strict weak order. |
| GoStrings.TrimSpaceEmptyIffBlank | internal/session/parser.go:225 | Trimming white space yields "" iff the string is all white space. |
| GoStrings.TrimSuffix | internal/session/parser.go:21 | Trimming a present suffix leaves what precedes it; an absent suffix leaves the string unchanged. |
| GoStrings.ReplaceChar | internal/session/parser.go:26 | Replacement changes exactly the occurrences of one character and keeps the length. |
| GoStrings.Base | internal/session/parser.go:27 | The base name is non-empty, contains no slash unless it is `/`, is `.` for the empty path and is the path itself when that has no slash; otherwise it is the suffix of the path, trailing slashes dropped, that follows its last `/`. |
| GoStrings.IndexOf | internal/ui/detail.go:483 | The result is -1 iff the character is absent, and otherwise its first position. |
| GoStrings.SplitJoin | internal/ui/detail.go:504 | Splitting on newlines and joining with newlines gives back the original text. |
| GoStrings.Digits | internal/ui/sessions.go:125 | Decimal digits have no leading zero, and 1–3 digits exactly for numbers below 1000. |
| GoStrings.DigitsRoundTrip | internal/ui/overview.go:176 | Reading back the decimal digits of a number gives the number. |
| Json.StringAt | internal/session/parser.go:239 | A string field is found iff the key is present with a string value, which is returned. |
| Json.StringOr | internal/session/parser.go:239 | A missing or non-string field reads as "". |
| Json.BoolOr | internal/session/parser.go:260 | A field reads as true iff it is present and the boolean true. |
| Json.ObjectOr | internal/session/parser.go:344 | An object field is kept as that object; an absent or non-object field becomes `Null`, Go's nil map, which stays distinct from an empty object. |
| Json.Entries | internal/session/parser.go:344 | Reading a nil map finds no key; an object's entries are its fields. |
| UiCommon.Max | internal/ui/model.go:449-454 | The maximum is one of the arguments and no smaller than either. |
| UiCommon.Min | internal/ui/sessions.go:133-138 | The minimum is one of the arguments and no larger than either. |
| UiCommon.CursorWindow | internal/ui/detail.go:67-74 | The visible window always contains a cursor inside the list, fits the list height, and puts the cursor on the last row once it scrolls. |
| UiCommon.ScrollWindow | internal/ui/detail.go:404-416 | A scroll offset past the end is clamped so the window stays within the lines, fills the screen height when possible and shows everything otherwise; the overview clamps the same way (internal/ui/overview.go:102-114). |
| Detail.ShortID | internal/ui/detail.go:475-480 | A short ID is the first eight characters of the ID, or all of it if shorter. |
| Detail.FirstLine | internal/ui/detail.go:482-487 | The first line is the longest newline-free prefix, ended by a newline when it is shorter than the text. |
| Detail.Truncate | internal/ui/detail.go:489-497 | Text within the limit is kept; longer text is cut to the limit with `…` as its last character. |
| Detail.VisibleLen | internal/ui/detail.go:234-251 | The counting loop returns the length of the text with escape sequences removed. |
| Detail.Visible | internal/ui/detail.go:234-251 | The visible text is no longer than the input and contains no escape character. |
| Detail.VisibleWithoutEscape | internal/ui/detail.go:234-251 | Text without escape characters is entirely visible. |
| Detail.EscapeSequenceIsInvisible | internal/ui/detail.go:238-246 | An escape, non-letters and a terminating letter contribute no visible width. |
| Detail.WrapLines | internal/ui/detail.go:499-518 | Each of the first 500 lines is prefixed and cut to the wrap width, and one overflow line reports how many further lines were dropped. |
| Detail.CutLines | internal/ui/detail.go:507-516 | The loop produces one line per input line, each the prefix followed by the line cut to the width. |
| Detail.WrappedLinesFit | internal/ui/detail.go:512-515 | Every wrapped line fits the prefix plus the width and spans one line. |
| Detail.FormatToolSummary | internal/ui/detail.go:253-312 | Bash shows `$ ` and the first line of the command, Read the path, Write `→ ` and the path, Edit `✎ ` and the path; unknown tools show their input as JSON. |
| Detail.SummaryFallsBack | internal/ui/detail.go:254-311 | A known tool whose input has no string fields falls back to the JSON of its input. |
| Detail.BashSummaryIsOneLine | internal/ui/detail.go:255-258 | A Bash summary never spans lines. |
| Detail.TimelineWindow | internal/ui/detail.go:58-74 | The timeline window contains the cursor and fits the height left after the 3- or 4-line header. |
| Overview.FormatTokensComma | internal/ui/overview.go:172-186 | The loop produces the comma-grouped text of the number. |
| Overview.CommaPrefixIsCommafy | internal/ui/overview.go:179-184 | The left-to-right loop inserting commas agrees with grouping digits in threes from the right. |
| Overview.CommaTextDigits | internal/ui/overview.go:176-185 | Removing the commas from a formatted count gives its plain decimal digits. |
| Overview.CommaTextSmall | internal/ui/overview.go:172-185 | Numbers below 1000 get no separator. |
| Overview.CommafyGroups | internal/ui/overview.go:179-183 | Commas never lead and are followed by exactly three digits before the next comma or the end. |
| Overview.CommafyStrips | internal/ui/overview.go:179-184 | Grouping only inserts commas: removing them restores the digits. |
| Overview.NegativeGroupingCounterexample | internal/ui/overview.go:176-185 | As written, −123 is formatted `-,123`: a comma with no digit before it. |
| Overview.SignedCommaTextCorrect | internal/ui/overview.go:172-186 | Grouping only the digits after the sign puts a digit before every comma and still reads back as the number. |
| Overview.SortedShortPaths | internal/ui/overview.go:156-170 | The result holds the shortened forms of the paths in sorted order of the full paths, one for each. |
| Overview.SortedCopyUnique | internal/ui/overview.go:159 | Sorting strings is deterministic: two sorted permutations of the same paths are equal. |
| Overview.OverviewTokenBar | internal/ui/overview.go:52-54 | The overview draws the token bar iff the token total is positive and the screen is at least 16 columns wide; a zero or negative total draws none. |
| SessionsView.ListedID | internal/ui/sessions.go:84-87 | IDs longer than 10 characters are cut to 8 plus `..`; shorter IDs are kept. |
| SessionsView.ListedProject | internal/ui/sessions.go:89-92 | Project names longer than 18 characters are cut to 15 plus `...`; shorter names are kept. |
| SessionsView.FormatTokens | internal/ui/sessions.go:123-131 | The plain-integer branch is taken exactly for counts below 1000. |
| SessionsView.FormatTokensSmall | internal/ui/sessions.go:124-126 | A count below 1000 is shown as its decimal digits, which read back as the count. |
| SessionsView.TimeAgo | internal/ui/sessions.go:101-104 | A zero time shows `—`; any other time shows its age text. |
| SessionsView.FormatSessionRow | internal/ui/sessions.go:72-99 | A row marks agents with `◦` and other sessions with `●`, shows the project name and ID as listed (truncated to their columns), `—` for never-updated sessions and a plain count below 1000 tokens. |
| SessionsView.ListWindow | internal/ui/sessions.go:35-48 | The session-list window contains the cursor and fits the height minus the six chrome lines. |
| SessionsView.RowCountsReadBack | internal/ui/sessions.go:94-95 | The tool-call, edit and small token columns read back as the session's counts. |
| UiModel.KeyOf | internal/ui/model.go:157-165 | Space opens; a key is ignored iff it is unbound; only `q` and `ctrl+c` quit; enter, right and space open. |
| UiModel.LastEvent | internal/ui/model.go:89 | The last-event index is the final position of a non-empty timeline and 0 for an empty one. |
| UiModel.PageSize | internal/ui/model.go:383-389 | A page is half the height, and at least 5 rows. |
| UiModel.SessionUnderCursor | internal/ui/model.go:256-259 | The session under the cursor is found iff the cursor is on a listed session that is still stored. |
| UiModel.Model.constructor | internal/ui/model.go:54-59 | A new model starts on the empty session list with the cursor at the top. |
| UiModel.Model.Resize | internal/ui/model.go:75-77 | A resize changes only the width and height, and keeps the model valid. |
| UiModel.Model.GoBack | internal/ui/model.go:169-189 | Back leaves the event view for the timeline, the overview for the timeline (the branch for no open session is kept but never reached), and the timeline for the list, dropping the selection and following. |
| UiModel.Model.MoveDown | internal/ui/model.go:191-205 | Down moves the list or timeline cursor one step, stopping at the end, and scrolls the overview or event view by one line. |
| UiModel.Model.MoveUp | internal/ui/model.go:207-226 | Up moves a cursor one step up, stopping at 0, and switches following off in the timeline. |
| UiModel.Model.GoHome | internal/ui/model.go:228-238 | Home moves to the top of the current screen. |
| UiModel.Model.GoEnd | internal/ui/model.go:240-250 | End moves the cursor to the last list entry or last event. |
| UiModel.Model.OpenSelected | internal/ui/model.go:252-273 | Enter opens the session under the cursor at its last event with following on, or opens the event under the timeline cursor. |
| UiModel.Model.OpenSummary | internal/ui/model.go:275-293 | `s` opens the overview of the session under the list cursor, or of the session open in the timeline. |
| UiModel.Model.ToggleFollow | internal/ui/model.go:295-301 | `f` toggles following in the timeline and jumps to the last event when it switches on. |
| UiModel.Model.PageBack | internal/ui/model.go:306-318 | Page up moves back one page, clamped at 0, and stops following. |
| UiModel.Model.PageOn | internal/ui/model.go:320-335 | Page down moves on one page, clamped at the end of the list or timeline. |
| UiModel.Model.RefreshSessions | internal/ui/model.go:391-415 | A refresh shows the store's sessions newest first, filtered by project, clamps the cursor and re-selects the open session by ID. |
| UiModel.Model.ShowListing | internal/ui/model.go:404-414 | Showing a listing installs the filtered list, clamps the cursor and refreshes the open session from the store. |
| UiModel.Model.HandleKey | internal/ui/model.go:157-339 | A key quits iff it is a quit key, and otherwise changes the state as the key's step specifies, keeping the model valid. |
| UiModel.Model.HandleMouse | internal/ui/model.go:341-381 | The wheel acts as up and down; other buttons do nothing. |
| UiModel.Model.OnSessionsUpdated | internal/ui/model.go:85-91 | An update refreshes the list and, in a followed timeline, jumps to the last event of the refreshed session. |
| UiModel.FilterProject | internal/ui/model.go:394-402 | The filter loop keeps, in order, the sessions whose project name or directory equals the filter. |
| UiModel.KeyStepKeepsInv | internal/ui/model.go:165-336 | Every key keeps the cursors in range and a selection present on the screens that need one. |
| UiModel.RefreshKeepsInv | internal/ui/model.go:404-414 | Refreshes and updates keep the same invariant. |
| UiModel.KeyStepKeepsDetailInRange | internal/ui/model.go:199-202 | Keys keep the timeline cursor within the selected session's events. |
| UiModel.RefreshLeavesDetailCursor | internal/ui/model.go:409-414 | A refresh does not move the timeline cursor, even when the refreshed session is shorter. |
| UiModel.CursorInList | internal/ui/model.go:165-336 | After any key or refresh the list cursor is on a listed session, or 0 for an empty list. |
| UiModel.UpwardStopsFollowing | internal/ui/model.go:217-221 | Moving up in the timeline, by key or wheel, or paging up, turns following off. |
| UiModel.FollowJumpsToLast | internal/ui/model.go:295-301 | Switching following on jumps to the last event, every update while following does too, and switching it off leaves the cursor. |
| UiModel.BackFromSummaryShowsTimeline | internal/ui/model.go:176-184 | Under the model invariant, back from the overview always shows the selected session's timeline, never the list. |
| UiModel.SummaryFromListThenBack | internal/ui/model.go:176-184 | Opening the overview from the list and going back shows the timeline of the session under the cursor, not the list. |
| UiModel.OverviewIgnoresEnterAndT | internal/ui/model.go:252-273 | In the overview, enter and `t` change nothing: the overview's footer offers them, but the handler does not act on either. |
| UiModel.OpenThenBack | internal/ui/model.go:252-264 | Opening a session and going back returns to the same list state with following off. |
| UiModel.DrillDownThenBack | internal/ui/model.go:266-272 | Opening an event or the overview from the timeline and going back restores the timeline exactly. |
| UiModel.ScrollsAreUnbounded | internal/ui/model.go:197-204 | Down and page down scroll the overview and event view by one line and by a page, with no upper bound. |
| UiModel.FilterMembers | internal/ui/model.go:394-402 | A session survives the filter iff it is listed and belongs to the project. |
| UiModel.FilterAppend | internal/ui/model.go:394-402 | Filtering preserves order. |
| UiModel.FilterNewestFirst | internal/ui/model.go:394-402 | Filtering a newest-first list keeps it newest first. |
| UiModel.RefreshShowsProject | internal/ui/model.go:391-404 | After a refresh the list shows exactly the stored sessions of the project (all of them without a filter), newest first. |

## Left out

- JSON decoding is not modelled: each line arrives already decoded, or marked undecodable. JSON encoding (tool input and non-string tool-result content) is a parameter `encode`.
- JSON numbers are integers here, where Go decodes them to `float64`. A fractional number in a tool input or a tool result therefore has no counterpart; such values only pass through to the encoding parameter `encode`.
- `parseTimestamp` (RFC 3339 parsing) is not modelled: timestamps are natural numbers, and 0 means the zero time. An unparsable timestamp is represented as 0.
- `estimateCost` and `CostUSD` use floating point and are not modelled. Neither is the cost column. The floating-point scroll percentages are not modelled either: they appear in the session list (`internal/ui/sessions.go:63-66`), the timeline (`internal/ui/detail.go:92-95`) and the event view (`internal/ui/detail.go:419-425`).
- SessionsView.FormatTokens: only the plain-integer branch below 1000 is specified; the `k` and `M` branches format floating-point values and return `None` here.
- Overview.OverviewTokenBar: states only when the overview draws the bar (its own positive-total guard and `renderTokenBar`'s), not the bar's segment widths, which are floating-point proportions.
- SessionsView.TimeAgo: the "N minutes/hours/days ago" text depends on the wall clock; it is the parameter `since`.
- Detail.FormatToolSummary: the contract covers Bash, Read, Write, Edit and unknown tools; the summaries of Glob, Grep, Task, TaskCreate, TaskUpdate, WebFetch, WebSearch and Skill are defined in the function but not stated in its contract.
- `formatBytes`, `formatEventLine`, `renderEditDiff`, `fieldLine`, `sectionHeader`, `renderHelp`, `View`, `Init`, and the other `render*` functions build styled text for the terminal. They are not modelled, and neither is `internal/ui/styles.go`; only the window, clamp and cell-formatting logic they use is.
- `main.go` and `Model.SetUpdates` wire the program together and are not modelled.
- `loadSessions` and `watchForUpdates` are Bubble Tea commands. The model calls the store directly, and the channel read is `Store.Receive`.
- `NewStore` locates the home directory and creates the fsnotify watcher; the store is built empty with the base directory passed in. `Close` only closes the watcher and is not modelled.
- The `Watch` goroutine, the mutex, and the 500 ms debounce timing are left out: events and timer expiry are method calls (`OnEvent`, `FireDebounce`), so there is no concurrency.
- `watcher.Add` errors are ignored by the source and not modelled; the watched set records every project directory handed to the watcher.
- Directory-read errors are modelled as an absent listing (`None`).
- The scanner's 10 MB line cap is not modelled: a longer line ends the Go scan silently, whereas here every line is read.
- Characters are bytes: lengths and slicing agree with Go only for ASCII text (for example, `…` is three bytes in Go and one character here).
- `int` overflow is not modelled; counters and token totals are unbounded integers.
- The file lists of a session come from Go map iteration, which has no defined order; they are modelled as sets.
- `filepath.Rel`, used to shorten paths in the overview, is the parameter `rel`.
- File paths are given already split into base directory, project directory and file name (`SessionPath`); `filepath.Dir` is not modelled.
- The Go `Model` is a value that Bubble Tea copies on each update; here it is a class updated in place. The returned `tea.Cmd` values are not modelled, and `HandleKey` returns only whether the program quits.

## Findings

| source | as written | input that shows it | evidently intended | confidence | as-written member | corrected member |
|---|---|---|---|---|---|---|
| internal/ui/overview.go:176-185 | `formatTokensComma` decides where commas go from the length of the whole string, including a leading `-` | `-123` is shown as `-,123` | group only the digits, giving `-123` | not executed | Overview.NegativeGroupingCounterexample | Overview.SignedCommaTextCorrect |
