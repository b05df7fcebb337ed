/** Turning a transcript into a Session (internal/session/parser.go).

    The file is read in two passes over its decoded records.  Pass 1 keeps,
    for every assistant message ID, the authoritative revision (`Resolve`),
    and picks up the working directory and the model.  Pass 2 walks the
    records again in file order (`Build`, one `Step` per record), emits the
    events of user and system records at once and the events of each
    assistant message exactly once, at the first record carrying the
    authoritative revision's UUID, and keeps the counters.

    The functions below are the specification; `ParseSessionFile` is the
    imperative two-loop procedure of the source, proved equal to it. */
module SessionParser {
  import opened Wrappers
  import opened Json
  import opened GoStrings
  import opened SessionTypes

  // ---------------------------------------------------------------------
  // Session identity from the file path

  /** The session ID: the file name without its ".jsonl" suffix. */
  function SessionID(fileName: string): (r: string)
    ensures HasSuffix(fileName, ".jsonl") ==> r + ".jsonl" == fileName
    ensures !HasSuffix(fileName, ".jsonl") ==> r == fileName
  {
    TrimSuffix(fileName, ".jsonl")
  }

  /** The project path: the directory name with every '-' turned into '/'. */
  function ProjectDirOf(dirName: string): (r: string)
    ensures |r| == |dirName| && '-' !in r
    ensures forall i :: 0 <= i < |r| ==> r[i] == if dirName[i] == '-' then '/' else dirName[i]
  {
    ReplaceChar(dirName, '-', '/')
  }

  /** The project name: the last component of the project path. */
  function ProjectNameOf(dirName: string): (r: string)
    ensures r != "" && (r == "/" || '/' !in r)
    ensures '-' !in dirName && '/' !in dirName && dirName != "" ==> r == dirName
    ensures IsLastElement(r, ProjectDirOf(dirName))
  {
    Base(ProjectDirOf(dirName))
  }

  /** The summary a parse starts from: identity, working directory and
      model, every counter zero. */
  function InitialInfo(path: SessionPath, cwd: string, model: string): (info: SessionInfo)
    ensures info.id == SessionID(path.fileName)
    ensures info.isAgent <==> HasPrefix(path.fileName, "agent-")
    ensures info.projectDir == ProjectDirOf(path.dirName) && info.projectName == ProjectNameOf(path.dirName)
    ensures info.cwd == cwd && info.model == model
  {
    SessionInfo(
      id := SessionID(path.fileName),
      projectDir := ProjectDirOf(path.dirName),
      projectName := ProjectNameOf(path.dirName),
      filePath := path.Full(),
      startTime := 0, lastUpdate := 0,
      inputTokens := 0, outputTokens := 0, cacheReadTokens := 0, cacheWriteTokens := 0,
      eventCount := 0, toolCallCount := 0, userPrompts := 0,
      filesRead := {}, filesWritten := {}, filesCreated := {},
      bashCommands := 0, errors := 0,
      isAgent := HasPrefix(path.fileName, "agent-"),
      model := model, cwd := cwd)
  }

  // ---------------------------------------------------------------------
  // Counting over event sequences

  function Count<T>(s: seq<T>, p: T -> bool): (n: nat)
    ensures n <= |s|
  {
    if s == [] then 0 else Count(s[..|s| - 1], p) + (if p(s[|s| - 1]) then 1 else 0)
  }

  lemma {:induction false} CountAppend<T>(a: seq<T>, b: seq<T>, p: T -> bool)
    ensures Count(a + b, p) == Count(a, p) + Count(b, p)
    decreases |b|
  {
    if b != [] {
      assert (a + b)[..|a + b| - 1] == a + b[..|b| - 1];
      CountAppend(a, b[..|b| - 1], p);
    } else {
      assert a + b == a;
    }
  }

  predicate IsPrompt(e: Event) { e.kind == UserPrompt }
  predicate IsErrorResult(e: Event) { e.kind == ToolResult && e.isError }
  predicate IsToolCall(e: Event) { e.kind == ToolUse }
  predicate IsBashCall(e: Event) { e.kind == ToolUse && e.toolName == "Bash" }

  /** The "file_path" of a ToolUse event of the named tool, when it is a
      string. */
  function PathOf(e: Event, tool: string): set<string>
  {
    if e.kind == ToolUse && e.toolName == tool && StringAt(Entries(e.toolInput), "file_path").Some?
    then {StringAt(Entries(e.toolInput), "file_path").value} else {}
  }

  /** The distinct file paths the events give to the named tool. */
  function PathsOf(s: seq<Event>, tool: string): set<string>
  {
    if s == [] then {} else PathsOf(s[..|s| - 1], tool) + PathOf(s[|s| - 1], tool)
  }

  lemma {:induction false} PathsOfAppend(a: seq<Event>, b: seq<Event>, tool: string)
    ensures PathsOf(a + b, tool) == PathsOf(a, tool) + PathsOf(b, tool)
    decreases |b|
  {
    if b != [] {
      assert (a + b)[..|a + b| - 1] == a + b[..|b| - 1];
      PathsOfAppend(a, b[..|b| - 1], tool);
    } else {
      assert a + b == a;
    }
  }

  // ---------------------------------------------------------------------
  // Block expansion (parseUserMessage / parseAssistantMessage)

  /** `blockType, _ := bMap["type"].(string)` */
  function BlockType(block: Json): string
  {
    if block.Object? then StringOr(block.fields, "type") else ""
  }

  /** `bMap[key]`: a missing key reads as JSON null. */
  function FieldOrNull(fields: map<string, Json>, key: string): Json
  {
    if key in fields then fields[key] else Null
  }

  /** The "text" of one item of a list-valued tool result, or "". */
  function ItemText(item: Json): string
  {
    if item.Object? then StringOr(item.fields, "text") else ""
  }

  /** The in-order concatenation of the items' "text" fields. */
  function ItemsText(items: seq<Json>): (r: string)
    ensures (forall i :: 0 <= i < |items| ==> ItemText(items[i]) == "") ==> r == ""
  {
    if items == [] then "" else ItemText(items[0]) + ItemsText(items[1..])
  }

  /** The output of a tool_result block: a string content as it is, a list
      content as the concatenation of its items' texts, anything else (a
      missing content included) as its JSON encoding. */
  function ToolResultOutput(content: Json, encode: Json -> string): (r: string)
    ensures content.Str? ==> r == content.s
    ensures content.Array? ==> r == ItemsText(content.items)
    ensures !content.Str? && !content.Array? ==> r == encode(content)
  {
    match content
    case Str(s) => s
    case Array(items) => ItemsText(items)
    case _ => encode(content)
  }

  /** The events of one content block of a user message: a tool_result block
      gives one ToolResult event, a text block one UserPrompt unless its text
      is blank, anything else nothing. */
  function UserBlockEvents(block: Json, uuid: string, ts: nat, encode: Json -> string): (r: seq<Event>)
    ensures |r| <= 1
    ensures |r| == 1 <==>
      block.Object? && (BlockType(block) == "tool_result" ||
                        (BlockType(block) == "text" && !IsBlank(StringOr(block.fields, "text"))))
    ensures forall e :: e in r ==> e.timestamp == ts && e.uuid == uuid && e.inputTokens == 0 && e.outputTokens == 0
    ensures |r| == 1 && BlockType(block) == "tool_result" ==>
      && r[0].kind == ToolResult
      && r[0].toolOutput == ToolResultOutput(FieldOrNull(block.fields, "content"), encode)
      && r[0].isError == BoolOr(block.fields, "is_error")
      && r[0].toolId == StringOr(block.fields, "tool_use_id")
    ensures |r| == 1 && BlockType(block) == "text" ==>
      r[0].kind == UserPrompt && r[0].userText == StringOr(block.fields, "text")
  {
    if !block.Object? then []
    else
      var b := block.fields;
      var blockType := StringOr(b, "type");
      if blockType == "tool_result" then
        [NewEvent(ToolResult, ts, uuid).(
           toolId := StringOr(b, "tool_use_id"),
           toolOutput := ToolResultOutput(FieldOrNull(b, "content"), encode),
           isError := BoolOr(b, "is_error"))]
      else if blockType == "text" then
        var text := StringOr(b, "text");
        TrimSpaceEmptyIffBlank(text);
        if TrimSpace(text) != "" then [NewEvent(UserPrompt, ts, uuid).(userText := text)] else []
      else []
  }

  /** What every event derived from a user record satisfies. */
  ghost predicate UserDerived(e: Event, uuid: string, ts: nat) {
    && (e.kind == UserPrompt || e.kind == ToolResult)
    && e.timestamp == ts && e.uuid == uuid
    && e.inputTokens == 0 && e.outputTokens == 0
    && (e.kind == UserPrompt ==> !IsBlank(e.userText))
  }

  function UserBlocks(blocks: seq<Json>, uuid: string, ts: nat, encode: Json -> string): (r: seq<Event>)
    ensures forall e :: e in r ==> UserDerived(e, uuid, ts)
  {
    if blocks == [] then []
    else UserBlockEvents(blocks[0], uuid, ts, encode) + UserBlocks(blocks[1..], uuid, ts, encode)
  }

  /** parseUserMessage: the events of a user record's message. */
  function ParseUserMessage(entry: RawEntry, ts: nat, encode: Json -> string): (r: seq<Event>)
    ensures forall e :: e in r ==> UserDerived(e, entry.uuid, ts)
    ensures entry.message.None? ==> r == []
    ensures entry.message.Some? && entry.message.value.content.Str? ==>
      if IsBlank(entry.message.value.content.s) then r == []
      else |r| == 1 && r[0].kind == UserPrompt && r[0].userText == entry.message.value.content.s
  {
    if entry.message.None? then []
    else
      match entry.message.value.content
      case Str(s) =>
        TrimSpaceEmptyIffBlank(s);
        if TrimSpace(s) != "" then [NewEvent(UserPrompt, ts, entry.uuid).(userText := s)] else []
      case Array(blocks) => UserBlocks(blocks, entry.uuid, ts, encode)
      case _ => []
  }

  /** The events of one content block of an assistant message: a thinking or
      text block gives one event unless blank, a tool_use block always gives
      one, anything else nothing.  Every event carries the message's usage. */
  function AssistantBlockEvents(block: Json, uuid: string, ts: nat, inTok: int, outTok: int): (r: seq<Event>)
    ensures |r| <= 1
    ensures |r| == 1 <==>
      block.Object? && (BlockType(block) == "tool_use" ||
                        (BlockType(block) == "thinking" && !IsBlank(StringOr(block.fields, "thinking"))) ||
                        (BlockType(block) == "text" && !IsBlank(StringOr(block.fields, "text"))))
    ensures forall e :: e in r ==> e.timestamp == ts && e.uuid == uuid && e.inputTokens == inTok && e.outputTokens == outTok
    ensures |r| == 1 && BlockType(block) == "tool_use" ==>
      && r[0].kind == ToolUse
      && r[0].toolName == StringOr(block.fields, "name")
      && r[0].toolId == StringOr(block.fields, "id")
      && r[0].toolInput == ObjectOr(block.fields, "input")
    ensures |r| == 1 && BlockType(block) == "thinking" ==>
      r[0].kind == Thinking && r[0].thinking == StringOr(block.fields, "thinking")
    ensures |r| == 1 && BlockType(block) == "text" ==>
      r[0].kind == Text && r[0].text == StringOr(block.fields, "text")
  {
    if !block.Object? then []
    else
      var b := block.fields;
      var blockType := StringOr(b, "type");
      if blockType == "thinking" then
        var thinking := StringOr(b, "thinking");
        TrimSpaceEmptyIffBlank(thinking);
        if TrimSpace(thinking) != "" then
          [NewEvent(Thinking, ts, uuid).(thinking := thinking, inputTokens := inTok, outputTokens := outTok)]
        else []
      else if blockType == "text" then
        var text := StringOr(b, "text");
        TrimSpaceEmptyIffBlank(text);
        if TrimSpace(text) != "" then
          [NewEvent(Text, ts, uuid).(text := text, inputTokens := inTok, outputTokens := outTok)]
        else []
      else if blockType == "tool_use" then
        [NewEvent(ToolUse, ts, uuid).(
           toolName := StringOr(b, "name"),
           toolInput := ObjectOr(b, "input"),
           toolId := StringOr(b, "id"),
           inputTokens := inTok, outputTokens := outTok)]
      else []
  }

  /** What every event derived from an assistant record satisfies. */
  ghost predicate AssistantDerived(e: Event, uuid: string, ts: nat, inTok: int, outTok: int) {
    && (e.kind == Thinking || e.kind == Text || e.kind == ToolUse)
    && e.timestamp == ts && e.uuid == uuid
    && e.inputTokens == inTok && e.outputTokens == outTok
    && (e.kind == Thinking ==> !IsBlank(e.thinking))
    && (e.kind == Text ==> !IsBlank(e.text))
  }

  function AssistantBlocks(blocks: seq<Json>, uuid: string, ts: nat, inTok: int, outTok: int): (r: seq<Event>)
    ensures forall e :: e in r ==> AssistantDerived(e, uuid, ts, inTok, outTok)
  {
    if blocks == [] then []
    else AssistantBlockEvents(blocks[0], uuid, ts, inTok, outTok) + AssistantBlocks(blocks[1..], uuid, ts, inTok, outTok)
  }

  /** The input and output token counts of a record's usage, 0 without one. */
  function UsageTokens(entry: RawEntry): (int, int)
  {
    if entry.message.Some? && entry.message.value.usage.Some?
    then (entry.message.value.usage.value.inputTokens, entry.message.value.usage.value.outputTokens)
    else (0, 0)
  }

  /** parseAssistantMessage: the events of an assistant record's content
      list; a content that is not a list gives none. */
  function ParseAssistantMessage(entry: RawEntry, ts: nat): (r: seq<Event>)
    ensures forall e :: e in r ==> AssistantDerived(e, entry.uuid, ts, UsageTokens(entry).0, UsageTokens(entry).1)
    ensures entry.message.None? || !entry.message.value.content.Array? ==> r == []
  {
    if entry.message.None? then []
    else
      match entry.message.value.content
      case Array(blocks) => AssistantBlocks(blocks, entry.uuid, ts, UsageTokens(entry).0, UsageTokens(entry).1)
      case _ => []
  }

  /** The single event of a "compact_boundary" system record; preTokens 0
      and trigger "" when the metadata is absent. */
  function CompactionEvent(entry: RawEntry, ts: nat): (e: Event)
    ensures e.kind == Compaction && e.timestamp == ts && e.uuid == entry.uuid
    ensures e.inputTokens == 0 && e.outputTokens == 0
    ensures entry.compactMetadata.None? ==> e.compactPreTokens == 0 && e.compactTrigger == ""
    ensures entry.compactMetadata.Some? ==>
      e.compactPreTokens == entry.compactMetadata.value.preTokens && e.compactTrigger == entry.compactMetadata.value.trigger
  {
    var (preTokens, trigger) :=
      if entry.compactMetadata.Some?
      then (entry.compactMetadata.value.preTokens, entry.compactMetadata.value.trigger)
      else (0, "");
    NewEvent(Compaction, ts, entry.uuid).(compactPreTokens := preTokens, compactTrigger := trigger)
  }

  // ---------------------------------------------------------------------
  // Pass 1: decoding and revision resolution

  /** Whether a line is kept: non-empty and decodable. */
  predicate Keeps(line: Line) {
    |line.text| != 0 && line.decoded.Some?
  }

  /** The records of the file in order; empty and undecodable lines are
      skipped. */
  function Decoded(lines: seq<Line>): (es: seq<RawEntry>)
  {
    if lines == [] then []
    else
      var last := lines[|lines| - 1];
      var prefix := Decoded(lines[..|lines| - 1]);
      if Keeps(last) then prefix + [last.decoded.value] else prefix
  }

  /** An assistant record that carries a message ID: a revision of that
      message. */
  predicate IsRevision(e: RawEntry) {
    e.kind == "assistant" && e.message.Some? && e.message.value.id != ""
  }

  /** A revision of the message `id`. */
  predicate IsRevisionOf(e: RawEntry, id: string) {
    IsRevision(e) && e.message.value.id == id
  }

  /** Pass 1's map from message ID to the revision kept so far: a revision
      replaces the stored one only when its timestamp is strictly later. */
  function Resolve(es: seq<RawEntry>): map<string, RawEntry>
  {
    if es == [] then map[]
    else
      var res := Resolve(es[..|es| - 1]);
      var e := es[|es| - 1];
      if IsRevision(e) && (e.message.value.id !in res || e.timestamp > res[e.message.value.id].timestamp)
      then res[e.message.value.id := e]
      else res
  }

  /** Every stored revision is a revision of the ID it is stored under. */
  lemma {:induction false} ResolveKeepsRevisions(es: seq<RawEntry>)
    ensures forall id :: id in Resolve(es) ==> IsRevisionOf(Resolve(es)[id], id)
  {
    if es != [] {
      ResolveKeepsRevisions(es[..|es| - 1]);
    }
  }

  /** The working directory: that of the first record that has one. */
  function FirstCwd(es: seq<RawEntry>): string
  {
    if es == [] then ""
    else if es[0].cwd != "" then es[0].cwd
    else FirstCwd(es[1..])
  }

  /** The model: that of the first revision (authoritative or not) that
      names one. */
  function FirstModel(es: seq<RawEntry>): string
  {
    if es == [] then ""
    else if IsRevision(es[0]) && es[0].message.value.model != "" then es[0].message.value.model
    else FirstModel(es[1..])
  }

  lemma {:induction false} FirstCwdAppend(es: seq<RawEntry>, e: RawEntry)
    ensures FirstCwd(es + [e]) == if FirstCwd(es) != "" then FirstCwd(es) else e.cwd
  {
    if es != [] {
      assert (es + [e])[1..] == es[1..] + [e];
      FirstCwdAppend(es[1..], e);
    }
  }

  lemma {:induction false} FirstModelAppend(es: seq<RawEntry>, e: RawEntry)
    ensures FirstModel(es + [e]) ==
      if FirstModel(es) != "" then FirstModel(es)
      else if IsRevision(e) then e.message.value.model else ""
  {
    if es != [] {
      assert (es + [e])[1..] == es[1..] + [e];
      FirstModelAppend(es[1..], e);
    }
  }

  // ---------------------------------------------------------------------
  // Pass 2: the timeline and the counters

  /** What pass 2 has built after a prefix of the records: the summary,
      the timeline, the message IDs already emitted, and the paths given to
      Read, Edit and Write (kept beside the summary until the end). */
  datatype BuildState = BuildState(
    info: SessionInfo,
    events: seq<Event>,
    seen: set<string>,
    filesRead: set<string>,
    filesWritten: set<string>,
    filesCreated: set<string>)

  /** Whether an assistant record emits its message: it is a revision whose
      ID has not been emitted yet and whose UUID is the authoritative
      revision's. */
  predicate EmitsHere(e: RawEntry, res: map<string, RawEntry>, seen: set<string>) {
    IsRevision(e) && e.message.value.id !in seen && e.message.value.id in res &&
    e.uuid == res[e.message.value.id].uuid
  }

  /** StartTime and LastUpdate after seeing a record stamped ts. */
  function Stamp(info: SessionInfo, ts: nat): SessionInfo
  {
    info.(startTime := if info.startTime == 0 || (ts != 0 && ts < info.startTime) then ts else info.startTime,
          lastUpdate := if ts > info.lastUpdate then ts else info.lastUpdate)
  }

  /** The token counters after an authoritative revision's usage. */
  function AddUsage(info: SessionInfo, final: RawEntry): SessionInfo
  {
    if final.message.Some? && final.message.value.usage.Some? then
      var u := final.message.value.usage.value;
      info.(inputTokens := info.inputTokens + u.inputTokens,
            outputTokens := info.outputTokens + u.outputTokens,
            cacheReadTokens := info.cacheReadTokens + u.cacheReadInputTokens,
            cacheWriteTokens := info.cacheWriteTokens + u.cacheCreationInputTokens)
    else info
  }

  /** A system record: a compact boundary adds its Compaction event. */
  function SystemStep(st: BuildState, e: RawEntry): BuildState
  {
    if e.subtype == "compact_boundary" then st.(events := st.events + [CompactionEvent(e, e.timestamp)]) else st
  }

  /** A user record: unless it has no message or is a compaction summary,
      its events are appended and its prompts and errors counted. */
  function UserStep(st: BuildState, e: RawEntry, encode: Json -> string): BuildState
  {
    if e.message.None? || e.isCompactSummary then st
    else
      var evs := ParseUserMessage(e, e.timestamp, encode);
      st.(info := st.info.(userPrompts := st.info.userPrompts + Count(evs, IsPrompt),
                           errors := st.info.errors + Count(evs, IsErrorResult)),
          events := st.events + evs)
  }

  /** An assistant record: where it emits its message, the events of the
      authoritative revision are appended with this record's timestamp, the
      ID is marked emitted, tool calls and file paths are counted and the
      authoritative usage is added. */
  function AssistantStep(st: BuildState, e: RawEntry, res: map<string, RawEntry>): BuildState
  {
    if !EmitsHere(e, res, st.seen) then st
    else
      var final := res[e.message.value.id];
      Emit(st, e.message.value.id, ParseAssistantMessage(final, e.timestamp), final)
  }

  /** The emission of message id: evs are the events parsed from its
      authoritative revision final. */
  function Emit(st: BuildState, id: string, evs: seq<Event>, final: RawEntry): BuildState
  {
    var counted := st.info.(toolCallCount := st.info.toolCallCount + Count(evs, IsToolCall),
                            bashCommands := st.info.bashCommands + Count(evs, IsBashCall));
    BuildState(AddUsage(counted, final), st.events + evs, st.seen + {id},
               st.filesRead + PathsOf(evs, "Read"), st.filesWritten + PathsOf(evs, "Edit"),
               st.filesCreated + PathsOf(evs, "Write"))
  }

  /** Pass 2's treatment of one record: every record moves the time span;
      system, user and assistant records then contribute as above, any
      other kind nothing. */
  function Step(st: BuildState, e: RawEntry, res: map<string, RawEntry>, encode: Json -> string): BuildState
  {
    var st1 := st.(info := Stamp(st.info, e.timestamp));
    if e.kind == "system" then SystemStep(st1, e)
    else if e.kind == "user" then UserStep(st1, e, encode)
    else if e.kind == "assistant" then AssistantStep(st1, e, res)
    else st1
  }

  /** Pass 2 over the records es, starting from the summary info0. */
  function Build(es: seq<RawEntry>, res: map<string, RawEntry>, info0: SessionInfo, encode: Json -> string): BuildState
  {
    if es == [] then BuildState(info0, [], {}, {}, {}, {})
    else Step(Build(es[..|es| - 1], res, info0, encode), es[|es| - 1], res, encode)
  }

  /** The summary pass 1 hands to pass 2. */
  function StartInfo(path: SessionPath, es: seq<RawEntry>): SessionInfo
  {
    InitialInfo(path, FirstCwd(es), FirstModel(es))
  }

  /** The summary once pass 2 is over: the file-path sets and the event
      count filled in. */
  function Finish(st: BuildState): SessionInfo
  {
    st.info.(filesRead := st.filesRead, filesWritten := st.filesWritten, filesCreated := st.filesCreated,
             eventCount := |st.events|)
  }

  /** ParseSessionFile as a function: None when the file cannot be opened. */
  function ParseSpec(path: SessionPath, file: Option<seq<Line>>, encode: Json -> string): (r: Option<Session>)
    ensures r.Some? <==> file.Some?
  {
    if file.None? then None
    else
      var es := Decoded(file.value);
      var st := Build(es, Resolve(es), StartInfo(path, es), encode);
      Some(Session(Finish(st), st.events))
  }

  // ---------------------------------------------------------------------
  // The procedure

  /** Pass 1 over the lines: the decoded records, the authoritative
      revision per message ID, and the summary with its working directory
      and model. */
  method ReadRecords(path: SessionPath, lines: seq<Line>)
    returns (allEntries: seq<RawEntry>, assistantMessages: map<string, RawEntry>, info: SessionInfo)
    ensures allEntries == Decoded(lines)
    ensures assistantMessages == Resolve(allEntries)
    ensures info == StartInfo(path, allEntries)
  {
    var cwd, model := "", "";
    assistantMessages := map[];
    allEntries := [];

    var i := 0;
    while i < |lines|
      invariant 0 <= i <= |lines|
      invariant allEntries == Decoded(lines[..i])
      invariant assistantMessages == Resolve(allEntries)
      invariant cwd == FirstCwd(allEntries) && model == FirstModel(allEntries)
    {
      var line := lines[i];
      assert lines[..i + 1][..i] == lines[..i];
      if |line.text| != 0 && line.decoded.Some? {
        allEntries, assistantMessages, cwd, model := ReadRecord(line.decoded.value, allEntries, assistantMessages, cwd, model);
      }
      i := i + 1;
    }
    assert lines[..|lines|] == lines;
    info := InitialInfo(path, cwd, model);
  }

  /** One decoded record of pass 1: it is appended to the records, replaces
      the stored revision of its message when strictly later, and supplies
      the working directory and model if none was found yet. */
  method ReadRecord(entry: RawEntry, es: seq<RawEntry>, res: map<string, RawEntry>, cwd: string, model: string)
    returns (es': seq<RawEntry>, res': map<string, RawEntry>, cwd': string, model': string)
    requires res == Resolve(es) && cwd == FirstCwd(es) && model == FirstModel(es)
    ensures es' == es + [entry]
    ensures res' == Resolve(es') && cwd' == FirstCwd(es') && model' == FirstModel(es')
  {
    FirstCwdAppend(es, entry);
    FirstModelAppend(es, entry);
    es' := es + [entry];
    assert es'[..|es'| - 1] == es;
    res', cwd', model' := res, cwd, model;
    if cwd == "" && entry.cwd != "" {
      cwd' := entry.cwd;
    }
    if entry.kind == "assistant" && entry.message.Some? && entry.message.value.id != "" {
      var id := entry.message.value.id;
      if id !in res || entry.timestamp > res[id].timestamp {
        res' := res[id := entry];
      }
      if model == "" && entry.message.value.model != "" {
        model' := entry.message.value.model;
      }
    }
  }

  /** The prompt and error counting loop over a user record's events. */
  method CountUserLoop(evs: seq<Event>) returns (prompts: nat, errors: nat)
    ensures prompts == Count(evs, IsPrompt) && errors == Count(evs, IsErrorResult)
  {
    prompts, errors := 0, 0;
    var k := 0;
    while k < |evs|
      invariant 0 <= k <= |evs|
      invariant prompts == Count(evs[..k], IsPrompt) && errors == Count(evs[..k], IsErrorResult)
    {
      assert evs[..k + 1][..k] == evs[..k];
      var e := evs[k];
      if e.kind == UserPrompt {
        prompts := prompts + 1;
      }
      if e.kind == ToolResult && e.isError {
        errors := errors + 1;
      }
      k := k + 1;
    }
    assert evs[..|evs|] == evs;
  }

  /** The switch on one event of an assistant message. */
  method TallyTool(e: Event, toolCalls0: nat, bash0: nat, read0: set<string>, written0: set<string>, created0: set<string>)
    returns (toolCalls: nat, bashCommands: nat, filesRead: set<string>, filesWritten: set<string>, filesCreated: set<string>)
    ensures toolCalls == toolCalls0 + (if IsToolCall(e) then 1 else 0)
    ensures bashCommands == bash0 + (if IsBashCall(e) then 1 else 0)
    ensures filesRead == read0 + PathOf(e, "Read") && filesCreated == created0 + PathOf(e, "Write")
    ensures filesWritten == written0 + PathOf(e, "Edit")
  {
    toolCalls, bashCommands, filesRead, filesWritten, filesCreated := toolCalls0, bash0, read0, written0, created0;
    if e.kind == ToolUse {
      toolCalls := toolCalls + 1;
      if e.toolName == "Read" {
        var fp := StringAt(Entries(e.toolInput), "file_path");
        if fp.Some? {
          filesRead := filesRead + {fp.value};
        }
      } else if e.toolName == "Write" {
        var fp := StringAt(Entries(e.toolInput), "file_path");
        if fp.Some? {
          filesCreated := filesCreated + {fp.value};
        }
      } else if e.toolName == "Edit" {
        var fp := StringAt(Entries(e.toolInput), "file_path");
        if fp.Some? {
          filesWritten := filesWritten + {fp.value};
        }
      } else if e.toolName == "Bash" {
        bashCommands := bashCommands + 1;
      }
    }
  }

  /** The tool counting loop over an assistant message's events: tool calls,
      Bash calls, and the paths given to Read, Write and Edit. */
  method CountToolLoop(evs: seq<Event>)
    returns (toolCalls: nat, bashCommands: nat, filesRead: set<string>, filesWritten: set<string>, filesCreated: set<string>)
    ensures toolCalls == Count(evs, IsToolCall) && bashCommands == Count(evs, IsBashCall)
    ensures filesRead == PathsOf(evs, "Read") && filesCreated == PathsOf(evs, "Write") && filesWritten == PathsOf(evs, "Edit")
  {
    toolCalls, bashCommands, filesRead, filesWritten, filesCreated := 0, 0, {}, {}, {};
    var k := 0;
    while k < |evs|
      invariant 0 <= k <= |evs|
      invariant toolCalls == Count(evs[..k], IsToolCall) && bashCommands == Count(evs[..k], IsBashCall)
      invariant filesRead == PathsOf(evs[..k], "Read") && filesCreated == PathsOf(evs[..k], "Write")
      invariant filesWritten == PathsOf(evs[..k], "Edit")
    {
      assert evs[..k + 1][..k] == evs[..k];
      toolCalls, bashCommands, filesRead, filesWritten, filesCreated :=
        TallyTool(evs[k], toolCalls, bashCommands, filesRead, filesWritten, filesCreated);
      k := k + 1;
    }
    assert evs[..|evs|] == evs;
  }

  /** A system record in pass 2. */
  method SystemRecord(st0: BuildState, entry: RawEntry) returns (st: BuildState)
    ensures st == SystemStep(st0, entry)
  {
    st := st0;
    if entry.subtype == "compact_boundary" {
      var preTokens := 0;
      var trigger := "";
      if entry.compactMetadata.Some? {
        preTokens := entry.compactMetadata.value.preTokens;
        trigger := entry.compactMetadata.value.trigger;
      }
      var e := NewEvent(Compaction, entry.timestamp, entry.uuid).(compactPreTokens := preTokens, compactTrigger := trigger);
      st := st.(events := st.events + [e]);
    }
  }

  /** A user record in pass 2. */
  method UserRecord(st0: BuildState, entry: RawEntry, encode: Json -> string) returns (st: BuildState)
    ensures st == UserStep(st0, entry, encode)
  {
    st := st0;
    if entry.message.Some? && !entry.isCompactSummary {
      var evs := ParseUserMessage(entry, entry.timestamp, encode);
      var prompts, errors := CountUserLoop(evs);
      st := st.(info := st.info.(userPrompts := st.info.userPrompts + prompts, errors := st.info.errors + errors),
                events := st.events + evs);
    }
  }

  /** The authoritative revision's usage added to the token counters. */
  method AddFinalUsage(info0: SessionInfo, final: RawEntry) returns (info: SessionInfo)
    requires final.message.Some?
    ensures info == AddUsage(info0, final)
  {
    info := info0;
    if final.message.value.usage.Some? {
      var u := final.message.value.usage.value;
      info := info.(inputTokens := info.inputTokens + u.inputTokens,
                    outputTokens := info.outputTokens + u.outputTokens,
                    cacheReadTokens := info.cacheReadTokens + u.cacheReadInputTokens,
                    cacheWriteTokens := info.cacheWriteTokens + u.cacheCreationInputTokens);
    }
  }

  /** An assistant record in pass 2. */
  method AssistantRecord(st0: BuildState, entry: RawEntry, assistantMessages: map<string, RawEntry>)
    returns (st: BuildState)
    requires entry.kind == "assistant"
    requires forall id :: id in assistantMessages ==> IsRevisionOf(assistantMessages[id], id)
    ensures st == AssistantStep(st0, entry, assistantMessages)
  {
    st := st0;
    if entry.message.Some? && entry.message.value.id != "" &&
       entry.message.value.id !in st.seen &&
       entry.message.value.id in assistantMessages &&
       entry.uuid == assistantMessages[entry.message.value.id].uuid {
      var id := entry.message.value.id;
      var final := assistantMessages[id];
      var evs := ParseAssistantMessage(final, entry.timestamp);
      st := EmitMessage(st, id, evs, final);
    }
  }

  /** Emitting a message: its events appended, its tools counted, its
      usage added. */
  method EmitMessage(st0: BuildState, id: string, evs: seq<Event>, final: RawEntry) returns (st: BuildState)
    requires final.message.Some?
    ensures st == Emit(st0, id, evs, final)
  {
    var toolCalls, bashCommands, read, written, created := CountToolLoop(evs);
    var info := st0.info.(toolCallCount := st0.info.toolCallCount + toolCalls,
                          bashCommands := st0.info.bashCommands + bashCommands);
    info := AddFinalUsage(info, final);
    st := BuildState(info, st0.events + evs, st0.seen + {id},
                     st0.filesRead + read, st0.filesWritten + written, st0.filesCreated + created);
  }

  /** The body of pass 2 for one record. */
  method StepRecord(st0: BuildState, entry: RawEntry, assistantMessages: map<string, RawEntry>, encode: Json -> string)
    returns (st: BuildState)
    requires forall id :: id in assistantMessages ==> IsRevisionOf(assistantMessages[id], id)
    ensures st == Step(st0, entry, assistantMessages, encode)
  {
    st := st0;
    var ts := entry.timestamp;
    if st.info.startTime == 0 || (ts != 0 && ts < st.info.startTime) {
      st := st.(info := st.info.(startTime := ts));
    }
    if ts > st.info.lastUpdate {
      st := st.(info := st.info.(lastUpdate := ts));
    }
    if entry.kind == "system" {
      st := SystemRecord(st, entry);
    } else if entry.kind == "user" {
      st := UserRecord(st, entry, encode);
    } else if entry.kind == "assistant" {
      st := AssistantRecord(st, entry, assistantMessages);
    }
  }

  /** ParseSessionFile, over the file's lines (None: the file cannot be
      opened).  Pass 1 collects the records, the authoritative revisions,
      the working directory and the model; pass 2 builds the timeline. */
  method ParseSessionFile(path: SessionPath, file: Option<seq<Line>>, encode: Json -> string)
    returns (r: Option<Session>)
    ensures r == ParseSpec(path, file, encode)
  {
    if file.None? {
      return None;
    }
    var allEntries, assistantMessages, info := ReadRecords(path, file.value);
    ResolveKeepsRevisions(allEntries);
    var st := BuildTimeline(allEntries, assistantMessages, info, encode);
    return Some(Session(Finish(st), st.events));
  }

  /** Pass 2: every record folded into the state in file order. */
  method BuildTimeline(allEntries: seq<RawEntry>, assistantMessages: map<string, RawEntry>,
                       info: SessionInfo, encode: Json -> string)
    returns (st: BuildState)
    requires forall id :: id in assistantMessages ==> IsRevisionOf(assistantMessages[id], id)
    ensures st == Build(allEntries, assistantMessages, info, encode)
  {
    st := BuildState(info, [], {}, {}, {}, {});
    var j := 0;
    while j < |allEntries|
      invariant 0 <= j <= |allEntries|
      invariant st == Build(allEntries[..j], assistantMessages, info, encode)
    {
      assert allEntries[..j + 1][..j] == allEntries[..j];
      st := StepRecord(st, allEntries[j], assistantMessages, encode);
      j := j + 1;
    }
    assert allEntries[..|allEntries|] == allEntries;
  }
}
