/** The data model of the transcript pipeline: decoded log records, events,
    session summaries and sessions (internal/session/types.go). */
module SessionTypes {
  import opened Wrappers
  import opened Json

  /** The token usage block of an assistant message. */
  datatype Usage = Usage(
    inputTokens: int,                 // "input_tokens"
    outputTokens: int,                // "output_tokens"
    cacheCreationInputTokens: int,    // "cache_creation_input_tokens"
    cacheReadInputTokens: int)        // "cache_read_input_tokens"

  /** The metadata of a "compact_boundary" system record. */
  datatype CompactMetadata = CompactMetadata(trigger: string, preTokens: int)

  /** The "message" object of a record.  `id` is the key shared by every
      incremental revision of one assistant message; `content` is a string
      for plain user prompts and a list of typed blocks otherwise. */
  datatype RawMessage = RawMessage(
    role: string,
    content: Json,
    model: string,
    usage: Option<Usage>,
    id: string)

  /** One decoded line of a transcript.  `timestamp` is the parsed
      "timestamp" field, 0 standing for Go's zero time (absent or
      unparsable). */
  datatype RawEntry = RawEntry(
    kind: string,                     // "type": "user", "assistant", "system", ...
    subtype: string,
    uuid: string,
    parentUuid: Option<string>,
    sessionId: string,
    cwd: string,
    timestamp: nat,
    version: string,
    gitBranch: string,
    message: Option<RawMessage>,
    content: string,
    compactMetadata: Option<CompactMetadata>,
    isCompactSummary: bool)

  /** One line of a transcript file: its text and what decoding it as JSON
      gave (None for a line that does not decode). */
  datatype Line = Line(text: string, decoded: Option<RawEntry>)

  /** The seven kinds of event, in the order of their Go constants. */
  datatype EventType = UserPrompt | Thinking | Text | ToolUse | ToolResult | System | Compaction

  /** The value of the Go constant for each kind (iota order). */
  function Ordinal(t: EventType): (k: nat)
    ensures k < 7
  {
    match t
    case UserPrompt => 0
    case Thinking => 1
    case Text => 2
    case ToolUse => 3
    case ToolResult => 4
    case System => 5
    case Compaction => 6
  }

  /** The constants are distinct: each event is exactly one kind. */
  lemma OrdinalInjective(a: EventType, b: EventType)
    ensures Ordinal(a) == Ordinal(b) <==> a == b
  {
  }

  /** One thing that happened in a session.  As in the source, a flat record
      whose fields beyond the common three are meaningful for one kind only;
      InputTokens/OutputTokens are the usage of the assistant message the
      event came from. */
  datatype Event = Event(
    kind: EventType,
    timestamp: nat,
    uuid: string,
    userText: string,
    text: string,
    thinking: string,
    toolName: string,
    toolInput: Json,
    toolId: string,
    toolOutput: string,
    isError: bool,
    compactPreTokens: int,
    compactTrigger: string,
    inputTokens: int,
    outputTokens: int)

  /** An event of the given kind with every other field at its zero value. */
  function NewEvent(kind: EventType, timestamp: nat, uuid: string): (e: Event)
    ensures e.kind == kind && e.timestamp == timestamp && e.uuid == uuid
    ensures e.inputTokens == 0 && e.outputTokens == 0
  {
    Event(kind, timestamp, uuid, "", "", "", "", Null, "", "", false, 0, "", 0, 0)
  }

  /** Lightweight metadata for the sessions list.  The file-path
      collections are sets: the source fills them from Go maps, so they hold
      no duplicates and have no defined order. */
  datatype SessionInfo = SessionInfo(
    id: string,
    projectDir: string,
    projectName: string,
    filePath: string,
    startTime: nat,
    lastUpdate: nat,
    inputTokens: int,
    outputTokens: int,
    cacheReadTokens: int,
    cacheWriteTokens: int,
    eventCount: int,
    toolCallCount: int,
    userPrompts: int,
    filesRead: set<string>,
    filesWritten: set<string>,
    filesCreated: set<string>,
    bashCommands: int,
    errors: int,
    isAgent: bool,
    model: string,
    cwd: string)

  /** A fully parsed session. */
  datatype Session = Session(info: SessionInfo, events: seq<Event>)

  /** Where a transcript lives: base directory, project directory name and
      file name. */
  datatype SessionPath = SessionPath(baseDir: string, dirName: string, fileName: string) {
    function Full(): string {
      baseDir + "/" + dirName + "/" + fileName
    }
  }
}
