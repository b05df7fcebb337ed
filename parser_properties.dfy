/** What the transcript parser promises, stated over its specification
    (module SessionParser) and proved for every input. */
module ParserProperties {
  import opened Wrappers
  import opened Json
  import opened GoStrings
  import opened SessionTypes
  import opened SessionParser

  // ---------------------------------------------------------------------
  // Decoding

  /** Blank and undecodable lines are skipped: exactly the kept lines give a
      record, each record comes from a kept line, and every kept line gives
      the record at its place among the kept lines, so file order is kept. */
  lemma {:induction false} DecodedSkipsUnkept(lines: seq<Line>)
    ensures |Decoded(lines)| == Count(lines, Keeps)
    ensures forall e :: e in Decoded(lines) ==>
      exists i :: 0 <= i < |lines| && Keeps(lines[i]) && lines[i].decoded.value == e
    ensures forall i | 0 <= i < |lines| && Keeps(lines[i]) ::
      Count(lines[..i], Keeps) < |Decoded(lines)| &&
      Decoded(lines)[Count(lines[..i], Keeps)] == lines[i].decoded.value
  {
    if lines != [] {
      var p := lines[..|lines| - 1];
      DecodedSkipsUnkept(p);
      forall i | 0 <= i < |lines| && Keeps(lines[i])
        ensures Count(lines[..i], Keeps) < |Decoded(lines)|
        ensures Decoded(lines)[Count(lines[..i], Keeps)] == lines[i].decoded.value
      {
        if i < |p| {
          assert lines[..i] == p[..i];
          assert lines[i] == p[i];
        } else {
          assert lines[..i] == p;
        }
      }
      forall e | e in Decoded(lines)
        ensures exists i :: 0 <= i < |lines| && Keeps(lines[i]) && lines[i].decoded.value == e
      {
        if e in Decoded(p) {
          var i :| 0 <= i < |p| && Keeps(p[i]) && p[i].decoded.value == e;
          assert lines[i] == p[i];
        } else {
          assert Keeps(lines[|lines| - 1]) && e == lines[|lines| - 1].decoded.value;
        }
      }
    }
  }

  // ---------------------------------------------------------------------
  // Block expansion keeps block order

  /** A list-valued tool result's output is the in-order concatenation of
      its items' texts: splitting the list splits the output. */
  lemma {:induction false} ItemsTextAppend(a: seq<Json>, b: seq<Json>)
    ensures ItemsText(a + b) == ItemsText(a) + ItemsText(b)
  {
    if a == [] {
      assert a + b == b;
    } else {
      var x, t := a[0], a[1..];
      calc {
        ItemsText(a + b);
        { assert a + b == [x] + (t + b); }
        ItemsText([x] + (t + b));
        { ItemsTextCons(x, t + b); }
        ItemText(x) + ItemsText(t + b);
        { ItemsTextAppend(t, b); }
        ItemText(x) + ItemsText(t) + ItemsText(b);
        { ItemsTextCons(x, t); assert [x] + t == a; }
        ItemsText(a) + ItemsText(b);
      }
    }
  }

  lemma ItemsTextCons(x: Json, rest: seq<Json>)
    ensures ItemsText([x] + rest) == ItemText(x) + ItemsText(rest)
  {
    assert ([x] + rest)[1..] == rest;
  }

  /** The events of a user message's blocks appear in block order. */
  lemma {:induction false} UserBlocksAppend(a: seq<Json>, b: seq<Json>, uuid: string, ts: nat, encode: Json -> string)
    ensures UserBlocks(a + b, uuid, ts, encode) == UserBlocks(a, uuid, ts, encode) + UserBlocks(b, uuid, ts, encode)
  {
    if a == [] {
      assert a + b == b;
    } else {
      var x, t := a[0], a[1..];
      calc {
        UserBlocks(a + b, uuid, ts, encode);
        { assert a + b == [x] + (t + b); }
        UserBlocks([x] + (t + b), uuid, ts, encode);
        { UserBlocksCons(x, t + b, uuid, ts, encode); }
        UserBlockEvents(x, uuid, ts, encode) + UserBlocks(t + b, uuid, ts, encode);
        { UserBlocksAppend(t, b, uuid, ts, encode); }
        UserBlockEvents(x, uuid, ts, encode) + UserBlocks(t, uuid, ts, encode) + UserBlocks(b, uuid, ts, encode);
        { UserBlocksCons(x, t, uuid, ts, encode); assert [x] + t == a; }
        UserBlocks(a, uuid, ts, encode) + UserBlocks(b, uuid, ts, encode);
      }
    }
  }

  lemma UserBlocksCons(x: Json, rest: seq<Json>, uuid: string, ts: nat, encode: Json -> string)
    ensures UserBlocks([x] + rest, uuid, ts, encode) == UserBlockEvents(x, uuid, ts, encode) + UserBlocks(rest, uuid, ts, encode)
  {
    assert ([x] + rest)[1..] == rest;
  }

  /** The events of an assistant message's blocks appear in block order. */
  lemma {:induction false} AssistantBlocksAppend(a: seq<Json>, b: seq<Json>, uuid: string, ts: nat, inTok: int, outTok: int)
    ensures AssistantBlocks(a + b, uuid, ts, inTok, outTok) ==
      AssistantBlocks(a, uuid, ts, inTok, outTok) + AssistantBlocks(b, uuid, ts, inTok, outTok)
  {
    if a == [] {
      assert a + b == b;
    } else {
      var x, t := a[0], a[1..];
      calc {
        AssistantBlocks(a + b, uuid, ts, inTok, outTok);
        { assert a + b == [x] + (t + b); }
        AssistantBlocks([x] + (t + b), uuid, ts, inTok, outTok);
        { AssistantBlocksCons(x, t + b, uuid, ts, inTok, outTok); }
        AssistantBlockEvents(x, uuid, ts, inTok, outTok) + AssistantBlocks(t + b, uuid, ts, inTok, outTok);
        { AssistantBlocksAppend(t, b, uuid, ts, inTok, outTok); }
        AssistantBlockEvents(x, uuid, ts, inTok, outTok) + AssistantBlocks(t, uuid, ts, inTok, outTok) + AssistantBlocks(b, uuid, ts, inTok, outTok);
        { AssistantBlocksCons(x, t, uuid, ts, inTok, outTok); assert [x] + t == a; }
        AssistantBlocks(a, uuid, ts, inTok, outTok) + AssistantBlocks(b, uuid, ts, inTok, outTok);
      }
    }
  }

  lemma AssistantBlocksCons(x: Json, rest: seq<Json>, uuid: string, ts: nat, inTok: int, outTok: int)
    ensures AssistantBlocks([x] + rest, uuid, ts, inTok, outTok) ==
      AssistantBlockEvents(x, uuid, ts, inTok, outTok) + AssistantBlocks(rest, uuid, ts, inTok, outTok)
  {
    assert ([x] + rest)[1..] == rest;
  }

  // ---------------------------------------------------------------------
  // Pass 1: the authoritative revision

  ghost predicate HasRevision(es: seq<RawEntry>, id: string) {
    exists j :: 0 <= j < |es| && IsRevisionOf(es[j], id)
  }

  /** es[k] is the authoritative revision of id: no revision of id is later
      in time, and every revision before it in the file is strictly
      earlier in time (so it is the first with the greatest timestamp). */
  ghost predicate Authoritative(es: seq<RawEntry>, k: int, id: string) {
    && 0 <= k < |es| && IsRevisionOf(es[k], id)
    && (forall j :: 0 <= j < |es| && IsRevisionOf(es[j], id) ==> es[j].timestamp <= es[k].timestamp)
    && (forall j :: 0 <= j < k && IsRevisionOf(es[j], id) ==> es[j].timestamp < es[k].timestamp)
  }

  /** Resolve keeps an entry exactly for the IDs that have a revision, and
      that entry is the authoritative revision. */
  lemma {:induction false} ResolveIsAuthoritative(es: seq<RawEntry>, id: string)
    ensures id in Resolve(es) <==> HasRevision(es, id)
    ensures id in Resolve(es) ==> exists k :: Authoritative(es, k, id) && Resolve(es)[id] == es[k]
  {
    if es != [] {
      ResolveIsAuthoritative(es[..|es| - 1], id);
      ResolveIsAuthoritativeStep(es, id);
    }
  }

  /** The induction hypothesis of ResolveIsAuthoritative, as one fact. */
  ghost predicate ResolvesAuthoritatively(es: seq<RawEntry>, id: string) {
    && (id in Resolve(es) <==> HasRevision(es, id))
    && (id in Resolve(es) ==> exists k :: Authoritative(es, k, id) && Resolve(es)[id] == es[k])
  }

  lemma ResolveIsAuthoritativeStep(es: seq<RawEntry>, id: string)
    requires es != []
    requires ResolvesAuthoritatively(es[..|es| - 1], id)
    ensures ResolvesAuthoritatively(es, id)
  {
    var p := es[..|es| - 1];
    var e := es[|es| - 1];
    var n := |p|;
    if IsRevisionOf(e, id) {
      if id in Resolve(p) {
        var k :| Authoritative(p, k, id) && Resolve(p)[id] == p[k];
        if e.timestamp > p[k].timestamp {
          AuthoritativeOvertake(es, k, id);
        } else {
          AuthoritativeExtend(es, k, id);
        }
      } else {
        AuthoritativeFirst(es, id);
      }
    } else {
      if id in Resolve(p) {
        var k :| Authoritative(p, k, id) && Resolve(p)[id] == p[k];
        AuthoritativeExtend(es, k, id);
      }
      if HasRevision(es, id) {
        var j :| 0 <= j < |es| && IsRevisionOf(es[j], id);
        assert j < n && IsRevisionOf(p[j], id);
      }
    }
  }

  /** An authoritative revision stays so when a record follows that is
      not a later revision of the same message. */
  lemma AuthoritativeExtend(es: seq<RawEntry>, k: int, id: string)
    requires es != [] && Authoritative(es[..|es| - 1], k, id)
    requires IsRevisionOf(es[|es| - 1], id) ==> es[|es| - 1].timestamp <= es[k].timestamp
    ensures Authoritative(es, k, id)
  {
    var p := es[..|es| - 1];
    assert forall j :: 0 <= j < |p| ==> es[j] == p[j];
  }

  /** The last record is authoritative when it is the first revision of
      its message. */
  lemma AuthoritativeFirst(es: seq<RawEntry>, id: string)
    requires es != [] && IsRevisionOf(es[|es| - 1], id) && !HasRevision(es[..|es| - 1], id)
    ensures Authoritative(es, |es| - 1, id)
  {
    var p := es[..|es| - 1];
    assert forall j :: 0 <= j < |p| ==> es[j] == p[j];
  }

  /** The last record is authoritative when it is a revision later than
      the authoritative one before it. */
  lemma AuthoritativeOvertake(es: seq<RawEntry>, k: int, id: string)
    requires es != [] && Authoritative(es[..|es| - 1], k, id)
    requires IsRevisionOf(es[|es| - 1], id) && es[|es| - 1].timestamp > es[k].timestamp
    ensures Authoritative(es, |es| - 1, id)
  {
    var p := es[..|es| - 1];
    assert forall j :: 0 <= j < |p| ==> es[j] == p[j];
  }

  /** The authoritative revision is unique. */
  lemma AuthoritativeUnique(es: seq<RawEntry>, k1: int, k2: int, id: string)
    requires Authoritative(es, k1, id) && Authoritative(es, k2, id)
    ensures k1 == k2
  {
  }

  /** Of two revisions with the same timestamp the earlier one is kept. */
  lemma TieKeepsEarlier(a: RawEntry, b: RawEntry)
    requires IsRevision(a) && IsRevisionOf(b, a.message.value.id) && a.timestamp == b.timestamp
    ensures Resolve([a, b])[a.message.value.id] == a
  {
    var id := a.message.value.id;
    assert [a][..0] == [];
    assert Resolve([a]) == map[id := a];
    assert [a, b][..1] == [a];
    assert Resolve([a, b]) == Resolve([a]);
  }

  /** The working directory is that of the first record that has one. */
  lemma {:induction false} FirstCwdIsFirst(es: seq<RawEntry>)
    ensures FirstCwd(es) != "" ==>
      exists i :: 0 <= i < |es| && es[i].cwd == FirstCwd(es) && (forall j :: 0 <= j < i ==> es[j].cwd == "")
    ensures FirstCwd(es) == "" ==> forall i :: 0 <= i < |es| ==> es[i].cwd == ""
  {
    if es != [] && es[0].cwd == "" {
      FirstCwdIsFirst(es[1..]);
      assert forall i :: 1 <= i < |es| ==> es[i] == es[1..][i - 1];
      if FirstCwd(es) != "" {
        var i :| 0 <= i < |es[1..]| && es[1..][i].cwd == FirstCwd(es) && forall j :: 0 <= j < i ==> es[1..][j].cwd == "";
        assert es[i + 1].cwd == FirstCwd(es);
      }
    }
  }

  /** The model is that of the first revision naming one, authoritative or
      not. */
  lemma {:induction false} FirstModelIsFirst(es: seq<RawEntry>)
    ensures FirstModel(es) != "" ==>
      exists i :: 0 <= i < |es| && IsRevision(es[i]) && es[i].message.value.model == FirstModel(es) &&
        (forall j :: 0 <= j < i && IsRevision(es[j]) ==> es[j].message.value.model == "")
    ensures FirstModel(es) == "" ==> forall i :: 0 <= i < |es| && IsRevision(es[i]) ==> es[i].message.value.model == ""
  {
    if es != [] && !(IsRevision(es[0]) && es[0].message.value.model != "") {
      FirstModelIsFirst(es[1..]);
      assert forall i :: 1 <= i < |es| ==> es[i] == es[1..][i - 1];
      if FirstModel(es) != "" {
        var i :| 0 <= i < |es[1..]| && IsRevision(es[1..][i]) && es[1..][i].message.value.model == FirstModel(es) &&
          forall j :: 0 <= j < i && IsRevision(es[1..][j]) ==> es[1..][j].message.value.model == "";
        assert es[i + 1] == es[1..][i];
      }
    }
  }

  // ---------------------------------------------------------------------
  // Pass 2: which records emit

  /** A record carrying the authoritative UUID of its message ID. */
  predicate Matches(e: RawEntry, res: map<string, RawEntry>) {
    IsRevision(e) && e.message.value.id in res && e.uuid == res[e.message.value.id].uuid
  }

  /** The IDs of the records of es that match. */
  function MatchedIDs(es: seq<RawEntry>, res: map<string, RawEntry>): set<string>
  {
    set j | 0 <= j < |es| && Matches(es[j], res) :: es[j].message.value.id
  }

  /** The events one record contributes, given the IDs already emitted. */
  function RecordEvents(seen: set<string>, e: RawEntry, res: map<string, RawEntry>, encode: Json -> string): seq<Event>
  {
    if e.kind == "system" then
      if e.subtype == "compact_boundary" then [CompactionEvent(e, e.timestamp)] else []
    else if e.kind == "user" then
      if e.message.None? || e.isCompactSummary then [] else ParseUserMessage(e, e.timestamp, encode)
    else if e.kind == "assistant" && EmitsHere(e, res, seen) then
      ParseAssistantMessage(res[e.message.value.id], e.timestamp)
    else []
  }

  /** One step of pass 2 appends the record's events (content of an
      assistant message from its authoritative revision, timestamp from the
      record at hand) and marks a matching ID emitted. */
  lemma StepContribution(st: BuildState, e: RawEntry, res: map<string, RawEntry>, encode: Json -> string)
    ensures Step(st, e, res, encode).events == st.events + RecordEvents(st.seen, e, res, encode)
    ensures Step(st, e, res, encode).seen == st.seen + (if Matches(e, res) then {e.message.value.id} else {})
  {
  }

  /** What each kind of record contributes: a system record exactly one
      Compaction event when it is a compact boundary, a user record nothing
      when it has no message or is a compaction summary, an assistant
      record nothing unless it emits, any other kind nothing. */
  lemma StepEventsByKind(st: BuildState, e: RawEntry, res: map<string, RawEntry>, encode: Json -> string)
    ensures e.kind == "system" && e.subtype == "compact_boundary" ==>
      Step(st, e, res, encode).events == st.events + [CompactionEvent(e, e.timestamp)]
    ensures e.kind == "system" && e.subtype != "compact_boundary" ==> Step(st, e, res, encode).events == st.events
    ensures e.kind == "user" && (e.message.None? || e.isCompactSummary) ==> Step(st, e, res, encode).events == st.events
    ensures e.kind == "assistant" && !EmitsHere(e, res, st.seen) ==> Step(st, e, res, encode) == st.(info := Stamp(st.info, e.timestamp))
    ensures e.kind !in {"system", "user", "assistant"} ==> Step(st, e, res, encode) == st.(info := Stamp(st.info, e.timestamp))
  {
  }

  /** The IDs emitted after a prefix are the IDs matched in it. */
  lemma {:induction false} BuildSeen(es: seq<RawEntry>, res: map<string, RawEntry>, info0: SessionInfo, encode: Json -> string)
    ensures Build(es, res, info0, encode).seen == MatchedIDs(es, res)
  {
    if es != [] {
      var p := es[..|es| - 1];
      BuildSeen(p, res, info0, encode);
      StepContribution(Build(p, res, info0, encode), es[|es| - 1], res, encode);
      MatchedIDsSnoc(es, res);
    }
  }

  /** A record appended to the file adds its ID when it matches. */
  lemma MatchedIDsSnoc(es: seq<RawEntry>, res: map<string, RawEntry>)
    requires es != []
    ensures MatchedIDs(es, res) ==
      MatchedIDs(es[..|es| - 1], res) + (if Matches(es[|es| - 1], res) then {es[|es| - 1].message.value.id} else {})
  {
    var p := es[..|es| - 1];
    var e := es[|es| - 1];
    assert forall j :: 0 <= j < |p| ==> es[j] == p[j];
    var added := if Matches(e, res) then {e.message.value.id} else {};
    forall id | id in MatchedIDs(es, res) ensures id in MatchedIDs(p, res) + added {
      var j :| 0 <= j < |es| && Matches(es[j], res) && es[j].message.value.id == id;
      if j < |p| {
        assert Matches(p[j], res) && p[j].message.value.id == id;
      }
    }
    forall id | id in MatchedIDs(p, res) + added ensures id in MatchedIDs(es, res) {
      if id in MatchedIDs(p, res) {
        var j :| 0 <= j < |p| && Matches(p[j], res) && p[j].message.value.id == id;
        assert Matches(es[j], res) && es[j].message.value.id == id;
      } else {
        assert Matches(es[|p|], res) && es[|p|].message.value.id == id;
      }
    }
  }

  /** Whether record j emits when pass 2 reaches it. */
  ghost predicate EmitsAt(es: seq<RawEntry>, j: int, res: map<string, RawEntry>, info0: SessionInfo, encode: Json -> string)
    requires 0 <= j < |es|
  {
    EmitsHere(es[j], res, Build(es[..j], res, info0, encode).seen)
  }

  /** A record emits exactly when it matches and no earlier record with the
      same message ID matches. */
  lemma EmitsAtFirstMatch(es: seq<RawEntry>, j: int, res: map<string, RawEntry>, info0: SessionInfo, encode: Json -> string)
    requires 0 <= j < |es|
    ensures EmitsAt(es, j, res, info0, encode) <==>
      Matches(es[j], res) &&
      forall i :: 0 <= i < j && Matches(es[i], res) ==> es[i].message.value.id != es[j].message.value.id
  {
    BuildSeen(es[..j], res, info0, encode);
    assert forall i :: 0 <= i < j ==> es[..j][i] == es[i];
    if Matches(es[j], res) {
      var id := es[j].message.value.id;
      if id in MatchedIDs(es[..j], res) {
        var i :| 0 <= i < j && Matches(es[..j][i], res) && es[..j][i].message.value.id == id;
        assert Matches(es[i], res) && es[i].message.value.id == id;
      }
    }
  }

  /** Every resolved message ID is matched somewhere in the file: by its
      authoritative revision at least. */
  lemma ResolvedAreMatched(es: seq<RawEntry>)
    ensures MatchedIDs(es, Resolve(es)) == Resolve(es).Keys
  {
    var res := Resolve(es);
    forall id | id in res ensures id in MatchedIDs(es, res) {
      ResolveIsAuthoritative(es, id);
      var k :| Authoritative(es, k, id) && res[id] == es[k];
      assert Matches(es[k], res);
    }
  }

  /** es[j] is the first record matching for message ID id. */
  ghost predicate FirstMatchOf(es: seq<RawEntry>, res: map<string, RawEntry>, j: int, id: string)
    requires 0 <= j < |es|
  {
    Matches(es[j], res) && es[j].message.value.id == id &&
    forall i :: 0 <= i < j && Matches(es[i], res) ==> es[i].message.value.id != id
  }

  /** The first matching record of an ID exists once some record matches. */
  lemma {:induction false} FirstMatch(es: seq<RawEntry>, res: map<string, RawEntry>, j0: int)
    requires 0 <= j0 < |es| && Matches(es[j0], res)
    ensures exists j :: 0 <= j <= j0 && FirstMatchOf(es, res, j, es[j0].message.value.id)
    decreases j0
  {
    var id := es[j0].message.value.id;
    if exists i :: 0 <= i < j0 && Matches(es[i], res) && es[i].message.value.id == id {
      var i :| 0 <= i < j0 && Matches(es[i], res) && es[i].message.value.id == id;
      FirstMatch(es, res, i);
    } else {
      assert FirstMatchOf(es, res, j0, id);
    }
  }

  /** Exactly-once emission: every resolved message ID is emitted at exactly
      one record of the file, and no unresolved ID is ever emitted. */
  lemma EmittedExactlyOnce(es: seq<RawEntry>, info0: SessionInfo, encode: Json -> string, id: string)
    ensures id in Resolve(es) ==>
      exists j :: 0 <= j < |es| && EmitsAt(es, j, Resolve(es), info0, encode) && es[j].message.value.id == id &&
        forall i :: 0 <= i < |es| && i != j && EmitsAt(es, i, Resolve(es), info0, encode) ==> es[i].message.value.id != id
    ensures id !in Resolve(es) ==>
      forall j :: 0 <= j < |es| && EmitsAt(es, j, Resolve(es), info0, encode) ==> es[j].message.value.id != id
  {
    var res := Resolve(es);
    if id in res {
      ResolvedAreMatched(es);
      assert id in MatchedIDs(es, res);
      var j0 :| 0 <= j0 < |es| && Matches(es[j0], res) && es[j0].message.value.id == id;
      FirstMatch(es, res, j0);
      var j :| 0 <= j <= j0 && FirstMatchOf(es, res, j, id);
      EmitsAtFirstMatch(es, j, res, info0, encode);
      forall i | 0 <= i < |es| && i != j && EmitsAt(es, i, res, info0, encode)
        ensures es[i].message.value.id != id
      {
        EmitsAtFirstMatch(es, i, res, info0, encode);
      }
    } else {
      forall j | 0 <= j < |es| && EmitsAt(es, j, res, info0, encode)
        ensures es[j].message.value.id != id
      {
      }
    }
  }

  // ---------------------------------------------------------------------
  // Token sums over the emitted IDs

  /** The four token counters, and which usage field feeds each. */
  datatype Counter = Input | Output | CacheRead | CacheWrite

  function UsageValue(e: RawEntry, c: Counter): int
  {
    if e.message.Some? && e.message.value.usage.Some? then
      var u := e.message.value.usage.value;
      match c
      case Input => u.inputTokens
      case Output => u.outputTokens
      case CacheRead => u.cacheReadInputTokens
      case CacheWrite => u.cacheCreationInputTokens
    else 0
  }

  function InfoValue(info: SessionInfo, c: Counter): int
  {
    match c
    case Input => info.inputTokens
    case Output => info.outputTokens
    case CacheRead => info.cacheReadTokens
    case CacheWrite => info.cacheWriteTokens
  }

  ghost function Pick(ids: set<string>): string
    requires ids != {}
  {
    var id :| id in ids; id
  }

  /** The sum, over a set of message IDs, of a counter of their
      authoritative revisions' usage. */
  ghost function UsageSum(ids: set<string>, res: map<string, RawEntry>, c: Counter): int
    decreases |ids|
  {
    if ids == {} then 0
    else
      var id := Pick(ids);
      (if id in res then UsageValue(res[id], c) else 0) + UsageSum(ids - {id}, res, c)
  }

  lemma {:induction false} UsageSumRemove(ids: set<string>, id: string, res: map<string, RawEntry>, c: Counter)
    requires id in ids
    ensures UsageSum(ids, res, c) == (if id in res then UsageValue(res[id], c) else 0) + UsageSum(ids - {id}, res, c)
    decreases |ids|
  {
    var x := Pick(ids);
    if x != id {
      UsageSumRemove(ids - {x}, id, res, c);
      assert ids - {x} - {id} == ids - {id} - {x};
      UsageSumRemove(ids - {id}, x, res, c);
    }
  }

  /** Every token counter grows by the authoritative usage of each emitted
      ID, once. */
  lemma {:induction false} BuildTokens(es: seq<RawEntry>, res: map<string, RawEntry>, info0: SessionInfo, encode: Json -> string, c: Counter)
    ensures InfoValue(Build(es, res, info0, encode).info, c) == InfoValue(info0, c) + UsageSum(Build(es, res, info0, encode).seen, res, c)
  {
    if es != [] {
      var p := es[..|es| - 1];
      BuildTokens(p, res, info0, encode, c);
      TokensStep(Build(p, res, info0, encode), es[|es| - 1], res, encode, c, InfoValue(info0, c));
    } else {
      assert UsageSum({}, res, c) == 0;
    }
  }

  /** One record keeps a counter equal to its start value plus the usage
      of the emitted IDs. */
  lemma TokensStep(st: BuildState, e: RawEntry, res: map<string, RawEntry>, encode: Json -> string, c: Counter, base: int)
    requires InfoValue(st.info, c) == base + UsageSum(st.seen, res, c)
    ensures InfoValue(Step(st, e, res, encode).info, c) == base + UsageSum(Step(st, e, res, encode).seen, res, c)
  {
    StepTokens(st, e, res, encode, c);
    if e.kind == "assistant" && EmitsHere(e, res, st.seen) {
      var id := e.message.value.id;
      UsageSumRemove(st.seen + {id}, id, res, c);
      assert st.seen + {id} - {id} == st.seen;
    }
  }

  /** A record adds to a counter exactly the usage of the message it emits. */
  lemma StepTokens(st: BuildState, e: RawEntry, res: map<string, RawEntry>, encode: Json -> string, c: Counter)
    ensures e.kind == "assistant" && EmitsHere(e, res, st.seen) ==>
      && InfoValue(Step(st, e, res, encode).info, c) == InfoValue(st.info, c) + UsageValue(res[e.message.value.id], c)
      && Step(st, e, res, encode).seen == st.seen + {e.message.value.id}
    ensures !(e.kind == "assistant" && EmitsHere(e, res, st.seen)) ==>
      && InfoValue(Step(st, e, res, encode).info, c) == InfoValue(st.info, c)
      && Step(st, e, res, encode).seen == st.seen
  {
  }

  /** The token counters of a parsed session are the sums, over the
      resolved message IDs, of the authoritative revision's usage: however
      many revisions an ID had, its usage counts once. */
  lemma TokensAreAuthoritativeSums(path: SessionPath, lines: seq<Line>, encode: Json -> string, c: Counter)
    ensures var es := Decoded(lines);
      InfoValue(ParseSpec(path, Some(lines), encode).value.info, c) == UsageSum(Resolve(es).Keys, Resolve(es), c)
  {
    var es := Decoded(lines);
    var res := Resolve(es);
    BuildTokens(es, res, StartInfo(path, es), encode, c);
    BuildSeen(es, res, StartInfo(path, es), encode);
    ResolvedAreMatched(es);
  }

  // ---------------------------------------------------------------------
  // Counters equal counts of events

  lemma {:induction false} CountNone<T>(s: seq<T>, p: T -> bool)
    requires forall x :: x in s ==> !p(x)
    ensures Count(s, p) == 0
  {
    if s != [] {
      CountNone(s[..|s| - 1], p);
    }
  }

  lemma {:induction false} PathsNone(s: seq<Event>, tool: string)
    requires forall e :: e in s ==> e.kind != ToolUse
    ensures PathsOf(s, tool) == {}
  {
    if s != [] {
      PathsNone(s[..|s| - 1], tool);
    }
  }

  /** The counters after pass 2 are counts over the events it emitted. */
  ghost predicate CountersMatch(st: BuildState, info0: SessionInfo) {
    && st.info.userPrompts == info0.userPrompts + Count(st.events, IsPrompt)
    && st.info.errors == info0.errors + Count(st.events, IsErrorResult)
    && st.info.toolCallCount == info0.toolCallCount + Count(st.events, IsToolCall)
    && st.info.bashCommands == info0.bashCommands + Count(st.events, IsBashCall)
    && st.filesRead == PathsOf(st.events, "Read")
    && st.filesCreated == PathsOf(st.events, "Write")
    && st.filesWritten == PathsOf(st.events, "Edit")
  }

  lemma AppendCounts(st: BuildState, evs: seq<Event>)
    ensures Count(st.events + evs, IsPrompt) == Count(st.events, IsPrompt) + Count(evs, IsPrompt)
    ensures Count(st.events + evs, IsErrorResult) == Count(st.events, IsErrorResult) + Count(evs, IsErrorResult)
    ensures Count(st.events + evs, IsToolCall) == Count(st.events, IsToolCall) + Count(evs, IsToolCall)
    ensures Count(st.events + evs, IsBashCall) == Count(st.events, IsBashCall) + Count(evs, IsBashCall)
    ensures PathsOf(st.events + evs, "Read") == PathsOf(st.events, "Read") + PathsOf(evs, "Read")
    ensures PathsOf(st.events + evs, "Write") == PathsOf(st.events, "Write") + PathsOf(evs, "Write")
    ensures PathsOf(st.events + evs, "Edit") == PathsOf(st.events, "Edit") + PathsOf(evs, "Edit")
  {
    CountAppend(st.events, evs, IsPrompt);
    CountAppend(st.events, evs, IsErrorResult);
    CountAppend(st.events, evs, IsToolCall);
    CountAppend(st.events, evs, IsBashCall);
    PathsOfAppend(st.events, evs, "Read");
    PathsOfAppend(st.events, evs, "Write");
    PathsOfAppend(st.events, evs, "Edit");
  }

  /** Events that are not tool calls leave the tool counters and the path
      sets alone. */
  lemma NoToolEvents(evs: seq<Event>)
    requires forall e :: e in evs ==> e.kind != ToolUse
    ensures Count(evs, IsToolCall) == 0 && Count(evs, IsBashCall) == 0
    ensures PathsOf(evs, "Read") == {} && PathsOf(evs, "Write") == {} && PathsOf(evs, "Edit") == {}
  {
    CountNone(evs, IsToolCall);
    CountNone(evs, IsBashCall);
    PathsNone(evs, "Read");
    PathsNone(evs, "Write");
    PathsNone(evs, "Edit");
  }

  /** Events that are neither prompts nor tool results leave the prompt and
      error counters alone. */
  lemma NoUserEvents(evs: seq<Event>)
    requires forall e :: e in evs ==> e.kind != UserPrompt && e.kind != ToolResult
    ensures Count(evs, IsPrompt) == 0 && Count(evs, IsErrorResult) == 0
  {
    CountNone(evs, IsPrompt);
    CountNone(evs, IsErrorResult);
  }

  /** The counters and path sets a step changes, and by how much. */
  ghost predicate CountersGrowBy(st: BuildState, st': BuildState, evs: seq<Event>) {
    && st'.info.userPrompts == st.info.userPrompts + Count(evs, IsPrompt)
    && st'.info.errors == st.info.errors + Count(evs, IsErrorResult)
    && st'.info.toolCallCount == st.info.toolCallCount + Count(evs, IsToolCall)
    && st'.info.bashCommands == st.info.bashCommands + Count(evs, IsBashCall)
    && st'.filesRead == st.filesRead + PathsOf(evs, "Read")
    && st'.filesCreated == st.filesCreated + PathsOf(evs, "Write")
    && st'.filesWritten == st.filesWritten + PathsOf(evs, "Edit")
  }

  lemma SystemCountersGrow(st: BuildState, e: RawEntry, res: map<string, RawEntry>, encode: Json -> string)
    requires e.kind == "system"
    ensures CountersGrowBy(st, Step(st, e, res, encode), RecordEvents(st.seen, e, res, encode))
  {
    var evs := RecordEvents(st.seen, e, res, encode);
    NoToolEvents(evs);
    NoUserEvents(evs);
  }

  lemma UserCountersGrow(st: BuildState, e: RawEntry, res: map<string, RawEntry>, encode: Json -> string)
    requires e.kind == "user"
    ensures CountersGrowBy(st, Step(st, e, res, encode), RecordEvents(st.seen, e, res, encode))
  {
    var evs := RecordEvents(st.seen, e, res, encode);
    NoToolEvents(evs);
    if e.message.None? || e.isCompactSummary {
      NoUserEvents(evs);
    }
  }

  lemma AssistantCountersGrow(st: BuildState, e: RawEntry, res: map<string, RawEntry>, encode: Json -> string)
    requires e.kind == "assistant"
    ensures CountersGrowBy(st, Step(st, e, res, encode), RecordEvents(st.seen, e, res, encode))
  {
    var evs := RecordEvents(st.seen, e, res, encode);
    NoUserEvents(evs);
    if !EmitsHere(e, res, st.seen) {
      NoToolEvents(evs);
    }
  }

  lemma StepCountersGrow(st: BuildState, e: RawEntry, res: map<string, RawEntry>, encode: Json -> string)
    ensures CountersGrowBy(st, Step(st, e, res, encode), RecordEvents(st.seen, e, res, encode))
  {
    if e.kind == "system" {
      SystemCountersGrow(st, e, res, encode);
    } else if e.kind == "user" {
      UserCountersGrow(st, e, res, encode);
    } else if e.kind == "assistant" {
      AssistantCountersGrow(st, e, res, encode);
    } else {
      NoToolEvents([]);
      NoUserEvents([]);
    }
  }

  lemma StepCounters(st: BuildState, e: RawEntry, res: map<string, RawEntry>, encode: Json -> string, info0: SessionInfo)
    requires CountersMatch(st, info0)
    ensures CountersMatch(Step(st, e, res, encode), info0)
  {
    var evs := RecordEvents(st.seen, e, res, encode);
    StepContribution(st, e, res, encode);
    StepCountersGrow(st, e, res, encode);
    AppendCounts(st, evs);
  }

  lemma {:induction false} BuildCounters(es: seq<RawEntry>, res: map<string, RawEntry>, info0: SessionInfo, encode: Json -> string)
    ensures CountersMatch(Build(es, res, info0, encode), info0)
  {
    if es != [] {
      BuildCounters(es[..|es| - 1], res, info0, encode);
      StepCounters(Build(es[..|es| - 1], res, info0, encode), es[|es| - 1], res, encode, info0);
    }
  }

  /** The counters of a parsed session: prompts, errors, tool calls and
      Bash calls are counts of its events, the three path sets are the
      string file_path arguments of its Read, Write and Edit calls, and the
      event count is the number of events. */
  lemma SessionCounters(path: SessionPath, lines: seq<Line>, encode: Json -> string)
    ensures var s := ParseSpec(path, Some(lines), encode).value;
      && s.info.userPrompts == Count(s.events, IsPrompt)
      && s.info.errors == Count(s.events, IsErrorResult)
      && s.info.toolCallCount == Count(s.events, IsToolCall)
      && s.info.bashCommands == Count(s.events, IsBashCall)
      && s.info.filesRead == PathsOf(s.events, "Read")
      && s.info.filesCreated == PathsOf(s.events, "Write")
      && s.info.filesWritten == PathsOf(s.events, "Edit")
      && s.info.eventCount == |s.events|
  {
    var es := Decoded(lines);
    BuildCounters(es, Resolve(es), StartInfo(path, es), encode);
  }

  // ---------------------------------------------------------------------
  // Time span

  /** m is the least non-zero timestamp of es, or 0 when there is none. */
  ghost predicate LeastNonZero(m: nat, es: seq<RawEntry>) {
    && (m == 0 <==> forall j :: 0 <= j < |es| ==> es[j].timestamp == 0)
    && (m != 0 ==> (exists j :: 0 <= j < |es| && es[j].timestamp == m) &&
                   forall j :: 0 <= j < |es| && es[j].timestamp != 0 ==> m <= es[j].timestamp)
  }

  /** m is the greatest timestamp of es, or 0 when es is empty. */
  ghost predicate Greatest(m: nat, es: seq<RawEntry>) {
    && (forall j :: 0 <= j < |es| ==> es[j].timestamp <= m)
    && (m != 0 ==> exists j :: 0 <= j < |es| && es[j].timestamp == m)
  }

  /** Only Stamp moves the time span. */
  lemma StepStamps(st: BuildState, e: RawEntry, res: map<string, RawEntry>, encode: Json -> string)
    ensures Step(st, e, res, encode).info.startTime == Stamp(st.info, e.timestamp).startTime
    ensures Step(st, e, res, encode).info.lastUpdate == Stamp(st.info, e.timestamp).lastUpdate
  {
  }

  lemma {:induction false} BuildStartTime(es: seq<RawEntry>, res: map<string, RawEntry>, info0: SessionInfo, encode: Json -> string)
    requires info0.startTime == 0
    ensures LeastNonZero(Build(es, res, info0, encode).info.startTime, es)
  {
    if es != [] {
      var p := es[..|es| - 1];
      BuildStartTime(p, res, info0, encode);
      StepStamps(Build(p, res, info0, encode), es[|p|], res, encode);
      LeastNonZeroSnoc(Build(p, res, info0, encode).info.startTime, es, es[|p|].timestamp);
    }
  }

  /** The start-time rule of Stamp, applied to one more record, gives the
      least non-zero timestamp of the longer file. */
  lemma LeastNonZeroSnoc(before: nat, es: seq<RawEntry>, ts: nat)
    requires es != [] && ts == es[|es| - 1].timestamp && LeastNonZero(before, es[..|es| - 1])
    ensures LeastNonZero(if before == 0 || (ts != 0 && ts < before) then ts else before, es)
  {
    var p := es[..|es| - 1];
    var after := if before == 0 || (ts != 0 && ts < before) then ts else before;
    assert forall j :: 0 <= j < |p| ==> es[j] == p[j];
    if after != 0 && after != ts {
      var j :| 0 <= j < |p| && p[j].timestamp == before;
      assert es[j].timestamp == after;
    }
  }

  lemma {:induction false} BuildLastUpdate(es: seq<RawEntry>, res: map<string, RawEntry>, info0: SessionInfo, encode: Json -> string)
    requires info0.lastUpdate == 0
    ensures Greatest(Build(es, res, info0, encode).info.lastUpdate, es)
  {
    if es != [] {
      var p := es[..|es| - 1];
      BuildLastUpdate(p, res, info0, encode);
      StepStamps(Build(p, res, info0, encode), es[|p|], res, encode);
      GreatestSnoc(Build(p, res, info0, encode).info.lastUpdate, es, es[|p|].timestamp);
    }
  }

  /** The last-update rule of Stamp, applied to one more record, gives the
      greatest timestamp of the longer file. */
  lemma GreatestSnoc(before: nat, es: seq<RawEntry>, ts: nat)
    requires es != [] && ts == es[|es| - 1].timestamp && Greatest(before, es[..|es| - 1])
    ensures Greatest(if ts > before then ts else before, es)
  {
    var p := es[..|es| - 1];
    var after := if ts > before then ts else before;
    assert forall j :: 0 <= j < |p| ==> es[j] == p[j];
    if after != 0 && after != ts {
      var j :| 0 <= j < |p| && p[j].timestamp == before;
      assert es[j].timestamp == after;
    }
  }

  /** StartTime is the least non-zero timestamp of the decoded records and
      LastUpdate the greatest. */
  lemma SessionTimeSpan(path: SessionPath, lines: seq<Line>, encode: Json -> string)
    ensures var s := ParseSpec(path, Some(lines), encode).value;
      LeastNonZero(s.info.startTime, Decoded(lines)) && Greatest(s.info.lastUpdate, Decoded(lines))
  {
    var es := Decoded(lines);
    BuildStartTime(es, Resolve(es), StartInfo(path, es), encode);
    BuildLastUpdate(es, Resolve(es), StartInfo(path, es), encode);
  }

  // ---------------------------------------------------------------------
  // Order and kinds of the events

  /** Events are only ever appended: the events after a prefix of the
      records are a prefix of the final events, so the timeline follows the
      file order and is never re-sorted. */
  lemma {:induction false} BuildEventsGrow(es: seq<RawEntry>, n: nat, res: map<string, RawEntry>, info0: SessionInfo, encode: Json -> string)
    requires n <= |es|
    ensures Build(es[..n], res, info0, encode).events <= Build(es, res, info0, encode).events
    decreases |es| - n
  {
    if n < |es| {
      var p := es[..|es| - 1];
      assert es[..n] == p[..n];
      BuildEventsGrow(p, n, res, info0, encode);
      StepContribution(Build(p, res, info0, encode), es[|es| - 1], res, encode);
    } else {
      assert es[..n] == es;
    }
  }

  /** What each event of a timeline satisfies: it is never a System event;
      events derived from user and system records carry no tokens; events of
      an assistant message come from an authoritative revision and carry its
      usage. */
  ghost predicate WellFormedEvent(e: Event, res: map<string, RawEntry>) {
    && e.kind != System
    && (e.kind == UserPrompt || e.kind == ToolResult || e.kind == Compaction ==>
          e.inputTokens == 0 && e.outputTokens == 0)
    && (e.kind == Thinking || e.kind == Text || e.kind == ToolUse ==>
          exists id :: id in res && e.uuid == res[id].uuid &&
            e.inputTokens == UsageTokens(res[id]).0 && e.outputTokens == UsageTokens(res[id]).1)
  }

  lemma {:induction false} BuildEventsWellFormed(es: seq<RawEntry>, res: map<string, RawEntry>, info0: SessionInfo, encode: Json -> string)
    ensures forall e :: e in Build(es, res, info0, encode).events ==> WellFormedEvent(e, res)
  {
    if es != [] {
      var p := es[..|es| - 1];
      var r := es[|es| - 1];
      var st := Build(p, res, info0, encode);
      BuildEventsWellFormed(p, res, info0, encode);
      StepContribution(st, r, res, encode);
      var evs := RecordEvents(st.seen, r, res, encode);
      forall e | e in evs ensures WellFormedEvent(e, res) {
        if r.kind == "assistant" && !(r.kind == "system") && !(r.kind == "user") {
          var id := r.message.value.id;
          assert AssistantDerived(e, res[id].uuid, r.timestamp, UsageTokens(res[id]).0, UsageTokens(res[id]).1);
        }
      }
    }
  }

  /** A parsed session never holds a System event, and the token fields of
      its events are as described above. */
  lemma SessionEventsWellFormed(path: SessionPath, lines: seq<Line>, encode: Json -> string)
    ensures var s := ParseSpec(path, Some(lines), encode).value;
      forall e :: e in s.events ==> WellFormedEvent(e, Resolve(Decoded(lines)))
  {
    var es := Decoded(lines);
    BuildEventsWellFormed(es, Resolve(es), StartInfo(path, es), encode);
  }

  // ---------------------------------------------------------------------
  // Identity

  /** The fields pass 1 fixes and pass 2 leaves alone. */
  ghost predicate SameIdentity(a: SessionInfo, b: SessionInfo) {
    && a.id == b.id && a.projectDir == b.projectDir && a.projectName == b.projectName
    && a.filePath == b.filePath && a.isAgent == b.isAgent && a.model == b.model && a.cwd == b.cwd
  }

  lemma AssistantKeepsIdentity(st: BuildState, e: RawEntry, res: map<string, RawEntry>)
    ensures SameIdentity(AssistantStep(st, e, res).info, st.info)
  {
  }

  lemma UserKeepsIdentity(st: BuildState, e: RawEntry, encode: Json -> string)
    ensures SameIdentity(UserStep(st, e, encode).info, st.info)
  {
  }

  lemma StepKeepsIdentity(st: BuildState, e: RawEntry, res: map<string, RawEntry>, encode: Json -> string)
    ensures SameIdentity(Step(st, e, res, encode).info, st.info)
  {
    var st1 := st.(info := Stamp(st.info, e.timestamp));
    assert SameIdentity(st1.info, st.info);
    if e.kind == "user" {
      UserKeepsIdentity(st1, e, encode);
    } else if e.kind == "assistant" {
      AssistantKeepsIdentity(st1, e, res);
    }
  }

  lemma {:induction false} BuildKeepsIdentity(es: seq<RawEntry>, res: map<string, RawEntry>, info0: SessionInfo, encode: Json -> string)
    ensures SameIdentity(Build(es, res, info0, encode).info, info0)
  {
    if es != [] {
      BuildKeepsIdentity(es[..|es| - 1], res, info0, encode);
      StepKeepsIdentity(Build(es[..|es| - 1], res, info0, encode), es[|es| - 1], res, encode);
    }
  }

  /** A parsed session's identity comes from its path and from pass 1: the
      ID is the file name without ".jsonl", the project directory and name
      come from the directory name, an "agent-" file name marks a subagent,
      and the working directory and model are the first non-empty ones. */
  lemma SessionIdentity(path: SessionPath, lines: seq<Line>, encode: Json -> string)
    ensures var info := ParseSpec(path, Some(lines), encode).value.info;
      && info.id == SessionID(path.fileName)
      && info.projectDir == ProjectDirOf(path.dirName)
      && info.projectName == ProjectNameOf(path.dirName)
      && info.filePath == path.Full()
      && (info.isAgent <==> HasPrefix(path.fileName, "agent-"))
      && info.cwd == FirstCwd(Decoded(lines))
      && info.model == FirstModel(Decoded(lines))
  {
    var es := Decoded(lines);
    BuildKeepsIdentity(es, Resolve(es), StartInfo(path, es), encode);
  }
}
