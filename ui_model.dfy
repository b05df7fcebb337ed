/** The state machine of the terminal UI (internal/ui/model.go): four
    views, the key and mouse bindings that move between them and within
    them, and the refresh that reloads the session list from the store.

    Each transition is specified by a function on a snapshot of the
    model's fields (UiState); the class Model updates its fields in place
    and proves that its new snapshot is that function of the old one.
    Rendering (View, renderHelp) and the update channel are not modelled. */
module UiModel {
  import opened Wrappers
  import opened SessionTypes
  import opened SessionStore
  import opened UiCommon

  datatype ViewMode = SessionsView | DetailView | OverviewView | EventView

  /** The actions the key bindings select. */
  datatype Key = Quit | Back | Down | Up | Home | End | Open | Summary | Follow | Refresh | PageUp | PageDown | Ignored

  /** The key names that are bound to an action. */
  const BoundNames: set<string> :=
    {"q", "ctrl+c", "esc", "left", "j", "down", "k", "up", "g", "home", "G", "end",
     "enter", "right", "s", "f", "r", "shift+up", "pgup", "shift+down", "pgdown"}

  /** The action of a key press; the space bar counts as "enter". */
  function KeyOf(name: string, isSpace: bool): (k: Key)
    ensures isSpace ==> k == Open
    ensures k == Ignored <==> !isSpace && name !in BoundNames
    ensures k == Open <==> isSpace || name == "enter" || name == "right"
    ensures k == Quit <==> !isSpace && (name == "q" || name == "ctrl+c")
  {
    var key := if isSpace then "enter" else name;
    if key == "q" || key == "ctrl+c" then Quit
    else if key == "esc" || key == "left" then Back
    else if key == "j" || key == "down" then Down
    else if key == "k" || key == "up" then Up
    else if key == "g" || key == "home" then Home
    else if key == "G" || key == "end" then End
    else if key == "enter" || key == "right" then Open
    else if key == "s" then Summary
    else if key == "f" then Follow
    else if key == "r" then Refresh
    else if key == "shift+up" || key == "pgup" then PageUp
    else if key == "shift+down" || key == "pgdown" then PageDown
    else Ignored
  }

  datatype MouseButton = WheelUp | WheelDown | OtherButton

  /** The fields of the model that the transitions change. */
  datatype UiState = UiState(
    mode: ViewMode,
    sessions: seq<SessionInfo>,
    cursor: int,
    selected: Option<Session>,
    detailCursor: int,
    overviewScroll: int,
    selectedEvent: Option<Event>,
    eventScroll: int,
    autoFollow: bool,
    width: int,
    height: int)

  /** What every transition keeps: the cursors and offsets are never
      negative, the list cursor is 0 or on a listed session, and every
      view but the list has a session (the event view also an event) to
      show. */
  ghost predicate Inv(st: UiState) {
    && 0 <= st.cursor && (st.cursor == 0 || st.cursor < |st.sessions|)
    && st.detailCursor >= 0 && st.overviewScroll >= 0 && st.eventScroll >= 0
    && (st.mode != SessionsView ==> st.selected.Some?)
    && (st.mode == EventView ==> st.selectedEvent.Some?)
  }

  /** The index of the last event, 0 for a session without events. */
  function LastEvent(s: Session): (i: int)
    ensures i >= 0
    ensures |s.events| > 0 ==> i == |s.events| - 1
    ensures |s.events| == 0 ==> i == 0
  {
    Max(0, |s.events| - 1)
  }

  /** The rows a page key moves by: half the height, at least 5.  Go's
      truncating division and Dafny's differ only for a negative height,
      where both results are below 5. */
  function PageSize(height: int): (ps: int)
    ensures ps >= 5
    ensures height >= 10 ==> ps == height / 2 && 2 * ps <= height < 2 * ps + 2
    ensures height < 10 ==> ps == 5
  {
    var ps := height / 2;
    if ps < 5 then 5 else ps
  }

  // -----------------------------------------------------------------------
  // Transitions

  /** esc/left: one level up. */
  function BackStep(st: UiState): UiState
  {
    match st.mode
    case DetailView => st.(mode := SessionsView, selected := None, detailCursor := 0, autoFollow := false)
    case OverviewView =>
      if st.selected.Some? then st.(mode := DetailView, overviewScroll := 0)
      else st.(mode := SessionsView, overviewScroll := 0)
    case EventView => st.(mode := DetailView, selectedEvent := None, eventScroll := 0)
    case SessionsView => st
  }

  /** j/down and the wheel down: the next row, or one line further. */
  function DownStep(st: UiState): UiState
  {
    match st.mode
    case SessionsView => if st.cursor < |st.sessions| - 1 then st.(cursor := st.cursor + 1) else st
    case OverviewView => st.(overviewScroll := st.overviewScroll + 1)
    case DetailView =>
      if st.selected.Some? && st.detailCursor < |st.selected.value.events| - 1
      then st.(detailCursor := st.detailCursor + 1) else st
    case EventView => st.(eventScroll := st.eventScroll + 1)
  }

  /** k/up and the wheel up: the previous row, or one line back; moving up
      in the timeline stops following. */
  function UpStep(st: UiState): UiState
  {
    match st.mode
    case SessionsView => if st.cursor > 0 then st.(cursor := st.cursor - 1) else st
    case OverviewView => if st.overviewScroll > 0 then st.(overviewScroll := st.overviewScroll - 1) else st
    case DetailView =>
      if st.detailCursor > 0 then st.(detailCursor := st.detailCursor - 1, autoFollow := false) else st
    case EventView => if st.eventScroll > 0 then st.(eventScroll := st.eventScroll - 1) else st
  }

  /** g/home: the first row or the top. */
  function HomeStep(st: UiState): UiState
  {
    match st.mode
    case SessionsView => st.(cursor := 0)
    case DetailView => st.(detailCursor := 0)
    case OverviewView => st.(overviewScroll := 0)
    case EventView => st.(eventScroll := 0)
  }

  /** G/end: the last row of the list or of the timeline. */
  function EndStep(st: UiState): UiState
  {
    match st.mode
    case SessionsView => if |st.sessions| > 0 then st.(cursor := |st.sessions| - 1) else st
    case DetailView =>
      if st.selected.Some? && |st.selected.value.events| > 0
      then st.(detailCursor := |st.selected.value.events| - 1) else st
    case _ => st
  }

  /** The stored session of the listed session under the cursor, if any. */
  function SessionUnderCursor(st: UiState, stored: map<string, Session>): (r: Option<Session>)
    requires st.cursor >= 0
    ensures r.Some? <==> st.cursor < |st.sessions| && st.sessions[st.cursor].id in stored
    ensures r.Some? ==> r.value == stored[st.sessions[st.cursor].id]
  {
    if st.cursor < |st.sessions| && st.sessions[st.cursor].id in stored
    then Some(stored[st.sessions[st.cursor].id]) else None
  }

  /** enter/right/space: from the list into the timeline of the session
      under the cursor, at its last event and following; from the timeline
      into the event under the cursor. */
  function OpenStep(st: UiState, stored: map<string, Session>): UiState
    requires st.cursor >= 0 && st.detailCursor >= 0
  {
    match st.mode
    case SessionsView =>
      (match SessionUnderCursor(st, stored)
       case Some(sess) =>
         st.(selected := Some(sess), detailCursor := LastEvent(sess), autoFollow := true, mode := DetailView)
       case None => st)
    case DetailView =>
      if st.selected.Some? && st.detailCursor < |st.selected.value.events|
      then st.(selectedEvent := Some(st.selected.value.events[st.detailCursor]), eventScroll := 0, mode := EventView)
      else st
    case _ => st
  }

  /** s: the summary of the session under the cursor, or of the open one. */
  function SummaryStep(st: UiState, stored: map<string, Session>): UiState
    requires st.cursor >= 0
  {
    match st.mode
    case SessionsView =>
      (match SessionUnderCursor(st, stored)
       case Some(sess) => st.(selected := Some(sess), overviewScroll := 0, mode := OverviewView)
       case None => st)
    case DetailView =>
      if st.selected.Some? then st.(overviewScroll := 0, mode := OverviewView) else st
    case _ => st
  }

  /** f: in the timeline, toggles following; turning it on jumps to the
      last event. */
  function FollowStep(st: UiState): UiState
  {
    if st.mode != DetailView then st
    else if !st.autoFollow && st.selected.Some? then
      st.(autoFollow := true, detailCursor := LastEvent(st.selected.value))
    else st.(autoFollow := !st.autoFollow)
  }

  /** shift+up/pgup: a page back, not before the start; in the timeline it
      stops following. */
  function PageUpStep(st: UiState): UiState
  {
    var ps := PageSize(st.height);
    match st.mode
    case SessionsView => st.(cursor := Max(0, st.cursor - ps))
    case DetailView => st.(detailCursor := Max(0, st.detailCursor - ps), autoFollow := false)
    case OverviewView => st.(overviewScroll := Max(0, st.overviewScroll - ps))
    case EventView => st.(eventScroll := Max(0, st.eventScroll - ps))
  }

  /** shift+down/pgdown: a page on, not past the last row of the list or
      the timeline; the scroll offsets have no upper bound. */
  function PageDownStep(st: UiState): UiState
  {
    var ps := PageSize(st.height);
    match st.mode
    case SessionsView =>
      if |st.sessions| > 0 then st.(cursor := Min(|st.sessions| - 1, st.cursor + ps)) else st
    case DetailView =>
      if st.selected.Some? && |st.selected.value.events| > 0
      then st.(detailCursor := Min(|st.selected.value.events| - 1, st.detailCursor + ps)) else st
    case OverviewView => st.(overviewScroll := st.overviewScroll + ps)
    case EventView => st.(eventScroll := st.eventScroll + ps)
  }

  /** The effect of a key other than r (which reloads from the store, see
      RefreshStep); q and unbound keys change nothing. */
  function KeyStep(st: UiState, k: Key, stored: map<string, Session>): UiState
    requires st.cursor >= 0 && st.detailCursor >= 0
  {
    match k
    case Back => BackStep(st)
    case Down => DownStep(st)
    case Up => UpStep(st)
    case Home => HomeStep(st)
    case End => EndStep(st)
    case Open => OpenStep(st, stored)
    case Summary => SummaryStep(st, stored)
    case Follow => FollowStep(st)
    case PageUp => PageUpStep(st)
    case PageDown => PageDownStep(st)
    case _ => st
  }

  /** The mouse wheel moves as the arrow keys do. */
  function MouseStep(st: UiState, b: MouseButton): UiState
  {
    match b
    case WheelUp => UpStep(st)
    case WheelDown => DownStep(st)
    case OtherButton => st
  }

  /** A session belongs to the project filter by its name or directory. */
  predicate InProject(s: SessionInfo, filter: string) {
    s.projectName == filter || s.projectDir == filter
  }

  /** The sessions of infos in the project, in their order. */
  function Filter(infos: seq<SessionInfo>, filter: string): seq<SessionInfo>
  {
    if infos == [] then []
    else
      var last := infos[|infos| - 1];
      Filter(infos[..|infos| - 1], filter) + (if InProject(last, filter) then [last] else [])
  }

  /** refreshSessions, given the list the store returned: the filtered
      list, the cursor pulled back onto it, and the open session replaced
      by its stored version when the store still has it. */
  function RefreshStep(st: UiState, infos: seq<SessionInfo>, filter: string, stored: map<string, Session>): UiState
  {
    var shown := if filter != "" then Filter(infos, filter) else infos;
    var cursor := if st.cursor >= |shown| then Max(0, |shown| - 1) else st.cursor;
    var selected :=
      if st.selected.Some? && st.selected.value.info.id in stored
      then Some(stored[st.selected.value.info.id]) else st.selected;
    st.(sessions := shown, cursor := cursor, selected := selected)
  }

  /** The reaction to a store update: a refresh, then, in a followed
      timeline, a jump to the last event. */
  function UpdateStep(st: UiState, infos: seq<SessionInfo>, filter: string, stored: map<string, Session>): UiState
  {
    var r := RefreshStep(st, infos, filter, stored);
    if r.mode == DetailView && r.selected.Some? && r.autoFollow
    then r.(detailCursor := LastEvent(r.selected.value)) else r
  }

  // -----------------------------------------------------------------------
  // The model

  class Model {
    const store: Store
    const projectFilter: string
    var mode: ViewMode
    var sessions: seq<SessionInfo>
    var cursor: int
    var selectedSession: Option<Session>
    var detailCursor: int
    var overviewScroll: int
    var selectedEvent: Option<Event>
    var eventScroll: int
    var autoFollow: bool
    var width: int
    var height: int

    function State(): UiState
      reads this
    {
      UiState(mode, sessions, cursor, selectedSession, detailCursor, overviewScroll,
              selectedEvent, eventScroll, autoFollow, width, height)
    }

    ghost predicate Valid()
      reads this, store
    {
      store.Valid() && Inv(State())
    }

    /** NewModel: the empty list view over the store. */
    constructor (store: Store, projectFilter: string)
      requires store.Valid()
      ensures Valid()
      ensures this.store == store && this.projectFilter == projectFilter
      ensures State() == UiState(SessionsView, [], 0, None, 0, 0, None, 0, false, 0, 0)
    {
      this.store := store;
      this.projectFilter := projectFilter;
      mode := SessionsView;
      sessions := [];
      cursor := 0;
      selectedSession := None;
      detailCursor := 0;
      overviewScroll := 0;
      selectedEvent := None;
      eventScroll := 0;
      autoFollow := false;
      width := 0;
      height := 0;
    }

    /** A WindowSizeMsg. */
    method Resize(w: int, h: int)
      requires Valid()
      modifies this
      ensures State() == old(State()).(width := w, height := h)
      ensures Valid()
    {
      width := w;
      height := h;
    }

    method GoBack()
      modifies this
      ensures State() == BackStep(old(State()))
    {
      match mode {
        case DetailView =>
          mode := SessionsView;
          selectedSession := None;
          detailCursor := 0;
          autoFollow := false;
        case OverviewView =>
          if selectedSession.Some? {
            mode := DetailView;
            overviewScroll := 0;
          } else {
            mode := SessionsView;
            overviewScroll := 0;
          }
        case EventView =>
          mode := DetailView;
          selectedEvent := None;
          eventScroll := 0;
        case SessionsView =>
      }
    }

    method MoveDown()
      modifies this
      ensures State() == DownStep(old(State()))
    {
      match mode {
        case SessionsView =>
          if cursor < |sessions| - 1 {
            cursor := cursor + 1;
          }
        case OverviewView =>
          overviewScroll := overviewScroll + 1;
        case DetailView =>
          if selectedSession.Some? && detailCursor < |selectedSession.value.events| - 1 {
            detailCursor := detailCursor + 1;
          }
        case EventView =>
          eventScroll := eventScroll + 1;
      }
    }

    method MoveUp()
      modifies this
      ensures State() == UpStep(old(State()))
    {
      match mode {
        case SessionsView =>
          if cursor > 0 {
            cursor := cursor - 1;
          }
        case OverviewView =>
          if overviewScroll > 0 {
            overviewScroll := overviewScroll - 1;
          }
        case DetailView =>
          if detailCursor > 0 {
            detailCursor := detailCursor - 1;
            autoFollow := false;
          }
        case EventView =>
          if eventScroll > 0 {
            eventScroll := eventScroll - 1;
          }
      }
    }

    method GoHome()
      modifies this
      ensures State() == HomeStep(old(State()))
    {
      match mode {
        case SessionsView => cursor := 0;
        case DetailView => detailCursor := 0;
        case OverviewView => overviewScroll := 0;
        case EventView => eventScroll := 0;
      }
    }

    method GoEnd()
      modifies this
      ensures State() == EndStep(old(State()))
    {
      match mode {
        case SessionsView =>
          if |sessions| > 0 {
            cursor := |sessions| - 1;
          }
        case DetailView =>
          if selectedSession.Some? && |selectedSession.value.events| > 0 {
            detailCursor := |selectedSession.value.events| - 1;
          }
        case _ =>
      }
    }

    method OpenSelected()
      requires cursor >= 0 && detailCursor >= 0
      modifies this
      ensures State() == OpenStep(old(State()), store.sessions)
    {
      match mode {
        case SessionsView =>
          if cursor < |sessions| {
            var info := sessions[cursor];
            var sess := store.GetSession(info.id);
            if sess.Some? {
              selectedSession := sess;
              detailCursor := Max(0, |sess.value.events| - 1);
              autoFollow := true;
              mode := DetailView;
            }
          }
        case DetailView =>
          if selectedSession.Some? && detailCursor < |selectedSession.value.events| {
            var evt := selectedSession.value.events[detailCursor];
            selectedEvent := Some(evt);
            eventScroll := 0;
            mode := EventView;
          }
        case _ =>
      }
    }

    method OpenSummary()
      requires cursor >= 0
      modifies this
      ensures State() == SummaryStep(old(State()), store.sessions)
    {
      match mode {
        case SessionsView =>
          if cursor < |sessions| {
            var info := sessions[cursor];
            var sess := store.GetSession(info.id);
            if sess.Some? {
              selectedSession := sess;
              overviewScroll := 0;
              mode := OverviewView;
            }
          }
        case DetailView =>
          if selectedSession.Some? {
            overviewScroll := 0;
            mode := OverviewView;
          }
        case _ =>
      }
    }

    method ToggleFollow()
      modifies this
      ensures State() == FollowStep(old(State()))
    {
      if mode == DetailView {
        autoFollow := !autoFollow;
        if autoFollow && selectedSession.Some? {
          detailCursor := Max(0, |selectedSession.value.events| - 1);
        }
      }
    }

    method PageBack()
      modifies this
      ensures State() == PageUpStep(old(State()))
    {
      var pageSize := PageSize(height);
      match mode {
        case SessionsView => cursor := Max(0, cursor - pageSize);
        case DetailView =>
          detailCursor := Max(0, detailCursor - pageSize);
          autoFollow := false;
        case OverviewView => overviewScroll := Max(0, overviewScroll - pageSize);
        case EventView => eventScroll := Max(0, eventScroll - pageSize);
      }
    }

    method PageOn()
      modifies this
      ensures State() == PageDownStep(old(State()))
    {
      var pageSize := PageSize(height);
      match mode {
        case SessionsView =>
          if |sessions| > 0 {
            cursor := Min(|sessions| - 1, cursor + pageSize);
          }
        case DetailView =>
          if selectedSession.Some? && |selectedSession.value.events| > 0 {
            detailCursor := Min(|selectedSession.value.events| - 1, detailCursor + pageSize);
          }
        case OverviewView => overviewScroll := overviewScroll + pageSize;
        case EventView => eventScroll := eventScroll + pageSize;
      }
    }

    /** refreshSessions: reload the list from the store.  Which of two
        sessions with the same LastUpdate comes first is up to the sort, so
        the new state is stated for some newest-first listing of the
        store. */
    method RefreshSessions()
      requires Valid()
      modifies this
      ensures Valid()
      ensures exists infos ::
        (Lists(infos, store.sessions) && NewestFirst(infos)
         && State() == RefreshStep(old(State()), infos, projectFilter, store.sessions))
    {
      var infos := store.GetSessions();
      ShowListing(infos);
      RefreshKeepsInv(old(State()), infos, projectFilter, store.sessions);
    }

    /** The rest of refreshSessions, once the store has returned infos. */
    method ShowListing(infos: seq<SessionInfo>)
      modifies this
      ensures State() == RefreshStep(old(State()), infos, projectFilter, store.sessions)
    {
      var shown := infos;
      if projectFilter != "" {
        shown := FilterProject(infos, projectFilter);
      }
      sessions := shown;
      if cursor >= |sessions| {
        cursor := Max(0, |sessions| - 1);
      }
      if selectedSession.Some? {
        var updated := store.GetSession(selectedSession.value.info.id);
        if updated.Some? {
          selectedSession := updated;
        }
      }
    }

    /** handleKey: the action of a key; the result says whether the
        program quits. */
    method HandleKey(k: Key) returns (quit: bool)
      requires Valid()
      modifies this
      ensures Valid()
      ensures quit <==> k == Quit
      ensures k != Refresh ==> State() == KeyStep(old(State()), k, store.sessions)
      ensures k == Refresh ==> exists infos ::
        (Lists(infos, store.sessions) && NewestFirst(infos)
         && State() == RefreshStep(old(State()), infos, projectFilter, store.sessions))
    {
      quit := false;
      ghost var before := State();
      match k {
        case Quit => quit := true;
        case Back => GoBack();
        case Down => MoveDown();
        case Up => MoveUp();
        case Home => GoHome();
        case End => GoEnd();
        case Open => OpenSelected();
        case Summary => OpenSummary();
        case Follow => ToggleFollow();
        case Refresh => RefreshSessions();
        case PageUp => PageBack();
        case PageDown => PageOn();
        case Ignored =>
      }
      if k != Refresh {
        KeyStepKeepsInv(before, k, store.sessions);
      }
    }

    /** handleMouse: the wheel scrolls as the arrow keys do. */
    method HandleMouse(b: MouseButton)
      requires Valid()
      modifies this
      ensures Valid()
      ensures State() == MouseStep(old(State()), b)
    {
      match b {
        case WheelUp => MoveUp();
        case WheelDown => MoveDown();
        case OtherButton =>
      }
      assert MouseStep(old(State()), b) == KeyStep(old(State()), if b == WheelUp then Up else if b == WheelDown then Down else Ignored, store.sessions);
      KeyStepKeepsInv(old(State()), if b == WheelUp then Up else if b == WheelDown then Down else Ignored, store.sessions);
    }

    /** A sessionsUpdatedMsg: refresh, and follow the open timeline. */
    method OnSessionsUpdated()
      requires Valid()
      modifies this
      ensures Valid()
      ensures exists infos ::
        (Lists(infos, store.sessions) && NewestFirst(infos)
         && State() == UpdateStep(old(State()), infos, projectFilter, store.sessions))
    {
      ghost var before := State();
      RefreshSessions();
      ghost var infos :| Lists(infos, store.sessions) && NewestFirst(infos)
        && State() == RefreshStep(before, infos, projectFilter, store.sessions);
      if mode == DetailView && selectedSession.Some? && autoFollow {
        detailCursor := Max(0, |selectedSession.value.events| - 1);
      }
      assert State() == UpdateStep(before, infos, projectFilter, store.sessions);
    }
  }

  /** The project filter loop of refreshSessions. */
  method FilterProject(infos: seq<SessionInfo>, filter: string) returns (filtered: seq<SessionInfo>)
    ensures filtered == Filter(infos, filter)
  {
    filtered := [];
    var i := 0;
    while i < |infos|
      invariant 0 <= i <= |infos|
      invariant filtered == Filter(infos[..i], filter)
    {
      var s := infos[i];
      assert infos[..i + 1][..i] == infos[..i];
      if s.projectName == filter || s.projectDir == filter {
        filtered := filtered + [s];
      }
      i := i + 1;
    }
    assert infos[..i] == infos;
  }

  // -----------------------------------------------------------------------
  // Properties

  /** Every key but r keeps the invariant. */
  lemma KeyStepKeepsInv(st: UiState, k: Key, stored: map<string, Session>)
    requires Inv(st)
    ensures Inv(KeyStep(st, k, stored))
  {
  }

  /** A refresh keeps the invariant: the cursor is pulled back onto the
      new list, or to 0 when it is empty. */
  lemma RefreshKeepsInv(st: UiState, infos: seq<SessionInfo>, filter: string, stored: map<string, Session>)
    requires Inv(st)
    ensures Inv(RefreshStep(st, infos, filter, stored))
    ensures Inv(UpdateStep(st, infos, filter, stored))
  {
  }

  /** In the list view the timeline cursor rests at 0, and whenever a
      session is open the timeline cursor is on one of its events (or 0
      for an empty session). */
  ghost predicate DetailInRange(st: UiState) {
    && (st.mode == SessionsView ==> st.detailCursor == 0)
    && (st.selected.Some? ==> st.detailCursor <= LastEvent(st.selected.value))
  }

  /** Every key but r keeps the timeline cursor on the open session. */
  lemma KeyStepKeepsDetailInRange(st: UiState, k: Key, stored: map<string, Session>)
    requires Inv(st) && DetailInRange(st)
    ensures DetailInRange(KeyStep(st, k, stored))
  {
  }

  /** A refresh does not pull the timeline cursor back: it can be left past
      the last event of a session the store replaced by a shorter one,
      which is why enter checks the bound again. */
  lemma RefreshLeavesDetailCursor(st: UiState, infos: seq<SessionInfo>, filter: string, stored: map<string, Session>)
    requires Inv(st)
    ensures RefreshStep(st, infos, filter, stored).detailCursor == st.detailCursor
    ensures (st.mode == DetailView && st.selected.Some? && st.detailCursor >= |st.selected.value.events|) ==>
      OpenStep(st, stored) == st
  {
  }

  /** The list cursor stays in [0, max(0, n-1)] for a list of n sessions,
      after any key and after a refresh. */
  lemma CursorInList(st: UiState, k: Key, stored: map<string, Session>, infos: seq<SessionInfo>, filter: string)
    requires Inv(st)
    ensures var s := KeyStep(st, k, stored); 0 <= s.cursor <= Max(0, |s.sessions| - 1)
    ensures var s := RefreshStep(st, infos, filter, stored); 0 <= s.cursor <= Max(0, |s.sessions| - 1)
  {
    KeyStepKeepsInv(st, k, stored);
    RefreshKeepsInv(st, infos, filter, stored);
  }

  /** Moving up in the timeline, by a row or a page, stops following. */
  lemma UpwardStopsFollowing(st: UiState, stored: map<string, Session>)
    requires Inv(st) && st.mode == DetailView
    ensures !KeyStep(st, PageUp, stored).autoFollow
    ensures KeyStep(st, Up, stored).detailCursor < st.detailCursor ==> !KeyStep(st, Up, stored).autoFollow
    ensures MouseStep(st, WheelUp) == KeyStep(st, Up, stored)
  {
  }

  /** Turning following on, or an update while following, puts the
      timeline cursor on the last event. */
  lemma FollowJumpsToLast(st: UiState, infos: seq<SessionInfo>, filter: string, stored: map<string, Session>)
    requires st.mode == DetailView && st.selected.Some?
    ensures !st.autoFollow ==>
      FollowStep(st).autoFollow && FollowStep(st).detailCursor == LastEvent(st.selected.value)
    ensures st.autoFollow ==>
      var u := UpdateStep(st, infos, filter, stored);
      u.selected.Some? && u.detailCursor == LastEvent(u.selected.value)
    ensures st.autoFollow ==> FollowStep(st) == st.(autoFollow := false)
  {
  }

  /** Every way into the summary keeps a session selected, so going back
      from the summary always lands on that session's timeline: the branch
      back to the list is never taken, even when the summary was opened
      from the list. */
  lemma BackFromSummaryShowsTimeline(st: UiState, stored: map<string, Session>)
    requires Inv(st) && st.mode == OverviewView
    ensures var b := KeyStep(st, Back, stored);
      b.mode == DetailView && b.selected == st.selected && b.overviewScroll == 0
  {
  }

  /** Opening the summary from the list and going back shows the timeline
      of the session under the cursor, not the list. */
  lemma SummaryFromListThenBack(st: UiState, stored: map<string, Session>)
    requires Inv(st) && st.mode == SessionsView
    requires st.cursor < |st.sessions| && st.sessions[st.cursor].id in stored
    ensures var o := KeyStep(st, Summary, stored);
      && o.mode == OverviewView && Inv(o)
      && KeyStep(o, Back, stored).mode == DetailView
      && KeyStep(o, Back, stored).selected == Some(stored[st.sessions[st.cursor].id])
  {
  }

  /** The overview's footer offers enter and t for the timeline, but
      neither key does anything there. */
  lemma OverviewIgnoresEnterAndT(st: UiState, stored: map<string, Session>)
    requires Inv(st) && st.mode == OverviewView
    ensures KeyStep(st, KeyOf("enter", false), stored) == st
    ensures KeyOf("t", false) == Ignored && KeyStep(st, KeyOf("t", false), stored) == st
  {
  }

  /** Opening the session under the cursor shows its timeline at the last
      event, following; going back then restores the list view. */
  lemma OpenThenBack(st: UiState, stored: map<string, Session>)
    requires Inv(st) && st.mode == SessionsView && st.selected == None && st.detailCursor == 0
    requires st.cursor < |st.sessions| && st.sessions[st.cursor].id in stored
    ensures var o := KeyStep(st, Open, stored);
      && o.mode == DetailView && o.selected == Some(stored[st.sessions[st.cursor].id])
      && o.autoFollow && o.detailCursor == LastEvent(o.selected.value)
      && KeyStep(o, Back, stored) == st.(autoFollow := false)
  {
  }

  /** Opening an event and going back, or opening the summary from the
      timeline and going back, returns to the timeline as it was. */
  lemma DrillDownThenBack(st: UiState, stored: map<string, Session>)
    requires Inv(st) && st.mode == DetailView
    requires st.selectedEvent == None && st.eventScroll == 0 && st.overviewScroll == 0
    ensures var o := KeyStep(st, Open, stored);
      st.detailCursor < |st.selected.value.events| ==>
        (o.mode == EventView && o.selectedEvent == Some(st.selected.value.events[st.detailCursor])
         && KeyStep(o, Back, stored) == st)
    ensures var s := KeyStep(st, Summary, stored);
      s.mode == OverviewView && KeyStep(s, Back, stored) == st
  {
  }

  /** The scroll offsets of the summary and event views grow without an
      upper bound: down adds one line, page down a page. */
  lemma ScrollsAreUnbounded(st: UiState, stored: map<string, Session>)
    requires st.cursor >= 0 && st.detailCursor >= 0
    requires st.mode == OverviewView || st.mode == EventView
    ensures var d := KeyStep(st, Down, stored);
      d.overviewScroll + d.eventScroll == st.overviewScroll + st.eventScroll + 1
    ensures var p := KeyStep(st, PageDown, stored);
      p.overviewScroll + p.eventScroll == st.overviewScroll + st.eventScroll + PageSize(st.height)
  {
  }

  /** The filter keeps exactly the sessions of the project. */
  lemma {:induction false} FilterMembers(infos: seq<SessionInfo>, filter: string, x: SessionInfo)
    ensures x in Filter(infos, filter) <==> x in infos && InProject(x, filter)
  {
    if infos != [] {
      var init := infos[..|infos| - 1];
      FilterMembers(init, filter, x);
      assert infos == init + [infos[|infos| - 1]];
    }
  }

  /** The filter keeps the order: filtering a concatenation concatenates
      the filtered parts. */
  lemma {:induction false} FilterAppend(a: seq<SessionInfo>, b: seq<SessionInfo>, filter: string)
    ensures Filter(a + b, filter) == Filter(a, filter) + Filter(b, filter)
  {
    if b != [] {
      var init := b[..|b| - 1];
      assert (a + b)[..|a + b| - 1] == a + init;
      FilterAppend(a, init, filter);
    } else {
      assert a + b == a;
    }
  }

  /** The filter keeps the newest-first order of the store's listing. */
  lemma {:induction false} FilterNewestFirst(infos: seq<SessionInfo>, filter: string)
    requires NewestFirst(infos)
    ensures NewestFirst(Filter(infos, filter))
  {
    if infos != [] {
      var init := infos[..|infos| - 1];
      var last := infos[|infos| - 1];
      assert NewestFirst(init);
      FilterNewestFirst(init, filter);
      var f := Filter(init, filter);
      forall i | 0 <= i < |f| ensures f[i].lastUpdate >= last.lastUpdate {
        FilterMembers(init, filter, f[i]);
        var j :| 0 <= j < |init| && init[j] == f[i];
      }
    }
  }

  /** A refresh shows the store's sessions of the project (all of them
      without a filter), newest first. */
  lemma RefreshShowsProject(st: UiState, infos: seq<SessionInfo>, filter: string, stored: map<string, Session>, x: SessionInfo)
    requires Lists(infos, stored)
    requires NewestFirst(infos)
    ensures var shown := RefreshStep(st, infos, filter, stored).sessions;
      && (x in shown <==> x.id in stored && stored[x.id].info == x && (filter == "" || InProject(x, filter)))
      && NewestFirst(shown)
  {
    if filter != "" {
      FilterMembers(infos, filter, x);
      FilterNewestFirst(infos, filter);
    }
  }
}
