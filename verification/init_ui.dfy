/** The interactive setup of internal/init/ui.go as a state machine: which
    screen is shown, where the cursor is, what is marked, and what Enter
    does on each screen. Drawing the screens and the bubbletea event loop
    are not modelled. */
module InitUI {
  import opened Outcomes
  import opened Text
  import opened Paths
  import opened FileSystem
  import opened Iteration
  import opened InitScanner
  import opened Init

  /** The screens; `Failed` is the Go code's error state. */
  datatype UIState = OverwriteConfirm | FileSelection | ToolSelection | Confirmation | Processing | Success | Failed

  datatype Cmd = NoCmd | Quit

  /** A key press, by tea.KeyMsg's String(), or any other message. */
  datatype Msg = KeyMsg(key: string) | OtherMsg

  /** A map[int]bool of marks, shared between copies of the model. A
      missing entry reads as false. */
  class Selection {
    var marks: map<nat, bool>

    constructor()
      ensures marks == map[]
    {
      marks := map[];
    }

    predicate Marked(i: nat)
      reads this
    {
      i in marks && marks[i]
    }

    /** Flips one mark. */
    method Toggle(i: nat)
      modifies this
      ensures marks == old(marks)[i := !old(Marked(i))]
    {
      marks := marks[i := !(i in marks && marks[i])];
    }
  }

  /** initModel. The model is a value; the InitState and the two selection
      maps it points to are shared by every copy. */
  datatype Model = Model(
    state: UIState,
    initState: InitState,
    cursor: nat,
    fileSelection: Selection,
    toolSelection: Selection,
    allTools: seq<string>,
    err: Option<Error>)

  /** getMaxCursor: the last cursor position of the screen. */
  function MaxCursor(m: Model): int
    reads m.initState
  {
    match m.state
    case OverwriteConfirm => 1
    case FileSelection => |m.initState.existingFiles| - 1
    case ToolSelection => |m.allTools| - 1
    case Confirmation => 1
    case _ => 0
  }

  /** The two yes/no screens have two entries, the selection screens one
      per listed file or tool, the other screens none to move between. */
  lemma MaxCursorPerScreen(m: Model)
    ensures m.state in {OverwriteConfirm, Confirmation} ==> MaxCursor(m) == 1
    ensures m.state == FileSelection ==> MaxCursor(m) + 1 == |m.initState.existingFiles|
    ensures m.state == ToolSelection ==> MaxCursor(m) + 1 == |m.allTools|
    ensures m.state in {Processing, Success, Failed} ==> MaxCursor(m) == 0
  {
  }

  /** What holds of every model the program can reach: the cursor stays on
      the screen's entries, the file screen only shows when there are files,
      the two selections are distinct maps, and Processing is never seen
      between two messages. */
  ghost predicate Valid(m: Model)
    reads m.initState
  {
    && m.cursor <= (if MaxCursor(m) < 0 then 0 else MaxCursor(m))
    && (m.state == FileSelection ==> |m.initState.existingFiles| > 0)
    && m.fileSelection != m.toolSelection
    && m.state != Processing
  }

  /** The first screen: the overwrite question when `.system_prompt`
      already exists, otherwise file selection when there are files to
      import, and tool selection when there are none. */
  function FirstScreen(s: InitState): (u: UIState)
    reads s
    ensures u == OverwriteConfirm <==> !s.overwriteConfirmed
    ensures u == FileSelection <==> s.overwriteConfirmed && |s.existingFiles| > 0
    ensures u == ToolSelection <==> s.overwriteConfirmed && |s.existingFiles| == 0
  {
    if s.overwriteConfirmed then
      if |s.existingFiles| > 0 then FileSelection else ToolSelection
    else OverwriteConfirm
  }

  /** runInteractiveInit up to starting the program: the known tool names,
      sorted, fresh empty selections, and the first screen. */
  method InitialModel(initState: InitState, table: map<string, ToolPaths>, order: seq<string>) returns (m: Model)
    requires Enumerates(order, table.Keys)
    ensures fresh(m.fileSelection) && fresh(m.toolSelection)
    ensures m.fileSelection.marks == map[] && m.toolSelection.marks == map[]
    ensures m.initState == initState && m.cursor == 0 && m.err == None
    ensures m.state == FirstScreen(initState)
    ensures Sorted(m.allTools) && multiset(m.allTools) == multiset(order)
    ensures Valid(m)
  {
    var allTools: seq<string> := [];
    for i := 0 to |order|
      invariant allTools == order[..i]
    {
      allTools := allTools + [order[i]];
    }
    assert order[..|order|] == order;
    allTools := SortStrings(allTools);
    var fileSelection := new Selection();
    var toolSelection := new Selection();
    m := Model(FirstScreen(initState), initState, 0, fileSelection, toolSelection, allTools, None);
  }

  /** The tool list does not depend on the order the map was visited in. */
  lemma AllToolsOrderFree(keys: set<string>, o1: seq<string>, o2: seq<string>, a1: seq<string>, a2: seq<string>)
    requires Enumerates(o1, keys) && Enumerates(o2, keys)
    requires Sorted(a1) && multiset(a1) == multiset(o1)
    requires Sorted(a2) && multiset(a2) == multiset(o2)
    ensures a1 == a2
  {
    EnumerationsSameMultiset(o1, o2, keys);
    SortedUnique(a1, a2);
  }

  // ---------------------------------------------------------------------
  // Collecting the marked entries

  /** The marked indices below `n`. */
  ghost function Chosen(marks: map<nat, bool>, n: nat): set<nat> {
    set i | i in marks && marks[i] && i < n
  }

  /** `out` lists `items` at the marked in-range indices, each once, in the
      order `order` visited them. */
  ghost predicate PicksOf<T>(out: seq<T>, items: seq<T>, marks: map<nat, bool>, order: seq<nat>) {
    && (forall a, b :: 0 <= a < b < |order| ==> order[a] != order[b])
    && (forall i :: i in order <==> i in Chosen(marks, |items|))
    && |out| == |order|
    && (forall k :: 0 <= k < |order| ==> order[k] < |items| && out[k] == items[order[k]])
  }

  /** The loop of handleEnter over a selection map, in the order Go's
      `range` visits the map (any order). */
  method CollectSelected<T>(marks: map<nat, bool>, items: seq<T>) returns (out: seq<T>, ghost order: seq<nat>)
    ensures PicksOf(out, items, marks, order)
  {
    out, order := [], [];
    var remaining := marks.Keys;
    while remaining != {}
      invariant remaining <= marks.Keys
      invariant forall a, b :: 0 <= a < b < |order| ==> order[a] != order[b]
      invariant forall i :: i in order <==> i in Chosen(marks, |items|) && i !in remaining
      invariant |out| == |order|
      invariant forall k :: 0 <= k < |order| ==> order[k] < |items| && out[k] == items[order[k]]
      decreases |remaining|
    {
      var i :| i in remaining;
      if marks[i] && i < |items| {
        out := out + [items[i]];
        order := order + [i];
      }
      remaining := remaining - {i};
    }
  }

  /** Nothing is picked from an empty list, and everything picked was marked. */
  lemma PicksMarked<T>(out: seq<T>, items: seq<T>, marks: map<nat, bool>, order: seq<nat>)
    requires PicksOf(out, items, marks, order)
    ensures items == [] ==> out == []
    ensures forall k :: 0 <= k < |out| ==> order[k] in marks && marks[order[k]] && out[k] == items[order[k]]
  {
    forall k | 0 <= k < |out| ensures order[k] in marks && marks[order[k]] && order[k] < |items| {
      assert order[k] in order;
    }
    if out != [] {
      assert order[0] < |items|;
    }
  }

  // ---------------------------------------------------------------------
  // Processing

  /** processInit: create the directory, then 001_default.md, then
      settings.toml; the first failure stops there. */
  function ProcessOutcome(dir: string, files: seq<ExistingFile>, tools: seq<string>, d: Disk): WriteOutcome {
    var c := CreatedDir(dir, d);
    if c.err.Some? then c
    else
      var w := WriteNamed(dir, DefaultFileName, ImportedContent(files), c.disk);
      if w.err.Some? then w
      else WriteNamed(dir, SettingsFileName, SettingsText(tools), w.disk)
  }

  /** After a successful run the directory holds both files with their
      contents. */
  lemma ProcessSuccess(dir: string, files: seq<ExistingFile>, tools: seq<string>, d: Disk)
    requires ProcessOutcome(dir, files, tools, d).err.None?
    ensures var n := ProcessOutcome(dir, files, tools, d).disk.nodes;
      && dir in n && n[dir] == Directory
      && Join(dir, DefaultFileName) in n && n[Join(dir, DefaultFileName)] == File(ImportedContent(files))
      && Join(dir, SettingsFileName) in n && n[Join(dir, SettingsFileName)] == File(SettingsText(tools))
  {
    assert |Join(dir, DefaultFileName)| != |Join(dir, SettingsFileName)|;
    assert Join(dir, DefaultFileName) != dir && Join(dir, SettingsFileName) != dir;
  }

  /** A failed run reports the first failing step's error, and a step that
      fails leaves the disk as the previous step left it. */
  lemma ProcessFailure(dir: string, files: seq<ExistingFile>, tools: seq<string>, d: Disk)
    requires ProcessOutcome(dir, files, tools, d).err.Some?
    ensures var r := ProcessOutcome(dir, files, tools, d);
      || (MkdirAll(d, dir).Err? && r == WriteOutcome(Some(MkdirFailed(dir)), d))
      || (MkdirAll(d, dir).Ok? && r.err == Some(WriteFailed(DefaultFileName)) && r.disk == MkdirAll(d, dir).value)
      || (MkdirAll(d, dir).Ok? && r.err == Some(WriteFailed(SettingsFileName)))
  {
  }

  method ProcessInit(m: Model, d: Disk) returns (m': Model, cmd: Cmd, d': Disk)
    ensures var r := ProcessOutcome(m.initState.systemPromptDir, m.initState.selectedFiles, m.initState.selectedTools, d);
      && m' == m.(state := if r.err.None? then Success else Failed, err := if r.err.None? then m.err else r.err)
      && cmd == (if r.err.None? then Quit else NoCmd)
      && d' == r.disk
  {
    var s := m.initState;
    m' := m.(state := Processing);
    var c := s.CreateSystemPromptDir(d);
    if c.err.Some? {
      return m'.(state := Failed, err := c.err), NoCmd, c.disk;
    }
    var w := s.WriteDefaultFile(c.disk);
    if w.err.Some? {
      return m'.(state := Failed, err := w.err), NoCmd, w.disk;
    }
    var t := s.WriteSettingsFile(w.disk);
    if t.err.Some? {
      return m'.(state := Failed, err := t.err), NoCmd, t.disk;
    }
    return m'.(state := Success), Quit, t.disk;
  }

  // ---------------------------------------------------------------------
  // Update

  /** handleEnter. */
  method HandleEnter(m: Model, d: Disk) returns (m': Model, cmd: Cmd, d': Disk, ghost picked: seq<nat>)
    modifies m.initState
    ensures m.state == OverwriteConfirm && m.cursor == 0 ==>
      && m.initState.overwriteConfirmed
      && m' == m.(state := if |m.initState.existingFiles| > 0 then FileSelection else ToolSelection)
      && cmd == NoCmd && d' == d
    ensures (m.state == OverwriteConfirm || m.state == Confirmation) && m.cursor != 0 ==>
      m' == m && cmd == Quit && d' == d && unchanged(m.initState)
    ensures m.state == FileSelection ==>
      && PicksOf(m.initState.selectedFiles, m.initState.existingFiles, m.fileSelection.marks, picked)
      && m' == m.(state := ToolSelection, cursor := 0)
      && cmd == NoCmd && d' == d
    ensures m.state == ToolSelection ==>
      && PicksOf(m.initState.selectedTools, m.allTools, m.toolSelection.marks, picked)
      && m' == m.(state := Confirmation, cursor := 0)
      && cmd == NoCmd && d' == d
    ensures m.state == Confirmation && m.cursor == 0 ==>
      var r := ProcessOutcome(m.initState.systemPromptDir, m.initState.selectedFiles, m.initState.selectedTools, d);
      && m' == m.(state := if r.err.None? then Success else Failed, err := if r.err.None? then m.err else r.err)
      && cmd == (if r.err.None? then Quit else NoCmd)
      && d' == r.disk
      && unchanged(m.initState)
    ensures m.state in {Processing, Success, Failed} ==> m' == m && cmd == NoCmd && d' == d && unchanged(m.initState)
    ensures m.initState.workDir == old(m.initState.workDir)
    ensures m.initState.systemPromptDir == old(m.initState.systemPromptDir)
    ensures m.initState.existingFiles == old(m.initState.existingFiles)
    ensures m.state != FileSelection ==> m.initState.selectedFiles == old(m.initState.selectedFiles)
    ensures m.state != ToolSelection ==> m.initState.selectedTools == old(m.initState.selectedTools)
    ensures m.state != OverwriteConfirm ==> m.initState.overwriteConfirmed == old(m.initState.overwriteConfirmed)
    ensures old(Valid(m)) ==> Valid(m')
  {
    m', cmd, d', picked := m, NoCmd, d, [];
    var s := m.initState;
    match m.state {
      case OverwriteConfirm =>
        if m.cursor == 0 {
          s.overwriteConfirmed := true;
          if |s.existingFiles| > 0 {
            m' := m.(state := FileSelection);
          } else {
            m' := m.(state := ToolSelection);
          }
        } else {
          cmd := Quit;
        }
      case FileSelection =>
        var selectedFiles;
        selectedFiles, picked := CollectSelected(m.fileSelection.marks, s.existingFiles);
        s.selectedFiles := selectedFiles;
        m' := m.(state := ToolSelection, cursor := 0);
      case ToolSelection =>
        var selectedTools;
        selectedTools, picked := CollectSelected(m.toolSelection.marks, m.allTools);
        s.selectedTools := selectedTools;
        m' := m.(state := Confirmation, cursor := 0);
      case Confirmation =>
        if m.cursor == 0 {
          m', cmd, d' := ProcessInit(m, d);
        } else {
          cmd := Quit;
        }
      case _ =>
    }
  }

  predicate IsKey(msg: Msg, keys: set<string>) {
    msg.KeyMsg? && msg.key in keys
  }

  /** Update. Quit keys quit from anywhere; up/k and down/j move the cursor
      within the screen; space flips the mark under the cursor on the two
      selection screens; enter is handleEnter; anything else is ignored. */
  method Update(m: Model, msg: Msg, d: Disk) returns (m': Model, cmd: Cmd, d': Disk, ghost picked: seq<nat>)
    requires m.fileSelection != m.toolSelection
    modifies m.initState, m.fileSelection, m.toolSelection
    ensures IsKey(msg, {"ctrl+c", "q"}) ==>
      m' == m && cmd == Quit && d' == d && unchanged(m.initState, m.fileSelection, m.toolSelection)
    ensures IsKey(msg, {"up", "k"}) ==>
      && m' == m.(cursor := if m.cursor > 0 then m.cursor - 1 else m.cursor)
      && cmd == NoCmd && d' == d && unchanged(m.initState, m.fileSelection, m.toolSelection)
    ensures IsKey(msg, {"down", "j"}) ==>
      && m' == m.(cursor := if m.cursor < MaxCursor(m) then m.cursor + 1 else m.cursor)
      && cmd == NoCmd && d' == d && unchanged(m.initState, m.fileSelection, m.toolSelection)
    ensures IsKey(msg, {" "}) ==>
      && m' == m && cmd == NoCmd && d' == d && unchanged(m.initState)
      && (m.state == FileSelection ==>
            m.fileSelection.marks == old(m.fileSelection.marks)[m.cursor := !old(m.fileSelection.Marked(m.cursor))]
            && unchanged(m.toolSelection))
      && (m.state == ToolSelection ==>
            m.toolSelection.marks == old(m.toolSelection.marks)[m.cursor := !old(m.toolSelection.Marked(m.cursor))]
            && unchanged(m.fileSelection))
      && (m.state !in {FileSelection, ToolSelection} ==> unchanged(m.fileSelection, m.toolSelection))
    ensures IsKey(msg, {"enter"}) ==> unchanged(m.fileSelection, m.toolSelection)
    ensures IsKey(msg, {"enter"}) && m.state == OverwriteConfirm && m.cursor == 0 ==>
      && m.initState.overwriteConfirmed
      && m' == m.(state := if |m.initState.existingFiles| > 0 then FileSelection else ToolSelection)
      && cmd == NoCmd && d' == d
    ensures IsKey(msg, {"enter"}) && (m.state == OverwriteConfirm || m.state == Confirmation) && m.cursor != 0 ==>
      m' == m && cmd == Quit && d' == d && unchanged(m.initState)
    ensures IsKey(msg, {"enter"}) && m.state == FileSelection ==>
      && PicksOf(m.initState.selectedFiles, m.initState.existingFiles, m.fileSelection.marks, picked)
      && m' == m.(state := ToolSelection, cursor := 0)
      && cmd == NoCmd && d' == d
    ensures IsKey(msg, {"enter"}) && m.state == ToolSelection ==>
      && PicksOf(m.initState.selectedTools, m.allTools, m.toolSelection.marks, picked)
      && m' == m.(state := Confirmation, cursor := 0)
      && cmd == NoCmd && d' == d
    ensures IsKey(msg, {"enter"}) && m.state == Confirmation && m.cursor == 0 ==>
      var r := ProcessOutcome(m.initState.systemPromptDir, m.initState.selectedFiles, m.initState.selectedTools, d);
      && m' == m.(state := if r.err.None? then Success else Failed, err := if r.err.None? then m.err else r.err)
      && cmd == (if r.err.None? then Quit else NoCmd)
      && d' == r.disk
    ensures IsKey(msg, {"enter"}) && m.state in {Processing, Success, Failed} ==>
      m' == m && cmd == NoCmd && d' == d && unchanged(m.initState)
    ensures !IsKey(msg, {"ctrl+c", "q", "up", "k", "down", "j", " ", "enter"}) ==>
      m' == m && cmd == NoCmd && d' == d && unchanged(m.initState, m.fileSelection, m.toolSelection)
    ensures m.initState.workDir == old(m.initState.workDir)
    ensures m.initState.systemPromptDir == old(m.initState.systemPromptDir)
    ensures m.initState.existingFiles == old(m.initState.existingFiles)
    ensures !(IsKey(msg, {"enter"}) && m.state == FileSelection) ==>
      m.initState.selectedFiles == old(m.initState.selectedFiles)
    ensures !(IsKey(msg, {"enter"}) && m.state == ToolSelection) ==>
      m.initState.selectedTools == old(m.initState.selectedTools)
    ensures !(IsKey(msg, {"enter"}) && m.state == OverwriteConfirm) ==>
      m.initState.overwriteConfirmed == old(m.initState.overwriteConfirmed)
    ensures old(Valid(m)) ==> Valid(m')
  {
    m', cmd, d', picked := m, NoCmd, d, [];
    if IsKey(msg, {"ctrl+c", "q"}) {
      cmd := Quit;
    } else if IsKey(msg, {"up", "k"}) {
      if m.cursor > 0 {
        m' := m.(cursor := m.cursor - 1);
      }
    } else if IsKey(msg, {"down", "j"}) {
      var maxCursor := MaxCursor(m);
      if m.cursor < maxCursor {
        m' := m.(cursor := m.cursor + 1);
      }
    } else if IsKey(msg, {" "}) {
      ToggleSelection(m);
    } else if IsKey(msg, {"enter"}) {
      m', cmd, d', picked := HandleEnter(m, d);
    }
  }

  /** toggleSelection. */
  method ToggleSelection(m: Model)
    requires m.fileSelection != m.toolSelection
    modifies m.fileSelection, m.toolSelection
    ensures m.state == FileSelection ==>
      m.fileSelection.marks == old(m.fileSelection.marks)[m.cursor := !old(m.fileSelection.Marked(m.cursor))]
      && unchanged(m.toolSelection)
    ensures m.state == ToolSelection ==>
      m.toolSelection.marks == old(m.toolSelection.marks)[m.cursor := !old(m.toolSelection.Marked(m.cursor))]
      && unchanged(m.fileSelection)
    ensures m.state !in {FileSelection, ToolSelection} ==> unchanged(m.fileSelection, m.toolSelection)
  {
    if m.state == FileSelection {
      m.fileSelection.Toggle(m.cursor);
    } else if m.state == ToolSelection {
      m.toolSelection.Toggle(m.cursor);
    }
  }
}
