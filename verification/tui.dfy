/** The generator's terminal UI (internal/ui/tui.go) as a transition
    function: a model value and a message give the next model, the command
    to run, and the disk after any write. Drawing the screen and the
    bubbletea event loop are not modelled. */
module Tui {
  import opened Outcomes
  import opened FileSystem
  import opened Config
  import opened Iteration
  import opened Generator

  /** The screens; `Failed` is the Go code's stateError. */
  datatype TuiState = Loading | Success | Failed

  /** A key press by tea.KeyMsg's String(), the result of collecting the
      prompt files, or any other message. */
  datatype Msg = KeyMsg(key: string) | Generated(files: seq<PromptFile>, err: Option<Error>) | OtherMsg

  /** `Collect` is the command generatePrompts returns. */
  datatype Cmd = NoCmd | Quit | Collect

  datatype Model = Model(config: Config, files: seq<PromptFile>, state: TuiState, err: Option<Error>, content: string)

  datatype Step = Step(model: Model, cmd: Cmd, disk: Disk)

  /** initialModel: loading, nothing collected, no error, no content. */
  function InitialModel(cfg: Config): (m: Model)
    ensures m.config == cfg && m.state == Loading
    ensures m.files == [] && m.err == None && m.content == ""
    ensures Consistent(m)
  {
    Model(cfg, [], Loading, None, "")
  }

  /** What the screens rely on: a success screen shows the document its
      files render to, and an error screen has an error to show. */
  predicate Consistent(m: Model) {
    && (m.state == Success ==> m.content == Render(m.config.header, m.config.footer, m.files))
    && (m.state == Failed ==> m.err.Some?)
  }

  predicate IsKey(msg: Msg, keys: set<string>) {
    msg.KeyMsg? && msg.key in keys
  }

  /** A message no case of Update reacts to: any other key, enter or space
      away from the success screen, r away from the error screen. */
  predicate Ignored(m: Model, msg: Msg) {
    && !IsKey(msg, {"ctrl+c", "q"})
    && !(IsKey(msg, {"enter", " "}) && m.state == Success)
    && !(IsKey(msg, {"r"}) && m.state == Failed)
    && !msg.Generated?
  }

  /** Update. `order` is the order in which WriteOutputFiles visits the
      custom tools, should this message write. */
  function Update(m: Model, msg: Msg, d: Disk, order: seq<string>): (s: Step)
    requires m.config.settings.Some? ==> Enumerates(order, m.config.settings.value.custom.Keys)
    ensures IsKey(msg, {"ctrl+c", "q"}) ==> s == Step(m, Quit, d)
    ensures IsKey(msg, {"enter", " "}) && m.state == Success ==>
      var w := WriteOutputs(m.config, m.content, d, order);
      && s.disk == w.disk
      && (w.err.None? ==> s.model == m && s.cmd == Quit)
      && (w.err.Some? ==> s.model == m.(state := Failed, err := w.err) && s.cmd == NoCmd)
    ensures IsKey(msg, {"r"}) && m.state == Failed ==> s == Step(m.(state := Loading), Collect, d)
    ensures msg.Generated? && msg.err.Some? ==> s == Step(m.(state := Failed, err := msg.err), NoCmd, d)
    ensures msg.Generated? && msg.err.None? ==>
      && s.model == m.(files := msg.files, content := Render(m.config.header, m.config.footer, msg.files), state := Success)
      && s.cmd == NoCmd && s.disk == d
    ensures s.disk != d ==> IsKey(msg, {"enter", " "}) && m.state == Success
    ensures s.cmd == Collect <==> IsKey(msg, {"r"}) && m.state == Failed
    ensures Ignored(m, msg) ==> s == Step(m, NoCmd, d)
  {
    match msg
    case KeyMsg(key) =>
      if key == "ctrl+c" || key == "q" then Step(m, Quit, d)
      else if key == "enter" || key == " " then
        if m.state == Success then
          var w := WriteOutputs(m.config, m.content, d, order);
          if w.err.Some? then Step(m.(state := Failed, err := w.err), NoCmd, w.disk)
          else Step(m, Quit, w.disk)
        else Step(m, NoCmd, d)
      else if key == "r" then
        if m.state == Failed then Step(m.(state := Loading), Collect, d)
        else Step(m, NoCmd, d)
      else Step(m, NoCmd, d)
    case Generated(files, err) =>
      if err.Some? then Step(m.(state := Failed, err := err), NoCmd, d)
      else Step(m.(files := files, content := Render(m.config.header, m.config.footer, files), state := Success), NoCmd, d)
    case OtherMsg => Step(m, NoCmd, d)
  }

  /** Every transition keeps the model consistent, so a success screen always
      shows (and writes) exactly the document its files render to. */
  lemma UpdateKeepsConsistent(m: Model, msg: Msg, d: Disk, order: seq<string>)
    requires m.config.settings.Some? ==> Enumerates(order, m.config.settings.value.custom.Keys)
    requires Consistent(m)
    ensures Consistent(Update(m, msg, d, order).model)
    ensures Update(m, msg, d, order).model.config == m.config
  {
  }

  /** Running the collect command: CollectPromptFiles' outcome as a message. */
  method GeneratePrompts(cfg: Config, entries: seq<WalkEntry>, d: Disk, matches: Matcher) returns (msg: Msg)
    ensures msg.Generated?
    ensures Walked(cfg.excludeFiles, matches, d, entries).Err? ==>
      msg.err == Some(Walked(cfg.excludeFiles, matches, d, entries).error) && msg.files == []
    ensures Walked(cfg.excludeFiles, matches, d, entries).Ok? ==>
      && msg.err == None
      && SortedByFilename(msg.files)
      && multiset(msg.files) == multiset(Walked(cfg.excludeFiles, matches, d, entries).value)
  {
    var r := CollectPromptFiles(cfg, entries, d, matches);
    if r.Err? {
      return Generated([], Some(r.error));
    }
    return Generated(r.value, None);
  }

  /** Loading, collecting successfully and confirming writes the rendered
      document to every target and quits. */
  lemma CollectThenWrite(cfg: Config, files: seq<PromptFile>, d: Disk, order: seq<string>)
    requires cfg.settings.Some? ==> Enumerates(order, cfg.settings.value.custom.Keys)
    requires WriteOutputs(cfg, Render(cfg.header, cfg.footer, files), d, order).err.None?
    ensures var s1 := Update(InitialModel(cfg), Generated(files, None), d, order);
      var s2 := Update(s1.model, KeyMsg("enter"), s1.disk, order);
      && s2.cmd == Quit
      && s2.disk == WriteOutputs(cfg, Render(cfg.header, cfg.footer, files), d, order).disk
  {
  }
}
