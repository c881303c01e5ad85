/** The browser window (`BrowserView.BrowserForm`) as an immutable record, with
    one pure transition per event handler. Toolkit properties are independent
    fields; calls out to the toolkit, the browser control and Win32 are recorded
    as effects rather than interpreted. */
module BrowserForm {
  import opened Toolkit

  /** The arguments `create_window` hands to the form's constructor.
      `readyAlreadySet` is the state of the caller's `ready` event when it is
      handed over: the constructor stores the event and never clears it. */
  datatype Config = Config(
    title: string,
    url: string,
    width: int,
    height: int,
    resizable: bool,
    fullscreen: bool,
    minSize: Size,
    confirmQuit: bool,
    backgroundColor: string,
    flags: int,
    x: int,
    y: int,
    readyAlreadySet: bool)

  /** The four properties saved on entering fullscreen and restored on leaving it. */
  datatype Snapshot = Snapshot(size: Size, state: WindowState, style: BorderStyle, location: Point)

  /** `is_fullscreen` together with the `old_*` fields: a snapshot exists exactly
      while the window is fullscreen. */
  datatype Mode = Windowed | Fullscreen(saved: Snapshot)

  datatype Form = Form(
    size: Size,
    minimumSize: Size,
    backColor: string,
    flags: int,
    location: Point,
    windowState: WindowState,
    borderStyle: BorderStyle,
    topMost: bool,
    maximizeBox: bool,
    mode: Mode,
    browserVisible: bool,
    firstLoad: bool,
    cancelBack: bool,
    ready: bool,
    confirmQuit: bool)
  {
    /** The properties a fullscreen snapshot captures, as they are now. */
    function Snap(): Snapshot {
      Snapshot(size, windowState, borderStyle, location)
    }

    predicate IsFullscreen() {
      mode.Fullscreen?
    }
  }

  /** Edit commands forwarded to the hosted document. */
  datatype EditCommand = Copy | Cut | Paste | Undo

  /** Actions a handler performs beyond updating the form's own fields. */
  datatype Effect =
    | Navigate(url: string)                 // `web_browser.Navigate`
    | ExecCommand(command: EditCommand)     // `Document.ExecCommand`
    | CancelNavigation                      // `args.Cancel = True` in `Navigating`
    | AssignTopMost(topMost: bool)          // a write to `TopMost`
    | PositionWindow(bounds: Rect, flags: int) // `user32.SetWindowPos`

  /** A handler's outcome: the new form and what it did, in order. */
  datatype Step = Step(form: Form, effects: seq<Effect>)

  /** The control-key shortcuts and the command each one forwards. */
  const Shortcuts: map<int, EditCommand> :=
    map[KeyC := Copy, KeyX := Cut, KeyV := Paste, KeyZ := Undo]

  /** `toggle_fullscreen`. Entering snapshots the four properties, drops the
      border, takes the primary screen's bounds, maximises, and asks Win32 to
      place the window over the display it is on; leaving restores the snapshot. */
  function ToggleFullscreen(f: Form, screens: Screens): (r: Step)
    ensures r.form.IsFullscreen() != f.IsFullscreen()
    ensures !f.IsFullscreen() ==>
              && r.form.mode == Fullscreen(f.Snap())
              && r.form.borderStyle == Borderless
              && r.form.windowState == Maximized
              && r.form.size == screens.primary.size
              && r.form.location == screens.primary.location
              && r.effects == [PositionWindow(screens.current, f.flags)]
    ensures f.IsFullscreen() ==> r.form.Snap() == f.mode.saved && r.effects == []
    // nothing outside the snapshot and the mode changes
    ensures r.form.(size := f.size, windowState := f.windowState, borderStyle := f.borderStyle,
                    location := f.location, mode := f.mode) == f
  {
    match f.mode
    case Windowed =>
      var entered := f.(mode := Fullscreen(f.Snap()),
                        borderStyle := Borderless,
                        size := screens.primary.size,
                        location := screens.primary.location,
                        windowState := Maximized);
      Step(entered, [PositionWindow(screens.current, f.flags)])
    case Fullscreen(saved) =>
      Step(f.(size := saved.size, windowState := saved.state, borderStyle := saved.style,
              location := saved.location, mode := Windowed), [])
  }

  /** The constructor's work once the form's location is fixed: defaults of a new
      form, then the assignments in source order, the initial navigation and the
      initial fullscreen toggle. */
  function Construct(cfg: Config, screens: Screens, location: Point): (r: Step)
    ensures r.form.borderStyle == Borderless
    ensures r.form.maximizeBox <==> cfg.resizable
    ensures r.form.topMost
    ensures r.form.IsFullscreen() <==> cfg.fullscreen
    ensures r.form.windowState == (if cfg.fullscreen then Maximized else Normal)
    ensures !r.form.browserVisible && r.form.firstLoad && !r.form.cancelBack
    ensures r.form.ready == cfg.readyAlreadySet
    ensures r.form.confirmQuit == cfg.confirmQuit
    ensures r.form.flags == cfg.flags && r.form.minimumSize == cfg.minSize && r.form.backColor == cfg.backgroundColor
    ensures cfg.fullscreen ==> r.form.size == screens.primary.size && r.form.location == screens.primary.location
    // the initial navigation, if a URL was given, then the placement of a fullscreen start
    ensures r.effects == (if cfg.url != "" then [Navigate(cfg.url)] else [])
                         + (if cfg.fullscreen then [PositionWindow(screens.current, cfg.flags)] else [])
    ensures cfg.fullscreen ==> r.form.mode.saved == Snapshot(Size(cfg.width, cfg.height), Normal, Borderless, location)
    ensures !cfg.fullscreen ==> r.form.Snap() == Snapshot(Size(cfg.width, cfg.height), Normal, Borderless, location)
  {
    var blank := Form(
      size := Size(cfg.width, cfg.height),
      minimumSize := cfg.minSize,
      backColor := cfg.backgroundColor,
      flags := cfg.flags,
      location := location,
      windowState := Normal,
      borderStyle := Sizable,
      topMost := true,
      maximizeBox := true,
      mode := Windowed,
      browserVisible := false,
      firstLoad := true,
      cancelBack := false,
      ready := cfg.readyAlreadySet,
      confirmQuit := cfg.confirmQuit);
    var fixed := if !cfg.resizable then blank.(borderStyle := FixedSingle, maximizeBox := false) else blank;
    var styled := fixed.(borderStyle := Borderless);
    var navigation := if cfg.url != "" then [Navigate(cfg.url)] else [];
    if cfg.fullscreen then
      var toggled := ToggleFullscreen(styled, screens);
      Step(toggled.form, navigation + toggled.effects)
    else
      assert navigation + [] == navigation;
      Step(styled, navigation)
  }

  /** `BrowserForm.__init__` as written. The position is assigned through
      `self.Location.X = x`, which under Python.NET writes into a boxed copy of
      the `Point` value, so the form keeps the location the toolkit gave it. */
  function InitAsWritten(cfg: Config, screens: Screens, toolkitLocation: Point): (r: Step)
    ensures cfg.fullscreen ==> r.form.mode.Fullscreen? && r.form.mode.saved.location == toolkitLocation
    ensures !cfg.fullscreen ==> r.form.location == toolkitLocation
  {
    Construct(cfg, screens, toolkitLocation)
  }

  /** `BrowserForm.__init__` as evidently intended: the window starts at (x, y). */
  function Init(cfg: Config, screens: Screens): (r: Step)
    ensures cfg.fullscreen ==> r.form.mode.Fullscreen? && r.form.mode.saved.location == Point(cfg.x, cfg.y)
    ensures !cfg.fullscreen ==> r.form.location == Point(cfg.x, cfg.y)
  {
    Construct(cfg, screens, Point(cfg.x, cfg.y))
  }

  /** `on_shown`: sets the shared `ready` event, which only ever goes from unset to set. */
  function OnShown(f: Form): (r: Form)
    ensures r.ready
    ensures r.(ready := f.ready) == f
  {
    f.(ready := true)
  }

  /** The `FormClosing` decision: the handler exists only when `confirm_quit` was
      given, and it cancels the close exactly when the confirmation box answers
      Cancel. The box's answer is an input. */
  function CloseProceeds(f: Form, answer: DialogResult): (proceeds: bool)
    ensures !f.confirmQuit ==> proceeds
    ensures f.confirmQuit ==> (proceeds <==> answer != Cancel)
  {
    !(f.confirmQuit && answer == Cancel)
  }

  /** `on_preview_keydown`: Backspace, whatever the modifiers, arms the flag that
      cancels the next navigation; Control alone with C, X, V or Z forwards the
      matching edit command; every other key does nothing. */
  function OnPreviewKeyDown(f: Form, key: KeyEvent): (r: Step)
    ensures key.keyCode == BackKey ==> r.form == f.(cancelBack := true) && r.effects == []
    ensures key.keyCode != BackKey && key.modifiers == ControlModifier && key.keyCode in Shortcuts ==>
              r.form == f && r.effects == [ExecCommand(Shortcuts[key.keyCode])]
    ensures key.keyCode != BackKey && !(key.modifiers == ControlModifier && key.keyCode in Shortcuts) ==>
              r == Step(f, [])
  {
    if key.keyCode == BackKey then
      Step(f.(cancelBack := true), [])
    else if key.modifiers == ControlModifier && key.keyCode == KeyC then
      Step(f, [ExecCommand(Copy)])
    else if key.modifiers == ControlModifier && key.keyCode == KeyX then
      Step(f, [ExecCommand(Cut)])
    else if key.modifiers == ControlModifier && key.keyCode == KeyV then
      Step(f, [ExecCommand(Paste)])
    else if key.modifiers == ControlModifier && key.keyCode == KeyZ then
      Step(f, [ExecCommand(Undo)])
    else
      Step(f, [])
  }

  /** `on_navigating`: an armed flag cancels this navigation and disarms itself. */
  function OnNavigating(f: Form): (r: Step)
    ensures !r.form.cancelBack
    ensures r.form.(cancelBack := f.cancelBack) == f
    ensures r.effects == (if f.cancelBack then [CancelNavigation] else [])
  {
    if f.cancelBack then Step(f.(cancelBack := false), [CancelNavigation]) else Step(f, [])
  }

  /** `on_document_completed`: the first completed load reveals the browser. */
  function OnDocumentCompleted(f: Form): (r: Form)
    ensures !r.firstLoad
    ensures f.firstLoad ==> r.browserVisible
    ensures f.browserVisible ==> r.browserVisible
    ensures !f.firstLoad ==> r == f
    ensures r.(browserVisible := f.browserVisible, firstLoad := f.firstLoad) == f
  {
    if f.firstLoad then f.(browserVisible := true, firstLoad := false) else f
  }

  /** `set_topmost`: writes `TopMost` only when it would change. */
  function SetTopMost(f: Form, topMost: bool): (r: Step)
    ensures r.form.topMost == topMost
    ensures r.form.(topMost := f.topMost) == f
    ensures r.effects != [] <==> f.topMost != topMost
    ensures forall e | e in r.effects :: e == AssignTopMost(topMost)
    ensures |r.effects| <= 1
  {
    if f.topMost != topMost then Step(f.(topMost := topMost), [AssignTopMost(topMost)]) else Step(f, [])
  }

  /** `get_window_pos`: the form's location as an `[x, y]` list. */
  function GetWindowPos(f: Form): (r: seq<int>)
    ensures |r| == 2
    ensures Point(r[0], r[1]) == f.location
  {
    [f.location.x, f.location.y]
  }

  /** The events a running window receives, each delivered to its handler. */
  datatype Event =
    | Shown
    | KeyDown(key: KeyEvent)
    | Navigating
    | DocumentCompleted
    | ToggleFullscreenCall(screens: Screens)
    | SetTopMostCall(topMost: bool)

  /** Delivers one event; every handler performs at most one outward action. */
  function Dispatch(f: Form, e: Event): (r: Step)
    ensures |r.effects| <= 1
    ensures r.form.ready == (f.ready || e.Shown?)
  {
    match e
    case Shown => Step(OnShown(f), [])
    case KeyDown(key) => OnPreviewKeyDown(f, key)
    case Navigating => OnNavigating(f)
    case DocumentCompleted => Step(OnDocumentCompleted(f), [])
    case ToggleFullscreenCall(screens) => ToggleFullscreen(f, screens)
    case SetTopMostCall(topMost) => SetTopMost(f, topMost)
  }

  /** Delivers a sequence of events in order, collecting their effects. */
  function Run(f: Form, events: seq<Event>): (r: Step)
    ensures |r.effects| <= |events|
    decreases |events|
  {
    if events == [] then Step(f, [])
    else
      var first := Dispatch(f, events[0]);
      var rest := Run(first.form, events[1..]);
      Step(rest.form, first.effects + rest.effects)
  }
}
