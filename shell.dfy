/** The application shell (App.tsx): the window map keyed by application,
    the running z-order counter, the active application, and the full-screen
    modes (setup wizard, lock screen, browser game, Android view) that replace
    the windowed desktop.

    Each handler is modelled as one atomic transition on a `ShellState`
    value; the class `Desktop` holds the same state in fields and its
    methods are proved to perform exactly those transitions. */
module Shell {
  import opened Types

  /** Initial value of the running z-order counter. */
  const InitialMaxZ: int := 10

  function Seed(id: AppID, title: string, isOpen: bool, isMaximized: bool,
                z: int, x: int, y: int, w: int, h: int): WindowState
  {
    WindowState(id, title, isOpen, false, isMaximized, z, Point(x, y), Size(w, h))
  }

  /** The start-up record of each seeded application. */
  function InitialRecord(id: AppID): (w: WindowState)
    requires id != Android
    ensures w.id == id && !w.isMinimized && w.zIndex <= 2
  {
    match id
    case About => Seed(About, "Welcome", true, false, 1, 100, 50, 900, 650)
    case Word => Seed(Word, "Word", false, false, 1, 80, 50, 900, 700)
    case Excel => Seed(Excel, "Excel", false, false, 1, 100, 80, 900, 700)
    case PowerPoint => Seed(PowerPoint, "PowerPoint", false, false, 1, 120, 110, 900, 700)
    case Odoo => Seed(Odoo, "Odoo", false, false, 1, 140, 60, 1000, 700)
    case GameCenter => Seed(GameCenter, "Xbox Games", false, false, 1, 120, 50, 900, 650)
    case DevStudio => Seed(DevStudio, "Dev Studio", false, false, 1, 150, 80, 900, 700)
    case Terminal => Seed(Terminal, "PowerShell", false, false, 2, 150, 150, 700, 500)
    case Projects => Seed(Projects, "VS Code", false, true, 1, 80, 80, 900, 600)
    case Files => Seed(Files, "File Explorer", false, false, 1, 120, 80, 850, 550)
    case Calculator => Seed(Calculator, "Calculator", false, false, 1, 250, 200, 300, 450)
    case Editor => Seed(Editor, "Notepad", false, false, 1, 200, 200, 600, 400)
    case Youtube => Seed(Youtube, "Edge - Hamza TV", false, false, 1, 120, 120, 850, 550)
    case Settings => Seed(Settings, "Settings", false, false, 1, 150, 150, 700, 500)
    case Chess => Seed(Chess, "Chess Titans", false, false, 1, 180, 100, 550, 650)
    case Ludo => Seed(Ludo, "Ludo Star", false, false, 1, 200, 120, 800, 600)
    case Uno => Seed(Uno, "UNO Online", false, false, 1, 150, 100, 900, 700)
  }

  /** The window map the shell starts with. */
  const InitialWindows: map<AppID, WindowState> := map id: AppID | id != Android :: InitialRecord(id)

  /** A game opened full screen from the game center. */
  datatype BrowserGame = BrowserGame(url: string, title: string)

  /** Everything the shell's handlers read or write. `storedName` stands for
      the one persisted key-value pair (the saved display name). */
  datatype ShellState = ShellState(
    windows: map<AppID, WindowState>,
    activeAppId: Option<AppID>,
    maxZIndex: int,
    storedName: Option<string>,
    username: Option<string>,
    isSetupComplete: bool,
    isLocked: bool,
    isAndroidMode: bool,
    isAppGridOpen: bool,
    isSystemMenuOpen: bool,
    isCalendarOpen: bool,
    browserGame: Option<BrowserGame>)

  /** The state on first render, before the storage effect has run. */
  function Initial(stored: Option<string>): ShellState
  {
    ShellState(InitialWindows, Some(About), InitialMaxZ, stored, None,
               false, true, false, false, false, false, None)
  }

  /** Which full-screen surface is rendered; the checks are made in this order. */
  datatype Screen = SetupScreen | LockScreen | BrowserGameScreen | AndroidScreen | DesktopScreen

  function ScreenOf(s: ShellState): Screen
  {
    if !s.isSetupComplete then SetupScreen
    else if s.isLocked then LockScreen
    else if s.browserGame.Some? then BrowserGameScreen
    else if s.isAndroidMode then AndroidScreen
    else DesktopScreen
  }

  /** A stored name counts only when it is a non-empty string (JavaScript truthiness). */
  predicate HasStoredName(s: ShellState)
  {
    s.storedName.Some? && s.storedName.value != ""
  }

  /** The storage effect: a returning user keeps the lock screen, a new user
      is shown the setup wizard unlocked. */
  function InitFromStorage(s: ShellState): ShellState
  {
    if HasStoredName(s) then s.(username := s.storedName, isSetupComplete := true)
    else s.(isSetupComplete := false, isLocked := false)
  }

  /** Finishing the wizard saves the name and goes straight to the unlocked desktop. */
  function CompleteSetup(s: ShellState, name: string): ShellState
  {
    s.(storedName := Some(name), username := Some(name), isSetupComplete := true, isLocked := false)
  }

  function Unlock(s: ShellState): ShellState { s.(isLocked := false) }

  function Lock(s: ShellState): ShellState { s.(isLocked := true) }

  function LaunchBrowserGame(s: ShellState, url: string, title: string): ShellState
  {
    s.(browserGame := Some(BrowserGame(url, title)))
  }

  function ExitBrowserGame(s: ShellState): ShellState { s.(browserGame := None) }

  /** The Android view's own close/back buttons only clear the active application. */
  function AndroidClose(s: ShellState): ShellState { s.(activeAppId := None) }

  function SwitchToDesktop(s: ShellState): ShellState { s.(isAndroidMode := false) }

  /** The record a desktop dock click leaves for `id`, given the window map,
      the active id and the new counter value. */
  function ClickedRecord(windows: map<AppID, WindowState>, active: Option<AppID>, id: AppID,
                         configTitle: string, newZ: int): WindowState
  {
    if id in windows then
      var w := windows[id];
      if w.isOpen && !w.isMinimized && active == Some(id) then
        w.(isMinimized := true)
      else if w.isMinimized then
        w.(isMinimized := false, zIndex := newZ)
      else
        w.(isOpen := true, isMinimized := false, zIndex := newZ,
           title := if configTitle != "" then configTitle else w.title)
    else
      WindowState(id, configTitle, true, false, false, newZ, Point(100, 100), Size(800, 600))
  }

  /** A click on an application's icon. `configTitle` is the localised title
      of the application's configuration entry. */
  function DockClick(s: ShellState, id: AppID, configTitle: string): ShellState
  {
    if id == About then
      s.(isAppGridOpen := !s.isAppGridOpen, isSystemMenuOpen := false, isCalendarOpen := false)
    else if id == Android then
      s.(isAppGridOpen := false, isAndroidMode := true)
    else if s.isAndroidMode then
      s.(isAppGridOpen := false, activeAppId := Some(id))
    else
      var newZ := s.maxZIndex + 1;
      s.(isAppGridOpen := false,
         windows := s.windows[id := ClickedRecord(s.windows, s.activeAppId, id, configTitle, newZ)],
         maxZIndex := newZ,
         activeAppId := Some(id))
  }

  function Focus(s: ShellState, id: AppID): ShellState
    requires id in s.windows
  {
    s.(windows := s.windows[id := s.windows[id].(zIndex := s.maxZIndex + 1)],
       maxZIndex := s.maxZIndex + 1,
       activeAppId := Some(id))
  }

  function Close(s: ShellState, id: AppID): ShellState
    requires s.isAndroidMode || id in s.windows
  {
    if s.isAndroidMode then s.(activeAppId := None)
    else
      s.(windows := s.windows[id := s.windows[id].(isOpen := false)],
         activeAppId := if s.activeAppId == Some(id) then None else s.activeAppId)
  }

  function Minimize(s: ShellState, id: AppID): ShellState
    requires id in s.windows
  {
    s.(windows := s.windows[id := s.windows[id].(isMinimized := true)], activeAppId := None)
  }

  /** The identifiers the dock marks as running: those of the open records. */
  function OpenAppIds(s: ShellState): set<AppID>
  {
    set k | k in s.windows && s.windows[k].isOpen :: s.windows[k].id
  }

  /** Records are keyed by their own id and none is stacked above `top`. */
  ghost predicate Stacked(windows: map<AppID, WindowState>, top: int)
  {
    forall k :: k in windows ==> windows[k].id == k && windows[k].zIndex <= top
  }

  /** Only an open window is ever minimised. */
  ghost predicate MinimizedOpen(windows: map<AppID, WindowState>)
  {
    forall k :: k in windows && windows[k].isMinimized ==> windows[k].isOpen
  }

  /** The shell's structural invariant: records are keyed by their own id,
      no record is stacked above the running counter, and a minimised
      record is open. */
  ghost predicate WellFormed(s: ShellState)
  {
    Stacked(s.windows, s.maxZIndex) && MinimizedOpen(s.windows)
  }

  // ---------------------------------------------------------------------
  // Event sequences

  datatype Event =
    | AppClick(id: AppID, configTitle: string)
    | FocusWin(id: AppID)
    | CloseWin(id: AppID)
    | MinimizeWin(id: AppID)
    | StorageLoaded
    | SetupFinished(name: string)
    | Unlocked
    | Locked
    | GameLaunched(url: string, title: string)
    | GameExited
    | AndroidClosed
    | DesktopRequested

  /** A window frame is on screen: the desktop is showing, the application
      is neither About nor Android, and its record exists, is open and is
      not minimised. */
  predicate Rendered(s: ShellState, id: AppID)
  {
    ScreenOf(s) == DesktopScreen && id != About && id != Android &&
    id in s.windows && s.windows[id].isOpen && !s.windows[id].isMinimized
  }

  /** Whether the program can send this event: focus, close and minimise come
      from a rendered window frame; in the Android view only the terminal's
      `exit` calls close. */
  predicate Enabled(s: ShellState, e: Event)
  {
    match e
    case FocusWin(id) => Rendered(s, id)
    case CloseWin(id) => Rendered(s, id) || (ScreenOf(s) == AndroidScreen && id == Terminal)
    case MinimizeWin(id) => Rendered(s, id)
    case _ => true
  }

  function Step(s: ShellState, e: Event): ShellState
    requires Enabled(s, e)
  {
    match e
    case AppClick(id, t) => DockClick(s, id, t)
    case FocusWin(id) => Focus(s, id)
    case CloseWin(id) => Close(s, id)
    case MinimizeWin(id) => Minimize(s, id)
    case StorageLoaded => InitFromStorage(s)
    case SetupFinished(name) => CompleteSetup(s, name)
    case Unlocked => Unlock(s)
    case Locked => Lock(s)
    case GameLaunched(url, title) => LaunchBrowserGame(s, url, title)
    case GameExited => ExitBrowserGame(s)
    case AndroidClosed => AndroidClose(s)
    case DesktopRequested => SwitchToDesktop(s)
  }

  /** Every event of `evs` is enabled in the state it is applied to. */
  predicate Runs(s: ShellState, evs: seq<Event>)
    decreases |evs|
  {
    evs == [] || (Enabled(s, evs[0]) && Runs(Step(s, evs[0]), evs[1..]))
  }

  function Run(s: ShellState, evs: seq<Event>): ShellState
    requires Runs(s, evs)
    decreases |evs|
  {
    if evs == [] then s else Run(Step(s, evs[0]), evs[1..])
  }

  // ---------------------------------------------------------------------
  // Properties of single handlers

  /** On the desktop a click on a windowed application bumps the counter,
      makes the id active, closes the grid and touches no record but its own. */
  lemma DockClickDesktop(s: ShellState, id: AppID, t: string)
    requires id != About && id != Android && !s.isAndroidMode
    ensures DockClick(s, id, t) ==
            s.(isAppGridOpen := false,
               windows := s.windows[id := ClickedRecord(s.windows, s.activeAppId, id, t, s.maxZIndex + 1)],
               maxZIndex := s.maxZIndex + 1, activeAppId := Some(id))
  {
  }

  /** Clicking the focused, visible window's icon minimises it and keeps its
      stacking value. */
  lemma ClickMinimizeToggle(windows: map<AppID, WindowState>, active: Option<AppID>, id: AppID,
                            t: string, z: int)
    requires id in windows && windows[id].isOpen && !windows[id].isMinimized
    requires active == Some(id)
    ensures ClickedRecord(windows, active, id, t, z) == windows[id].(isMinimized := true)
  {
  }

  /** Clicking a minimised window's icon restores and raises it without
      touching `isOpen`. */
  lemma ClickRestore(windows: map<AppID, WindowState>, active: Option<AppID>, id: AppID,
                     t: string, z: int)
    requires id in windows && windows[id].isMinimized
    ensures ClickedRecord(windows, active, id, t, z) ==
            windows[id].(isMinimized := false, zIndex := z)
  {
  }

  /** Any other click on an existing record opens it on top, keeping its
      geometry; the configured title replaces the old one unless empty. */
  lemma ClickOpen(windows: map<AppID, WindowState>, active: Option<AppID>, id: AppID,
                  t: string, z: int)
    requires id in windows && !windows[id].isMinimized
    requires !(windows[id].isOpen && active == Some(id))
    ensures var w := ClickedRecord(windows, active, id, t, z);
            w.isOpen && !w.isMinimized && w.zIndex == z &&
            w.position == windows[id].position && w.size == windows[id].size &&
            w.isMaximized == windows[id].isMaximized && w.id == windows[id].id &&
            w.title == (if t != "" then t else windows[id].title)
  {
  }

  /** An application without a record gets a fresh one at the default place. */
  lemma ClickCreates(windows: map<AppID, WindowState>, active: Option<AppID>, id: AppID,
                     t: string, z: int)
    requires id !in windows
    ensures ClickedRecord(windows, active, id, t, z) ==
            WindowState(id, t, true, false, false, z, Point(100, 100), Size(800, 600))
  {
  }

  /** The counter moves by exactly one on every desktop click on a windowed
      application, whichever branch runs, and never otherwise. */
  lemma DockClickCounter(s: ShellState, id: AppID, t: string)
    ensures DockClick(s, id, t).maxZIndex ==
            if id != About && id != Android && !s.isAndroidMode then s.maxZIndex + 1 else s.maxZIndex
  {
  }

  /** The start (About) icon only toggles the application grid and closes the two other overlays. */
  lemma AboutOnlyTogglesGrid(s: ShellState, t: string)
    ensures DockClick(s, About, t) ==
            s.(isAppGridOpen := !s.isAppGridOpen, isSystemMenuOpen := false, isCalendarOpen := false)
  {
  }

  /** The Android icon only enters Android mode (and closes the grid); the
      Android view then shows unless an earlier gate applies. */
  lemma AndroidIconOnlyEntersMode(s: ShellState, t: string)
    ensures DockClick(s, Android, t) == s.(isAppGridOpen := false, isAndroidMode := true)
    ensures ScreenOf(DockClick(s, Android, t)) == AndroidScreen <==>
            s.isSetupComplete && !s.isLocked && s.browserGame.None?
  {
  }

  /** In Android mode a click only selects the application; no window record
      or counter changes. */
  lemma AndroidModeLeavesWindows(s: ShellState, id: AppID, t: string)
    requires s.isAndroidMode && id != About && id != Android
    ensures DockClick(s, id, t) == s.(isAppGridOpen := false, activeAppId := Some(id))
  {
  }

  /** Focusing puts the window strictly above every other record and changes
      nothing else about any record. */
  lemma FocusRaisesAbove(s: ShellState, id: AppID)
    requires WellFormed(s) && id in s.windows
    ensures var f := Focus(s, id);
            f.windows.Keys == s.windows.Keys &&
            (forall k :: k in f.windows && k != id ==>
               f.windows[k] == s.windows[k] && f.windows[k].zIndex < f.windows[id].zIndex) &&
            f.windows[id] == s.windows[id].(zIndex := s.maxZIndex + 1) &&
            f.maxZIndex == s.maxZIndex + 1 && f.activeAppId == Some(id)
  {
  }

  /** On the desktop, closing changes only `isOpen` of that record and clears
      the active id only when it was this one. */
  lemma CloseEffect(s: ShellState, id: AppID)
    requires !s.isAndroidMode && id in s.windows
    ensures Close(s, id).windows == s.windows[id := s.windows[id].(isOpen := false)]
    ensures Close(s, id).activeAppId == if s.activeAppId == Some(id) then None else s.activeAppId
    ensures Close(s, id).maxZIndex == s.maxZIndex
  {
  }

  /** In Android mode a close only clears the selection. */
  lemma AndroidCloseOnlyDeselects(s: ShellState, id: AppID)
    requires s.isAndroidMode
    ensures Close(s, id) == s.(activeAppId := None)
  {
  }

  /** Closing twice is closing once. */
  lemma CloseIdempotent(s: ShellState, id: AppID)
    requires s.isAndroidMode || id in s.windows
    ensures Close(Close(s, id), id) == Close(s, id)
  {
  }

  /** Minimising sets only `isMinimized`, always clears the active id, and is idempotent. */
  lemma MinimizeEffect(s: ShellState, id: AppID)
    requires id in s.windows
    ensures Minimize(s, id).windows == s.windows[id := s.windows[id].(isMinimized := true)]
    ensures Minimize(s, id).activeAppId.None?
    ensures Minimize(s, id).maxZIndex == s.maxZIndex
    ensures Minimize(Minimize(s, id), id) == Minimize(s, id)
  {
  }

  /** The screens in order: the wizard until setup completes; finishing setup
      skips the lock screen and, outside the full-screen modes, shows the desktop. */
  lemma ScreenGating(s: ShellState, name: string)
    ensures ScreenOf(s) == SetupScreen <==> !s.isSetupComplete
    ensures ScreenOf(CompleteSetup(s, name)) != SetupScreen
    ensures ScreenOf(CompleteSetup(s, name)) != LockScreen
    ensures s.browserGame.None? && !s.isAndroidMode ==> ScreenOf(CompleteSetup(s, name)) == DesktopScreen
  {
  }

  /** After the storage effect on start-up a returning user meets the lock
      screen and a new user the wizard. */
  lemma StartupScreen(stored: Option<string>)
    ensures ScreenOf(InitFromStorage(Initial(stored))) ==
            if stored.Some? && stored.value != "" then LockScreen else SetupScreen
  {
  }

  /** Re-running the storage effect after setup (it re-runs on language or
      theme changes) keeps the desktop unlocked. */
  lemma StorageEffectAfterSetup(s: ShellState, name: string)
    requires name != ""
    ensures InitFromStorage(CompleteSetup(s, name)) == CompleteSetup(s, name)
  {
  }

  /** The running ids are exactly the ids of open records. */
  lemma OpenAppIdsExact(s: ShellState, id: AppID)
    requires WellFormed(s)
    ensures id in OpenAppIds(s) <==> id in s.windows && s.windows[id].isOpen
  {
    if id in s.windows && s.windows[id].isOpen {
      assert s.windows[id].id == id;
    }
  }

  // ---------------------------------------------------------------------
  // Invariants over any sequence of handlers

  lemma InitialWellFormed(stored: Option<string>)
    ensures WellFormed(Initial(stored))
  {
  }

  /** Every application but Android has a record from the start. */
  lemma InitialKeys(stored: Option<string>, id: AppID)
    ensures id in Initial(stored).windows <==> id != Android
  {
  }

  /** Replacing one record by one keyed and stacked correctly keeps the invariant. */
  lemma UpdateKeepsStacked(windows: map<AppID, WindowState>, top: int, newTop: int,
                           id: AppID, r: WindowState)
    requires Stacked(windows, top) && top <= newTop
    requires r.id == id && r.zIndex <= newTop
    ensures Stacked(windows[id := r], newTop)
  {
  }

  /** Replacing one record by one that is minimised only when open keeps
      every minimised record open. */
  lemma UpdateKeepsMinimizedOpen(windows: map<AppID, WindowState>, id: AppID, r: WindowState)
    requires MinimizedOpen(windows) && (r.isMinimized ==> r.isOpen)
    ensures MinimizedOpen(windows[id := r])
  {
  }

  /** The clicked record keeps its key and sits no higher than the new counter. */
  lemma ClickedRecordStacked(windows: map<AppID, WindowState>, active: Option<AppID>, id: AppID,
                             t: string, top: int)
    requires Stacked(windows, top)
    ensures ClickedRecord(windows, active, id, t, top + 1).id == id
    ensures ClickedRecord(windows, active, id, t, top + 1).zIndex <= top + 1
    ensures ClickedRecord(windows, active, id, t, top + 1).isMinimized ==>
            ClickedRecord(windows, active, id, t, top + 1).isOpen
  {
  }

  lemma DockClickPreserves(s: ShellState, id: AppID, t: string)
    requires WellFormed(s)
    ensures WellFormed(DockClick(s, id, t))
  {
    if id != About && id != Android && !s.isAndroidMode {
      var r := ClickedRecord(s.windows, s.activeAppId, id, t, s.maxZIndex + 1);
      DockClickDesktop(s, id, t);
      ClickedRecordStacked(s.windows, s.activeAppId, id, t, s.maxZIndex);
      UpdateKeepsStacked(s.windows, s.maxZIndex, s.maxZIndex + 1, id, r);
      UpdateKeepsMinimizedOpen(s.windows, id, r);
    } else {
      DockClickElsewhere(s, id, t);
    }
  }

  /** Outside the windowed desktop a click touches neither the map nor the counter. */
  lemma DockClickElsewhere(s: ShellState, id: AppID, t: string)
    requires id == About || id == Android || s.isAndroidMode
    ensures DockClick(s, id, t).windows == s.windows && DockClick(s, id, t).maxZIndex == s.maxZIndex
  {
  }

  lemma FocusPreserves(s: ShellState, id: AppID)
    requires WellFormed(s) && id in s.windows
    ensures WellFormed(Focus(s, id))
  {
    var w := s.windows[id];
    var r := w.(zIndex := s.maxZIndex + 1);
    assert w.isMinimized ==> w.isOpen;
    UpdateKeepsStacked(s.windows, s.maxZIndex, s.maxZIndex + 1, id, r);
    UpdateKeepsMinimizedOpen(s.windows, id, r);
    assert Focus(s, id).windows == s.windows[id := r];
  }

  /** Closing a window that is not minimised, or minimising an open one,
      keeps the shell well formed. */
  lemma FlagsPreserve(s: ShellState, id: AppID)
    requires WellFormed(s) && id in s.windows
    ensures !s.isAndroidMode && !s.windows[id].isMinimized ==> WellFormed(Close(s, id))
    ensures s.windows[id].isOpen ==> WellFormed(Minimize(s, id))
  {
    var w := s.windows[id];
    UpdateKeepsStacked(s.windows, s.maxZIndex, s.maxZIndex, id, w.(isMinimized := true));
    UpdateKeepsStacked(s.windows, s.maxZIndex, s.maxZIndex, id, w.(isOpen := false));
    if w.isOpen { UpdateKeepsMinimizedOpen(s.windows, id, w.(isMinimized := true)); }
    if !w.isMinimized { UpdateKeepsMinimizedOpen(s.windows, id, w.(isOpen := false)); }
  }

  /** A click never removes a record. */
  lemma DockClickGrows(s: ShellState, id: AppID, t: string)
    ensures s.windows.Keys <= DockClick(s, id, t).windows.Keys
  {
  }

  /** Events other than the four window events leave the map and the counter alone. */
  lemma OtherStepsKeepWindows(s: ShellState, e: Event)
    requires !e.AppClick? && !e.FocusWin? && !e.CloseWin? && !e.MinimizeWin?
    ensures Step(s, e).windows == s.windows && Step(s, e).maxZIndex == s.maxZIndex
  {
    match e
    case StorageLoaded => assert Step(s, e) == InitFromStorage(s);
    case SetupFinished(name) => assert Step(s, e) == CompleteSetup(s, name);
    case Unlocked => assert Step(s, e) == Unlock(s);
    case Locked => assert Step(s, e) == Lock(s);
    case GameLaunched(url, title) => assert Step(s, e) == LaunchBrowserGame(s, url, title);
    case GameExited => assert Step(s, e) == ExitBrowserGame(s);
    case AndroidClosed => assert Step(s, e) == AndroidClose(s);
    case DesktopRequested => assert Step(s, e) == SwitchToDesktop(s);
  }

  /** What every handler keeps: the invariant, a counter that never goes
      down, and every record that existed. */
  ghost predicate Extends(s: ShellState, t: ShellState)
  {
    (WellFormed(s) ==> WellFormed(t)) && t.maxZIndex >= s.maxZIndex && s.windows.Keys <= t.windows.Keys
  }

  lemma DockClickExtends(s: ShellState, id: AppID, t: string)
    ensures Extends(s, DockClick(s, id, t))
  {
    DockClickCounter(s, id, t);
    DockClickGrows(s, id, t);
    if WellFormed(s) { DockClickPreserves(s, id, t); }
  }

  lemma FocusExtends(s: ShellState, id: AppID)
    requires id in s.windows
    ensures Extends(s, Focus(s, id))
  {
    if WellFormed(s) { FocusPreserves(s, id); }
  }

  lemma CloseExtends(s: ShellState, id: AppID)
    requires Enabled(s, CloseWin(id))
    ensures Extends(s, Close(s, id))
  {
    if !s.isAndroidMode && WellFormed(s) { FlagsPreserve(s, id); }
  }

  lemma MinimizeExtends(s: ShellState, id: AppID)
    requires Enabled(s, MinimizeWin(id))
    ensures Extends(s, Minimize(s, id))
  {
    if WellFormed(s) { FlagsPreserve(s, id); }
  }

  lemma StepPreserves(s: ShellState, e: Event)
    requires Enabled(s, e)
    ensures WellFormed(s) ==> WellFormed(Step(s, e))
    ensures Step(s, e).maxZIndex >= s.maxZIndex
    ensures s.windows.Keys <= Step(s, e).windows.Keys
  {
    match e
    case AppClick(id, t) => DockClickExtends(s, id, t);
    case FocusWin(id) => FocusExtends(s, id);
    case CloseWin(id) => CloseExtends(s, id);
    case MinimizeWin(id) => MinimizeExtends(s, id);
    case _ => OtherStepsKeepWindows(s, e);
  }

  /** Over any run the counter never decreases, the invariant holds, and no
      record ever disappears. */
  lemma {:induction false} RunPreserves(s: ShellState, evs: seq<Event>)
    requires Runs(s, evs)
    ensures WellFormed(s) ==> WellFormed(Run(s, evs))
    ensures Run(s, evs).maxZIndex >= s.maxZIndex
    ensures s.windows.Keys <= Run(s, evs).windows.Keys
    decreases |evs|
  {
    if evs != [] {
      StepPreserves(s, evs[0]);
      RunPreserves(Step(s, evs[0]), evs[1..]);
    }
  }

  /** From start-up, whatever happened before, every application but Android
      has a record, and its frame can send focus and minimise exactly when
      the desktop shows it open and not minimised (About never gets a frame). */
  lemma {:induction false} WindowEventsEnabled(stored: Option<string>, evs: seq<Event>, id: AppID)
    requires Runs(Initial(stored), evs) && id != Android
    ensures var r := Run(Initial(stored), evs);
            id in r.windows &&
            (Enabled(r, FocusWin(id)) <==>
               ScreenOf(r) == DesktopScreen && id != About && r.windows[id].isOpen && !r.windows[id].isMinimized) &&
            (Enabled(r, MinimizeWin(id)) <==> Enabled(r, FocusWin(id)))
  {
    InitialKeys(stored, id);
    RunPreserves(Initial(stored), evs);
    FrameEventsEnabled(Run(Initial(stored), evs), id);
  }

  /** With a record present, focus and minimise are enabled exactly when the
      desktop shows the window. */
  lemma FrameEventsEnabled(r: ShellState, id: AppID)
    requires id in r.windows && id != Android
    ensures Enabled(r, FocusWin(id)) <==>
              ScreenOf(r) == DesktopScreen && id != About && r.windows[id].isOpen && !r.windows[id].isMinimized
    ensures Enabled(r, MinimizeWin(id)) <==> Enabled(r, FocusWin(id))
  {
  }

  /** From start-up, whatever happened before, a minimised window is open. */
  lemma {:induction false} MinimizedWindowsOpen(stored: Option<string>, evs: seq<Event>, id: AppID)
    requires Runs(Initial(stored), evs)
    ensures var r := Run(Initial(stored), evs);
            id in r.windows && r.windows[id].isMinimized ==> r.windows[id].isOpen
  {
    InitialWellFormed(stored);
    RunPreserves(Initial(stored), evs);
  }

  /** The dock's minimise toggle keeps the window active (App.tsx:447-449,
      484), unlike minimizeApp, which clears the active id (App.tsx:505-508):
      a second click on a just-opened window's icon minimises it and keeps it
      active. */
  lemma {:induction false} ActiveWindowCanBeMinimized(s: ShellState, id: AppID, t: string)
    requires id != About && id != Android && !s.isAndroidMode
    requires id in s.windows && !s.windows[id].isMinimized && !s.windows[id].isOpen
    ensures var s2 := DockClick(DockClick(s, id, t), id, t);
            s2.activeAppId == Some(id) && s2.windows[id].isMinimized && s2.windows[id].isOpen
  {
    var s1 := DockClick(s, id, t);
    DockClickDesktop(s, id, t);
    ClickOpen(s.windows, s.activeAppId, id, t, s.maxZIndex + 1);
    DockClickDesktop(s1, id, t);
    ClickMinimizeToggle(s1.windows, s1.activeAppId, id, t, s1.maxZIndex + 1);
  }

  /** Every application but Android starts with its seeded record. */
  lemma InitialLookup(stored: Option<string>, id: AppID)
    requires id != Android
    ensures id in Initial(stored).windows && Initial(stored).windows[id] == InitialRecord(id)
  {
  }

  /** The start-up records of the terminal and the file explorer are closed
      and not minimised, and the counter starts at 10. */
  lemma StartupRecords(stored: Option<string>)
    ensures Initial(stored).maxZIndex == 10 && !Initial(stored).isAndroidMode
    ensures !InitialRecord(Terminal).isOpen && !InitialRecord(Terminal).isMinimized
    ensures !InitialRecord(Files).isOpen && !InitialRecord(Files).isMinimized
  {
  }

  /** The storage effect and the wizard leave the window map, the counter and
      the Android flag as they were. */
  lemma SetupKeepsWindows(s: ShellState, name: string)
    ensures var t := CompleteSetup(InitFromStorage(s), name);
            t.windows == s.windows && t.maxZIndex == s.maxZIndex && t.isAndroidMode == s.isAndroidMode
  {
  }

  /** The worked example: open terminal, open files, focus terminal, then
      click terminal's icon twice; from start-up the z values are 11, 12, 13,
      13 (minimised, counter 14) and 15. */
  lemma {:induction false} StackingScenario(s0: ShellState)
    requires !s0.isAndroidMode
    requires Terminal in s0.windows && !s0.windows[Terminal].isOpen && !s0.windows[Terminal].isMinimized
    requires Files in s0.windows && !s0.windows[Files].isOpen && !s0.windows[Files].isMinimized
    ensures var m := s0.maxZIndex;
            var s1 := DockClick(s0, Terminal, "Terminal");
            var s2 := DockClick(s1, Files, "Files");
            var s3 := Focus(s2, Terminal);
            var s4 := DockClick(s3, Terminal, "Terminal");
            var s5 := DockClick(s4, Terminal, "Terminal");
            s1.windows[Terminal].zIndex == m + 1 &&
            s2.windows[Files].zIndex == m + 2 && s2.windows[Terminal].zIndex == m + 1 &&
            s2.activeAppId == Some(Files) &&
            s3.windows[Terminal].zIndex == m + 3 && s3.activeAppId == Some(Terminal) &&
            s4.windows[Terminal].isMinimized && s4.windows[Terminal].zIndex == m + 3 &&
            s4.activeAppId == Some(Terminal) && s4.maxZIndex == m + 4 &&
            !s5.windows[Terminal].isMinimized && s5.windows[Terminal].zIndex == m + 5 &&
            s5.activeAppId == Some(Terminal)
  {
    var s1 := DockClick(s0, Terminal, "Terminal");
    DockClickDesktop(s0, Terminal, "Terminal");
    ClickOpen(s0.windows, s0.activeAppId, Terminal, "Terminal", s0.maxZIndex + 1);
    var s2 := DockClick(s1, Files, "Files");
    DockClickDesktop(s1, Files, "Files");
    ClickOpen(s1.windows, s1.activeAppId, Files, "Files", s1.maxZIndex + 1);
    var s3 := Focus(s2, Terminal);
    var s4 := DockClick(s3, Terminal, "Terminal");
    DockClickDesktop(s3, Terminal, "Terminal");
    ClickMinimizeToggle(s3.windows, s3.activeAppId, Terminal, "Terminal", s3.maxZIndex + 1);
    DockClickDesktop(s4, Terminal, "Terminal");
    ClickRestore(s4.windows, s4.activeAppId, Terminal, "Terminal", s4.maxZIndex + 1);
  }

  // ---------------------------------------------------------------------
  // The shell as an object with fields

  class Desktop {
    var windows: map<AppID, WindowState>
    var activeAppId: Option<AppID>
    var maxZIndex: int
    var storedName: Option<string>
    var username: Option<string>
    var isSetupComplete: bool
    var isLocked: bool
    var isAndroidMode: bool
    var isAppGridOpen: bool
    var isSystemMenuOpen: bool
    var isCalendarOpen: bool
    var browserGame: Option<BrowserGame>

    function State(): ShellState
      reads this
    {
      ShellState(windows, activeAppId, maxZIndex, storedName, username, isSetupComplete,
                 isLocked, isAndroidMode, isAppGridOpen, isSystemMenuOpen, isCalendarOpen,
                 browserGame)
    }

    constructor (stored: Option<string>)
      ensures State() == Initial(stored)
    {
      windows := InitialWindows;
      activeAppId := Some(About);
      maxZIndex := InitialMaxZ;
      storedName := stored;
      username := None;
      isSetupComplete := false;
      isLocked := true;
      isAndroidMode := false;
      isAppGridOpen := false;
      isSystemMenuOpen := false;
      isCalendarOpen := false;
      browserGame := None;
    }

    method LoadFromStorage()
      modifies this
      ensures State() == InitFromStorage(old(State()))
    {
      if storedName.Some? && storedName.value != "" {
        username := storedName;
        isSetupComplete := true;
      } else {
        isSetupComplete := false;
        isLocked := false;
      }
    }

    method HandleSetupComplete(name: string)
      modifies this
      ensures State() == CompleteSetup(old(State()), name)
    {
      storedName := Some(name);
      username := Some(name);
      isSetupComplete := true;
      isLocked := false;
    }

    method HandleAppClick(id: AppID, configTitle: string)
      modifies this
      ensures State() == DockClick(old(State()), id, configTitle)
    {
      if id == About {
        ToggleAppGrid(configTitle);
      } else if id == Android {
        EnterAndroidMode(configTitle);
      } else if isAndroidMode {
        SelectAndroidApp(id, configTitle);
      } else {
        DesktopClick(id, configTitle);
      }
    }

    /** The start icon: toggle the grid, close the system menu and the calendar. */
    method ToggleAppGrid(configTitle: string)
      modifies this
      ensures State() == DockClick(old(State()), About, configTitle)
    {
      ghost var s0 := State();
      isAppGridOpen := !isAppGridOpen;
      isSystemMenuOpen := false;
      isCalendarOpen := false;
      AboutOnlyTogglesGrid(s0, configTitle);
    }

    method EnterAndroidMode(configTitle: string)
      modifies this
      ensures State() == DockClick(old(State()), Android, configTitle)
    {
      ghost var s0 := State();
      isAppGridOpen := false;
      isAndroidMode := true;
      AndroidIconOnlyEntersMode(s0, configTitle);
    }

    method SelectAndroidApp(id: AppID, configTitle: string)
      requires isAndroidMode && id != About && id != Android
      modifies this
      ensures State() == DockClick(old(State()), id, configTitle)
    {
      ghost var s0 := State();
      isAppGridOpen := false;
      activeAppId := Some(id);
      AndroidModeLeavesWindows(s0, id, configTitle);
    }

    /** The desktop branch of a dock click. */
    method DesktopClick(id: AppID, configTitle: string)
      requires !isAndroidMode && id != About && id != Android
      modifies this
      ensures State() == DockClick(old(State()), id, configTitle)
    {
      ghost var s0 := State();
      isAppGridOpen := false;
      RaiseOrToggle(id, configTitle);
      DockClickDesktop(s0, id, configTitle);
    }

    /** Bump the counter, then minimise, restore, create or open the record,
        and make the id active. */
    method RaiseOrToggle(id: AppID, configTitle: string)
      modifies this`windows, this`maxZIndex, this`activeAppId
      ensures windows == old(windows)[id := ClickedRecord(old(windows), old(activeAppId), id,
                                                          configTitle, old(maxZIndex) + 1)]
      ensures maxZIndex == old(maxZIndex) + 1 && activeAppId == Some(id)
    {
      var newZ := maxZIndex + 1;
      var record: WindowState;
      if id in windows && windows[id].isOpen && !windows[id].isMinimized && activeAppId == Some(id) {
        record := windows[id].(isMinimized := true);
      } else if id in windows && windows[id].isMinimized {
        record := windows[id].(isMinimized := false, zIndex := newZ);
      } else if id !in windows {
        record := WindowState(id, configTitle, true, false, false, newZ, Point(100, 100), Size(800, 600));
      } else {
        var w := windows[id];
        var title := if configTitle != "" then configTitle else w.title;
        record := w.(isOpen := true, isMinimized := false, zIndex := newZ, title := title);
      }
      windows := windows[id := record];
      maxZIndex := newZ;
      activeAppId := Some(id);
    }

    method FocusWindow(id: AppID)
      requires id in windows
      modifies this
      ensures State() == Focus(old(State()), id)
    {
      windows := windows[id := windows[id].(zIndex := maxZIndex + 1)];
      maxZIndex := maxZIndex + 1;
      activeAppId := Some(id);
    }

    method CloseApp(id: AppID)
      requires isAndroidMode || id in windows
      modifies this
      ensures State() == Close(old(State()), id)
    {
      if isAndroidMode {
        activeAppId := None;
      } else {
        CloseWindow(id);
      }
    }

    /** The desktop branch of a close: mark the record closed and drop the
        active id if it was this one. */
    method CloseWindow(id: AppID)
      requires !isAndroidMode && id in windows
      modifies this
      ensures State() == Close(old(State()), id)
    {
      windows := windows[id := windows[id].(isOpen := false)];
      activeAppId := if activeAppId == Some(id) then None else activeAppId;
    }

    method MinimizeApp(id: AppID)
      requires id in windows
      modifies this
      ensures State() == Minimize(old(State()), id)
    {
      windows := windows[id := windows[id].(isMinimized := true)];
      activeAppId := None;
    }

    method UnlockScreen()
      modifies this
      ensures State() == Unlock(old(State()))
    {
      isLocked := false;
    }

    method LockDesktop()
      modifies this
      ensures State() == Lock(old(State()))
    {
      isLocked := true;
    }

    method OpenBrowserGame(url: string, title: string)
      modifies this
      ensures State() == LaunchBrowserGame(old(State()), url, title)
    {
      browserGame := Some(BrowserGame(url, title));
    }

    method CloseBrowserGame()
      modifies this
      ensures State() == ExitBrowserGame(old(State()))
    {
      browserGame := None;
    }

    method AndroidCloseApp()
      modifies this
      ensures State() == AndroidClose(old(State()))
    {
      activeAppId := None;
    }

    method LeaveAndroidMode()
      modifies this
      ensures State() == SwitchToDesktop(old(State()))
    {
      isAndroidMode := false;
    }
  }
}
