# HamzaOS core, modelled in Dafny

HamzaOS is a desktop operating system simulated in the browser. A shell
(`App.tsx`) keeps one window record per application in a map, together with:

- a running z-order counter;
- the active application;
- the gating screens: first-run setup, lock screen, a full-screen browser
  game, and an Android-style mode.

Dock clicks open, raise, minimise and restore those windows. Each window
is drawn by a frame (`components/Window.tsx`) that can be dragged.

The applications modelled here are:

- a chess game against a bot;
- Uno against three bots;
- Ludo against three bots;
- a file browser with back/forward history;
- a calculator;
- a terminal with a handful of commands and an AI `ask` command;
- the first-run setup wizard.

Each source file is one module:

| module | file | source |
|---|---|---|
| `Types` | types.dfy | `types.ts`, plus the string helpers the components share (`trim`, `indexOf`, JavaScript `%`) |
| `Shell` | shell.dfy | `App.tsx` |
| `WindowFrame` | window.dfy | `components/Window.tsx` |
| `SetupWizard` | setup.dfy | `components/Setup.tsx` |
| `ChessApp` | chess.dfy | `apps/Chess.tsx` |
| `UnoApp` | uno.dfy | `apps/Uno.tsx` |
| `LudoApp` | ludo.dfy | `apps/Ludo.tsx` |
| `FilesApp` | files.dfy | `apps/Files.tsx` |
| `CalculatorApp` | calculator.dfy | `apps/Calculator.tsx` |
| `TerminalApp` | terminal.dfy | `apps/Terminal.tsx` |

Every component follows the same shape:

- **A value datatype** (`ShellState`, `FrameState`, `ChessState`, …) holds
  everything the component's hooks hold.
- **Pure transition functions** describe what each handler does to that
  value. Lemmas state the properties of those functions.
- **A class** has the component's state variables as fields. Each handler
  is a method whose contract is `State() == Transition(old(State()), …)`,
  so the methods are proved to perform exactly the modelled transitions.

Some computations run a loop on local copies. These are module-level
methods with loops, proved equal to a specification function:

- the chess move generator and the bot's scan and scoring;
- building the Uno deck;
- dealing the hands;
- choosing the start card;
- drawing cards.

All randomness is a parameter of the operation that uses it: shuffles,
dice, the chess bot's jitter, and the Uno bot's colour.

## Behaviour worth noting

- **Dock click on the active window.** The dock's minimise toggle keeps the
  window active (`App.tsx:447-449`, `484`). `minimizeApp`, the window's own
  minimise button, clears the active id instead (`App.tsx:505-508`). So a
  second click on a just-opened window's icon minimises it and keeps it
  active, which `Shell.ActiveWindowCanBeMinimized` states.
- **Restoring a minimised window.** This clears `isMinimized` and raises it,
  but does not set `isOpen` (`App.tsx:451-453`).
- **The terminal's language effect.** It runs on mount and replaces the
  five-line banner with a four-line one (`apps/Terminal.tsx:31-38`);
  `TerminalApp.MountedLog` states which line goes.
- **Uno: a draw card that refills the deck.** The handlers are modelled as
  sequential updates. In React, when a draw-two or wild-four empties the deck
  and the discard pile is recycled, the batched `setDiscardPile([top])` from
  `drawCard` overwrites the pile that `playCard` appended the played card
  to. A browser would lose that card, while the model conserves every card.
- **Ludo: capturing.** Ludo's `movePiece` captures twice in some positions
  (see Findings).
- **Ludo: pieces on the track cannot be clicked.** Only the base buttons
  call `handlePieceClick`, so a roll of 1 to 5 with a blue piece out leaves a
  move pending that nothing can make (see Findings).

## Model

| member | source | states |
|---|---|---|
| Types.IndexOf | apps/Calculator.tsx:34-36 | the result is -1 exactly when the element is absent, otherwise the first position holding it |
| Types.LeadFacts | apps/Terminal.tsx:45 | the leading run counted by `trim` consists of whitespace and stops at a non-space |
| Types.TrailFacts | apps/Terminal.tsx:45 | the trailing run counted by `trim` consists of whitespace and stops at a non-space |
| Types.TrimShape | apps/Terminal.tsx:45 | the trimmed text is a contiguous slice of the input starting after the leading spaces |
| Types.TrimCutsSpaces | apps/Terminal.tsx:45 | everything `trim` removes, at either end, is whitespace |
| Types.TrimEnds | apps/Terminal.tsx:45 | a non-empty trimmed text neither starts nor ends with whitespace |
| Types.TrimBlank | apps/Terminal.tsx:45-46 | the trimmed text is empty exactly when every character of the input is whitespace |
| Types.TrimIdempotent | components/Setup.tsx:19 | trimming twice is trimming once |
| Shell.InitialRecord | App.tsx:32-203 | each predefined window record carries its own id, starts not minimised and below the initial counter |
| Shell.InitialKeys | App.tsx:32-203 | the initial window map has a record for every application except Android |
| Shell.InitialLookup | App.tsx:32-203 | the record looked up for an application is its predefined record |
| Shell.StartupRecords | App.tsx:205-233 | the counter starts at 10, Android mode is off, Terminal and Files start closed and not minimised |
| Shell.InitialWellFormed | App.tsx:205-233 | the initial state is well formed: every record is keyed by its own id, no z-index exceeds the counter and no record is minimised without being open |
| Shell.Desktop.constructor | App.tsx:205-233 | the fields start as the shell's state on first render: About active, counter 10, locked, setup not yet complete, the stored name as given |
| Shell.StartupScreen | App.tsx:236-255 | after the storage effect, a stored non-empty name leads to the lock screen and anything else to the setup wizard |
| Shell.Desktop.LoadFromStorage | App.tsx:236-255 | the storage effect sets user name, setup completion and lock exactly as the stored name dictates |
| Shell.StorageEffectAfterSetup | App.tsx:236-263 | once setup has stored a non-empty name, running the storage effect again changes nothing |
| Shell.SetupKeepsWindows | App.tsx:236-263 | loading from storage and completing setup leave the windows, the counter and Android mode untouched |
| Shell.Desktop.HandleSetupComplete | App.tsx:257-263 | completing setup stores the name, marks setup complete and unlocks |
| Shell.ScreenGating | App.tsx:521-558 | the setup screen shows exactly while setup is incomplete; after completing setup neither setup nor lock shows, and with no game or Android mode the desktop does |
| Shell.Desktop.UnlockScreen | App.tsx:527-528 | unlocking clears only the lock flag |
| Shell.Desktop.LockDesktop | App.tsx:696 | locking sets only the lock flag |
| Shell.Desktop.OpenBrowserGame | App.tsx:319 | launching a game from the game center records its url and title |
| Shell.Desktop.CloseBrowserGame | App.tsx:536 | exiting the game clears it and nothing else |
| Shell.Desktop.AndroidCloseApp | App.tsx:554 | the Android view's close button clears only the active application |
| Shell.Desktop.LeaveAndroidMode | App.tsx:556 | switching back to the desktop clears only Android mode |
| Shell.AboutOnlyTogglesGrid | App.tsx:423-428 | the start button toggles the app grid, closes the system menu and calendar, and changes nothing else |
| Shell.Desktop.ToggleAppGrid | App.tsx:423-428 | the About branch of a dock click, performed on the fields |
| Shell.AndroidIconOnlyEntersMode | App.tsx:432-435 | the Android icon closes the grid and enters Android mode only; the Android screen then shows exactly when setup is done, the screen unlocked and no game running |
| Shell.Desktop.EnterAndroidMode | App.tsx:432-435 | the Android branch of a dock click, performed on the fields |
| Shell.AndroidModeLeavesWindows | App.tsx:437-440 | in Android mode a click only selects the application; windows and counter are untouched |
| Shell.Desktop.SelectAndroidApp | App.tsx:437-440 | the Android-mode branch of a dock click, performed on the fields |
| Shell.DockClickDesktop | App.tsx:442-484 | on the desktop a click closes the grid, bumps the counter by one, replaces only the clicked record and makes it active |
| Shell.ClickMinimizeToggle | App.tsx:447-449 | clicking the open, active, unminimised window minimises it and changes nothing else in it |
| Shell.ClickRestore | App.tsx:451-453 | clicking a minimised window un-minimises it and gives it the new top z-index, leaving `isOpen` as it was |
| Shell.ClickCreates | App.tsx:456-471 | clicking an application with no record creates an open, unmaximised 800×600 window at (100, 100) on top, titled from the app list |
| Shell.ClickOpen | App.tsx:473-482 | any other click opens and raises the window, keeps its geometry and maximised flag, and takes the app list's title unless that is empty |
| Shell.DockClickCounter | App.tsx:444-445 | the counter grows by one exactly for a desktop click on an ordinary application |
| Shell.DockClickGrows | App.tsx:442-484 | a dock click never removes a window record |
| Shell.DockClickElsewhere | App.tsx:423-440 | the About, Android and Android-mode branches leave windows and counter untouched |
| Shell.ClickedRecordStacked | App.tsx:442-484 | the record a click leaves has the clicked id and does not exceed the new counter |
| Shell.DockClickPreserves | App.tsx:422-485 | a dock click keeps the shell well formed |
| Shell.Desktop.HandleAppClick | App.tsx:422-485 | the fields change exactly as a dock click in the model |
| Shell.Desktop.DesktopClick | App.tsx:442-484 | the desktop branch of a dock click, performed on the fields |
| Shell.Desktop.RaiseOrToggle | App.tsx:444-484 | the counter is bumped, the clicked record replaced as the model says, and the id made active |
| Shell.FocusRaisesAbove | App.tsx:487-494 | focusing raises the window strictly above every other, leaves the other records unchanged and makes it active |
| Shell.FocusPreserves | App.tsx:487-494 | focusing keeps the shell well formed |
| Shell.Desktop.FocusWindow | App.tsx:487-494 | the fields change exactly as focusing in the model |
| Shell.CloseEffect | App.tsx:496-503 | on the desktop, closing clears only that record's `isOpen`, deactivates it if it was active and keeps the counter |
| Shell.AndroidCloseOnlyDeselects | App.tsx:497-500 | in Android mode closing only clears the active application |
| Shell.CloseIdempotent | App.tsx:496-503 | closing twice is closing once |
| Shell.Desktop.CloseApp | App.tsx:496-503 | the fields change exactly as closing in the model |
| Shell.Desktop.CloseWindow | App.tsx:501-502 | the desktop branch of closing, performed on the fields |
| Shell.MinimizeEffect | App.tsx:505-508 | minimising sets only that record's flag, clears the active application, keeps the counter, and is idempotent |
| Shell.FlagsPreserve | App.tsx:496-508 | closing a window that is not minimised and minimising an open one keep the shell well formed |
| Shell.Desktop.MinimizeApp | App.tsx:505-508 | the fields change exactly as minimising in the model |
| Shell.OpenAppIdsExact | App.tsx:630 | the dock's open-app list contains an application exactly when its record exists and is open |
| Shell.UpdateKeepsStacked | App.tsx:442-494 | replacing one record by one with its own id and a z-index up to a larger counter keeps the map stacked |
| Shell.UpdateKeepsMinimizedOpen | App.tsx:442-508 | replacing one record by one that is minimised only when open keeps every minimised record open |
| Shell.DockClickExtends | App.tsx:422-485 | a dock click keeps every key and never lowers the counter |
| Shell.FocusExtends | App.tsx:487-494 | focusing keeps every key and never lowers the counter |
| Shell.CloseExtends | App.tsx:496-503 | closing, as a rendered frame or the Android terminal sends it, keeps the invariant and every key and never lowers the counter |
| Shell.MinimizeExtends | App.tsx:505-508 | minimising a rendered window keeps the invariant and every key and never lowers the counter |
| Shell.OtherStepsKeepWindows | App.tsx:236-263 | the storage, setup, lock, game and Android events leave the windows and the counter alone |
| Shell.StepPreserves | App.tsx:422-508 | every event the program can send keeps the shell well formed (minimised only when open included), never lowers the counter and never drops a window record |
| Shell.RunPreserves | App.tsx:422-508 | the same holds along any sequence of events |
| Shell.WindowEventsEnabled | App.tsx:601-617 | along any run from startup every application but Android has a record, and its frame can send focus and minimise exactly when the desktop shows it open and not minimised and it is not About |
| Shell.FrameEventsEnabled | App.tsx:601-617 | for a window with a record, focus and minimise can be sent exactly when the desktop is showing, the window is not About, and its record is open and not minimised |
| Shell.MinimizedWindowsOpen | App.tsx:422-508 | along any run from startup a minimised window is always open |
| Shell.ActiveWindowCanBeMinimized | App.tsx:447-449 | clicking a closed window twice leaves it open, minimised and still the active application |
| Shell.StackingScenario | App.tsx:442-494 | opening Terminal then Files, focusing Terminal, then clicking it twice, gives the z-indices and active ids the counter dictates |
| WindowFrame.Mount | components/Window.tsx:19-22 | a freshly mounted frame is not dragging, shows the record's position and is in mobile layout exactly below 768 pixels |
| WindowFrame.Frame.constructor | components/Window.tsx:19-22 | the fields start as a mounted frame |
| WindowFrame.Frame.HandleResize | components/Window.tsx:25-29 | a resize updates the mobile flag from the new width |
| WindowFrame.SyncResets | components/Window.tsx:32-34 | after the record's position is pushed in, pointer moves without a drag leave the frame there |
| WindowFrame.Frame.HandlePositionProp | components/Window.tsx:32-34 | the position follows the record's position |
| WindowFrame.DragGuard | components/Window.tsx:36-44 | on a maximised window or in mobile layout `handleMouseDown` starts no drag, requests no focus and leaves the frame unchanged; otherwise it requests focus |
| WindowFrame.EveryPressFocuses | components/Window.tsx:107-115 | every press in the frame ends with a focus request for this window (the frame's own `onMouseDown`); only a title-bar press that starts a drag requests it twice, and a press that starts no drag leaves the frame unchanged |
| WindowFrame.Frame.HandlePress | components/Window.tsx:107-115 | the fields and the focus requests are those of a press in the model, on the title bar or elsewhere in the frame |
| WindowFrame.DragStart | components/Window.tsx:36-44 | otherwise a press starts dragging, records the pointer's offset from the window and focuses this window |
| WindowFrame.Frame.HandleMouseDown | components/Window.tsx:36-44 | the fields and the focus request are those of a press in the model |
| WindowFrame.MovesKeepDrag | components/Window.tsx:46-69 | pointer moves never start or stop a drag, nor change the offset or layout |
| WindowFrame.DragFollowsPointer | components/Window.tsx:46-55 | while dragging, the window ends at the last pointer position minus the offset |
| WindowFrame.DragDisplacement | components/Window.tsx:36-55 | a drag moves the window by exactly the pointer's displacement since the press |
| WindowFrame.ReleasedIgnoresMoves | components/Window.tsx:46-69 | without a drag, pointer moves change nothing |
| WindowFrame.MouseUpEndsDrag | components/Window.tsx:57-69 | releasing ends the drag in place, and later moves change nothing |
| WindowFrame.Frame.HandleMouseMove | components/Window.tsx:46-55 | the fields change as a pointer move in the model |
| WindowFrame.Frame.HandleMouseUp | components/Window.tsx:57-69 | the fields change as a release in the model |
| WindowFrame.HiddenRendersNothing | components/Window.tsx:71 | a window renders nothing exactly when its record is closed or minimised |
| WindowFrame.LayoutChoice | components/Window.tsx:74-105 | mobile and maximised layouts ignore position and size and fill the area between the bars; a floating window is placed at its position with its size |
| WindowFrame.RenderFollowsRecord | components/Window.tsx:74-142 | a visible window renders with the record's z-index and title, and a floating one at the frame's position |
| WindowFrame.ZoomDoesNothing | components/Window.tsx:121-137 | the close and minimise buttons ask the shell about this window; the zoom button asks nothing |
| SetupWizard.InitialValid | components/Setup.tsx:11-14 | the wizard starts valid, on the welcome step |
| SetupWizard.Wizard.constructor | components/Setup.tsx:11-14 | the fields start as the initial wizard state |
| SetupWizard.NextSteps | components/Setup.tsx:16-22 | step 1 goes to step 2; step 2 goes to step 3 exactly when the trimmed name is non-empty; step 3 stays; the name is kept |
| SetupWizard.Wizard.HandleNext | components/Setup.tsx:16-22 | the fields change as `handleNext` in the model |
| SetupWizard.LoadingSequence | components/Setup.tsx:24-48 | on the loading step four ticks show the four messages in order, and only after the fourth does the wizard fade out and hand over the name |
| SetupWizard.Wizard.HandleTick | components/Setup.tsx:34-38 | a tick shows the next loading message while any remain |
| SetupWizard.Wizard.HandleFinish | components/Setup.tsx:37-43 | the fade-out sets the flag and returns the name for `onComplete` once all messages have shown, and nothing before |
| SetupWizard.Wizard.HandleNameChange | components/Setup.tsx:107 | typing replaces the name on the name step only |
| SetupWizard.Wizard.HandleEnter | components/Setup.tsx:108 | Enter advances only with a non-blank name |
| SetupWizard.ButtonAgreesWithNext | components/Setup.tsx:130-137 | the footer button is disabled exactly when `handleNext` would do nothing on the name step, so clicking it and pressing Enter both act as `handleNext` |
| SetupWizard.StepPreservesValid | components/Setup.tsx:16-48 | every event keeps the wizard valid and never moves it back a step |
| SetupWizard.RunPreservesValid | components/Setup.tsx:16-48 | the same holds along any sequence of events |
| SetupWizard.HandOverName | components/Setup.tsx:41 | the name handed to the shell is never blank, so the shell stores it, its storage effect keeps it, and the setup screen does not show again |
| ChessApp.InitialBoard | apps/Chess.tsx:16-25 | the initial board is 8×8 |
| ChessApp.ChessGame.constructor | apps/Chess.tsx:31-35 | the fields start as the initial game (white to move, nothing selected, no winner), which meets the game's invariant |
| ChessApp.ChessGame.Restart | apps/Chess.tsx:204-210 | restarting restores the initial game, which meets the game's invariant |
| ChessApp.GetMoves | apps/Chess.tsx:41-106 | the move generator's loops compute exactly the specified move list for the square |
| ChessApp.MovesSound | apps/Chess.tsx:41-106 | an empty square has no moves; every generated move is on the board and lands on an empty or enemy square |
| ChessApp.StepperBound | apps/Chess.tsx:77-82 | a knight or king has at most eight moves |
| ChessApp.StepMoves | apps/Chess.tsx:77-82 | the loop over the offsets yields exactly the enterable offset targets, in order |
| ChessApp.OneStep | apps/Chess.tsx:48-57 | `addMove` adds the target exactly when it is on the board and empty or enemy |
| ChessApp.StepTargetsSound | apps/Chess.tsx:48-57 | every offset target is enterable and there are no more targets than offsets |
| ChessApp.PawnMovesOf | apps/Chess.tsx:59-76 | the pawn branch yields exactly the specified advances and captures |
| ChessApp.PawnForward | apps/Chess.tsx:63-69 | one step forward onto an empty square, and two from the start row when both squares are empty |
| ChessApp.DiagonalCaptures | apps/Chess.tsx:71-76 | the loop over the two diagonal columns yields exactly the specified captures |
| ChessApp.DiagonalCapture | apps/Chess.tsx:71-76 | one diagonal is a move exactly when it is on the board and holds an enemy piece |
| ChessApp.PawnCapturesBoth | apps/Chess.tsx:71-76 | the captures are the left diagonal's followed by the right one's |
| ChessApp.PawnRules | apps/Chess.tsx:59-76 | every pawn move is a forward step onto empty squares (two only from the start row) or a diagonal step onto an enemy piece |
| ChessApp.PawnMovesSound | apps/Chess.tsx:59-76 | every pawn move is enterable |
| ChessApp.SliderDirsUnit | apps/Chess.tsx:85-87 | rooks, bishops and queens walk only unit directions |
| ChessApp.SlideMoves | apps/Chess.tsx:83-103 | the loop over the directions yields exactly the concatenated rays |
| ChessApp.WalkRay | apps/Chess.tsx:90-102 | the inner walk yields exactly the specified ray |
| ChessApp.RayStep | apps/Chess.tsx:90-102 | a ray through an empty square goes on; on a piece it stops, including that square only if the piece is an enemy |
| ChessApp.RaySound | apps/Chess.tsx:90-102 | every ray square is enterable |
| ChessApp.RaysSound | apps/Chess.tsx:83-103 | every slider move is enterable |
| ChessApp.RayConsecutive | apps/Chess.tsx:90-102 | a ray starts at its first square and proceeds one step at a time over empty squares |
| ChessApp.EmptyRay | apps/Chess.tsx:90-102 | a ray is empty only when its first square is off the board or holds an own piece |
| ChessApp.RayStops | apps/Chess.tsx:90-102 | a ray ending on an empty square ends there because the next square is off the board or holds an own piece |
| ChessApp.ClickIgnored | apps/Chess.tsx:109 | clicks after the game is won or on black's turn change nothing |
| ChessApp.ClickSelects | apps/Chess.tsx:114-118 | clicking a white piece selects it and shows its moves |
| ChessApp.ClickMovesLegally | apps/Chess.tsx:121-126 | clicking a highlighted square moves the selected piece by one of its generated moves, clears the selection and passes the turn to black |
| ChessApp.ClickPreservesValid | apps/Chess.tsx:108-133 | every click keeps the game's invariant: the board is 8×8, a selection exists only on white's turn and on a white piece, and the highlighted squares are exactly that piece's generated moves |
| ChessApp.ChessGame.HandleSquareClick | apps/Chess.tsx:108-133 | the fields change as a click in the model, and the game's invariant still holds |
| ChessApp.ChessGame.SelectSquare | apps/Chess.tsx:114-118 | selecting records the square and its generated moves |
| ChessApp.SetSquare | apps/Chess.tsx:136-139 | writing one square keeps the board 8×8 |
| ChessApp.MovePieceEffect | apps/Chess.tsx:135-153 | a move empties the origin, puts the (possibly promoted) piece on the target, leaves every other square alone and passes the turn |
| ChessApp.PromotionRule | apps/Chess.tsx:140-142 | a pawn reaching the first or last row becomes a queen of its colour; any other piece arrives unchanged |
| ChessApp.KingCaptureWins | apps/Chess.tsx:145-147 | capturing a king makes the mover's colour the winner; any other move keeps the winner |
| ChessApp.ChessGame.Move | apps/Chess.tsx:135-153 | the fields change as a move in the model |
| ChessApp.PairShape | apps/Chess.tsx:160-187 | each of a black piece's moves becomes one candidate from that piece, in order |
| ChessApp.PairLegal | apps/Chess.tsx:160-187 | candidates built from a black piece's generated moves are legal |
| ChessApp.CandidatesLegal | apps/Chess.tsx:160-187 | every candidate the bot considers moves a black piece by one of its generated moves |
| ChessApp.PairMoves | apps/Chess.tsx:171-186 | the loop over one piece's moves yields one candidate per move, from that piece, in order |
| ChessApp.ScanSquare | apps/Chess.tsx:161-186 | scanning one square adds that square's candidates exactly when it holds a black piece |
| ChessApp.CollectCandidates | apps/Chess.tsx:160-187 | the scan over the board computes exactly the specified candidate list, in reading order |
| ChessApp.ScoreCandidates | apps/Chess.tsx:173-185 | the scoring loop gives each candidate its capture value plus its bonus |
| ChessApp.ChessGame.BotTurn | apps/Chess.tsx:156-203 | the fields change as the bot's turn in the model: nothing without a black piece, a pass without moves, otherwise the first best-scored move; the game's invariant is kept, so clicks can follow |
| ChessApp.InitialValid | apps/Chess.tsx:31-35 | the initial game meets the invariant that clicks require |
| ChessApp.AiTurnValid | apps/Chess.tsx:156-203 | the bot's turn keeps the game's invariant and, when black was to move, leaves nothing selected or highlighted |
| ChessApp.ScoreTiers | apps/Chess.tsx:173-184 | a capture scores 1000 exactly when it takes a king; anything else scores at most 90 |
| ChessApp.TiersSurviveJitter | apps/Chess.tsx:173-184 | the random jitter below 5 never reorders a higher-scoring capture below a lower one |
| ChessApp.Scores | apps/Chess.tsx:173-184 | there is one score per candidate |
| ChessApp.FirstMax | apps/Chess.tsx:189-193 | the chosen candidate has the highest score, and no earlier one ties it |
| ChessApp.BestTargetsKing | apps/Chess.tsx:189-193 | if any candidate takes the king, the best one does |
| ChessApp.AiTakesKing | apps/Chess.tsx:156-203 | when black can take the white king it does, and wins |
| ChessApp.AiTurnWithoutMoves | apps/Chess.tsx:194-197 | a bot with pieces but no moves just hands the turn to white |
| UnoApp.UnshuffledDeck | apps/Uno.tsx:22-48 | the deck has 108 cards |
| UnoApp.GenerateDeck | apps/Uno.tsx:22-46 | the generator's loops build exactly the specified unshuffled deck |
| UnoApp.ColorRun | apps/Uno.tsx:26-39 | one colour contributes 25 cards with consecutive ids in the specified order |
| UnoApp.ColorSlot | apps/Uno.tsx:26-39 | position `25·c + j` of the deck is card `j` of colour `c` |
| UnoApp.WildSlot | apps/Uno.tsx:42-45 | the last eight cards alternate wild and wild-four |
| UnoApp.DeckIdsAndBlacks | apps/Uno.tsx:22-46 | every card's id is its position, every card is well formed, and the black cards are exactly the last eight |
| UnoApp.NumberCopies | apps/Uno.tsx:28-33 | each colour has one 0 and two of each of 1-9, at the stated positions |
| UnoApp.ActionCopies | apps/Uno.tsx:35-38 | each colour has two skip, two reverse and two draw-two cards, at the stated positions |
| UnoApp.WildCopies | apps/Uno.tsx:42-45 | there are exactly four wilds and four wild-fours, at the stated positions |
| UnoApp.BlackCountOfDeck | apps/Uno.tsx:22-46 | the first n cards of the deck contain no black card up to 100 and n - 100 after |
| UnoApp.BlackCountPermutation | apps/Uno.tsx:47 | a shuffle keeps the number of black cards |
| UnoApp.FewBlacksLeaveNonBlack | apps/Uno.tsx:78-83 | a pile with fewer black cards than cards holds a coloured card |
| UnoApp.UndealtHasNonBlack | apps/Uno.tsx:66-83 | after dealing 28 cards from a shuffled deck the remaining 80 hold a coloured card, so the start-card loop ends |
| UnoApp.DealHands | apps/Uno.tsx:71-75 | the dealing loop takes 28 cards off the top and each seat gets its seven cards in the closed form |
| UnoApp.DealRound | apps/Uno.tsx:71-75 | one round of the deal gives one card to each seat in turn |
| UnoApp.DealStep | apps/Uno.tsx:71-75 | one pop moves the top card of the deck to the back of the seat's hand |
| UnoApp.DealClosedForm | apps/Uno.tsx:71-75 | after n pops seat q holds the cards popped at rounds q, q+4, q+8, … |
| UnoApp.DealtSeven | apps/Uno.tsx:71-75 | after 28 pops every seat holds exactly its seven cards |
| UnoApp.DealConserves | apps/Uno.tsx:71-75 | dealing neither creates nor destroys cards: deck plus hands is the original deck |
| UnoApp.TrailingBlackFront | apps/Uno.tsx:78-83 | moving a card to the bottom of a pile that holds a coloured card leaves the run of black cards on top as it was |
| UnoApp.StartPickFacts | apps/Uno.tsx:78-83 | the start card is coloured, and with the remaining deck it makes up the pile it was drawn from |
| UnoApp.PickStart | apps/Uno.tsx:78-83 | the start-card loop computes exactly the specified pick, with the reshuffle replaced by the identity |
| UnoApp.StartedGameFacts | apps/Uno.tsx:66-95 | a new game is valid, started, without a winner, each seat holds its seven dealt cards, the pile holds one coloured card that sets the colour, and seat 0 plays clockwise |
| UnoApp.StartedGameConserves | apps/Uno.tsx:66-95 | the deck, pile and hands of a new game together are the shuffled deck |
| UnoApp.UnoGame.constructor | apps/Uno.tsx:54-63 | the fields start as the state before the first game |
| UnoApp.UnoGame.StartGame | apps/Uno.tsx:66-95 | the fields change as starting a game in the model, on the shuffled deck given, with the start-card reshuffle taken as the identity |
| UnoApp.Norm4IsMod | apps/Uno.tsx:110-114 | the source's double-remainder normalisation is the mathematical remainder mod 4 |
| UnoApp.NextTurnInRange | apps/Uno.tsx:110-114 | the next seat is within 0-3 and is one or two seats on in the current direction |
| UnoApp.Popped | apps/Uno.tsx:135-141 | popping k cards yields k cards |
| UnoApp.Recycle | apps/Uno.tsx:125-130 | recycling keeps the number of cards |
| UnoApp.RecycleKeepsCards | apps/Uno.tsx:125-130 | recycling well-formed cards returns them unchanged (resetting a wild's colour to black is the identity) |
| UnoApp.RefillConserves | apps/Uno.tsx:122-133 | refilling the deck from the discard pile, in whatever order the shuffle gives, keeps every card of deck and pile |
| UnoApp.DrawLoop | apps/Uno.tsx:135-141 | the pop loop takes as many cards as wanted or available off the top of the deck, appends them to the hand, and conserves cards |
| UnoApp.PoppedMultiset | apps/Uno.tsx:135-141 | the popped cards and the rest of the deck make up the deck |
| UnoApp.DrawEffect | apps/Uno.tsx:116-146 | a draw gives the seat the cards popped from the refilled deck, touches no other hand, keeps the pile when the deck was big enough, and otherwise pushes the shuffled rest of the pile on top of the deck and reduces the pile to its top |
| UnoApp.DrawConserves | apps/Uno.tsx:116-146 | drawing neither creates nor destroys cards, whatever order the refill's shuffle gives |
| UnoApp.DrawPreservesValid | apps/Uno.tsx:116-146 | drawing keeps the game valid |
| UnoApp.UnoGame.DrawCard | apps/Uno.tsx:116-146 | the fields change as a draw in the model, the refill's shuffle being an input |
| UnoApp.FindIndex | apps/Uno.tsx:150 | the result is -1 exactly when no card of the hand has the id, otherwise the first position that does |
| UnoApp.PlayMissingCard | apps/Uno.tsx:151 | playing a card the seat does not hold changes nothing |
| UnoApp.RemovalConserves | apps/Uno.tsx:152-157 | moving the card from the hand to the pile keeps every card |
| UnoApp.PlayLastCardWins | apps/Uno.tsx:163-167 | playing the last card of a hand empties it, tops the pile with it and makes the seat the winner, with nothing else changing |
| UnoApp.PlayEffects | apps/Uno.tsx:170-210 | a reverse flips the direction; skips and draw cards skip a seat; the colour is the card's or the chosen wild colour; the played card tops the pile; other cards change only the hand and the pile |
| UnoApp.PlayDrawCard | apps/Uno.tsx:189-202 | a draw-two or wild-four makes the next seat draw two or four after the card is played |
| UnoApp.EffectsConserve | apps/Uno.tsx:170-210 | the card's effects neither create nor destroy cards |
| UnoApp.EffectsValid | apps/Uno.tsx:170-210 | the card's effects keep the game valid |
| UnoApp.PlayConserves | apps/Uno.tsx:148-211 | a play neither creates nor destroys cards |
| UnoApp.PlayPreservesValid | apps/Uno.tsx:148-211 | a play keeps the game valid |
| UnoApp.UnoGame.PlayCard | apps/Uno.tsx:148-211 | the fields change as a play in the model |
| UnoApp.UnoGame.ApplyEffects | apps/Uno.tsx:170-210 | the fields change as the card's effects in the model |
| UnoApp.ValidPlayRule | apps/Uno.tsx:213-237 | a card may be played exactly when it has the current colour, is black, or repeats the top card's kind (and, for numbers, its value) |
| UnoApp.HumanGuards | apps/Uno.tsx:240-281 | outside the human's turn, or while a colour is being chosen, card and deck clicks change nothing |
| UnoApp.HumanCardClick | apps/Uno.tsx:240-257 | a valid black card opens the colour picker and is held back; a valid coloured card is played at once |
| UnoApp.UnoGame.HandleCardClick | apps/Uno.tsx:240-257 | the fields change as a card click in the model |
| UnoApp.UnoGame.HandleColorPick | apps/Uno.tsx:261-267 | the fields change as picking a colour in the model |
| UnoApp.UnoGame.HandleDrawClick | apps/Uno.tsx:269-281 | the fields change as a deck click in the model |
| UnoApp.ClicksPreserveValid | apps/Uno.tsx:240-281 | card clicks, colour picks and deck clicks keep the game valid |
| UnoApp.BotTurnPreservesValid | apps/Uno.tsx:284-309 | a bot's turn, playing its chosen card or drawing one and passing, keeps the game valid |
| UnoApp.GenuineWellFormed | apps/Uno.tsx:22-46 | a card of the deck, found by its id, is black exactly when it is wild |
| UnoApp.ShuffleGenuine | apps/Uno.tsx:47 | every card of any shuffle of the deck is the deck card its id names |
| UnoApp.StartedGameWellFormed | apps/Uno.tsx:66-95 | a new game holds only deck cards, in its deck, pile and hands |
| UnoApp.DrawKeepsCards | apps/Uno.tsx:116-146 | in a game of deck cards, drawing keeps every card and brings in no other card |
| UnoApp.EffectsKeepCards | apps/Uno.tsx:170-210 | in a game of deck cards, a card's effects keep every card and bring in no other |
| UnoApp.HeldCard | apps/Uno.tsx:150 | in a game of deck cards, the first hand card with a deck card's id is that card |
| UnoApp.PlayKeepsCards | apps/Uno.tsx:148-211 | in a game of deck cards, playing a deck card keeps every card and brings in no other |
| UnoApp.CardClickKeepsCards | apps/Uno.tsx:240-257 | clicking a card of the human's hand keeps every card, and the waiting wild is a deck card |
| UnoApp.ColorPickKeepsCards | apps/Uno.tsx:261-267 | picking a colour plays the waiting wild and keeps every card |
| UnoApp.DrawClickKeepsCards | apps/Uno.tsx:269-281 | the human's draw keeps every card |
| UnoApp.BotTurnConserves | apps/Uno.tsx:284-309 | a bot's turn keeps every card of a game of deck cards and brings in no other |
| UnoApp.UnoGame.PlayBotTurn | apps/Uno.tsx:284-309 | the fields change as a bot turn in the model: play the chosen valid card, or draw one and pass |
| LudoApp.InitialWellFormed | apps/Ludo.tsx:29-34 | the sixteen pieces start well formed, all at base |
| LudoApp.LudoGame.constructor | apps/Ludo.tsx:27-36 | the fields start as the initial game: blue to roll, dice 0 |
| LudoApp.ColorIndex | apps/Ludo.tsx:40 | each colour's index in the player list lies in 0-3 and names that colour |
| LudoApp.TurnCycle | apps/Ludo.tsx:60-65 | the turn passes blue, red, green, yellow and back, never to the same colour |
| LudoApp.LudoGame.NextTurnStep | apps/Ludo.tsx:60-65 | the fields change as passing the turn in the model |
| LudoApp.RollGuard | apps/Ludo.tsx:68-69 | the roll button acts exactly on blue's turn when not rolling and no move is pending, and then only starts the roll |
| LudoApp.DiceLandsEffect | apps/Ludo.tsx:70-85 | when the die lands a move becomes possible exactly when blue has a valid move; otherwise the turn passes to red; the pieces do not change |
| LudoApp.LudoGame.HandleRoll | apps/Ludo.tsx:67-69 | the fields change as pressing roll in the model |
| LudoApp.LudoGame.RollTimer | apps/Ludo.tsx:70-85 | the fields change as the die landing in the model |
| LudoApp.ValidMoveOnBoard | apps/Ludo.tsx:88-93 | a piece not yet finished may move exactly when it is on the track, or at base with a six |
| LudoApp.LeavingBaseLandsOnStart | apps/Ludo.tsx:97-98 | a piece leaving base lands on its colour's start square whatever the roll |
| LudoApp.TrackMoveWraps | apps/Ludo.tsx:101 | a track move lands `steps` squares on, modulo the 52-square track |
| LudoApp.FindOpponent | apps/Ludo.tsx:104 | the result is the first piece of another colour on the square, or -1 when there is none |
| LudoApp.TrackMoveEffect | apps/Ludo.tsx:101-111 | a track move puts the piece on its landing square, sends the first opponent there back to base, and leaves every other piece alone |
| LudoApp.LeavingBaseNeverCaptures | apps/Ludo.tsx:97-98 | leaving base changes no other piece |
| LudoApp.OwnColourSafe | apps/Ludo.tsx:95-117 | a move never disturbs another piece of the mover's colour |
| LudoApp.MovePreservesWellFormed | apps/Ludo.tsx:95-117 | a move keeps ids, colours and the board range of every piece |
| LudoApp.MoveById | apps/Ludo.tsx:111 | updating one piece by id keeps the number of pieces |
| LudoApp.MovePiece | apps/Ludo.tsx:95-117 | the corrected move keeps the number of pieces |
| LudoApp.MoveEndsTurn | apps/Ludo.tsx:120-128 | after a move the turn passes, the dice resets and no move is pending, even on a six |
| LudoApp.LudoGame.MovePieceStep | apps/Ludo.tsx:95-129 | the fields change as a move in the model |
| LudoApp.FindUnlike | apps/Ludo.tsx:115 | the result is the first piece of another colour on the square, or -1 when there is none |
| LudoApp.MovePieceAsWritten | apps/Ludo.tsx:95-117 | the move as the code writes it keeps the number of pieces |
| LudoApp.FirstMatchesAgree | apps/Ludo.tsx:104-115 | off base, the second search finds the same piece as the first when only the mover's colour differs between the lists |
| LudoApp.DoubleCaptureAsWritten | apps/Ludo.tsx:104-117 | as written, with two opponents on the landing square both go back to base, while the corrected move sends back only the first |
| LudoApp.BaseCaptureAsWritten | apps/Ludo.tsx:113-117 | as written, leaving base onto an opponent sends it back, while the corrected move does not |
| LudoApp.AsWrittenAgreesOtherwise | apps/Ludo.tsx:95-117 | outside those two situations the code as written and the corrected move agree |
| LudoApp.FirstAtBase | apps/Ludo.tsx:141 | the result is the first of the colour's pieces at base, or -1 |
| LudoApp.FirstMovable | apps/Ludo.tsx:134 | the result is the first of the colour's pieces that may move, or -1 |
| LudoApp.BotChoiceSound | apps/Ludo.tsx:131-146 | the bot picks a valid piece of its colour, passes exactly when it has none, and with a six prefers a piece at base |
| LudoApp.BotTurnPasses | apps/Ludo.tsx:131-146 | after a bot's turn, move or no move, the turn passes and the dice resets |
| LudoApp.LudoGame.BotMove | apps/Ludo.tsx:131-146 | the fields change as a bot turn in the model |
| LudoApp.PieceClickGuard | apps/Ludo.tsx:148-153 | a piece click acts only on blue's turn with a pending move, on a blue piece that may move, and then moves it by the dice |
| LudoApp.LudoGame.HandlePieceClick | apps/Ludo.tsx:148-153 | for a piece whose base button is enabled, the fields change as a piece click in the model |
| LudoApp.ClickableClick | apps/Ludo.tsx:273-277 | a click on an enabled base button moves the piece exactly on blue's turn, with a move pending and a six rolled, and the piece lands on blue's start square |
| LudoApp.PendingMoveNeedsBasePiece | apps/Ludo.tsx:76-84 | once a pending move is set, the roll button and the bots do nothing, and some deliverable click acts exactly when the roll is a six and a blue piece is at base |
| LudoApp.TrackRollStalls | apps/Ludo.tsx:295-297 | a roll of 1 to 5 with a blue piece on the track leaves a state that no roll, bot turn or deliverable click changes |
| LudoApp.FirstPieceOut | apps/Ludo.tsx:95-99 | from a new game, a six and a click bring blue's first piece to square 0 and hand the turn to red |
| LudoApp.BotWithoutMovesPasses | apps/Ludo.tsx:131-140 | a bot whose pieces are all at base passes on a roll of one, moving nothing |
| LudoApp.StallAfterFirstPiece | apps/Ludo.tsx:43-58 | after the three bots pass, blue's roll of four stalls the game |
| LudoApp.StallScenario | apps/Ludo.tsx:251-277 | the stall is reachable from a new game in nine steps |
| LudoApp.IntendedClickMoves | apps/Ludo.tsx:148-153 | were every blue piece clickable, a pending move could always be made |
| FilesApp.TreeShape | apps/Files.tsx:26-70 | every sidebar destination is a folder of the tree with a non-empty listing, the tree has no other folders, and its subfolders list nothing |
| FilesApp.InitialValid | apps/Files.tsx:58-60 | the browser starts valid, in Home, showing Home's listing |
| FilesApp.FileBrowser.constructor | apps/Files.tsx:58-60 | the fields start as the initial browser |
| FilesApp.NavigateEffect | apps/Files.tsx:72-89 | navigating keeps the history up to the current entry, appends the folder, points at it and shows it |
| FilesApp.NavigateDropsForward | apps/Files.tsx:72-89 | after navigating there is nothing to go forward to, and back returns to the folder navigated from |
| FilesApp.NavigateAnywhere | apps/Files.tsx:77-82 | a name outside the tree is still shown, with an empty listing |
| FilesApp.FileBrowser.Navigate | apps/Files.tsx:72-89 | the fields change as navigating in the model |
| FilesApp.BackEffect | apps/Files.tsx:91-96 | back keeps the history, does nothing at the first entry and otherwise steps one entry back |
| FilesApp.FileBrowser.Back | apps/Files.tsx:91-96 | the fields change as going back in the model |
| FilesApp.ForwardEffect | apps/Files.tsx:98-103 | forward keeps the history, does nothing at the last entry and otherwise steps one entry on |
| FilesApp.FileBrowser.Forward | apps/Files.tsx:98-103 | the fields change as going forward in the model |
| FilesApp.BackForwardRoundTrip | apps/Files.tsx:91-103 | back then forward, or forward then back, returns to the same state whenever the first step moves |
| FilesApp.OpenItemEffect | apps/Files.tsx:169 | double-clicking a folder navigates to it by name; double-clicking a file does nothing |
| FilesApp.FileBrowser.DoubleClick | apps/Files.tsx:169 | the fields change as a double click in the model |
| CalculatorApp.Calculator.constructor | apps/Calculator.tsx:11-13 | the calculator starts showing 0, with no equation, waiting for a new number |
| CalculatorApp.NumberEntry | apps/Calculator.tsx:15-22 | a key after an operator, result or clear replaces the display; otherwise a lone 0 is replaced and anything else extended; the equation is kept |
| CalculatorApp.Calculator.HandleNumber | apps/Calculator.tsx:15-22 | the fields change as a number key in the model |
| CalculatorApp.OperatorEntry | apps/Calculator.tsx:24-27 | an operator keeps the display, records it with the operator as the equation, and starts a new number |
| CalculatorApp.OperatorReplaces | apps/Calculator.tsx:24-27 | a second operator replaces the first instead of chaining |
| CalculatorApp.Calculator.HandleOperator | apps/Calculator.tsx:24-27 | the fields change as an operator key in the model |
| CalculatorApp.EqualOutcome | apps/Calculator.tsx:29-46 | `=` always starts a new number; success shows the value and clears the equation; an exception shows the error and keeps the equation |
| CalculatorApp.ReplaceFirstShape | apps/Calculator.tsx:34-36 | `replace` with a one-character pattern changes only its first occurrence, and nothing when it is absent |
| CalculatorApp.PlainEvalString | apps/Calculator.tsx:34-36 | without the visual operators the evaluator sees the equation followed by the display |
| CalculatorApp.Calculator.HandleEqual | apps/Calculator.tsx:29-46 | the fields change as `=` in the model |
| CalculatorApp.ClearResets | apps/Calculator.tsx:48-52 | clearing returns to the initial state |
| CalculatorApp.Calculator.HandleClear | apps/Calculator.tsx:48-52 | the fields change as clear in the model |
| CalculatorApp.KeypadSendsAscii | apps/Calculator.tsx:54-73 | no key sends the visual multiply or divide signs, so the replacement never fires for text typed on the keypad |
| TerminalApp.TerminalSession.constructor | apps/Terminal.tsx:19-26 | the session starts with the five-line banner, empty input and not processing |
| TerminalApp.MountedLog | apps/Terminal.tsx:31-38 | the language effect's log is the initial banner without its third line |
| TerminalApp.TerminalSession.ResetForLanguage | apps/Terminal.tsx:31-38 | the language effect replaces the log and nothing else |
| TerminalApp.TerminalSession.SetInput | apps/Terminal.tsx:18 | typing replaces only the input |
| TerminalApp.BlankIgnored | apps/Terminal.tsx:45-46 | a command of only whitespace changes nothing and does not close |
| TerminalApp.CommandLogged | apps/Terminal.tsx:48-50 | any other command clears the input, ends processing, and unless it is `clear` logs the trimmed command followed by at most one reply |
| TerminalApp.Split | apps/Terminal.tsx:52 | splitting on spaces yields at least one part and no part contains a space |
| TerminalApp.JoinSplit | apps/Terminal.tsx:52 | joining the parts with spaces gives back the text |
| TerminalApp.SplitHead | apps/Terminal.tsx:52-53 | the first part is the text up to its first space, and there are several parts exactly when the text has a space |
| TerminalApp.LowerKeepsSpaces | apps/Terminal.tsx:52 | lower-casing keeps the length and the spaces, and is idempotent |
| TerminalApp.CommandIsFirstWord | apps/Terminal.tsx:52-53 | the command is the non-empty lower-cased first word of the trimmed text |
| TerminalApp.ClassifyWords | apps/Terminal.tsx:56-150 | a word is a command exactly when it is one of the nine known words |
| TerminalApp.RespondKinds | apps/Terminal.tsx:56-150 | only `clear` empties the log and only `exit` closes the window |
| TerminalApp.ClearEmpties | apps/Terminal.tsx:74-76 | `clear` leaves an empty log, including the command's own line |
| TerminalApp.ExitCloses | apps/Terminal.tsx:78-80 | the terminal asks to close exactly on `exit`, after logging the command |
| TerminalApp.ShellEvents | App.tsx:387 | a submitted line sends the shell at most one event |
| TerminalApp.ExitClosesTerminalWindow | apps/Terminal.tsx:78-80 | while the terminal is on screen, its line is a run of the shell: `exit` closes and deactivates the Terminal window, any other line leaves the shell unchanged |
| TerminalApp.FixedReplies | apps/Terminal.tsx:57-124 | `help`, `whoami`, `youtube`, `github`, `contact` and `neofetch` log the command and then their fixed reply |
| TerminalApp.AskArguments | apps/Terminal.tsx:126-127 | `ask` has arguments exactly when the trimmed command contains a space |
| TerminalApp.RespondAsk | apps/Terminal.tsx:126-147 | `ask` alone prints the usage; without an API key it prints the key error; otherwise it prints the answer, or the execution error when the call throws |
| TerminalApp.AskErrors | apps/Terminal.tsx:126-134 | the usage and key errors are logged after the command |
| TerminalApp.AskQuery | apps/Terminal.tsx:130 | the query sent is the trimmed command after its first four characters, which are `ask ` in any case |
| TerminalApp.UnknownCommand | apps/Terminal.tsx:149-150 | any other word logs the command and the not-found error naming it |
| TerminalApp.TerminalSession.HandleCommand | apps/Terminal.tsx:44-157 | the fields change and the close request is raised as submitting the command in the model |
| TerminalApp.TerminalSession.Perform | apps/Terminal.tsx:55-156 | applying a command's effect appends the reply, empties the log or requests closing, and always ends processing |

## Left out

- Randomness is a parameter of every operation that uses it, except the Uno start-card reshuffle (next line):
  - the Uno deck shuffle (`apps/Uno.tsx:47`), as any permutation of the deck;
  - the Uno refill shuffle (`apps/Uno.tsx:125`), as a `Shuffler` that the conservation lemmas require to reorder only;
  - the Ludo dice;
  - the chess bot's jitter (`apps/Chess.tsx:183`);
  - the Uno bot's random wild colour.
- UnoApp.UnoGame.StartGame: the reshuffle inside the start-card loop (`apps/Uno.tsx:81`) is replaced by the identity, so a black card put back at the front is followed by the next card of the unchanged deck. With arbitrary reshuffles the loop ends only with probability one: a reshuffle that always brings a black card back to the top never ends it. In the model the start card is therefore the topmost coloured card of the undealt deck; which card a real reshuffle brings to the top is not modelled.
- UnoApp.PickStart: the same identity reshuffle as StartGame, for the same reason.
- UnoApp.UnoGame.PlayBotTurn: the bot's card choice after the source's sort (`apps/Uno.tsx:292-295`) is an input. `BotChoiceOk` only requires it to be a valid card from the bot's hand, and to be absent exactly when the hand holds no valid card. That comparator is not a consistent order, so the exact card JavaScript's sort puts first (and so the preference for coloured cards) is not modelled.
- Timers and delays are collapsed into events:
  - the setup wizard's interval and time-outs;
  - the bots' thinking delays in chess, Uno and Ludo;
  - the Ludo roll animation.

  The interleavings that real time allows between them are not modelled.
- React's batching of state updates is not modelled. Handlers are sequential updates, so the Uno card loss described above is not reproduced.
- The Ludo winner is never set in the source, so the model has none. The finished square 57 that `isValidMove` tests for is never reached, because track moves wrap modulo 52; the home paths are not modelled.
- LudoApp.LudoGame.MovePieceStep uses the corrected capture. The capture as the code writes it is `LudoApp.MovePieceAsWritten` (see Findings).
- The calculator's `eval` is a parameter. JavaScript's expression and floating-point semantics are outside the model; only how its result or exception is shown is modelled.
- The terminal's Gemini request and the `process.env.API_KEY` check are the parameter `Env`. So is whether the request answers or throws.
- TerminalApp.TerminalSession.HandleCommand: the `isProcessing` flag is not observable while the request is awaited. The model shows the state after the handler finishes. Input typed during the request is not modelled.
- TerminalApp.LowerChar: lower-casing covers only A-Z. Other Unicode case mappings are not modelled.
- The shell's systems surrounding the core are not modelled:
  - the outside-click handler and the selected desktop icon (`App.tsx:510-519`);
  - theme, language, wifi, brightness, volume, the copilot panel, the wallpaper, the calendar and the system menu, beyond the flags a dock click resets.
- `window.innerWidth` is the parameter `viewportWidth`. `localStorage` is the single field `storedName`.
- The status messages written through `setLog` in chess, Uno and Ludo are not modelled.
- Rendering is not modelled beyond the window frame's geometry, z-index and title, plus the shell's screen selection and open-app list.
- LudoApp.LudoGame.HandlePieceClick: accepts only pieces whose base button is enabled, as the rendered board does, so the class keeps the stall in Findings; that every pending move can be made is stated only by `LudoApp.IntendedClickMoves`, about the handler on any blue piece.

## Findings

| source | as written | input that shows it | evidently intended | confidence | as-written member | corrected member |
|---|---|---|---|---|---|---|
| apps/Ludo.tsx:103-117 | the first capture sets `opponent.pos = -1` on the shared piece object; the second search in `updatedPieces` then finds the next opponent on the square and sends it back too | green, a bot, at square 3 rolls 2 while two red pieces stand on square 5: both red pieces go back to base | one capture per move: only the first opponent on the landing square goes back | not executed | LudoApp.DoubleCaptureAsWritten | LudoApp.TrackMoveEffect |
| apps/Ludo.tsx:113-117 | the second capture block runs after the leaving-base branch as well, so a piece leaving base captures an opponent on its start square | a blue piece leaves base with a six while a red piece stands on blue's start square 0: the red piece goes back to base | the capture logic belongs to track moves only (it sits in the `else` branch at lines 100-109) | not executed | LudoApp.BaseCaptureAsWritten | LudoApp.LeavingBaseNeverCaptures |
| apps/Ludo.tsx:251-277 | only the base buttons call `handlePieceClick`, and they are disabled once a piece is out; track pieces have no click handler, although `isValidMove` and the roll timer treat them as movable | from a new game: blue rolls 6 and brings a piece out, the bots roll 1 and pass, blue rolls 4; a move is pending, the roll button is disabled and no enabled button acts | track pieces clickable, so that a pending move can be made | not executed | LudoApp.StallScenario | LudoApp.IntendedClickMoves |
