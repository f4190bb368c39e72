/** The Ludo game (apps/Ludo.tsx): sixteen pieces on a 52-square track,
    blue played by the human and the other colours by bots, with move
    validity, leaving base on a six, wrap-around moves, capture and the turn
    rotation.

    Dice rolls are inputs. The source's capture step as written can send
    two pieces home; `MovePieceAsWritten` models it and `MovePiece` models
    the single capture the code evidently intends (see the lemmas at the end).
    The human can click only pieces at base, so a roll of 1 to 5 with a blue
    piece on the track stalls the game (`TrackRollStalls`, `StallScenario`). */
module LudoApp {
  import opened Types

  datatype PlayerColor = Blue | Red | Green | Yellow

  /** A piece; `pos` is -1 at base, otherwise a track square 0..51. */
  datatype Piece = Piece(id: nat, color: PlayerColor, pos: int)

  const Players: seq<PlayerColor> := [Blue, Red, Green, Yellow]

  const Base: int := -1
  const Finished: int := 57
  const TrackLength: int := 52

  /** Where each colour enters the track. */
  function StartPos(c: PlayerColor): int
  {
    match c
    case Blue => 0
    case Red => 13
    case Green => 26
    case Yellow => 39
  }

  function ColorIndex(c: PlayerColor): (i: int)
    ensures 0 <= i < 4 && Players[i] == c
  {
    match c
    case Blue => 0
    case Red => 1
    case Green => 2
    case Yellow => 3
  }

  predicate OnBoard(pos: int)
  {
    pos == Base || 0 <= pos < TrackLength
  }

  /** Sixteen pieces, four per colour in the order blue, red, green, yellow,
      each id equal to its index, each at base or on the track. */
  predicate WellFormed(ps: seq<Piece>)
  {
    |ps| == 16 &&
    forall i :: 0 <= i < |ps| ==> ps[i].id == i && ps[i].color == Players[i / 4] && OnBoard(ps[i].pos)
  }

  function InitialPieces(): seq<Piece>
  {
    seq(16, i requires 0 <= i < 16 => Piece(i, Players[i / 4], Base))
  }

  /** `isValidMove`. */
  predicate IsValidMove(p: Piece, d: int)
  {
    if p.pos == Base then d == 6
    else if p.pos == Finished then false
    else true
  }

  /** Where a moved piece lands: its start square when leaving base
      (whatever the roll), otherwise `(pos + steps) % 52`. */
  function Landing(p: Piece, steps: int): int
  {
    if p.pos == Base then StartPos(p.color) else JsRem(p.pos + steps, TrackLength)
  }

  /** A piece another colour could capture on `pos`. */
  predicate Opposes(q: Piece, pos: int, color: PlayerColor)
  {
    q.pos == pos && q.color != color && q.pos != Base
  }

  /** The first piece `Opposes` matches, or -1 (`find` on the pieces). */
  function FindOpponent(ps: seq<Piece>, pos: int, color: PlayerColor): (i: int)
    ensures -1 <= i < |ps|
    ensures i >= 0 ==> Opposes(ps[i], pos, color) && forall j :: 0 <= j < i ==> !Opposes(ps[j], pos, color)
    ensures i == -1 ==> forall j :: 0 <= j < |ps| ==> !Opposes(ps[j], pos, color)
    decreases |ps|
  {
    if ps == [] then -1
    else if Opposes(ps[0], pos, color) then 0
    else
      var r := FindOpponent(ps[1..], pos, color);
      if r == -1 then -1 else r + 1
  }

  /** The first piece of another colour on `pos`, or -1 (the source's
      `findIndex`, which omits the base test). */
  function FindUnlike(ps: seq<Piece>, pos: int, color: PlayerColor): (i: int)
    ensures -1 <= i < |ps|
    ensures i >= 0 ==> ps[i].pos == pos && ps[i].color != color &&
                       forall j :: 0 <= j < i ==> !(ps[j].pos == pos && ps[j].color != color)
    ensures i == -1 ==> forall j :: 0 <= j < |ps| ==> !(ps[j].pos == pos && ps[j].color != color)
    decreases |ps|
  {
    if ps == [] then -1
    else if ps[0].pos == pos && ps[0].color != color then 0
    else
      var r := FindUnlike(ps[1..], pos, color);
      if r == -1 then -1 else r + 1
  }

  /** Send the piece at index `i` back to base; -1 changes nothing. */
  function SendHome(ps: seq<Piece>, i: int): (r: seq<Piece>)
    ensures |r| == |ps|
  {
    if 0 <= i < |ps| then ps[i := ps[i].(pos := Base)] else ps
  }

  /** The `map` that gives the piece with id `id` its new position. */
  function MoveById(ps: seq<Piece>, id: nat, pos: int): (r: seq<Piece>)
    ensures |r| == |ps|
  {
    seq(|ps|, i requires 0 <= i < |ps| => if ps[i].id == id then ps[i].(pos := pos) else ps[i])
  }

  /** `movePiece` on the pieces, as intended: a track move sends the first
      opponent on the landing square home; leaving base captures nothing. */
  function MovePiece(ps: seq<Piece>, p: Piece, steps: int): (r: seq<Piece>)
    ensures |r| == |ps|
  {
    var newPos := Landing(p, steps);
    if p.pos == Base then MoveById(ps, p.id, newPos)
    else MoveById(SendHome(ps, FindOpponent(ps, newPos, p.color)), p.id, newPos)
  }

  /** `movePiece` exactly as written: the first search mutates the opponent
      in place, so the second search, meant to mirror that capture, finds the
      next opponent on the square instead; and it also runs when leaving base. */
  function MovePieceAsWritten(ps: seq<Piece>, p: Piece, steps: int): (r: seq<Piece>)
    ensures |r| == |ps|
  {
    var newPos := Landing(p, steps);
    var mutated := if p.pos == Base then ps else SendHome(ps, FindOpponent(ps, newPos, p.color));
    var updated := MoveById(mutated, p.id, newPos);
    if FindOpponent(mutated, newPos, p.color) >= 0 then SendHome(updated, FindUnlike(updated, newPos, p.color))
    else updated
  }

  /** The colour after `c` in the order blue, red, green, yellow. */
  function NextPlayer(c: PlayerColor): PlayerColor
  {
    Players[(ColorIndex(c) + 1) % 4]
  }

  // ---------------------------------------------------------------------
  // Game state and handlers

  datatype LudoState = LudoState(pieces: seq<Piece>, turn: PlayerColor, dice: int, rolling: bool, canMove: bool)

  function InitialLudo(): LudoState
  {
    LudoState(InitialPieces(), Blue, 0, false, false)
  }

  /** `nextTurn`. */
  function NextTurn(s: LudoState): LudoState
  {
    s.(turn := NextPlayer(s.turn), canMove := false, dice := 0)
  }

  /** `movePiece` on the game: move, then always end the turn. */
  function Move(s: LudoState, p: Piece, steps: int): LudoState
  {
    NextTurn(s.(pieces := MovePiece(s.pieces, p, steps), canMove := false))
  }

  predicate HasMoves(ps: seq<Piece>, c: PlayerColor, d: int)
  {
    exists i | 0 <= i < |ps| :: ps[i].color == c && IsValidMove(ps[i], d)
  }

  /** `handleRoll` when the button is pressed: the dice start rolling. */
  function PressRoll(s: LudoState): LudoState
  {
    if s.turn != Blue || s.rolling || s.canMove then s else s.(rolling := true)
  }

  /** The roll's timer: the dice show `d`; with a blue move available the
      human may move, otherwise the turn passes. */
  function DiceLands(s: LudoState, d: int): LudoState
  {
    var s1 := s.(dice := d, rolling := false);
    if HasMoves(s.pieces, Blue, d) then s1.(canMove := true) else NextTurn(s1)
  }

  /** `handlePieceClick` on the piece at index `i`. */
  function PieceClick(s: LudoState, i: int): LudoState
    requires 0 <= i < |s.pieces|
  {
    var p := s.pieces[i];
    if s.turn != Blue || !s.canMove || p.color != Blue then s
    else if IsValidMove(p, s.dice) then Move(s, p, s.dice)
    else s
  }

  /** A piece the human can click. Only the base buttons have a click
      handler, and each is disabled once its piece has left base; pieces on
      the track are drawn without one. */
  predicate Clickable(s: LudoState, i: int)
  {
    0 <= i < |s.pieces| && s.pieces[i].pos == Base
  }

  /** The first piece of colour `c` that may leave base (used on a six). */
  function FirstAtBase(ps: seq<Piece>, c: PlayerColor): (i: int)
    ensures -1 <= i < |ps|
    ensures i >= 0 ==> ps[i].color == c && ps[i].pos == Base &&
                       forall j :: 0 <= j < i ==> !(ps[j].color == c && ps[j].pos == Base)
    ensures i == -1 ==> forall j :: 0 <= j < |ps| ==> !(ps[j].color == c && ps[j].pos == Base)
    decreases |ps|
  {
    if ps == [] then -1
    else if ps[0].color == c && ps[0].pos == Base then 0
    else
      var r := FirstAtBase(ps[1..], c);
      if r == -1 then -1 else r + 1
  }

  /** The first piece of colour `c` that may move `d`. */
  function FirstMovable(ps: seq<Piece>, c: PlayerColor, d: int): (i: int)
    ensures -1 <= i < |ps|
    ensures i >= 0 ==> ps[i].color == c && IsValidMove(ps[i], d) &&
                       forall j :: 0 <= j < i ==> !(ps[j].color == c && IsValidMove(ps[j], d))
    ensures i == -1 ==> forall j :: 0 <= j < |ps| ==> !(ps[j].color == c && IsValidMove(ps[j], d))
    decreases |ps|
  {
    if ps == [] then -1
    else if ps[0].color == c && IsValidMove(ps[0], d) then 0
    else
      var r := FirstMovable(ps[1..], c, d);
      if r == -1 then -1 else r + 1
  }

  /** The bot's pick: a piece leaving base on a six if there is one,
      otherwise the first piece that can move; -1 when none can. */
  function BotChoice(ps: seq<Piece>, c: PlayerColor, d: int): int
  {
    if d == 6 && FirstAtBase(ps, c) >= 0 then FirstAtBase(ps, c) else FirstMovable(ps, c, d)
  }

  /** A bot's turn with roll `d`. */
  function BotTurn(s: LudoState, d: int): LudoState
  {
    if s.turn == Blue then s
    else
      var s1 := s.(dice := d, rolling := false);
      var i := BotChoice(s.pieces, s.turn, d);
      if i < 0 then NextTurn(s1) else Move(s1, s.pieces[i], d)
  }

  // ---------------------------------------------------------------------
  // Properties

  lemma InitialWellFormed()
    ensures WellFormed(InitialPieces())
    ensures forall i :: 0 <= i < 16 ==> InitialPieces()[i].pos == Base
  {
  }

  /** On the board a move is refused only to a piece at base without a six:
      the finished square is never reached, so its clause never applies. */
  lemma ValidMoveOnBoard(p: Piece, d: int)
    requires OnBoard(p.pos)
    ensures IsValidMove(p, d) <==> p.pos != Base || d == 6
  {
  }

  /** Leaving base lands on the colour's start square, whatever the roll. */
  lemma LeavingBaseLandsOnStart(ps: seq<Piece>, k: int, steps: int)
    requires WellFormed(ps) && 0 <= k < 16 && ps[k].pos == Base
    ensures MovePiece(ps, ps[k], steps)[k].pos == StartPos(ps[k].color)
  {
  }

  /** A track move advances modulo 52 and stays on the track. */
  lemma TrackMoveWraps(p: Piece, steps: int)
    requires 0 <= p.pos && 0 <= steps
    ensures Landing(p, steps) == (p.pos + steps) % TrackLength
    ensures 0 <= Landing(p, steps) < TrackLength
  {
  }

  /** A track move changes exactly the mover and the first opponent on the
      landing square, which goes back to base; every other piece keeps its
      place. */
  lemma TrackMoveEffect(ps: seq<Piece>, k: int, steps: int)
    requires WellFormed(ps) && 0 <= k < 16 && ps[k].pos != Base
    ensures var land := Landing(ps[k], steps);
            var victim := FindOpponent(ps, land, ps[k].color);
            var r := MovePiece(ps, ps[k], steps);
            r[k] == ps[k].(pos := land) &&
            (victim >= 0 ==> r[victim] == ps[victim].(pos := Base)) &&
            (forall i :: 0 <= i < 16 && i != k && i != victim ==> r[i] == ps[i])
  {
    var land := Landing(ps[k], steps);
    var victim := FindOpponent(ps, land, ps[k].color);
    var mid := SendHome(ps, victim);
    assert forall i :: 0 <= i < 16 ==> mid[i].id == ps[i].id;
  }

  /** Leaving base moves the piece alone: nothing is captured. */
  lemma LeavingBaseNeverCaptures(ps: seq<Piece>, k: int, steps: int)
    requires WellFormed(ps) && 0 <= k < 16 && ps[k].pos == Base
    ensures forall i :: 0 <= i < 16 && i != k ==> MovePiece(ps, ps[k], steps)[i] == ps[i]
  {
  }

  /** A move never sends a piece of the mover's own colour home. */
  lemma OwnColourSafe(ps: seq<Piece>, k: int, steps: int)
    requires WellFormed(ps) && 0 <= k < 16
    ensures forall i :: 0 <= i < 16 && i != k && ps[i].color == ps[k].color ==>
              MovePiece(ps, ps[k], steps)[i] == ps[i]
  {
    if ps[k].pos != Base {
      TrackMoveEffect(ps, k, steps);
    }
  }

  /** Ids and colours never change and every piece stays at base or on the track. */
  lemma MovePreservesWellFormed(ps: seq<Piece>, k: int, steps: int)
    requires WellFormed(ps) && 0 <= k < 16 && 0 <= steps
    ensures WellFormed(MovePiece(ps, ps[k], steps))
  {
    if ps[k].pos != Base {
      TrackMoveEffect(ps, k, steps);
    }
  }

  /** The turn cycles blue, red, green, yellow and back to blue. */
  lemma TurnCycle(c: PlayerColor)
    ensures NextPlayer(Blue) == Red && NextPlayer(Red) == Green
    ensures NextPlayer(Green) == Yellow && NextPlayer(Yellow) == Blue
    ensures NextPlayer(NextPlayer(NextPlayer(NextPlayer(c)))) == c
    ensures NextPlayer(c) != c
  {
  }

  /** Every move ends the turn, a six included: the next colour is up, the
      dice show 0 and no move is pending. */
  lemma MoveEndsTurn(s: LudoState, p: Piece, steps: int)
    ensures Move(s, p, steps).turn == NextPlayer(s.turn)
    ensures Move(s, p, steps).dice == 0 && !Move(s, p, steps).canMove
    ensures Move(s, p, steps).pieces == MovePiece(s.pieces, p, steps)
  {
  }

  /** The roll button works only on blue's turn, when the dice are not
      already rolling and no move is pending. */
  lemma RollGuard(s: LudoState)
    ensures PressRoll(s) != s <==> s.turn == Blue && !s.rolling && !s.canMove
    ensures PressRoll(s) != s ==> PressRoll(s) == s.(rolling := true)
  {
  }

  /** After the roll the human may move exactly when some blue piece can. */
  lemma DiceLandsEffect(s: LudoState, d: int)
    requires s.turn == Blue
    ensures DiceLands(s, d).canMove <==> HasMoves(s.pieces, Blue, d)
    ensures !DiceLands(s, d).rolling && DiceLands(s, d).pieces == s.pieces
    ensures HasMoves(s.pieces, Blue, d) ==> DiceLands(s, d).dice == d && DiceLands(s, d).turn == Blue
    ensures !HasMoves(s.pieces, Blue, d) ==> DiceLands(s, d).turn == Red
  {
  }

  /** A click moves a piece only on blue's turn, with a move pending, on a
      blue piece that can move the rolled number; otherwise nothing changes. */
  lemma PieceClickGuard(s: LudoState, i: int)
    requires 0 <= i < |s.pieces|
    ensures PieceClick(s, i) != s ==>
              s.turn == Blue && s.canMove && s.pieces[i].color == Blue && IsValidMove(s.pieces[i], s.dice)
    ensures s.turn == Blue && s.canMove && s.pieces[i].color == Blue && IsValidMove(s.pieces[i], s.dice) ==>
              PieceClick(s, i) == Move(s, s.pieces[i], s.dice)
  {
  }

  /** A click the program can deliver moves a piece exactly on blue's turn,
      with a move pending, on a blue piece, after a six; the piece then
      leaves base for its start square. */
  lemma ClickableClick(s: LudoState, i: int)
    requires WellFormed(s.pieces) && Clickable(s, i)
    ensures PieceClick(s, i) != s <==> s.turn == Blue && s.canMove && s.pieces[i].color == Blue && s.dice == 6
    ensures PieceClick(s, i) != s ==> PieceClick(s, i).pieces[i].pos == StartPos(Blue)
  {
    if PieceClick(s, i) != s {
      LeavingBaseLandsOnStart(s.pieces, i, s.dice);
    }
  }

  /** As written, once the dice land with a move pending, the human can go
      on exactly when the roll is a six and a blue piece is at base. Otherwise
      the roll button is off, the bots wait for blue, and no click the program
      can deliver changes anything. */
  lemma PendingMoveNeedsBasePiece(s: LudoState, d: int, e: int)
    requires s.turn == Blue && HasMoves(s.pieces, Blue, d)
    ensures var t := DiceLands(s, d);
            t.canMove && t.turn == Blue && PressRoll(t) == t && BotTurn(t, e) == t &&
            ((exists i :: Clickable(t, i) && PieceClick(t, i) != t) <==>
               d == 6 && exists j :: 0 <= j < |s.pieces| && s.pieces[j].color == Blue && s.pieces[j].pos == Base)
  {
    var t := DiceLands(s, d);
    if d == 6 && exists j :: 0 <= j < |s.pieces| && s.pieces[j].color == Blue && s.pieces[j].pos == Base {
      var j :| 0 <= j < |s.pieces| && s.pieces[j].color == Blue && s.pieces[j].pos == Base;
      PieceClickGuard(t, j);
      MoveEndsTurn(t, t.pieces[j], t.dice);
      assert Clickable(t, j) && PieceClick(t, j) != t;
    }
  }

  /** As written, a roll of 1 to 5 with a blue piece on the track stalls the
      game: nothing the program can deliver changes the state. */
  lemma TrackRollStalls(s: LudoState, d: int)
    requires s.turn == Blue && d != 6
    requires exists j :: 0 <= j < |s.pieces| && s.pieces[j].color == Blue && 0 <= s.pieces[j].pos < TrackLength
    ensures var t := DiceLands(s, d);
            t.canMove && PressRoll(t) == t &&
            (forall e :: BotTurn(t, e) == t) &&
            (forall i :: Clickable(t, i) ==> PieceClick(t, i) == t)
  {
    var j :| 0 <= j < |s.pieces| && s.pieces[j].color == Blue && 0 <= s.pieces[j].pos < TrackLength;
    assert IsValidMove(s.pieces[j], d);
  }

  /** The first blue piece is on square 0 and every other piece is at base. */
  predicate OneOut(ps: seq<Piece>)
  {
    WellFormed(ps) && ps[0].pos == 0 && forall i :: 1 <= i < 16 ==> ps[i].pos == Base
  }

  /** From a new game, blue rolls a six and clicks its first piece out of base. */
  lemma FirstPieceOut()
    ensures var s2 := DiceLands(PressRoll(InitialLudo()), 6);
            Clickable(s2, 0) && PieceClick(s2, 0).turn == Red && OneOut(PieceClick(s2, 0).pieces)
  {
    var s0 := InitialLudo();
    InitialWellFormed();
    assert s0.pieces[0].color == Blue && IsValidMove(s0.pieces[0], 6);
    var s2 := DiceLands(PressRoll(s0), 6);
    assert s2.pieces == s0.pieces && s2.canMove && s2.dice == 6 && s2.turn == Blue;
    PieceClickGuard(s2, 0);
    MoveEndsTurn(s2, s2.pieces[0], 6);
    MovePreservesWellFormed(s2.pieces, 0, 6);
    LeavingBaseNeverCaptures(s2.pieces, 0, 6);
    LeavingBaseLandsOnStart(s2.pieces, 0, 6);
  }

  /** A bot with all its pieces at base and a roll of one passes. */
  lemma BotWithoutMovesPasses(s: LudoState)
    requires s.turn != Blue && OneOut(s.pieces)
    ensures BotTurn(s, 1).turn == NextPlayer(s.turn) && BotTurn(s, 1).pieces == s.pieces
  {
    BotChoiceSound(s.pieces, s.turn, 1);
    assert !HasMoves(s.pieces, s.turn, 1);
  }

  /** From red's turn with one blue piece out, the bots roll ones and pass,
      blue rolls a four, and the game stalls. */
  lemma StallAfterFirstPiece(s3: LudoState)
    requires s3.turn == Red && OneOut(s3.pieces)
    ensures var s6 := BotTurn(BotTurn(BotTurn(s3, 1), 1), 1);
            var s8 := DiceLands(PressRoll(s6), 4);
            s6.turn == Blue && s8.canMove && PressRoll(s8) == s8 &&
            (forall i :: Clickable(s8, i) ==> PieceClick(s8, i) == s8)
  {
    BotWithoutMovesPasses(s3);
    var s4 := BotTurn(s3, 1);
    BotWithoutMovesPasses(s4);
    var s5 := BotTurn(s4, 1);
    BotWithoutMovesPasses(s5);
    var s6 := BotTurn(s5, 1);
    var s7 := PressRoll(s6);
    assert s7.pieces[0].color == Blue && 0 <= s7.pieces[0].pos < TrackLength;
    TrackRollStalls(s7, 4);
  }

  /** The stall is reachable from a new game: blue rolls a six and brings a
      piece out, the three bots roll ones and have no move, and blue rolls a
      four. The roll button is then off and no deliverable click acts. */
  lemma StallScenario()
    ensures var s3 := PieceClick(DiceLands(PressRoll(InitialLudo()), 6), 0);
            var s6 := BotTurn(BotTurn(BotTurn(s3, 1), 1), 1);
            var s8 := DiceLands(PressRoll(s6), 4);
            s6.turn == Blue && s8.canMove && PressRoll(s8) == s8 &&
            (forall i :: Clickable(s8, i) ==> PieceClick(s8, i) == s8)
  {
    FirstPieceOut();
    StallAfterFirstPiece(PieceClick(DiceLands(PressRoll(InitialLudo()), 6), 0));
  }

  /** With every blue piece clickable, as the handler and `isValidMove`
      evidently intend, a pending move can always be made. */
  lemma IntendedClickMoves(s: LudoState, d: int)
    requires s.turn == Blue && HasMoves(s.pieces, Blue, d)
    ensures var t := DiceLands(s, d);
            t.canMove && exists i :: 0 <= i < |t.pieces| && PieceClick(t, i) != t
  {
    var t := DiceLands(s, d);
    var i :| 0 <= i < |s.pieces| && s.pieces[i].color == Blue && IsValidMove(s.pieces[i], d);
    PieceClickGuard(t, i);
    MoveEndsTurn(t, t.pieces[i], t.dice);
  }

  /** The bot moves one of its own pieces that can move, preferring to
      leave base on a six, and passes exactly when it has no move. */
  lemma BotChoiceSound(ps: seq<Piece>, c: PlayerColor, d: int)
    ensures var i := BotChoice(ps, c, d);
            -1 <= i < |ps| &&
            (i >= 0 ==> ps[i].color == c && IsValidMove(ps[i], d)) &&
            (i == -1 <==> !HasMoves(ps, c, d)) &&
            (d == 6 && (exists j | 0 <= j < |ps| :: ps[j].color == c && ps[j].pos == Base) ==>
               i >= 0 && ps[i].pos == Base)
  {
  }

  /** Seats other than blue never wait on the human: a bot turn always
      hands the turn on. */
  lemma BotTurnPasses(s: LudoState, d: int)
    requires s.turn != Blue
    ensures BotTurn(s, d).turn == NextPlayer(s.turn) && BotTurn(s, d).dice == 0
  {
  }

  // ---------------------------------------------------------------------
  // The capture step as written

  lemma FirstMatchesAgree(ps: seq<Piece>, qs: seq<Piece>, pos: int, color: PlayerColor)
    requires pos != Base && |ps| == |qs|
    requires forall i :: 0 <= i < |qs| ==> qs[i] == ps[i] || (qs[i].color == color && ps[i].color == color)
    ensures FindUnlike(qs, pos, color) == FindOpponent(ps, pos, color)
  {
  }

  /** As written, a track move onto a square holding two opponents sends
      both home (for example green, a bot, at 3 rolling 2 onto two red pieces at 5),
      where the intended move sends only the first. */
  lemma DoubleCaptureAsWritten(ps: seq<Piece>, k: int, steps: int)
    requires WellFormed(ps) && 0 <= k < 16 && ps[k].pos != Base
    requires var land := Landing(ps[k], steps);
             FindOpponent(ps, land, ps[k].color) >= 0 &&
             FindOpponent(SendHome(ps, FindOpponent(ps, land, ps[k].color)), land, ps[k].color) >= 0
    ensures var land := Landing(ps[k], steps);
            var first := FindOpponent(ps, land, ps[k].color);
            var second := FindOpponent(SendHome(ps, first), land, ps[k].color);
            first != second &&
            MovePieceAsWritten(ps, ps[k], steps)[first].pos == Base &&
            MovePieceAsWritten(ps, ps[k], steps)[second].pos == Base &&
            MovePiece(ps, ps[k], steps)[second] == ps[second] && ps[second].pos != Base
  {
    var land := Landing(ps[k], steps);
    var c := ps[k].color;
    var first := FindOpponent(ps, land, c);
    var mutated := SendHome(ps, first);
    var second := FindOpponent(mutated, land, c);
    var updated := MoveById(mutated, ps[k].id, land);
    assert forall i :: 0 <= i < 16 ==> mutated[i].id == ps[i].id && mutated[i].color == ps[i].color;
    FirstMatchesAgree(mutated, updated, land, c);
    assert second != k;
    TrackMoveEffect(ps, k, steps);
  }

  /** As written, leaving base onto a start square held by an opponent sends
      that opponent home (for example blue leaving base while a red piece
      stands on square 0), where the intended move captures only on the track. */
  lemma BaseCaptureAsWritten(ps: seq<Piece>, k: int, steps: int)
    requires WellFormed(ps) && 0 <= k < 16 && ps[k].pos == Base
    requires FindOpponent(ps, StartPos(ps[k].color), ps[k].color) >= 0
    ensures var victim := FindOpponent(ps, StartPos(ps[k].color), ps[k].color);
            MovePieceAsWritten(ps, ps[k], steps)[victim].pos == Base &&
            MovePiece(ps, ps[k], steps)[victim] == ps[victim] && ps[victim].pos != Base
  {
    var land := StartPos(ps[k].color);
    var updated := MoveById(ps, ps[k].id, land);
    FirstMatchesAgree(ps, updated, land, ps[k].color);
  }

  /** Where neither case arises, the code as written and the intended move agree. */
  lemma AsWrittenAgreesOtherwise(ps: seq<Piece>, k: int, steps: int)
    requires WellFormed(ps) && 0 <= k < 16
    requires var land := Landing(ps[k], steps);
             var c := ps[k].color;
             if ps[k].pos == Base then FindOpponent(ps, land, c) == -1
             else FindOpponent(ps, land, c) == -1 || FindOpponent(SendHome(ps, FindOpponent(ps, land, c)), land, c) == -1
    ensures MovePieceAsWritten(ps, ps[k], steps) == MovePiece(ps, ps[k], steps)
  {
  }

  // ---------------------------------------------------------------------
  // The game as an object with fields

  class LudoGame {
    var pieces: seq<Piece>
    var turn: PlayerColor
    var dice: int
    var rolling: bool
    var canMove: bool

    function State(): LudoState
      reads this
    {
      LudoState(pieces, turn, dice, rolling, canMove)
    }

    constructor ()
      ensures State() == InitialLudo()
    {
      pieces := InitialPieces();
      turn := Blue;
      dice := 0;
      rolling := false;
      canMove := false;
    }

    method NextTurnStep()
      modifies this
      ensures State() == NextTurn(old(State()))
    {
      turn := Players[(ColorIndex(turn) + 1) % 4];
      canMove := false;
      dice := 0;
    }

    method MovePieceStep(p: Piece, steps: int)
      modifies this
      ensures State() == Move(old(State()), p, steps)
    {
      var newPos := Landing(p, steps);
      if p.pos != Base {
        var opponent := FindOpponent(pieces, newPos, p.color);
        pieces := SendHome(pieces, opponent);
      }
      pieces := MoveById(pieces, p.id, newPos);
      canMove := false;
      NextTurnStep();
    }

    method HandleRoll()
      modifies this
      ensures State() == PressRoll(old(State()))
    {
      if turn != Blue || rolling || canMove {
        return;
      }
      rolling := true;
    }

    method RollTimer(d: int)
      modifies this
      ensures State() == DiceLands(old(State()), d)
    {
      var hasMoves := HasMoves(pieces, Blue, d);
      dice := d;
      rolling := false;
      if hasMoves {
        canMove := true;
      } else {
        NextTurnStep();
      }
    }

    method HandlePieceClick(i: int)
      requires Clickable(State(), i)
      modifies this
      ensures State() == PieceClick(old(State()), i)
    {
      var p := pieces[i];
      if turn != Blue || !canMove || p.color != Blue {
        return;
      }
      if IsValidMove(p, dice) {
        MovePieceStep(p, dice);
      }
    }

    method BotMove(d: int)
      modifies this
      ensures State() == BotTurn(old(State()), d)
    {
      if turn == Blue {
        return;
      }
      var choice := BotChoice(pieces, turn, d);
      var chosen := if choice >= 0 then pieces[choice] else Piece(0, Blue, Base);
      dice := d;
      rolling := false;
      if choice < 0 {
        NextTurnStep();
      } else {
        MovePieceStep(chosen, d);
      }
    }
  }
}
