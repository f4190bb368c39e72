/** The chess game (apps/Chess.tsx): an 8x8 board, simplified move
    generation (no castling, en passant or check), moves with automatic
    promotion to a queen, the win when a king is captured, the human's
    square clicks and the computer's reply for black. */
module ChessApp {
  import opened Types

  datatype Color = White | Black
  datatype Kind = King | Queen | Rook | Bishop | Knight | Pawn
  datatype Piece = Piece(color: Color, kind: Kind)

  /** A square is empty (`''` in the source) or holds one piece. */
  type Square = Option<Piece>

  /** Rows top to bottom, columns left to right; black starts on rows 0-1. */
  type Board = seq<seq<Square>>

  datatype Pos = Pos(r: int, c: int)

  predicate IsValidPos(r: int, c: int)
  {
    0 <= r < 8 && 0 <= c < 8
  }

  predicate ValidBoard(b: Board)
  {
    |b| == 8 && forall i :: 0 <= i < 8 ==> |b[i]| == 8
  }

  function At(b: Board, r: int, c: int): Square
    requires ValidBoard(b) && IsValidPos(r, c)
  {
    b[r][c]
  }

  function Other(c: Color): Color
  {
    if c == White then Black else White
  }

  /** A square a piece of `color` may move to: empty or held by the other side. */
  predicate Enterable(b: Board, color: Color, r: int, c: int)
    requires ValidBoard(b) && IsValidPos(r, c)
  {
    At(b, r, c).None? || At(b, r, c).value.color != color
  }

  // ---------------------------------------------------------------------
  // Move generation, as lists in the order the source pushes them

  const KnightJumps: seq<Pos> :=
    [Pos(-2, -1), Pos(-2, 1), Pos(-1, -2), Pos(-1, 2), Pos(1, -2), Pos(1, 2), Pos(2, -1), Pos(2, 1)]

  const KingSteps: seq<Pos> :=
    [Pos(-1, -1), Pos(-1, 0), Pos(-1, 1), Pos(0, -1), Pos(0, 1), Pos(1, -1), Pos(1, 0), Pos(1, 1)]

  const RookDirs: seq<Pos> := [Pos(0, 1), Pos(0, -1), Pos(1, 0), Pos(-1, 0)]

  const BishopDirs: seq<Pos> := [Pos(1, 1), Pos(1, -1), Pos(-1, 1), Pos(-1, -1)]

  /** The directions a slider walks: orthogonal for rook and queen, then
      diagonal for bishop and queen. */
  function SliderDirs(k: Kind): seq<Pos>
  {
    (if k == Rook || k == Queen then RookDirs else []) +
    (if k == Bishop || k == Queen then BishopDirs else [])
  }

  /** The jump or step to `(r, c) + d`, when it is on the board and enterable. */
  function StepTarget(b: Board, color: Color, r: int, c: int, d: Pos): seq<Pos>
    requires ValidBoard(b)
  {
    var nr := r + d.r;
    var nc := c + d.c;
    if IsValidPos(nr, nc) && Enterable(b, color, nr, nc) then [Pos(nr, nc)] else []
  }

  /** Knight and king moves: one candidate per offset. */
  function StepTargets(b: Board, color: Color, r: int, c: int, offsets: seq<Pos>): seq<Pos>
    requires ValidBoard(b)
    decreases |offsets|
  {
    if offsets == [] then []
    else StepTargets(b, color, r, c, offsets[..|offsets| - 1]) + StepTarget(b, color, r, c, offsets[|offsets| - 1])
  }

  predicate UnitDir(d: Pos)
  {
    -1 <= d.r <= 1 && -1 <= d.c <= 1 && d != Pos(0, 0)
  }

  /** How many more squares a walk in direction `dx` can take from `x`. */
  function Span(x: int, dx: int): int
  {
    if dx > 0 then 8 - x else if dx < 0 then x + 1 else 0
  }

  /** A slider's walk starting at `(r, c)`: empty squares, then the first
      occupied square if it holds an enemy. */
  function Ray(b: Board, color: Color, r: int, c: int, d: Pos): seq<Pos>
    requires ValidBoard(b) && UnitDir(d)
    decreases Span(r, d.r) + Span(c, d.c)
  {
    if !IsValidPos(r, c) then []
    else if At(b, r, c).None? then [Pos(r, c)] + Ray(b, color, r + d.r, c + d.c, d)
    else if At(b, r, c).value.color != color then [Pos(r, c)]
    else []
  }

  function Rays(b: Board, color: Color, r: int, c: int, dirs: seq<Pos>): seq<Pos>
    requires ValidBoard(b) && forall i :: 0 <= i < |dirs| ==> UnitDir(dirs[i])
    decreases |dirs|
  {
    if dirs == [] then []
    else
      var d := dirs[|dirs| - 1];
      Rays(b, color, r, c, dirs[..|dirs| - 1]) + Ray(b, color, r + d.r, c + d.c, d)
  }

  /** A pawn's diagonal to `(nr, nc)`, taken only onto an enemy piece. */
  function PawnCapture(b: Board, color: Color, nr: int, nc: int): seq<Pos>
    requires ValidBoard(b)
  {
    if IsValidPos(nr, nc) && At(b, nr, nc).Some? && At(b, nr, nc).value.color != color
    then [Pos(nr, nc)] else []
  }

  function PawnDir(color: Color): int
  {
    if color == White then -1 else 1
  }

  function PawnStartRow(color: Color): int
  {
    if color == White then 6 else 1
  }

  /** The pawn's forward steps: one onto an empty square, and a second from
      the start row when that square is empty too. */
  function PawnAdvance(b: Board, color: Color, r: int, c: int): seq<Pos>
    requires ValidBoard(b)
  {
    var dir := PawnDir(color);
    if IsValidPos(r + dir, c) && At(b, r + dir, c).None? then
      [Pos(r + dir, c)] +
      (if r == PawnStartRow(color) && At(b, r + dir * 2, c).None? then [Pos(r + dir * 2, c)] else [])
    else []
  }

  /** The diagonal captures into row `nr` at the columns listed. */
  function PawnCaptures(b: Board, color: Color, nr: int, cols: seq<int>): seq<Pos>
    requires ValidBoard(b)
    decreases |cols|
  {
    if cols == [] then []
    else PawnCaptures(b, color, nr, cols[..|cols| - 1]) + PawnCapture(b, color, nr, cols[|cols| - 1])
  }

  function PawnMoves(b: Board, color: Color, r: int, c: int): seq<Pos>
    requires ValidBoard(b)
  {
    PawnAdvance(b, color, r, c) + PawnCaptures(b, color, r + PawnDir(color), [c - 1, c + 1])
  }

  lemma SliderDirsUnit(k: Kind)
    ensures forall i :: 0 <= i < |SliderDirs(k)| ==> UnitDir(SliderDirs(k)[i])
  {
  }

  /** The moves of the piece on `(r, c)`, in the order the source lists them. */
  function Moves(b: Board, r: int, c: int): seq<Pos>
    requires ValidBoard(b) && IsValidPos(r, c)
  {
    match At(b, r, c)
    case None => []
    case Some(p) =>
      match p.kind
      case Pawn => PawnMoves(b, p.color, r, c)
      case Knight => StepTargets(b, p.color, r, c, KnightJumps)
      case King => StepTargets(b, p.color, r, c, KingSteps)
      case _ => SliderDirsUnit(p.kind); Rays(b, p.color, r, c, SliderDirs(p.kind))
  }

  // ---------------------------------------------------------------------
  // The move generator as the source writes it

  /** One step of a walk, unfolded. */
  lemma RayStep(b: Board, color: Color, r: int, c: int, d: Pos)
    requires ValidBoard(b) && UnitDir(d) && IsValidPos(r, c)
    ensures At(b, r, c).None? ==> Ray(b, color, r, c, d) == [Pos(r, c)] + Ray(b, color, r + d.r, c + d.c, d)
    ensures At(b, r, c).Some? ==>
              Ray(b, color, r, c, d) == if At(b, r, c).value.color != color then [Pos(r, c)] else []
  {
  }

  /** Walks one direction from `(r0, c0)` until it leaves the board or meets a piece. */
  method WalkRay(b: Board, color: Color, r0: int, c0: int, d: Pos) returns (ray: seq<Pos>)
    requires ValidBoard(b) && UnitDir(d)
    ensures ray == Ray(b, color, r0, c0, d)
  {
    var nr, nc := r0, c0;
    ray := [];
    while IsValidPos(nr, nc)
      invariant ray + Ray(b, color, nr, nc, d) == Ray(b, color, r0, c0, d)
      decreases Span(nr, d.r) + Span(nc, d.c)
    {
      RayStep(b, color, nr, nc, d);
      var target := b[nr][nc];
      if target.None? {
        assert ray + [Pos(nr, nc)] + Ray(b, color, nr + d.r, nc + d.c, d) ==
               ray + ([Pos(nr, nc)] + Ray(b, color, nr + d.r, nc + d.c, d));
        ray := ray + [Pos(nr, nc)];
      } else {
        if target.value.color != color {
          ray := ray + [Pos(nr, nc)];
        } else {
          assert ray + [] == ray;
        }
        return;
      }
      nr := nr + d.r;
      nc := nc + d.c;
    }
    assert ray + [] == ray;
  }

  method SlideMoves(b: Board, color: Color, r: int, c: int, dirs: seq<Pos>) returns (moves: seq<Pos>)
    requires ValidBoard(b) && forall i :: 0 <= i < |dirs| ==> UnitDir(dirs[i])
    ensures moves == Rays(b, color, r, c, dirs)
  {
    moves := [];
    for i := 0 to |dirs|
      invariant moves == Rays(b, color, r, c, dirs[..i])
    {
      var ray := WalkRay(b, color, r + dirs[i].r, c + dirs[i].c, dirs[i]);
      assert dirs[..i + 1][..i] == dirs[..i];
      moves := moves + ray;
    }
    assert dirs[..|dirs|] == dirs;
  }

  /** The `addMove` loop over a list of jumps or steps. */
  method StepMoves(b: Board, color: Color, r: int, c: int, offsets: seq<Pos>) returns (moves: seq<Pos>)
    requires ValidBoard(b)
    ensures moves == StepTargets(b, color, r, c, offsets)
  {
    moves := [];
    for i := 0 to |offsets|
      invariant moves == StepTargets(b, color, r, c, offsets[..i])
    {
      var extra := OneStep(b, color, r, c, offsets[i]);
      StepTargetsSnoc(b, color, r, c, offsets, i);
      moves := moves + extra;
    }
    assert offsets[..|offsets|] == offsets;
  }

  /** One offset of the knight's or king's loop. */
  method OneStep(b: Board, color: Color, r: int, c: int, d: Pos) returns (extra: seq<Pos>)
    requires ValidBoard(b)
    ensures extra == StepTarget(b, color, r, c, d)
  {
    var nr := r + d.r;
    var nc := c + d.c;
    extra := [];
    if IsValidPos(nr, nc) {
      var target := b[nr][nc];
      if target.None? || target.value.color != color {
        extra := [Pos(nr, nc)];
      }
    }
  }

  lemma StepTargetsSnoc(b: Board, color: Color, r: int, c: int, offsets: seq<Pos>, i: nat)
    requires ValidBoard(b) && i < |offsets|
    ensures StepTargets(b, color, r, c, offsets[..i + 1]) ==
            StepTargets(b, color, r, c, offsets[..i]) + StepTarget(b, color, r, c, offsets[i])
  {
    assert offsets[..i + 1][..i] == offsets[..i];
  }

  method PawnForward(b: Board, color: Color, r: int, c: int) returns (moves: seq<Pos>)
    requires ValidBoard(b)
    ensures moves == PawnAdvance(b, color, r, c)
  {
    var dir := if color == White then -1 else 1;
    var startRow := if color == White then 6 else 1;
    moves := [];
    if IsValidPos(r + dir, c) && b[r + dir][c].None? {
      moves := moves + [Pos(r + dir, c)];
      if r == startRow && b[r + dir * 2][c].None? {
        moves := moves + [Pos(r + dir * 2, c)];
      }
    }
  }

  method PawnMovesOf(b: Board, color: Color, r: int, c: int) returns (moves: seq<Pos>)
    requires ValidBoard(b)
    ensures moves == PawnMoves(b, color, r, c)
  {
    var advance := PawnForward(b, color, r, c);
    var captures := DiagonalCaptures(b, color, r + PawnDir(color), [c - 1, c + 1]);
    moves := advance + captures;
  }

  /** The pawn's capture loop over the diagonal columns. */
  method DiagonalCaptures(b: Board, color: Color, nr: int, cols: seq<int>) returns (moves: seq<Pos>)
    requires ValidBoard(b)
    ensures moves == PawnCaptures(b, color, nr, cols)
  {
    moves := [];
    for i := 0 to |cols|
      invariant moves == PawnCaptures(b, color, nr, cols[..i])
    {
      var extra := DiagonalCapture(b, color, nr, cols[i]);
      PawnCapturesSnoc(b, color, nr, cols, i);
      moves := moves + extra;
    }
    assert cols[..|cols|] == cols;
  }

  /** One more column of the capture loop adds that column's capture. */
  lemma PawnCapturesSnoc(b: Board, color: Color, nr: int, cols: seq<int>, i: nat)
    requires ValidBoard(b) && i < |cols|
    ensures PawnCaptures(b, color, nr, cols[..i + 1]) ==
            PawnCaptures(b, color, nr, cols[..i]) + PawnCapture(b, color, nr, cols[i])
  {
    assert cols[..i + 1][..i] == cols[..i];
  }

  /** One diagonal of the pawn's capture loop. */
  method DiagonalCapture(b: Board, color: Color, nr: int, nc: int) returns (extra: seq<Pos>)
    requires ValidBoard(b)
    ensures extra == PawnCapture(b, color, nr, nc)
  {
    extra := [];
    if IsValidPos(nr, nc) {
      var target := b[nr][nc];
      if target.Some? && target.value.color != color {
        extra := [Pos(nr, nc)];
      }
    }
  }


  /** `getMoves`: the piece's moves, computed on the board passed in. */
  method GetMoves(b: Board, r: int, c: int) returns (moves: seq<Pos>)
    requires ValidBoard(b) && IsValidPos(r, c)
    ensures moves == Moves(b, r, c)
  {
    var piece := b[r][c];
    if piece.None? {
      return [];
    }
    var color := piece.value.color;
    match piece.value.kind
    case Pawn => moves := PawnMovesOf(b, color, r, c);
    case Knight => moves := StepMoves(b, color, r, c, KnightJumps);
    case King => moves := StepMoves(b, color, r, c, KingSteps);
    case _ =>
      SliderDirsUnit(piece.value.kind);
      moves := SlideMoves(b, color, r, c, SliderDirs(piece.value.kind));
  }

  // ---------------------------------------------------------------------
  // Properties of move generation

  /** Every move a generated list holds is on the board and enterable. */
  ghost predicate AllEnterable(b: Board, color: Color, moves: seq<Pos>)
    requires ValidBoard(b)
  {
    forall i :: 0 <= i < |moves| ==>
      IsValidPos(moves[i].r, moves[i].c) && Enterable(b, color, moves[i].r, moves[i].c)
  }

  lemma {:induction false} StepTargetsSound(b: Board, color: Color, r: int, c: int, offsets: seq<Pos>)
    requires ValidBoard(b)
    ensures AllEnterable(b, color, StepTargets(b, color, r, c, offsets))
    ensures |StepTargets(b, color, r, c, offsets)| <= |offsets|
    decreases |offsets|
  {
    if offsets != [] {
      StepTargetsSound(b, color, r, c, offsets[..|offsets| - 1]);
    }
  }

  lemma {:induction false} RaySound(b: Board, color: Color, r: int, c: int, d: Pos)
    requires ValidBoard(b) && UnitDir(d)
    ensures AllEnterable(b, color, Ray(b, color, r, c, d))
    decreases Span(r, d.r) + Span(c, d.c)
  {
    if IsValidPos(r, c) && At(b, r, c).None? {
      RaySound(b, color, r + d.r, c + d.c, d);
    }
  }

  lemma {:induction false} RaysSound(b: Board, color: Color, r: int, c: int, dirs: seq<Pos>)
    requires ValidBoard(b) && forall i :: 0 <= i < |dirs| ==> UnitDir(dirs[i])
    ensures AllEnterable(b, color, Rays(b, color, r, c, dirs))
    decreases |dirs|
  {
    if dirs != [] {
      var d := dirs[|dirs| - 1];
      RaysSound(b, color, r, c, dirs[..|dirs| - 1]);
      RaySound(b, color, r + d.r, c + d.c, d);
    }
  }

  lemma PawnCapturesBoth(b: Board, color: Color, nr: int, c: int)
    requires ValidBoard(b)
    ensures PawnCaptures(b, color, nr, [c - 1, c + 1]) ==
            PawnCapture(b, color, nr, c - 1) + PawnCapture(b, color, nr, c + 1)
  {
    var cols := [c - 1, c + 1];
    assert cols[..1] == [c - 1];
    assert [c - 1][..0] == [];
    assert PawnCaptures(b, color, nr, [c - 1]) == [] + PawnCapture(b, color, nr, c - 1);
    assert PawnCaptures(b, color, nr, cols) ==
           PawnCaptures(b, color, nr, [c - 1]) + PawnCapture(b, color, nr, c + 1);
  }

  lemma PawnMovesSound(b: Board, color: Color, r: int, c: int)
    requires ValidBoard(b)
    ensures AllEnterable(b, color, PawnMoves(b, color, r, c))
  {
    PawnCapturesBoth(b, color, r + PawnDir(color), c);
  }

  /** Every generated move is on the board and never lands on a piece of the
      mover's own colour; an empty square has no moves. */
  lemma MovesSound(b: Board, r: int, c: int)
    requires ValidBoard(b) && IsValidPos(r, c)
    ensures At(b, r, c).None? ==> Moves(b, r, c) == []
    ensures At(b, r, c).Some? ==> AllEnterable(b, At(b, r, c).value.color, Moves(b, r, c))
  {
    match At(b, r, c)
    case None =>
    case Some(p) =>
      match p.kind
      case Pawn => PawnMovesSound(b, p.color, r, c);
      case Knight => StepTargetsSound(b, p.color, r, c, KnightJumps);
      case King => StepTargetsSound(b, p.color, r, c, KingSteps);
      case _ =>
        SliderDirsUnit(p.kind);
        RaysSound(b, p.color, r, c, SliderDirs(p.kind));
  }

  /** Knights and kings have at most eight moves. */
  lemma StepperBound(b: Board, r: int, c: int)
    requires ValidBoard(b) && IsValidPos(r, c) && At(b, r, c).Some?
    requires At(b, r, c).value.kind == Knight || At(b, r, c).value.kind == King
    ensures |Moves(b, r, c)| <= 8
  {
    var p := At(b, r, c).value;
    if p.kind == Knight {
      StepTargetsSound(b, p.color, r, c, KnightJumps);
    } else {
      StepTargetsSound(b, p.color, r, c, KingSteps);
    }
  }

  /** A pawn's move in its own column is a step onto an empty square, or a
      double step from its start row across two empty squares; a move to
      another column is a diagonal capture of an enemy piece. */
  lemma PawnRules(b: Board, color: Color, r: int, c: int, m: Pos)
    requires ValidBoard(b) && m in PawnMoves(b, color, r, c)
    ensures IsValidPos(m.r, m.c)
    ensures m.c == c ==>
              IsValidPos(r + PawnDir(color), c) && At(b, r + PawnDir(color), c).None? &&
              (m.r == r + PawnDir(color) ||
               (m.r == r + 2 * PawnDir(color) && r == PawnStartRow(color) && At(b, m.r, c).None?))
    ensures m.c != c ==>
              m.r == r + PawnDir(color) && (m.c == c - 1 || m.c == c + 1) &&
              At(b, m.r, m.c).Some? && At(b, m.r, m.c).value.color != color
  {
    var nr := r + PawnDir(color);
    PawnCapturesBoth(b, color, nr, c);
    assert PawnMoves(b, color, r, c) ==
           PawnAdvance(b, color, r, c) + (PawnCapture(b, color, nr, c - 1) + PawnCapture(b, color, nr, c + 1));
    if m in PawnAdvance(b, color, r, c) {
      AdvanceRule(b, color, r, c, m);
    } else if m in PawnCapture(b, color, nr, c - 1) {
      CaptureRule(b, color, nr, c - 1, m);
    } else {
      CaptureRule(b, color, nr, c + 1, m);
    }
  }

  lemma AdvanceRule(b: Board, color: Color, r: int, c: int, m: Pos)
    requires ValidBoard(b) && m in PawnAdvance(b, color, r, c)
    ensures IsValidPos(m.r, m.c) && m.c == c
    ensures IsValidPos(r + PawnDir(color), c) && At(b, r + PawnDir(color), c).None?
    ensures m.r == r + PawnDir(color) ||
            (m.r == r + 2 * PawnDir(color) && r == PawnStartRow(color) && At(b, m.r, c).None?)
  {
  }

  lemma CaptureRule(b: Board, color: Color, nr: int, nc: int, m: Pos)
    requires ValidBoard(b) && m in PawnCapture(b, color, nr, nc)
    ensures m == Pos(nr, nc) && IsValidPos(nr, nc)
    ensures At(b, nr, nc).Some? && At(b, nr, nc).value.color != color
  {
  }

  /** `ray` starts at `p` and proceeds in unit steps of `d`; every square
      but the last is on the board and empty. */
  ghost predicate WalksFrom(b: Board, d: Pos, p: Pos, ray: seq<Pos>)
    requires ValidBoard(b)
  {
    (ray != [] ==> ray[0] == p) &&
    forall i :: 0 <= i < |ray| - 1 ==>
      ray[i + 1] == Pos(ray[i].r + d.r, ray[i].c + d.c) &&
      IsValidPos(ray[i].r, ray[i].c) && At(b, ray[i].r, ray[i].c).None?
  }

  /** A slider's walk is the consecutive squares in direction `d` from the
      start, all empty except possibly the last. */
  lemma {:induction false} RayConsecutive(b: Board, color: Color, r: int, c: int, d: Pos)
    requires ValidBoard(b) && UnitDir(d)
    ensures WalksFrom(b, d, Pos(r, c), Ray(b, color, r, c, d))
    decreases Span(r, d.r) + Span(c, d.c)
  {
    if IsValidPos(r, c) && At(b, r, c).None? {
      RayConsecutive(b, color, r + d.r, c + d.c, d);
      RayStep(b, color, r, c, d);
      ConsecutiveCons(b, d, Pos(r, c), Ray(b, color, r + d.r, c + d.c, d));
    } else if IsValidPos(r, c) {
      RayStep(b, color, r, c, d);
    }
  }

  /** An empty square followed by a walk from its neighbour is a walk from it. */
  lemma ConsecutiveCons(b: Board, d: Pos, p: Pos, rest: seq<Pos>)
    requires ValidBoard(b) && IsValidPos(p.r, p.c) && At(b, p.r, p.c).None?
    requires WalksFrom(b, d, Pos(p.r + d.r, p.c + d.c), rest)
    ensures WalksFrom(b, d, p, [p] + rest)
  {
    var ray := [p] + rest;
    forall i | 0 <= i < |ray| - 1
      ensures ray[i + 1] == Pos(ray[i].r + d.r, ray[i].c + d.c)
      ensures IsValidPos(ray[i].r, ray[i].c) && At(b, ray[i].r, ray[i].c).None?
    {
      if i > 0 {
        assert ray[i] == rest[i - 1] && ray[i + 1] == rest[i];
      }
    }
  }

  /** A walk is empty only off the board or against an own piece. */
  lemma EmptyRay(b: Board, color: Color, r: int, c: int, d: Pos)
    requires ValidBoard(b) && UnitDir(d)
    requires Ray(b, color, r, c, d) == []
    ensures !IsValidPos(r, c) || (At(b, r, c).Some? && At(b, r, c).value.color == color)
  {
  }

  /** A walk that ends on an empty square ends there because the next square
      is off the board or holds an own piece: a slider goes no further than
      the first piece, and includes it only when it is an enemy. */
  lemma {:induction false} RayStops(b: Board, color: Color, r: int, c: int, d: Pos)
    requires ValidBoard(b) && UnitDir(d)
    ensures var ray := Ray(b, color, r, c, d);
            ray != [] && IsValidPos(ray[|ray| - 1].r, ray[|ray| - 1].c) &&
            At(b, ray[|ray| - 1].r, ray[|ray| - 1].c).None? ==>
              var nr := ray[|ray| - 1].r + d.r;
              var nc := ray[|ray| - 1].c + d.c;
              !IsValidPos(nr, nc) || (At(b, nr, nc).Some? && At(b, nr, nc).value.color == color)
    decreases Span(r, d.r) + Span(c, d.c)
  {
    if IsValidPos(r, c) && At(b, r, c).None? {
      var rest := Ray(b, color, r + d.r, c + d.c, d);
      RayStops(b, color, r + d.r, c + d.c, d);
      if rest == [] {
        EmptyRay(b, color, r + d.r, c + d.c, d);
      }
    }
  }

  // ---------------------------------------------------------------------
  // Moves, clicks and the computer's reply

  datatype ChessState = ChessState(board: Board, selected: Option<Pos>, turn: Color,
                                   possibleMoves: seq<Pos>, winner: Option<Color>)

  function InitialBoard(): (b: Board)
    ensures ValidBoard(b)
  {
    var back := [Rook, Knight, Bishop, Queen, King, Bishop, Knight, Rook];
    var empty: seq<Square> := [None, None, None, None, None, None, None, None];
    [seq(8, i requires 0 <= i < 8 => Some(Piece(Black, back[i]))),
     seq(8, i => Some(Piece(Black, Pawn))),
     empty, empty, empty, empty,
     seq(8, i => Some(Piece(White, Pawn))),
     seq(8, i requires 0 <= i < 8 => Some(Piece(White, back[i])))]
  }

  /** White to move, nothing selected, no winner; also what restart restores. */
  function InitialChess(): ChessState
  {
    ChessState(InitialBoard(), None, White, [], None)
  }

  /** The game's invariant: the board is 8x8, a selection is a white piece
      on the board whose moves are the ones offered, and nothing is offered
      without a selection. */
  ghost predicate Valid(s: ChessState)
  {
    ValidBoard(s.board) &&
    (s.selected.None? ==> s.possibleMoves == []) &&
    (s.selected.Some? ==>
       IsValidPos(s.selected.value.r, s.selected.value.c) && s.turn == White &&
       At(s.board, s.selected.value.r, s.selected.value.c).Some? &&
       At(s.board, s.selected.value.r, s.selected.value.c).value.color == White &&
       s.possibleMoves == Moves(s.board, s.selected.value.r, s.selected.value.c))
  }

  function SetSquare(b: Board, p: Pos, sq: Square): (b': Board)
    requires ValidBoard(b) && IsValidPos(p.r, p.c)
    ensures ValidBoard(b')
  {
    b[p.r := b[p.r][p.c := sq]]
  }

  /** The piece that arrives on `to`: a pawn reaching the first or last row becomes a queen. */
  function Arriving(piece: Square, to: Pos): Square
  {
    if piece.Some? && piece.value.kind == Pawn && (to.r == 0 || to.r == 7)
    then Some(Piece(piece.value.color, Queen)) else piece
  }

  /** `movePiece`: move (promoting), record a king capture as a win for the
      mover, and pass the turn. */
  function MovePiece(s: ChessState, from: Pos, to: Pos): ChessState
    requires ValidBoard(s.board) && IsValidPos(from.r, from.c) && IsValidPos(to.r, to.c)
  {
    var piece := Arriving(At(s.board, from.r, from.c), to);
    var target := At(s.board, to.r, to.c);
    var winner := if target.Some? && target.value.kind == King
                  then Some(if piece.Some? && piece.value.color == White then White else Black)
                  else s.winner;
    s.(board := SetSquare(SetSquare(s.board, to, piece), from, None),
       winner := winner, turn := Other(s.turn))
  }

  /** `handleSquareClick` on square `(r, c)`. */
  function Click(s: ChessState, r: int, c: int): ChessState
    requires Valid(s) && IsValidPos(r, c)
  {
    if s.winner.Some? || s.turn == Black then s
    else if At(s.board, r, c).Some? && At(s.board, r, c).value.color == White then
      s.(selected := Some(Pos(r, c)), possibleMoves := Moves(s.board, r, c))
    else if s.selected.Some? then
      if Pos(r, c) in s.possibleMoves then
        MovePiece(s, s.selected.value, Pos(r, c)).(selected := None, possibleMoves := [])
      else s.(selected := None, possibleMoves := [])
    else s
  }

  /** The capture-score table the computer ranks its moves by. */
  function CaptureScore(target: Square): int
  {
    match target
    case None => 0
    case Some(p) =>
      match p.kind
      case King => 1000
      case Queen => 90
      case Rook => 50
      case Bishop => 30
      case Knight => 30
      case Pawn => 10
  }

  function SquareOf(i: int): Pos
  {
    Pos(i / 8, i % 8)
  }

  /** A candidate move of the computer. */
  datatype Candidate = Candidate(from: Pos, to: Pos)

  function Pair(from: Pos, tos: seq<Pos>): seq<Candidate>
    decreases |tos|
  {
    if tos == [] then [] else Pair(from, tos[..|tos| - 1]) + [Candidate(from, tos[|tos| - 1])]
  }

  /** The black pieces' moves, scanning the first `n` squares in reading
      order, each piece's moves in generation order. */
  function Candidates(b: Board, n: nat): seq<Candidate>
    requires ValidBoard(b) && n <= 64
  {
    if n == 0 then []
    else
      var p := SquareOf(n - 1);
      Candidates(b, n - 1) +
      (if At(b, p.r, p.c).Some? && At(b, p.r, p.c).value.color == Black then Pair(p, Moves(b, p.r, p.c)) else [])
  }

  predicate HasBlackPiece(b: Board)
    requires ValidBoard(b)
  {
    exists r, c | 0 <= r < 8 && 0 <= c < 8 :: At(b, r, c).Some? && At(b, r, c).value.color == Black
  }

  /** Jitter in `[0, 5)` per candidate stands for the source's random bonus. */
  predicate JitterOk(jitter: seq<real>, n: nat)
  {
    |jitter| == n && forall i :: 0 <= i < n ==> 0.0 <= jitter[i] < 5.0
  }

  function Scores(b: Board, cands: seq<Candidate>, jitter: seq<real>): (scores: seq<real>)
    requires ValidBoard(b) && |jitter| == |cands|
    requires forall i :: 0 <= i < |cands| ==> IsValidPos(cands[i].to.r, cands[i].to.c)
    ensures |scores| == |cands|
  {
    seq(|cands|, i requires 0 <= i < |cands| =>
          (CaptureScore(At(b, cands[i].to.r, cands[i].to.c)) as real) + jitter[i])
  }

  /** The index a stable descending sort puts first: the first maximum. */
  function FirstMax(scores: seq<real>): (best: nat)
    requires |scores| > 0
    ensures best < |scores|
    ensures forall j :: 0 <= j < |scores| ==> scores[j] <= scores[best]
    ensures forall j :: 0 <= j < best ==> scores[j] < scores[best]
    decreases |scores|
  {
    if |scores| == 1 then 0
    else
      var i := FirstMax(scores[..|scores| - 1]);
      if scores[|scores| - 1] > scores[i] then |scores| - 1 else i
  }

  lemma {:induction false} PairShape(from: Pos, tos: seq<Pos>)
    ensures |Pair(from, tos)| == |tos|
    ensures forall i :: 0 <= i < |tos| ==> Pair(from, tos)[i] == Candidate(from, tos[i])
    decreases |tos|
  {
    if tos != [] {
      PairShape(from, tos[..|tos| - 1]);
    }
  }

  /** Every candidate moves a black piece to one of its generated moves. */
  ghost predicate LegalCandidates(b: Board, cands: seq<Candidate>)
    requires ValidBoard(b)
  {
    forall i :: 0 <= i < |cands| ==>
      IsValidPos(cands[i].from.r, cands[i].from.c) &&
      At(b, cands[i].from.r, cands[i].from.c).Some? &&
      At(b, cands[i].from.r, cands[i].from.c).value.color == Black &&
      cands[i].to in Moves(b, cands[i].from.r, cands[i].from.c) &&
      IsValidPos(cands[i].to.r, cands[i].to.c)
  }

  lemma {:induction false} PairLegal(b: Board, p: Pos, tos: seq<Pos>)
    requires ValidBoard(b) && IsValidPos(p.r, p.c)
    requires At(b, p.r, p.c).Some? && At(b, p.r, p.c).value.color == Black
    requires forall i :: 0 <= i < |tos| ==> tos[i] in Moves(b, p.r, p.c) && IsValidPos(tos[i].r, tos[i].c)
    ensures LegalCandidates(b, Pair(p, tos))
    decreases |tos|
  {
    if tos != [] {
      PairLegal(b, p, tos[..|tos| - 1]);
    }
  }

  lemma {:induction false} CandidatesLegal(b: Board, n: nat)
    requires ValidBoard(b) && n <= 64
    ensures LegalCandidates(b, Candidates(b, n))
  {
    if n > 0 {
      CandidatesLegal(b, n - 1);
      var p := SquareOf(n - 1);
      if At(b, p.r, p.c).Some? && At(b, p.r, p.c).value.color == Black {
        MovesSound(b, p.r, p.c);
        PairLegal(b, p, Moves(b, p.r, p.c));
      }
    }
  }

  /** One black piece's candidates: its moves, each paired with the square. */
  method PairMoves(from: Pos, tos: seq<Pos>) returns (cands: seq<Candidate>)
    ensures cands == Pair(from, tos)
  {
    cands := [];
    var j := 0;
    while j < |tos|
      invariant 0 <= j <= |tos|
      invariant cands == Pair(from, tos[..j])
    {
      assert tos[..j + 1][..j] == tos[..j];
      cands := cands + [Candidate(from, tos[j])];
      j := j + 1;
    }
    assert tos[..|tos|] == tos;
  }

  /** The scan over the board collecting every black piece's moves, in
      reading order. */
  method CollectCandidates(b: Board) returns (cands: seq<Candidate>)
    requires ValidBoard(b)
    ensures cands == Candidates(b, 64)
  {
    cands := [];
    var i := 0;
    while i < 64
      invariant 0 <= i <= 64
      invariant cands == Candidates(b, i)
    {
      cands := ScanSquare(b, i, cands);
      i := i + 1;
    }
  }

  lemma SquareOfValid(i: int)
    requires 0 <= i < 64
    ensures IsValidPos(SquareOf(i).r, SquareOf(i).c)
  {
  }

  /** One square of the scan: a black piece there adds its candidates. */
  method ScanSquare(b: Board, i: nat, cands: seq<Candidate>) returns (cands': seq<Candidate>)
    requires ValidBoard(b) && i < 64 && cands == Candidates(b, i)
    ensures cands' == Candidates(b, i + 1)
  {
    var p := SquareOf(i);
    SquareOfValid(i);
    cands' := cands;
    var piece := b[p.r][p.c];
    if piece.Some? && piece.value.color == Black {
      var moves := GetMoves(b, p.r, p.c);
      var extra := PairMoves(p, moves);
      cands' := cands + extra;
    }
  }

  /** The score of each candidate: its capture value plus its random bonus. */
  method ScoreCandidates(b: Board, cands: seq<Candidate>, jitter: seq<real>) returns (scores: seq<real>)
    requires ValidBoard(b) && |jitter| == |cands|
    requires forall i :: 0 <= i < |cands| ==> IsValidPos(cands[i].to.r, cands[i].to.c)
    ensures scores == Scores(b, cands, jitter)
  {
    scores := [];
    var i := 0;
    while i < |cands|
      invariant 0 <= i <= |cands|
      invariant |scores| == i
      invariant forall k :: 0 <= k < i ==>
                  scores[k] == (CaptureScore(At(b, cands[k].to.r, cands[k].to.c)) as real) + jitter[k]
    {
      var to := cands[i].to;
      scores := scores + [(CaptureScore(b[to.r][to.c]) as real) + jitter[i]];
      i := i + 1;
    }
  }

  /** The computer's turn: with no black piece left nothing happens; with no
      move the turn passes back; otherwise the best-scored candidate is played. */
  function AiTurn(s: ChessState, jitter: seq<real>): ChessState
    requires ValidBoard(s.board) && JitterOk(jitter, |Candidates(s.board, 64)|)
  {
    if s.turn != Black || s.winner.Some? || !HasBlackPiece(s.board) then s
    else
      var cands := Candidates(s.board, 64);
      if cands == [] then s.(turn := White)
      else
        CandidatesLegal(s.board, 64);
        var m := cands[FirstMax(Scores(s.board, cands, jitter))];
        MovePiece(s, m.from, m.to)
  }

  // ---------------------------------------------------------------------
  // Properties of moves, clicks and the computer's choice

  /** Moving puts the (possibly promoted) piece on the target, empties the
      source, leaves every other square alone and passes the turn. */
  lemma MovePieceEffect(s: ChessState, from: Pos, to: Pos)
    requires ValidBoard(s.board) && IsValidPos(from.r, from.c) && IsValidPos(to.r, to.c)
    requires from != to
    ensures var t := MovePiece(s, from, to);
            ValidBoard(t.board) &&
            At(t.board, to.r, to.c) == Arriving(At(s.board, from.r, from.c), to) &&
            At(t.board, from.r, from.c).None? &&
            (forall r, c :: IsValidPos(r, c) && Pos(r, c) != from && Pos(r, c) != to ==>
               At(t.board, r, c) == At(s.board, r, c)) &&
            t.turn == Other(s.turn)
  {
  }

  /** Only a pawn reaching row 0 or 7 changes kind, and then into a queen of its colour. */
  lemma PromotionRule(piece: Piece, to: Pos)
    ensures Arriving(Some(piece), to) ==
            if piece.kind == Pawn && (to.r == 0 || to.r == 7) then Some(Piece(piece.color, Queen))
            else Some(piece)
  {
  }

  /** Capturing a king makes the mover's colour the winner; any other move keeps the winner. */
  lemma KingCaptureWins(s: ChessState, from: Pos, to: Pos)
    requires ValidBoard(s.board) && IsValidPos(from.r, from.c) && IsValidPos(to.r, to.c)
    requires At(s.board, from.r, from.c).Some?
    ensures var target := At(s.board, to.r, to.c);
            MovePiece(s, from, to).winner ==
            if target.Some? && target.value.kind == King
            then Some(At(s.board, from.r, from.c).value.color) else s.winner
  {
  }

  /** Clicks are ignored once there is a winner and while black is to move. */
  lemma ClickIgnored(s: ChessState, r: int, c: int)
    requires Valid(s) && IsValidPos(r, c)
    requires s.winner.Some? || s.turn == Black
    ensures Click(s, r, c) == s
  {
  }

  /** Clicking a white piece selects it and offers exactly its moves. */
  lemma ClickSelects(s: ChessState, r: int, c: int)
    requires Valid(s) && IsValidPos(r, c) && s.winner.None? && s.turn == White
    requires At(s.board, r, c).Some? && At(s.board, r, c).value.color == White
    ensures Click(s, r, c) == s.(selected := Some(Pos(r, c)), possibleMoves := Moves(s.board, r, c))
  {
  }

  /** A human move is always one of the selected white piece's generated
      moves, so it is on the board and never onto a white piece; then black
      is to move and nothing is selected. */
  lemma ClickMovesLegally(s: ChessState, r: int, c: int)
    requires Valid(s) && IsValidPos(r, c) && s.winner.None? && s.turn == White
    requires !(At(s.board, r, c).Some? && At(s.board, r, c).value.color == White)
    requires s.selected.Some? && Pos(r, c) in s.possibleMoves
    ensures Pos(r, c) in Moves(s.board, s.selected.value.r, s.selected.value.c)
    ensures Click(s, r, c) == MovePiece(s, s.selected.value, Pos(r, c)).(selected := None, possibleMoves := [])
    ensures Click(s, r, c).turn == Black && Click(s, r, c).selected.None?
  {
  }

  lemma ClickPreservesValid(s: ChessState, r: int, c: int)
    requires Valid(s) && IsValidPos(r, c)
    ensures Valid(Click(s, r, c))
  {
  }

  /** A new or restarted game meets the invariant. */
  lemma InitialValid()
    ensures Valid(InitialChess())
  {
  }

  /** The computer's turn keeps the invariant; when black was to move,
      nothing is selected or offered afterwards. */
  lemma AiTurnValid(s: ChessState, jitter: seq<real>)
    requires Valid(s) && JitterOk(jitter, |Candidates(s.board, 64)|)
    ensures Valid(AiTurn(s, jitter))
    ensures s.turn == Black ==> AiTurn(s, jitter).selected.None? && AiTurn(s, jitter).possibleMoves == []
  {
    if s.turn == Black && s.winner.None? && HasBlackPiece(s.board) {
      var cands := Candidates(s.board, 64);
      if cands != [] {
        CandidatesLegal(s.board, 64);
        var m := cands[FirstMax(Scores(s.board, cands, jitter))];
        assert IsValidPos(m.from.r, m.from.c) && IsValidPos(m.to.r, m.to.c);
        assert ValidBoard(MovePiece(s, m.from, m.to).board);
      }
    }
  }

  /** The jitter never reorders the tiers of the capture table: a strictly
      better capture always outscores a worse one. */
  lemma TiersSurviveJitter(a: Square, b: Square, ja: real, jb: real)
    requires 0.0 <= ja < 5.0 && 0.0 <= jb < 5.0
    requires CaptureScore(a) > CaptureScore(b)
    ensures (CaptureScore(a) as real) + ja > (CaptureScore(b) as real) + jb
  {
    assert CaptureScore(a) >= CaptureScore(b) + 10;
  }

  /** Only a king scores 1000; everything else scores at most 90. */
  lemma ScoreTiers(target: Square)
    ensures CaptureScore(target) == 1000 <==> target.Some? && target.value.kind == King
    ensures CaptureScore(target) != 1000 ==> CaptureScore(target) <= 90
  {
  }

  /** The first best-scored candidate targets a king whenever some candidate does. */
  lemma BestTargetsKing(b: Board, cands: seq<Candidate>, jitter: seq<real>, k: nat)
    requires ValidBoard(b) && JitterOk(jitter, |cands|)
    requires forall i :: 0 <= i < |cands| ==> IsValidPos(cands[i].to.r, cands[i].to.c)
    requires k < |cands| && CaptureScore(At(b, cands[k].to.r, cands[k].to.c)) == 1000
    ensures var m := cands[FirstMax(Scores(b, cands, jitter))];
            CaptureScore(At(b, m.to.r, m.to.c)) == 1000
  {
    var scores := Scores(b, cands, jitter);
    var best := FirstMax(scores);
    var m := cands[best];
    assert scores[k] >= 1000.0;
    ScoreTiers(At(b, m.to.r, m.to.c));
  }

  /** When some black move captures a king, the computer plays a king capture and black wins. */
  lemma AiTakesKing(s: ChessState, jitter: seq<real>, k: nat)
    requires ValidBoard(s.board) && JitterOk(jitter, |Candidates(s.board, 64)|)
    requires s.turn == Black && s.winner.None?
    requires k < |Candidates(s.board, 64)|
    requires var t := Candidates(s.board, 64)[k].to;
             IsValidPos(t.r, t.c) && At(s.board, t.r, t.c).Some? && At(s.board, t.r, t.c).value.kind == King
    ensures AiTurn(s, jitter).winner == Some(Black)
  {
    var cands := Candidates(s.board, 64);
    CandidatesLegal(s.board, 64);
    var m0 := cands[k];
    assert HasBlackPiece(s.board) by {
      assert IsValidPos(m0.from.r, m0.from.c) && At(s.board, m0.from.r, m0.from.c).Some?;
    }
    ScoreTiers(At(s.board, m0.to.r, m0.to.c));
    BestTargetsKing(s.board, cands, jitter, k);
    var m := cands[FirstMax(Scores(s.board, cands, jitter))];
    ScoreTiers(At(s.board, m.to.r, m.to.c));
    KingCaptureWins(s, m.from, m.to);
  }

  lemma AiTurnWithoutMoves(s: ChessState, jitter: seq<real>)
    requires ValidBoard(s.board) && JitterOk(jitter, |Candidates(s.board, 64)|)
    requires s.turn == Black && s.winner.None? && HasBlackPiece(s.board)
    requires Candidates(s.board, 64) == []
    ensures AiTurn(s, jitter) == s.(turn := White)
  {
  }

  // ---------------------------------------------------------------------
  // The game as an object with fields

  class ChessGame {
    var board: Board
    var selected: Option<Pos>
    var turn: Color
    var possibleMoves: seq<Pos>
    var winner: Option<Color>

    function State(): ChessState
      reads this
    {
      ChessState(board, selected, turn, possibleMoves, winner)
    }

    constructor ()
      ensures State() == InitialChess() && Valid(State())
    {
      board := InitialBoard();
      selected := None;
      turn := White;
      possibleMoves := [];
      winner := None;
    }

    method Restart()
      modifies this
      ensures State() == InitialChess() && Valid(State())
    {
      board := InitialBoard();
      turn := White;
      winner := None;
      selected := None;
      possibleMoves := [];
    }

    method Move(from: Pos, to: Pos)
      requires ValidBoard(board) && IsValidPos(from.r, from.c) && IsValidPos(to.r, to.c)
      modifies this
      ensures State() == MovePiece(old(State()), from, to)
    {
      var newBoard := board;
      var piece := Arriving(newBoard[from.r][from.c], to);
      var target := newBoard[to.r][to.c];
      if target.Some? && target.value.kind == King {
        winner := Some(if piece.Some? && piece.value.color == White then White else Black);
      }
      newBoard := SetSquare(newBoard, to, piece);
      newBoard := SetSquare(newBoard, from, None);
      board := newBoard;
      turn := Other(turn);
    }

    /** The computer's timer: collect and score black's candidates, then
        play the first best one, or pass back to white when there is none. */
    method BotTurn(jitter: seq<real>)
      requires ValidBoard(board) && JitterOk(jitter, |Candidates(board, 64)|)
      modifies this
      ensures State() == AiTurn(old(State()), jitter)
      ensures Valid(old(State())) ==> Valid(State())
    {
      if Valid(State()) {
        AiTurnValid(State(), jitter);
      }
      if turn != Black || winner.Some? || !HasBlackPiece(board) {
        return;
      }
      var cands := CollectCandidates(board);
      if cands == [] {
        turn := White;
        return;
      }
      CandidatesLegal(board, 64);
      var scores := ScoreCandidates(board, cands, jitter);
      var best := FirstMax(scores);
      Move(cands[best].from, cands[best].to);
    }

    method HandleSquareClick(r: int, c: int)
      requires Valid(State()) && IsValidPos(r, c)
      modifies this
      ensures State() == Click(old(State()), r, c) && Valid(State())
    {
      if winner.Some? || turn == Black {
        return;
      }
      var piece := board[r][c];
      if piece.Some? && piece.value.color == White {
        SelectSquare(r, c);
      } else if selected.Some? {
        if Pos(r, c) in possibleMoves {
          Move(selected.value, Pos(r, c));
        }
        selected := None;
        possibleMoves := [];
      }
    }

    method SelectSquare(r: int, c: int)
      requires ValidBoard(board) && IsValidPos(r, c)
      modifies this
      ensures State() == old(State()).(selected := Some(Pos(r, c)), possibleMoves := Moves(old(board), r, c))
    {
      selected := Some(Pos(r, c));
      possibleMoves := GetMoves(board, r, c);
    }
  }
}
