/** The game session: move / lock / spawn / score transition, level update, new game, pause and
    keyboard commands (src/App.tsx). The session's state hooks are the fields of class Session;
    the pure function Step over a Snapshot of those fields is the specification its Move meets. */
module Game {
  import opened Pieces
  import opened Grid
  import opened LineClear
  import opened Progression

  datatype Option<T> = None | Some(value: T)

  /** Every state hook of the component, as one value. */
  datatype Snapshot = Snapshot(
    board: Board,
    piece: Option<Piece>,  // null before the first game
    pos: Pos,
    score: nat,
    level: nat,
    lines: nat,
    playing: bool,
    paused: bool,
    gameOver: bool,
    dropTime: int)

  /** What holds in every reachable state: the board is 20x10; level and drop interval follow
      the line count; the active piece is a 0/1 rectangle and, unless the game is over, fits. */
  predicate Inv(s: Snapshot)
  {
    && WellFormed(s.board)
    && s.level == LevelFor(s.lines)
    && s.dropTime == DropTime(s.level)
    && (s.piece.Some? ==> Rect(s.piece.value.shape) && Binary(s.piece.value.shape))
    && (s.piece.Some? && !s.gameOver ==> CanPlace(s.piece.value.shape, s.pos, s.board))
  }

  /** The state before the first game: empty board, no piece, level 1, interval 1000 ms. */
  function Initial(): (s: Snapshot)
    ensures Inv(s) && s.piece.None? && !s.playing && !s.gameOver
  {
    Snapshot(EmptyBoard(), None, SpawnPos, 0, 1, 0, false, false, false, InitialSpeed)
  }

  /** A new game: cleared board, counters reset, a fresh piece of kind `next` at the spawn
      position, running and unpaused — from any prior state. */
  function Restart(next: Kind): (s: Snapshot)
    ensures Inv(s)
    ensures s.board == EmptyBoard()
    ensures s.playing && !s.paused && !s.gameOver
    ensures s.score == 0 && s.lines == 0 && s.level == 1 && s.dropTime == InitialSpeed
    ensures s.piece == Some(Spawned(next)) && s.pos == SpawnPos
  {
    SpawnFitsOnEmptyBoard(next);
    Snapshot(EmptyBoard(), Some(Spawned(next)), SpawnPos, 0, 1, 0, true, false, false, InitialSpeed)
  }

  /** Moves are accepted only with a piece in play, not paused, not over. */
  predicate Active(s: Snapshot)
  {
    s.piece.Some? && !s.paused && !s.gameOver
  }

  /** The piece the move tries: rotated a quarter turn clockwise, or as it is. */
  function Candidate(s: Snapshot, rotate: bool): (c: Piece)
    requires Inv(s) && s.piece.Some?
    ensures c.kind == s.piece.value.kind && Rect(c.shape) && Binary(c.shape)
  {
    RotateSpec(s.piece.value.shape);
    if rotate then Rotated(s.piece.value) else s.piece.value
  }

  /** The candidate piece fits at the shifted position. */
  predicate Accepts(s: Snapshot, dx: int, dy: int, rotate: bool)
    requires Inv(s)
  {
    Active(s) && CanPlace(Candidate(s, rotate).shape, Pos(s.pos.x + dx, s.pos.y + dy), s.board)
  }

  /** The current piece has landed: stamp it at its current position, clear full rows, add the
      lines and the score (at the level in force before the lock), let the level catch up, then
      spawn `next` at (4, 0), or end the game if it does not fit the cleared board. */
  function Lock(s: Snapshot, next: Kind): (t: Snapshot)
    requires Inv(s) && s.piece.Some?
    ensures Inv(t)
    ensures t.score > s.score && t.lines >= s.lines && t.paused == s.paused
  {
    var p := s.piece.value;
    var cleared := ClearLines(Stamp(s.board, p.shape, s.pos, Block(p.kind)));
    var lines := s.lines + cleared.clearedLines;
    var score := s.score + LockPoints(cleared.clearedLines, s.level);
    var level := LevelFor(lines);
    var t := s.(board := cleared.board, lines := lines, score := score, level := level, dropTime := DropTime(level));
    if CanPlace(ShapeOf(next), SpawnPos, cleared.board) then
      t.(piece := Some(Spawned(next)), pos := SpawnPos)
    else
      t.(gameOver := true, playing := false)
  }

  /** One movePiece(dx, dy, rotate) call followed by the level update, `next` being the kind the
      random draw would yield if a new piece is needed. */
  function Step(s: Snapshot, dx: int, dy: int, rotate: bool, next: Kind): (t: Snapshot)
    requires Inv(s)
    ensures Inv(t)
    ensures t.score >= s.score && t.lines >= s.lines && t.paused == s.paused
  {
    if !Active(s) then s
    else if Accepts(s, dx, dy, rotate) then
      s.(piece := Some(Candidate(s, rotate)), pos := Pos(s.pos.x + dx, s.pos.y + dy))
    else if dy <= 0 then s
    else Lock(s, next)
  }

  /** Without a piece, while paused or after game over, a move changes nothing; a rotation or a
      sideways or upward move that does not fit changes nothing either. */
  lemma RejectedMoveIsNoOp(s: Snapshot, dx: int, dy: int, rotate: bool, next: Kind)
    requires Inv(s)
    requires !Active(s) || (!Accepts(s, dx, dy, rotate) && dy <= 0)
    ensures Step(s, dx, dy, rotate, next) == s
  {
  }

  /** An accepted move commits the candidate piece (rotated when asked) and the shifted position,
      and changes nothing else; the new active piece, of the same kind, fits the board. */
  lemma AcceptedMoveCommits(s: Snapshot, dx: int, dy: int, rotate: bool, next: Kind)
    requires Inv(s) && Accepts(s, dx, dy, rotate)
    ensures var t := Step(s, dx, dy, rotate, next);
            && t == s.(piece := Some(Candidate(s, rotate)), pos := Pos(s.pos.x + dx, s.pos.y + dy))
            && t.piece.value.kind == s.piece.value.kind
            && (rotate ==> t.piece.value.shape == Rotate(s.piece.value.shape))
            && (!rotate ==> t.piece == s.piece)
            && CanPlace(t.piece.value.shape, t.pos, t.board)
  {
  }

  /** Locking, field by field: the board becomes the cleared stamped board, the line count grows
      by the number of full rows, the score by that number times 100 times the pre-lock level plus
      10 (so strictly), level and interval follow the new line count, and the next piece spawns at
      (4, 0) exactly when it fits, the game ending otherwise with the old piece left in place. */
  lemma LockSpec(s: Snapshot, next: Kind)
    requires Inv(s) && s.piece.Some?
    ensures var t := Lock(s, next);
            var p := s.piece.value;
            var stamped := Stamp(s.board, p.shape, s.pos, Block(p.kind));
            var n := CountFull(stamped);
            && t.board == ClearLines(stamped).board
            && t.lines == s.lines + n
            && t.score == s.score + LockPoints(n, s.level)
            && t.score > s.score
            && t.level == LevelFor(t.lines) && t.dropTime == DropTime(t.level)
            && t.paused == s.paused
            && (CanPlace(ShapeOf(next), SpawnPos, t.board) ==>
                  t.piece == Some(Spawned(next)) && t.pos == SpawnPos
                  && t.gameOver == s.gameOver && t.playing == s.playing)
            && (!CanPlace(ShapeOf(next), SpawnPos, t.board) ==>
                  t.gameOver && !t.playing && t.piece == s.piece && t.pos == s.pos)
  {
  }

  /** A downward move that does not fit locks the piece. */
  lemma BlockedDropLocks(s: Snapshot, dx: int, dy: int, rotate: bool, next: Kind)
    requires Inv(s) && Active(s) && !Accepts(s, dx, dy, rotate) && dy > 0
    ensures Step(s, dx, dy, rotate, next) == Lock(s, next)
  {
  }

  // ---------------------------------------------------------------------------
  // Commands: the calls the timer, the buttons and the keyboard make.

  datatype Command =
    | Shift(dx: int, dy: int, rotate: bool, next: Kind)  // movePiece, and the timer tick (0, 1)
    | PauseToggle                                        // the pause / resume button
    | NewGame(next: Kind)                                // startNewGame

  function Apply(s: Snapshot, c: Command): (t: Snapshot)
    requires Inv(s)
    ensures Inv(t)
  {
    match c
    case Shift(dx, dy, rotate, next) => Step(s, dx, dy, rotate, next)
    case PauseToggle => s.(paused := !s.paused)
    case NewGame(next) => Restart(next)
  }

  /** The state after a sequence of commands; every intermediate state keeps the invariant. */
  function Run(s: Snapshot, cs: seq<Command>): (t: Snapshot)
    requires Inv(s)
    ensures Inv(t)
    decreases |cs|
  {
    if cs == [] then s else Run(Apply(s, cs[0]), cs[1..])
  }

  /** Within one game (no restart in between), score, line count and level never go down. */
  lemma {:induction false} ProgressNeverDecreases(s: Snapshot, cs: seq<Command>)
    requires Inv(s)
    requires forall i :: 0 <= i < |cs| ==> !cs[i].NewGame?
    ensures Run(s, cs).score >= s.score
    ensures Run(s, cs).lines >= s.lines
    ensures Run(s, cs).level >= s.level
    decreases |cs|
  {
    if cs != [] {
      var s' := Apply(s, cs[0]);
      ProgressNeverDecreases(s', cs[1..]);
      MoreLinesFaster(s.lines, Run(s, cs).lines);
    }
  }

  // ---------------------------------------------------------------------------
  // Keyboard.

  /** The keys the handler distinguishes; 'p' and 'P' are both LetterP. */
  datatype Key = ArrowLeft | ArrowRight | ArrowDown | ArrowUp | Space | LetterP | OtherKey

  /** The keydown handler: ignored unless playing, unpaused and not over; arrows move, Up and
      Space rotate, P toggles pause. */
  function KeyStep(s: Snapshot, key: Key, next: Kind): (t: Snapshot)
    requires Inv(s)
    ensures Inv(t)
  {
    if !s.playing || s.paused || s.gameOver then s
    else match key
      case ArrowLeft => Step(s, -1, 0, false, next)
      case ArrowRight => Step(s, 1, 0, false, next)
      case ArrowDown => Step(s, 0, 1, false, next)
      case ArrowUp => Step(s, 0, 0, true, next)
      case Space => Step(s, 0, 0, true, next)
      case LetterP => s.(paused := !s.paused)
      case OtherKey => s
  }

  /** The handler's guard runs before the P case: the P key pauses a running game but cannot
      resume a paused one (only the button can). */
  lemma PauseKeyOnlyPauses(s: Snapshot, next: Kind)
    requires Inv(s)
    ensures s.paused ==> KeyStep(s, LetterP, next) == s
    ensures s.playing && !s.paused && !s.gameOver ==> KeyStep(s, LetterP, next) == s.(paused := true)
  {
  }

  // ---------------------------------------------------------------------------
  // The session object: the component's state hooks, updated through their setters.

  class Session {
    var board: Board
    var piece: Option<Piece>
    var pos: Pos
    var score: nat
    var level: nat
    var lines: nat
    var playing: bool
    var paused: bool
    var gameOver: bool
    var dropTime: int

    ghost function State(): Snapshot
      reads this
    {
      Snapshot(board, piece, pos, score, level, lines, playing, paused, gameOver, dropTime)
    }

    ghost predicate Valid()
      reads this
    {
      Inv(State())
    }

    /** The hooks' initial values. */
    constructor ()
      ensures State() == Initial() && Valid()
    {
      board := EmptyBoard();
      piece := None;
      pos := SpawnPos;
      score := 0;
      level := 1;
      lines := 0;
      playing := false;
      paused := false;
      gameOver := false;
      dropTime := InitialSpeed;
    }

    /** The effect that runs whenever the line count changes. */
    method SyncLevel()
      modifies this`level, this`dropTime
      ensures level == LevelFor(lines) && dropTime == DropTime(level)
    {
      var newLevel := lines / 10 + 1;
      level := newLevel;
      dropTime := if InitialSpeed - (newLevel - 1) * 100 > 100 then InitialSpeed - (newLevel - 1) * 100 else 100;
    }

    /** movePiece: returns whether the candidate was committed. */
    method Move(dx: int, dy: int, rotate: bool, next: Kind) returns (moved: bool)
      requires Valid()
      modifies this
      ensures Valid()
      ensures State() == Step(old(State()), dx, dy, rotate, next)
      ensures moved == Accepts(old(State()), dx, dy, rotate)
    {
      moved := false;
      ghost var s0 := State();
      if piece.None? || paused || gameOver {
        return;
      }
      var current := piece.value;
      var candidate := if rotate then Rotated(current) else current;
      var target := Pos(pos.x + dx, pos.y + dy);
      assert candidate == Candidate(s0, rotate) && target == Pos(s0.pos.x + dx, s0.pos.y + dy);
      var fits := CanPlace(candidate.shape, target, board);
      assert fits == Accepts(s0, dx, dy, rotate);
      if fits {
        piece := Some(candidate);
        pos := target;
        moved := true;
        return;
      }
      if dy > 0 {
        LockPiece(next);
      }
    }

    /** The lock path of movePiece: stamp, clear, score, spawn or end the game, then the level
        effect, which runs only when the line count changed. */
    method LockPiece(next: Kind)
      requires Valid() && piece.Some? && !gameOver
      modifies this
      ensures State() == Lock(old(State()), next)
    {
      ghost var s0 := State();
      ghost var t := Lock(s0, next);
      LockSpec(s0, next);
      var stamped := PlacePiece(board, piece.value, pos);
      var cleared := ClearLines(stamped);
      assert cleared.board == t.board;
      board := cleared.board;
      lines := lines + cleared.clearedLines;
      // `level` is still the pre-lock level here: the level effect runs after these updates.
      score := score + LockPoints(cleared.clearedLines, level);
      assert board == t.board && lines == t.lines && score == t.score;
      SpawnOrEnd(next);
      if cleared.clearedLines > 0 {
        SyncLevel();
      }
    }

    /** After a lock: the drawn piece enters at (4, 0) if it fits the board, otherwise the game
        is over and stops playing. */
    method SpawnOrEnd(next: Kind)
      requires WellFormed(board)
      modifies this`piece, this`pos, this`gameOver, this`playing
      ensures var fits := CanPlace(ShapeOf(next), SpawnPos, board);
              && (fits ==> piece == Some(Spawned(next)) && pos == SpawnPos
                           && gameOver == old(gameOver) && playing == old(playing))
              && (!fits ==> gameOver && !playing && piece == old(piece) && pos == old(pos))
    {
      var spawn := Spawned(next);
      if CanPlace(spawn.shape, SpawnPos, board) {
        piece := Some(spawn);
        pos := SpawnPos;
      } else {
        gameOver := true;
        playing := false;
      }
    }

    /** The timer callback: one step down while a game is running. */
    method Tick(next: Kind)
      requires Valid()
      modifies this
      ensures Valid()
      ensures State() == if old(playing) then Step(old(State()), 0, 1, false, next) else old(State())
    {
      if playing && !paused && !gameOver {
        var _ := Move(0, 1, false, next);
      }
    }

    /** The pause / resume button. */
    method TogglePause()
      requires Valid()
      modifies this`paused
      ensures Valid()
      ensures State() == Apply(old(State()), PauseToggle)
    {
      paused := !paused;
    }

    /** startNewGame, with `next` as the randomly drawn first piece. */
    method StartNewGame(next: Kind)
      modifies this
      ensures State() == Restart(next)
      ensures Valid()
    {
      var cleanBoard := EmptyBoard();
      var first := Spawned(next);
      board := cleanBoard;
      piece := Some(first);
      pos := SpawnPos;
      score := 0;
      level := 1;
      lines := 0;
      gameOver := false;
      paused := false;
      playing := true;
      dropTime := InitialSpeed;
    }

    /** The keydown handler. */
    method HandleKey(key: Key, next: Kind)
      requires Valid()
      modifies this
      ensures Valid()
      ensures State() == KeyStep(old(State()), key, next)
    {
      if !playing || paused || gameOver {
        return;
      }
      match key {
        case ArrowLeft => var _ := Move(-1, 0, false, next);
        case ArrowRight => var _ := Move(1, 0, false, next);
        case ArrowDown => var _ := Move(0, 1, false, next);
        case ArrowUp => var _ := Move(0, 0, true, next);
        case Space => var _ := Move(0, 0, true, next);
        case LetterP => paused := !paused;
        case OtherKey =>
      }
    }
  }
}
