/**
 * GameMode: the object the views hold. It owns one game board, lists its
 * cells for display, derives the turn and result labels, and turns the
 * user's intents (play, new game, bigger or smaller board, audio toggles)
 * into changes of that board.
 */
module GameModes {
  import opened Wrappers
  import opened Cells
  import opened Boards

  /** Smallest and largest board side the size-stepping intents allow. */
  const MinSize := 3
  const MaxSize := 11

  /** Side of the board a new GameMode starts with. */
  const DefaultSize := 11

  /**
   * The board `newGame(size:)` installs: a fresh board of exactly the
   * requested side (no range check) that keeps the previous audio flags.
   */
  function Renewed(b: GameBoard, size: nat): (r: GameBoard)
    ensures WellFormed(r) && AllEmpty(r)
    ensures r.size == size && r.playerTurn == 1 && CheckResult(r) == Unknown
    ensures r.musicOn == b.musicOn && r.soundOn == b.soundOn
  {
    Fresh(size, b.musicOn, b.soundOn)
  }

  /** The board after `incrementSize()`. */
  function Incremented(b: GameBoard): (r: GameBoard)
    requires 0 <= b.size
    ensures b.size < MaxSize ==> r == Renewed(b, b.size + 1)
    ensures b.size < MaxSize ==> r.size == b.size + 1 && WellFormed(r) && AllEmpty(r)
    ensures MaxSize <= b.size ==> r == b
    ensures MinSize <= b.size <= MaxSize ==> MinSize <= r.size <= MaxSize
    ensures r.musicOn == b.musicOn && r.soundOn == b.soundOn
  {
    if b.size < MaxSize then Renewed(b, b.size + 1) else b
  }

  /** The board after `decrementSize()`. */
  function Decremented(b: GameBoard): (r: GameBoard)
    ensures b.size > MinSize ==> r == Renewed(b, b.size - 1)
    ensures b.size > MinSize ==> r.size == b.size - 1 && WellFormed(r) && AllEmpty(r)
    ensures b.size <= MinSize ==> r == b
    ensures MinSize <= b.size <= MaxSize ==> MinSize <= r.size <= MaxSize
    ensures r.musicOn == b.musicOn && r.soundOn == b.soundOn
  {
    if b.size > MinSize then Renewed(b, b.size - 1) else b
  }

  /** The two size-stepping intents, as a user may issue them in any order. */
  datatype SizeIntent = Increment | Decrement

  function Step(b: GameBoard, intent: SizeIntent): GameBoard
    requires 0 <= b.size
  {
    match intent
    case Increment => Incremented(b)
    case Decrement => Decremented(b)
  }

  /** The board after the intents are applied one after another. */
  function StepAll(b: GameBoard, intents: seq<SizeIntent>): GameBoard
    requires MinSize <= b.size <= MaxSize
    decreases |intents|
  {
    if intents == [] then b
    else
      var next := Step(b, intents[0]);
      assert MinSize <= next.size <= MaxSize;
      StepAll(next, intents[1..])
  }

  /**
   * From a side within 3..11, no sequence of size steps leaves that range,
   * and the audio flags survive every step.
   */
  lemma {:induction false} StepsStayInRange(b: GameBoard, intents: seq<SizeIntent>)
    requires MinSize <= b.size <= MaxSize
    ensures MinSize <= StepAll(b, intents).size <= MaxSize
    ensures StepAll(b, intents).musicOn == b.musicOn
    ensures StepAll(b, intents).soundOn == b.soundOn
    decreases |intents|
  {
    if intents != [] {
      StepsStayInRange(Step(b, intents[0]), intents[1..]);
    }
  }

  /** Stepping up then down from a side below the maximum lands on the same side, emptied. */
  lemma IncrementThenDecrement(b: GameBoard)
    requires MinSize <= b.size < MaxSize
    ensures Decremented(Incremented(b)) == Renewed(b, b.size)
  {
  }

  /** Multiplying by a non-negative factor keeps the order of the other factor. */
  lemma MulMonotone(a: int, b: int, n: int)
    requires a <= b && 0 <= n
    ensures a * n <= b * n
  {
  }

  /** Position `(i, j)` of an `n`-column grid lies before row `r` when `i < r`. */
  lemma RowMajorBound(i: int, j: int, r: int, n: int)
    requires 0 <= i < r && 0 <= j < n
    ensures i * n + j < r * n
  {
    RowMajorStep(i, n);
    MulMonotone(i + 1, r, n);
  }

  lemma RowMajorStep(r: int, n: int)
    ensures (r + 1) * n == r * n + n
  {
  }

  /** The first `rows` rows of the grid are listed, in row-major order, at the head of `cells`. */
  ghost predicate ListsRows(cells: seq<Cell>, b: GameBoard, rows: nat)
    requires WellFormed(b) && rows <= b.size
  {
    forall i, j :: 0 <= i < rows && 0 <= j < b.size ==>
      i * b.size + j < |cells| && cells[i * b.size + j] == NewCell(i * b.size + j, b.board[i][j])
  }

  /** Listing row `r` after the rows before it extends the row-major listing by one row. */
  lemma RowAppended(start: seq<Cell>, cells: seq<Cell>, b: GameBoard, r: nat)
    requires WellFormed(b) && r < b.size
    requires ListsRows(start, b, r) && |start| == r * b.size
    requires |cells| == r * b.size + b.size && cells[..r * b.size] == start
    requires forall j :: 0 <= j < b.size ==> cells[r * b.size + j] == NewCell(r * b.size + j, b.board[r][j])
    ensures ListsRows(cells, b, r + 1) && |cells| == (r + 1) * b.size
  {
    var n := b.size;
    RowMajorStep(r, n);
    forall i, j | 0 <= i < r + 1 && 0 <= j < n
      ensures i * n + j < |cells| && cells[i * n + j] == NewCell(i * n + j, b.board[i][j])
    {
      if i < r {
        RowMajorBound(i, j, r, n);
        assert cells[i * n + j] == start[i * n + j];
      }
    }
  }

  class GameMode {
    var board: GameBoard

    /** The board's grid is a `size` by `size` square. */
    ghost predicate Valid()
      reads this
    {
      WellFormed(board)
    }

    /** `init()`: a size-11 board with music and sound on. */
    constructor ()
      ensures Valid()
      ensures board == Fresh(DefaultSize, true, true)
    {
      board := Fresh(DefaultSize, true, true);
    }

    /**
     * `init(name:)`: the board restored from the saved snapshot, or a size-11
     * board with music and sound on when there is none. Reading and decoding
     * the snapshot happen outside the model: `saved` is their result.
     */
    constructor Restore(saved: Option<GameBoard>)
      requires saved.Some? ==> WellFormed(saved.value)
      ensures Valid()
      ensures saved.Some? ==> board == saved.value
      ensures saved.None? ==> board == Fresh(DefaultSize, true, true)
    {
      board := match saved
        case Some(b) => b
        case None => Fresh(DefaultSize, true, true);
    }

    /**
     * `cellValues`: one cell per grid position, in row-major order, whose id
     * is its index in the listing and whose colour is that of the grid's code.
     */
    method CellValues() returns (cells: seq<Cell>)
      requires Valid()
      ensures |cells| == board.size * board.size
      ensures forall k :: 0 <= k < |cells| ==> cells[k].id == k
      ensures forall r, c :: 0 <= r < board.size && 0 <= c < board.size ==>
                r * board.size + c < |cells| &&
                cells[r * board.size + c] == NewCell(r * board.size + c, board.board[r][c])
    {
      var n := board.size;
      cells := [];
      var id := 0;
      for r := 0 to n
        invariant id == |cells| == r * n
        invariant forall k :: 0 <= k < |cells| ==> cells[k].id == k
        invariant ListsRows(cells, board, r)
      {
        ghost var start := cells;
        for c := 0 to n
          invariant id == |cells| == r * n + c
          invariant cells[..r * n] == start
          invariant forall k :: 0 <= k < |cells| ==> cells[k].id == k
          invariant forall j :: 0 <= j < c ==> cells[r * n + j] == NewCell(r * n + j, board.board[r][j])
        {
          cells := cells + [NewCell(id, board.board[r][c])];
          id := id + 1;
        }
        RowAppended(start, cells, board, r);
      }
    }

    /** `playerTurn`: whose turn the board says it is. */
    function PlayerTurn(): (text: string)
      reads this
      ensures text == "Red player's turn" <==> board.playerTurn == 1
      ensures text == "Blue player's turn" <==> board.playerTurn != 1
    {
      (if board.playerTurn == 1 then "Red player" else "Blue player") + "'s turn"
    }

    /** `result`: the label for the board's verdict; an undecided game reads "You win". */
    function Result(): (text: string)
      reads this
      ensures text == "Red player wins" <==> CheckResult(board) == Player1Win
      ensures text == "Blue player wins" <==> CheckResult(board) == Player2Win
      ensures text == "You win" <==> CheckResult(board) == Unknown
    {
      match CheckResult(board)
      case Player1Win => "Red player wins"
      case Player2Win => "Blue player wins"
      case Unknown => "You win"
    }

    /** `gameEnded`: one of the players has won. */
    function GameEnded(): (ended: bool)
      reads this
      ensures ended <==> CheckResult(board) == Player1Win || CheckResult(board) == Player2Win
      ensures !ended <==> CheckResult(board) == Unknown
    {
      match CheckResult(board)
      case Player1Win => true
      case Player2Win => true
      case Unknown => false
    }

    /** The game has ended exactly when the result label names a winner. */
    lemma EndedIffWinnerNamed()
      ensures GameEnded() <==> Result() in {"Red player wins", "Blue player wins"}
    {
    }

    /** `soundOn`: the board's sound flag. */
    function SoundOn(): (on: bool)
      reads this
      ensures on <==> board.soundOn
    {
      board.soundOn
    }

    /** `musicOn`: the board's music flag. */
    function MusicOn(): (on: bool)
      reads this
      ensures on <==> board.musicOn
    {
      board.musicOn
    }

    /**
     * `play(cellId:)`: hands the cell, with the board's column count, to the
     * board's own `play`, given here as `boardPlay`; whatever that returns
     * becomes the board.
     */
    method Play(cellId: int, boardPlay: (GameBoard, BoardPosition) -> GameBoard)
      requires Valid()
      requires WellFormed(boardPlay(board, BoardPosition(cellId, board.size)))
      modifies this
      ensures Valid()
      ensures board == boardPlay(old(board), BoardPosition(cellId, old(board.size)))
    {
      board := boardPlay(board, BoardPosition(cellId, board.size));
    }

    /** `newGame(size:)`: a fresh board of the requested side, audio flags kept. */
    method NewGame(size: nat)
      modifies this
      ensures Valid()
      ensures board == Renewed(old(board), size)
      ensures SoundOn() == old(SoundOn()) && MusicOn() == old(MusicOn())
    {
      board := Renewed(board, size);
    }

    /** `incrementSize()`: one size up when below 11, otherwise nothing happens. */
    method IncrementSize()
      requires Valid()
      modifies this
      ensures Valid()
      ensures board == Incremented(old(board))
      ensures old(board.size) < MaxSize ==> board.size == old(board.size) + 1
      ensures MaxSize <= old(board.size) ==> board == old(board)
    {
      if board.size < MaxSize {
        var size := board.size + 1;
        NewGame(size);
      }
    }

    /** `decrementSize()`: one size down when above 3, otherwise nothing happens. */
    method DecrementSize()
      requires Valid()
      modifies this
      ensures Valid()
      ensures board == Decremented(old(board))
      ensures old(board.size) > MinSize ==> board.size == old(board.size) - 1
      ensures old(board.size) <= MinSize ==> board == old(board)
    {
      if board.size > MinSize {
        var size := board.size - 1;
        NewGame(size);
      }
    }

    /** `toggleSound()`: flips the sound flag, nothing else changes. */
    method ToggleSound()
      requires Valid()
      modifies this
      ensures Valid()
      ensures board == SoundToggled(old(board))
      ensures SoundOn() == !old(SoundOn())
    {
      board := SoundToggled(board);
    }

    /** `toggleMusic()`: flips the music flag, nothing else changes. */
    method ToggleMusic()
      requires Valid()
      modifies this
      ensures Valid()
      ensures board == MusicToggled(old(board))
      ensures MusicOn() == !old(MusicOn())
    {
      board := MusicToggled(board);
    }
  }
}
