/**
 * The game board that GameMode wraps, kept abstract. Its move rules, its
 * hex adjacency and its union-find connectivity are not part of this model:
 * the board is a record of the fields GameMode reads, and the verdict of
 * `checkResult()` is carried as a field, `outcome`, standing for whatever
 * the hidden connectivity state yields.
 */
module Boards {

  /** What `checkResult()` reports. */
  datatype GameResult = Player1Win | Player2Win | Unknown

  datatype GameBoard = GameBoard(
    size: int,                // side of the square grid
    board: seq<seq<int>>,     // colour codes, row by row
    playerTurn: int,          // 1 or 2
    musicOn: bool,
    soundOn: bool,
    outcome: GameResult)      // the verdict `checkResult()` returns

  /** The argument GameMode passes to the board's `play`: a cell id and the column count. */
  datatype BoardPosition = BoardPosition(id: int, cols: int)

  /** The board's verdict on the game. */
  function CheckResult(b: GameBoard): GameResult
  {
    b.outcome
  }

  /** The grid is a `size` by `size` square. */
  ghost predicate WellFormed(b: GameBoard)
  {
    && 0 <= b.size
    && |b.board| == b.size
    && forall r :: 0 <= r < |b.board| ==> |b.board[r]| == b.size
  }

  /** Every cell of the grid is empty (colour code 0). */
  ghost predicate AllEmpty(b: GameBoard)
  {
    forall r, c :: 0 <= r < |b.board| && 0 <= c < |b.board[r]| ==> b.board[r][c] == 0
  }

  /**
   * `GameBoard(size:musicOn:soundOn:)`: a fresh board of the given side, with
   * every cell empty, player 1 to move, the game undecided and the audio
   * flags as given.
   */
  function Fresh(size: nat, musicOn: bool, soundOn: bool): (b: GameBoard)
    ensures WellFormed(b) && AllEmpty(b)
    ensures b.size == size && b.playerTurn == 1 && CheckResult(b) == Unknown
    ensures b.musicOn == musicOn && b.soundOn == soundOn
  {
    GameBoard(size, seq(size, _ => seq(size, _ => 0)), 1, musicOn, soundOn, Unknown)
  }

  /** `toggleSound()`: flips the sound flag and nothing else. */
  function SoundToggled(b: GameBoard): (t: GameBoard)
    ensures t.soundOn != b.soundOn
    ensures t.(soundOn := b.soundOn) == b
  {
    b.(soundOn := !b.soundOn)
  }

  /** `toggleMusic()`: flips the music flag and nothing else. */
  function MusicToggled(b: GameBoard): (t: GameBoard)
    ensures t.musicOn != b.musicOn
    ensures t.(musicOn := b.musicOn) == b
  {
    b.(musicOn := !b.musicOn)
  }

  /** Toggling twice restores the board; toggling keeps the grid's shape. */
  lemma TogglesAreInvolutions(b: GameBoard)
    ensures SoundToggled(SoundToggled(b)) == b
    ensures MusicToggled(MusicToggled(b)) == b
    ensures WellFormed(b) ==> WellFormed(SoundToggled(b)) && WellFormed(MusicToggled(b))
  {
  }
}
