# Hex game state, modelled in Dafny

This project models the game-facing core of a Hex app: the `GameMode`
object that the game screen holds, the `Cell` value the grid is drawn from,
and the `ModalManager` that drives the slide-up menu.

- `Cells` (`cell.dfy`): a cell is an id and one of three colours. The grid's
  colour codes map 0 to gray, 1 to red and 2 to blue. Every other code also
  maps to gray, and a cell built without a code is gray.
- `Boards` (`game_board.dfy`): the game board that `GameMode` wraps. Its
  source is not part of this model, so it is a record of the fields
  `GameMode` reads: `size`, the grid `board`, `playerTurn`, `musicOn`,
  `soundOn`. The verdict of `checkResult()` is carried in a field
  `outcome`. It stands for the union-find connectivity state, whose rules
  are not modelled. The board's initializer and toggles are not in the
  source either, so their behaviour is assumed: a fresh board (`Fresh`) is
  taken to be an all-empty `size` by `size` grid, with player 1 to move and
  the game undecided, and each toggle is taken to flip one flag only.
- `GameModes` (`game_mode.dfy`): class `GameMode` with its single field
  `board`. Its class invariant `Valid()` says the grid is a `size` by
  `size` square.
  - `CellValues` builds the cell listing with two nested loops and an id
    counter, as the source does.
  - `PlayerTurn`, `Result` and `GameEnded` are the derived labels and flag.
    `SoundOn` and `MusicOn` read the board's flags.
  - The intents `Play`, `NewGame`, `IncrementSize`, `DecrementSize`,
    `ToggleSound` and `ToggleMusic` reassign `board`. Each is specified by
    a pure function of the old board (`Renewed`, `Incremented`,
    `Decremented`, `SoundToggled`, `MusicToggled`), and the lemmas are about
    those functions.
- `Modals` (`modal_manager.dfy`): class `ModalManager` with its field
  `modal`. The field holds a position (`Closed`, `PartiallyRevealed`,
  `Open`), a drag offset and optional content of an opaque type `V`. The
  three calls are specified by pure functions. `ApplyAll` runs a sequence of
  calls, so that properties of every run can be stated.

Two behaviours of the code worth knowing; the model follows the code in both:
- `newGame(size:)` does no range check: any non-negative side is installed
  (`Renewed`). Only `incrementSize` and `decrementSize` keep the side within
  3..11.
- `result` labels an undecided game "You win".

## Model

| member | source | states |
|---|---|---|
| Cells.NewCell | Hex/Game/Cell.swift:15-27 | the cell keeps the given id; it is red iff the code is 1, blue iff the code is 2, gray for every other code (so the mapping is total) |
| Cells.CodeOf | Hex/Game/Cell.swift:17-23 | the code of each colour is one of 0, 1, 2 |
| Cells.DecodeEncode | Hex/Game/Cell.swift:17-23 | decoding the code of any colour gives back that colour, whatever the id |
| Cells.EncodeDecode | Hex/Game/Cell.swift:17-23 | each of the codes 0, 1, 2 is the code of the colour it decodes to |
| Cells.DefaultCellIsGray | Hex/Game/Cell.swift:15 | a cell built without a colour code is gray |
| Boards.Fresh | Hex/Game/Modes/GameMode.swift:17 | a new board is a `size` by `size` square of empty cells, player 1 to move, undecided, with the given audio flags |
| Boards.SoundToggled | Hex/Game/Modes/GameMode.swift:92-94 | the sound flag flips and every other field is unchanged |
| Boards.MusicToggled | Hex/Game/Modes/GameMode.swift:96-98 | the music flag flips and every other field is unchanged |
| Boards.TogglesAreInvolutions | Hex/Game/Modes/GameMode.swift:92-98 | toggling a flag twice restores the board; toggling keeps the grid square |
| GameModes.Renewed | Hex/Game/Modes/GameMode.swift:74-76 | the new board has exactly the requested side (no range check), is empty and undecided, and keeps the previous music and sound flags |
| GameModes.Incremented | Hex/Game/Modes/GameMode.swift:78-83 | below 11 the board is the new game of side + 1 (`Renewed`: empty, player 1 to move, undecided); at 11 or above the board is unchanged; a side in 3..11 stays in 3..11; flags kept |
| GameModes.Decremented | Hex/Game/Modes/GameMode.swift:85-90 | above 3 the board is the new game of side − 1 (`Renewed`: empty, player 1 to move, undecided); at 3 or below the board is unchanged; a side in 3..11 stays in 3..11; flags kept |
| GameModes.StepsStayInRange | Hex/Game/Modes/GameMode.swift:78-90 | from a side in 3..11, every sequence of increments and decrements ends in 3..11 with the audio flags unchanged |
| GameModes.IncrementThenDecrement | Hex/Game/Modes/GameMode.swift:78-90 | below 11, stepping up then down gives a fresh board of the original side |
| GameModes.GameMode.constructor | Hex/Game/Modes/GameMode.swift:16-18 | the default mode starts on a fresh size-11 board with music and sound on |
| GameModes.GameMode.Restore | Hex/Game/Modes/GameMode.swift:20-22 | the mode starts on the saved board when there is one, otherwise on a fresh size-11 board with both flags on |
| GameModes.GameMode.CellValues | Hex/Game/Modes/GameMode.swift:29-39 | the listing has size² cells; the k-th has id k; the cell at `r*size + c` is built from `board[r][c]` (row-major) |
| GameModes.GameMode.PlayerTurn | Hex/Game/Modes/GameMode.swift:41-43 | "Red player's turn" iff the board's turn is 1, "Blue player's turn" otherwise |
| GameModes.GameMode.Result | Hex/Game/Modes/GameMode.swift:45-51 | "Red player wins" iff player 1 won, "Blue player wins" iff player 2 won, "You win" iff undecided |
| GameModes.GameMode.GameEnded | Hex/Game/Modes/GameMode.swift:53-59 | true iff the verdict is a win for either player, false iff it is undecided |
| GameModes.GameMode.SoundOn | Hex/Game/Modes/GameMode.swift:61-63 | the board's sound flag; `ToggleSound` flips it and `NewGame`, `IncrementSize`, `DecrementSize` keep it |
| GameModes.GameMode.MusicOn | Hex/Game/Modes/GameMode.swift:65-67 | the board's music flag; `ToggleMusic` flips it and `NewGame`, `IncrementSize`, `DecrementSize` keep it |
| GameModes.GameMode.EndedIffWinnerNamed | Hex/Game/Modes/GameMode.swift:45-59 | the game has ended iff the result label names a winner |
| GameModes.GameMode.Play | Hex/Game/Modes/GameMode.swift:70-72 | the board becomes what the board's own play returns for the cell id and the board's column count |
| GameModes.GameMode.NewGame | Hex/Game/Modes/GameMode.swift:74-76 | the board is replaced by a fresh board of the requested side, audio flags kept |
| GameModes.GameMode.IncrementSize | Hex/Game/Modes/GameMode.swift:78-83 | side + 1 when below 11, otherwise the board is left exactly as it was |
| GameModes.GameMode.DecrementSize | Hex/Game/Modes/GameMode.swift:85-90 | side − 1 when above 3, otherwise the board is left exactly as it was |
| GameModes.GameMode.ToggleSound | Hex/Game/Modes/GameMode.swift:92-94 | the sound flag flips, nothing else changes |
| GameModes.GameMode.ToggleMusic | Hex/Game/Modes/GameMode.swift:96-98 | the music flag flips, nothing else changes |
| Modals.Installed | Hex/Views/ModalManager.swift:13-15 | the new sheet has exactly the given position and content, and a zero drag offset (the struct's default) |
| Modals.Opened | Hex/Views/ModalManager.swift:17-19 | position becomes partially revealed; content and drag offset unchanged |
| Modals.Shut | Hex/Views/ModalManager.swift:21-23 | position becomes closed; content and drag offset unchanged |
| Modals.OpenCloseLaws | Hex/Views/ModalManager.swift:17-23 | opening and closing are each idempotent; opening then closing closes the sheet |
| Modals.OnlyNewModalOpensFully | Hex/Views/ModalManager.swift:13-23 | from a sheet that is not open, no run of calls without `newModal(position: .open)` opens it |
| Modals.EndingWithCloseCloses | Hex/Views/ModalManager.swift:21-23 | a run of calls ending with `closeModal` gives the sheet of the run before it, closed |
| Modals.ModalManager.constructor | Hex/Views/ModalManager.swift:11 | a fresh manager holds a closed sheet with no content and no drag offset |
| Modals.ModalManager.NewModal | Hex/Views/ModalManager.swift:13-15 | the whole sheet is replaced by the installed one |
| Modals.ModalManager.OpenModal | Hex/Views/ModalManager.swift:17-19 | the sheet becomes the opened sheet of the old one |
| Modals.ModalManager.CloseModal | Hex/Views/ModalManager.swift:21-23 | the sheet becomes the closed sheet of the old one |

## Left out

- Persistence: reading the saved board from the user defaults, decoding it, and the automatic save after every change. `Restore` takes the decoded board (or none) as a parameter.
- The code of `GameBoard`, `BoardPosition` and `TwoPlayersGame` is not part of this model, and neither are the hex adjacency and union-find rules behind `play` and `checkResult()`. The board is a record, its verdict a field, and its `play` a function parameter of `Play`; its initializer and toggles are modelled on assumed behaviour (next lines).
- Boards.Fresh: assumed, not taken from code: a new board is an all-empty square grid of the given side, player 1 to move, undecided, with the given flags.
- Boards.SoundToggled / Boards.MusicToggled: assumed, not taken from code: a toggle flips its one flag and changes nothing else.
- GameModes.GameMode.Restore: requires that a restored snapshot decodes to a square grid of its side. The decoder is not part of this model, and the class invariant needs that shape.
- GameModes.GameMode.Play: the effect of a move is not stated, because the board's `play` is not part of this model. `Play` also requires that the board's `play` returns a square grid.
- GameModes.GameMode.NewGame: takes a non-negative side. Swift's `Int` also allows negative sides, but what the unseen board initializer does with them is unknown (building a grid with a negative count is assumed to fail). Every side from 0 upward is accepted unchecked.
- The content closure of `newModal` is evaluated once by the source, so the model takes its result, of opaque type `V`.
- `ModalState.offsetFromTop` (floating-point screen geometry) and the drag offset's arithmetic.
- The "Unexpected color code" console message for codes other than 0, 1, 2. SwiftUI colours are reduced to three values.
- The welcome screen, game view, border drawing and Facebook login: layout, audio playback, network and authentication code.
- Swift's fixed-width `Int`: sides and ids are unbounded integers here. Stepping the side by one never comes near the bounds of `Int`.
