# SimpleChess: the click-driven move lifecycle

This project models the core of the SimpleChess browser chessboard: the
two-click selection/commit state machine of `ChessView.select`, the ordered
rule-hook pipeline it drives (`firstClick`, `secondClick`, `afterUpdate`),
the 64-tile grid and track highlighting of the view, and the turn
bookkeeping of `Game.boardClick` (turn stamp, move log, eaten log, turn
counter, colour to move). The chess board itself (`ChessBoard`: lookup,
track generation, moves, `updateAll`) and the piece-code helpers of `Tools`
are not part of this model; they are the function-valued fields of
`ChessBoard.Engine`, over a board state of an arbitrary type. Two
assumptions are made about them. The queries `at` and `getTracksOf` do not
change the board, and neither do the board calls of the display code left
out (`each`, `myKingIsChess`, `findColorKing`). And every collaborator is
a function of its arguments: in particular `createBoard` gives the same
board for the same settings, so a random layout is one fixed board per
setting (see "## Left out"). `Tools.getInvertColor` is modelled as the swap of the
two colours.

Files:

- `tools.dfy` (module `Tools`): colours, `InvertColor`, `Option` for
  `undefined`, the generation options.
- `board.dfy` (module `ChessBoard`): the `Move` and `Box` values and the
  `Engine` record of collaborator operations.
- `rules.dfy` (module `Rules`): rules as records of optional handlers, the
  three handler passes as left folds, and the trace of handler calls.
- `view.dfy` (module `View`): the `ChessView` class and `SelectOutcome`,
  the function that specifies one click.
- `chess.dfy` (module `ChessGame`): the `Game` and `Chess` classes and the
  `Ledger` bookkeeping with its invariant `Consistent`.

Two behaviours of the source are worth stating up front:

- A move the board refuses does not clear the selection. The view stays
  in 'first' with the same selected square (src/ChessView.js:100-101,117).
- When the fold of the `secondClick` handlers ends in null, the commit is
  not undone. `moveFromTo`, `updateAll` and the `afterUpdate` handlers have
  already run, and the view is idle. The game logs nothing and does not
  pass the turn (src/ChessView.js:100-115, src/chess.js:42-43).

## Model

| member | source | states |
|---|---|---|
| `Tools.InvertColor` | src/chess.js:65-67 | the colour after `switchTurn` is the other of the two colours |
| `Tools.InvertColorInvolutive` | src/chess.js:65-67 | switching the turn twice gives the colour back |
| `Rules.HookRunsExactly` | src/ChessView.js:92-97 | a pass over the rules runs exactly the rules whose `events` entry names an existing handler, each once, in registration order |
| `Rules.FirstClickHooks` | src/ChessView.js:92-97 | the `firstClick` handlers applied in registration order; with no such handler the board is unchanged |
| `Rules.SecondClickHooks` | src/ChessView.js:102-107 | the `secondClick` handlers as a left fold over board and move; with no such handler both come through unchanged |
| `Rules.InPlace` | src/ChessView.js:109-114 | an in-place change by an `afterUpdate` handler can neither turn a null move into a move nor a move into null |
| `Rules.AfterUpdateHooks` | src/ChessView.js:109-114 | the `afterUpdate` handlers run in registration order on one shared move object, each seeing the board and the in-place changes to the move that its predecessors made; whether there is a move never changes; with no such handler board and move are unchanged |
| `Rules.SecondClickHooksAppend` | src/ChessView.js:102-107 | the `secondClick` handlers form a left fold: each receives the board and move its predecessors produced |
| `View.RowColumn` | src/ChessView.js:39-49 | the running counter 8*i + j of row i, column j is below 64 and gives back i and j |
| `View.LayOutTiles` | src/ChessView.js:37-51 | the nested loops produce exactly 64 tiles; tile k has id k and is dark iff row + column is odd |
| `View.TileAt` | src/ChessView.js:39-50 | the tile at row i, column j has id 8*i + j and is dark iff i + j is odd |
| `View.TilesAlternate` | src/ChessView.js:46 | the grid is a checkerboard: tile 0 is light, horizontal and vertical neighbours differ |
| `View.ClassOf` | src/ChessView.js:151-155 | an empty square is always `selectedBox`; a `selectedBox` square is empty or holds a piece of the colour compared against |
| `View.Marks` | src/ChessView.js:150-158 | one mark per track square, in order, each with its square's id; empty squares are `selectedBox` |
| `View.AbleDivs` | src/ChessView.js:148-160 | every track square is marked once, in order, with its own id; it is `threatBox` iff occupied by a piece not of the view's `turn` colour, else `selectedBox` |
| `View.SelectOutcome` | src/ChessView.js:83-119 | one click: the selection is either kept or becomes the clicked square; the state stays, becomes 'first' or becomes 'none'; entering 'first' selects the clicked square; a move is returned only from 'first' with a selection, and the view then ends 'none' |
| `View.SelectsOwnPiece` | src/ChessView.js:91-98 | a click on a piece of the colour to move always ends in 'first' with that square selected, whatever was selected before; all `firstClick` handlers run and none can veto; nothing is returned |
| `View.IgnoresStrayClick` | src/ChessView.js:99-118 | an empty or opposing square clicked while not in 'first' or with nothing selected returns nothing and changes nothing |
| `View.KeepsSelectionOnRefusedMove` | src/ChessView.js:100-117 | when `moveFromTo` is falsy, nothing is returned, the state stays 'first' and the selection and highlights are kept |
| `View.CommitAlwaysFinishes` | src/ChessView.js:100-116 | once `moveFromTo` succeeds the result is the fold of the `secondClick` handlers, the view ends 'none' whatever they return, and the `afterUpdate` handlers run after `secondClickEnd` on that result; `select` returns the move as they left it, null exactly when the fold yielded null |
| `View.MoveOnlyFromSelection` | src/ChessView.js:91-118 | a move is returned only for a second click while a piece is selected, and the view then ends 'none' |
| `View.CommitWithoutHandlersReturnsBoardMove` | src/ChessView.js:100-115 | with no `secondClick` handler a move is returned iff `moveFromTo` produced one; with no `afterUpdate` handler either, it is that very move |
| `View.ChessView.constructor` | src/ChessView.js:16-19 | a new view has no board, no state, nothing selected and no tiles |
| `View.ChessView.Start` | src/ChessView.js:26-31 | the view gets a fresh board from the generation settings and the 64 tiles, and all highlights are gone; the state and selection are untouched |
| `View.ChessView.InitChessBoard` | src/ChessView.js:35-53 | the board element is emptied, which drops every highlight, and then holds exactly the 64-tile grid |
| `View.ChessView.Select` | src/ChessView.js:83-119 | the new view fields, the result and the handler calls are those of `SelectOutcome` |
| `View.ChessView.FirstClick` | src/ChessView.js:168-176 | state becomes 'first', the piece's tracks are highlighted, the square is selected |
| `View.ChessView.SecondClickEnd` | src/ChessView.js:182-189 | the board is updated for the colour that moved, highlights cleared, state 'none'; the selection is kept |
| `View.ChessView.RunFirstClickHooks` | src/ChessView.js:92-97 | the loop applies the `firstClick` handlers present in registration order |
| `View.ChessView.RunSecondClickHooks` | src/ChessView.js:102-107 | the loop reassigns the move through the `secondClick` handlers present in registration order |
| `View.ChessView.RunAfterUpdateHooks` | src/ChessView.js:109-114 | the loop hands the move object to every `afterUpdate` handler present, in registration order, keeping each handler's in-place changes, and returns it |
| `ChessGame.RecordNoMove` | src/chess.js:41-43 | a click that yields no move leaves turn, counter and both logs unchanged |
| `ChessGame.Record` | src/chess.js:41-58 | the counter grows by one exactly when a move is yielded, and the colour changes exactly then; both logs only grow at the end, by at most one entry, and the eaten log never grows without the move log |
| `ChessGame.RecordMove` | src/chess.js:44-56 | a yielded move is logged once, stamped with the pre-increment counter; an Eaten record with that turn, the move's `to` and its `eat` is added iff `eat` is set; the counter grows by one and the colour flips |
| `ChessGame.InitialConsistent` | src/chess.js:10-11 | the game starts with White to move, counter 0 and empty logs, which satisfies the invariant |
| `ChessGame.RecordPreservesConsistent` | src/chess.js:41-58 | every click keeps the invariant: one stamped move per turn, colour alternating from White, eaten log equal to the captures of the move log |
| `ChessGame.TurnParity` | src/chess.js:55-56 | White is to move iff the turn counter is even |
| `ChessGame.ReplayConsistent` | src/chess.js:41-58 | after any series of clicks the invariant holds and the counter equals the number of clicks that yielded a move |
| `ChessGame.CapturesExactly` | src/chess.js:47-54 | each Eaten record names a capturing logged move (turn, destination, piece), records follow log order, and every capturing move has one |
| `ChessGame.VetoKeepsBoardButNotTurn` | src/ChessView.js:100-115 | a null result from the handlers leaves the board moved and the view idle while the game logs nothing and keeps the colour to move |
| `ChessGame.StartSettings` | src/chess.js:21-22 | the option falls back to `normalBoard` when unset; the random flag is true only when set to true |
| `ChessGame.Game.constructor` | src/chess.js:8-15 | a new game has White to move, counter 0, no rules, empty logs and a fresh, empty view |
| `ChessGame.Game.Start` | src/chess.js:20-24 | the view is started with the fallback settings, with no highlights left; the state and selection are untouched |
| `ChessGame.Game.SetRandomGen` | src/chess.js:25-27 | records the random flag |
| `ChessGame.Game.SetOptionGen` | src/chess.js:28-30 | records the generation option |
| `ChessGame.Game.AddRule` | src/chess.js:31-34 | the rule is appended; an `init` entry carrying the rule's registration index is recorded iff the rule has `init`; every registered `init` appears once, in order |
| `ChessGame.Game.BoardClick` | src/chess.js:41-58 | the view handles the click as `SelectOutcome` says and the bookkeeping advances as `Record` says, keeping the invariant |
| `ChessGame.Game.AddMove` | src/chess.js:59-61 | appends to the move log |
| `ChessGame.Game.AddEaten` | src/chess.js:62-64 | appends to the eaten log |
| `ChessGame.Game.SwitchTurn` | src/chess.js:65-67 | the colour to move becomes the other colour |
| `ChessGame.Chess.constructor` | src/chess.js:70-88 | the `rules` entries are registered in array order, the generation settings recorded, the ledger is the initial one and the view starts empty (no board, no selection, no marks, no tiles, no trace) |
| `ChessGame.Chess.AddRule` | src/chess.js:90-93 | registers the rule and returns the same Chess object for chaining |
| `ChessGame.Chess.SetRandom` | src/chess.js:95-97 | records the random flag on the game |
| `ChessGame.Chess.SetGenOption` | src/chess.js:99-101 | records the generation option on the game |
| `ChessGame.Chess.Start` | src/chess.js:103-105 | starts the game's view with the fallback settings, with no highlights left; the view's state, selection and handler trace are untouched |

## Left out

- DOM work is not modelled: html insertion, piece rendering (`renderPieces`, `renderPiece`), the `currentBox` class, `hilightChessKing` and the page bootstrap. The highlights are modelled only as the `marks` field, which `firstClick` sets and which `secondClickEnd` and `initChessBoard` clear. The tiles are modelled only as the `tiles` field.
- Backbone event wiring (`events`, `handleClick` and its `#board` check) is not modelled; a click enters at `Game.BoardClick` with the clicked square's index.
- The ChessBoard collection and the `Tools` piece-code encodings are not part of this model. Their operations are parameters (`ChessBoard.Engine`), and their source is not available. Apart from being functions of their arguments, nothing is assumed about what they compute, except that `at` and `getTracksOf` and the board calls of the display code left out (`each` in `renderPieces`, `myKingIsChess` and `findColorKing` in `hilightChessKing`, src/ChessView.js:59,200-201) do not change the board.
- The concrete rules (`enPassant`, `castling`, `pawnTransform`, `mat`, `pat`) are not part of this model. A rule is a record of optional handlers, and a handler is modelled by what it does to the board (and by the move it returns). Effects of a handler on the game's or the view's fields are not modelled, and neither is the rule's own state changed by `init`.
- Every handler receives `game` in the source (src/ChessView.js:95,105,112) and may read the turn counter, the move log, the eaten log and the view's fields. The model's handlers see only the board, the event and the move, so a handler's result cannot depend on the counter or the history. A rule that needs the previous move, such as en passant, is only expressible in the model through what it keeps on the board.
- The random layout asked for by `random` (src/ChessView.js:24,29) is modelled by `ChessBoard.Engine.createBoard` as a fixed function of the settings. Two starts with the random flag set therefore give the same board in the model, where the source may give different ones. The random source is not modelled.
- ChessGame.StartSettings: the fallback assumes that the name `Gen` resolves. src/chess.js:21 reads `Gen.boardOptions.normalBoard`, but src/chess.js:4 does not import `Gen`. Unless `Gen` is a global, `start` without a generation option throws a ReferenceError before the view is started. The model returns `NormalBoard` instead.
- Every registered rule is assumed to carry an `events` table. The source reads `rule.events.firstClick`, `.secondClick` and `.afterUpdate` without a guard (src/ChessView.js:93,103,110), so a rule without one makes `select` throw. On a commit the throw comes after `moveFromTo` has already moved the board, and the view stays in 'first' with nothing logged. The model has no such rule, so it does not capture this error path.
- View.ChessView.FirstClick: the piece code it highlights for is the one read before the `firstClick` handlers ran. The source re-reads the square afterwards, so a handler that changes the selected square's piece is not seen.
- View.ChessView.Select: requires a started view. The source would throw on a click before `start`.
- Square ids are DOM strings in the source and integers here. A click on an element with no numeric id is the case where `at` yields None.
- The view's own `turn` property, which `ableDivs` compares against, is never assigned by the code modelled. It is therefore `None` throughout, and what `Tools.sameColor` does with an undefined colour is part of the unseen collaborator.
- In the source, `rules`, the view and the two logs (`moves: new MoveView()`, `eaten: new EatenView()`) live on the `Game` prototype and are shared by all games. The model gives each game its own, which matches the single game the page creates.
- Move objects are mutable and shared in the source. `move.set` stamps the object the handlers returned, and the `afterUpdate` handlers change that same object in place (src/ChessView.js:112, src/chess.js:44-47). The model threads the move through the `afterUpdate` pass as a value (`Rules.AfterUpdateHooks`), so a field such as `eat` that a handler sets does reach the move log and the eaten log. The model does not capture the object being changed after it was logged.
- `MoveView` and `EatenView` are modelled only as the append-only sequences `moves` and `eaten`.
- The build configuration and `src/app.js` contain no logic and are not modelled.
