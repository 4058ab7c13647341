/** ChessView: the 64 tiles, the highlighting of a selected piece's tracks
    and the two-click selection/commit state machine of `select`. */
module View {
  import opened Tools
  import opened ChessBoard
  import opened Rules

  /** ChessView.state: `undefined` until the first selection, 'first' while
      a piece is selected, 'none' after a commit. */
  datatype Phase = Unset | First | Idle

  /** The highlight class ableDivs gives a track square. */
  datatype BoxClass = SelectedBox | ThreatBox

  datatype Mark = Mark(id: int, cls: BoxClass)

  /** A tile of the board: its div id and whether it is a 'black_box'. */
  datatype Tile = Tile(id: int, dark: bool)

  /** The fields of the view that `select` reads and writes. */
  datatype ViewState<!B> = ViewState(board: B, state: Phase, selected: Option<int>, marks: seq<Mark>)

  // ---------------------------------------------------------------------
  // Tiles (initChessBoard)
  // ---------------------------------------------------------------------

  /** The tile at row i, column j is dark iff i + j is odd. */
  predicate IsDark(i: int, j: int) {
    (i + j) % 2 == 1
  }

  /** 64 tiles numbered in row-major order, coloured by the parity of
      row + column. */
  ghost predicate TileGrid(tiles: seq<Tile>) {
    |tiles| == 64 &&
    forall k :: 0 <= k < 64 ==> tiles[k] == Tile(k, IsDark(k / 8, k % 8))
  }

  lemma RowColumn(i: int, j: int)
    requires 0 <= i < 8 && 0 <= j < 8
    ensures 0 <= 8 * i + j < 64
    ensures (8 * i + j) / 8 == i && (8 * i + j) % 8 == j
  {
  }

  /** The tiles initChessBoard appends: two nested loops over rows and
      columns with a running counter for the id. */
  method LayOutTiles() returns (tiles: seq<Tile>)
    ensures TileGrid(tiles)
  {
    tiles := [];
    var counter := 0;
    for i := 0 to 8
      invariant counter == 8 * i && |tiles| == counter
      invariant forall k :: 0 <= k < counter ==> tiles[k] == Tile(k, IsDark(k / 8, k % 8))
    {
      for j := 0 to 8
        invariant counter == 8 * i + j && |tiles| == counter
        invariant forall k :: 0 <= k < counter ==> tiles[k] == Tile(k, IsDark(k / 8, k % 8))
      {
        RowColumn(i, j);
        tiles := tiles + [Tile(counter, IsDark(i, j))];
        counter := counter + 1;
      }
    }
  }

  /** The tile at row i, column j has id 8*i + j and is dark iff i + j is
      odd. */
  lemma TileAt(tiles: seq<Tile>, i: int, j: int)
    requires TileGrid(tiles)
    requires 0 <= i < 8 && 0 <= j < 8
    ensures 0 <= 8 * i + j < 64
    ensures tiles[8 * i + j] == Tile(8 * i + j, IsDark(i, j))
  {
    RowColumn(i, j);
  }

  /** The grid is a checkerboard: the top-left tile is light, and
      horizontal and vertical neighbours differ in colour. */
  lemma TilesAlternate(tiles: seq<Tile>)
    requires TileGrid(tiles)
    ensures !tiles[0].dark
    ensures forall k :: 0 <= k < 63 && k % 8 != 7 ==> tiles[k].dark != tiles[k + 1].dark
    ensures forall k :: 0 <= k < 56 ==> tiles[k].dark != tiles[k + 8].dark
  {
    forall k | 0 <= k < 63 && k % 8 != 7
      ensures tiles[k].dark != tiles[k + 1].dark
    {
      assert (k + 1) / 8 == k / 8 && (k + 1) % 8 == k % 8 + 1;
    }
    forall k | 0 <= k < 56
      ensures tiles[k].dark != tiles[k + 8].dark
    {
      assert (k + 8) / 8 == k / 8 + 1 && (k + 8) % 8 == k % 8;
    }
  }

  // ---------------------------------------------------------------------
  // Track highlighting (ableDivs)
  // ---------------------------------------------------------------------

  /** The class of one track square seen against the colour `colour`. */
  function ClassOf(sameColor: (int, Option<Color>) -> bool, box: Box, colour: Option<Color>): (r: BoxClass)
    ensures box.current == 0 ==> r == SelectedBox
    ensures r == SelectedBox ==> box.current == 0 || sameColor(box.current, colour)
  {
    if box.current != 0 && !sameColor(box.current, colour) then ThreatBox else SelectedBox
  }

  /** The marks of a list of track squares, one per square, in order. */
  function Marks(sameColor: (int, Option<Color>) -> bool, boxes: seq<Box>, colour: Option<Color>): (r: seq<Mark>)
    ensures |r| == |boxes|
    ensures forall k :: 0 <= k < |boxes| ==> r[k].id == boxes[k].id
    ensures forall k :: 0 <= k < |boxes| && boxes[k].current == 0 ==> r[k].cls == SelectedBox
    ensures forall k :: 0 <= k < |boxes| ==>
      (r[k].cls == ThreatBox <==> boxes[k].current != 0 && !sameColor(boxes[k].current, colour))
  {
    seq(|boxes|, k requires 0 <= k < |boxes| => Mark(boxes[k].id, ClassOf(sameColor, boxes[k], colour)))
  }

  /** ableDivs: every track square is marked, in order; a square is a
      threat iff it holds a piece that is not of the colour given. */
  method AbleDivs(sameColor: (int, Option<Color>) -> bool, boxes: seq<Box>, colour: Option<Color>)
    returns (marks: seq<Mark>)
    ensures |marks| == |boxes|
    ensures forall k :: 0 <= k < |boxes| ==>
      marks[k].id == boxes[k].id &&
      (marks[k].cls == ThreatBox <==> boxes[k].current != 0 && !sameColor(boxes[k].current, colour))
    ensures marks == Marks(sameColor, boxes, colour)
  {
    marks := [];
    for k := 0 to |boxes|
      invariant |marks| == k
      invariant forall i :: 0 <= i < k ==> marks[i] == Mark(boxes[i].id, ClassOf(sameColor, boxes[i], colour))
    {
      var className := SelectedBox;
      if boxes[k].current != 0 && !sameColor(boxes[k].current, colour) {
        className := ThreatBox;
      }
      marks := marks + [Mark(boxes[k].id, className)];
    }
  }

  // ---------------------------------------------------------------------
  // The select state machine
  // ---------------------------------------------------------------------

  /** What one click does to the view: its new fields, what `select`
      returns and the protocol steps it runs, in order. `viewTurn` is the
      view's own `turn` property, which the highlighting reads. */
  function SelectOutcome<B>(env: Engine<B>, viewTurn: Option<Color>, rules: seq<Rule<B>>,
                            v: ViewState<B>, id: int, turn: Color): (r: (ViewState<B>, Option<Move>, seq<Call>))
    ensures r.0.selected == v.selected || r.0.selected == Some(id)
    ensures r.0.state == v.state || r.0.state == First || r.0.state == Idle
    ensures r.0.state == First && v.state != First ==> r.0.selected == Some(id)
    ensures r.1.Some? ==> v.state == First && v.selected.Some? && r.0.state == Idle
  {
    var code := env.at(v.board, id);
    var ev := Event(id, code, turn);
    if code.Some? && code.value != 0 && env.sameColor(code.value, Some(turn)) then
      var b := FirstClickHooks(rules, v.board, ev);
      (ViewState(b, First, Some(id), Marks(env.sameColor, env.tracksOf(b, code.value), viewTurn)),
       None, HookRuns(rules, FirstClickHook))
    else if v.state == First && v.selected.Some? then
      var (b1, m) := env.moveFromTo(v.board, v.selected.value, id);
      if m.None? then
        (v.(board := b1), None, [])
      else
        var (b2, m2) := SecondClickHooks(rules, b1, ev, m);
        var (b3, m3) := AfterUpdateHooks(rules, env.updateAll(b2, turn), ev, m2);
        (ViewState(b3, Idle, v.selected, []), m3,
         HookRuns(rules, SecondClickHook) + [ClickEnd] + HookRuns(rules, AfterUpdateHook))
    else
      (v, None, [])
  }

  /** Whether the clicked square holds a piece of the colour to move. */
  predicate OwnPiece<B>(env: Engine<B>, b: B, id: int, turn: Color) {
    var code := env.at(b, id);
    code.Some? && code.value != 0 && env.sameColor(code.value, Some(turn))
  }

  /** Clicking a piece of the colour to move always selects it, whatever
      was selected before, runs every firstClick handler and returns
      nothing: the handlers cannot veto a selection. */
  lemma SelectsOwnPiece<B>(env: Engine<B>, viewTurn: Option<Color>, rules: seq<Rule<B>>,
                           v: ViewState<B>, id: int, turn: Color)
    requires OwnPiece(env, v.board, id, turn)
    ensures var (w, m, c) := SelectOutcome(env, viewTurn, rules, v, id, turn);
      w.state == First && w.selected == Some(id) && m.None? &&
      c == HookRuns(rules, FirstClickHook) &&
      w.board == FirstClickHooks(rules, v.board, Event(id, env.at(v.board, id), turn))
  {
  }

  /** Clicking an empty or opposing square with no piece selected changes
      nothing, runs no handler and returns nothing. */
  lemma IgnoresStrayClick<B>(env: Engine<B>, viewTurn: Option<Color>, rules: seq<Rule<B>>,
                             v: ViewState<B>, id: int, turn: Color)
    requires !OwnPiece(env, v.board, id, turn)
    requires v.state != First || v.selected.None?
    ensures SelectOutcome(env, viewTurn, rules, v, id, turn) == (v, None, [])
  {
  }

  /** A move the board refuses leaves the piece selected: the state stays
      'first', the selection and highlights are kept, nothing is returned
      and no handler runs. */
  lemma KeepsSelectionOnRefusedMove<B>(env: Engine<B>, viewTurn: Option<Color>, rules: seq<Rule<B>>,
                                       v: ViewState<B>, id: int, turn: Color)
    requires !OwnPiece(env, v.board, id, turn)
    requires v.state == First && v.selected.Some?
    requires env.moveFromTo(v.board, v.selected.value, id).1.None?
    ensures var (w, m, c) := SelectOutcome(env, viewTurn, rules, v, id, turn);
      w.state == First && w.selected == v.selected && w.marks == v.marks && m.None? && c == []
  {
  }

  /** Once the board accepts a move the commit always finishes: the move
      is folded through the secondClick handlers, the state becomes 'none'
      whatever the handlers returned, the board keeps the accepted move, and
      the afterUpdate handlers run after the commit, all handed the fold's
      result. `select` returns that move object as the afterUpdate handlers
      left it, which is null exactly when the fold yielded null. */
  lemma CommitAlwaysFinishes<B>(env: Engine<B>, viewTurn: Option<Color>, rules: seq<Rule<B>>,
                                v: ViewState<B>, id: int, turn: Color)
    requires !OwnPiece(env, v.board, id, turn)
    requires v.state == First && v.selected.Some?
    requires env.moveFromTo(v.board, v.selected.value, id).1.Some?
    ensures var (w, m, c) := SelectOutcome(env, viewTurn, rules, v, id, turn);
      var ev := Event(id, env.at(v.board, id), turn);
      var (b1, accepted) := env.moveFromTo(v.board, v.selected.value, id);
      var folded := SecondClickHooks(rules, b1, ev, accepted);
      var after := AfterUpdateHooks(rules, env.updateAll(folded.0, turn), ev, folded.1);
      m == after.1 && (m.Some? <==> folded.1.Some?) &&
      w.state == Idle && w.selected == v.selected && w.marks == [] && w.board == after.0 &&
      c == HookRuns(rules, SecondClickHook) + [ClickEnd] + HookRuns(rules, AfterUpdateHook)
  {
  }

  /** `select` returns a move only as the second click of a selection, and
      then the view always ends idle. */
  lemma MoveOnlyFromSelection<B>(env: Engine<B>, viewTurn: Option<Color>, rules: seq<Rule<B>>,
                                 v: ViewState<B>, id: int, turn: Color)
    requires SelectOutcome(env, viewTurn, rules, v, id, turn).1.Some?
    ensures v.state == First && v.selected.Some? && !OwnPiece(env, v.board, id, turn)
    ensures SelectOutcome(env, viewTurn, rules, v, id, turn).0.state == Idle
  {
  }

  /** With no secondClick handler registered, `select` returns a move iff
      the board accepted one; with no afterUpdate handler either, it is the
      very move the board produced. */
  lemma CommitWithoutHandlersReturnsBoardMove<B>(env: Engine<B>, viewTurn: Option<Color>, rules: seq<Rule<B>>,
                                                  v: ViewState<B>, id: int, turn: Color)
    requires forall k :: 0 <= k < |rules| ==> rules[k].secondClick.None?
    requires !OwnPiece(env, v.board, id, turn)
    requires v.state == First && v.selected.Some?
    ensures SelectOutcome(env, viewTurn, rules, v, id, turn).1.Some? <==>
      env.moveFromTo(v.board, v.selected.value, id).1.Some?
    ensures (forall k :: 0 <= k < |rules| ==> rules[k].afterUpdate.None?) ==>
      SelectOutcome(env, viewTurn, rules, v, id, turn).1 == env.moveFromTo(v.board, v.selected.value, id).1
  {
  }

  // ---------------------------------------------------------------------
  // The view object
  // ---------------------------------------------------------------------

  class ChessView<!B> {
    const env: Engine<B>
    /** ChessView.chessBoard; `undefined` until `start`. */
    var chessBoard: Option<B>
    var state: Phase
    var selected: Option<int>
    /** The highlight classes currently on the track squares. */
    var marks: seq<Mark>
    /** The tiles appended to the board element. */
    var tiles: seq<Tile>
    /** The view's own `turn` property, which ableDivs reads; no method of
        the view assigns it. */
    var turn: Option<Color>
    /** The protocol steps run so far, in order. */
    ghost var calls: seq<Call>

    constructor(env: Engine<B>)
      ensures this.env == env && chessBoard.None? && state == Unset && selected.None?
      ensures marks == [] && tiles == [] && turn.None? && calls == []
    {
      this.env := env;
      chessBoard := None;
      state := Unset;
      selected := None;
      marks := [];
      tiles := [];
      turn := None;
      calls := [];
    }

    function Snapshot(): ViewState<B>
      reads this
      requires chessBoard.Some?
    {
      ViewState(chessBoard.value, state, selected, marks)
    }

    /** start: a fresh board from the generation settings, then the tiles. */
    method Start(genOption: BoardOption, random: bool)
      modifies this
      ensures chessBoard == Some(env.createBoard(genOption, random)) && TileGrid(tiles) && marks == []
      ensures state == old(state) && selected == old(selected)
      ensures turn == old(turn) && calls == old(calls)
    {
      chessBoard := Some(env.createBoard(genOption, random));
      InitChessBoard();
    }

    /** initChessBoard: empties the board element, which drops every
        highlight, and appends the 64 tiles. */
    method InitChessBoard()
      modifies this`tiles, this`marks
      ensures TileGrid(tiles) && marks == []
    {
      marks := [];
      tiles := LayOutTiles();
    }

    /** select: the click on square `id` with `turn` to move. */
    method Select(rules: seq<Rule<B>>, id: int, turn: Color) returns (move: Option<Move>)
      requires chessBoard.Some?
      modifies this
      ensures chessBoard.Some?
      ensures var (v, m, c) := SelectOutcome(env, old(this.turn), rules, old(Snapshot()), id, turn);
        Snapshot() == v && move == m && calls == old(calls) + c
      ensures tiles == old(tiles) && this.turn == old(this.turn)
    {
      var code := env.at(chessBoard.value, id);
      var ev := Event(id, code, turn);
      if code.Some? && code.value != 0 && env.sameColor(code.value, Some(turn)) {
        RunFirstClickHooks(rules, ev);
        FirstClick(id, code.value);
        move := None;
      } else if state == First && selected.Some? {
        var (b, m) := env.moveFromTo(chessBoard.value, selected.value, id);
        chessBoard := Some(b);
        if m.Some? {
          move := RunSecondClickHooks(rules, ev, m);
          SecondClickEnd(turn);
          move := RunAfterUpdateHooks(rules, ev, move);
        } else {
          move := None;
        }
      } else {
        move := None;
      }
    }

    /** firstClick: enters 'first', highlights the piece's tracks and
        records the selection. */
    method FirstClick(indexSelected: int, pieceCode: int)
      requires chessBoard.Some?
      modifies this`state, this`selected, this`marks
      ensures state == First && selected == Some(indexSelected)
      ensures marks == Marks(env.sameColor, env.tracksOf(chessBoard.value, pieceCode), turn)
    {
      state := First;
      marks := AbleDivs(env.sameColor, env.tracksOf(chessBoard.value, pieceCode), turn);
      selected := Some(indexSelected);
    }

    /** secondClickEnd: updates the board for the colour that moved, clears
        the highlights and returns to 'none'; the selection is kept. */
    method SecondClickEnd(turn: Color)
      requires chessBoard.Some?
      modifies this`chessBoard, this`state, this`marks, this`calls
      ensures chessBoard == Some(env.updateAll(old(chessBoard.value), turn))
      ensures state == Idle && marks == [] && calls == old(calls) + [ClickEnd]
    {
      chessBoard := Some(env.updateAll(chessBoard.value, turn));
      marks := [];
      state := Idle;
      calls := calls + [ClickEnd];
    }

    method RunFirstClickHooks(rules: seq<Rule<B>>, ev: Event)
      requires chessBoard.Some?
      modifies this`chessBoard, this`calls
      ensures chessBoard == Some(FirstClickHooks(rules, old(chessBoard.value), ev))
      ensures calls == old(calls) + HookRuns(rules, FirstClickHook)
    {
      var b := chessBoard.value;
      for k := 0 to |rules|
        invariant b == FirstClickHooks(rules[..k], old(chessBoard.value), ev)
        invariant calls == old(calls) + HookRuns(rules[..k], FirstClickHook)
      {
        assert rules[..k + 1][..k] == rules[..k];
        match rules[k].firstClick {
          case Some(h) =>
            b := h(b, ev);
            calls := calls + [Ran(FirstClickHook, k)];
          case None =>
        }
      }
      assert rules[..|rules|] == rules;
      chessBoard := Some(b);
    }

    method RunSecondClickHooks(rules: seq<Rule<B>>, ev: Event, m: Option<Move>) returns (move: Option<Move>)
      requires chessBoard.Some?
      modifies this`chessBoard, this`calls
      ensures chessBoard.Some? && (chessBoard.value, move) == SecondClickHooks(rules, old(chessBoard.value), ev, m)
      ensures calls == old(calls) + HookRuns(rules, SecondClickHook)
    {
      var b := chessBoard.value;
      move := m;
      for k := 0 to |rules|
        invariant (b, move) == SecondClickHooks(rules[..k], old(chessBoard.value), ev, m)
        invariant calls == old(calls) + HookRuns(rules[..k], SecondClickHook)
      {
        assert rules[..k + 1][..k] == rules[..k];
        match rules[k].secondClick {
          case Some(h) =>
            var r := h(b, ev, move);
            b, move := r.0, r.1;
            calls := calls + [Ran(SecondClickHook, k)];
          case None =>
        }
      }
      assert rules[..|rules|] == rules;
      chessBoard := Some(b);
    }

    method RunAfterUpdateHooks(rules: seq<Rule<B>>, ev: Event, m: Option<Move>) returns (move: Option<Move>)
      requires chessBoard.Some?
      modifies this`chessBoard, this`calls
      ensures chessBoard.Some? && (chessBoard.value, move) == AfterUpdateHooks(rules, old(chessBoard.value), ev, m)
      ensures calls == old(calls) + HookRuns(rules, AfterUpdateHook)
    {
      var b := chessBoard.value;
      move := m;
      for k := 0 to |rules|
        invariant (b, move) == AfterUpdateHooks(rules[..k], old(chessBoard.value), ev, m)
        invariant calls == old(calls) + HookRuns(rules[..k], AfterUpdateHook)
      {
        assert rules[..k + 1][..k] == rules[..k];
        match rules[k].afterUpdate {
          case Some(h) =>
            var r := h(b, ev, move);
            b, move := r.0, InPlace(move, r.1);
            calls := calls + [Ran(AfterUpdateHook, k)];
          case None =>
        }
      }
      assert rules[..|rules|] == rules;
      chessBoard := Some(b);
    }
  }
}
