/** The game (chess.js): rule registration, the generation settings, and
    the turn bookkeeping done after every click. */
module ChessGame {
  import opened Tools
  import opened ChessBoard
  import opened Rules
  import opened View

  /** An Eaten record: the turn of the capture, the square where the piece
      was taken and its piece code. */
  datatype Eaten = Eaten(turn: nat, lastPosition: int, piece: int)

  /** The game's bookkeeping: colour to move, turn counter, and the move
      and eaten logs (MoveView and EatenView, append-only). */
  datatype Ledger = Ledger(turn: Color, numTurn: nat, moves: seq<Move>, eaten: seq<Eaten>)

  /** turn: WHITE, numTurn: 0, both logs empty. */
  const Initial: Ledger := Ledger(White, 0, [], [])

  /** The bookkeeping of boardClick once `select` has returned `move`. */
  function Record(l: Ledger, move: Option<Move>): (r: Ledger)
    ensures r.numTurn == l.numTurn + (if move.Some? then 1 else 0)
    ensures move.Some? <==> r.turn != l.turn
    ensures |l.moves| <= |r.moves| && r.moves[..|l.moves|] == l.moves
    ensures |l.eaten| <= |r.eaten| && r.eaten[..|l.eaten|] == l.eaten
    ensures |r.eaten| - |l.eaten| <= |r.moves| - |l.moves| <= 1
  {
    match move
    case None => l
    case Some(m) =>
      Ledger(InvertColor(l.turn), l.numTurn + 1, l.moves + [m.(turn := Some(l.numTurn))],
             l.eaten + (if m.eat != 0 then [Eaten(l.numTurn, m.to, m.eat)] else []))
  }

  /** The colour to move after n half-moves from the start. */
  function ColorAt(n: nat): Color {
    if n % 2 == 0 then White else Black
  }

  /** The Eaten records a move log gives rise to: one per capturing move,
      in order, stamped with that move's position in the log. */
  function Captures(moves: seq<Move>): seq<Eaten>
    decreases |moves|
  {
    if moves == [] then []
    else
      var n := |moves| - 1;
      Captures(moves[..n]) + (if moves[n].eat != 0 then [Eaten(n, moves[n].to, moves[n].eat)] else [])
  }

  /** The bookkeeping invariant: one logged move per turn, stamped with its
      turn number; the colour to move alternates from White; the eaten log
      is exactly the captures of the move log. */
  ghost predicate Consistent(l: Ledger) {
    |l.moves| == l.numTurn &&
    (forall k :: 0 <= k < |l.moves| ==> l.moves[k].turn == Some(k)) &&
    l.turn == ColorAt(l.numTurn) &&
    l.eaten == Captures(l.moves)
  }

  /** A click that yields no move changes nothing. */
  lemma RecordNoMove(l: Ledger)
    ensures Record(l, None) == l
  {
  }

  /** A click that yields a move logs it once, stamped with the turn number
      before the increment, adds an Eaten record iff the move captured, and
      advances the counter by one and the colour to the other one. */
  lemma RecordMove(l: Ledger, m: Move)
    ensures var r := Record(l, Some(m));
      |r.moves| == |l.moves| + 1 && r.moves[..|l.moves|] == l.moves &&
      r.moves[|l.moves|] == m.(turn := Some(l.numTurn)) &&
      (m.eat != 0 <==> |r.eaten| == |l.eaten| + 1) &&
      r.eaten[..|l.eaten|] == l.eaten &&
      (m.eat != 0 ==> r.eaten[|l.eaten|] == Eaten(l.numTurn, m.to, m.eat)) &&
      r.numTurn == l.numTurn + 1 && r.turn == InvertColor(l.turn) && r.turn != l.turn
  {
  }

  /** The invariant holds at the start. */
  lemma InitialConsistent()
    ensures Consistent(Initial)
  {
  }

  /** Every click keeps the bookkeeping invariant. */
  lemma RecordPreservesConsistent(l: Ledger, move: Option<Move>)
    requires Consistent(l)
    ensures Consistent(Record(l, move))
  {
  }

  /** In a consistent game White is to move iff the turn counter is even. */
  lemma TurnParity(l: Ledger)
    requires Consistent(l)
    ensures l.turn == White <==> l.numTurn % 2 == 0
  {
  }

  /** The bookkeeping after a series of clicks from the start. */
  function Replay(l: Ledger, clicks: seq<Option<Move>>): Ledger
    decreases |clicks|
  {
    if clicks == [] then l else Replay(Record(l, clicks[0]), clicks[1..])
  }

  /** The number of clicks that yielded a move. */
  function MoveCount(clicks: seq<Option<Move>>): nat
    decreases |clicks|
  {
    if clicks == [] then 0 else (if clicks[0].Some? then 1 else 0) + MoveCount(clicks[1..])
  }

  /** Whatever the clicks, the game stays consistent and the turn counter
      counts the clicks that yielded a move. */
  lemma {:induction false} ReplayConsistent(l: Ledger, clicks: seq<Option<Move>>)
    requires Consistent(l)
    ensures Consistent(Replay(l, clicks))
    ensures Replay(l, clicks).numTurn == l.numTurn + MoveCount(clicks)
    decreases |clicks|
  {
    if clicks != [] {
      RecordPreservesConsistent(l, clicks[0]);
      ReplayConsistent(Record(l, clicks[0]), clicks[1..]);
    }
  }

  /** Each Eaten record names a capturing move of the log (its turn, its
      destination and what it took), the records follow the log's order,
      and every capturing move has one. */
  lemma {:induction false} CapturesExactly(moves: seq<Move>)
    ensures forall i :: 0 <= i < |Captures(moves)| ==>
      Captures(moves)[i].turn < |moves| &&
      moves[Captures(moves)[i].turn].eat == Captures(moves)[i].piece != 0 &&
      moves[Captures(moves)[i].turn].to == Captures(moves)[i].lastPosition
    ensures forall i, j :: 0 <= i < j < |Captures(moves)| ==> Captures(moves)[i].turn < Captures(moves)[j].turn
    ensures forall k :: 0 <= k < |moves| && moves[k].eat != 0 ==>
      exists i :: 0 <= i < |Captures(moves)| && Captures(moves)[i].turn == k
    decreases |moves|
  {
    if moves != [] {
      var n := |moves| - 1;
      var front := moves[..n];
      CapturesExactly(front);
      assert forall k :: 0 <= k < n ==> front[k] == moves[k];
      forall k | 0 <= k < |moves| && moves[k].eat != 0
        ensures exists i :: 0 <= i < |Captures(moves)| && Captures(moves)[i].turn == k
      {
        if k < n {
          var i :| 0 <= i < |Captures(front)| && Captures(front)[i].turn == k;
          assert Captures(moves)[i] == Captures(front)[i];
        } else {
          assert Captures(moves)[|Captures(front)|].turn == n;
        }
      }
    }
  }

  /** A commit whose secondClick handlers end in a null move is not
      undone: the view is idle and the board keeps the move the board
      accepted (after updateAll and the afterUpdate handlers), yet the game
      logs nothing and the same colour stays to move. */
  lemma VetoKeepsBoardButNotTurn<B>(env: Engine<B>, viewTurn: Option<Color>, rules: seq<Rule<B>>,
                                    v: ViewState<B>, id: int, l: Ledger)
    requires !OwnPiece(env, v.board, id, l.turn)
    requires v.state == First && v.selected.Some?
    requires env.moveFromTo(v.board, v.selected.value, id).1.Some?
    requires var (b1, m) := env.moveFromTo(v.board, v.selected.value, id);
      SecondClickHooks(rules, b1, Event(id, env.at(v.board, id), l.turn), m).1.None?
    ensures var (w, m, c) := SelectOutcome(env, viewTurn, rules, v, id, l.turn);
      var ev := Event(id, env.at(v.board, id), l.turn);
      var (b1, accepted) := env.moveFromTo(v.board, v.selected.value, id);
      m.None? && Record(l, m) == l && w.state == Idle &&
      w.board == AfterUpdateHooks(rules, env.updateAll(SecondClickHooks(rules, b1, ev, accepted).0, l.turn), ev, None).0
  {
    CommitAlwaysFinishes(env, viewTurn, rules, v, id, l.turn);
  }

  /** start: the generation option falls back to the standard layout and
      the random flag to false when they were never set. */
  function StartSettings(genOption: Option<BoardOption>, randomGen: Option<bool>): (r: (BoardOption, bool))
    ensures genOption.None? ==> r.0 == NormalBoard
    ensures genOption.Some? ==> r.0 == genOption.value
    ensures r.1 <==> randomGen == Some(true)
  {
    (if genOption.Some? then genOption.value else NormalBoard,
     if randomGen.Some? then randomGen.value else false)
  }

  class Game<!B> {
    var turn: Color
    var numTurn: nat
    var rules: seq<Rule<B>>
    const board: ChessView<B>
    var moves: seq<Move>
    var eaten: seq<Eaten>
    var genOption: Option<BoardOption>
    var randomGen: Option<bool>
    /** The `init` calls made so far, in order. */
    ghost var inits: seq<Call>

    /** The bookkeeping is consistent and every registered rule that has an
        `init` ran it exactly once, in registration order. */
    ghost predicate Valid()
      reads this
    {
      Consistent(CurrentLedger()) && inits == HookRuns(rules, InitHook)
    }

    function CurrentLedger(): Ledger
      reads this
    {
      Ledger(turn, numTurn, moves, eaten)
    }

    constructor(env: Engine<B>)
      ensures Valid() && CurrentLedger() == Initial && rules == []
      ensures genOption.None? && randomGen.None?
      ensures fresh(board) && board.env == env && board.chessBoard.None? && board.state == Unset
      ensures board.selected.None? && board.turn.None? && board.calls == []
      ensures board.marks == [] && board.tiles == []
    {
      turn := White;
      numTurn := 0;
      rules := [];
      board := new ChessView(env);
      moves := [];
      eaten := [];
      genOption := None;
      randomGen := None;
      inits := [];
    }

    /** start */
    method Start()
      modifies board
      ensures board.chessBoard == Some(board.env.createBoard(StartSettings(genOption, randomGen).0,
                                                             StartSettings(genOption, randomGen).1))
      ensures TileGrid(board.tiles) && board.marks == []
      ensures board.state == old(board.state) && board.selected == old(board.selected)
      ensures board.turn == old(board.turn) && board.calls == old(board.calls)
    {
      var option := if genOption.Some? then genOption.value else NormalBoard;
      var random := if randomGen.Some? then randomGen.value else false;
      board.Start(option, random);
    }

    method SetRandomGen(random: bool)
      modifies this`randomGen
      ensures randomGen == Some(random)
    {
      randomGen := Some(random);
    }

    method SetOptionGen(option: BoardOption)
      modifies this`genOption
      ensures genOption == Some(option)
    {
      genOption := Some(option);
    }

    /** addRule: runs the rule's `init` (when it has one) while the rule is
        not yet registered, then appends it. */
    method AddRule(rule: Rule<B>)
      requires Valid()
      modifies this`rules, this`inits
      ensures Valid()
      ensures rules == old(rules) + [rule]
      ensures inits == old(inits) + (if rule.init then [Ran(InitHook, |old(rules)|)] else [])
    {
      if rule.init {
        inits := inits + [Ran(InitHook, |rules|)];
      }
      rules := rules + [rule];
      assert rules[..|rules| - 1] == old(rules);
    }

    /** boardClick: asks the view to handle the click and, when it yields a
        move, stamps and logs it, logs a capture, and passes the turn. */
    method BoardClick(id: int)
      requires Valid() && board.chessBoard.Some?
      modifies this, board
      ensures Valid() && board.chessBoard.Some?
      ensures var (v, m, c) := SelectOutcome(board.env, old(board.turn), rules, old(board.Snapshot()), id, old(turn));
        board.Snapshot() == v && board.calls == old(board.calls) + c &&
        CurrentLedger() == Record(old(CurrentLedger()), m)
      ensures rules == old(rules) && inits == old(inits)
      ensures genOption == old(genOption) && randomGen == old(randomGen)
      ensures board.turn == old(board.turn) && board.tiles == old(board.tiles)
    {
      ghost var before := CurrentLedger();
      var move := board.Select(rules, id, turn);
      if move.Some? {
        var m := move.value.(turn := Some(numTurn));
        AddMove(m);
        if m.eat != 0 {
          AddEaten(Eaten(numTurn, m.to, m.eat));
        }
        numTurn := numTurn + 1;
        SwitchTurn();
      }
      RecordPreservesConsistent(before, move);
    }

    method AddMove(move: Move)
      modifies this`moves
      ensures moves == old(moves) + [move]
    {
      moves := moves + [move];
    }

    method AddEaten(e: Eaten)
      modifies this`eaten
      ensures eaten == old(eaten) + [e]
    {
      eaten := eaten + [e];
    }

    /** switchTurn */
    method SwitchTurn()
      modifies this`turn
      ensures turn == InvertColor(old(turn))
    {
      turn := InvertColor(turn);
    }
  }

  /** The options object handed to `new Chess(...)`; an absent key is None. */
  datatype ChessArgs<!B> = ChessArgs(rules: Option<seq<Rule<B>>>, generationRandom: Option<bool>,
                                     generationOption: Option<BoardOption>)

  /** The public Chess object wrapping one game. */
  class Chess<!B> {
    const game: Game<B>

    /** Registers the `rules` entries in array order and records the
        generation settings given. */
    constructor(env: Engine<B>, args: ChessArgs<B>)
      ensures fresh(game) && fresh(game.board) && game.Valid()
      ensures game.rules == (if args.rules.Some? then args.rules.value else [])
      ensures game.CurrentLedger() == Initial
      ensures game.randomGen == args.generationRandom && game.genOption == args.generationOption
      ensures game.board.env == env && game.board.chessBoard.None? && game.board.state == Unset
      ensures game.board.selected.None? && game.board.turn.None? && game.board.calls == []
      ensures game.board.marks == [] && game.board.tiles == []
    {
      game := new Game(env);
      new;
      if args.rules.Some? {
        var rs := args.rules.value;
        for k := 0 to |rs|
          invariant fresh(game) && fresh(game.board) && game.Valid() && game.rules == rs[..k]
          invariant game.CurrentLedger() == Initial && game.randomGen.None? && game.genOption.None?
          invariant game.board.env == env && game.board.chessBoard.None? && game.board.state == Unset
          invariant game.board.selected.None? && game.board.turn.None? && game.board.calls == []
          invariant game.board.marks == [] && game.board.tiles == []
        {
          var _ := AddRule(rs[k]);
          assert rs[..k + 1] == rs[..k] + [rs[k]];
        }
        assert rs[..|rs|] == rs;
      }
      if args.generationRandom.Some? {
        SetRandom(args.generationRandom.value);
      }
      if args.generationOption.Some? {
        SetGenOption(args.generationOption.value);
      }
    }

    /** addRule: registers the rule and returns this Chess object for
        chaining. */
    method AddRule(rule: Rule<B>) returns (self: Chess<B>)
      requires game.Valid()
      modifies game`rules, game`inits
      ensures self == this && game.Valid()
      ensures game.rules == old(game.rules) + [rule]
    {
      game.AddRule(rule);
      self := this;
    }

    method SetRandom(random: bool)
      modifies game`randomGen
      ensures game.randomGen == Some(random)
    {
      game.SetRandomGen(random);
    }

    method SetGenOption(option: BoardOption)
      modifies game`genOption
      ensures game.genOption == Some(option)
    {
      game.SetOptionGen(option);
    }

    method Start()
      modifies game.board
      ensures game.board.chessBoard == Some(game.board.env.createBoard(
        StartSettings(game.genOption, game.randomGen).0, StartSettings(game.genOption, game.randomGen).1))
      ensures TileGrid(game.board.tiles) && game.board.marks == []
      ensures game.board.state == old(game.board.state) && game.board.selected == old(game.board.selected)
      ensures game.board.turn == old(game.board.turn) && game.board.calls == old(game.board.calls)
    {
      game.Start();
    }
  }
}
