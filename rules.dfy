/** The rule-hook protocol: rules registered on the game name optional
    handlers for `init`, `firstClick`, `secondClick` and `afterUpdate`, and
    the view runs the handlers present, in registration order. */
module Rules {
  import opened Tools
  import opened ChessBoard

  /** The event object `select` hands to every handler: the clicked index,
      the piece code found there (None for `undefined`) and the colour to
      move. */
  datatype Event = Event(indexCase: int, piece: Option<int>, turn: Color)

  datatype Hook = InitHook | FirstClickHook | SecondClickHook | AfterUpdateHook

  /** A rule module. `init` says whether the rule has an `init` method; the
      other fields hold the handler its `events` table names, None when the
      name is missing or names no method. A handler is modelled by what it
      does to the board and to the move: a `secondClick` handler returns
      the next move, an `afterUpdate` handler changes the move object it is
      handed in place (its second result, see `InPlace`). */
  datatype Rule<!B> = Rule(
    init: bool,
    firstClick: Option<(B, Event) -> B>,
    secondClick: Option<(B, Event, Option<Move>) -> (B, Option<Move>)>,
    afterUpdate: Option<(B, Event, Option<Move>) -> (B, Option<Move>)>
  )

  predicate Has<B>(rule: Rule<B>, hook: Hook) {
    match hook
    case InitHook => rule.init
    case FirstClickHook => rule.firstClick.Some?
    case SecondClickHook => rule.secondClick.Some?
    case AfterUpdateHook => rule.afterUpdate.Some?
  }

  /** One observable step of the protocol: a handler of the rule at a given
      registration index ran, or the view finished a commit
      (secondClickEnd). */
  datatype Call = Ran(hook: Hook, rule: nat) | ClickEnd

  /** The handler invocations of one pass over `rules` for `hook`. */
  function HookRuns<B>(rules: seq<Rule<B>>, hook: Hook): seq<Call>
    decreases |rules|
  {
    if rules == [] then []
    else
      var n := |rules| - 1;
      HookRuns(rules[..n], hook) + (if Has(rules[n], hook) then [Ran(hook, n)] else [])
  }

  /** A pass over the rules runs exactly the handlers that exist, each once,
      in registration order. */
  lemma {:induction false} HookRunsExactly<B>(rules: seq<Rule<B>>, hook: Hook)
    ensures forall i :: 0 <= i < |HookRuns(rules, hook)| ==>
      HookRuns(rules, hook)[i].Ran? && HookRuns(rules, hook)[i].hook == hook &&
      HookRuns(rules, hook)[i].rule < |rules| && Has(rules[HookRuns(rules, hook)[i].rule], hook)
    ensures forall i, j :: 0 <= i < j < |HookRuns(rules, hook)| ==>
      HookRuns(rules, hook)[i].rule < HookRuns(rules, hook)[j].rule
    ensures forall k :: 0 <= k < |rules| && Has(rules[k], hook) ==> Ran(hook, k) in HookRuns(rules, hook)
    decreases |rules|
  {
    if rules != [] {
      var n := |rules| - 1;
      var front := rules[..n];
      HookRunsExactly(front, hook);
      assert forall k :: 0 <= k < n ==> front[k] == rules[k];
    }
  }

  /** The `firstClick` handlers in registration order, each seeing the
      board its predecessors left; their return values are not used. Rules
      without such a handler leave the board as it was. */
  function FirstClickHooks<B>(rules: seq<Rule<B>>, b: B, ev: Event): (r: B)
    ensures (forall k :: 0 <= k < |rules| ==> rules[k].firstClick.None?) ==> r == b
    decreases |rules|
  {
    if rules == [] then b
    else
      var n := |rules| - 1;
      var before := FirstClickHooks(rules[..n], b, ev);
      match rules[n].firstClick
      case None => before
      case Some(h) => h(before, ev)
  }

  /** The `secondClick` handlers as a left fold: each receives the move the
      previous one returned (even a null one) and returns the next. Rules
      without such a handler hand board and move through untouched. */
  function SecondClickHooks<B>(rules: seq<Rule<B>>, b: B, ev: Event, m: Option<Move>): (r: (B, Option<Move>))
    ensures (forall k :: 0 <= k < |rules| ==> rules[k].secondClick.None?) ==> r == (b, m)
    decreases |rules|
  {
    if rules == [] then (b, m)
    else
      var n := |rules| - 1;
      var before := SecondClickHooks(rules[..n], b, ev, m);
      match rules[n].secondClick
      case None => before
      case Some(h) => h(before.0, ev, before.1)
  }

  /** The move object after an `afterUpdate` handler changed it in place:
      the handler's version of a non-null move (None when it left the move
      alone). A null move stays null and a move cannot become null. */
  function InPlace(m: Option<Move>, changed: Option<Move>): (r: Option<Move>)
    ensures r.Some? <==> m.Some?
    ensures changed.None? ==> r == m
  {
    if m.Some? && changed.Some? then changed else m
  }

  /** The `afterUpdate` handlers in registration order, all handed the same
      move object; each sees the board and the in-place changes to the move
      its predecessors made. Whether there is a move is never changed, and
      rules without such a handler leave board and move as they were. */
  function AfterUpdateHooks<B>(rules: seq<Rule<B>>, b: B, ev: Event, m: Option<Move>): (r: (B, Option<Move>))
    ensures r.1.Some? <==> m.Some?
    ensures (forall k :: 0 <= k < |rules| ==> rules[k].afterUpdate.None?) ==> r == (b, m)
    decreases |rules|
  {
    if rules == [] then (b, m)
    else
      var n := |rules| - 1;
      var before := AfterUpdateHooks(rules[..n], b, ev, m);
      match rules[n].afterUpdate
      case None => before
      case Some(h) =>
        var after := h(before.0, ev, before.1);
        (after.0, InPlace(before.1, after.1))
  }

  /** Folding over two batches of rules is folding over the first and
      handing its board and move to the second. */
  lemma {:induction false} SecondClickHooksAppend<B>(r1: seq<Rule<B>>, r2: seq<Rule<B>>, b: B, ev: Event, m: Option<Move>)
    ensures SecondClickHooks(r1 + r2, b, ev, m) ==
      SecondClickHooks(r2, SecondClickHooks(r1, b, ev, m).0, ev, SecondClickHooks(r1, b, ev, m).1)
    decreases |r2|
  {
    if r2 == [] {
      assert r1 + r2 == r1;
    } else {
      var n := |r2| - 1;
      assert (r1 + r2)[..|r1 + r2| - 1] == r1 + r2[..n];
      assert (r1 + r2)[|r1 + r2| - 1] == r2[n];
      SecondClickHooksAppend(r1, r2[..n], b, ev, m);
    }
  }
}
