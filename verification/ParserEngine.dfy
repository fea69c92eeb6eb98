/** The parser object of parse.c: a stack array updated in place, proved against the step function of PushDown. */
module ParserEngine {
  import opened ParserCodes
  import opened ActionTables
  import opened PushDown
  import opened Certificate
  import opened Soundness
  import opened ParserRuns
  import opened ParserTermination

  /** What one iteration of the driver loop may count on, and what it achieves. */
  lemma Iteration(A: Automaton, G: Grammar, C: Cert, c: Config)
    requires IsGrammar(A, G) && Fits(A, G, C, c) && c.input != []
    ensures var c' := Step(A, Fixed, c);
            && Ready(A, c) && Fits(A, G, C, c') && c'.stack != []
            && 0 <= Potential(C, c.stack) && 0 <= Potential(C, c'.stack)
            && (c'.input == c.input ==> |c'.stack| > 1 && Potential(C, c'.stack) < Potential(C, c.stack))
            && (c'.input != c.input ==> |c'.input| < |c.input|)
  {
    assert StackInv(A, G, C, c.stack) && Terminals(c.input);
    AlwaysReady(A, G, C, c);
    StepPays(A, G, C, c);
    LoopExit(A, Fixed, c);
    hide Step, Inv, Certified, Weighted;
    PotentialBounds(A, G, C, c);
    PotentialBounds(A, G, C, Step(A, Fixed, c));
  }

  lemma PopDestroys(log: seq<Event>, es: seq<Entry>)
    requires es != []
    ensures log + [Destroyed(Top(es).major, Top(es).minor)] + Destroys(es[..|es| - 1]) == log + Destroys(es)
  {
    var e, rest := Destroyed(Top(es).major, Top(es).minor), Destroys(es[..|es| - 1]);
    assert Destroys(es) == [e] + rest;
    hide Destroys;
    assert log + [e] + rest == log + ([e] + rest);
  }

  /** The outcome of a reduction in terms of its parts. */
  lemma ReduceCases(A: Automaton, c: Config, r: nat)
    requires A.WellFormed() && c.input != [] && r < YYNRULE && ReduceReady(A, c.stack, r)
    ensures |c.stack| > A.nrhs[r]
    ensures var n, yyact := |c.stack| - A.nrhs[r], GotoOf(A, c.stack, r);
            var args := Minors(c.stack[n..]);
            ReduceStep(A, Fixed, c, r) ==
              if A.nrhs[r] == 0 && Full(Fixed, c.stack) then Overflow(c, c.stack[1..|c.stack| - 1])
              else if yyact <= YY_MAX_SHIFTREDUCE then
                Config(c.stack[..n] + [Entry(Encode(yyact), A.lhs[r], Node(r, args, |c.log|))],
                       c.log + [Reduced(r, args)], c.input)
              else
                Config(c.stack[..n], c.log + [Reduced(r, args)] + [Accepted(Node(r, args, |c.log|))], c.input[1..])
  {
    var args := Minors(c.stack[|c.stack| - A.nrhs[r]..]);
    var e, e' := Reduced(r, args), Accepted(Node(r, args, |c.log|));
    assert c.log + [e, e'] == c.log + [e] + [e'];
  }

  class Parser {
    const T: Tables
    const yystack: array<Entry>
    /** Index of the top entry. */
    var yytos: int
    /** The calls the parser makes into its environment, in order. */
    var log: seq<Event>

    ghost predicate Valid()
      reads this
    {
      yystack.Length == YYSTACKDEPTH && 0 <= yytos < YYSTACKDEPTH
    }

    ghost function Stack(): (s: seq<Entry>)
      requires Valid()
      reads this, yystack
      ensures |s| == yytos + 1
    {
      yystack[..yytos + 1]
    }

    /** The parser's state, with the tokens still to be fed to it. */
    ghost function Now(input: seq<Token>): Config
      requires Valid()
      reads this, yystack
    {
      Config(Stack(), log, input)
    }

    /** sqlite3ParserAlloc (parse.c:1509-1537). */
    constructor Alloc(T: Tables)
      ensures Valid() && fresh(yystack) && this.T == T
      ensures forall input :: Now(input) == Start(input)
    {
      this.T := T;
      yystack := new Entry[YYSTACKDEPTH](_ => BOTTOM);
      yytos := 0;
      log := [];
    }

    /** yy_pop_parser_stack (parse.c:1669-1682). */
    method PopParserStack()
      requires Valid() && yytos > 0
      modifies this`yytos, this`log
      ensures Valid() && Stack() == old(Stack())[..old(yytos)]
      ensures log == old(log) + [Destroyed(Top(old(Stack())).major, Top(old(Stack())).minor)]
    {
      assert yytos > 0;
      var top := yystack[yytos];
      yytos := yytos - 1;
      log := log + [Destroyed(top.major, top.minor)];
    }

    /** yyStackOverflow (parse.c:1814-1832): the entry at yytos is dropped before the others are popped. */
    method StackOverflow()
      requires yystack.Length == YYSTACKDEPTH && 1 <= yytos <= YYSTACKDEPTH
      modifies this`yytos, this`log
      ensures Valid() && Stack() == yystack[..1]
      ensures log == old(log) + Destroys(yystack[1..old(yytos)]) + [Overflowed]
    {
      yytos := yytos - 1;
      while yytos > 0
        invariant 0 <= yytos < old(yytos)
        invariant log + Destroys(yystack[1..yytos + 1]) == old(log) + Destroys(yystack[1..old(yytos)])
      {
        ghost var above := yystack[1..yytos + 1];
        assert above[..|above| - 1] == yystack[1..yytos];
        PopDestroys(log, above);
        PopParserStack();
      }
      log := log + [Overflowed];
    }

    /** yy_shift (parse.c:1857-1892). */
    method Shift(yyNewState: nat, tok: Token, ghost rest: seq<Token>)
      requires Valid()
      modifies this`yytos, this`log, yystack
      ensures Valid() && Now(rest) == ShiftStep(Fixed, old(Now([tok] + rest)), yyNewState)
    {
      ghost var before := Stack();
      yytos := yytos + 1;
      if yytos >= YYSTACKDEPTH {
        assert before[1..] == yystack[1..yytos];
        StackOverflow();
        return;
      }
      var state := yyNewState;
      if state > YY_MAX_SHIFT {
        state := state + (YY_MIN_REDUCE - YY_MIN_SHIFTREDUCE);
      }
      yystack[yytos] := Entry(state, tok.major, Leaf(tok, |log|));
      log := log + [Shifted(tok)];
    }

    /** yy_accept (parse.c:4020-4040): its assert holds, and the client has the value. */
    method Accept(value: Tree)
      requires Valid() && yytos == 0
      modifies this`log
      ensures log == old(log) + [Accepted(value)]
    {
      assert yytos == 0;
      log := log + [Accepted(value)];
    }

    /** The end of yy_reduce (parse.c:3955-3973): the left-hand side replaces the right-hand side, or is accepted. */
    method FinishReduce(ghost A: Automaton, r: nat, value: Tree)
      requires Packs(T, A) && Valid() && r < YYNRULE && ReduceReady(A, Stack(), r)
      requires A.nrhs[r] == 0 ==> yytos < YYSTACKDEPTH - 1
      modifies this`yytos, this`log, yystack
      ensures Valid()
      ensures var before, yyact := old(Stack()), GotoOf(A, old(Stack()), r);
              var rest := before[..|before| - A.nrhs[r]];
              if yyact <= YY_MAX_SHIFTREDUCE
              then Stack() == rest + [Entry(Encode(yyact), A.lhs[r], value)] && log == old(log)
              else Stack() == rest && log == old(log) + [Accepted(value)]
    {
      ghost var before := Stack();
      assert T.nrhs == A.nrhs && T.lhs == A.lhs && A.WellFormed();
      assert before[|before| - 1 - A.nrhs[r]] == yystack[yytos - A.nrhs[r]];
      var yygoto, yysize := T.lhs[r], T.nrhs[r];
      var yyact := FindReduceAction(T, A, yystack[yytos - yysize].stateno, yygoto);
      hide Packs;
      assert yyact == GotoOf(A, before, r) && before[..|before| - yysize] == yystack[..yytos + 1 - yysize];
      assert yyact > YY_MAX_SHIFTREDUCE ==> yyact == YY_ACCEPT_ACTION && yytos == yysize;
      hide GotoOf, ReduceReady;
      if yyact <= YY_MAX_SHIFTREDUCE {
        if yyact > YY_MAX_SHIFT {
          yyact := yyact + (YY_MIN_REDUCE - YY_MIN_SHIFTREDUCE);
        }
        yytos := yytos - yysize + 1;
        yystack[yytos] := Entry(yyact, yygoto, value);
      } else {
        assert yyact == YY_ACCEPT_ACTION;
        yytos := yytos - yysize;
        Accept(value);
      }
    }

    /** yy_reduce (parse.c:2241-2283 and 3954-3973); the reduce action itself builds a tree node. */
    method Reduce(ghost A: Automaton, r: nat, ghost input: seq<Token>)
      requires Packs(T, A) && Valid() && input != [] && r < YYNRULE && ReduceReady(A, Stack(), r)
      modifies this`yytos, this`log, yystack
      ensures Valid() && Now(if yytos > 0 then input else input[1..]) == ReduceStep(A, Fixed, old(Now(input)), r)
    {
      ghost var before := Stack();
      assert T.nrhs == A.nrhs && A.WellFormed();
      ReduceCases(A, Now(input), r);
      hide Packs, GotoOf, ReduceReady, Minors, ReduceStep, Destroys, Encode;
      var yysize := T.nrhs[r];
      if yysize == 0 && yytos >= YYSTACKDEPTH - 1 {
        assert before[1..|before| - 1] == yystack[1..yytos];
        StackOverflow();
        return;
      }
      var args, born := Minors(yystack[yytos - yysize + 1..yytos + 1]), |log|;
      assert yystack[yytos - yysize + 1..yytos + 1] == before[|before| - yysize..];
      log := log + [Reduced(r, args)];
      FinishReduce(A, r, Node(r, args, born));
    }

    /** The body of the loop in sqlite3Parser (parse.c:4090-4200): returns whether the loop goes on. */
    method Iterate(tok: Token, ghost A: Automaton, ghost rest: seq<Token>) returns (more: bool)
      requires Valid() && Packs(T, A) && Ready(A, Now([tok] + rest))
      modifies this`yytos, this`log, yystack
      ensures Valid() && Now(if more then [tok] + rest else rest) == Step(A, Fixed, old(Now([tok] + rest)))
    {
      ghost var c := Now([tok] + rest);
      assert c.input[0] == tok && c.input[1..] == rest && Top(c.stack) == yystack[yytos];
      var yymajor := tok.major;
      var yyact := FindShiftAction(T, A, yystack[yytos].stateno, yymajor);
      assert Step(A, Fixed, c) == if yyact <= YY_MAX_SHIFTREDUCE then ShiftStep(Fixed, c, yyact)
                                  else if yyact <= YY_MAX_REDUCE then ReduceStep(A, Fixed, c, yyact - YY_MIN_REDUCE)
                                  else ErrorStep(c);
      assert yyact == YY_ERROR_ACTION || yyact <= YY_MAX_SHIFTREDUCE
             || (IsReduce(yyact) && ReduceReady(A, c.stack, yyact - YY_MIN_REDUCE));
      assert ShiftStep(Fixed, c, yyact).input == rest;
      hide Step, Ready, ShiftStep, ReduceStep, ReduceReady, Packs;
      if yyact <= YY_MAX_SHIFTREDUCE {
        Shift(yyact, tok, rest);
        yymajor := YYNOCODE;
      } else if yyact <= YY_MAX_REDUCE {
        Reduce(A, yyact - YY_MIN_REDUCE, c.input);
      } else {
        assert yyact == YY_ERROR_ACTION;
        log := log + [SyntaxError(tok), Destroyed(yymajor, Leaf(tok, |log|))];
        yymajor := YYNOCODE;
      }
      more := yymajor != YYNOCODE && yytos > 0;
    }

    /**
     sqlite3Parser (parse.c:4055-4216): feeds one token. The loop does n + 1 steps of the automaton, which
     the certificate bounds, and afterwards the invariant of reachable configurations holds again.
     */
    method Parse(tok: Token, ghost A: Automaton, ghost G: Grammar, ghost C: Cert, ghost rest: seq<Token>)
      returns (ghost n: nat)
      requires Valid() && Packs(T, A) && IsGrammar(A, G) && Fits(A, G, C, Now([tok] + rest))
      modifies this`yytos, this`log, yystack
      ensures Valid() && Fits(A, G, C, Now(rest))
      ensures n <= Potential(C, old(Stack()))
      ensures Now(rest) == Run(A, Fixed, old(Now([tok] + rest)), n + 1)
    {
      ghost var start := Now([tok] + rest);
      assert A.WellFormed();
      hide Packs, Fits, IsGrammar, Step, Ready, Potential;
      n := 0;
      Iteration(A, G, C, start);
      var more := Iterate(tok, A, rest);
      while more
        invariant Valid() && Fits(A, G, C, Now(if more then [tok] + rest else rest))
        invariant Now(if more then [tok] + rest else rest) == Run(A, Fixed, start, n + 1)
        invariant n <= Potential(C, start.stack)
        invariant more ==> 0 <= Potential(C, Stack()) && n + 1 + Potential(C, Stack()) <= Potential(C, start.stack)
        decreases more, Potential(C, Stack())
      {
        Iteration(A, G, C, Now([tok] + rest));
        more := Iterate(tok, A, rest);
        n := n + 1;
      }
    }

    /** sqlite3ParserFree (parse.c:1693-1707), up to the release of the parser's own memory. */
    method Free()
      requires Valid()
      modifies this`yytos, this`log
      ensures Valid() && Stack() == old(Stack())[..1]
      ensures log == old(log) + Destroys(old(Stack())[1..])
    {
      while yytos > 0
        invariant 0 <= yytos <= old(yytos)
        invariant log + Destroys(yystack[1..yytos + 1]) == old(log) + Destroys(old(Stack())[1..])
      {
        ghost var above := yystack[1..yytos + 1];
        assert above[..|above| - 1] == yystack[1..yytos];
        PopDestroys(log, above);
        PopParserStack();
      }
    }
  }
}
