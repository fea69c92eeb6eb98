/** The bounded, encoded parser against simpler ones: one whose stack never fills, and a plain LR parser. */
module ParserRefinement {
  import opened ParserCodes
  import opened ActionTables
  import opened PushDown
  import opened Certificate
  import opened Soundness
  import opened ParserRuns

  /** The unlimited stack of this step stays within the fixed array. */
  predicate StaysWithin(A: Automaton, c: Config, k: nat)
    requires A.WellFormed()
  {
    |Run(A, Unlimited, c, k).stack| <= YYSTACKDEPTH
  }

  /** What an overflow destroys: every entry above the bottom, but not the top one when a rule overflows. */
  function Popped(A: Automaton, c: Config): seq<Entry>
    requires A.WellFormed() && Ready(A, c)
  {
    if IsReduce(A.ActionFor(Top(c.stack).stateno, c.input[0].major)) && |c.stack| > 1
    then c.stack[1..|c.stack| - 1] else c.stack[1..]
  }

  lemma StepAgrees(A: Automaton, c: Config)
    requires A.WellFormed() && |c.stack| <= YYSTACKDEPTH
    ensures var u, b := Step(A, Unlimited, c), Step(A, Fixed, c);
            && |u.stack| <= |c.stack| + 1
            && (|u.stack| <= YYSTACKDEPTH ==> b == u)
            && (|u.stack| > YYSTACKDEPTH ==>
                  |c.stack| == YYSTACKDEPTH && Ready(A, c) && b == Overflow(c, Popped(A, c)))
  {
  }

  /** Step for step the same configuration, for as long as the unlimited parser fits in 100 entries. */
  lemma {:induction false} BoundedAgrees(A: Automaton, c: Config, n: nat)
    requires A.WellFormed() && forall k | 0 <= k <= n :: StaysWithin(A, c, k)
    ensures Run(A, Fixed, c, n) == Run(A, Unlimited, c, n)
  {
    hide Step;
    assert StaysWithin(A, c, n);
    if n == 0 {
    } else {
      assert StaysWithin(A, c, n - 1);
      BoundedAgrees(A, c, n - 1);
      StepAgrees(A, Run(A, Unlimited, c, n - 1));
    }
  }

  /**
   At the first push the array has no room for, by shift or by an empty rule, the bounded parser reports
   exactly one overflow, after destroying what it pops, and is back at its bottom entry in state 0.
   */
  lemma FirstOverflow(A: Automaton, G: Grammar, C: Cert, c: Config, n: nat)
    requires Certified(A, G, C) && StackInv(A, G, C, c.stack)
    requires (forall k | 0 <= k <= n :: StaysWithin(A, c, k)) && !StaysWithin(A, c, n + 1)
    ensures var u, b := Run(A, Unlimited, c, n), Run(A, Fixed, c, n + 1);
            && |u.stack| == YYSTACKDEPTH && Ready(A, u)
            && b == Config([BOTTOM], u.log + Destroys(Popped(A, u)) + [Overflowed], u.input[1..])
  {
    BoundedAgrees(A, c, n);
    assert StaysWithin(A, c, n);
    StackInvAlong(A, G, C, c, n);
    StepAgrees(A, Run(A, Unlimited, c, n));
  }

  lemma {:induction false} StackInvAlong(A: Automaton, G: Grammar, C: Cert, c: Config, n: nat)
    requires Certified(A, G, C) && StackInv(A, G, C, c.stack)
    ensures StackInv(A, G, C, Run(A, Unlimited, c, n).stack)
  {
    if n == 0 {
    } else {
      StackInvAlong(A, G, C, c, n - 1);
      StepKeepsStack(A, G, C, Unlimited, Run(A, Unlimited, c, n - 1));
    }
  }

  /**
   A plain LR parser. It has one ordinary state more per rule, entered by the shifts and gotos that
   complete the rule, and in which the only action, on any lookahead, is to reduce by that rule.
   */
  datatype Action = Shift(state: nat) | Reduce(rule: nat) | Error | Accept

  datatype LrEntry = LrEntry(state: nat, major: nat, minor: Tree)

  datatype LrConfig = LrConfig(stack: seq<LrEntry>, log: seq<Event>, input: seq<Token>)

  const LR_STATES: nat := YYNSTATE + YYNRULE

  /** The action tables entry a code of the compact tables stands for. */
  function Plain(act: nat): Action
  {
    if IsShift(act) then Shift(act)
    else if IsShiftReduce(act) then Shift(YYNSTATE + (act - YY_MIN_SHIFTREDUCE))
    else if IsReduce(act) then Reduce(act - YY_MIN_REDUCE)
    else if act == YY_ACCEPT_ACTION then Accept
    else Error
  }

  function LrAction(A: Automaton, s: nat, t: nat): Action
    requires A.WellFormed() && s < LR_STATES
  {
    if s < YYNSTATE then Plain(A.Lookup(s, t)) else Reduce(s - YYNSTATE)
  }

  /** None of the extra states has a goto. */
  function LrGoto(A: Automaton, s: nat, x: nat): Action
    requires A.WellFormed()
  {
    if s <= YY_REDUCE_COUNT && x in A.gotoRows[s] then Plain(A.gotoRows[s][x]) else Error
  }

  function LrMinors(es: seq<LrEntry>): (ts: seq<Tree>)
    ensures |ts| == |es|
  {
    seq(|es|, i requires 0 <= i < |es| => es[i].minor)
  }

  /** The textbook step; it is stuck on an empty stack or input, and when a reduction has no goto. */
  function LrStep(A: Automaton, c: LrConfig): LrConfig
    requires A.WellFormed()
  {
    if c.input == [] || c.stack == [] || c.stack[|c.stack| - 1].state >= LR_STATES then c else
    var tok := c.input[0];
    match LrAction(A, c.stack[|c.stack| - 1].state, tok.major)
    case Shift(s) =>
      LrConfig(c.stack + [LrEntry(s, tok.major, Leaf(tok, |c.log|))], c.log + [Shifted(tok)], c.input[1..])
    case Reduce(r) =>
      if r >= YYNRULE || |c.stack| <= A.nrhs[r] then c else
      var base := |c.stack| - A.nrhs[r];
      var args := LrMinors(c.stack[base..]);
      (match LrGoto(A, c.stack[base - 1].state, A.lhs[r])
       case Shift(s) =>
         LrConfig(c.stack[..base] + [LrEntry(s, A.lhs[r], Node(r, args, |c.log|))], c.log + [Reduced(r, args)], c.input)
       case Accept =>
         LrConfig(c.stack[..base], c.log + [Reduced(r, args), Accepted(Node(r, args, |c.log|))], c.input[1..])
       case _ => c)
    case Error =>
      c.(log := c.log + [SyntaxError(tok), Destroyed(tok.major, Leaf(tok, |c.log|))], input := c.input[1..])
    case Accept => c
  }

  function LrStart(input: seq<Token>): LrConfig
  {
    LrConfig([LrEntry(0, 0, Unset)], [], input)
  }

  function LrRun(A: Automaton, c: LrConfig, n: nat): LrConfig
    requires A.WellFormed()
  {
    if n == 0 then c else LrStep(A, LrRun(A, c, n - 1))
  }

  /** The plain state behind the code in a stack entry. */
  function StateOf(code: nat): nat
  {
    if IsReduce(code) then YYNSTATE + (code - YY_MIN_REDUCE) else code
  }

  function PlainEntry(e: Entry): LrEntry
  {
    LrEntry(StateOf(e.stateno), e.major, e.minor)
  }

  function PlainStack(es: seq<Entry>): (ps: seq<LrEntry>)
    ensures |ps| == |es|
  {
    seq(|es|, i requires 0 <= i < |es| => PlainEntry(es[i]))
  }

  function PlainConfig(c: Config): LrConfig
  {
    LrConfig(PlainStack(c.stack), c.log, c.input)
  }

  /** Storing the pending rule in the state field does exactly what entering that rule's own state would do. */
  lemma StepSimulates(A: Automaton, G: Grammar, C: Cert, c: Config)
    requires Certified(A, G, C) && Inv(A, G, C, c)
    ensures PlainConfig(Step(A, Unlimited, c)) == LrStep(A, PlainConfig(c))
  {
    if c.input != [] {
      AlwaysReady(A, G, C, c);
      assert A.WellFormed();
      hide Certified, Inv, ReduceReady, LrStep, PlainConfig, ShiftStep, ReduceStep, ErrorStep;
      var act := A.ActionFor(Top(c.stack).stateno, c.input[0].major);
      if act <= YY_MAX_SHIFTREDUCE {
        ShiftSimulates(A, c, act);
      } else if act <= YY_MAX_REDUCE {
        ReduceSimulates(A, c, act - YY_MIN_REDUCE);
      } else {
        ErrorSimulates(A, c);
      }
    }
  }

  lemma ShiftSimulates(A: Automaton, c: Config, act: nat)
    requires A.WellFormed() && c.stack != [] && c.input != [] && IsStateCode(Top(c.stack).stateno)
    requires act == A.ActionFor(Top(c.stack).stateno, c.input[0].major) && (IsShift(act) || IsShiftReduce(act))
    ensures PlainConfig(ShiftStep(Unlimited, c, act)) == LrStep(A, PlainConfig(c))
  {
    var tok := c.input[0];
    assert PlainStack(c.stack)[|c.stack| - 1] == PlainEntry(Top(c.stack));
    assert LrAction(A, StateOf(Top(c.stack).stateno), tok.major) == Plain(act);
    hide LrAction, PlainStack;
    PlainStackAppend(c.stack, Entry(Encode(act), tok.major, Leaf(tok, |c.log|)));
  }

  lemma ErrorSimulates(A: Automaton, c: Config)
    requires A.WellFormed() && c.stack != [] && c.input != [] && IsStateCode(Top(c.stack).stateno)
    requires A.ActionFor(Top(c.stack).stateno, c.input[0].major) == YY_ERROR_ACTION
    ensures PlainConfig(ErrorStep(c)) == LrStep(A, PlainConfig(c))
  {
    assert PlainStack(c.stack)[|c.stack| - 1] == PlainEntry(Top(c.stack));
    assert LrAction(A, StateOf(Top(c.stack).stateno), c.input[0].major) == Error;
    hide LrAction, PlainStack;
  }

  lemma PlainStackAppend(es: seq<Entry>, e: Entry)
    ensures PlainStack(es + [e]) == PlainStack(es) + [PlainEntry(e)]
  {
  }

  lemma ReduceSimulates(A: Automaton, c: Config, r: nat)
    requires A.WellFormed() && c.input != [] && r < YYNRULE && ReduceReady(A, c.stack, r)
    requires IsStateCode(Top(c.stack).stateno)
    requires A.ActionFor(Top(c.stack).stateno, c.input[0].major) == YY_MIN_REDUCE + r
    ensures PlainConfig(ReduceStep(A, Unlimited, c, r)) == LrStep(A, PlainConfig(c))
  {
    ReducesAlike(A, c, r);
    hide LrReduces, LrStep, PlainConfig;
    if GotoOf(A, c.stack, r) <= YY_MAX_SHIFTREDUCE {
      FoldSimulates(A, c, r);
    } else {
      AcceptSimulates(A, c, r);
    }
  }

  /** The plain machine is about to reduce by rule r, and its goto is the one of the encoded machine. */
  predicate LrReduces(A: Automaton, c: Config, r: nat)
    requires A.WellFormed() && c.input != [] && r < YYNRULE && ReduceReady(A, c.stack, r)
  {
    var base, ps := |c.stack| - A.nrhs[r], PlainStack(c.stack);
    && ps[|ps| - 1].state < LR_STATES
    && LrAction(A, ps[|ps| - 1].state, c.input[0].major) == Reduce(r)
    && LrGoto(A, ps[base - 1].state, A.lhs[r]) == Plain(GotoOf(A, c.stack, r))
    && LrMinors(ps[base..]) == Minors(c.stack[base..])
    && PlainStack(c.stack[..base]) == ps[..base]
  }

  lemma ReducesAlike(A: Automaton, c: Config, r: nat)
    requires A.WellFormed() && c.input != [] && r < YYNRULE && ReduceReady(A, c.stack, r)
    requires IsStateCode(Top(c.stack).stateno)
    requires A.ActionFor(Top(c.stack).stateno, c.input[0].major) == YY_MIN_REDUCE + r
    ensures LrReduces(A, c, r)
  {
    var base, ps := |c.stack| - A.nrhs[r], PlainStack(c.stack);
    assert LrAction(A, ps[|ps| - 1].state, c.input[0].major) == Reduce(r);
    assert LrGoto(A, ps[base - 1].state, A.lhs[r]) == Plain(GotoOf(A, c.stack, r));
    hide LrAction, LrGoto;
  }

  lemma FoldSimulates(A: Automaton, c: Config, r: nat)
    requires A.WellFormed() && c.input != [] && r < YYNRULE && ReduceReady(A, c.stack, r)
    requires LrReduces(A, c, r) && GotoOf(A, c.stack, r) <= YY_MAX_SHIFTREDUCE
    ensures PlainConfig(FoldStep(A, c, r)) == LrStep(A, PlainConfig(c))
  {
    assert IsShift(GotoOf(A, c.stack, r)) || IsShiftReduce(GotoOf(A, c.stack, r));
    hide LrAction, LrGoto, LrMinors, Minors, PlainStack, GotoOf;
    PlainStackAppend(c.stack[..|c.stack| - A.nrhs[r]], Folded(A, c.stack, r, |c.log|));
  }

  lemma AcceptSimulates(A: Automaton, c: Config, r: nat)
    requires A.WellFormed() && c.input != [] && r < YYNRULE && ReduceReady(A, c.stack, r)
    requires LrReduces(A, c, r) && GotoOf(A, c.stack, r) > YY_MAX_SHIFTREDUCE
    ensures PlainConfig(AcceptStep(A, c, r)) == LrStep(A, PlainConfig(c))
  {
    hide LrAction, LrGoto, LrMinors, Minors, PlainStack;
  }

  lemma ReachableSimulates(A: Automaton, G: Grammar, C: Cert, input: seq<Token>, n: nat)
    requires Certified(A, G, C) && Terminals(input)
    ensures var c := Run(A, Unlimited, Start(input), n);
            PlainConfig(Step(A, Unlimited, c)) == LrStep(A, PlainConfig(c))
  {
    StartInv(A, G, C, input);
    RunKeepsInv(A, G, C, Unlimited, Start(input), n);
    StepSimulates(A, G, C, Run(A, Unlimited, Start(input), n));
  }

  /** On every token sequence, the encoded parser and the plain LR parser go through the same configurations. */
  lemma {:induction false} RunSimulates(A: Automaton, G: Grammar, C: Cert, input: seq<Token>, n: nat)
    requires Certified(A, G, C) && Terminals(input)
    ensures PlainConfig(Run(A, Unlimited, Start(input), n)) == LrRun(A, LrStart(input), n)
  {
    if n == 0 {
      assert PlainStack([BOTTOM]) == [LrEntry(0, 0, Unset)];
    } else {
      RunSimulates(A, G, C, input, n - 1);
      ReachableSimulates(A, G, C, input, n - 1);
    }
  }

  /**
   The shipped parser, with its 100 entries, against the plain LR parser: the same configurations until the
   plain parser's stack outgrows the array, and then one overflow in place of that push.
   */
  lemma BoundedSimulates(A: Automaton, G: Grammar, C: Cert, input: seq<Token>, n: nat)
    requires Certified(A, G, C) && Terminals(input)
    requires forall k | 0 <= k <= n :: |LrRun(A, LrStart(input), k).stack| <= YYSTACKDEPTH
    ensures PlainConfig(Run(A, Fixed, Start(input), n)) == LrRun(A, LrStart(input), n)
    ensures var c, b := Run(A, Fixed, Start(input), n), Run(A, Fixed, Start(input), n + 1);
            |LrRun(A, LrStart(input), n + 1).stack| > YYSTACKDEPTH ==>
              && |c.stack| == YYSTACKDEPTH && Ready(A, c)
              && b == Config([BOTTOM], c.log + Destroys(Popped(A, c)) + [Overflowed], c.input[1..])
  {
    assert A.WellFormed();
    hide LrStep, Step, Certified;
    forall k | 0 <= k <= n ensures StaysWithin(A, Start(input), k) {
      RunSimulates(A, G, C, input, k);
      assert |LrRun(A, LrStart(input), k).stack| <= YYSTACKDEPTH;
    }
    RunSimulates(A, G, C, input, n);
    RunSimulates(A, G, C, input, n + 1);
    BoundedAgrees(A, Start(input), n);
    if |LrRun(A, LrStart(input), n + 1).stack| > YYSTACKDEPTH {
      StartInv(A, G, C, input);
      FirstOverflow(A, G, C, Start(input), n);
    }
  }
}
