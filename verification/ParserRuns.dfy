/** Safety of whole runs: what the trees on the stack spell, what acceptance means, how each call ends. */
module ParserRuns {
  import opened ParserCodes
  import opened ActionTables
  import opened PushDown
  import opened Certificate
  import opened Soundness

  predicate Terminals(input: seq<Token>)
  {
    forall i | 0 <= i < |input| :: input[i].major < NTERMINAL
  }

  /** The tokens shifted since the stack was last emptied by an overflow or by acceptance. */
  function SinceReset(log: seq<Event>): seq<Token>
  {
    if log == [] then [] else
    match log[|log| - 1]
    case Shifted(tok) => SinceReset(log[..|log| - 1]) + [tok]
    case Overflowed => []
    case Accepted(_) => []
    case _ => SinceReset(log[..|log| - 1])
  }

  /** How calls end: each with exactly one of these events. */
  predicate IsVerdict(e: Event)
  {
    e.Shifted? || e.SyntaxError? || e.Overflowed? || e.Accepted?
  }

  function Verdicts(log: seq<Event>): seq<Event>
  {
    if log == [] then []
    else Verdicts(log[..|log| - 1]) + if IsVerdict(log[|log| - 1]) then [log[|log| - 1]] else []
  }

  /** What each logged event is worth: reductions match their rule, destructors get the right symbol. */
  ghost predicate EventOK(A: Automaton, G: Grammar, log: seq<Event>, i: int)
    requires IsGrammar(A, G) && 0 <= i < |log|
  {
    match log[i]
    case Reduced(r, args) => TreeOK(A, G, Node(r, args, i))
    case Destroyed(major, v) => TreeOK(A, G, v) && Root(A, v) == major
    case Accepted(v) => TreeOK(A, G, v) && Root(A, v) == INPUT && Yield(v) == SinceReset(log[..i])
    case _ => true
  }

  ghost predicate LogOK(A: Automaton, G: Grammar, log: seq<Event>)
    requires IsGrammar(A, G)
  {
    forall i | 0 <= i < |log| :: EventOK(A, G, log, i)
  }

  /** The invariant of every reachable configuration. */
  ghost predicate Inv(A: Automaton, G: Grammar, C: Cert, c: Config)
    requires Certified(A, G, C)
  {
    && StackInv(A, G, C, c.stack)
    && YieldAll(Minors(c.stack[1..])) == SinceReset(c.log)
    && LogOK(A, G, c.log)
    && Terminals(c.input)
  }

  lemma LogGrows(A: Automaton, G: Grammar, log: seq<Event>, e: Event)
    requires IsGrammar(A, G) && LogOK(A, G, log)
    requires EventOK(A, G, log + [e], |log|)
    ensures LogOK(A, G, log + [e])
  {
    forall i | 0 <= i < |log + [e]| ensures EventOK(A, G, log + [e], i) {
      if i < |log| {
        assert EventOK(A, G, log, i);
        assert (log + [e])[..i] == log[..i];
      }
    }
  }

  lemma SinceResetGrows(log: seq<Event>, e: Event)
    ensures e.Shifted? ==> SinceReset(log + [e]) == SinceReset(log) + [e.tok]
    ensures e.Overflowed? || e.Accepted? ==> SinceReset(log + [e]) == []
    ensures e.Reduced? || e.Destroyed? || e.SyntaxError? ==> SinceReset(log + [e]) == SinceReset(log)
  {
    assert (log + [e])[..|log|] == log;
  }

  /** Destroying a stretch of the stack, whoever asks for it, calls destructors on well-typed values only. */
  lemma {:induction false} DestroysOK(A: Automaton, G: Grammar, C: Cert, stack: seq<Entry>, hi: nat, log: seq<Event>)
    requires Certified(A, G, C) && StackInv(A, G, C, stack) && 1 <= hi <= |stack|
    requires LogOK(A, G, log)
    ensures LogOK(A, G, log + Destroys(stack[1..hi]))
    decreases hi
  {
    if hi == 1 {
      assert log + Destroys(stack[1..hi]) == log;
    } else {
      assert Linked(A, G, C, stack, hi - 1);
      var e := Destroyed(stack[hi - 1].major, stack[hi - 1].minor);
      LogGrows(A, G, log, e);
      assert stack[1..hi][..hi - 2] == stack[1..hi - 1];
      assert log + Destroys(stack[1..hi]) == log + [e] + Destroys(stack[1..hi - 1]);
      DestroysOK(A, G, C, stack, hi - 1, log + [e]);
    }
  }

  lemma OverflowKeepsInv(A: Automaton, G: Grammar, C: Cert, c: Config, hi: nat)
    requires Certified(A, G, C) && Inv(A, G, C, c) && c.input != [] && 1 <= hi <= |c.stack|
    ensures Inv(A, G, C, Overflow(c, c.stack[1..hi]))
  {
    PrefixKeeps(A, G, C, c.stack, 1);
    DestroysOK(A, G, C, c.stack, hi, c.log);
    var log := c.log + Destroys(c.stack[1..hi]);
    LogGrows(A, G, log, Overflowed);
    SinceResetGrows(log, Overflowed);
  }

  lemma ShiftKeepsInv(A: Automaton, G: Grammar, C: Cert, d: Depth, c: Config, act: nat)
    requires Certified(A, G, C) && Inv(A, G, C, c) && c.input != []
    requires StackInv(A, G, C, ShiftStep(d, c, act).stack)
    ensures Inv(A, G, C, ShiftStep(d, c, act))
  {
    if Full(d, c.stack) {
      hide Inv, Certified, Destroys, StackInv;
      assert c.stack[1..|c.stack|] == c.stack[1..];
      OverflowKeepsInv(A, G, C, c, |c.stack|);
    } else {
      PushKeepsInv(A, G, C, c, Encode(act));
    }
  }

  lemma PushKeepsInv(A: Automaton, G: Grammar, C: Cert, c: Config, code: nat)
    requires Certified(A, G, C) && IsGrammar(A, G) && Inv(A, G, C, c) && c.stack != [] && c.input != []
    requires StackInv(A, G, C, c.stack + [Entry(code, c.input[0].major, Leaf(c.input[0], |c.log|))])
    ensures var tok := c.input[0];
            var e := Entry(code, tok.major, Leaf(tok, |c.log|));
            Inv(A, G, C, Config(c.stack + [e], c.log + [Shifted(tok)], c.input[1..]))
  {
    hide StackInv, Certified, IsGrammar, LogOK, SinceReset, YieldAll, Minors;
    var tok := c.input[0];
    LogGrows(A, G, c.log, Shifted(tok));
    SinceResetGrows(c.log, Shifted(tok));
    PushYields(c.stack, Entry(code, tok.major, Leaf(tok, |c.log|)));
  }

  lemma PushYields(stack: seq<Entry>, e: Entry)
    requires stack != []
    ensures YieldAll(Minors((stack + [e])[1..])) == YieldAll(Minors(stack[1..])) + Yield(e.minor)
  {
    var below := Minors(stack[1..]);
    assert Minors((stack + [e])[1..]) == below + [e.minor];
    assert (below + [e.minor])[..|below|] == below;
  }

  /** Replacing the top entries by one whose tree has the same tokens does not change what the stack spells. */
  lemma FoldKeepsYield(stack: seq<Entry>, base: nat, e: Entry)
    requires 1 <= base <= |stack| && Yield(e.minor) == YieldAll(Minors(stack[base..]))
    ensures YieldAll(Minors((stack[..base] + [e])[1..])) == YieldAll(Minors(stack[1..]))
  {
    hide YieldAll;
    var below := Minors(stack[1..base]);
    assert Minors(stack[1..]) == below + Minors(stack[base..]) && stack[..base][1..] == stack[1..base];
    YieldAllConcat(below, Minors(stack[base..]));
    PushYields(stack[..base], e);
  }

  lemma FoldKeepsInv(A: Automaton, G: Grammar, C: Cert, c: Config, r: nat)
    requires Certified(A, G, C) && Inv(A, G, C, c)
    requires r < YYNRULE && ReduceReady(A, c.stack, r) && Reducing(A, G, C, c.stack, r)
    requires GotoOf(A, c.stack, r) <= YY_MAX_SHIFTREDUCE
    ensures Inv(A, G, C, FoldStep(A, c, r))
  {
    assert IsGrammar(A, G) && A.WellFormed();
    hide StackInv, Certified, TreeOK, Terminals, IsGrammar, Reducing, CertifiedGoto, LogOK, SinceReset;
    hide Yield, YieldAll, Minors, GotoOf, ReduceReady, Folded;
    ReduceIsReady(A, G, C, c.stack, r);
    ReducedTreeOK(A, G, C, c.stack, r, |c.log|);
    FoldKeepsStack(A, G, C, c, r);
    ReducedLogOK(A, G, c.log, r, Minors(c.stack[|c.stack| - A.nrhs[r]..]));
    FoldedYields(A, c.stack, r, |c.log|);
  }

  lemma FoldedYields(A: Automaton, stack: seq<Entry>, r: nat, born: nat)
    requires A.WellFormed() && r < YYNRULE && ReduceReady(A, stack, r)
    ensures YieldAll(Minors((stack[..|stack| - A.nrhs[r]] + [Folded(A, stack, r, born)])[1..]))
         == YieldAll(Minors(stack[1..]))
  {
    hide YieldAll, Minors;
    FoldKeepsYield(stack, |stack| - A.nrhs[r], Folded(A, stack, r, born));
  }

  lemma ReducedLogOK(A: Automaton, G: Grammar, log: seq<Event>, r: nat, args: seq<Tree>)
    requires IsGrammar(A, G) && LogOK(A, G, log) && TreeOK(A, G, Node(r, args, |log|))
    ensures LogOK(A, G, log + [Reduced(r, args)]) && SinceReset(log + [Reduced(r, args)]) == SinceReset(log)
  {
    hide IsGrammar, TreeOK, LogOK, SinceReset;
    LogGrows(A, G, log, Reduced(r, args));
    SinceResetGrows(log, Reduced(r, args));
  }

  lemma AcceptLogOK(A: Automaton, G: Grammar, log: seq<Event>, r: nat, args: seq<Tree>)
    requires IsGrammar(A, G) && LogOK(A, G, log) && TreeOK(A, G, Node(r, args, |log|))
    requires Root(A, Node(r, args, |log|)) == INPUT && YieldAll(args) == SinceReset(log)
    ensures var log' := log + [Reduced(r, args), Accepted(Node(r, args, |log|))];
            LogOK(A, G, log') && SinceReset(log') == []
  {
    hide IsGrammar, TreeOK, LogOK, SinceReset, YieldAll;
    var mid, e := log + [Reduced(r, args)], Accepted(Node(r, args, |log|));
    ReducedLogOK(A, G, log, r, args);
    assert (mid + [e])[..|mid|] == mid;
    LogGrows(A, G, mid, e);
    SinceResetGrows(mid, e);
    assert log + [Reduced(r, args), e] == mid + [e];
  }

  lemma AcceptKeepsInv(A: Automaton, G: Grammar, C: Cert, c: Config, r: nat)
    requires Certified(A, G, C) && Inv(A, G, C, c) && c.input != []
    requires r < YYNRULE && ReduceReady(A, c.stack, r) && Reducing(A, G, C, c.stack, r)
    requires GotoOf(A, c.stack, r) > YY_MAX_SHIFTREDUCE
    ensures Inv(A, G, C, AcceptStep(A, c, r))
  {
    ReduceIsReady(A, G, C, c.stack, r);
    ReducedTreeOK(A, G, C, c.stack, r, |c.log|);
    PrefixKeeps(A, G, C, c.stack, 1);
    assert IsGrammar(A, G) && A.lhs[r] == INPUT && |c.stack| == A.nrhs[r] + 1;
    hide StackInv, Certified, TreeOK, IsGrammar, Reducing, CertifiedGoto, LogOK, SinceReset;
    AcceptLogOK(A, G, c.log, r, Minors(c.stack[1..]));
    assert AcceptStep(A, c, r).stack[1..] == [];
  }

  lemma ReduceKeepsInv(A: Automaton, G: Grammar, C: Cert, d: Depth, c: Config, r: nat)
    requires Certified(A, G, C) && Inv(A, G, C, c) && c.input != []
    requires r < YYNRULE && ReduceReady(A, c.stack, r) && Reducing(A, G, C, c.stack, r)
    ensures Inv(A, G, C, ReduceStep(A, d, c, r))
  {
    assert A.WellFormed() && StackInv(A, G, C, c.stack);
    hide Inv, StackInv, Reducing, Certified, FoldStep, AcceptStep, Overflow, GotoOf;
    if A.nrhs[r] == 0 && Full(d, c.stack) {
      OverflowKeepsInv(A, G, C, c, |c.stack| - 1);
    } else if GotoOf(A, c.stack, r) <= YY_MAX_SHIFTREDUCE {
      FoldKeepsInv(A, G, C, c, r);
    } else {
      AcceptKeepsInv(A, G, C, c, r);
    }
  }

  lemma ErrorKeepsInv(A: Automaton, G: Grammar, C: Cert, c: Config)
    requires Certified(A, G, C) && Inv(A, G, C, c) && c.input != []
    ensures Inv(A, G, C, ErrorStep(c))
  {
    var tok := c.input[0];
    var e, e' := SyntaxError(tok), Destroyed(tok.major, Leaf(tok, |c.log|));
    LogGrows(A, G, c.log, e);
    LogGrows(A, G, c.log + [e], e');
    SinceResetGrows(c.log, e);
    SinceResetGrows(c.log + [e], e');
    assert c.log + [e, e'] == c.log + [e] + [e'];
  }

  lemma StepKeepsInv(A: Automaton, G: Grammar, C: Cert, d: Depth, c: Config)
    requires Certified(A, G, C) && Inv(A, G, C, c)
    ensures Inv(A, G, C, Step(A, d, c))
  {
    hide LogOK, StackInv, Reducing;
    if Ready(A, c) {
      AlwaysReady(A, G, C, c);
      StepKeepsStack(A, G, C, d, c);
      var act := A.ActionFor(Top(c.stack).stateno, c.input[0].major);
      if act <= YY_MAX_SHIFTREDUCE {
        ShiftKeepsInv(A, G, C, d, c, act);
      } else if act <= YY_MAX_REDUCE {
        ReduceKeepsInv(A, G, C, d, c, act - YY_MIN_REDUCE);
      } else {
        ErrorKeepsInv(A, G, C, c);
      }
    }
  }

  lemma {:induction false} RunKeepsInv(A: Automaton, G: Grammar, C: Cert, d: Depth, c: Config, n: nat)
    requires Certified(A, G, C) && Inv(A, G, C, c)
    ensures Inv(A, G, C, Run(A, d, c, n))
  {
    if n == 0 {
    } else {
      RunKeepsInv(A, G, C, d, c, n - 1);
      StepKeepsInv(A, G, C, d, Run(A, d, c, n - 1));
    }
  }

  lemma StartInv(A: Automaton, G: Grammar, C: Cert, input: seq<Token>)
    requires Certified(A, G, C) && Terminals(input)
    ensures Inv(A, G, C, Start(input))
  {
  }

  /** No run gets stuck: until the input is used up, every assert of the engine holds. */
  lemma RunNeverStuck(A: Automaton, G: Grammar, C: Cert, d: Depth, input: seq<Token>, n: nat)
    requires Certified(A, G, C) && Terminals(input)
    ensures var c := Run(A, d, Start(input), n); c.input == [] || Ready(A, c)
  {
    StartInv(A, G, C, input);
    RunKeepsInv(A, G, C, d, Start(input), n);
    var c := Run(A, d, Start(input), n);
    if c.input != [] { AlwaysReady(A, G, C, c); }
  }

  /** LR soundness: when a run accepts, the tokens shifted since the last reset derive from the start symbol. */
  lemma AcceptanceIsDerivation(A: Automaton, G: Grammar, C: Cert, d: Depth, input: seq<Token>, n: nat, i: nat)
    requires Certified(A, G, C) && Terminals(input)
    requires var log := Run(A, d, Start(input), n).log; i < |log| && log[i].Accepted?
    ensures exists deriv :: DerivOK(A, G, deriv) && DerivRoot(A, deriv) == INPUT
                         && Frontier(deriv) == SinceReset(Run(A, d, Start(input), n).log[..i])
  {
    StartInv(A, G, C, input);
    RunKeepsInv(A, G, C, d, Start(input), n);
    var log := Run(A, d, Start(input), n).log;
    assert EventOK(A, G, log, i);
    var v := log[i].value;
    assert ReadAs(A, Root(A, v), INPUT);
    var deriv := Elaborate(A, G, v, Direct, {INPUT});
  }

  /**
   At any moment the stack spells the tokens shifted since the last reset, and each of its entries
   derives from its own symbol: for entry k there is a derivation of exactly the tokens of its tree.
   */
  lemma StackSpellsInput(A: Automaton, G: Grammar, C: Cert, d: Depth, input: seq<Token>, n: nat, k: nat)
    requires Certified(A, G, C) && Terminals(input)
    requires 1 <= k < |Run(A, d, Start(input), n).stack|
    ensures var c := Run(A, d, Start(input), n);
            && YieldAll(Minors(c.stack[1..])) == SinceReset(c.log)
            && exists deriv :: DerivOK(A, G, deriv) && DerivRoot(A, deriv) == c.stack[k].major
                            && Frontier(deriv) == Yield(c.stack[k].minor)
  {
    StartInv(A, G, C, input);
    RunKeepsInv(A, G, C, d, Start(input), n);
    var c := Run(A, d, Start(input), n);
    assert Linked(A, G, C, c.stack, k);
    var e := c.stack[k];
    assert ReadAs(A, Root(A, e.minor), e.major);
    var deriv := Elaborate(A, G, e.minor, Direct, {e.major});
  }

  /** The loop of sqlite3Parser leaves a bare stack only on acceptance, overflow, or an error on a bare stack. */
  lemma LoopExit(A: Automaton, d: Depth, c: Config)
    requires A.WellFormed() && Ready(A, c)
    ensures var c' := Step(A, d, c);
            && (c'.input == c.input ==> |c'.stack| > 1)
            && (|c'.stack| == 1 ==>
                  || c'.log[|c'.log| - 1].Accepted?
                  || c'.log[|c'.log| - 1].Overflowed?
                  || (c.stack == c'.stack && c' == ErrorStep(c)))
  {
  }

  lemma VerdictsGrow(log: seq<Event>, e: Event)
    ensures Verdicts(log + [e]) == Verdicts(log) + if IsVerdict(e) then [e] else []
  {
    assert (log + [e])[..|log|] == log;
  }

  lemma {:induction false} VerdictsConcat(a: seq<Event>, b: seq<Event>)
    ensures Verdicts(a + b) == Verdicts(a) + Verdicts(b)
    decreases |b|
  {
    if b == [] {
      assert a + b == a;
    } else {
      assert (a + b)[..|a + b| - 1] == a + b[..|b| - 1];
      VerdictsConcat(a, b[..|b| - 1]);
    }
  }

  lemma {:induction false} DestroysNoVerdict(es: seq<Entry>)
    ensures Verdicts(Destroys(es)) == []
  {
    if es == [] {
    } else {
      var e := Destroyed(Top(es).major, Top(es).minor);
      DestroysNoVerdict(es[..|es| - 1]);
      VerdictsConcat([e], Destroys(es[..|es| - 1]));
      assert Verdicts([e]) == Verdicts([]) + [];
    }
  }

  /** The step ends its call with the one verdict e, and e is about the token of that call. */
  predicate Ends(c: Config, c': Config, e: Event)
    requires c.input != []
  {
    && c'.input == c.input[1..]
    && IsVerdict(e) && Verdicts(c'.log) == Verdicts(c.log) + [e]
    && (e.Shifted? || e.SyntaxError? ==> e.tok == c.input[0])
  }

  lemma OverflowEnds(c: Config, popped: seq<Entry>)
    requires c.stack != [] && c.input != []
    ensures Ends(c, Overflow(c, popped), Overflowed)
  {
    DestroysNoVerdict(popped);
    VerdictsConcat(c.log, Destroys(popped));
    VerdictsGrow(c.log + Destroys(popped), Overflowed);
  }

  lemma ReduceVerdict(A: Automaton, d: Depth, c: Config, r: nat)
    requires A.WellFormed() && c.input != [] && r < YYNRULE && ReduceReady(A, c.stack, r)
    ensures var c' := ReduceStep(A, d, c, r);
            || (c'.input == c.input && Verdicts(c'.log) == Verdicts(c.log))
            || exists e :: Ends(c, c', e)
  {
    var args := Minors(c.stack[|c.stack| - A.nrhs[r]..]);
    var e, e', c' := Reduced(r, args), Accepted(Node(r, args, |c.log|)), ReduceStep(A, d, c, r);
    if A.nrhs[r] == 0 && Full(d, c.stack) {
      OverflowEnds(c, c.stack[1..|c.stack| - 1]);
    } else {
      VerdictsGrow(c.log, e);
      VerdictsGrow(c.log + [e], e');
      hide Verdicts;
      assert c.log + [e, e'] == c.log + [e] + [e'];
      if c'.log != c.log + [e] { assert Ends(c, c', e'); }
    }
  }

  /** A step either leaves its call open without a verdict, or ends it with exactly one. */
  lemma StepVerdict(A: Automaton, d: Depth, c: Config)
    requires A.WellFormed() && Ready(A, c)
    ensures var c' := Step(A, d, c);
            || (c'.input == c.input && Verdicts(c'.log) == Verdicts(c.log))
            || exists e :: Ends(c, c', e)
  {
    hide Verdicts;
    var act, c', tok := A.ActionFor(Top(c.stack).stateno, c.input[0].major), Step(A, d, c), c.input[0];
    if act <= YY_MAX_SHIFTREDUCE {
      if Full(d, c.stack) {
        OverflowEnds(c, c.stack[1..]);
      } else {
        VerdictsGrow(c.log, Shifted(tok));
        assert Ends(c, c', Shifted(tok));
      }
    } else if act <= YY_MAX_REDUCE {
      ReduceVerdict(A, d, c, act - YY_MIN_REDUCE);
    } else {
      var e, e' := SyntaxError(tok), Destroyed(tok.major, Leaf(tok, |c.log|));
      VerdictsGrow(c.log, e);
      VerdictsGrow(c.log + [e], e');
      assert c.log + [e, e'] == c.log + [e] + [e'];
      assert Ends(c, c', e);
    }
  }

  predicate VerdictsMatch(input: seq<Token>, c: Config)
  {
    var vs := Verdicts(c.log);
    && |vs| <= |input| && c.input == input[|vs|..]
    && forall k | 0 <= k < |vs| :: vs[k].Shifted? || vs[k].SyntaxError? ==> vs[k].tok == input[k]
  }

  lemma EndsMatch(input: seq<Token>, c: Config, c': Config, e: Event)
    requires VerdictsMatch(input, c) && c.input != [] && Ends(c, c', e)
    ensures VerdictsMatch(input, c')
  {
    hide Verdicts;
  }

  lemma StepMatches(A: Automaton, d: Depth, input: seq<Token>, c: Config)
    requires A.WellFormed() && VerdictsMatch(input, c)
    ensures VerdictsMatch(input, Step(A, d, c))
  {
    var c' := Step(A, d, c);
    if Ready(A, c) {
      StepVerdict(A, d, c);
      hide Step, Verdicts;
      if e :| Ends(c, c', e) { EndsMatch(input, c, c', e); }
    }
  }

  /** Verdict k is about token k, and the tokens without one are those still to come. */
  lemma {:induction false} RunVerdicts(A: Automaton, d: Depth, input: seq<Token>, n: nat)
    requires A.WellFormed()
    ensures VerdictsMatch(input, Run(A, d, Start(input), n))
  {
    hide Step;
    if n == 0 {
    } else {
      RunVerdicts(A, d, input, n - 1);
      StepMatches(A, d, input, Run(A, d, Start(input), n - 1));
    }
  }
}
