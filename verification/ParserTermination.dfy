/**
 Every call of sqlite3Parser ends: reductions lose weight, and a stack of bounded depth has weight to lose only
 so long.
 */
module ParserTermination {
  import opened ParserCodes
  import opened ActionTables
  import opened PushDown
  import opened Certificate
  import opened Soundness
  import opened ParserRuns

  function WeightOf(C: Cert, x: nat): int
  {
    if x < |C.weight| then C.weight[x] else 0
  }

  function WeightSum(C: Cert, es: seq<Entry>): int
  {
    if es == [] then 0 else WeightSum(C, es[..|es| - 1]) + WeightOf(C, es[|es| - 1].major)
  }

  lemma Scale(m: int, x: int, y: int)
    requires m >= 0 && x <= y
    ensures m * x <= m * y
  {
  }

  lemma {:induction false} WeightSumConcat(C: Cert, a: seq<Entry>, b: seq<Entry>)
    ensures WeightSum(C, a + b) == WeightSum(C, a) + WeightSum(C, b)
    decreases |b|
  {
    if b == [] {
      assert a + b == a;
    } else {
      assert (a + b)[..|a + b| - 1] == a + b[..|b| - 1];
      WeightSumConcat(C, a, b[..|b| - 1]);
    }
  }

  lemma {:induction false} WeightSumBounds(A: Automaton, G: Grammar, C: Cert, es: seq<Entry>)
    requires IsGrammar(A, G) && Weighted(A, G, C)
    ensures -(C.M * |es|) <= WeightSum(C, es) <= C.M * |es|
  {
    if es == [] {
    } else {
      WeightSumBounds(A, G, C, es[..|es| - 1]);
      assert C.M * |es| == C.M * (|es| - 1) + C.M;
    }
  }

  /** Entries that match a right-hand side weigh at least as much as the rule asks for. */
  lemma {:induction false} MatchWeighs(A: Automaton, G: Grammar, C: Cert, es: seq<Entry>, r: nat, n: nat)
    requires IsGrammar(A, G) && Weighted(A, G, C) && r < YYNRULE && n <= |es| == A.nrhs[r]
    requires forall i | 0 <= i < |es| :: es[i].major < YYNOCODE && Stands(A, G, es[i].major, G.rhs[r][i])
    ensures WeightSum(C, es[..n]) >= Sum(C.least[r][..n])
  {
    assert |C.least[r]| == |es|;
    hide Weighted, IsGrammar, StandsBy;
    if n == 0 {
    } else {
      MatchWeighs(A, G, C, es, r, n - 1);
      assert es[..n][..n - 1] == es[..n - 1] && C.least[r][..n][..n - 1] == C.least[r][..n - 1];
      var ch :| StandsBy(A, G, ch, es[n - 1].major, G.rhs[r][n - 1]);
      StandsWeighs(A, G, C, ch, es[n - 1].major, r, n - 1);
    }
  }

  /** The weight above the bottom, shifted so that it cannot go below zero while the stack fits. */
  function Potential(C: Cert, stack: seq<Entry>): int
    requires stack != []
  {
    WeightSum(C, stack[1..]) + 99 * C.M
  }

  /** A configuration the shipped parser can be in, under weighted tables. */
  ghost predicate Fits(A: Automaton, G: Grammar, C: Cert, c: Config)
    requires IsGrammar(A, G)
  {
    && Certified(A, G, C) && Weighted(A, G, C) && Inv(A, G, C, c) && |c.stack| <= YYSTACKDEPTH
  }

  lemma MajorsAreSymbols(A: Automaton, G: Grammar, C: Cert, stack: seq<Entry>)
    requires Certified(A, G, C) && StackInv(A, G, C, stack)
    ensures forall i | 1 <= i < |stack| :: stack[i].major < YYNOCODE
  {
    forall i | 1 <= i < |stack| ensures stack[i].major < YYNOCODE {
      assert Linked(A, G, C, stack, i);
    }
  }

  lemma PotentialBounds(A: Automaton, G: Grammar, C: Cert, c: Config)
    requires IsGrammar(A, G) && Fits(A, G, C, c)
    ensures 0 <= Potential(C, c.stack) <= 198 * C.M
  {
    WeightSumBounds(A, G, C, c.stack[1..]);
    Scale(C.M, |c.stack[1..]|, 99);
  }

  lemma PushWeighs(C: Cert, stack: seq<Entry>, e: Entry)
    requires stack != []
    ensures Potential(C, stack + [e]) == Potential(C, stack) + WeightOf(C, e.major)
  {
    assert (stack + [e])[1..] == stack[1..] + [e];
    WeightSumConcat(C, stack[1..], [e]);
    assert WeightSum(C, [e]) == WeightSum(C, []) + WeightOf(C, e.major);
  }

  lemma TailWeighs(C: Cert, stack: seq<Entry>, base: nat)
    requires 1 <= base <= |stack|
    ensures Potential(C, stack) == Potential(C, stack[..base]) + WeightSum(C, stack[base..])
  {
    WeightSumConcat(C, stack[1..base], stack[base..]);
    hide WeightSum;
    assert stack[1..] == stack[1..base] + stack[base..] && stack[..base][1..] == stack[1..base];
  }

  /** Replacing a matched right-hand side by its left-hand side strictly loses weight. */
  lemma FoldLosesWeight(A: Automaton, G: Grammar, C: Cert, stack: seq<Entry>, r: nat, e: Entry)
    requires Certified(A, G, C) && Weighted(A, G, C) && StackInv(A, G, C, stack)
    requires r < YYNRULE && |stack| > A.nrhs[r] && e.major == A.lhs[r]
    requires forall j | 0 <= j < A.nrhs[r] :: Stands(A, G, stack[|stack| - A.nrhs[r] + j].major, G.rhs[r][j])
    ensures Potential(C, stack[..|stack| - A.nrhs[r]] + [e]) < Potential(C, stack)
  {
    MajorsAreSymbols(A, G, C, stack);
    var base := |stack| - A.nrhs[r];
    var tail := stack[base..];
    assert |C.least[r]| == A.nrhs[r] && C.weight[A.lhs[r]] < Sum(C.least[r]);
    assert tail[..|tail|] == tail && C.least[r][..|tail|] == C.least[r];
    assert IsGrammar(A, G);
    hide StackInv, Certified, Weighted, IsGrammar, WeightSum, Sum, Potential;
    MatchWeighs(A, G, C, tail, r, |tail|);
    TailWeighs(C, stack, base);
    PushWeighs(C, stack[..base], e);
  }

  /** What one iteration does to the potential: strictly down within a call, up by a bounded amount at its end. */
  predicate Pays(C: Cert, c: Config, c': Config)
    requires c.stack != [] && c'.stack != []
  {
    || (c'.input == c.input && Potential(C, c'.stack) < Potential(C, c.stack))
    || (c.input != [] && c'.input == c.input[1..]
        && Potential(C, c'.stack) <= Potential(C, c.stack) + 100 * C.M)
  }

  lemma BarePays(C: Cert, c: Config, c': Config)
    requires c.stack != [] && |c'.stack| == 1 && c.input != [] && c'.input == c.input[1..]
    requires C.M >= 0 && Potential(C, c.stack) >= 0
    ensures Pays(C, c, c')
  {
    assert c'.stack[1..] == [];
  }

  lemma ShiftPays(C: Cert, c: Config, act: nat)
    requires c.stack != [] && c.input != [] && C.M >= 0 && Potential(C, c.stack) >= 0
    requires WeightOf(C, c.input[0].major) <= C.M
    ensures ShiftStep(Fixed, c, act).stack != [] && Pays(C, c, ShiftStep(Fixed, c, act))
  {
    var c', tok := ShiftStep(Fixed, c, act), c.input[0];
    if Full(Fixed, c.stack) {
      BarePays(C, c, c');
    } else {
      PushWeighs(C, c.stack, Entry(Encode(act), tok.major, Leaf(tok, |c.log|)));
    }
  }

  lemma ReducePays(A: Automaton, G: Grammar, C: Cert, c: Config, r: nat)
    requires IsGrammar(A, G) && Fits(A, G, C, c) && c.input != [] && r < YYNRULE && ReduceReady(A, c.stack, r)
    requires Reducing(A, G, C, c.stack, r) && Potential(C, c.stack) >= 0
    ensures ReduceStep(A, Fixed, c, r).stack != [] && Pays(C, c, ReduceStep(A, Fixed, c, r))
  {
    ReduceIsReady(A, G, C, c.stack, r);
    assert A.WellFormed() && C.M >= 0 && Certified(A, G, C) && Weighted(A, G, C) && StackInv(A, G, C, c.stack);
    hide Fits, IsGrammar, Certified, Weighted, StackInv, Inv, Reducing, CertifiedGoto, Potential, WeightSum;
    if A.nrhs[r] == 0 && Full(Fixed, c.stack) {
      BarePays(C, c, ReduceStep(A, Fixed, c, r));
    } else if GotoOf(A, c.stack, r) <= YY_MAX_SHIFTREDUCE {
      FoldLosesWeight(A, G, C, c.stack, r, Folded(A, c.stack, r, |c.log|));
    } else {
      BarePays(C, c, AcceptStep(A, c, r));
    }
  }

  lemma StepPays(A: Automaton, G: Grammar, C: Cert, c: Config)
    requires IsGrammar(A, G) && Fits(A, G, C, c) && c.input != []
    ensures Fits(A, G, C, Step(A, Fixed, c)) && Pays(C, c, Step(A, Fixed, c))
  {
    AlwaysReady(A, G, C, c);
    StepKeepsInv(A, G, C, Fixed, c);
    StepKeepsDepth(A, c);
    PotentialBounds(A, G, C, c);
    assert A.WellFormed() && Terminals(c.input) && StackInv(A, G, C, c.stack);
    assert WeightOf(C, c.input[0].major) <= C.M && C.M >= 0;
    hide StackInv, Reducing, Inv, Weighted, Certified, IsGrammar, ShiftStep, ReduceStep, Potential, ReduceReady;
    var act := A.ActionFor(Top(c.stack).stateno, c.input[0].major);
    if act <= YY_MAX_SHIFTREDUCE {
      ShiftPays(C, c, act);
    } else if act <= YY_MAX_REDUCE {
      ReducePays(A, G, C, c, act - YY_MIN_REDUCE);
    }
  }

  lemma StepKeepsDepth(A: Automaton, c: Config)
    requires A.WellFormed() && |c.stack| <= YYSTACKDEPTH
    ensures |Step(A, Fixed, c).stack| <= YYSTACKDEPTH
  {
  }

  /** Each call ends, after fewer iterations than its stack has potential, hence at most 198 times M. */
  lemma {:induction false} CallTerminates(A: Automaton, G: Grammar, C: Cert, c: Config) returns (n: nat)
    requires IsGrammar(A, G) && Fits(A, G, C, c) && c.input != []
    ensures n <= Potential(C, c.stack) <= 198 * C.M
    ensures Run(A, Fixed, c, n).input == c.input && Run(A, Fixed, c, n + 1).input == c.input[1..]
    decreases Potential(C, c.stack)
  {
    hide Step;
    PotentialBounds(A, G, C, c);
    StepPays(A, G, C, c);
    var c' := Step(A, Fixed, c);
    assert Run(A, Fixed, c, 1) == Step(A, Fixed, Run(A, Fixed, c, 0)) == c';
    if c'.input == c.input {
      PotentialBounds(A, G, C, c');
      var m := CallTerminates(A, G, C, c');
      n := m + 1;
      RunAdds(A, Fixed, c, 1, m);
      RunAdds(A, Fixed, c, 1, m + 1);
    } else {
      n := 0;
    }
  }

  /** n iterations that left some input were paid for by the initial potential and the tokens consumed. */
  predicate PaidFor(C: Cert, c: Config, c': Config, n: nat)
    requires c.stack != [] && c'.stack != []
  {
    && |c'.input| <= |c.input|
    && (c'.input == [] ||
        n + Potential(C, c'.stack)
        <= Potential(C, c.stack) + (|c.input| - |c'.input|) * (100 * C.M + 1))
  }

  lemma PaysOnce(C: Cert, c: Config, b: Config, c': Config, n: nat)
    requires c.stack != [] && b.stack != [] && c'.stack != [] && C.M >= 0
    requires PaidFor(C, c, b, n) && b.input != [] && Pays(C, b, c')
    ensures PaidFor(C, c, c', n + 1)
  {
    var used, K := |c.input| - |b.input|, 100 * C.M + 1;
    assert (used + 1) * K == used * K + K;
  }

  /** Amortised over a whole run: all iterations are paid for. */
  lemma {:induction false} RunPaidFor(A: Automaton, G: Grammar, C: Cert, c: Config, n: nat)
    requires IsGrammar(A, G) && Fits(A, G, C, c)
    ensures Fits(A, G, C, Run(A, Fixed, c, n)) && PaidFor(C, c, Run(A, Fixed, c, n), n)
  {
    if n == 0 {
    } else {
      RunPaidFor(A, G, C, c, n - 1);
      var b := Run(A, Fixed, c, n - 1);
      if b.input != [] {
        StepPays(A, G, C, b);
        PaysOnce(C, c, b, Step(A, Fixed, b), n - 1);
      }
    }
  }

  lemma Overpaid(n: int, p: int, p0: int, used: int, total: int, K: int)
    requires p >= 0 && 0 <= used <= total && K >= 0 && n > p0 + total * K
    ensures n + p > p0 + used * K
  {
    Scale(K, used, total);
  }

  /** The whole input is consumed within a number of iterations linear in its length. */
  lemma RunConsumesInput(A: Automaton, G: Grammar, C: Cert, input: seq<Token>, n: nat)
    requires Certified(A, G, C) && Weighted(A, G, C) && Terminals(input)
    requires n > 99 * C.M + |input| * (100 * C.M + 1)
    ensures Run(A, Fixed, Start(input), n).input == []
  {
    assert IsGrammar(A, G);
    hide Step, Run, Certified, Weighted;
    StartInv(A, G, C, input);
    RunPaidFor(A, G, C, Start(input), n);
    var c' := Run(A, Fixed, Start(input), n);
    PotentialBounds(A, G, C, c');
    assert Start(input).stack[1..] == [];
    var p0, K := 99 * C.M, 100 * C.M + 1;
    assert Potential(C, Start(input).stack) == p0;
    Overpaid(n, Potential(C, c'.stack), p0, |input| - |c'.input|, |input|, K);
  }
}
