/** What the trees on the stack mean, and the invariant of every reachable configuration. */
module Soundness {
  import opened ParserCodes
  import opened ActionTables
  import opened PushDown
  import opened Certificate

  function Root(A: Automaton, t: Tree): nat
  {
    match t
    case Unset => 0
    case Leaf(tok, _) => tok.major
    case Node(r, _, _) => if r < |A.lhs| then A.lhs[r] else 0
  }

  /** The tokens under a tree, left to right. */
  function Yield(t: Tree): seq<Token>
    decreases t
  {
    match t
    case Unset => []
    case Leaf(tok, _) => [tok]
    case Node(_, kids, _) => YieldAll(kids)
  }

  function YieldAll(ts: seq<Tree>): seq<Token>
    decreases ts
  {
    if ts == [] then [] else YieldAll(ts[..|ts| - 1]) + Yield(ts[|ts| - 1])
  }

  lemma {:induction false} YieldAllConcat(a: seq<Tree>, b: seq<Tree>)
    ensures YieldAll(a + b) == YieldAll(a) + YieldAll(b)
    decreases |b|
  {
    if b == [] {
      assert a + b == a;
    } else {
      assert (a + b)[..|a + b| - 1] == a + b[..|b| - 1];
      YieldAllConcat(a, b[..|b| - 1]);
    }
  }

  /** Every node has the shape of its rule, modulo what the automaton glosses over. */
  ghost predicate TreeOK(A: Automaton, G: Grammar, t: Tree)
    requires IsGrammar(A, G)
  {
    match t
    case Unset => false
    case Leaf(tok, _) => tok.major < NTERMINAL
    case Node(r, kids, _) =>
      && r < YYNRULE && |kids| == A.nrhs[r]
      && forall k | 0 <= k < |kids| :: TreeOK(A, G, kids[k]) && Stands(A, G, Root(A, kids[k]), G.rhs[r][k])
  }

  /** A derivation in the grammar proper: no rule is skipped, and every terminal says what it was read as. */
  datatype Deriv = Term(tok: Token, sym: nat) | Apply(rule: nat, kids: seq<Deriv>)

  function DerivRoot(A: Automaton, d: Deriv): nat
  {
    match d
    case Term(_, sym) => sym
    case Apply(r, _) => if r < |A.lhs| then A.lhs[r] else 0
  }

  ghost predicate DerivOK(A: Automaton, G: Grammar, d: Deriv)
    requires IsGrammar(A, G)
  {
    match d
    case Term(tok, sym) => tok.major < NTERMINAL && ReadAs(A, tok.major, sym)
    case Apply(r, kids) =>
      && r < YYNRULE && |kids| == |G.rhs[r]|
      && forall k | 0 <= k < |kids| :: DerivOK(A, G, kids[k]) && DerivRoot(A, kids[k]) in G.rhs[r][k]
  }

  function Frontier(d: Deriv): seq<Token>
    decreases d
  {
    match d
    case Term(tok, _) => [tok]
    case Apply(_, kids) => FrontierAll(kids)
  }

  function FrontierAll(ds: seq<Deriv>): seq<Token>
    decreases ds
  {
    if ds == [] then [] else FrontierAll(ds[..|ds| - 1]) + Frontier(ds[|ds| - 1])
  }

  /** A tree the parser built becomes a derivation of the same tokens once the skipped unit rules are put back. */
  lemma {:induction false} Elaborate(A: Automaton, G: Grammar, t: Tree, ch: Chain, want: set<nat>) returns (d: Deriv)
    requires IsGrammar(A, G) && TreeOK(A, G, t) && StandsBy(A, G, ch, Root(A, t), want)
    ensures DerivOK(A, G, d) && DerivRoot(A, d) in want && Frontier(d) == Yield(t)
    decreases t, ch
  {
    match ch
    case Via(q, rest) =>
      var below := Elaborate(A, G, t, rest, G.rhs[q][0]);
      d := Apply(q, [below]);
      assert FrontierAll([below]) == FrontierAll([]) + Frontier(below);
    case Direct =>
      var sym :| sym in want && ReadAs(A, Root(A, t), sym);
      match t {
        case Leaf(tok, _) => d := Term(tok, sym);
        case Node(r, kids, _) =>
          var ds := ElaborateAll(A, G, r, kids, |kids|);
          assert kids[..|kids|] == kids;
          d := Apply(r, ds);
      }
  }

  lemma {:induction false} ElaborateAll(A: Automaton, G: Grammar, r: nat, kids: seq<Tree>,
      n: nat) returns (ds: seq<Deriv>)
    requires IsGrammar(A, G) && r < YYNRULE && n <= |kids| == A.nrhs[r]
    requires forall k | 0 <= k < |kids| :: TreeOK(A, G, kids[k]) && Stands(A, G, Root(A, kids[k]), G.rhs[r][k])
    ensures |ds| == n && FrontierAll(ds) == YieldAll(kids[..n])
    ensures forall k | 0 <= k < n :: DerivOK(A, G, ds[k]) && DerivRoot(A, ds[k]) in G.rhs[r][k]
    decreases kids, n
  {
    if n == 0 {
      ds := [];
    } else {
      var front := ElaborateAll(A, G, r, kids, n - 1);
      assert Stands(A, G, Root(A, kids[n - 1]), G.rhs[r][n - 1]);
      var ch :| StandsBy(A, G, ch, Root(A, kids[n - 1]), G.rhs[r][n - 1]);
      var last := Elaborate(A, G, kids[n - 1], ch, G.rhs[r][n - 1]);
      ds := front + [last];
      assert ds[..n - 1] == front && kids[..n][..n - 1] == kids[..n - 1];
    }
  }

  /** Entry k may sit directly on top of the entry below it, and its value is a tree for its symbol. */
  ghost predicate Linked(A: Automaton, G: Grammar, C: Cert, stack: seq<Entry>, k: int)
    requires Certified(A, G, C) && 1 <= k < |stack|
  {
    && Transition(A, G, C, stack[k - 1].stateno, stack[k].major, stack[k].stateno)
    && TreeOK(A, G, stack[k].minor) && Root(A, stack[k].minor) == stack[k].major
  }

  /** The bottom entry is always state 0 with symbol 0; only the top entry can hold a pending reduction. */
  ghost predicate StackInv(A: Automaton, G: Grammar, C: Cert, stack: seq<Entry>)
    requires Certified(A, G, C)
  {
    && stack != [] && stack[0] == BOTTOM
    && forall k | 1 <= k < |stack| :: Linked(A, G, C, stack, k)
  }

  /** An item with its dot after d symbols: the top d entries match the rule, and its start lies below them. */
  lemma {:induction false} PopMatches(A: Automaton, G: Grammar, C: Cert, stack: seq<Entry>, k: nat, r: nat, d: nat)
    requires Certified(A, G, C) && StackInv(A, G, C, stack) && k < |stack|
    requires Item(r, d) in ItemsAt(A, C, stack[k].stateno) && r < YYNRULE && d <= A.nrhs[r]
    ensures d <= k && Item(r, 0) in ItemsAt(A, C, stack[k - d].stateno)
    ensures forall j | 0 <= j < d :: Stands(A, G, stack[k - d + 1 + j].major, G.rhs[r][j])
  {
    hide TreeOK, StandsBy, CertifiedShift, CertifiedGoto;
    if d == 0 {
    } else {
      assert k > 0;
      assert Linked(A, G, C, stack, k);
      hide Certified, StackInv;
      assert Backs(A, G, C, stack[k - 1].stateno, stack[k].major, Item(r, d));
      PopMatches(A, G, C, stack, k - 1, r, d - 1);
    }
  }

  lemma PrefixKeeps(A: Automaton, G: Grammar, C: Cert, stack: seq<Entry>, base: nat)
    requires Certified(A, G, C) && StackInv(A, G, C, stack) && 1 <= base <= |stack|
    ensures StackInv(A, G, C, stack[..base])
  {
    forall k | 1 <= k < base ensures Linked(A, G, C, stack[..base], k) {
      assert Linked(A, G, C, stack, k);
    }
  }

  lemma PushKeeps(A: Automaton, G: Grammar, C: Cert, stack: seq<Entry>, e: Entry)
    requires Certified(A, G, C) && StackInv(A, G, C, stack)
    requires Transition(A, G, C, Top(stack).stateno, e.major, e.stateno)
    requires TreeOK(A, G, e.minor) && Root(A, e.minor) == e.major
    ensures StackInv(A, G, C, stack + [e])
  {
    forall k | 1 <= k < |stack + [e]| ensures Linked(A, G, C, stack + [e], k) {
      if k < |stack| { assert Linked(A, G, C, stack, k); }
    }
  }

  /** The code on top is a state or a pending reduction of a non-empty rule; everything below is a state. */
  lemma CodesOf(A: Automaton, G: Grammar, C: Cert, stack: seq<Entry>, k: nat)
    requires Certified(A, G, C) && StackInv(A, G, C, stack) && k < |stack|
    ensures IsStateCode(stack[k].stateno)
    ensures k < |stack| - 1 ==> IsShift(stack[k].stateno)
    ensures IsReduce(stack[k].stateno) ==> A.nrhs[stack[k].stateno - YY_MIN_REDUCE] > 0
    ensures stack[k].stateno == 0 <==> k == 0
  {
    if k > 0 { assert Linked(A, G, C, stack, k); }
    if k < |stack| - 1 { assert Linked(A, G, C, stack, k + 1); }
  }

  /** The tables call for a reduction by r on this stack. */
  ghost predicate Reducing(A: Automaton, G: Grammar, C: Cert, stack: seq<Entry>, r: nat)
    requires Certified(A, G, C) && StackInv(A, G, C, stack)
  {
    && r < YYNRULE && Item(r, A.nrhs[r]) in ItemsAt(A, C, Top(stack).stateno)
    && (IsReduce(Top(stack).stateno) ==> A.nrhs[r] > 0)
  }

  /** A reduction the tables call for finds its right-hand side, its goto entry and, on acceptance, a bare stack. */
  lemma ReduceIsReady(A: Automaton, G: Grammar, C: Cert, stack: seq<Entry>, r: nat)
    requires Certified(A, G, C) && StackInv(A, G, C, stack) && Reducing(A, G, C, stack, r)
    ensures r < YYNRULE && ReduceReady(A, stack, r)
    ensures CertifiedGoto(A, G, C, stack[|stack| - 1 - A.nrhs[r]].stateno, r)
    ensures forall j | 0 <= j < A.nrhs[r] :: Stands(A, G, stack[|stack| - A.nrhs[r] + j].major, G.rhs[r][j])
  {
    hide StandsBy, TreeOK, CertifiedShift, Transition;
    PopMatches(A, G, C, stack, |stack| - 1, r, A.nrhs[r]);
    var b := |stack| - 1 - A.nrhs[r];
    CodesOf(A, G, C, stack, b);
    assert CertifiedGoto(A, G, C, stack[b].stateno, r);
  }

  /** Every assert of the C engine holds in the next iteration. */
  lemma AlwaysReady(A: Automaton, G: Grammar, C: Cert, c: Config)
    requires Certified(A, G, C) && StackInv(A, G, C, c.stack)
    requires c.input != [] && c.input[0].major < NTERMINAL
    ensures Ready(A, c)
    ensures var act := A.ActionFor(Top(c.stack).stateno, c.input[0].major);
            IsReduce(act) ==> Reducing(A, G, C, c.stack, act - YY_MIN_REDUCE)
  {
    var code, t := Top(c.stack).stateno, c.input[0].major;
    CodesOf(A, G, C, c.stack, |c.stack| - 1);
    var act := A.ActionFor(code, t);
    if IsShift(code) { assert CertifiedShift(A, G, C, code, t); }
    if IsReduce(act) { ReduceIsReady(A, G, C, c.stack, act - YY_MIN_REDUCE); }
  }

  /** Whatever the step, shift, reduction, overflow, acceptance or error, the stack stays well linked. */
  lemma StepKeepsStack(A: Automaton, G: Grammar, C: Cert, d: Depth, c: Config)
    requires Certified(A, G, C) && StackInv(A, G, C, c.stack)
    ensures StackInv(A, G, C, Step(A, d, c).stack)
  {
    if Ready(A, c) {
      AlwaysReady(A, G, C, c);
      PrefixKeeps(A, G, C, c.stack, 1);
      var code, tok := Top(c.stack).stateno, c.input[0];
      var act := A.ActionFor(code, tok.major);
      if act <= YY_MAX_SHIFTREDUCE {
        assert CertifiedShift(A, G, C, code, tok.major);
        PushKeeps(A, G, C, c.stack, Entry(Encode(act), tok.major, Leaf(tok, |c.log|)));
      } else if act <= YY_MAX_REDUCE {
        ReduceKeepsStack(A, G, C, d, c, act - YY_MIN_REDUCE);
      }
    }
  }

  lemma ReduceKeepsStack(A: Automaton, G: Grammar, C: Cert, d: Depth, c: Config, r: nat)
    requires Certified(A, G, C) && StackInv(A, G, C, c.stack) && c.input != []
    requires r < YYNRULE && ReduceReady(A, c.stack, r) && Reducing(A, G, C, c.stack, r)
    ensures StackInv(A, G, C, ReduceStep(A, d, c, r).stack)
  {
    PrefixKeeps(A, G, C, c.stack, 1);
    PrefixKeeps(A, G, C, c.stack, |c.stack| - A.nrhs[r]);
    if GotoOf(A, c.stack, r) <= YY_MAX_SHIFTREDUCE {
      FoldKeepsStack(A, G, C, c, r);
    }
  }

  lemma FoldKeepsStack(A: Automaton, G: Grammar, C: Cert, c: Config, r: nat)
    requires Certified(A, G, C) && StackInv(A, G, C, c.stack)
    requires r < YYNRULE && ReduceReady(A, c.stack, r) && Reducing(A, G, C, c.stack, r)
    requires GotoOf(A, c.stack, r) <= YY_MAX_SHIFTREDUCE
    ensures StackInv(A, G, C, FoldStep(A, c, r).stack)
  {
    ReduceIsReady(A, G, C, c.stack, r);
    ReducedTreeOK(A, G, C, c.stack, r, |c.log|);
    PrefixKeeps(A, G, C, c.stack, |c.stack| - A.nrhs[r]);
    PushKeeps(A, G, C, c.stack[..|c.stack| - A.nrhs[r]], Folded(A, c.stack, r, |c.log|));
  }

  lemma ReducedTreeOK(A: Automaton, G: Grammar, C: Cert, stack: seq<Entry>, r: nat, born: nat)
    requires Certified(A, G, C) && StackInv(A, G, C, stack) && r < YYNRULE && |stack| > A.nrhs[r]
    requires forall j | 0 <= j < A.nrhs[r] :: Stands(A, G, stack[|stack| - A.nrhs[r] + j].major, G.rhs[r][j])
    ensures TreeOK(A, G, Node(r, Minors(stack[|stack| - A.nrhs[r]..]), born))
  {
    var base := |stack| - A.nrhs[r];
    forall k | 0 <= k < A.nrhs[r]
      ensures var kid := Minors(stack[base..])[k]; TreeOK(A, G, kid) && Stands(A, G, Root(A, kid), G.rhs[r][k])
    {
      assert Linked(A, G, C, stack, base + k);
    }
  }
}
