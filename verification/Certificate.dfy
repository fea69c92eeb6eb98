/**
 The grammar behind the tables, and what it takes for the tables to be an LR automaton of that grammar.

 yyRuleInfo keeps only the left-hand side and the length of a rule; the right-hand sides are those of
 yyRuleName. A position of a right-hand side is a set of symbols, as in "nm ::= ID|INDEXED".
 */
module Certificate {
  import opened ParserCodes
  import opened ActionTables

  /** unit: the rules marked OPTIMIZED OUT, which the automaton skips. */
  datatype Grammar = Grammar(rhs: seq<seq<set<nat>>>, unit: set<nat>)

  /** Rule `rule` with the first `dot` symbols of its right-hand side already on the stack. */
  datatype Item = Item(rule: nat, dot: nat)

  /** items: for each state, what is known to be on top of the stack; weight and least: see Weighted. */
  datatype Cert = Cert(items: seq<set<Item>>, weight: seq<int>, least: seq<seq<int>>, M: int)

  ghost predicate IsGrammar(A: Automaton, G: Grammar)
  {
    && A.WellFormed()
    && |G.rhs| == YYNRULE
    && (forall r | 0 <= r < YYNRULE :: |G.rhs[r]| == A.nrhs[r])
    && (forall r | r in G.unit :: r < YYNRULE && |G.rhs[r]| == 1)
  }

  /** The unit rules skipped between a wanted symbol and the symbol found. */
  datatype Chain = Direct | Via(rule: nat, rest: Chain)

  ghost predicate StandsBy(A: Automaton, G: Grammar, ch: Chain, x: nat, want: set<nat>)
    requires IsGrammar(A, G)
  {
    match ch
    case Direct => exists sym :: sym in want && ReadAs(A, x, sym)
    case Via(q, rest) => q in G.unit && A.lhs[q] in want && StandsBy(A, G, rest, x, G.rhs[q][0])
  }

  /** x matches the position `want`, modulo fallback, wildcard and the rules optimised out. */
  ghost predicate Stands(A: Automaton, G: Grammar, x: nat, want: set<nat>)
    requires IsGrammar(A, G)
  {
    exists ch :: StandsBy(A, G, ch, x, want)
  }

  /** What the code in a stack entry says about the stack up to that entry. */
  ghost function ItemsAt(A: Automaton, C: Cert, code: nat): set<Item>
    requires A.WellFormed() && |C.items| == YYNSTATE
  {
    if IsShift(code) then C.items[code]
    else if IsReduce(code) then {Item(code - YY_MIN_REDUCE, A.nrhs[code - YY_MIN_REDUCE])}
    else {}
  }

  /** The item, which says x is on top, holds if x matches the symbol before its dot and p says the rest. */
  ghost predicate Backs(A: Automaton, G: Grammar, C: Cert, p: nat, x: nat, it: Item)
    requires IsGrammar(A, G) && |C.items| == YYNSTATE
  {
    && it.rule < YYNRULE && 0 < it.dot <= A.nrhs[it.rule]
    && Item(it.rule, it.dot - 1) in ItemsAt(A, C, p)
    && Stands(A, G, x, G.rhs[it.rule][it.dot - 1])
  }

  /** Pushing symbol x on state p and storing `code` keeps every item of `code` true. */
  ghost predicate Transition(A: Automaton, G: Grammar, C: Cert, p: nat, x: nat, code: nat)
    requires IsGrammar(A, G) && |C.items| == YYNSTATE
  {
    && IsShift(p) && IsStateCode(code) && code != 0 && x < YYNOCODE
    && (IsReduce(code) ==> A.nrhs[code - YY_MIN_REDUCE] > 0)
    && forall it {:trigger Backs(A, G, C, p, x, it)} | it in ItemsAt(A, C, code) && it.dot > 0 ::
         Backs(A, G, C, p, x, it)
  }

  ghost predicate CertifiedShift(A: Automaton, G: Grammar, C: Cert, s: nat, t: nat)
    requires IsGrammar(A, G) && |C.items| == YYNSTATE && s < YYNSTATE
  {
    var act := A.Lookup(s, t);
    || ((IsShift(act) || IsShiftReduce(act)) && Transition(A, G, C, s, t, Encode(act)))
    || (IsReduce(act) && Item(act - YY_MIN_REDUCE, A.nrhs[act - YY_MIN_REDUCE]) in C.items[s])
    || act == YY_ERROR_ACTION
  }

  ghost predicate CertifiedGoto(A: Automaton, G: Grammar, C: Cert, s: nat, r: nat)
    requires IsGrammar(A, G) && |C.items| == YYNSTATE && s < YYNSTATE && r < YYNRULE
  {
    && s <= YY_REDUCE_COUNT
    && A.lhs[r] in A.gotoRows[s]
    && var act := A.gotoRows[s][A.lhs[r]];
    || ((IsShift(act) || IsShiftReduce(act)) && Transition(A, G, C, s, A.lhs[r], Encode(act)))
    || (act == YY_ACCEPT_ACTION && s == 0 && A.lhs[r] == INPUT)
  }

  /** The tables are an LR automaton of the grammar; C.items is the proof. */
  ghost predicate Certified(A: Automaton, G: Grammar, C: Cert)
  {
    && IsGrammar(A, G)
    && |C.items| == YYNSTATE
    && (forall s, it | 0 <= s < YYNSTATE && it in C.items[s] ::
          it.rule < YYNRULE && it.dot <= A.nrhs[it.rule] && (s == 0 ==> it.dot == 0))
    && (forall s, t | 0 <= s < YYNSTATE && 0 <= t < NTERMINAL :: CertifiedShift(A, G, C, s, t))
    && (forall s, r {:trigger CertifiedGoto(A, G, C, s, r)} |
          0 <= s < YYNSTATE && 0 <= r < YYNRULE && Item(r, 0) in C.items[s] :: CertifiedGoto(A, G, C, s, r))
  }

  function Sum(xs: seq<int>): int
  {
    if xs == [] then 0 else Sum(xs[..|xs| - 1]) + xs[|xs| - 1]
  }

  /**
   Symbol weights that make a reduction cheaper than what it replaces. least[r][k] bounds from below the
   symbols allowed at position k of rule r; all terminals weigh the same; an empty rule has a negative
   left-hand side. No weight is below -M or above M.
   */
  ghost predicate Weighted(A: Automaton, G: Grammar, C: Cert)
    requires IsGrammar(A, G)
  {
    && |C.weight| == YYNOCODE && |C.least| == YYNRULE && C.M >= 0
    && (forall x | 0 <= x < YYNOCODE :: -C.M <= C.weight[x] <= C.M)
    && (forall x | 0 <= x < NTERMINAL :: C.weight[x] == C.weight[0])
    && (forall r | 0 <= r < YYNRULE :: |C.least[r]| == |G.rhs[r]|)
    && (forall r, k, x | 0 <= r < YYNRULE && 0 <= k < |G.rhs[r]| && x in G.rhs[r][k] ::
          x < YYNOCODE && C.weight[x] >= C.least[r][k])
    && (forall r | 0 <= r < YYNRULE :: C.weight[A.lhs[r]] < Sum(C.least[r]))
  }

  /** Whatever stands for a wanted symbol weighs at least as much. */
  lemma {:induction false} StandsWeighs(A: Automaton, G: Grammar, C: Cert, ch: Chain, x: nat, r: nat, k: nat)
    requires IsGrammar(A, G) && Weighted(A, G, C) && x < YYNOCODE
    requires r < YYNRULE && k < |G.rhs[r]| && StandsBy(A, G, ch, x, G.rhs[r][k])
    ensures C.weight[x] >= C.least[r][k]
    decreases ch
  {
    match ch
    case Direct =>
      var sym :| sym in G.rhs[r][k] && ReadAs(A, x, sym);
      assert C.weight[sym] >= C.least[r][k];
    case Via(q, rest) =>
      StandsWeighs(A, G, C, rest, x, q, 0);
      assert Sum(C.least[q]) == Sum(C.least[q][..0]) + C.least[q][0];
  }
}
