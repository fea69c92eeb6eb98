/**
 A small grammar, `input ::= list`, `list ::= SEMI list`, `list ::=`: tables, rules and certificate that meet
 every condition of this project, a run that accepts, and a run in which an empty rule loses a value.
 */
module ParserExample {
  import opened ParserCodes
  import opened ActionTables
  import opened PushDown
  import opened Certificate
  import opened ParserLedger

  const SEMI: nat := 1
  const LIST: nat := 145

  /** State 1 follows a SEMI. Both states shift a SEMI and reduce by the empty rule, rule 2, on anything else. */
  function Rows(): Automaton
  {
    Automaton(
      seq(YYNSTATE, s => if s <= 1 then map[SEMI := 1] else map[]),
      seq(YY_REDUCE_COUNT + 1, s =>
        if s == 0 then map[INPUT := YY_ACCEPT_ACTION, LIST := YY_MIN_SHIFTREDUCE]
        else if s == 1 then map[LIST := YY_MIN_SHIFTREDUCE + 1]
        else map[]),
      seq(YYNSTATE, s => if s <= 1 then YY_MIN_REDUCE + 2 else YY_ERROR_ACTION),
      seq(FALLBACK_COUNT, _ => 0),
      seq(YYNRULE, r => if r == 0 then INPUT else LIST),
      seq(YYNRULE, r => if r == 0 then 1 else if r == 1 then 2 else 0))
  }

  /** The goto row of state 1 overlaps nothing: it is placed 100 slots further on. */
  function Packed(): Tables
  {
    Tables(
      seq(YY_ACTTAB_COUNT, i =>
        if i == SEMI then 1 else if i == INPUT then YY_ACCEPT_ACTION
        else if i == LIST then YY_MIN_SHIFTREDUCE else YY_MIN_SHIFTREDUCE + 1),
      seq(YY_ACTTAB_COUNT, i =>
        if i == SEMI || i == INPUT || i == LIST then i else if i == LIST + 100 then LIST else YYNOCODE),
      seq(YYNSTATE, s => if s <= 1 then 0 else 1),
      seq(YY_REDUCE_COUNT + 1, s => if s == 1 then 100 else 0),
      Rows().dflt, Rows().fallback, Rows().lhs, Rows().nrhs)
  }

  function Rules(): Grammar
  {
    Grammar(seq(YYNRULE, r => if r == 0 then [{LIST}] else if r == 1 then [{SEMI}, {LIST}] else []), {})
  }

  function Proof(): Cert
  {
    Cert(seq(YYNSTATE, s =>
           if s == 0 then {Item(0, 0), Item(1, 0), Item(2, 0)}
           else if s == 1 then {Item(1, 1), Item(1, 0), Item(2, 0)}
           else {}),
         seq(YYNOCODE, x => if x < NTERMINAL then 1 else if x == INPUT then -2 else if x == LIST then -1 else 0),
         seq(YYNRULE, r => if r == 0 then [-1] else if r == 1 then [1, -1] else []), 2)
  }

  lemma RowsWellFormed()
    ensures Rows().WellFormed()
  {
  }

  lemma ExamplePlaced()
    ensures var T, A := Packed(), Rows();
            && RowsAgree(T.shiftOfst, A.shiftRows)
            && (forall s | 0 <= s < YYNSTATE :: Places(T, T.shiftOfst[s], A.shiftRows[s]))
            && (forall s | 0 <= s <= YY_REDUCE_COUNT :: Places(T, T.reduceOfst[s], A.gotoRows[s]))
            && forall i {:trigger PlacedBy(T.shiftOfst, A.shiftRows, T.lookahead[i], i)} | 0 <= i < YY_ACTTAB_COUNT ::
                 T.lookahead[i] < NTERMINAL ==> PlacedBy(T.shiftOfst, A.shiftRows, T.lookahead[i], i)
  {
    var T, A := Packed(), Rows();
    assert T.shiftOfst[0] + SEMI == SEMI && SEMI in A.shiftRows[0];
    assert PlacedBy(T.shiftOfst, A.shiftRows, SEMI, SEMI);
  }

  lemma ExamplePacks()
    ensures Packs(Packed(), Rows())
  {
    RowsWellFormed();
    ExamplePlaced();
    assert |Rows().shiftRows| == YYNSTATE && |Rows().gotoRows| == YY_REDUCE_COUNT + 1;
    hide Rows, RowsAgree, Places, PlacedBy;
  }

  lemma ExampleTransitions()
    ensures var A, G, C := Rows(), Rules(), Proof();
            && IsGrammar(A, G)
            && Transition(A, G, C, 0, SEMI, 1) && Transition(A, G, C, 1, SEMI, 1)
            && Transition(A, G, C, 0, LIST, YY_MIN_REDUCE) && Transition(A, G, C, 1, LIST, YY_MIN_REDUCE + 1)
  {
    var A, G, C := Rows(), Rules(), Proof();
    RowsWellFormed();
    assert IsGrammar(A, G);
    assert StandsBy(A, G, Direct, SEMI, {SEMI}) by { assert ReadAs(A, SEMI, SEMI); }
    assert StandsBy(A, G, Direct, LIST, {LIST}) by { assert ReadAs(A, LIST, LIST); }
    hide StandsBy, ReadAs;
    assert Backs(A, G, C, 0, SEMI, Item(1, 1)) && Backs(A, G, C, 1, SEMI, Item(1, 1));
    assert Backs(A, G, C, 0, LIST, Item(0, 1)) && Backs(A, G, C, 1, LIST, Item(1, 2));
  }

  lemma ExampleCertified()
    ensures Certified(Rows(), Rules(), Proof())
  {
    var A, G, C := Rows(), Rules(), Proof();
    ExampleTransitions();
    hide Transition;
    forall s, t | 0 <= s < YYNSTATE && 0 <= t < NTERMINAL ensures CertifiedShift(A, G, C, s, t) {
      assert A.Lookup(s, t) == if s > 1 then YY_ERROR_ACTION else if t == SEMI then 1 else YY_MIN_REDUCE + 2;
    }
    assert CertifiedGoto(A, G, C, 0, 0) && CertifiedGoto(A, G, C, 0, 1) && CertifiedGoto(A, G, C, 0, 2);
    assert CertifiedGoto(A, G, C, 1, 1) && CertifiedGoto(A, G, C, 1, 2);
    hide CertifiedShift, CertifiedGoto;
  }

  lemma ExampleWeighted()
    ensures IsGrammar(Rows(), Rules()) && Weighted(Rows(), Rules(), Proof())
  {
    RowsWellFormed();
    assert Sum([-1]) == Sum([]) - 1;
    assert [1, -1][..1] == [1] && Sum([1]) == Sum([]) + 1;
  }

  /** The conditions can be met together. */
  lemma ExampleMeetsConditions()
    ensures Packs(Packed(), Rows()) && Certified(Rows(), Rules(), Proof()) && Weighted(Rows(), Rules(), Proof())
  {
    ExamplePacks();
    ExampleCertified();
    ExampleWeighted();
  }

  /** One SEMI and the end: shift, the empty rule, the list, the start rule, acceptance. */
  lemma ExampleAccepts(semi: Token, end: Token)
    requires semi.major == SEMI && end.major == 0
    ensures var leaf, none, list := Leaf(semi, 0), Node(2, [], 1), Node(1, [Leaf(semi, 0), Node(2, [], 1)], 2);
            Run(Rows(), Fixed, Start([semi, end]), 4).log ==
            [Shifted(semi), Reduced(2, []), Reduced(1, [leaf, none]), Reduced(0, [list]), Accepted(Node(0, [list], 3))]
  {
    var A, c0 := Rows(), Start([semi, end]);
    RowsWellFormed();
    var leaf, none := Leaf(semi, 0), Node(2, [], 1);
    var list := Node(1, [leaf, none], 2);
    var e1, e2 := Entry(1, SEMI, leaf), Entry(YY_MIN_REDUCE + 1, LIST, none);
    var c1 := Config([BOTTOM, e1], [Shifted(semi)], [end]);
    var c2 := Config([BOTTOM, e1, e2], [Shifted(semi), Reduced(2, [])], [end]);
    var log3 := [Shifted(semi), Reduced(2, []), Reduced(1, [leaf, none])];
    var c3 := Config([BOTTOM, Entry(YY_MIN_REDUCE, LIST, list)], log3, [end]);
    assert Step(A, Fixed, c0) == c1 by { assert A.Lookup(0, SEMI) == 1; }
    assert Step(A, Fixed, c1) == c2 by { assert A.Lookup(1, 0) == YY_MIN_REDUCE + 2 && ReduceReady(A, c1.stack, 2); }
    assert Step(A, Fixed, c2) == c3 by {
      assert ReduceReady(A, c2.stack, 1) && Minors(c2.stack[1..]) == [leaf, none];
    }
    assert Step(A, Fixed, c3).log == log3 + [Reduced(0, [list]), Accepted(Node(0, [list], 3))] by {
      assert ReduceReady(A, c3.stack, 0) && Minors(c3.stack[1..]) == [list];
    }
    hide Step, Rows;
    assert Run(A, Fixed, c0, 1) == c1 && Run(A, Fixed, c0, 2) == c2 && Run(A, Fixed, c0, 3) == c3;
  }

  /** k SEMIs on the stack, m still to come. */
  function Piled(semi: Token, end: Token, k: nat, m: nat): Config
  {
    Config([BOTTOM] + Pile(semi, k), seq(k, _ => Shifted(semi)), seq(m, _ => semi) + [end])
  }

  function Pile(semi: Token, k: nat): seq<Entry>
  {
    seq(k, i requires 0 <= i => Entry(1, SEMI, Leaf(semi, i)))
  }

  lemma PileOne(semi: Token, end: Token, k: nat, m: nat)
    requires semi.major == SEMI && end.major == 0 && k < 99 && m > 0
    ensures Step(Rows(), Fixed, Piled(semi, end, k, m)) == Piled(semi, end, k + 1, m - 1)
  {
    var c := Piled(semi, end, k, m);
    RowsWellFormed();
    assert Top(c.stack).stateno <= 1 && Rows().Lookup(Top(c.stack).stateno, SEMI) == 1;
    assert c.input[1..] == seq(m - 1, _ => semi) + [end];
    assert c.stack + [Entry(1, SEMI, Leaf(semi, k))] == [BOTTOM] + Pile(semi, k + 1);
    assert c.log + [Shifted(semi)] == seq(k + 1, _ => Shifted(semi));
  }

  lemma {:induction false} PileUp(semi: Token, end: Token, k: nat)
    requires semi.major == SEMI && end.major == 0 && k <= 99
    ensures Run(Rows(), Fixed, Piled(semi, end, 0, 99), k) == Piled(semi, end, k, 99 - k)
  {
    hide Step, Piled, Rows;
    if k == 0 {
    } else {
      PileUp(semi, end, k - 1);
      PileOne(semi, end, k - 1, 100 - k);
    }
  }

  /**
   Ninety-nine SEMIs fill the array; at the end of the input the empty rule has no room, and the value of the
   last SEMI is neither handed over nor destroyed.
   */
  lemma EmptyRuleLosesValue(semi: Token, end: Token)
    requires semi.major == SEMI && end.major == 0
    ensures var c0, v := Start(seq(99, _ => semi) + [end]), Leaf(semi, 98);
            var log := Run(Rows(), Fixed, c0, 100).log;
            && LostBy(Rows(), c0, 100, v) == 1
            && Made(log, v) == 1 && Taken(log, v) == Freed(log, v) == Held(Run(Rows(), Fixed, c0, 100).stack, v) == 0
  {
    var A, input, v := Rows(), seq(99, _ => semi) + [end], Leaf(semi, 98);
    RowsWellFormed();
    assert Piled(semi, end, 0, 99) == Start(input);
    PileUp(semi, end, 99);
    LostAtTheEnd(semi, end);
    hide Step, Rows, Piled, LostIn, Made, Taken, Freed, Held;
    NeverTwice(A, input, 100, v);
  }

  lemma LostAtTheEnd(semi: Token, end: Token)
    requires semi.major == SEMI && end.major == 0
    ensures Rows().WellFormed() && LostIn(Rows(), Piled(semi, end, 99, 0), Leaf(semi, 98)) == 1
  {
    var A, c := Rows(), Piled(semi, end, 99, 0);
    RowsWellFormed();
    assert A.Lookup(1, 0) == YY_MIN_REDUCE + 2 && ReduceReady(A, c.stack, 2);
  }
}
