/** Linking the terms of a compound SELECT: heap nodes chained by pPrior while parsing, by pNext once complete. */
module SelectChain {
  datatype Op = TkSelect | TkUnion | TkAll | TkExcept | TkIntersect

  /** The parts of struct Select the parser's linking touches. */
  class Select {
    var op: Op
    var pPrior: Select?
    var pNext: Select?
    /** SF_Compound, SF_Values and SF_MultiValue of selFlags. */
    var isCompound: bool
    var isValues: bool
    var isMultiValue: bool
    /** Which SELECT core or VALUES row of the source this is; 0 in a wrapper, which is none. */
    const id: nat
    /** The FROM subquery, for the wrapper around a multi-row VALUES, and the chain that starts with it. */
    const subquery: Select?
    ghost const terms: seq<Select>

    /** sqlite3SelectNew, with successful allocation. */
    constructor (id: nat, isValues: bool, isMultiValue: bool)
      ensures op == TkSelect && pPrior == null && pNext == null && !isCompound
      ensures this.isValues == isValues && this.isMultiValue == isMultiValue
      ensures this.id == id && subquery == null && terms == []
    {
      op, pPrior, pNext, isCompound := TkSelect, null, null, false;
      this.id, this.isValues, this.isMultiValue, subquery, terms := id, isValues, isMultiValue, null, [];
    }

    /** The same, with a subquery for its FROM clause. */
    constructor Wrapper(subquery: Select, ghost terms: seq<Select>)
      ensures op == TkSelect && pPrior == null && pNext == null && !isCompound && !isValues && !isMultiValue
      ensures id == 0 && this.subquery == subquery && this.terms == terms
    {
      op, pPrior, pNext, isCompound, isValues, isMultiValue := TkSelect, null, null, false, false, false;
      id, this.subquery, this.terms := 0, subquery, terms;
    }
  }

  predicate Distinct(c: seq<Select>)
  {
    forall k, l | 0 <= k < l < |c| :: c[k] != c[l]
  }

  /** The neighbours of term k: the one parsed before it, and the one parsed after it. */
  function Older(c: seq<Select>, k: int): Select?
  {
    if 0 <= k + 1 < |c| then c[k + 1] else null
  }

  function Newer(c: seq<Select>, k: int): Select?
  {
    if 0 <= k - 1 < |c| then c[k - 1] else null
  }

  /** c lists the terms from the last one parsed back to the first, as pPrior links them. */
  ghost predicate Chain(c: seq<Select>)
    reads c`pPrior
  {
    && c != [] && Distinct(c)
    && forall k | 0 <= k < |c| :: c[k].pPrior == Older(c, k)
  }

  /** pNext mirrors pPrior, and every term knows it is part of a compound. */
  ghost predicate Linked(c: seq<Select>)
    reads c`pNext, c`isCompound
  {
    forall k | 0 <= k < |c| :: c[k].pNext == Newer(c, k) && c[k].isCompound
  }

  /** No link forward and no compound flag, as long as the chain is not complete. */
  ghost predicate Unlinked(c: seq<Select>)
    reads c`pNext, c`isCompound
  {
    forall k | 0 <= k < |c| :: c[k].pNext == null && !c[k].isCompound
  }

  lemma UnlinkedOne(p: Select)
    requires p.pNext == null && !p.isCompound
    ensures Unlinked([p])
  {
  }

  lemma UnlinkedGrows(p: Select, c: seq<Select>)
    requires Unlinked(c) && p.pNext == null && !p.isCompound
    ensures Unlinked([p] + c)
  {
  }

  /** SF_MultiValue is set on the head alone, exactly when the chain is one VALUES clause of several rows. */
  ghost predicate Flagged(c: seq<Select>, pureValues: bool)
    requires c != []
    reads c`isValues, c`isMultiValue
  {
    && (c[0].isMultiValue <==> pureValues && |c| > 1)
    && (forall k | 1 <= k < |c| :: !c[k].isMultiValue)
    && (pureValues ==> forall k | 0 <= k < |c| :: c[k].isValues)
  }

  /** Whether a chain of that many terms exceeds SQLITE_LIMIT_COMPOUND_SELECT. */
  predicate TooMany(terms: nat, multiValue: bool, limit: int)
  {
    terms > 1 && !multiValue && limit > 0 && terms > limit
  }

  /** parserDoubleLinkSelect (parse.c:90-105): returns whether it reports an error. */
  method DoubleLinkSelect(p: Select, limit: int, ghost c: seq<Select>) returns (error: bool)
    requires Chain(c) && c[0] == p
    modifies c`pNext, c`isCompound
    ensures Chain(c)
    ensures |c| > 1 ==> Linked(c)
    ensures |c| == 1 ==> unchanged(p)
    ensures error == TooMany(|c|, p.isMultiValue, limit)
  {
    error := false;
    assert c[0].pPrior == Older(c, 0);
    if p.pPrior != null {
      var pNext: Select? := null;
      var pLoop: Select? := p;
      ghost var n := 0;
      var cnt := 0;
      while pLoop != null
        invariant 0 <= n <= |c| && cnt == n
        invariant pLoop == Older(c, n - 1)
        invariant pNext == Newer(c, n)
        invariant forall k | 0 <= k < n :: c[k].pNext == Newer(c, k) && c[k].isCompound
        invariant Chain(c)
        decreases |c| - n
      {
        pLoop.pNext := pNext;
        pLoop.isCompound := true;
        pNext := pLoop;
        assert c[n].pPrior == Older(c, n);
        pLoop := pLoop.pPrior;
        cnt := cnt + 1;
        n := n + 1;
      }
      if !p.isMultiValue && limit > 0 && cnt > limit {
        error := true;
      }
    }
  }

  /** values ::= VALUES LP nexprlist RP (parse.c:2774-2779). */
  method ReduceValues(id: nat) returns (p: Select)
    ensures fresh(p) && Chain([p]) && Flagged([p], true)
    ensures p.id == id && p.op == TkSelect && p.subquery == null && p.terms == [] && p.pNext == null && !p.isCompound
  {
    p := new Select(id, true, false);
  }

  /** values ::= values COMMA LP exprlist RP (parse.c:2781-2794): the new row becomes the head. */
  method ReduceValuesRow(pLeft: Select, id: nat, ghost c: seq<Select>) returns (p: Select)
    requires Chain(c) && c[0] == pLeft && Flagged(c, true)
    modifies pLeft`isMultiValue
    ensures fresh(p) && Chain([p] + c) && Flagged([p] + c, true)
    ensures p.id == id && p.op == TkAll && p.subquery == null && p.terms == [] && p.pNext == null && !p.isCompound
  {
    p := new Select(id, true, true);
    pLeft.isMultiValue := false;
    p.op := TkAll;
    p.pPrior := pLeft;
  }

  /** oneselect ::= SELECT ... (parse.c:2742-2744). */
  method ReduceSelect(id: nat) returns (p: Select)
    ensures fresh(p) && Chain([p]) && Flagged([p], false)
    ensures p.id == id && p.op == TkSelect && p.subquery == null && p.terms == [] && !p.isValues
    ensures p.pNext == null && !p.isCompound
  {
    p := new Select(id, false, false);
  }

  /** The second half of that rule (parse.c:2716-2721): put p in front of the left operand. */
  method Attach(p: Select, op: Op, pLhs: Select, ghost c: seq<Select>, ghost pure: bool)
    requires Chain(c) && c[0] == pLhs && Flagged(c, pure) && p !in c
    modifies p`op, p`pPrior, p`isMultiValue, pLhs`isMultiValue
    ensures Chain([p] + c) && Flagged([p] + c, false) && p.op == op
  {
    p.op := op;
    p.pPrior := pLhs;
    pLhs.isMultiValue := false;
    p.isMultiValue := false;
    assert forall k | 0 <= k < |c| :: ([p] + c)[k + 1] == c[k];
  }

  /** The first half of that rule (parse.c:2709-2715): link the operand and select from it. */
  method WrapChain(pRhs: Select, limit: int, ghost c: seq<Select>, ghost rows: bool,
                   ghost other: seq<Select>, ghost pure: bool)
    returns (p: Select, error: bool)
    requires Chain(c) && c[0] == pRhs && |c| > 1 && Flagged(c, rows)
    requires Chain(other) && Flagged(other, pure) && forall q | q in other :: q !in c
    modifies c`pNext, c`isCompound
    ensures fresh(p) && p.subquery == pRhs && p.terms == c && !p.isValues && p.pNext == null && !p.isCompound
    ensures Chain(c) && Linked(c) && Flagged(c, rows) && error == TooMany(|c|, rows, limit)
    ensures Chain(other) && Flagged(other, pure)
  {
    assert forall k | 0 <= k < |other| :: other[k] in other;
    assert c[0] in c;
    error := DoubleLinkSelect(pRhs, limit, c);
    p := new Select.Wrapper(pRhs, c);
  }

  lemma ChainHead(c: seq<Select>)
    requires Chain(c)
    ensures c != [] && c[0] in c && (c[0].pPrior == null <==> |c| == 1)
  {
    assert c[0].pPrior == Older(c, 0);
  }

  /**
   selectnowith ::= selectnowith multiselect_op oneselect (parse.c:2706-2727). A right operand that is a
   chain itself is linked and wrapped into a subquery, so that the result grows by one term; its flags stay.
   */
  method ReduceCompound(pLhs: Select, op: Op, pRhs: Select, limit: int,
                        ghost cl: seq<Select>, ghost pure: bool, ghost cr: seq<Select>, ghost rows: bool)
    returns (p: Select, error: bool)
    requires Chain(cl) && cl[0] == pLhs && Flagged(cl, pure)
    requires Chain(cr) && cr[0] == pRhs && Flagged(cr, rows) && (forall q | q in cl :: q !in cr)
    modifies pLhs`isMultiValue, cr`pNext, cr`isCompound, pRhs`op, pRhs`pPrior, pRhs`isMultiValue
    ensures p !in cl && Chain([p] + cl) && Flagged([p] + cl, false) && p.op == op
    ensures |cr| == 1 ==> p == pRhs && !error && unchanged(p`pNext, p`isCompound)
    ensures |cr| > 1 ==> fresh(p) && p.subquery == pRhs && p.terms == cr && !p.isValues
    ensures |cr| > 1 ==> p.pNext == null && !p.isCompound
    ensures |cr| > 1 ==> Chain(cr) && Linked(cr) && Flagged(cr, rows) && unchanged(cr`op)
    ensures error == TooMany(|cr|, rows, limit)
  {
    hide Chain, Linked, Flagged;
    ChainHead(cl);
    ChainHead(cr);
    if pRhs.pPrior != null {
      p, error := WrapChain(pRhs, limit, cr, rows, cl, pure);
    } else {
      p, error := pRhs, false;
    }
    Attach(p, op, pLhs, cl, pure);
  }

  /** Both directions undo each other, and only the first and the last term have a missing neighbour. */
  lemma LinksAreInverse(c: seq<Select>, k: nat)
    requires Chain(c) && Linked(c) && k < |c|
    ensures c[k].pPrior != null ==> k + 1 < |c| && c[k].pPrior == c[k + 1] && c[k].pPrior.pNext == c[k]
    ensures c[k].pNext != null ==> 0 < k && c[k].pNext == c[k - 1] && c[k].pNext.pPrior == c[k]
    ensures c[k].pPrior == null <==> k == |c| - 1
    ensures c[k].pNext == null <==> k == 0
  {
    assert c[k].pPrior == Older(c, k) && c[k].pNext == Newer(c, k);
    if k + 1 < |c| { assert c[k + 1].pNext == Newer(c, k + 1); }
    if k > 0 { assert c[k - 1].pPrior == Older(c, k - 1); }
  }

  /** The chain read from its first term on. */
  function Reversed(c: seq<Select>): (r: seq<Select>)
    ensures |r| == |c| && forall k :: 0 <= k < |c| ==> r[k] == c[|c| - 1 - k]
  {
    if c == [] then [] else Reversed(c[1..]) + [c[0]]
  }

  /** At most n terms, found by following pNext among the given ones. */
  ghost function FollowNext(s: Select?, among: set<Select>, n: nat): seq<Select>
    reads among
  {
    if s == null || s !in among || n == 0 then [] else [s] + FollowNext(s.pNext, among, n - 1)
  }

  ghost function Elements(c: seq<Select>): set<Select>
  {
    set q | q in c
  }

  /** Following pNext from the leftmost term visits all terms, in source order, and ends after the last. */
  lemma {:induction false} NextIsSourceOrder(c: seq<Select>, k: nat, n: nat)
    requires Linked(c) && k < |c| && k < n
    ensures |FollowNext(c[k], Elements(c), n)| == k + 1
    ensures forall i :: 0 <= i <= k ==> FollowNext(c[k], Elements(c), n)[i] == c[k - i]
    decreases k
  {
    assert c[k].pNext == (if k == 0 then null else c[k - 1]) && c[k] in Elements(c) by { hide FollowNext; }
    if k == 0 {
      hide Linked, Elements;
    } else {
      NextIsSourceOrder(c, k - 1, n - 1);
      hide Linked, Elements;
      assert FollowNext(c[k], Elements(c), n) == [c[k]] + FollowNext(c[k - 1], Elements(c), n - 1);
      hide FollowNext;
    }
  }

  lemma WalkIsReversed(c: seq<Select>)
    requires Linked(c) && c != []
    ensures FollowNext(c[|c| - 1], Elements(c), |c| + 1) == Reversed(c)
  {
    hide FollowNext, Linked, Elements, Reversed;
    NextIsSourceOrder(c, |c| - 1, |c| + 1);
    assert forall i :: 0 <= i < |c| ==> FollowNext(c[|c| - 1], Elements(c), |c| + 1)[i] == Reversed(c)[i];
  }

  /** An operand of a compound: a SELECT core, or a VALUES clause with its rows. */
  datatype Operand = Query(id: nat) | Rows(id: nat, more: seq<nat>)

  /** The cores or rows of an operand, in source order. */
  function Ids(o: Operand): seq<nat>
  {
    match o
    case Query(id) => [id]
    case Rows(id, more) => [id] + more
  }

  function Terms(o: Operand): nat { |Ids(o)| }

  /** A term that is a core or a row itself. */
  ghost predicate IsTerm(q: Select, id: nat, rows: bool)
    reads q`isValues
  {
    q.id == id && q.subquery == null && q.isValues == rows
  }

  /** The operator in front of core or row k of one operand: the rows of a VALUES clause are joined by UNION ALL. */
  function RowOp(k: nat): Op { if k == 0 then TkSelect else TkAll }

  /** The chain consists of exactly these cores or rows, in source order. */
  ghost predicate Lists(c: seq<Select>, ids: seq<nat>, rows: bool)
    reads c`op, c`isValues
  {
    && |c| == |ids|
    && forall k: nat | k < |c| :: IsTerm(c[|c| - 1 - k], ids[k], rows) && c[|c| - 1 - k].op == RowOp(k)
  }

  /** Term q stands for the operand: as its only core or row, or as the wrapper of a complete chain of its rows. */
  ghost predicate StandsFor(q: Select, o: Operand)
    reads q`isValues, q.terms
  {
    if Terms(o) == 1 then IsTerm(q, Ids(o)[0], o.Rows?)
    else
      && !q.isValues && q.terms != [] && q.subquery == q.terms[0] && Lists(q.terms, Ids(o), o.Rows?)
      && Chain(q.terms) && Linked(q.terms) && Flagged(q.terms, true)
  }

  /** What wrappers in the chain refer to. */
  ghost function Inner(c: seq<Select>): set<Select>
  {
    set q: Select, t: Select | q in c && t in q.terms :: t
  }

  /** No term of the chain is also inside one of its wrappers. */
  ghost predicate Apart(c: seq<Select>)
  {
    forall t :: t in Inner(c) ==> t !in c
  }

  /** Term j of the chain, from the last one back, stands for its operand. */
  ghost predicate TermFor(c: seq<Select>, j: int, rest: seq<(Op, Operand)>)
    reads c`isValues, Inner(c)
  {
    0 <= j < |c| && j < |rest| &&
    assert c[j] in c && forall t :: t in c[j].terms ==> t in Inner(c);
    StandsFor(c[j], rest[|rest| - 1 - j].1)
  }

  /**
   From the last term back: each operand after the first has its term, and then come the first operand's cores
   or rows. Nothing the chain's own links consist of is read here.
   */
  ghost predicate Operands(c: seq<Select>, first: Operand, rest: seq<(Op, Operand)>)
    reads c`op, c`isValues, Inner(c)
  {
    && |c| == Terms(first) + |rest|
    && assert forall q | q in c[|rest|..] :: q in c;
       Lists(c[|rest|..], Ids(first), first.Rows?)
    && forall j | 0 <= j < |rest| :: TermFor(c, j, rest)
  }

  ghost predicate Operators(c: seq<Select>, rest: seq<(Op, Operand)>)
    reads c`op
  {
    |rest| <= |c| && forall j | 0 <= j < |rest| :: c[j].op == rest[|rest| - 1 - j].0
  }

  /** The term for operand i, counted from the one after the first, in a list of terms in source order. */
  ghost predicate Placed(walk: seq<Select>, first: Operand, rest: seq<(Op, Operand)>, i: int)
    reads walk, Inner(walk)
  {
    0 <= i < |rest| && Terms(first) + i < |walk| &&
    var q := walk[Terms(first) + i];
    assert q in walk && forall t :: t in q.terms ==> t in Inner(walk);
    q.op == rest[i].0 && StandsFor(q, rest[i].1)
  }

  /** First the cores or rows of the first operand, then a term for each operator and operand. */
  ghost predicate InSourceOrder(walk: seq<Select>, first: Operand, rest: seq<(Op, Operand)>)
    reads walk, Inner(walk)
  {
    && |walk| == Terms(first) + |rest|
    && (forall k: nat | k < Terms(first) :: IsTerm(walk[k], Ids(first)[k], first.Rows?) && walk[k].op == RowOp(k))
    && forall i | 0 <= i < |rest| :: Placed(walk, first, rest, i)
  }

  lemma FirstInOrder(c: seq<Select>, ids: seq<nat>, rows: bool, n: nat, k: nat)
    requires n <= |c| && Lists(c[n..], ids, rows) && k < |ids|
    ensures IsTerm(Reversed(c)[k], ids[k], rows) && Reversed(c)[k].op == RowOp(k)
  {
    hide Reversed;
    assert Reversed(c)[k] == c[|c| - 1 - k] == c[n..][|ids| - 1 - k];
    assert IsTerm(c[n..][|ids| - 1 - k], ids[k], rows);
    hide Lists;
  }

  lemma PlacedInOrder(c: seq<Select>, first: Operand, rest: seq<(Op, Operand)>, i: nat)
    requires |c| == Terms(first) + |rest| && i < |rest| && TermFor(c, |rest| - 1 - i, rest)
    requires c[|rest| - 1 - i].op == rest[i].0
    ensures Placed(Reversed(c), first, rest, i)
  {
    var walk := Reversed(c);
    assert walk[Terms(first) + i] == c[|rest| - 1 - i];
    hide StandsFor, Reversed;
  }

  /** Read from its first term on, the chain is in source order. */
  lemma ReversedInSourceOrder(c: seq<Select>, first: Operand, rest: seq<(Op, Operand)>)
    requires Operands(c, first, rest) && Operators(c, rest)
    ensures InSourceOrder(Reversed(c), first, rest)
  {
    hide StandsFor, Lists, Reversed, Placed, TermFor, Ids, IsTerm, RowOp;
    forall k: nat | k < Terms(first)
      ensures IsTerm(Reversed(c)[k], Ids(first)[k], first.Rows?) && Reversed(c)[k].op == RowOp(k)
    {
      FirstInOrder(c, Ids(first), first.Rows?, |rest|, k);
    }
    forall i | 0 <= i < |rest| ensures Placed(Reversed(c), first, rest, i) {
      assert TermFor(c, |rest| - 1 - i, rest);
      PlacedInOrder(c, first, rest, i);
    }
  }

  /** The reductions of a VALUES clause, row by row. */
  method ParseRows(id: nat, more: seq<nat>) returns (p: Select, ghost c: seq<Select>)
    ensures Chain(c) && c[0] == p && Lists(c, [id] + more, true) && Flagged(c, true) && Unlinked(c)
    ensures forall k | 0 <= k < |c| :: fresh(c[k]) && c[k].terms == []
  {
    hide Lists, Chain, Flagged, Unlinked, RowOp, IsTerm;
    p := ReduceValues(id);
    c := [p];
    UnlinkedOne(p);
    ListsOne(p, true);
    assert [id] + more[..0] == [id];
    for i := 0 to |more|
      invariant Chain(c) && c != [] && c[0] == p && Lists(c, [id] + more[..i], true) && Flagged(c, true)
      invariant Unlinked(c) && forall k | 0 <= k < |c| :: fresh(c[k]) && c[k].terms == []
    {
      ghost var rows := [id] + more[..i];
      p := ReduceValuesRow(p, more[i], c);
      ListsGrows(p, c, rows);
      UnlinkedGrows(p, c);
      c := [p] + c;
      assert [id] + more[..i + 1] == rows + [more[i]];
    }
    assert more[..|more|] == more;
  }

  lemma ListsOne(p: Select, rows: bool)
    requires p.subquery == null && p.isValues == rows && p.op == TkSelect
    ensures Lists([p], [p.id], rows)
  {
  }

  lemma ListsGrows(p: Select, c: seq<Select>, ids: seq<nat>)
    requires Lists(c, ids, true) && c != [] && p.subquery == null && p.isValues && p.op == TkAll
    ensures Lists([p] + c, ids + [p.id], true)
  {
  }

  /** The reductions of one operand, in the order the parser makes them. */
  method ParseOperand(o: Operand) returns (p: Select, ghost c: seq<Select>)
    ensures Chain(c) && c[0] == p && Lists(c, Ids(o), o.Rows?) && Flagged(c, o.Rows?) && Unlinked(c)
    ensures forall k | 0 <= k < |c| :: fresh(c[k]) && c[k].terms == []
  {
    if o.Query? {
      p := ReduceSelect(o.id);
      c := [p];
    } else {
      p, c := ParseRows(o.id, o.more);
    }
  }

  lemma TermMoves(p: Select, c: seq<Select>, rest: seq<(Op, Operand)>, more: (Op, Operand), j: int)
    requires TermFor(c, j, rest)
    ensures TermFor([p] + c, j + 1, rest + [more])
  {
    hide StandsFor, Inner;
    assert ([p] + c)[j + 1] == c[j] && (rest + [more])[|rest| - 1 - j] == rest[|rest| - 1 - j];
  }

  lemma FrontTerm(p: Select, c: seq<Select>, rest: seq<(Op, Operand)>, more: (Op, Operand))
    requires StandsFor(p, more.1)
    ensures TermFor([p] + c, 0, rest + [more])
  {
    hide StandsFor, Inner;
  }

  /** A new term in front, for the next operand. */
  lemma AddTerm(p: Select, c: seq<Select>, first: Operand, rest: seq<(Op, Operand)>, more: (Op, Operand))
    requires Operands(c, first, rest) && Operators(c, rest) && p.op == more.0 && StandsFor(p, more.1)
    ensures Operands([p] + c, first, rest + [more]) && Operators([p] + c, rest + [more])
  {
    hide StandsFor, TermFor, Lists;
    var c', rest' := [p] + c, rest + [more];
    assert c'[|rest'|..] == c[|rest|..];
    forall j | 0 <= j < |rest'| ensures TermFor(c', j, rest') {
      if j == 0 {
        FrontTerm(p, c, rest, more);
      } else {
        TermMoves(p, c, rest, more, j - 1);
      }
    }
  }

  lemma HeadUnlinked(c: seq<Select>)
    requires Unlinked(c) && c != []
    ensures c[0] in c && c[0].pNext == null && !c[0].isCompound
  {
  }

  lemma HeadFlagged(c: seq<Select>, pure: bool)
    requires c != [] && Flagged(c, pure)
    ensures c[0].isMultiValue == (pure && |c| > 1)
  {
  }

  lemma HeadApart(c: seq<Select>)
    requires Chain(c) && Apart(c)
    ensures c != [] && c[0] in c && c[0] !in Inner(c) && forall t :: t in Inner(c) ==> allocated(t)
  {
  }

  /** select ::= with selectnowith (parse.c:2691-2702), but for the WITH clause. */
  method ReduceSelectStatement(p: Select, limit: int, ghost c: seq<Select>, ghost first: Operand,
                               ghost rest: seq<(Op, Operand)>, ghost pure: bool)
    returns (error: bool)
    requires Chain(c) && c[0] == p && Apart(c) && Operands(c, first, rest) && Operators(c, rest) && Flagged(c, pure)
    requires Unlinked(c)
    modifies c`pNext, c`isCompound
    ensures Chain(c) && Operands(c, first, rest) && Operators(c, rest) && Flagged(c, pure)
    ensures |c| > 1 ==> Linked(c)
    ensures |c| == 1 ==> c[0].pPrior == null && c[0].pNext == null && !c[0].isCompound
    ensures error == TooMany(|c|, pure, limit)
  {
    hide Operands, Operators, Inner, Linked, Chain, Unlinked, Flagged;
    ChainHead(c);
    HeadUnlinked(c);
    HeadFlagged(c, pure);
    HeadApart(c);
    error := DoubleLinkSelect(p, limit, c);
  }

  /** One more operator and operand. */
  method ParseTerm(pLhs: Select, term: (Op, Operand), limit: int, ghost c: seq<Select>, ghost first: Operand,
                   ghost rest: seq<(Op, Operand)>, ghost pure: bool)
    returns (p: Select, error: bool, ghost c': seq<Select>)
    requires Chain(c) && c[0] == pLhs && Apart(c) && Operands(c, first, rest) && Operators(c, rest) && Flagged(c, pure)
    requires Unlinked(c)
    modifies pLhs`isMultiValue
    ensures c' == [p] + c && fresh(p) && forall t | t in Inner(c') :: t in Inner(c) || fresh(t)
    ensures Chain(c') && Apart(c') && Flagged(c', false) && Unlinked(c')
    ensures Operands(c', first, rest + [term]) && Operators(c', rest + [term])
    ensures !error
  {
    hide Operands, Operators, Lists, Chain, Linked, Flagged, Unlinked, Inner, StandsFor, Terms, Ids, Apart;
    HeadApart(c);
    ghost var inner := Inner(c);
    var pRhs, cr := ParseOperand(term.1);
    OperandChain(cr, term.1);
    HeadUnlinked(cr);
    assert forall q | q in cr :: q !in inner && q !in c && q.terms == [];
    assert forall q | q in c :: q !in cr;
    p, error := ReduceCompound(pLhs, term.0, pRhs, limit, c, pure, cr, term.1.Rows?);
    assert |cr| == 1 ==> cr[0] in cr;
    NewTerm(p, cr, term.1);
    AddTerm(p, c, first, rest, term);
    ApartGrows(p, c);
    UnlinkedGrows(p, c);
    c' := [p] + c;
  }

  lemma ApartGrows(p: Select, c: seq<Select>)
    requires Apart(c) && p !in Inner(c) && p !in p.terms && forall t | t in p.terms :: t !in c
    ensures Apart([p] + c)
    ensures forall t :: t in Inner([p] + c) <==> t in p.terms || t in Inner(c)
  {
    assert p in [p] + c;
    forall t | t in Inner(c) ensures t in Inner([p] + c) {
      var q :| q in c && t in q.terms;
      assert q in [p] + c;
    }
  }

  lemma NewTerm(p: Select, cr: seq<Select>, o: Operand)
    requires |cr| == Terms(o) && (|cr| == 1 ==> IsTerm(p, Ids(o)[0], o.Rows?))
    requires |cr| > 1 ==> !p.isValues && p.terms == cr && p.subquery == cr[0] && Chain(cr) && Linked(cr)
    requires |cr| > 1 ==> Lists(cr, Ids(o), o.Rows?) && Flagged(cr, o.Rows?)
    ensures StandsFor(p, o)
  {
  }

  /** Only a VALUES clause makes a chain of several terms. */
  lemma OperandChain(cr: seq<Select>, o: Operand)
    requires Lists(cr, Ids(o), o.Rows?)
    ensures |cr| == Terms(o) && (|cr| > 1 ==> o.Rows?) && (|cr| == 1 ==> IsTerm(cr[0], Ids(o)[0], o.Rows?))
  {
  }

  lemma FirstTerms(c: seq<Select>, first: Operand)
    requires Lists(c, Ids(first), first.Rows?) && forall k | 0 <= k < |c| :: c[k].terms == []
    ensures Operands(c, first, []) && Operators(c, []) && Apart(c) && Inner(c) == {}
  {
    assert c[0..] == c;
  }

  /** The reductions up to the last operand; none of them reports an error. */
  method ParseTerms(first: Operand, rest: seq<(Op, Operand)>, limit: int)
    returns (p: Select, error: bool, ghost c: seq<Select>)
    ensures !error
    ensures Chain(c) && c[0] == p && Apart(c) && Operands(c, first, rest) && Operators(c, rest)
    ensures Unlinked(c) && Flagged(c, first.Rows? && rest == []) && forall k | 0 <= k < |c| :: fresh(c[k])
  {
    hide Operands, Operators, Lists, Chain, Flagged, Unlinked, Apart, Inner, Terms, Ids;
    p, c := ParseOperand(first);
    error := false;
    ghost var pure := first.Rows?;
    FirstTerms(c, first);
    for i := 0 to |rest|
      invariant Chain(c) && c != [] && c[0] == p && Apart(c) && Operands(c, first, rest[..i]) && Operators(c, rest[..i])
      invariant Unlinked(c) && Flagged(c, pure) && (pure <==> first.Rows? && i == 0)
      invariant !error && (forall k | 0 <= k < |c| :: fresh(c[k])) && forall t | t in Inner(c) :: fresh(t)
    {
      assert rest[..i + 1] == rest[..i] + [rest[i]];
      ghost var before := c;
      var reported;
      p, reported, c := ParseTerm(p, rest[i], limit, c, first, rest[..i], pure);
      error := error || reported;
      assert forall k | 1 <= k < |c| :: c[k] == before[k - 1];
      pure := false;
    }
    assert rest[..|rest|] == rest;
  }

  /**
   A whole compound: the first operand, then each operator with its operand. Following pNext from the leftmost
   term visits the first operand's cores or rows and then one term for each further operand, in source order,
   with the operator written before it; a VALUES operand of several rows is a wrapper around the complete linked
   chain of its rows, whose head alone is flagged. Some step reports an error exactly when there are more terms
   than a positive limit allows and they are not one VALUES clause. A single term is left without links.
   */
  method ParseCompound(first: Operand, rest: seq<(Op, Operand)>, limit: int)
    returns (p: Select, error: bool, ghost c: seq<Select>)
    ensures Chain(c) && c[0] == p && InSourceOrder(Reversed(c), first, rest)
    ensures |c| > 1 ==> Linked(c) && FollowNext(c[|c| - 1], Elements(c), |c| + 1) == Reversed(c)
    ensures |c| == 1 ==> p.pPrior == null && p.pNext == null && !p.isCompound
    ensures Flagged(c, first.Rows? && rest == [])
    ensures error <==> Terms(first) + |rest| > 1 && 0 < limit < Terms(first) + |rest| && !(first.Rows? && rest == [])
  {
    p, error, c := ParseTerms(first, rest, limit);
    var reported := ReduceSelectStatement(p, limit, c, first, rest, first.Rows? && rest == []);
    error := error || reported;
    assert |c| == Terms(first) + |rest|;
    ReversedInSourceOrder(c, first, rest);
    hide Operands, Operators, InSourceOrder;
    if |c| > 1 {
      WalkIsReversed(c);
    }
  }
}
