/**
 The expression actions as the parser runs them: on the semantic values of neighbouring stack entries, each
 result written over the entry of the first symbol. Token and ExprSpan share the memory of an entry, so an
 action may destroy the token it still has to read. ExprParser runs them; each is proved to leave what
 SqlExpr.Build prescribes.
 */
module ReduceActions {
  import opened Options
  import opened SqlExpr

  /** A word of memory: a pointer to a token's text, a length, a position, a tree, a list, a flag or flags, or NULL. */
  datatype Word =
    | Null | Text(tok: Token) | Len(n: nat) | Pos(p: int) | Tree(e: Expr) | List(es: seq<Expr>) | Flag(b: bool)
    | Run(toks: seq<Token>) | Flags(n: nat)

  /**
   YYMINORTYPE (parse.c:293-309; sqliteInt.h:2141-2144 and 2423-2427): word0 is Token.z and ExprSpan.pExpr,
   word1 is Token.n and ExprSpan.zStart.
   */
  datatype Minor = Minor(word0: Word, word1: Word, word2: Word)
  {
    predicate HoldsToken(t: Token) { word0 == Text(t) && word1 == Len(t.n) }

    predicate HoldsLikeOp(op: LikeOp) { word0 == Text(op.tok) && word1 == Len(op.n) }

    predicate HoldsSpan(s: ExprSpan) { word0 == Tree(s.pExpr) && word1 == Pos(s.zStart) && word2 == Pos(s.zEnd) }

    /** An empty list is NULL. */
    predicate HoldsList(es: seq<Expr>) { word0 == if es == [] then Null else List(es) }

    predicate HoldsTree(e: Option<Expr>) { word0 == match e case None => Null case Some(x) => Tree(x) }
  }

  /** sqliteInt.h:2678-2679. */
  const SF_Distinct := 1
  const SF_All := 2

  /** The value of distinct (parse.c:2797-2805). */
  function DistinctFlags(distinct: seq<Token>): nat
  {
    if distinct == [] then 0 else if distinct[0].kind == DISTINCT then SF_Distinct else SF_All
  }

  /** Setting EP_Distinct. */
  function SetDistinct(e: Expr): Expr
    requires !e.Const?
  {
    e.(op := FUNCTION_DISTINCT)
  }

  /** What entries below `base` hold is not touched. */
  twostate predicate Below(st: array<Minor>, base: nat)
    reads st
  {
    forall k | 0 <= k < base && k < st.Length :: st[k] == old(st[k])
  }

  function ListOf(w: Word): seq<Expr>
    requires w.Null? || w.List?
  {
    if w.Null? then [] else w.es
  }

  function TreeOf(w: Word): Option<Expr>
    requires w.Null? || w.Tree?
  {
    if w.Null? then None else Some(w.e)
  }

  /** spanSet (parse.c:112-115): the result may replace the first token, but not the last. */
  method SpanSet(st: array<Minor>, pOut: nat, pStart: nat, pEnd: nat, ghost start: Token, ghost end: Token)
    requires pOut < st.Length && pStart < st.Length && pEnd < st.Length && pOut != pEnd
    requires st[pStart].HoldsToken(start) && st[pEnd].HoldsToken(end)
    modifies st
    ensures st[pOut] == old(st[pOut]).(word1 := Pos(start.z), word2 := Pos(End(end)))
    ensures forall k | 0 <= k < st.Length && k != pOut :: st[k] == old(st[k])
  {
    st[pOut] := st[pOut].(word1 := Pos(st[pStart].word0.tok.z));
    st[pOut] := st[pOut].(word2 := Pos(st[pEnd].word0.tok.z + st[pEnd].word1.n));
  }

  /** spanExpr (parse.c:121-144): takes its token by value, so the result may replace it. */
  method SpanExpr(st: array<Minor>, pOut: nat, op: Tk, t: Token)
    requires pOut < st.Length
    modifies st
    ensures st[pOut].HoldsSpan(SqlExpr.SpanExpr(op, t)) && Below(st, pOut)
  {
    st[pOut] := st[pOut].(word0 := Tree(Leaf(op, t)));
    st[pOut] := st[pOut].(word1 := Pos(t.z));
    st[pOut] := st[pOut].(word2 := Pos(t.z + t.n));
  }

  /** spanBinaryExpr (parse.c:150-158). */
  method SpanBinaryExpr(st: array<Minor>, op: Tk, pLeft: nat, pRight: nat, ghost left: ExprSpan, ghost right: ExprSpan)
    requires pLeft < pRight < st.Length && st[pLeft].HoldsSpan(left) && st[pRight].HoldsSpan(right)
    modifies st
    ensures st[pLeft].HoldsSpan(SqlExpr.SpanBinaryExpr(op, left, right))
    ensures st[pRight] == old(st[pRight]) && Below(st, pLeft)
  {
    st[pLeft] := st[pLeft].(word0 := Tree(PExpr(op, Some(st[pLeft].word0.e), Some(st[pRight].word0.e))));
    st[pLeft] := st[pLeft].(word2 := st[pRight].word2);
  }

  /** exprNot (parse.c:163-167). */
  method ExprNot(st: array<Minor>, doNot: bool, pSpan: nat, ghost span: ExprSpan)
    requires pSpan < st.Length && st[pSpan].HoldsSpan(span)
    modifies st
    ensures st[pSpan].HoldsSpan(SqlExpr.ExprNot(doNot, span))
    ensures forall k | 0 <= k < st.Length && k != pSpan :: st[k] == old(st[k])
  {
    if doNot {
      st[pSpan] := st[pSpan].(word0 := Tree(PExpr(NOT, Some(st[pSpan].word0.e), None)));
    }
  }

  /** spanUnaryPostfix (parse.c:172-180). */
  method SpanUnaryPostfix(st: array<Minor>, op: Tk, pOperand: nat, pPostOp: nat, ghost operand: ExprSpan,
      ghost postOp: Token)
    requires pOperand < pPostOp < st.Length && st[pOperand].HoldsSpan(operand) && st[pPostOp].HoldsToken(postOp)
    modifies st
    ensures st[pOperand].HoldsSpan(SqlExpr.SpanUnaryPostfix(op, operand, postOp)) && Below(st, pOperand)
  {
    st[pOperand] := st[pOperand].(word0 := Tree(PExpr(op, Some(st[pOperand].word0.e), None)));
    st[pOperand] := st[pOperand].(word2 := Pos(st[pPostOp].word0.tok.z + st[pPostOp].word1.n));
  }

  /** spanUnaryPrefix (parse.c:197-207): the start is read before the tree overwrites the operator it is read from. */
  method SpanUnaryPrefix(st: array<Minor>, pOut: nat, op: Tk, pOperand: nat, pPreOp: nat,
                         ghost operand: ExprSpan, ghost preOp: Token)
    requires pOut < pOperand < st.Length && pPreOp < st.Length
    requires st[pOperand].HoldsSpan(operand) && st[pPreOp].HoldsToken(preOp)
    modifies st
    ensures st[pOut].HoldsSpan(SqlExpr.SpanUnaryPrefix(op, operand, preOp)) && Below(st, pOut)
  {
    st[pOut] := st[pOut].(word1 := Pos(st[pPreOp].word0.tok.z));
    st[pOut] := st[pOut].(word0 := Tree(PExpr(op, Some(st[pOperand].word0.e), None)));
    st[pOut] := st[pOut].(word2 := st[pOperand].word2);
  }

  /** binaryToUnaryIfNull (parse.c:185-192): pA is the entry whose tree was just built, pY that of its right operand. */
  method BinaryToUnaryIfNull(st: array<Minor>, pY: nat, pA: nat, op: Tk, ghost right: ExprSpan, ghost span: ExprSpan)
    requires pA < pY < st.Length && st[pY].HoldsSpan(right) && st[pA].HoldsSpan(span) && span.pExpr.Node?
    modifies st
    ensures st[pA].HoldsSpan(span.(pExpr := SqlExpr.BinaryToUnaryIfNull(right.pExpr, span.pExpr, op))) && Below(st, pA)
  {
    var y := st[pY].word0.e;
    if !y.Const? && y.op == NULL_ {
      st[pA] := st[pA].(word0 := Tree(st[pA].word0.e.(op := op, right := None)));
    }
  }

  /** expr ::= LP expr RP (parse.c:3136-3138). */
  method ReduceParen(st: array<Minor>, base: nat, ghost c: Cst)
    requires c.Paren? && base + 2 < st.Length
    requires st[base].HoldsToken(c.lp) && st[base + 1].HoldsSpan(Build(c.e)) && st[base + 2].HoldsToken(c.rp)
    modifies st
    ensures st[base].HoldsSpan(Build(c)) && Below(st, base)
  {
    SpanSet(st, base, base, base + 2, c.lp, c.rp);
    st[base] := st[base].(word0 := st[base + 1].word0);
  }

  /** expr ::= nm DOT nm (parse.c:3154-3161): both names become leaves before the first is overwritten. */
  method ReduceDotted(st: array<Minor>, base: nat, ghost c: Cst)
    requires c.Dotted? && base + 2 < st.Length && st[base].HoldsToken(c.a) && st[base + 2].HoldsToken(c.b)
    modifies st
    ensures st[base].HoldsSpan(Build(c)) && Below(st, base)
  {
    var temp1, temp2 := Leaf(ID, st[base].word0.tok), Leaf(ID, st[base + 2].word0.tok);
    SpanSet(st, base, base, base + 2, c.a, c.b);
    st[base] := st[base].(word0 := Tree(PExpr(DOT, Some(temp1), Some(temp2))));
  }

  /** expr ::= nm DOT nm DOT nm (parse.c:3164-3173). */
  method ReduceDotted3(st: array<Minor>, base: nat, ghost c: Cst)
    requires c.Dotted3? && base + 4 < st.Length
    requires st[base].HoldsToken(c.a) && st[base + 2].HoldsToken(c.b) && st[base + 4].HoldsToken(c.c)
    modifies st
    ensures st[base].HoldsSpan(Build(c)) && Below(st, base)
  {
    var temp1, temp2, temp3 := Leaf(ID, st[base].word0.tok), Leaf(ID, st[base + 2].word0.tok),
        Leaf(ID, st[base + 4].word0.tok);
    var temp4 := PExpr(DOT, Some(temp2), Some(temp3));
    SpanSet(st, base, base, base + 4, c.a, c.c);
    st[base] := st[base].(word0 := Tree(PExpr(DOT, Some(temp1), Some(temp4))));
  }

  /** expr ::= expr COLLATE ID|STRING (parse.c:3212-3217). */
  method ReduceCollate(st: array<Minor>, base: nat, ghost c: Cst)
    requires c.Collate? && base + 2 < st.Length && st[base].HoldsSpan(Build(c.e)) && st[base + 2].HoldsToken(c.coll)
    modifies st
    ensures st[base].HoldsSpan(Build(c)) && Below(st, base)
  {
    var coll := st[base + 2];
    st[base] := st[base].(word0 := Tree(Node(COLLATE, Some(st[base].word0.e), None, [coll.word0.tok], [])));
    st[base] := st[base].(word2 := Pos(coll.word0.tok.z + coll.word1.n));
  }

  /** expr ::= CAST LP expr AS typetoken RP (parse.c:3220-3225). */
  method ReduceCast(st: array<Minor>, base: nat, ghost c: Cst)
    requires c.Cast? && base + 5 < st.Length && st[base].HoldsToken(c.kw) && st[base + 2].HoldsSpan(Build(c.e))
    requires st[base + 4].word0 == Run(c.typetoken) && st[base + 5].HoldsToken(c.rp)
    modifies st
    ensures st[base].HoldsSpan(Build(c)) && Below(st, base)
  {
    SpanSet(st, base, base, base + 5, c.kw, c.rp);
    st[base] := st[base].(word0 := Tree(Node(CAST, Some(st[base + 2].word0.e), None, st[base + 4].word0.toks, [])));
  }

  /**
   expr ::= ID|INDEXED LP distinct exprlist RP (parse.c:3228-3241): built aside, then copied over the name. Too many
   arguments are reported, and DISTINCT is kept as a flag.
   */
  method ReduceCall(st: array<Minor>, base: nat, limit: nat, ghost c: Cst) returns (error: bool)
    requires c.Call? && base + 4 < st.Length
    requires st[base].HoldsToken(c.name) && st[base + 3].HoldsList(BuildAll(c.args)) && st[base + 4].HoldsToken(c.rp)
    requires st[base + 2].word0 == Flags(DistinctFlags(c.distinct))
    modifies st
    ensures st[base].HoldsSpan(Build(c)) && Below(st, base)
    ensures error == (|c.args| > limit)
  {
    var pList, name, rp := st[base + 3].word0, st[base], st[base + 4];
    error := !pList.Null? && |pList.es| > limit;
    var yylhsminor := Minor(Tree(ExprFunction(ListOf(pList), name.word0.tok)), Null, Null);
    yylhsminor := yylhsminor.(word1 := Pos(name.word0.tok.z), word2 := Pos(rp.word0.tok.z + rp.word1.n));
    if st[base + 2].word0.n == SF_Distinct {
      yylhsminor := yylhsminor.(word0 := Tree(SetDistinct(yylhsminor.word0.e)));
    }
    st[base] := yylhsminor;
  }

  /** expr ::= ID|INDEXED LP STAR RP (parse.c:3243-3250). */
  method ReduceCallStar(st: array<Minor>, base: nat, ghost c: Cst)
    requires c.CallStar? && base + 3 < st.Length && st[base].HoldsToken(c.name) && st[base + 3].HoldsToken(c.rp)
    modifies st
    ensures st[base].HoldsSpan(Build(c)) && Below(st, base)
  {
    var name, rp := st[base], st[base + 3];
    var yylhsminor := Minor(Tree(ExprFunction([], name.word0.tok)), Null, Null);
    yylhsminor := yylhsminor.(word1 := Pos(name.word0.tok.z), word2 := Pos(rp.word0.tok.z + rp.word1.n));
    st[base] := yylhsminor;
  }

  /** term ::= CTIME_KW (parse.c:3252-3259): the one token is first and last, so the result is built aside. */
  method ReduceCTime(st: array<Minor>, base: nat, ghost c: Cst)
    requires c.CTime? && base < st.Length && st[base].HoldsToken(c.t)
    modifies st
    ensures st[base].HoldsSpan(Build(c)) && Below(st, base)
  {
    var t := st[base];
    var yylhsminor := Minor(Tree(ExprFunction([], t.word0.tok)), Null, Null);
    yylhsminor := yylhsminor.(word1 := Pos(t.word0.tok.z), word2 := Pos(t.word0.tok.z + t.word1.n));
    st[base] := yylhsminor;
  }

  /** expr ::= LP nexprlist COMMA expr RP (parse.c:3261-3274). */
  method ReduceVector(st: array<Minor>, base: nat, ghost c: Cst)
    requires c.Vector? && 2 <= |c.args| && base + 4 < st.Length && st[base].HoldsToken(c.lp)
    requires st[base + 1].HoldsList(BuildAll(c.args[..|c.args| - 1]))
    requires st[base + 3].HoldsSpan(Build(c.args[|c.args| - 1])) && st[base + 4].HoldsToken(c.rp)
    modifies st
    ensures st[base].HoldsSpan(Build(c)) && Below(st, base)
  {
    var lp, rp := st[base], st[base + 4];
    var pList := ListOf(st[base + 1].word0) + [st[base + 3].word0.e];
    var yylhsminor := Minor(Tree(Node(VECTOR, None, None, [], pList)), Null, Null);
    yylhsminor := yylhsminor.(word1 := Pos(lp.word0.tok.z), word2 := Pos(rp.word0.tok.z + rp.word1.n));
    st[base] := yylhsminor;
  }

  /** expr ::= LP select RP (parse.c:3447-3453). */
  method ReduceSubselect(st: array<Minor>, base: nat, ghost c: Cst)
    requires c.Subselect? && base + 2 < st.Length
    requires st[base].HoldsToken(c.lp) && st[base + 1].word0 == Run(c.select) && st[base + 2].HoldsToken(c.rp)
    modifies st
    ensures st[base].HoldsSpan(Build(c)) && Below(st, base)
  {
    SpanSet(st, base, base, base + 2, c.lp, c.rp);
    st[base] := st[base].(word0 := Tree(Node(SELECT, None, None, st[base + 1].word0.toks, [])));
  }

  /** expr ::= EXISTS LP select RP (parse.c:3479-3486). */
  method ReduceExists(st: array<Minor>, base: nat, ghost c: Cst)
    requires c.Exists? && base + 3 < st.Length
    requires st[base].HoldsToken(c.kw) && st[base + 2].word0 == Run(c.select) && st[base + 3].HoldsToken(c.rp)
    modifies st
    ensures st[base].HoldsSpan(Build(c)) && Below(st, base)
  {
    SpanSet(st, base, base, base + 3, c.kw, c.rp);
    st[base] := st[base].(word0 := Tree(Node(EXISTS, None, None, st[base + 2].word0.toks, [])));
  }

  /** likeop ::= NOT LIKE_KW|MATCH (parse.c:3292-3295): the flag is the top bit of a length below it. */
  method ReduceNotLikeOp(st: array<Minor>, base: nat, ghost tok: Token)
    requires base + 1 < st.Length && st[base + 1].HoldsToken(tok)
    modifies st
    ensures st[base].HoldsLikeOp(ReduceLikeOp(tok, true)) && Below(st, base)
  {
    st[base] := st[base + 1];
    st[base] := st[base].(word1 := Len(st[base].word1.n + 0x8000_0000));
  }

  /** expr ::= expr likeop expr (parse.c:3297-3310). */
  method ReduceLike(st: array<Minor>, base: nat, ghost c: Cst)
    requires c.Like? && base + 2 < st.Length && st[base].HoldsSpan(Build(c.l))
    requires st[base + 1].HoldsLikeOp(ReduceLikeOp(c.kw, c.not_ != [])) && st[base + 2].HoldsSpan(Build(c.r))
    modifies st
    ensures st[base].HoldsSpan(Build(c)) && Below(st, base)
  {
    var bNot := st[base + 1].word1.n >= 0x8000_0000;
    st[base + 1] := st[base + 1].(word1 := Len(st[base + 1].word1.n % 0x8000_0000));
    var pList := [st[base + 2].word0.e, st[base].word0.e];
    var op := st[base + 1].word0.tok.(n := st[base + 1].word1.n);
    st[base] := st[base].(word0 := Tree(ExprFunction(pList, op)));
    ExprNot(st, bNot, base, Build(c.l).(pExpr := ExprFunction([Build(c.r).pExpr, Build(c.l).pExpr], c.kw)));
    st[base] := st[base].(word2 := st[base + 2].word2);
  }

  /** expr ::= expr likeop expr ESCAPE expr (parse.c:3312-3326). */
  method ReduceLikeEscape(st: array<Minor>, base: nat, ghost c: Cst)
    requires c.LikeEscape? && base + 4 < st.Length && st[base].HoldsSpan(Build(c.l))
    requires st[base + 1].HoldsLikeOp(ReduceLikeOp(c.kw, c.not_ != []))
    requires st[base + 2].HoldsSpan(Build(c.r)) && st[base + 4].HoldsSpan(Build(c.x))
    modifies st
    ensures st[base].HoldsSpan(Build(c)) && Below(st, base)
  {
    var bNot := st[base + 1].word1.n >= 0x8000_0000;
    st[base + 1] := st[base + 1].(word1 := Len(st[base + 1].word1.n % 0x8000_0000));
    var pList := [st[base + 2].word0.e, st[base].word0.e, st[base + 4].word0.e];
    var op := st[base + 1].word0.tok.(n := st[base + 1].word1.n);
    st[base] := st[base].(word0 := Tree(ExprFunction(pList, op)));
    ghost var call := ExprFunction([Build(c.r).pExpr, Build(c.l).pExpr, Build(c.x).pExpr], c.kw);
    ExprNot(st, bNot, base, Build(c.l).(pExpr := call));
    st[base] := st[base].(word2 := st[base + 4].word2);
  }

  /** expr ::= expr IS expr (parse.c:3338-3344). */
  method ReduceIs(st: array<Minor>, base: nat, ghost c: Cst)
    requires c.Is? && base + 2 < st.Length && st[base].HoldsSpan(Build(c.l)) && st[base + 2].HoldsSpan(Build(c.r))
    modifies st
    ensures st[base].HoldsSpan(Build(c)) && Below(st, base)
  {
    SpanBinaryExpr(st, IS, base, base + 2, Build(c.l), Build(c.r));
    BinaryToUnaryIfNull(st, base + 2, base, ISNULL, Build(c.r), SqlExpr.SpanBinaryExpr(IS, Build(c.l), Build(c.r)));
  }

  /** expr ::= expr IS NOT expr (parse.c:3346-3352). */
  method ReduceIsNot(st: array<Minor>, base: nat, ghost c: Cst)
    requires c.IsNot? && base + 3 < st.Length && st[base].HoldsSpan(Build(c.l)) && st[base + 3].HoldsSpan(Build(c.r))
    modifies st
    ensures st[base].HoldsSpan(Build(c)) && Below(st, base)
  {
    SpanBinaryExpr(st, ISNOT, base, base + 3, Build(c.l), Build(c.r));
    BinaryToUnaryIfNull(st, base + 3, base, NOTNULL, Build(c.r), SqlExpr.SpanBinaryExpr(ISNOT, Build(c.l), Build(c.r)));
  }

  /** expr ::= expr between_op expr AND expr (parse.c:3376-3390). */
  method ReduceBetween(st: array<Minor>, base: nat, ghost c: Cst)
    requires c.Between? && base + 4 < st.Length && st[base].HoldsSpan(Build(c.e))
    requires st[base + 1].word0 == Flag(c.not_ != [])
    requires st[base + 2].HoldsSpan(Build(c.lo)) && st[base + 4].HoldsSpan(Build(c.hi))
    modifies st
    ensures st[base].HoldsSpan(Build(c)) && Below(st, base)
  {
    var pList := [st[base + 2].word0.e, st[base + 4].word0.e];
    st[base] := st[base].(word0 := Tree(Node(BETWEEN, Some(st[base].word0.e), None, [], pList)));
    ghost var node := Node(BETWEEN, Some(Build(c.e).pExpr), None, [], [Build(c.lo).pExpr, Build(c.hi).pExpr]);
    ExprNot(st, st[base + 1].word0.b, base, Build(c.e).(pExpr := node));
    st[base] := st[base].(word2 := st[base + 4].word2);
  }

  /** expr ::= expr in_op LP exprlist RP (parse.c:3392-3444). */
  method ReduceInList(st: array<Minor>, base: nat, ghost c: Cst)
    requires c.InList? && base + 4 < st.Length && st[base].HoldsSpan(Build(c.e))
    requires st[base + 1].word0 == Flag(c.not_ != [])
    requires st[base + 3].HoldsList(BuildAll(c.args)) && st[base + 4].HoldsToken(c.rp)
    modifies st
    ensures st[base].HoldsSpan(Build(c)) && Below(st, base)
  {
    var doNot, pList := st[base + 1].word0.b, st[base + 3].word0;
    ghost var x := Build(c.e);
    if pList.Null? {
      st[base] := st[base].(word0 := Tree(Const(if doNot then 1 else 0)));
    } else if |pList.es| == 1 {
      st[base] := st[base].(word0 := Tree(PExpr(if doNot then NE else EQ, Some(st[base].word0.e), Some(pList.es[0]))));
    } else {
      st[base] := st[base].(word0 := Tree(Node(IN, Some(st[base].word0.e), None, [], pList.es)));
      ExprNot(st, doNot, base, x.(pExpr := Node(IN, Some(x.pExpr), None, [], pList.es)));
    }
    st[base] := st[base].(word2 := Pos(st[base + 4].word0.tok.z + st[base + 4].word1.n));
  }

  /** expr ::= expr in_op LP select RP (parse.c:3456-3463). */
  method ReduceInSelect(st: array<Minor>, base: nat, ghost c: Cst)
    requires c.InSelect? && base + 4 < st.Length && st[base].HoldsSpan(Build(c.e))
    requires st[base + 1].word0 == Flag(c.not_ != [])
    requires st[base + 3].word0 == Run(c.select) && st[base + 4].HoldsToken(c.rp)
    modifies st
    ensures st[base].HoldsSpan(Build(c)) && Below(st, base)
  {
    var select := st[base + 3].word0.toks;
    st[base] := st[base].(word0 := Tree(Node(IN, Some(st[base].word0.e), None, select, [])));
    ExprNot(st, st[base + 1].word0.b, base, Build(c.e).(pExpr := Node(IN, Some(Build(c.e).pExpr), None, select, [])));
    st[base] := st[base].(word2 := Pos(st[base + 4].word0.tok.z + st[base + 4].word1.n));
  }

  /** expr ::= expr in_op nm dbnm paren_exprlist (parse.c:3466-3476); dbnm is the name after the dot, or NULL. */
  method ReduceInTable(st: array<Minor>, base: nat, ghost c: Cst)
    requires c.InTable? && base + 4 < st.Length && st[base].HoldsSpan(Build(c.e)) && st[base + 2].HoldsToken(c.nm)
    requires st[base + 1].word0 == Flag(c.not_ != [])
    requires if c.dbnm == [] then st[base + 3].word0 == Null else st[base + 3].HoldsToken(c.dbnm[|c.dbnm| - 1])
    requires st[base + 4].HoldsList(if c.paren.ParenList? then BuildAll(c.paren.args) else [])
    modifies st
    ensures st[base].HoldsSpan(Build(c)) && Below(st, base)
  {
    var nm, dbnm, pList := st[base + 2], st[base + 3], ListOf(st[base + 4].word0);
    var pSrc := if dbnm.word0.Null? then [nm.word0.tok] else [nm.word0.tok, dbnm.word0.tok];
    st[base] := st[base].(word0 := Tree(Node(IN, Some(st[base].word0.e), None, pSrc, pList)));
    ExprNot(st, st[base + 1].word0.b, base, Build(c.e).(pExpr := Node(IN, Some(Build(c.e).pExpr), None, pSrc, pList)));
    var last := if dbnm.word0.Null? then nm else dbnm;
    st[base] := st[base].(word2 := Pos(last.word0.tok.z + last.word1.n));
  }

  /** expr ::= CASE case_operand case_exprlist case_else END (parse.c:3489-3502). */
  method ReduceCase(st: array<Minor>, base: nat, ghost c: Cst)
    requires c.Case? && c.whens != [] && base + 4 < st.Length && st[base].HoldsToken(c.kw)
    requires st[base + 1].HoldsTree(if c.operand.Some? then Some(Build(c.operand.value).pExpr) else None)
    requires st[base + 2].HoldsList(BuildWhens(c.whens))
    requires st[base + 3].HoldsTree(if c.else_.Else? then Some(Build(c.else_.e).pExpr) else None)
    requires st[base + 4].HoldsToken(c.end)
    modifies st
    ensures st[base].HoldsSpan(Build(c)) && Below(st, base)
  {
    SpanSet(st, base, base, base + 4, c.kw, c.end);
    var pList, pElse := ListOf(st[base + 2].word0), TreeOf(st[base + 3].word0);
    assert BuildWhens(c.whens) + [] == BuildWhens(c.whens);
    pList := if pElse.Some? then pList + [pElse.value] else pList;
    st[base] := st[base].(word0 := Tree(Node(CASE_, TreeOf(st[base + 1].word0), None, [], pList)));
  }
}
