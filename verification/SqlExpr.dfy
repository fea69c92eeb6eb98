/**
 The reduce actions for expressions: what tree and what source span they give each parse, and why the
 rewriting they do on the way keeps the three-valued meaning.
 */
module SqlExpr {
  import opened Options

  datatype Tk =
    | NULL_ | INTEGER | FLOAT | BLOB | STRING | ID | VARIABLE | CTIME
    | AND | OR | NOT | IS | ISNOT | ISNULL | NOTNULL | NE | EQ | IN | BETWEEN
    | PLUS | MINUS | UPLUS | UMINUS | BITNOT | OtherBinary(code: nat)
    | DOT | COLLATE | CAST | CASE_ | FUNCTION | FUNCTION_DISTINCT | VECTOR | SELECT | EXISTS | DISTINCT | ALL

  /** The length of a token; SQL text is limited to a billion bytes (sqliteLimit.h:55-57). */
  type Length = n: nat | n < 0x8000_0000

  /** A token: its kind, where its text starts, how long it is, and the text. */
  datatype Token = Token(kind: Tk, z: int, n: Length, text: string)

  function End(t: Token): int { t.z + t.n }

  /** struct Expr, as far as the actions of this module fill it; FUNCTION_DISTINCT is TK_FUNCTION with EP_Distinct. */
  datatype Expr =
    | Leaf(op: Tk, tok: Token)
    | Const(i: int)
    | Node(op: Tk, left: Option<Expr>, right: Option<Expr>, toks: seq<Token>, list: seq<Expr>)

  /** sqlite3PExpr and sqlite3ExprFunction, with successful allocation. */
  function PExpr(op: Tk, left: Option<Expr>, right: Option<Expr>): Expr
  {
    Node(op, left, right, [], [])
  }

  function ExprFunction(args: seq<Expr>, name: Token): Expr
  {
    Node(FUNCTION, None, None, [name], args)
  }

  /** DISTINCT sets a flag of the call, ALL is the default. */
  function CallOp(distinct: seq<Token>): Tk
  {
    if distinct != [] && distinct[0].kind == DISTINCT then FUNCTION_DISTINCT else FUNCTION
  }

  /** struct ExprSpan: an expression and the text it was written as. */
  datatype ExprSpan = ExprSpan(pExpr: Expr, zStart: int, zEnd: int)

  /** spanSet (parse.c:112-115). */
  function SpanSet(e: Expr, start: Token, end: Token): ExprSpan
  {
    ExprSpan(e, start.z, End(end))
  }

  /** spanExpr (parse.c:121-144). */
  function SpanExpr(op: Tk, t: Token): ExprSpan
  {
    SpanSet(Leaf(op, t), t, t)
  }

  /** spanBinaryExpr (parse.c:150-158). */
  function SpanBinaryExpr(op: Tk, left: ExprSpan, right: ExprSpan): ExprSpan
  {
    left.(pExpr := PExpr(op, Some(left.pExpr), Some(right.pExpr)), zEnd := right.zEnd)
  }

  /** exprNot (parse.c:163-167). */
  function ExprNot(doNot: bool, span: ExprSpan): ExprSpan
  {
    if doNot then span.(pExpr := PExpr(NOT, Some(span.pExpr), None)) else span
  }

  /** spanUnaryPostfix (parse.c:172-180). */
  function SpanUnaryPostfix(op: Tk, operand: ExprSpan, postOp: Token): ExprSpan
  {
    operand.(pExpr := PExpr(op, Some(operand.pExpr), None), zEnd := End(postOp))
  }

  /** binaryToUnaryIfNull (parse.c:185-192): y is the right operand of the expression a just built. */
  function BinaryToUnaryIfNull(y: Expr, a: Expr, op: Tk): Expr
    requires a.Node?
  {
    if !y.Const? && y.op == NULL_ then a.(op := op, right := None) else a
  }

  /** spanUnaryPrefix (parse.c:197-207). */
  function SpanUnaryPrefix(op: Tk, operand: ExprSpan, preOp: Token): ExprSpan
  {
    ExprSpan(PExpr(op, Some(operand.pExpr), None), preOp.z, operand.zEnd)
  }

  /** The value of likeop: the operator token, its length with the top bit set for NOT (parse.c:3288-3296). */
  datatype LikeOp = LikeOp(tok: Token, n: nat)

  function ReduceLikeOp(tok: Token, doNot: bool): LikeOp
  {
    LikeOp(tok, if doNot then tok.n + 0x8000_0000 else tok.n)
  }

  /** What the LIKE rules read back: the flag, and the token with its own length again (parse.c:3300-3301). */
  function IsNotLike(op: LikeOp): bool { op.n >= 0x8000_0000 }

  function LikeToken(op: LikeOp): Token { op.tok.(n := op.n % 0x8000_0000) }

  /**
   A parse of `expr` or `term`, rule by rule; tokens that an action ignores are kept for the span. A SELECT
   inside an expression is a run of tokens.
   */
  datatype Cst =
    | Literal(t: Token)
    | Name(t: Token)
    | CTime(t: Token)
    | Dotted(a: Token, dot: Token, b: Token)
    | Dotted3(a: Token, dot: Token, b: Token, dot2: Token, c: Token)
    | Paren(lp: Token, e: Cst, rp: Token)
    | Vector(lp: Token, args: seq<Cst>, commas: seq<Token>, rp: Token)
    | Subselect(lp: Token, select: seq<Token>, rp: Token)
    | Exists(kw: Token, lp: Token, select: seq<Token>, rp: Token)
    | Collate(e: Cst, kw: Token, coll: Token)
    | Cast(kw: Token, lp: Token, e: Cst, as_: Token, typetoken: seq<Token>, rp: Token)
    | Call(name: Token, lp: Token, distinct: seq<Token>, args: seq<Cst>, commas: seq<Token>, rp: Token)
    | CallStar(name: Token, lp: Token, star: Token, rp: Token)
    | Binary(l: Cst, op: Token, r: Cst)
    | Like(l: Cst, not_: seq<Token>, kw: Token, r: Cst)
    | LikeEscape(l: Cst, not_: seq<Token>, kw: Token, r: Cst, esc: Token, x: Cst)
    | Postfix(e: Cst, op: Token)
    | NotNull(e: Cst, not1: Token, null_: Token)
    | Is(l: Cst, kw: Token, r: Cst)
    | IsNot(l: Cst, kw: Token, not1: Token, r: Cst)
    | Prefix(op: Token, e: Cst)
    | Between(e: Cst, not_: seq<Token>, kw: Token, lo: Cst, and_: Token, hi: Cst)
    | InList(e: Cst, not_: seq<Token>, kw: Token, lp: Token, args: seq<Cst>, commas: seq<Token>, rp: Token)
    | InSelect(e: Cst, not_: seq<Token>, kw: Token, lp: Token, select: seq<Token>, rp: Token)
    | InTable(e: Cst, not_: seq<Token>, kw: Token, nm: Token, dbnm: seq<Token>, paren: ParenList)
    | Case(kw: Token, operand: Option<Cst>, whens: seq<When>, else_: Else, end: Token)

  /** WHEN cond THEN result. */
  datatype When = When(when_: Token, cond: Cst, then_: Token, result: Cst)

  /** paren_exprlist and case_else. */
  datatype ParenList = NoList | ParenList(lp: Token, args: seq<Cst>, commas: seq<Token>, rp: Token)

  datatype Else = NoElse | Else(kw: Token, e: Cst)

  /** The shapes the grammar gives the optional tokens: NOT or nothing, and `dbnm` empty or DOT nm. */
  predicate NotOK(not_: seq<Token>) { |not_| <= 1 }

  /** distinct: DISTINCT, ALL or nothing. */
  predicate DistinctOK(distinct: seq<Token>)
  {
    distinct == [] || (|distinct| == 1 && distinct[0].kind in {DISTINCT, ALL})
  }

  /** One comma between neighbours. */
  predicate CommasOK(args: seq<Cst>, commas: seq<Token>)
  {
    |commas| == if args == [] then 0 else |args| - 1
  }

  predicate WF(c: Cst)
  {
    match c
    case Paren(_, e, _) => WF(e)
    case Vector(_, args, commas, _) =>
      2 <= |args| && CommasOK(args, commas) && forall k :: 0 <= k < |args| ==> WF(args[k])
    case Subselect(_, select, _) => select != []
    case Exists(_, _, select, _) => select != []
    case InSelect(e, not_, _, _, select, _) => WF(e) && NotOK(not_) && select != []
    case Collate(e, _, _) => WF(e)
    case Cast(_, _, e, _, _, _) => WF(e)
    case Call(_, _, distinct, args, commas, _) =>
      && DistinctOK(distinct) && CommasOK(args, commas)
      && forall k :: 0 <= k < |args| ==> WF(args[k])
    case Binary(l, op, r) => WF(l) && WF(r) && (op.kind in {AND, OR, EQ, NE, PLUS, MINUS} || op.kind.OtherBinary?)
    case Like(l, not_, _, r) => WF(l) && WF(r) && NotOK(not_)
    case LikeEscape(l, not_, _, r, _, x) => WF(l) && WF(r) && WF(x) && NotOK(not_)
    case Postfix(e, op) => WF(e) && op.kind in {ISNULL, NOTNULL}
    case NotNull(e, _, _) => WF(e)
    case Is(l, _, r) => WF(l) && WF(r)
    case IsNot(l, _, _, r) => WF(l) && WF(r)
    case Prefix(op, e) => WF(e) && op.kind in {NOT, BITNOT, MINUS, PLUS}
    case Between(e, not_, _, lo, _, hi) => WF(e) && WF(lo) && WF(hi) && NotOK(not_)
    case InList(e, not_, _, _, args, commas, _) =>
      WF(e) && NotOK(not_) && CommasOK(args, commas) && forall k :: 0 <= k < |args| ==> WF(args[k])
    case InTable(e, not_, _, _, dbnm, paren) =>
      && WF(e) && NotOK(not_) && |dbnm| in {0, 2}
      && (paren.ParenList? ==> CommasOK(paren.args, paren.commas))
      && (paren.ParenList? ==> forall k :: 0 <= k < |paren.args| ==> WF(paren.args[k]))
    case Case(_, operand, whens, else_, _) =>
      && (operand.Some? ==> WF(operand.value)) && whens != [] && (else_.Else? ==> WF(else_.e))
      && forall k :: 0 <= k < |whens| ==> WF(whens[k].cond) && WF(whens[k].result)
    case Literal(t) => t.kind in {NULL_, INTEGER, FLOAT, BLOB, STRING, VARIABLE}
    case _ => true
  }

  /** The signs become operators of their own (parse.c:3354-3368). */
  function PrefixOp(k: Tk): Tk
  {
    match k
    case MINUS => UMINUS
    case PLUS => UPLUS
    case _ => k
  }

  /** The span and tree each rule's action produces, from those of its operands (parse.c:3136-3528). */
  function Build(c: Cst): ExprSpan
    decreases c
  {
    match c
    case Literal(t) => SpanExpr(t.kind, t)
    case Name(t) => SpanExpr(ID, t)
    case CTime(t) => SpanSet(ExprFunction([], t), t, t)
    case Dotted(a, _, b) => SpanSet(PExpr(DOT, Some(Leaf(ID, a)), Some(Leaf(ID, b))), a, b)
    case Dotted3(a, _, b, _, c) =>
      var temp4 := PExpr(DOT, Some(Leaf(ID, b)), Some(Leaf(ID, c)));
      SpanSet(PExpr(DOT, Some(Leaf(ID, a)), Some(temp4)), a, c)
    case Paren(lp, e, rp) => SpanSet(Build(e).pExpr, lp, rp)
    case Vector(lp, args, _, rp) => SpanSet(Node(VECTOR, None, None, [], BuildAll(args)), lp, rp)
    case Subselect(lp, select, rp) => SpanSet(Node(SELECT, None, None, select, []), lp, rp)
    case Exists(kw, _, select, rp) => SpanSet(Node(EXISTS, None, None, select, []), kw, rp)
    case Collate(e, _, coll) =>
      var span := Build(e);
      span.(pExpr := Node(COLLATE, Some(span.pExpr), None, [coll], []), zEnd := End(coll))
    case Cast(kw, _, e, _, typetoken, rp) =>
      SpanSet(Node(CAST, Some(Build(e).pExpr), None, typetoken, []), kw, rp)
    case Call(name, _, distinct, args, _, rp) =>
      SpanSet(ExprFunction(BuildAll(args), name).(op := CallOp(distinct)), name, rp)
    case CallStar(name, _, _, rp) => SpanSet(ExprFunction([], name), name, rp)
    case Binary(l, op, r) => SpanBinaryExpr(op.kind, Build(l), Build(r))
    case Like(l, not_, kw, r) =>
      var op := ReduceLikeOp(kw, not_ != []);
      var call := ExprFunction([Build(r).pExpr, Build(l).pExpr], LikeToken(op));
      ExprNot(IsNotLike(op), Build(l).(pExpr := call)).(zEnd := Build(r).zEnd)
    case LikeEscape(l, not_, kw, r, _, x) =>
      var op := ReduceLikeOp(kw, not_ != []);
      var call := ExprFunction([Build(r).pExpr, Build(l).pExpr, Build(x).pExpr], LikeToken(op));
      ExprNot(IsNotLike(op), Build(l).(pExpr := call)).(zEnd := Build(x).zEnd)
    case Postfix(e, op) => SpanUnaryPostfix(op.kind, Build(e), op)
    case NotNull(e, _, null_) => SpanUnaryPostfix(NOTNULL, Build(e), null_)
    case Is(l, _, r) =>
      var span := SpanBinaryExpr(IS, Build(l), Build(r));
      span.(pExpr := BinaryToUnaryIfNull(Build(r).pExpr, span.pExpr, ISNULL))
    case IsNot(l, _, _, r) =>
      var span := SpanBinaryExpr(ISNOT, Build(l), Build(r));
      span.(pExpr := BinaryToUnaryIfNull(Build(r).pExpr, span.pExpr, NOTNULL))
    case Prefix(op, e) => SpanUnaryPrefix(PrefixOp(op.kind), Build(e), op)
    case Between(e, not_, _, lo, _, hi) =>
      var node := Node(BETWEEN, Some(Build(e).pExpr), None, [], [Build(lo).pExpr, Build(hi).pExpr]);
      ExprNot(not_ != [], Build(e).(pExpr := node)).(zEnd := Build(hi).zEnd)
    case InList(e, not_, _, _, args, _, rp) => BuildIn(Build(e), not_ != [], BuildAll(args)).(zEnd := End(rp))
    case InSelect(e, not_, _, _, select, rp) =>
      var node := Node(IN, Some(Build(e).pExpr), None, select, []);
      ExprNot(not_ != [], Build(e).(pExpr := node)).(zEnd := End(rp))
    case InTable(e, not_, _, nm, dbnm, paren) =>
      var args := if paren.ParenList? then BuildAll(paren.args) else [];
      var node := Node(IN, Some(Build(e).pExpr), None, TableName(nm, dbnm), args);
      var span := ExprNot(not_ != [], Build(e).(pExpr := node));
      span.(zEnd := if dbnm != [] then End(dbnm[|dbnm| - 1]) else End(nm))
    case Case(kw, operand, whens, else_, end) =>
      var base := if operand.Some? then Some(Build(operand.value).pExpr) else None;
      var list := BuildWhens(whens) + if else_.Else? then [Build(else_.e).pExpr] else [];
      SpanSet(Node(CASE_, base, None, [], list), kw, end)
  }

  /** What sqlite3SrcListAppend is given: the name, and the one after the dot if there is one. */
  function TableName(nm: Token, dbnm: seq<Token>): seq<Token>
  {
    if dbnm == [] then [nm] else [nm, dbnm[|dbnm| - 1]]
  }

  /** x IN (list): a constant, an equality, or a list (parse.c:3394-3444). */
  function BuildIn(x: ExprSpan, doNot: bool, list: seq<Expr>): ExprSpan
  {
    if list == [] then x.(pExpr := Const(if doNot then 1 else 0))
    else if |list| == 1 then x.(pExpr := PExpr(if doNot then NE else EQ, Some(x.pExpr), Some(list[0])))
    else ExprNot(doNot, x.(pExpr := Node(IN, Some(x.pExpr), None, [], list)))
  }

  /** nexprlist, left to right. */
  function BuildAll(args: seq<Cst>): (es: seq<Expr>)
    ensures |es| == |args|
    decreases args
  {
    if args == [] then [] else BuildAll(args[..|args| - 1]) + [Build(args[|args| - 1]).pExpr]
  }

  /** case_exprlist: conditions and results alternate. */
  function BuildWhens(whens: seq<When>): (es: seq<Expr>)
    ensures |es| == 2 * |whens|
    decreases whens
  {
    if whens == [] then [] else BuildWhens(whens[..|whens| - 1]) + BuildWhen(whens[|whens| - 1])
  }

  function BuildWhen(w: When): (es: seq<Expr>)
    ensures |es| == 2
    decreases w
  {
    [Build(w.cond).pExpr, Build(w.result).pExpr]
  }
}

/** What the trees mean, and that they mean what was written. */
module SqlMeaning {
  import opened Options
  import opened SqlExpr

  /** An SQL value; truth values are the numbers 0 and 1, or NULL. */
  datatype Value = Null | Val(v: int)

  /** Everything the rewriting does not depend on. */
  datatype Env = Env(
    leaf: (Tk, Token) -> Value,
    un: (Tk, Value) -> Value,
    bin: (Tk, Value, Value) -> Value,
    named: (Tk, seq<Token>, seq<Value>) -> Value,
    like: (Token, Value, Value) -> Value,
    likeEscape: (Token, Value, Value, Value) -> Value,
    eq: (int, int) -> bool,
    le: (int, int) -> bool)

  /** SQL's definition of the infix operator: x LIKE y is the function of that name with y first. */
  ghost predicate LikeIsCall(env: Env)
  {
    && (forall kw, x, y :: env.like(kw, x, y) == env.named(FUNCTION, [kw], [y, x]))
    && (forall kw, x, y, esc :: env.likeEscape(kw, x, y, esc) == env.named(FUNCTION, [kw], [y, x, esc]))
  }

  function Bool(b: bool): Value { Val(if b then 1 else 0) }

  function IsTrue(v: Value): bool { v.Val? && v.v != 0 }

  function Not3(v: Value): Value
  {
    if v.Null? then Null else Bool(v.v == 0)
  }

  function And3(a: Value, b: Value): Value
  {
    if (a.Val? && a.v == 0) || (b.Val? && b.v == 0) then Bool(false)
    else if a.Null? || b.Null? then Null else Bool(true)
  }

  function Or3(a: Value, b: Value): Value
  {
    if IsTrue(a) || IsTrue(b) then Bool(true)
    else if a.Null? || b.Null? then Null else Bool(false)
  }

  function Eq3(env: Env, a: Value, b: Value): Value
  {
    if a.Null? || b.Null? then Null else Bool(env.eq(a.v, b.v))
  }

  function Le3(env: Env, a: Value, b: Value): Value
  {
    if a.Null? || b.Null? then Null else Bool(env.le(a.v, b.v))
  }

  /** IS: two NULLs are the same. */
  function Is3(env: Env, a: Value, b: Value): Value
  {
    if a.Null? || b.Null? then Bool(a.Null? && b.Null?) else Bool(env.eq(a.v, b.v))
  }

  /** How a TK_IN node with a list evaluates: NULL left operand, then a match, then a NULL in the list. */
  function EvalIn(env: Env, x: Value, vs: seq<Value>): Value
  {
    if vs == [] then Bool(false)
    else if x.Null? then Null
    else if exists k :: 0 <= k < |vs| && vs[k].Val? && env.eq(x.v, vs[k].v) then Bool(true)
    else if exists k :: 0 <= k < |vs| && vs[k].Null? then Null
    else Bool(false)
  }

  /** How a TK_CASE node evaluates: pairs of condition and result, then perhaps a last one for ELSE. */
  function EvalCase(env: Env, base: Option<Value>, vs: seq<Value>): Value
    decreases |vs|
  {
    if vs == [] then Null
    else if |vs| == 1 then vs[0]
    else if IsTrue(if base.Some? then Eq3(env, base.value, vs[0]) else vs[0]) then vs[1]
    else EvalCase(env, base, vs[2..])
  }

  /** How a node evaluates, given the values of its parts. */
  function EvalNode(env: Env, op: Tk, left: Option<Value>, right: Option<Value>, toks: seq<Token>, vs: seq<Value>)
      : Value
  {
    match (left, right)
    case (None, _) => if op == CASE_ then EvalCase(env, None, vs) else env.named(op, toks, vs)
    case (Some(x), None) =>
      if op == CASE_ then EvalCase(env, Some(x), vs)
      else if op == IN && toks == [] then EvalIn(env, x, vs)
      else if op == BETWEEN && |vs| == 2 then And3(Le3(env, vs[0], x), Le3(env, x, vs[1]))
      else if toks != [] || op == CAST then env.named(op, toks, [x] + vs)
      else if op == NOT then Not3(x)
      else if op == ISNULL then Bool(x.Null?)
      else if op == NOTNULL then Bool(x.Val?)
      else env.un(op, x)
    case (Some(x), Some(y)) => EvalBinary(env, op, x, y)
  }

  function Eval(env: Env, e: Expr): Value
    decreases e
  {
    match e
    case Leaf(op, tok) => if op == NULL_ then Null else env.leaf(op, tok)
    case Const(i) => Val(i)
    case Node(op, left, right, toks, list) =>
      var x := if left.Some? then Some(Eval(env, left.value)) else None;
      var y := if right.Some? then Some(Eval(env, right.value)) else None;
      EvalNode(env, op, x, y, toks, EvalAll(env, list))
  }

  function EvalAll(env: Env, es: seq<Expr>): (vs: seq<Value>)
    ensures |vs| == |es|
    decreases es
  {
    if es == [] then [] else EvalAll(env, es[..|es| - 1]) + [Eval(env, es[|es| - 1])]
  }

  function EvalBinary(env: Env, op: Tk, a: Value, b: Value): Value
  {
    match op
    case AND => And3(a, b)
    case OR => Or3(a, b)
    case EQ => Eq3(env, a, b)
    case NE => Not3(Eq3(env, a, b))
    case IS => Is3(env, a, b)
    case ISNOT => Not3(Is3(env, a, b))
    case _ => env.bin(op, a, b)
  }

  /** x IN (a, b, ...) is x = a OR x = b OR ..., and false for no alternatives. */
  function AnyEqual(env: Env, x: Value, vs: seq<Value>): Value
  {
    if vs == [] then Bool(false) else Or3(AnyEqual(env, x, vs[..|vs| - 1]), Eq3(env, x, vs[|vs| - 1]))
  }

  function NotIf(doNot: bool, v: Value): Value
  {
    if doNot then Not3(v) else v
  }

  /** The first WHEN that holds decides, else ELSE, else NULL. */
  function CaseMeaning(env: Env, base: Option<Value>, conds: seq<Value>, results: seq<Value>, else_: Value): Value
    requires |conds| == |results|
  {
    if conds == [] then else_
    else if IsTrue(if base.Some? then Eq3(env, base.value, conds[0]) else conds[0]) then results[0]
    else CaseMeaning(env, base, conds[1..], results[1..], else_)
  }

  function PrefixMeaning(env: Env, op: Tk, v: Value): Value
  {
    if op == NOT then Not3(v)
    else if op == MINUS then env.un(UMINUS, v)
    else if op == PLUS then env.un(UPLUS, v)
    else env.un(op, v)
  }

  /** What the source text means, rule by rule, without looking at any tree. */
  function Meaning(env: Env, c: Cst): Value
    decreases c
  {
    match c
    case Literal(t) => if t.kind == NULL_ then Null else env.leaf(t.kind, t)
    case Name(t) => env.leaf(ID, t)
    case CTime(t) => env.named(FUNCTION, [t], [])
    case Dotted(a, _, b) => env.bin(DOT, env.leaf(ID, a), env.leaf(ID, b))
    case Dotted3(a, _, b, _, c) =>
      env.bin(DOT, env.leaf(ID, a), env.bin(DOT, env.leaf(ID, b), env.leaf(ID, c)))
    case Paren(_, e, _) => Meaning(env, e)
    case Vector(_, args, _, _) => env.named(VECTOR, [], MeaningAll(env, args))
    case Subselect(_, select, _) => env.named(SELECT, select, [])
    case Exists(_, _, select, _) => env.named(EXISTS, select, [])
    case InSelect(e, not_, _, _, select, _) => NotIf(not_ != [], env.named(IN, select, [Meaning(env, e)]))
    case Collate(e, _, coll) => env.named(COLLATE, [coll], [Meaning(env, e)])
    case Cast(_, _, e, _, typetoken, _) => env.named(CAST, typetoken, [Meaning(env, e)])
    case Call(name, _, distinct, args, _, _) =>
      var all := distinct == [] || distinct[0].kind == ALL;
      env.named(if all then FUNCTION else FUNCTION_DISTINCT, [name], MeaningAll(env, args))
    case CallStar(name, _, _, _) => env.named(FUNCTION, [name], [])
    case Binary(l, op, r) => EvalBinary(env, op.kind, Meaning(env, l), Meaning(env, r))
    case Like(l, not_, kw, r) =>
      NotIf(not_ != [], env.like(kw, Meaning(env, l), Meaning(env, r)))
    case LikeEscape(l, not_, kw, r, _, x) =>
      NotIf(not_ != [], env.likeEscape(kw, Meaning(env, l), Meaning(env, r), Meaning(env, x)))
    case Postfix(e, op) => var v := Meaning(env, e); Bool(if op.kind == ISNULL then v.Null? else v.Val?)
    case NotNull(e, _, _) => Bool(Meaning(env, e).Val?)
    case Is(l, _, r) => Is3(env, Meaning(env, l), Meaning(env, r))
    case IsNot(l, _, _, r) => Not3(Is3(env, Meaning(env, l), Meaning(env, r)))
    case Prefix(op, e) => PrefixMeaning(env, op.kind, Meaning(env, e))
    case Between(e, not_, _, lo, _, hi) =>
      var x := Meaning(env, e);
      NotIf(not_ != [], And3(Le3(env, Meaning(env, lo), x), Le3(env, x, Meaning(env, hi))))
    case InList(e, not_, _, _, args, _, _) => NotIf(not_ != [], AnyEqual(env, Meaning(env, e), MeaningAll(env, args)))
    case InTable(e, not_, _, nm, dbnm, paren) =>
      var args := if paren.ParenList? then MeaningAll(env, paren.args) else [];
      var table := if dbnm == [] then [nm] else [nm, dbnm[|dbnm| - 1]];
      NotIf(not_ != [], env.named(IN, table, [Meaning(env, e)] + args))
    case Case(_, operand, whens, else_, _) =>
      CaseMeaning(env, if operand.Some? then Some(Meaning(env, operand.value)) else None,
                  Conds(env, whens), Results(env, whens),
                  if else_.Else? then Meaning(env, else_.e) else Null)
  }

  function MeaningAll(env: Env, args: seq<Cst>): (vs: seq<Value>)
    ensures |vs| == |args|
    decreases args
  {
    if args == [] then [] else MeaningAll(env, args[..|args| - 1]) + [Meaning(env, args[|args| - 1])]
  }

  function Conds(env: Env, whens: seq<When>): (vs: seq<Value>)
    ensures |vs| == |whens|
    decreases whens
  {
    if whens == [] then [] else Conds(env, whens[..|whens| - 1]) + [CondOf(env, whens[|whens| - 1])]
  }

  function CondOf(env: Env, w: When): Value
    decreases w
  {
    Meaning(env, w.cond)
  }

  function Results(env: Env, whens: seq<When>): (vs: seq<Value>)
    ensures |vs| == |whens|
    decreases whens
  {
    if whens == [] then [] else Results(env, whens[..|whens| - 1]) + [ResultOf(env, whens[|whens| - 1])]
  }

  function ResultOf(env: Env, w: When): Value
    decreases w
  {
    Meaning(env, w.result)
  }

  /** The way the engine decides membership agrees with the chain of equalities. */
  lemma {:induction false} InIsAnyEqual(env: Env, x: Value, vs: seq<Value>)
    ensures EvalIn(env, x, vs) == AnyEqual(env, x, vs)
  {
    if vs == [] {
    } else {
      var n := |vs| - 1;
      InIsAnyEqual(env, x, vs[..n]);
      assert forall k | 0 <= k < n :: vs[..n][k] == vs[k];
      if x.Val? {
        assert (exists k :: 0 <= k < |vs| && vs[k].Val? && env.eq(x.v, vs[k].v)) <==>
               (exists k :: 0 <= k < n && vs[..n][k].Val? && env.eq(x.v, vs[..n][k].v)) || (vs[n].Val?
                   && env.eq(x.v, vs[n].v));
        assert (exists k :: 0 <= k < |vs| && vs[k].Null?) <==>
               (exists k :: 0 <= k < n && vs[..n][k].Null?) || vs[n].Null?;
      }
    }
  }

  /** A sequence in which the conditions and results alternate. */
  function Zip(conds: seq<Value>, results: seq<Value>): (vs: seq<Value>)
    requires |conds| == |results|
  {
    if conds == [] then [] else [conds[0], results[0]] + Zip(conds[1..], results[1..])
  }

  /** The flat list of a CASE node decodes to its WHEN clauses and its ELSE. */
  lemma {:induction false} CaseDecodes(env: Env, base: Option<Value>, conds: seq<Value>, results: seq<Value>,
      else_: Option<Value>)
    requires |conds| == |results|
    ensures EvalCase(env, base, Zip(conds, results) + if else_.Some? then [else_.value] else [])
         == CaseMeaning(env, base, conds, results, if else_.Some? then else_.value else Null)
    decreases |conds|
  {
    var tail := if else_.Some? then [else_.value] else [];
    if conds == [] {
      assert Zip(conds, results) + tail == tail;
    } else {
      var vs := Zip(conds, results) + tail;
      assert vs[2..] == Zip(conds[1..], results[1..]) + tail;
      CaseDecodes(env, base, conds[1..], results[1..], else_);
    }
  }

  /** The list built for WHEN clauses alternates their conditions and results. */
  lemma {:induction false} ZipAppend(conds: seq<Value>, results: seq<Value>, c: Value, r: Value)
    requires |conds| == |results|
    ensures Zip(conds + [c], results + [r]) == Zip(conds, results) + [c, r]
    decreases |conds|
  {
    if conds != [] {
      assert (conds + [c])[1..] == conds[1..] + [c] && (results + [r])[1..] == results[1..] + [r];
      ZipAppend(conds[1..], results[1..], c, r);
    } else {
      assert (conds + [c])[1..] == [] && (results + [r])[1..] == [];
    }
  }

  lemma {:induction false} EvalAllConcat(env: Env, a: seq<Expr>, b: seq<Expr>)
    ensures EvalAll(env, a + b) == EvalAll(env, a) + EvalAll(env, b)
    decreases |b|
  {
    if b == [] {
      assert a + b == a;
    } else {
      assert (a + b)[..|a + b| - 1] == a + b[..|b| - 1];
      EvalAllConcat(env, a, b[..|b| - 1]);
    }
  }

  lemma EvalList(env: Env, es: seq<Expr>)
    ensures |es| == 1 ==> EvalAll(env, es) == [Eval(env, es[0])]
    ensures |es| == 2 ==> EvalAll(env, es) == [Eval(env, es[0]), Eval(env, es[1])]
    ensures |es| == 3 ==> EvalAll(env, es) == [Eval(env, es[0]), Eval(env, es[1]), Eval(env, es[2])]
  {
    if |es| == 1 {
      assert EvalAll(env, es[..0]) == [];
    } else if |es| == 2 {
      assert EvalAll(env, es[..1][..0]) == [] && es[..1][0] == es[0];
    } else if |es| == 3 {
      assert EvalAll(env, es[..2][..1][..0]) == [] && es[..2][..1][0] == es[0] && es[..2][1] == es[1];
    }
  }

  /** Evaluation of the nodes the actions build, in terms of the values of their parts. */
  lemma EvalUnary(env: Env, op: Tk, l: Expr, toks: seq<Token>, list: seq<Expr>)
    ensures Eval(env, Node(op, Some(l), None, toks, list))
         == EvalNode(env, op, Some(Eval(env, l)), None, toks, EvalAll(env, list))
    ensures EvalAll(env, []) == []
  {
    hide EvalNode;
  }

  lemma EvalCall(env: Env, op: Tk, toks: seq<Token>, list: seq<Expr>)
    ensures Eval(env, Node(op, None, None, toks, list)) == EvalNode(env, op, None, None, toks, EvalAll(env, list))
  {
    hide EvalNode;
  }

  lemma EvalBin(env: Env, op: Tk, l: Expr, r: Expr)
    ensures Eval(env, PExpr(op, Some(l), Some(r))) == EvalBinary(env, op, Eval(env, l), Eval(env, r))
  {
    hide EvalBinary;
  }

  lemma ExprNotMeans(env: Env, doNot: bool, span: ExprSpan)
    ensures Eval(env, ExprNot(doNot, span).pExpr) == NotIf(doNot, Eval(env, span.pExpr))
  {
    EvalUnary(env, NOT, span.pExpr, [], []);
    hide Eval, EvalCase, EvalIn;
  }

  /** The rewriting of IN, for any list and with or without NOT. */
  lemma BuildInMeans(env: Env, x: ExprSpan, doNot: bool, list: seq<Expr>)
    ensures Eval(env, BuildIn(x, doNot, list).pExpr)
         == NotIf(doNot, AnyEqual(env, Eval(env, x.pExpr), EvalAll(env, list)))
  {
    var v := Eval(env, x.pExpr);
    if list == [] {
    } else if |list| == 1 {
      hide Eval, EvalAll, AnyEqual, EvalNode, EvalBinary, Eq3;
      EvalList(env, list);
      AnyEqualOne(env, v, Eval(env, list[0]));
      EqualityMeans(env, x.pExpr, list[0], doNot);
    } else {
      hide Eval, EvalAll, AnyEqual, EvalIn, ExprNot, EvalCase;
      InIsAnyEqual(env, v, EvalAll(env, list));
      EvalUnary(env, IN, x.pExpr, [], list);
      ExprNotMeans(env, doNot, x.(pExpr := Node(IN, Some(x.pExpr), None, [], list)));
    }
  }

  lemma EqualityMeans(env: Env, l: Expr, r: Expr, doNot: bool)
    ensures Eval(env, PExpr(if doNot then NE else EQ, Some(l), Some(r)))
        == NotIf(doNot, Eq3(env, Eval(env, l), Eval(env, r)))
  {
    EvalBin(env, if doNot then NE else EQ, l, r);
    hide Eval, PExpr;
  }

  lemma AnyEqualOne(env: Env, x: Value, v: Value)
    ensures AnyEqual(env, x, [v]) == Eq3(env, x, v)
  {
    assert AnyEqual(env, x, [v][..0]) == Bool(false);
  }

  /** IS NULL and IS NOT NULL, written with any operand that is the literal NULL. */
  lemma NullTestMeans(env: Env, l: Expr, r: Expr)
    requires r.Node? ==> r.op != NULL_
    ensures Eval(env, BinaryToUnaryIfNull(r, PExpr(IS, Some(l), Some(r)), ISNULL))
        == Is3(env, Eval(env, l), Eval(env, r))
    ensures Eval(env, BinaryToUnaryIfNull(r, PExpr(ISNOT, Some(l), Some(r)), NOTNULL))
         == Not3(Is3(env, Eval(env, l), Eval(env, r)))
  {
    EvalBin(env, IS, l, r);
    EvalBin(env, ISNOT, l, r);
    EvalUnary(env, ISNULL, l, [], []);
    EvalUnary(env, NOTNULL, l, [], []);
    assert r.Leaf? && r.op == NULL_ ==> Eval(env, r) == Null;
    hide Eval, EvalCase, EvalIn;
  }

  /** The literal NULL, in any number of parentheses. */
  predicate IsNullLiteral(c: Cst)
    decreases c
  {
    (c.Literal? && c.t.kind == NULL_) || (c.Paren? && IsNullLiteral(c.e))
  }

  predicate IsNullTree(e: Expr) { !e.Const? && e.op == NULL_ }

  /** TK_NULL comes from that literal only, however many parentheses are around it. */
  lemma {:induction false} OnlyLiteralsAreNull(c: Cst)
    requires WF(c)
    ensures IsNullTree(Build(c).pExpr) <==> IsNullLiteral(c)
    ensures IsNullTree(Build(c).pExpr) ==> Build(c).pExpr.Leaf?
    decreases c
  {
    if c.Paren? {
      hide BuildAll, BuildWhens, BuildIn;
      OnlyLiteralsAreNull(c.e);
    } else if c.Binary? || c.Like? || c.LikeEscape? || c.Postfix? || c.NotNull? || c.Is? || c.IsNot? || c.Prefix? {
      OperatorIsNotNull(c);
      hide Build, WF;
    }
  }

  lemma OperatorIsNotNull(c: Cst)
    requires WF(c)
    requires c.Binary? || c.Like? || c.LikeEscape? || c.Postfix? || c.NotNull? || c.Is? || c.IsNot? || c.Prefix?
    ensures !IsNullTree(Build(c).pExpr)
  {
  }

  /** IS and IS NOT become the unary tests exactly for that right operand; otherwise both operands stay. */
  lemma NullTestsRewritten(c: Cst)
    requires (c.Is? || c.IsNot?) && WF(c)
    ensures var l, r := Build(c.l).pExpr, Build(c.r).pExpr;
            Build(c).pExpr == if IsNullLiteral(c.r) then PExpr(if c.Is? then ISNULL else NOTNULL, Some(l), None)
                              else PExpr(if c.Is? then IS else ISNOT, Some(l), Some(r))
  {
    OnlyLiteralsAreNull(c.r);
    hide IsNullLiteral, WF;
  }

  /** The three trees of IN: a constant without values, an equality for one, and a list for more. */
  lemma InListTrees(c: Cst)
    requires c.InList?
    ensures var e, x, not_ := Build(c).pExpr, Build(c.e).pExpr, c.not_ != [];
            && (|c.args| == 0 ==> e == Const(if not_ then 1 else 0))
            && (|c.args| == 1 ==> e == PExpr(if not_ then NE else EQ, Some(x), Some(Build(c.args[0]).pExpr)))
            && (|c.args| > 1 && !not_ ==> e == Node(IN, Some(x), None, [], BuildAll(c.args)))
            && (|c.args| > 1 && not_ ==>
                  e == PExpr(NOT, Some(Node(IN, Some(x), None, [], BuildAll(c.args))), None))
  {
  }

  /** NOT LIKE survives its packing into the length of the token, and the token comes back as it was. */
  lemma LikeOpUnpacks(tok: Token, doNot: bool)
    ensures IsNotLike(ReduceLikeOp(tok, doNot)) == doNot && LikeToken(ReduceLikeOp(tok, doNot)) == tok
  {
  }

  /** For arbitrarily nested expressions: the tree the actions build evaluates to what was written. */
  lemma {:induction false} BuildKeepsMeaning(env: Env, c: Cst)
    requires LikeIsCall(env)
    requires WF(c)
    ensures Eval(env, Build(c).pExpr) == Meaning(env, c)
    decreases c, 2
  {
    match c
    case Paren(_, e, _) => BuildKeepsMeaning(env, e);
    case Binary(l, op, r) =>
      BuildKeepsMeaning(env, l);
      BuildKeepsMeaning(env, r);
      EvalBin(env, op.kind, Build(l).pExpr, Build(r).pExpr);
      hide Eval, EvalBinary;
    case Like(_, _, _, _) => LikeKeepsMeaning(env, c);
    case LikeEscape(_, _, _, _, _, _) => LikeKeepsMeaning(env, c);
    case Is(_, _, _) => IsKeepsMeaning(env, c);
    case IsNot(_, _, _, _) => IsKeepsMeaning(env, c);
    case Collate(_, _, _) => NamedKeepsMeaning(env, c);
    case Cast(_, _, _, _, _, _) => NamedKeepsMeaning(env, c);
    case Postfix(_, _) => TestKeepsMeaning(env, c);
    case NotNull(_, _, _) => TestKeepsMeaning(env, c);
    case Prefix(_, _) => PrefixKeepsMeaning(env, c);
    case Between(_, _, _, _, _, _) => BetweenKeepsMeaning(env, c);
    case InList(_, _, _, _, _, _, _) => InListKeepsMeaning(env, c);
    case InSelect(_, _, _, _, _, _) => InSelectKeepsMeaning(env, c);
    case InTable(_, _, _, _, _, _) => InTableKeepsMeaning(env, c);
    case Case(_, _, _, _, _) => CaseKeepsMeaning(env, c);
    case Literal(_) => LeafKeepsMeaning(env, c);
    case Name(_) => LeafKeepsMeaning(env, c);
    case Dotted(_, _, _) => LeafKeepsMeaning(env, c);
    case Dotted3(_, _, _, _, _) => LeafKeepsMeaning(env, c);
    case _ => CallKeepsMeaning(env, c);
  }

  /** The order of operands, which the truth tables of AND and OR do not tell. */
  lemma BinaryOperands(c: Cst)
    requires c.Binary?
    ensures var e := Build(c).pExpr;
            && e.Node? && e.op == c.op.kind && e.toks == [] && e.list == []
            && e.left == Some(Build(c.l).pExpr) && e.right == Some(Build(c.r).pExpr)
  {
  }

  lemma LeafKeepsMeaning(env: Env, c: Cst)
    requires (c.Literal? || c.Name? || c.Dotted? || c.Dotted3?) && WF(c)
    ensures Eval(env, Build(c).pExpr) == Meaning(env, c)
  {
    match c
    case Dotted(a, _, b) => EvalBin(env, DOT, Leaf(ID, a), Leaf(ID, b));
    case Dotted3(a, _, b, _, c') =>
      EvalBin(env, DOT, Leaf(ID, b), Leaf(ID, c'));
      EvalBin(env, DOT, Leaf(ID, a), PExpr(DOT, Some(Leaf(ID, b)), Some(Leaf(ID, c'))));
    case _ =>
  }

  lemma {:induction false} CallKeepsMeaning(env: Env, c: Cst)
    requires LikeIsCall(env)
    requires (c.CTime? || c.CallStar? || c.Call? || c.Vector? || c.Subselect? || c.Exists?) && WF(c)
    ensures Eval(env, Build(c).pExpr) == Meaning(env, c)
    decreases c, 1
  {
    assert EvalAll(env, []) == [];
    hide Eval, EvalAll;
    match c
    case CTime(t) => EvalCall(env, FUNCTION, [t], []);
    case CallStar(name, _, _, _) => EvalCall(env, FUNCTION, [name], []);
    case Subselect(_, select, _) => EvalCall(env, SELECT, select, []);
    case Exists(_, _, select, _) => EvalCall(env, EXISTS, select, []);
    case Vector(_, args, _, _) =>
      BuildAllKeepsMeaning(env, args);
      EvalCall(env, VECTOR, [], BuildAll(args));
    case Call(_, _, _, _, _, _) => FunctionKeepsMeaning(env, c);
  }

  lemma {:induction false} FunctionKeepsMeaning(env: Env, c: Cst)
    requires LikeIsCall(env)
    requires c.Call? && WF(c)
    ensures Eval(env, Build(c).pExpr) == Meaning(env, c)
    decreases c, 0
  {
    var op, values := CallOp(c.distinct), MeaningAll(env, c.args);
    assert Build(c).pExpr == Node(op, None, None, [c.name], BuildAll(c.args)) && op != CASE_;
    assert Meaning(env, c) == env.named(op, [c.name], values);
    BuildAllKeepsMeaning(env, c.args);
    EvalCall(env, op, [c.name], BuildAll(c.args));
    hide Eval, EvalAll, Build, Meaning, WF, BuildAll, MeaningAll, CallOp;
  }

  lemma {:induction false} NamedKeepsMeaning(env: Env, c: Cst)
    requires LikeIsCall(env)
    requires (c.Collate? || c.Cast?) && WF(c)
    ensures Eval(env, Build(c).pExpr) == Meaning(env, c)
    decreases c, 0
  {
    BuildKeepsMeaning(env, c.e);
    var op, toks := if c.Collate? then COLLATE else CAST, if c.Collate? then [c.coll] else c.typetoken;
    EvalUnary(env, op, Build(c.e).pExpr, toks, []);
    assert [Meaning(env, c.e)] + [] == [Meaning(env, c.e)];
    hide Eval, EvalCase, EvalIn, WF;
  }

  lemma {:induction false} TestKeepsMeaning(env: Env, c: Cst)
    requires LikeIsCall(env)
    requires (c.Postfix? || c.NotNull?) && WF(c)
    ensures Eval(env, Build(c).pExpr) == Meaning(env, c)
    decreases c, 0
  {
    hide Eval, EvalCase, EvalIn;
    match c
    case Postfix(e, op) =>
      BuildKeepsMeaning(env, e);
      EvalUnary(env, op.kind, Build(e).pExpr, [], []);
      assert op.kind in {ISNULL, NOTNULL};
      TestNode(env, op.kind, Meaning(env, e));
      hide WF, EvalNode;
    case NotNull(e, _, _) =>
      BuildKeepsMeaning(env, e);
      EvalUnary(env, NOTNULL, Build(e).pExpr, [], []);
      TestNode(env, NOTNULL, Meaning(env, e));
      hide WF, EvalNode;
  }

  lemma TestNode(env: Env, op: Tk, v: Value)
    requires op in {ISNULL, NOTNULL}
    ensures EvalNode(env, op, Some(v), None, [], []) == Bool(if op == ISNULL then v.Null? else v.Val?)
  {
  }

  lemma {:induction false} PrefixKeepsMeaning(env: Env, c: Cst)
    requires LikeIsCall(env)
    requires c.Prefix? && WF(c)
    ensures Eval(env, Build(c).pExpr) == Meaning(env, c)
    decreases c, 0
  {
    match c
    case Prefix(op, e) =>
      hide Eval, EvalCase, EvalIn;
      assert op.kind in {NOT, BITNOT, MINUS, PLUS};
      BuildKeepsMeaning(env, e);
      EvalUnary(env, PrefixOp(op.kind), Build(e).pExpr, [], []);
      PrefixNode(env, op.kind, Meaning(env, e));
      hide WF, EvalNode, PrefixMeaning, PrefixOp;
  }

  lemma PrefixNode(env: Env, op: Tk, v: Value)
    requires op in {NOT, BITNOT, MINUS, PLUS}
    ensures EvalNode(env, PrefixOp(op), Some(v), None, [], []) == PrefixMeaning(env, op, v)
  {
  }

  lemma {:induction false} LikeKeepsMeaning(env: Env, c: Cst)
    requires LikeIsCall(env)
    requires (c.Like? || c.LikeEscape?) && WF(c)
    ensures Eval(env, Build(c).pExpr) == Meaning(env, c)
    decreases c, 0
  {
    var l, not_, kw, r := c.l, c.not_, c.kw, c.r;
    BuildKeepsMeaning(env, l);
    BuildKeepsMeaning(env, r);
    if c.LikeEscape? { BuildKeepsMeaning(env, c.x); }
    var args := if c.LikeEscape? then [Build(r).pExpr, Build(l).pExpr, Build(c.x).pExpr] else [Build(r).pExpr,
        Build(l).pExpr];
    var span := Build(l).(pExpr := ExprFunction(args, kw));
    assert Build(c).pExpr == ExprNot(not_ != [], span).pExpr by {
      LikeOpUnpacks(kw, not_ != []);
      hide Eval, Meaning, ExprNot, ReduceLikeOp, IsNotLike, LikeToken, WF;
    }
    var vs := if c.LikeEscape? then [Meaning(env, r), Meaning(env, l), Meaning(env, c.x)]
              else [Meaning(env, r), Meaning(env, l)];
    assert Meaning(env, c) == NotIf(not_ != [], env.named(FUNCTION, [kw], vs)) by { hide Eval, Build, WF; }
    hide Build, Meaning, WF, LikeIsCall;
    EvalList(env, args);
    EvalCall(env, FUNCTION, [kw], args);
    ExprNotMeans(env, not_ != [], span);
    hide Eval, EvalAll, EvalCase, EvalIn, ExprNot;
  }

  lemma {:induction false} IsKeepsMeaning(env: Env, c: Cst)
    requires LikeIsCall(env)
    requires (c.Is? || c.IsNot?) && WF(c)
    ensures Eval(env, Build(c).pExpr) == Meaning(env, c)
    decreases c, 0
  {
    BuildKeepsMeaning(env, c.l);
    BuildKeepsMeaning(env, c.r);
    OnlyLiteralsAreNull(c.r);
    NullTestMeans(env, Build(c.l).pExpr, Build(c.r).pExpr);
    hide Eval, BinaryToUnaryIfNull;
  }

  lemma {:induction false} BetweenKeepsMeaning(env: Env, c: Cst)
    requires LikeIsCall(env)
    requires c.Between? && WF(c)
    ensures Eval(env, Build(c).pExpr) == Meaning(env, c)
    decreases c, 0
  {
    match c
    case Between(e, not_, _, lo, _, hi) =>
      hide Eval, EvalAll, EvalCase, EvalIn;
      BuildKeepsMeaning(env, e);
      BuildKeepsMeaning(env, lo);
      BuildKeepsMeaning(env, hi);
      hide WF;
      var list := [Build(lo).pExpr, Build(hi).pExpr];
      var span := Build(e).(pExpr := Node(BETWEEN, Some(Build(e).pExpr), None, [], list));
      assert Build(c).pExpr == ExprNot(not_ != [], span).pExpr by { hide Meaning, ExprNot; }
      EvalList(env, list);
      EvalUnary(env, BETWEEN, Build(e).pExpr, [], list);
      BetweenNode(env, Eval(env, Build(e).pExpr), EvalAll(env, list));
      ExprNotMeans(env, not_ != [], span);
      hide Build, ExprNot, EvalNode, And3, Le3;
  }

  lemma BetweenNode(env: Env, x: Value, vs: seq<Value>)
    requires |vs| == 2
    ensures EvalNode(env, BETWEEN, Some(x), None, [], vs) == And3(Le3(env, vs[0], x), Le3(env, x, vs[1]))
  {
  }

  lemma {:induction false} InListKeepsMeaning(env: Env, c: Cst)
    requires LikeIsCall(env)
    requires c.InList? && WF(c)
    ensures Eval(env, Build(c).pExpr) == Meaning(env, c)
    decreases c, 0
  {
    BuildKeepsMeaning(env, c.e);
    BuildAllKeepsMeaning(env, c.args);
    BuildInMeans(env, Build(c.e), c.not_ != [], BuildAll(c.args));
    hide Eval, EvalAll, BuildIn, BuildAll, AnyEqual;
  }

  lemma {:induction false} InSelectKeepsMeaning(env: Env, c: Cst)
    requires LikeIsCall(env)
    requires c.InSelect? && WF(c)
    ensures Eval(env, Build(c).pExpr) == Meaning(env, c)
    decreases c, 0
  {
    match c
    case InSelect(e, not_, _, _, select, _) =>
      assert EvalAll(env, []) == [] && [Meaning(env, e)] + [] == [Meaning(env, e)];
      hide Eval, EvalAll, EvalCase, EvalIn;
      BuildKeepsMeaning(env, e);
      assert select != [];
      hide WF;
      var span := Build(e).(pExpr := Node(IN, Some(Build(e).pExpr), None, select, []));
      assert Build(c).pExpr == ExprNot(not_ != [], span).pExpr by { hide Meaning, ExprNot; }
      EvalUnary(env, IN, Build(e).pExpr, select, []);
      InNode(env, Meaning(env, e), select, []);
      ExprNotMeans(env, not_ != [], span);
      hide Build, ExprNot, EvalNode;
  }

  lemma {:induction false} InTableKeepsMeaning(env: Env, c: Cst)
    requires LikeIsCall(env)
    requires c.InTable? && WF(c)
    ensures Eval(env, Build(c).pExpr) == Meaning(env, c)
    decreases c, 0
  {
    match c
    case InTable(e, not_, _, nm, dbnm, paren) =>
      hide Eval, EvalAll, EvalCase, EvalIn, BuildAll, MeaningAll;
      BuildKeepsMeaning(env, e);
      ParenListKeepsMeaning(env, paren);
      hide WF;
      var args := if paren.ParenList? then BuildAll(paren.args) else [];
      var span := Build(e).(pExpr := Node(IN, Some(Build(e).pExpr), None, TableName(nm, dbnm), args));
      assert Build(c).pExpr == ExprNot(not_ != [], span).pExpr by { hide Meaning, ExprNot; }
      EvalUnary(env, IN, Build(e).pExpr, TableName(nm, dbnm), args);
      InNode(env, Meaning(env, e), TableName(nm, dbnm), EvalAll(env, args));
      ExprNotMeans(env, not_ != [], span);
      hide Build, ExprNot, EvalNode;
  }

  lemma InNode(env: Env, x: Value, toks: seq<Token>, vs: seq<Value>)
    requires toks != []
    ensures EvalNode(env, IN, Some(x), None, toks, vs) == env.named(IN, toks, [x] + vs)
  {
  }

  lemma {:induction false} ParenListKeepsMeaning(env: Env, paren: ParenList)
    requires LikeIsCall(env)
    requires paren.ParenList? ==> forall k :: 0 <= k < |paren.args| ==> WF(paren.args[k])
    ensures EvalAll(env, if paren.ParenList? then BuildAll(paren.args) else [])
         == if paren.ParenList? then MeaningAll(env, paren.args) else []
    decreases paren
  {
    assert EvalAll(env, []) == [];
    hide Eval, Meaning, Build, WF, BuildAll, MeaningAll;
    if paren.ParenList? { BuildAllKeepsMeaning(env, paren.args); }
  }

  lemma {:induction false} BuildAllKeepsMeaning(env: Env, args: seq<Cst>)
    requires LikeIsCall(env)
    requires forall k :: 0 <= k < |args| ==> WF(args[k])
    ensures EvalAll(env, BuildAll(args)) == MeaningAll(env, args)
    decreases args
  {
    if args == [] {
    } else {
      hide Build, Eval, Meaning, WF;
      var n := |args| - 1;
      BuildAllKeepsMeaning(env, args[..n]);
      BuildKeepsMeaning(env, args[n]);
      assert BuildAll(args)[..n] == BuildAll(args[..n]);
    }
  }

  lemma {:induction false} CaseKeepsMeaning(env: Env, c: Cst)
    requires LikeIsCall(env)
    requires c.Case? && WF(c)
    ensures Eval(env, Build(c).pExpr) == Meaning(env, c)
    decreases c, 0
  {
    var whens, else_ := c.whens, c.else_;
    WhensKeepMeaning(env, whens);
    var tail := if else_.Else? then [Build(else_.e).pExpr] else [];
    var list := BuildWhens(whens) + tail;
    EvalAllConcat(env, BuildWhens(whens), tail);
    assert EvalAll(env, []) == [];
    if else_.Else? {
      BuildKeepsMeaning(env, else_.e);
      EvalList(env, tail);
    }
    if c.operand.Some? {
      BuildKeepsMeaning(env, c.operand.value);
      EvalUnary(env, CASE_, Build(c.operand.value).pExpr, [], list);
    } else {
      EvalCall(env, CASE_, [], list);
    }
    var base := if c.operand.Some? then Some(Meaning(env, c.operand.value)) else None;
    CaseDecodes(env, base, Conds(env, whens), Results(env, whens),
                if else_.Else? then Some(Meaning(env, else_.e)) else None);
    hide Eval, EvalAll, EvalCase, EvalIn, CaseMeaning, BuildWhens, Conds, Results, Zip;
  }

  lemma {:induction false} WhensKeepMeaning(env: Env, whens: seq<When>)
    requires LikeIsCall(env)
    requires forall k :: 0 <= k < |whens| ==> WF(whens[k].cond) && WF(whens[k].result)
    ensures EvalAll(env, BuildWhens(whens)) == Zip(Conds(env, whens), Results(env, whens))
    decreases whens
  {
    if whens == [] {
    } else {
      var n := |whens| - 1;
      WhensKeepMeaning(env, whens[..n]);
      WhenKeepsMeaning(env, whens[n]);
      EvalAllConcat(env, BuildWhens(whens[..n]), BuildWhen(whens[n]));
      ZipAppend(Conds(env, whens[..n]), Results(env, whens[..n]), CondOf(env, whens[n]), ResultOf(env, whens[n]));
    }
  }

  lemma {:induction false} WhenKeepsMeaning(env: Env, w: When)
    requires LikeIsCall(env)
    requires WF(w.cond) && WF(w.result)
    ensures EvalAll(env, BuildWhen(w)) == [CondOf(env, w), ResultOf(env, w)]
    decreases w
  {
    BuildKeepsMeaning(env, w.cond);
    BuildKeepsMeaning(env, w.result);
    EvalList(env, BuildWhen(w));
  }
}
