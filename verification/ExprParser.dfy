/**
 Parsing an expression: the shifts and reductions of the LR parser for an arbitrary parse, run on the stack with
 the in-place actions of ReduceActions. Each method works from entry `top` up, leaves the entries below alone,
 and ends with one entry that holds what SqlExpr.Build prescribes.
 */
module ExprParser {
  import opened Options
  import opened SqlExpr
  import opened ReduceActions

  function Max(a: nat, b: nat): nat { if a < b then b else a }

  /** How many stack entries the parse needs. */
  function Room(c: Cst): (n: nat)
    ensures n >= 1
    decreases c
  {
    match c
    case Literal(_) => 1
    case Name(_) => 1
    case CTime(_) => 1
    case Dotted(_, _, _) => 3
    case Dotted3(_, _, _, _, _) => 5
    case Paren(_, e, _) => Max(3, 1 + Room(e))
    case Vector(_, args, _, _) => Max(5, 1 + RoomAll(args))
    case Subselect(_, _, _) => 3
    case Exists(_, _, _, _) => 4
    case Collate(e, _, _) => Max(3, Room(e))
    case Cast(_, _, e, _, _, _) => Max(6, 2 + Room(e))
    case Call(_, _, _, args, _, _) => Max(5, 3 + RoomAll(args))
    case CallStar(_, _, _, _) => 4
    case Binary(l, _, r) => Max(Room(l), 2 + Room(r))
    case Like(l, _, _, r) => Max(Room(l), 2 + Room(r))
    case LikeEscape(l, _, _, r, _, x) => Max(Room(l), Max(2 + Room(r), 4 + Room(x)))
    case Postfix(e, _) => Max(2, Room(e))
    case NotNull(e, _, _) => Max(3, Room(e))
    case Is(l, _, r) => Max(Room(l), 2 + Room(r))
    case IsNot(l, _, _, r) => Max(Room(l), 3 + Room(r))
    case Prefix(_, e) => 1 + Room(e)
    case Between(e, _, _, lo, _, hi) => Max(Room(e), Max(2 + Room(lo), 4 + Room(hi)))
    case InList(e, _, _, _, args, _, _) => Max(Room(e), Max(5, 3 + RoomAll(args)))
    case InSelect(e, _, _, _, _, _) => Max(5, Room(e))
    case InTable(e, _, _, _, _, paren) =>
      Max(Room(e), if paren.ParenList? then Max(7, 5 + RoomAll(paren.args)) else 5)
    case Case(_, operand, whens, else_, _) =>
      Max(Max(5, if operand.Some? then 1 + Room(operand.value) else 2),
          Max(2 + RoomWhens(whens), if else_.Else? then 4 + Room(else_.e) else 4))
  }

  function RoomAll(args: seq<Cst>): (n: nat)
    ensures n >= 1
    decreases args
  {
    if args == [] then 1
    else if |args| == 1 then Room(args[0])
    else Max(RoomAll(args[..|args| - 1]), 2 + Room(args[|args| - 1]))
  }

  function RoomWhens(whens: seq<When>): (n: nat)
    ensures n >= 1
    decreases whens
  {
    if whens == [] then 1
    else if |whens| == 1 then RoomWhen(whens[0])
    else Max(RoomWhens(whens[..|whens| - 1]), 1 + RoomWhen(whens[|whens| - 1]))
  }

  function RoomWhen(w: When): nat
    decreases w
  {
    Max(1 + Room(w.cond), 3 + Room(w.result))
  }

  /** Some call inside the expression has more arguments than that. */
  predicate TooManyArgs(c: Cst, limit: nat)
    decreases c
  {
    match c
    case Paren(_, e, _) => TooManyArgs(e, limit)
    case Vector(_, args, _, _) => AnyTooMany(args, limit)
    case Collate(e, _, _) => TooManyArgs(e, limit)
    case Cast(_, _, e, _, _, _) => TooManyArgs(e, limit)
    case Call(_, _, _, args, _, _) => |args| > limit || AnyTooMany(args, limit)
    case Binary(l, _, r) => TooManyArgs(l, limit) || TooManyArgs(r, limit)
    case Like(l, _, _, r) => TooManyArgs(l, limit) || TooManyArgs(r, limit)
    case LikeEscape(l, _, _, r, _, x) => TooManyArgs(l, limit) || TooManyArgs(r, limit) || TooManyArgs(x, limit)
    case Postfix(e, _) => TooManyArgs(e, limit)
    case NotNull(e, _, _) => TooManyArgs(e, limit)
    case Is(l, _, r) => TooManyArgs(l, limit) || TooManyArgs(r, limit)
    case IsNot(l, _, _, r) => TooManyArgs(l, limit) || TooManyArgs(r, limit)
    case Prefix(_, e) => TooManyArgs(e, limit)
    case Between(e, _, _, lo, _, hi) => TooManyArgs(e, limit) || TooManyArgs(lo, limit) || TooManyArgs(hi, limit)
    case InList(e, _, _, _, args, _, _) => TooManyArgs(e, limit) || AnyTooMany(args, limit)
    case InSelect(e, _, _, _, _, _) => TooManyArgs(e, limit)
    case InTable(e, _, _, _, _, paren) => TooManyArgs(e, limit) || (paren.ParenList? && AnyTooMany(paren.args, limit))
    case Case(_, operand, whens, else_, _) =>
      || (operand.Some? && TooManyArgs(operand.value, limit))
      || AnyWhenTooMany(whens, limit)
      || (else_.Else? && TooManyArgs(else_.e, limit))
    case _ => false
  }

  predicate AnyTooMany(args: seq<Cst>, limit: nat)
    decreases args
  {
    exists k :: 0 <= k < |args| && TooManyArgs(args[k], limit)
  }

  predicate WhenTooMany(w: When, limit: nat)
    decreases w
  {
    TooManyArgs(w.cond, limit) || TooManyArgs(w.result, limit)
  }

  predicate AnyWhenTooMany(whens: seq<When>, limit: nat)
    decreases whens
  {
    exists k :: 0 <= k < |whens| && WhenTooMany(whens[k], limit)
  }

  lemma AnyTooManyLast(args: seq<Cst>, limit: nat)
    requires args != []
    ensures AnyTooMany(args, limit)
        <==> AnyTooMany(args[..|args| - 1], limit) || TooManyArgs(args[|args| - 1], limit)
  {
    hide TooManyArgs;
    var n := |args| - 1;
    if k :| 0 <= k < n && TooManyArgs(args[k], limit) {
      assert args[..n][k] == args[k];
    }
  }

  lemma AnyWhenTooManyLast(whens: seq<When>, limit: nat)
    requires whens != []
    ensures AnyWhenTooMany(whens, limit)
        <==> AnyWhenTooMany(whens[..|whens| - 1], limit) || WhenTooMany(whens[|whens| - 1], limit)
  {
    hide WhenTooMany;
    var n := |whens| - 1;
    if k :| 0 <= k < n && WhenTooMany(whens[k], limit) {
      assert whens[..n][k] == whens[k];
    }
  }

  /** A shift stores the token. */
  method Shift(st: array<Minor>, top: nat, t: Token)
    requires top < st.Length
    modifies st
    ensures st[top].HoldsToken(t) && Below(st, top)
  {
    st[top] := Minor(Text(t), Len(t.n), Null);
  }

  /** A nonterminal whose parts the actions do not look at. */
  method ShiftRun(st: array<Minor>, top: nat, toks: seq<Token>)
    requires top < st.Length
    modifies st
    ensures st[top].word0 == Run(toks) && Below(st, top)
  {
    st[top] := Minor(Run(toks), Null, Null);
  }

  method Reset(st: array<Minor>, top: nat)
    requires top < st.Length
    modifies st
    ensures st[top].word0 == Null && Below(st, top)
  {
    st[top] := Minor(Null, Null, Null);
  }

  /** between_op and in_op (parse.c:3370-3374, 2594-2600). */
  method ParseOp(st: array<Minor>, top: nat, not_: seq<Token>, kw: Token)
    requires top + |not_| < st.Length && NotOK(not_)
    modifies st
    ensures st[top].word0 == Flag(not_ != []) && Below(st, top)
  {
    if not_ == [] {
      Shift(st, top, kw);
      st[top] := st[top].(word0 := Flag(false));
    } else {
      Shift(st, top, not_[0]);
      Shift(st, top + 1, kw);
      st[top] := st[top].(word0 := Flag(true));
    }
  }

  /** likeop (parse.c:3287-3296). */
  method ParseLikeOp(st: array<Minor>, top: nat, not_: seq<Token>, kw: Token)
    requires top + |not_| < st.Length && NotOK(not_)
    modifies st
    ensures st[top].HoldsLikeOp(ReduceLikeOp(kw, not_ != [])) && Below(st, top)
  {
    if not_ == [] {
      Shift(st, top, kw);
    } else {
      Shift(st, top, not_[0]);
      Shift(st, top + 1, kw);
      ReduceNotLikeOp(st, top, kw);
    }
  }

  /** distinct (parse.c:2797-2805). */
  method ParseDistinct(st: array<Minor>, top: nat, distinct: seq<Token>)
    requires top < st.Length && DistinctOK(distinct)
    modifies st
    ensures st[top].word0 == Flags(DistinctFlags(distinct)) && Below(st, top)
  {
    if distinct == [] {
      st[top] := Minor(Flags(0), Null, Null);
    } else {
      Shift(st, top, distinct[0]);
      st[top] := st[top].(word0 := Flags(if distinct[0].kind == DISTINCT then SF_Distinct else SF_All));
    }
  }

  /** dbnm (rules 105 and 106): nothing, or the name after the dot. */
  method ParseDbnm(st: array<Minor>, top: nat, dbnm: seq<Token>)
    requires |dbnm| in {0, 2} && top < st.Length && (dbnm != [] ==> top + 1 < st.Length)
    modifies st
    ensures Below(st, top)
    ensures if dbnm == [] then st[top].word0 == Null else st[top].HoldsToken(dbnm[|dbnm| - 1])
  {
    if dbnm == [] {
      Reset(st, top);
    } else {
      Shift(st, top, dbnm[0]);
      Shift(st, top + 1, dbnm[1]);
      st[top] := st[top + 1];
    }
  }

  /**
   Any expression. The limit is that of function arguments: an error is reported if and only if some call inside
   the expression exceeds it.
   */
  method Parse(c: Cst, st: array<Minor>, top: nat, limit: nat) returns (error: bool)
    requires WF(c) && top + Room(c) <= st.Length
    modifies st
    ensures st[top].HoldsSpan(Build(c)) && Below(st, top)
    ensures error == TooManyArgs(c, limit)
    decreases c, 2
  {
    hide WF, Build, Room, TooManyArgs;
    if TokensOnly(c) {
      error := ParseTokens(c, st, top, limit);
    } else if OfOperator(c) {
      error := ParseOperator(c, st, top, limit);
    } else {
      error := ParseOther(c, st, top, limit);
    }
  }

  predicate TokensOnly(c: Cst)
  {
    c.Literal? || c.Name? || c.CTime? || c.Dotted? || c.Dotted3? || c.CallStar? || c.Subselect? || c.Exists?
  }

  predicate OfOperator(c: Cst)
  {
    || c.Binary? || c.Like? || c.LikeEscape? || c.Postfix? || c.NotNull? || c.Is? || c.IsNot? || c.Prefix?
    || c.Between?
  }

  predicate OfOther(c: Cst) { !TokensOnly(c) && !OfOperator(c) }

  method ParseOperator(c: Cst, st: array<Minor>, top: nat, limit: nat) returns (error: bool)
    requires OfOperator(c) && WF(c) && top + Room(c) <= st.Length
    modifies st
    ensures st[top].HoldsSpan(Build(c)) && Below(st, top)
    ensures error == TooManyArgs(c, limit)
    decreases c, 1
  {
    hide WF, Build, Room, TooManyArgs;
    match c
    case Binary(_, _, _) => error := ParseBinary(c, st, top, limit);
    case Like(_, _, _, _) => error := ParseLike(c, st, top, limit);
    case LikeEscape(_, _, _, _, _, _) => error := ParseLikeEscape(c, st, top, limit);
    case Postfix(_, _) => error := ParsePostfix(c, st, top, limit);
    case NotNull(_, _, _) => error := ParseNotNull(c, st, top, limit);
    case Is(_, _, _) => error := ParseIs(c, st, top, limit);
    case IsNot(_, _, _, _) => error := ParseIsNot(c, st, top, limit);
    case Prefix(_, _) => error := ParsePrefix(c, st, top, limit);
    case Between(_, _, _, _, _, _) => error := ParseBetween(c, st, top, limit);
  }

  method ParseOther(c: Cst, st: array<Minor>, top: nat, limit: nat) returns (error: bool)
    requires OfOther(c) && WF(c) && top + Room(c) <= st.Length
    modifies st
    ensures st[top].HoldsSpan(Build(c)) && Below(st, top)
    ensures error == TooManyArgs(c, limit)
    decreases c, 1
  {
    hide WF, Build, Room, TooManyArgs;
    match c
    case Paren(_, _, _) => error := ParseParen(c, st, top, limit);
    case Vector(_, _, _, _) => error := ParseVector(c, st, top, limit);
    case Collate(_, _, _) => error := ParseCollate(c, st, top, limit);
    case Cast(_, _, _, _, _, _) => error := ParseCast(c, st, top, limit);
    case Call(_, _, _, _, _, _) => error := ParseCall(c, st, top, limit);
    case InList(_, _, _, _, _, _, _) => error := ParseInList(c, st, top, limit);
    case InSelect(_, _, _, _, _, _) => error := ParseInSelect(c, st, top, limit);
    case InTable(_, _, _, _, _, _) => error := ParseInTable(c, st, top, limit);
    case Case(_, _, _, _, _) => error := ParseCase(c, st, top, limit);
  }

  /** The expressions that consist of tokens only. */
  method ParseTokens(c: Cst, st: array<Minor>, top: nat, limit: nat) returns (error: bool)
    requires TokensOnly(c) && top + Room(c) <= st.Length
    modifies st
    ensures st[top].HoldsSpan(Build(c)) && Below(st, top)
    ensures error == TooManyArgs(c, limit)
  {
    hide Build, Room, TooManyArgs;
    TokenParts(c, limit);
    error := false;
    match c
    case Literal(t) => ParseLeaf(c, t.kind, st, top);
    case Name(_) => ParseLeaf(c, ID, st, top);
    case CTime(t) =>
      Shift(st, top, t);
      ReduceCTime(st, top, c);
    case Dotted(a, dot, b) =>
      Shift(st, top, a);
      Shift(st, top + 1, dot);
      Shift(st, top + 2, b);
      ReduceDotted(st, top, c);
    case Dotted3(a, dot, b, dot2, c0) =>
      Shift(st, top, a);
      Shift(st, top + 1, dot);
      Shift(st, top + 2, b);
      Shift(st, top + 3, dot2);
      Shift(st, top + 4, c0);
      ReduceDotted3(st, top, c);
    case CallStar(_, _, _, _) => ParseBrackets(c, st, top);
    case Subselect(_, _, _) => ParseBrackets(c, st, top);
    case Exists(_, _, _, _) => ParseBrackets(c, st, top);
  }

  method ParseLeaf(c: Cst, op: Tk, st: array<Minor>, top: nat)
    requires (c.Literal? && op == c.t.kind) || (c.Name? && op == ID)
    requires top < st.Length
    modifies st
    ensures st[top].HoldsSpan(Build(c)) && Below(st, top)
  {
    Shift(st, top, c.t);
    ReduceActions.SpanExpr(st, top, op, st[top].word0.tok);
  }

  /** A call of `*`, or a SELECT in parentheses. */
  method ParseBrackets(c: Cst, st: array<Minor>, top: nat)
    requires (c.CallStar? || c.Subselect? || c.Exists?) && top + Room(c) <= st.Length
    modifies st
    ensures st[top].HoldsSpan(Build(c)) && Below(st, top)
  {
    hide Build;
    match c
    case CallStar(name, lp, star, rp) =>
      Shift(st, top, name);
      Shift(st, top + 1, lp);
      Shift(st, top + 2, star);
      Shift(st, top + 3, rp);
      ReduceCallStar(st, top, c);
    case Subselect(lp, select, rp) =>
      Shift(st, top, lp);
      ShiftRun(st, top + 1, select);
      Shift(st, top + 2, rp);
      ReduceSubselect(st, top, c);
    case Exists(kw, lp, select, rp) =>
      Shift(st, top, kw);
      Shift(st, top + 1, lp);
      ShiftRun(st, top + 2, select);
      Shift(st, top + 3, rp);
      ReduceExists(st, top, c);
  }

  lemma TokenParts(c: Cst, limit: nat)
    requires TokensOnly(c)
    ensures !TooManyArgs(c, limit) && (c.Dotted? ==> Room(c) == 3) && (c.Dotted3? ==> Room(c) == 5)
  {
  }

  method ParseParen(c: Cst, st: array<Minor>, top: nat, limit: nat) returns (error: bool)
    requires c.Paren? && WF(c) && top + Room(c) <= st.Length
    modifies st
    ensures st[top].HoldsSpan(Build(c)) && Below(st, top)
    ensures error == TooManyArgs(c, limit)
    decreases c, 0
  {
    hide Build;
    match c
    case Paren(lp, e, rp) =>
      Shift(st, top, lp);
      error := Parse(e, st, top + 1, limit);
      Shift(st, top + 2, rp);
      ReduceParen(st, top, c);
  }

  method ParseCollate(c: Cst, st: array<Minor>, top: nat, limit: nat) returns (error: bool)
    requires c.Collate? && WF(c) && top + Room(c) <= st.Length
    modifies st
    ensures st[top].HoldsSpan(Build(c)) && Below(st, top)
    ensures error == TooManyArgs(c, limit)
    decreases c, 0
  {
    hide Build;
    match c
    case Collate(e, kw, coll) =>
      error := Parse(e, st, top, limit);
      Shift(st, top + 1, kw);
      Shift(st, top + 2, coll);
      ReduceCollate(st, top, c);
  }

  method ParseCast(c: Cst, st: array<Minor>, top: nat, limit: nat) returns (error: bool)
    requires c.Cast? && WF(c) && top + Room(c) <= st.Length
    modifies st
    ensures st[top].HoldsSpan(Build(c)) && Below(st, top)
    ensures error == TooManyArgs(c, limit)
    decreases c, 0
  {
    hide Build;
    match c
    case Cast(kw, lp, e, as_, typetoken, rp) =>
      Shift(st, top, kw);
      Shift(st, top + 1, lp);
      error := Parse(e, st, top + 2, limit);
      Shift(st, top + 3, as_);
      ShiftRun(st, top + 4, typetoken);
      Shift(st, top + 5, rp);
      ReduceCast(st, top, c);
  }

  method ParseCall(c: Cst, st: array<Minor>, top: nat, limit: nat) returns (error: bool)
    requires c.Call? && WF(c) && top + Room(c) <= st.Length
    modifies st
    ensures st[top].HoldsSpan(Build(c)) && Below(st, top)
    ensures error == TooManyArgs(c, limit)
    decreases c, 0
  {
    hide Build, BuildAll;
    match c
    case Call(name, lp, distinct, args, commas, rp) =>
      Shift(st, top, name);
      Shift(st, top + 1, lp);
      ParseDistinct(st, top + 2, distinct);
      var error1 := ParseAll(args, commas, st, top + 3, limit);
      Shift(st, top + 4, rp);
      var error2 := ReduceCall(st, top, limit, c);
      error := error1 || error2;
  }

  method ParseVector(c: Cst, st: array<Minor>, top: nat, limit: nat) returns (error: bool)
    requires c.Vector? && WF(c) && top + Room(c) <= st.Length
    modifies st
    ensures st[top].HoldsSpan(Build(c)) && Below(st, top)
    ensures error == TooManyArgs(c, limit)
    decreases c, 0
  {
    hide WF, Room, RoomAll, Build, BuildAll, CommasOK, TooManyArgs, AnyTooMany;
    match c
    case Vector(lp, args, commas, rp) =>
      VectorParts(c, top, st.Length, limit);
      var n := |args| - 1;
      Shift(st, top, lp);
      var error1 := ParseAll(args[..n], commas[..n - 1], st, top + 1, limit);
      Shift(st, top + 2, commas[n - 1]);
      var error2 := Parse(args[n], st, top + 3, limit);
      Shift(st, top + 4, rp);
      ReduceVector(st, top, c);
      error := error1 || error2;
  }

  method ParseBinary(c: Cst, st: array<Minor>, top: nat, limit: nat) returns (error: bool)
    requires c.Binary? && WF(c) && top + Room(c) <= st.Length
    modifies st
    ensures st[top].HoldsSpan(Build(c)) && Below(st, top)
    ensures error == TooManyArgs(c, limit)
    decreases c, 0
  {
    match c
    case Binary(l, op, r) =>
      var error1 := Parse(l, st, top, limit);
      Shift(st, top + 1, op);
      var error2 := Parse(r, st, top + 2, limit);
      ReduceActions.SpanBinaryExpr(st, st[top + 1].word0.tok.kind, top, top + 2, Build(l), Build(r));
      error := error1 || error2;
  }

  method ParseLike(c: Cst, st: array<Minor>, top: nat, limit: nat) returns (error: bool)
    requires c.Like? && WF(c) && top + Room(c) <= st.Length
    modifies st
    ensures st[top].HoldsSpan(Build(c)) && Below(st, top)
    ensures error == TooManyArgs(c, limit)
    decreases c, 0
  {
    hide Build;
    match c
    case Like(l, not_, kw, r) =>
      var error1 := Parse(l, st, top, limit);
      ParseLikeOp(st, top + 1, not_, kw);
      var error2 := Parse(r, st, top + 2, limit);
      ReduceLike(st, top, c);
      error := error1 || error2;
  }

  method ParseLikeEscape(c: Cst, st: array<Minor>, top: nat, limit: nat) returns (error: bool)
    requires c.LikeEscape? && WF(c) && top + Room(c) <= st.Length
    modifies st
    ensures st[top].HoldsSpan(Build(c)) && Below(st, top)
    ensures error == TooManyArgs(c, limit)
    decreases c, 0
  {
    hide Build;
    match c
    case LikeEscape(l, not_, kw, r, esc, x) =>
      var error1 := Parse(l, st, top, limit);
      ParseLikeOp(st, top + 1, not_, kw);
      var error2 := Parse(r, st, top + 2, limit);
      Shift(st, top + 3, esc);
      var error3 := Parse(x, st, top + 4, limit);
      ReduceLikeEscape(st, top, c);
      error := error1 || error2 || error3;
  }

  method ParsePostfix(c: Cst, st: array<Minor>, top: nat, limit: nat) returns (error: bool)
    requires c.Postfix? && WF(c) && top + Room(c) <= st.Length
    modifies st
    ensures st[top].HoldsSpan(Build(c)) && Below(st, top)
    ensures error == TooManyArgs(c, limit)
    decreases c, 0
  {
    match c
    case Postfix(e, op) =>
      error := Parse(e, st, top, limit);
      Shift(st, top + 1, op);
      ReduceActions.SpanUnaryPostfix(st, st[top + 1].word0.tok.kind, top, top + 1, Build(e), op);
  }

  method ParseNotNull(c: Cst, st: array<Minor>, top: nat, limit: nat) returns (error: bool)
    requires c.NotNull? && WF(c) && top + Room(c) <= st.Length
    modifies st
    ensures st[top].HoldsSpan(Build(c)) && Below(st, top)
    ensures error == TooManyArgs(c, limit)
    decreases c, 0
  {
    match c
    case NotNull(e, not1, null_) =>
      error := Parse(e, st, top, limit);
      Shift(st, top + 1, not1);
      Shift(st, top + 2, null_);
      ReduceActions.SpanUnaryPostfix(st, NOTNULL, top, top + 2, Build(e), null_);
  }

  method ParseIs(c: Cst, st: array<Minor>, top: nat, limit: nat) returns (error: bool)
    requires c.Is? && WF(c) && top + Room(c) <= st.Length
    modifies st
    ensures st[top].HoldsSpan(Build(c)) && Below(st, top)
    ensures error == TooManyArgs(c, limit)
    decreases c, 0
  {
    hide Build;
    match c
    case Is(l, kw, r) =>
      var error1 := Parse(l, st, top, limit);
      Shift(st, top + 1, kw);
      var error2 := Parse(r, st, top + 2, limit);
      ReduceIs(st, top, c);
      error := error1 || error2;
  }

  method ParseIsNot(c: Cst, st: array<Minor>, top: nat, limit: nat) returns (error: bool)
    requires c.IsNot? && WF(c) && top + Room(c) <= st.Length
    modifies st
    ensures st[top].HoldsSpan(Build(c)) && Below(st, top)
    ensures error == TooManyArgs(c, limit)
    decreases c, 0
  {
    hide Build;
    match c
    case IsNot(l, kw, not1, r) =>
      var error1 := Parse(l, st, top, limit);
      Shift(st, top + 1, kw);
      Shift(st, top + 2, not1);
      var error2 := Parse(r, st, top + 3, limit);
      ReduceIsNot(st, top, c);
      error := error1 || error2;
  }

  method ParsePrefix(c: Cst, st: array<Minor>, top: nat, limit: nat) returns (error: bool)
    requires c.Prefix? && WF(c) && top + Room(c) <= st.Length
    modifies st
    ensures st[top].HoldsSpan(Build(c)) && Below(st, top)
    ensures error == TooManyArgs(c, limit)
    decreases c, 0
  {
    match c
    case Prefix(op, e) =>
      Shift(st, top, op);
      error := Parse(e, st, top + 1, limit);
      ReduceActions.SpanUnaryPrefix(st, top, PrefixOp(st[top].word0.tok.kind), top + 1, top, Build(e), op);
  }

  method ParseBetween(c: Cst, st: array<Minor>, top: nat, limit: nat) returns (error: bool)
    requires c.Between? && WF(c) && top + Room(c) <= st.Length
    modifies st
    ensures st[top].HoldsSpan(Build(c)) && Below(st, top)
    ensures error == TooManyArgs(c, limit)
    decreases c, 0
  {
    hide WF, Room, Build, TooManyArgs;
    match c
    case Between(e, not_, kw, lo, and_, hi) =>
      BetweenParts(c, top, st.Length, limit);
      var error1 := Parse(e, st, top, limit);
      ParseOp(st, top + 1, not_, kw);
      var error2 := Parse(lo, st, top + 2, limit);
      Shift(st, top + 3, and_);
      var error3 := Parse(hi, st, top + 4, limit);
      ReduceBetween(st, top, c);
      error := error1 || error2 || error3;
  }

  method ParseInList(c: Cst, st: array<Minor>, top: nat, limit: nat) returns (error: bool)
    requires c.InList? && WF(c) && top + Room(c) <= st.Length
    modifies st
    ensures st[top].HoldsSpan(Build(c)) && Below(st, top)
    ensures error == TooManyArgs(c, limit)
    decreases c, 0
  {
    hide WF, Room, RoomAll, Build, BuildAll, CommasOK, TooManyArgs, AnyTooMany;
    match c
    case InList(e, not_, kw, lp, args, commas, rp) =>
      ListParts(c, top, st.Length, limit);
      var error1 := Parse(e, st, top, limit);
      ParseOp(st, top + 1, not_, kw);
      Shift(st, top + 2, lp);
      var error2 := ParseAll(args, commas, st, top + 3, limit);
      Shift(st, top + 4, rp);
      ReduceInList(st, top, c);
      error := error1 || error2;
  }

  method ParseInSelect(c: Cst, st: array<Minor>, top: nat, limit: nat) returns (error: bool)
    requires c.InSelect? && WF(c) && top + Room(c) <= st.Length
    modifies st
    ensures st[top].HoldsSpan(Build(c)) && Below(st, top)
    ensures error == TooManyArgs(c, limit)
    decreases c, 0
  {
    hide Build;
    match c
    case InSelect(e, not_, kw, lp, select, rp) =>
      error := Parse(e, st, top, limit);
      ParseOp(st, top + 1, not_, kw);
      Shift(st, top + 2, lp);
      ShiftRun(st, top + 3, select);
      Shift(st, top + 4, rp);
      ReduceInSelect(st, top, c);
  }

  method ParseInTable(c: Cst, st: array<Minor>, top: nat, limit: nat) returns (error: bool)
    requires c.InTable? && WF(c) && top + Room(c) <= st.Length
    modifies st
    ensures st[top].HoldsSpan(Build(c)) && Below(st, top)
    ensures error == TooManyArgs(c, limit)
    decreases c, 0
  {
    hide WF, Room, RoomAll, Build, BuildAll, CommasOK, Max, TableName, TooManyArgs, AnyTooMany;
    match c
    case InTable(e, not_, kw, nm, dbnm, paren) =>
      TableParts(c, top, st.Length, limit);
      var error1 := Parse(e, st, top, limit);
      ParseOp(st, top + 1, not_, kw);
      Shift(st, top + 2, nm);
      ParseDbnm(st, top + 3, dbnm);
      var error2 := ParseParenList(paren, st, top + 4, limit);
      ReduceInTable(st, top, c);
      error := error1 || error2;
  }

  method ParseCase(c: Cst, st: array<Minor>, top: nat, limit: nat) returns (error: bool)
    requires c.Case? && WF(c) && top + Room(c) <= st.Length
    modifies st
    ensures st[top].HoldsSpan(Build(c)) && Below(st, top)
    ensures error == TooManyArgs(c, limit)
    decreases c, 0
  {
    hide WF, Room, RoomWhens, Build, BuildWhens, TooManyArgs, AnyWhenTooMany;
    match c
    case Case(kw, operand, whens, else_, end) =>
      CaseParts(c, top, st.Length, limit);
      Shift(st, top, kw);
      var error1 := ParseOperand(operand, st, top + 1, limit);
      var error2 := ParseWhens(whens, st, top + 2, limit);
      var error3 := ParseElse(else_, st, top + 3, limit);
      Shift(st, top + 4, end);
      ReduceCase(st, top, c);
      error := error1 || error2 || error3;
  }

  lemma BetweenParts(c: Cst, top: nat, length: nat, limit: nat)
    requires c.Between? && WF(c) && top + Room(c) <= length
    ensures WF(c.e) && WF(c.lo) && WF(c.hi) && NotOK(c.not_)
    ensures top + Max(Room(c.e), Max(2 + Room(c.lo), 4 + Room(c.hi))) <= length
    ensures TooManyArgs(c, limit)
         == (TooManyArgs(c.e, limit) || TooManyArgs(c.lo, limit) || TooManyArgs(c.hi, limit))
  {
  }

  lemma ListParts(c: Cst, top: nat, length: nat, limit: nat)
    requires c.InList? && WF(c) && top + Room(c) <= length
    ensures WF(c.e) && NotOK(c.not_) && CommasOK(c.args, c.commas) && forall k :: 0 <= k < |c.args| ==> WF(c.args[k])
    ensures top + Max(Room(c.e), Max(5, 3 + RoomAll(c.args))) <= length
    ensures TooManyArgs(c, limit) == (TooManyArgs(c.e, limit) || AnyTooMany(c.args, limit))
  {
  }

  lemma CaseParts(c: Cst, top: nat, length: nat, limit: nat)
    requires c.Case? && WF(c) && top + Room(c) <= length
    ensures top + 5 <= length && top + 2 + RoomWhens(c.whens) <= length
    ensures c.operand.Some? ==> WF(c.operand.value) && top + 1 + Room(c.operand.value) <= length
    ensures c.else_.Else? ==> WF(c.else_.e) && top + 4 + Room(c.else_.e) <= length
    ensures c.whens != [] && forall k :: 0 <= k < |c.whens| ==> WF(c.whens[k].cond) && WF(c.whens[k].result)
    ensures TooManyArgs(c, limit) ==
              ((c.operand.Some? && TooManyArgs(c.operand.value, limit))
              || AnyWhenTooMany(c.whens, limit)
              || (c.else_.Else? && TooManyArgs(c.else_.e, limit)))
  {
  }

  lemma VectorParts(c: Cst, top: nat, length: nat, limit: nat)
    requires c.Vector? && WF(c) && top + Room(c) <= length
    ensures 2 <= |c.args| == |c.commas| + 1 && top + 5 <= length
    ensures var n := |c.args| - 1;
            && (forall k :: 0 <= k < |c.args| ==> WF(c.args[k])) && CommasOK(c.args[..n], c.commas[..n - 1])
            && top + 1 + RoomAll(c.args[..n]) <= length && top + 3 + Room(c.args[n]) <= length
            && TooManyArgs(c, limit) == (AnyTooMany(c.args[..n], limit) || TooManyArgs(c.args[n], limit))
  {
    AnyTooManyLast(c.args, limit);
    hide AnyTooMany;
  }

  lemma TableParts(c: Cst, top: nat, length: nat, limit: nat)
    requires c.InTable? && WF(c) && top + Room(c) <= length
    ensures top + 5 <= length && top + Room(c.e) <= length && WF(c.e) && NotOK(c.not_) && |c.dbnm| in {0, 2}
    ensures c.paren.ParenList? ==>
              && (forall k :: 0 <= k < |c.paren.args| ==> WF(c.paren.args[k])) && CommasOK(c.paren.args, c.paren.commas)
              && top + 4 + Max(3, 1 + RoomAll(c.paren.args)) <= length
    ensures TooManyArgs(c, limit)
         == (TooManyArgs(c.e, limit) || (c.paren.ParenList? && AnyTooMany(c.paren.args, limit)))
  {
  }

  /** exprlist and nexprlist (parse.c:3525-3534, 2811): nothing, or one value after the other appended. */
  method ParseAll(args: seq<Cst>, commas: seq<Token>, st: array<Minor>, top: nat, limit: nat) returns (error: bool)
    requires (forall k :: 0 <= k < |args| ==> WF(args[k])) && CommasOK(args, commas) && top + RoomAll(args) <= st.Length
    modifies st
    ensures st[top].HoldsList(BuildAll(args)) && Below(st, top)
    ensures error == AnyTooMany(args, limit)
    decreases args
  {
    hide Build, Room, WF, TooManyArgs;
    var n := |args| - 1;
    if args == [] {
      Reset(st, top);
      error := false;
    } else if n == 0 {
      assert BuildAll(args[..0]) == [];
      error := Parse(args[0], st, top, limit);
      st[top] := Minor(List([st[top].word0.e]), Null, Null);
    } else {
      AnyTooManyLast(args, limit);
      var error1 := ParseAll(args[..n], commas[..n - 1], st, top, limit);
      Shift(st, top + 1, commas[n - 1]);
      var error2 := Parse(args[n], st, top + 2, limit);
      st[top] := st[top].(word0 := List(st[top].word0.es + [st[top + 2].word0.e]));
      error := error1 || error2;
    }
  }

  /** paren_exprlist (parse.c:2811, 3535-3538). */
  method ParseParenList(paren: ParenList, st: array<Minor>, top: nat, limit: nat) returns (error: bool)
    requires top < st.Length
    requires paren.ParenList? ==>
      && (forall k :: 0 <= k < |paren.args| ==> WF(paren.args[k])) && CommasOK(paren.args, paren.commas)
      && top + Max(3, 1 + RoomAll(paren.args)) <= st.Length
    modifies st
    ensures st[top].HoldsList(if paren.ParenList? then BuildAll(paren.args) else []) && Below(st, top)
    ensures error == (paren.ParenList? && AnyTooMany(paren.args, limit))
    decreases paren
  {
    hide BuildAll, RoomAll, WF, CommasOK, AnyTooMany;
    if paren.NoList? {
      Reset(st, top);
      error := false;
    } else {
      Shift(st, top, paren.lp);
      error := ParseAll(paren.args, paren.commas, st, top + 1, limit);
      Shift(st, top + 2, paren.rp);
      st[top] := st[top + 1];
    }
  }

  /** case_operand (parse.c:2969-2971, 3520-3522). */
  method ParseOperand(operand: Option<Cst>, st: array<Minor>, top: nat, limit: nat) returns (error: bool)
    requires top < st.Length && (operand.Some? ==> WF(operand.value) && top + Room(operand.value) <= st.Length)
    modifies st
    ensures st[top].HoldsTree(if operand.Some? then Some(Build(operand.value).pExpr) else None) && Below(st, top)
    ensures error == (operand.Some? && TooManyArgs(operand.value, limit))
    decreases operand
  {
    match operand
    case None => Reset(st, top); error := false;
    case Some(e) => error := Parse(e, st, top, limit);
  }

  /** case_else (parse.c:2960-2971). */
  method ParseElse(else_: Else, st: array<Minor>, top: nat, limit: nat) returns (error: bool)
    requires top < st.Length && (else_.Else? ==> WF(else_.e) && top + 1 + Room(else_.e) <= st.Length)
    modifies st
    ensures st[top].HoldsTree(if else_.Else? then Some(Build(else_.e).pExpr) else None) && Below(st, top)
    ensures error == (else_.Else? && TooManyArgs(else_.e, limit))
    decreases else_
  {
    match else_
    case NoElse => Reset(st, top); error := false;
    case Else(kw, e) =>
      Shift(st, top, kw);
      error := Parse(e, st, top + 1, limit);
      st[top] := st[top].(word0 := st[top + 1].word0);
  }

  /** WHEN expr THEN expr: the two values end at base + 1 and base + 3. */
  method ParseWhen(w: When, st: array<Minor>, base: nat, limit: nat) returns (error: bool)
    requires WF(w.cond) && WF(w.result) && base + RoomWhen(w) <= st.Length
    modifies st
    ensures base + 3 < st.Length && st[base + 1].word0 == Tree(BuildWhen(w)[0])
        && st[base + 3].word0 == Tree(BuildWhen(w)[1])
    ensures Below(st, base)
    ensures error == WhenTooMany(w, limit)
    decreases w
  {
    Shift(st, base, w.when_);
    var error1 := Parse(w.cond, st, base + 1, limit);
    Shift(st, base + 2, w.then_);
    var error2 := Parse(w.result, st, base + 3, limit);
    error := error1 || error2;
  }

  /** case_exprlist (parse.c:3504-3518): two values appended for each WHEN. */
  method ParseWhens(whens: seq<When>, st: array<Minor>, top: nat, limit: nat) returns (error: bool)
    requires whens != [] && (forall k :: 0 <= k < |whens| ==> WF(whens[k].cond) && WF(whens[k].result))
    requires top + RoomWhens(whens) <= st.Length
    modifies st
    ensures st[top].HoldsList(BuildWhens(whens)) && Below(st, top)
    ensures error == AnyWhenTooMany(whens, limit)
    decreases whens
  {
    var n := |whens| - 1;
    if n == 0 {
      assert BuildWhens(whens[..0]) == [];
      error := ParseWhen(whens[0], st, top, limit);
      st[top] := Minor(List([st[top + 1].word0.e, st[top + 3].word0.e]), Null, Null);
    } else {
      AnyWhenTooManyLast(whens, limit);
      var error1 := ParseWhens(whens[..n], st, top, limit);
      var error2 := ParseWhen(whens[n], st, top + 1, limit);
      error := error1 || error2;
      st[top] := st[top].(word0 := List(st[top].word0.es + [st[top + 2].word0.e, st[top + 4].word0.e]));
    }
  }

  /** A whole expression on an empty stack with enough room: one entry, tree, span and error as prescribed. */
  method ParseExpression(c: Cst, st: array<Minor>, limit: nat) returns (result: ExprSpan, error: bool)
    requires WF(c) && Room(c) <= st.Length
    modifies st
    ensures result == Build(c) && error == TooManyArgs(c, limit)
  {
    error := Parse(c, st, 0, limit);
    result := ExprSpan(st[0].word0.e, st[0].word1.p, st[0].word2.p);
  }
}
