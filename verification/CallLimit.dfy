/**
 The limit of function arguments, on the expression and on the tree: an error means a call that is too long, and
 no error means that the tree holds none, but for the two or three arguments that LIKE becomes.
 */
module CallLimit {
  import opened Options
  import opened SqlExpr
  import opened ExprParser

  /** d is c or a part of it. */
  ghost predicate Inside(d: Cst, c: Cst)
    decreases c
  {
    d == c ||
    match c
    case Paren(_, e, _) => Inside(d, e)
    case Vector(_, args, _, _) => InsideAny(d, args)
    case Collate(e, _, _) => Inside(d, e)
    case Cast(_, _, e, _, _, _) => Inside(d, e)
    case Call(_, _, _, args, _, _) => InsideAny(d, args)
    case Binary(l, _, r) => Inside(d, l) || Inside(d, r)
    case Like(l, _, _, r) => Inside(d, l) || Inside(d, r)
    case LikeEscape(l, _, _, r, _, x) => Inside(d, l) || Inside(d, r) || Inside(d, x)
    case Postfix(e, _) => Inside(d, e)
    case NotNull(e, _, _) => Inside(d, e)
    case Is(l, _, r) => Inside(d, l) || Inside(d, r)
    case IsNot(l, _, _, r) => Inside(d, l) || Inside(d, r)
    case Prefix(_, e) => Inside(d, e)
    case Between(e, _, _, lo, _, hi) => Inside(d, e) || Inside(d, lo) || Inside(d, hi)
    case InList(e, _, _, _, args, _, _) => Inside(d, e) || InsideAny(d, args)
    case InSelect(e, _, _, _, _, _) => Inside(d, e)
    case InTable(e, _, _, _, _, paren) => Inside(d, e) || (paren.ParenList? && InsideAny(d, paren.args))
    case Case(_, operand, whens, else_, _) =>
      || (operand.Some? && Inside(d, operand.value))
      || (exists k :: 0 <= k < |whens| && InsideWhen(d, whens[k]))
      || (else_.Else? && Inside(d, else_.e))
    case _ => false
  }

  ghost predicate InsideAny(d: Cst, args: seq<Cst>)
    decreases args
  {
    exists k :: 0 <= k < |args| && Inside(d, args[k])
  }

  ghost predicate InsideWhen(d: Cst, w: When)
    decreases w
  {
    Inside(d, w.cond) || Inside(d, w.result)
  }

  predicate IsLong(d: Cst, limit: nat) { d.Call? && |d.args| > limit }

  /** An error is reported because of a call that is there. */
  lemma {:induction false} ErrorMeansLongCall(c: Cst, limit: nat) returns (d: Cst)
    requires TooManyArgs(c, limit)
    ensures Inside(d, c) && IsLong(d, limit)
    decreases c
  {
    match c
    case Paren(_, e, _) => d := ErrorMeansLongCall(e, limit);
    case Vector(_, args, _, _) => d := AnyLongCall(args, limit);
    case Collate(e, _, _) => d := ErrorMeansLongCall(e, limit);
    case Cast(_, _, e, _, _, _) => d := ErrorMeansLongCall(e, limit);
    case Call(_, _, _, args, _, _) => if |args| > limit { d := c; } else { d := AnyLongCall(args, limit); }
    case Binary(l, _, r) => d := ErrorMeansLongCall(if TooManyArgs(l, limit) then l else r, limit);
    case Like(l, _, _, r) => d := ErrorMeansLongCall(if TooManyArgs(l, limit) then l else r, limit);
    case LikeEscape(l, _, _, r, _, x) =>
      d := ErrorMeansLongCall(if TooManyArgs(l, limit) then l else if TooManyArgs(r, limit) then r else x, limit);
    case Postfix(e, _) => d := ErrorMeansLongCall(e, limit);
    case NotNull(e, _, _) => d := ErrorMeansLongCall(e, limit);
    case Is(l, _, r) => d := ErrorMeansLongCall(if TooManyArgs(l, limit) then l else r, limit);
    case IsNot(l, _, _, r) => d := ErrorMeansLongCall(if TooManyArgs(l, limit) then l else r, limit);
    case Prefix(_, e) => d := ErrorMeansLongCall(e, limit);
    case Between(e, _, _, lo, _, hi) =>
      d := ErrorMeansLongCall(if TooManyArgs(e, limit) then e else if TooManyArgs(lo, limit) then lo else hi, limit);
    case InList(e, _, _, _, args, _, _) =>
      if TooManyArgs(e, limit) { d := ErrorMeansLongCall(e, limit); } else { d := AnyLongCall(args, limit); }
    case InSelect(e, _, _, _, _, _) => d := ErrorMeansLongCall(e, limit);
    case InTable(e, _, _, _, _, paren) =>
      if TooManyArgs(e, limit) { d := ErrorMeansLongCall(e, limit); } else { d := AnyLongCall(paren.args, limit); }
    case Case(_, operand, whens, else_, _) =>
      if operand.Some? && TooManyArgs(operand.value, limit) {
        d := ErrorMeansLongCall(operand.value, limit);
      } else if AnyWhenTooMany(whens, limit) {
        var k :| 0 <= k < |whens| && WhenTooMany(whens[k], limit);
        var w := whens[k];
        d := ErrorMeansLongCall(if TooManyArgs(w.cond, limit) then w.cond else w.result, limit);
        assert InsideWhen(d, whens[k]);
      } else {
        d := ErrorMeansLongCall(else_.e, limit);
      }
  }

  lemma {:induction false} AnyLongCall(args: seq<Cst>, limit: nat) returns (d: Cst)
    requires AnyTooMany(args, limit)
    ensures InsideAny(d, args) && IsLong(d, limit)
    decreases args
  {
    var k :| 0 <= k < |args| && TooManyArgs(args[k], limit);
    d := ErrorMeansLongCall(args[k], limit);
    assert Inside(d, args[k]);
  }

  /** And every such call is reported. */
  lemma {:induction c} LongCallMeansError(d: Cst, c: Cst, limit: nat)
    requires Inside(d, c) && IsLong(d, limit)
    ensures TooManyArgs(c, limit)
    decreases c
  {
    if c.Case? {
      if k :| 0 <= k < |c.whens| && InsideWhen(d, c.whens[k]) {
        LongCallMeansError(d, if Inside(d, c.whens[k].cond) then c.whens[k].cond else c.whens[k].result, limit);
        assert WhenTooMany(c.whens[k], limit);
      }
    }
  }

  /** No call of the tree has more arguments than that. */
  predicate CallsWithin(e: Expr, n: nat)
    decreases e
  {
    e.Node? ==>
      && (e.op in {FUNCTION, FUNCTION_DISTINCT} ==> |e.list| <= n)
      && (e.left.Some? ==> CallsWithin(e.left.value, n)) && (e.right.Some? ==> CallsWithin(e.right.value, n))
      && forall k :: 0 <= k < |e.list| ==> CallsWithin(e.list[k], n)
  }

  predicate AllWithin(es: seq<Expr>, n: nat)
  {
    forall k :: 0 <= k < |es| ==> CallsWithin(es[k], n)
  }

  /** Without an error, the tree the actions build keeps the limit. */
  lemma {:induction false} NoErrorKeepsLimit(c: Cst, limit: nat)
    requires !TooManyArgs(c, limit)
    ensures CallsWithin(Build(c).pExpr, Max(limit, 3))
    decreases c, 1
  {
    hide CallsWithin, Build, TooManyArgs;
    if TokensOnly(c) {
      TokensKeepLimit(c, limit);
    } else if c.Like? || c.LikeEscape? || c.Between? {
      ListsKeepLimit(c, limit);
    } else if OfOperator(c) {
      OperatorsKeepLimit(c, limit);
    } else if c.InList? || c.InTable? || c.Case? {
      TestsKeepLimit(c, limit);
    } else {
      OthersKeepLimit(c, limit);
    }
  }

  lemma TokensKeepLimit(c: Cst, limit: nat)
    requires TokensOnly(c)
    ensures CallsWithin(Build(c).pExpr, Max(limit, 3))
  {
  }

  lemma {:induction false} ListsKeepLimit(c: Cst, limit: nat)
    requires (c.Like? || c.LikeEscape? || c.Between?) && !TooManyArgs(c, limit)
    ensures CallsWithin(Build(c).pExpr, Max(limit, 3))
    decreases c, 0
  {
    match c
    case Like(l, _, _, r) => NoErrorKeepsLimit(l, limit); NoErrorKeepsLimit(r, limit);
    case LikeEscape(l, _, _, r, _, x) =>
      NoErrorKeepsLimit(l, limit); NoErrorKeepsLimit(r, limit); NoErrorKeepsLimit(x, limit);
    case Between(e, _, _, lo, _, hi) =>
      NoErrorKeepsLimit(e, limit); NoErrorKeepsLimit(lo, limit); NoErrorKeepsLimit(hi, limit);
  }

  lemma {:induction false} OperatorsKeepLimit(c: Cst, limit: nat)
    requires OfOperator(c) && !c.Like? && !c.LikeEscape? && !c.Between? && !TooManyArgs(c, limit)
    ensures CallsWithin(Build(c).pExpr, Max(limit, 3))
    decreases c, 0
  {
    match c
    case Binary(l, _, r) => NoErrorKeepsLimit(l, limit); NoErrorKeepsLimit(r, limit);
    case Postfix(e, _) => NoErrorKeepsLimit(e, limit);
    case NotNull(e, _, _) => NoErrorKeepsLimit(e, limit);
    case Is(l, _, r) => NoErrorKeepsLimit(l, limit); NoErrorKeepsLimit(r, limit);
    case IsNot(l, _, _, r) => NoErrorKeepsLimit(l, limit); NoErrorKeepsLimit(r, limit);
    case Prefix(_, e) => NoErrorKeepsLimit(e, limit);
  }

  lemma {:induction false} TestsKeepLimit(c: Cst, limit: nat)
    requires (c.InList? || c.InTable? || c.Case?) && !TooManyArgs(c, limit)
    ensures CallsWithin(Build(c).pExpr, Max(limit, 3))
    decreases c, 0
  {
    match c
    case InList(e, _, _, _, args, _, _) => NoErrorKeepsLimit(e, limit); AllKeepLimit(args, limit);
    case InTable(e, _, _, _, _, paren) =>
      NoErrorKeepsLimit(e, limit);
      if paren.ParenList? { AllKeepLimit(paren.args, limit); }
    case Case(_, operand, whens, else_, _) =>
      if operand.Some? { NoErrorKeepsLimit(operand.value, limit); }
      WhensKeepLimit(whens, limit);
      if else_.Else? { NoErrorKeepsLimit(else_.e, limit); }
  }

  lemma {:induction false} OthersKeepLimit(c: Cst, limit: nat)
    requires OfOther(c) && !c.InList? && !c.InTable? && !c.Case? && !TooManyArgs(c, limit)
    ensures CallsWithin(Build(c).pExpr, Max(limit, 3))
    decreases c, 0
  {
    match c
    case Paren(_, e, _) => NoErrorKeepsLimit(e, limit);
    case Vector(_, args, _, _) => AllKeepLimit(args, limit);
    case Collate(e, _, _) => NoErrorKeepsLimit(e, limit);
    case Cast(_, _, e, _, _, _) => NoErrorKeepsLimit(e, limit);
    case Call(_, _, _, args, _, _) => AllKeepLimit(args, limit);
    case InSelect(e, _, _, _, _, _) => NoErrorKeepsLimit(e, limit);
  }

  lemma {:induction false} AllKeepLimit(args: seq<Cst>, limit: nat)
    requires !AnyTooMany(args, limit)
    ensures AllWithin(BuildAll(args), Max(limit, 3))
    decreases args
  {
    hide CallsWithin, Build, TooManyArgs;
    if args != [] {
      AnyTooManyLast(args, limit);
      AllKeepLimit(args[..|args| - 1], limit);
      NoErrorKeepsLimit(args[|args| - 1], limit);
    }
  }

  lemma {:induction false} WhensKeepLimit(whens: seq<When>, limit: nat)
    requires !AnyWhenTooMany(whens, limit)
    ensures AllWithin(BuildWhens(whens), Max(limit, 3))
    decreases whens
  {
    hide CallsWithin, Build, TooManyArgs;
    if whens != [] {
      AnyWhenTooManyLast(whens, limit);
      WhensKeepLimit(whens[..|whens| - 1], limit);
      WhenKeepsLimit(whens[|whens| - 1], limit);
    }
  }

  lemma {:induction false} WhenKeepsLimit(w: When, limit: nat)
    requires !WhenTooMany(w, limit)
    ensures AllWithin(BuildWhen(w), Max(limit, 3))
    decreases w
  {
    hide CallsWithin, Build, TooManyArgs;
    NoErrorKeepsLimit(w.cond, limit);
    NoErrorKeepsLimit(w.result, limit);
  }
}
