/**
 The source text an expression is given: from the start of its first token to the end of its last,
 except where `IN table (list)` leaves its list out.
*/
module SqlSpans {
  import opened Options
  import opened SqlExpr

  /** All tokens of a parse, in source order. */
  function Tokens(c: Cst): (ts: seq<Token>)
    ensures ts != []
    decreases c
  {
    match c
    case Literal(t) => [t]
    case Name(t) => [t]
    case CTime(t) => [t]
    case Dotted(a, dot, b) => [a, dot, b]
    case Dotted3(a, dot, b, dot2, c) => [a, dot, b, dot2, c]
    case Paren(lp, e, rp) => [lp] + Tokens(e) + [rp]
    case Vector(lp, args, commas, rp) => [lp] + TokensAll(args, commas) + [rp]
    case Subselect(lp, select, rp) => [lp] + select + [rp]
    case Exists(kw, lp, select, rp) => [kw, lp] + select + [rp]
    case Collate(e, kw, coll) => Tokens(e) + [kw, coll]
    case Cast(kw, lp, e, as_, typetoken, rp) => [kw, lp] + Tokens(e) + [as_] + typetoken + [rp]
    case Call(name, lp, distinct, args, commas, rp) => [name, lp] + distinct + TokensAll(args, commas) + [rp]
    case CallStar(name, lp, star, rp) => [name, lp, star, rp]
    case Binary(l, op, r) => Tokens(l) + [op] + Tokens(r)
    case Like(l, not_, kw, r) => Tokens(l) + not_ + [kw] + Tokens(r)
    case LikeEscape(l, not_, kw, r, esc, x) => Tokens(l) + not_ + [kw] + Tokens(r) + [esc] + Tokens(x)
    case Postfix(e, op) => Tokens(e) + [op]
    case NotNull(e, not1, null_) => Tokens(e) + [not1, null_]
    case Is(l, kw, r) => Tokens(l) + [kw] + Tokens(r)
    case IsNot(l, kw, not1, r) => Tokens(l) + [kw, not1] + Tokens(r)
    case Prefix(op, e) => [op] + Tokens(e)
    case Between(e, not_, kw, lo, and_, hi) => Tokens(e) + not_ + [kw] + Tokens(lo) + [and_] + Tokens(hi)
    case InList(e, not_, kw, lp, args, commas, rp) => Tokens(e) + not_ + [kw, lp] + TokensAll(args, commas) + [rp]
    case InSelect(e, not_, kw, lp, select, rp) => Tokens(e) + not_ + [kw, lp] + select + [rp]
    case InTable(e, not_, kw, nm, dbnm, paren) =>
      Tokens(e) + not_ + [kw, nm] + dbnm
      + (if paren.ParenList? then [paren.lp] + TokensAll(paren.args, paren.commas) + [paren.rp] else [])
    case Case(kw, operand, whens, else_, end) =>
      [kw] + (if operand.Some? then Tokens(operand.value) else []) + TokensWhens(whens)
      + (if else_.Else? then [else_.kw] + Tokens(else_.e) else []) + [end]
  }

  function TokensAll(args: seq<Cst>, commas: seq<Token>): seq<Token>
    decreases args
  {
    var n := |args| - 1;
    if args == [] then []
    else TokensAll(args[..n], commas) + (if 0 < n <= |commas| then [commas[n - 1]] else []) + Tokens(args[n])
  }

  function TokensWhens(whens: seq<When>): seq<Token>
    decreases whens
  {
    if whens == [] then [] else TokensWhens(whens[..|whens| - 1]) + TokensWhen(whens[|whens| - 1])
  }

  function TokensWhen(w: When): seq<Token>
    decreases w
  {
    [w.when_] + Tokens(w.cond) + [w.then_] + Tokens(w.result)
  }

  function First(c: Cst): Token { Tokens(c)[0] }

  function Last(c: Cst): Token { Tokens(c)[|Tokens(c)| - 1] }

  /** As the tokenizer hands them over: none empty, each after the end of the one before. */
  predicate Ordered(ts: seq<Token>)
  {
    && (forall k :: 0 <= k < |ts| ==> 0 < ts[k].n)
    && (forall j, k :: 0 <= j < k < |ts| ==> ts[j].z + ts[j].n <= ts[k].z)
  }

  /** The last part of the parse is `IN table (list)`, which only the guard `paren_exprlist` decides. */
  predicate EndsShort(c: Cst)
    decreases c
  {
    match c
    case InTable(_, _, _, _, _, paren) => paren.ParenList?
    case Binary(_, _, r) => EndsShort(r)
    case Like(_, _, _, r) => EndsShort(r)
    case LikeEscape(_, _, _, _, _, x) => EndsShort(x)
    case Is(_, _, r) => EndsShort(r)
    case IsNot(_, _, _, r) => EndsShort(r)
    case Prefix(_, e) => EndsShort(e)
    case Between(_, _, _, _, _, hi) => EndsShort(hi)
    case _ => false
  }

  /** The operand on which the end of the span depends. */
  function Rightmost(c: Cst): (r: Option<Cst>)
    ensures r.Some? ==> r.value < c
  {
    match c
    case Binary(_, _, r) => Some(r)
    case Like(_, _, _, r) => Some(r)
    case LikeEscape(_, _, _, _, _, x) => Some(x)
    case Is(_, _, r) => Some(r)
    case IsNot(_, _, _, r) => Some(r)
    case Prefix(_, e) => Some(e)
    case Between(_, _, _, _, _, hi) => Some(hi)
    case _ => None
  }

  /** The operand on which the start of the span depends. */
  function Leftmost(c: Cst): (l: Option<Cst>)
    ensures l.Some? ==> l.value < c
  {
    match c
    case Collate(e, _, _) => Some(e)
    case Binary(l, _, _) => Some(l)
    case Like(l, _, _, _) => Some(l)
    case LikeEscape(l, _, _, _, _, _) => Some(l)
    case Postfix(e, _) => Some(e)
    case NotNull(e, _, _) => Some(e)
    case Is(l, _, _) => Some(l)
    case IsNot(l, _, _, _) => Some(l)
    case Between(e, _, _, _, _, _) => Some(e)
    case InList(e, _, _, _, _, _, _) => Some(e)
    case InSelect(e, _, _, _, _, _) => Some(e)
    case InTable(e, _, _, _, _, _) => Some(e)
    case _ => None
  }

  lemma StartsWithLeftmost(c: Cst)
    ensures Leftmost(c).Some? ==>
              Build(c).zStart == Build(Leftmost(c).value).zStart && First(c) == First(Leftmost(c).value)
    ensures Leftmost(c).None? ==> Build(c).zStart == First(c).z
  {
  }

  /** Every span starts where the first token of its parse starts. */
  lemma {:induction false} SpanStartsAtFirstToken(c: Cst)
    ensures Build(c).zStart == First(c).z
    decreases c
  {
    StartsWithLeftmost(c);
    hide Build, Tokens;
    if Leftmost(c).Some? {
      SpanStartsAtFirstToken(Leftmost(c).value);
    }
  }

  /** A rule that ends in an operand ends where that operand ends. */
  lemma EndsWithRightmost(c: Cst)
    requires Rightmost(c).Some?
    ensures Build(c).zEnd == Build(Rightmost(c).value).zEnd
    ensures EndsShort(c) == EndsShort(Rightmost(c).value)
    ensures |Tokens(Rightmost(c).value)| <= |Tokens(c)|
    ensures Tokens(c)[|Tokens(c)| - |Tokens(Rightmost(c).value)|..] == Tokens(Rightmost(c).value)
  {
  }

  lemma OrderedSuffix(ts: seq<Token>, k: nat)
    requires Ordered(ts) && k <= |ts|
    ensures Ordered(ts[k..])
  {
  }

  /** A rule that ends in a token of its own. */
  lemma EndsInToken(c: Cst)
    requires Rightmost(c).None? && !c.InTable?
    ensures Build(c).zEnd == Last(c).z + Last(c).n && !EndsShort(c)
  {
  }

  /** `IN table`: the end comes from the table name, whatever list follows it. */
  lemma TableEnds(c: Cst)
    requires c.InTable? && |c.dbnm| in {0, 2} && Ordered(Tokens(c))
    ensures var t := if c.dbnm == [] then c.nm else c.dbnm[1]; Build(c).zEnd == t.z + t.n
    ensures c.paren.NoList? ==> Build(c).zEnd == Last(c).z + Last(c).n
    ensures c.paren.ParenList? ==> Build(c).zEnd < Last(c).z + Last(c).n
  {
    match c
    case InTable(e, not_, kw, nm, dbnm, paren) =>
      var head := Tokens(e) + not_ + [kw, nm] + dbnm;
      assert head[|head| - 1] == if dbnm == [] then nm else dbnm[1];
      if paren.ParenList? {
        assert Tokens(c)[|head| - 1] == head[|head| - 1];
        assert Last(c) == paren.rp;
        hide TokensAll, EndsShort;
      } else {
        assert Tokens(c) == head;
      }
  }

  lemma RightmostWF(c: Cst)
    requires WF(c)
    ensures Rightmost(c).Some? ==> WF(Rightmost(c).value)
    ensures c.InTable? ==> |c.dbnm| in {0, 2} && EndsShort(c) == c.paren.ParenList?
  {
  }

  /** The span ends at the last token, unless the parse ends in `IN table (list)`: then it ends before. */
  lemma {:induction false} SpanEndsAtLastToken(c: Cst)
    requires WF(c) && Ordered(Tokens(c))
    ensures Build(c).zEnd == Last(c).z + Last(c).n <==> !EndsShort(c)
    ensures EndsShort(c) ==> Build(c).zEnd < Last(c).z + Last(c).n
    decreases c
  {
    hide Build, Tokens, WF, EndsShort, Rightmost;
    RightmostWF(c);
    if Rightmost(c).Some? {
      var r := Rightmost(c).value;
      EndsWithRightmost(c);
      OrderedSuffix(Tokens(c), |Tokens(c)| - |Tokens(r)|);
      SpanEndsAtLastToken(r);
    } else if c.InTable? {
      TableEnds(c);
    } else {
      EndsInToken(c);
    }
  }

  /** `x IN t (1)`. */
  function ListedTable(): Cst
  {
    InTable(Name(Token(ID, 0, 1, "x")), [], Token(IN, 2, 2, "IN"), Token(ID, 5, 1, "t"), [],
            ParenList(Token(OtherBinary(0), 7, 1, "("), [Literal(Token(INTEGER, 8, 1, "1"))], [],
                      Token(OtherBinary(0), 9, 1, ")")))
  }

  lemma ListedTokens()
    ensures var c := ListedTable();
            Tokens(c) == [c.e.t, c.kw, c.nm, c.paren.lp, c.paren.args[0].t, c.paren.rp] && Ordered(Tokens(c))
  {
    var c := ListedTable();
    assert TokensAll(c.paren.args, []) == [c.paren.args[0].t] by {
      assert c.paren.args[..0] == [];
    }
  }

  /** Ten bytes of text, of which the span is given the first six. */
  lemma TableListIsLeftOut()
    ensures var c := ListedTable();
            && WF(c) && Ordered(Tokens(c)) && First(c).z == 0 && Last(c).z + Last(c).n == 10
            && Build(c).zStart == 0 && Build(c).zEnd == 6
  {
    var c := ListedTable();
    assert WF(c.e) && WF(c.paren.args[0]);
    ListedTokens();
    hide Tokens, Ordered;
  }
}
