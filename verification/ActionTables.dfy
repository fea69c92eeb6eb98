/** The numeric layout of the generated parser (parse.c:306-329 and 718-773). */
module ParserCodes {
  const YYNOCODE: nat := 252
  const YYWILDCARD: nat := 96
  const YYSTACKDEPTH: nat := 100
  const YYNSTATE: nat := 460
  const YYNRULE: nat := 332
  const YY_MAX_SHIFT: nat := 459
  const YY_MIN_SHIFTREDUCE: nat := 672
  const YY_MAX_SHIFTREDUCE: nat := 1003
  const YY_MIN_REDUCE: nat := 1004
  const YY_MAX_REDUCE: nat := 1335
  const YY_ERROR_ACTION: nat := 1336
  const YY_ACCEPT_ACTION: nat := 1337
  const YY_ACTTAB_COUNT: nat := 1570
  const YY_SHIFT_MIN: int := -94
  const YY_REDUCE_COUNT: nat := 328
  const YY_REDUCE_USE_DFLT: int := -130
  /** Entries of yyFallback. */
  const FALLBACK_COUNT: nat := 96
  /** Symbols below this number are terminals, from "$" (0) to "error" (143). */
  const NTERMINAL: nat := 144
  /** The start symbol. */
  const INPUT: nat := 144

  /** A code for each state, a code twice over for each rule, and then the two special ones, as Lemon numbers them. */
  lemma CodesAreConsecutive()
    ensures YY_MAX_SHIFT + 1 == YYNSTATE && YY_MIN_SHIFTREDUCE + YYNRULE == YY_MAX_SHIFTREDUCE + 1
    ensures YY_MAX_SHIFTREDUCE + 1 == YY_MIN_REDUCE && YY_MIN_REDUCE + YYNRULE == YY_MAX_REDUCE + 1
    ensures YY_MAX_REDUCE + 1 == YY_ERROR_ACTION && YY_ERROR_ACTION + 1 == YY_ACCEPT_ACTION
  {
  }

  predicate IsShift(act: nat) { act <= YY_MAX_SHIFT }

  predicate IsShiftReduce(act: nat) { YY_MIN_SHIFTREDUCE <= act <= YY_MAX_SHIFTREDUCE }

  predicate IsReduce(act: nat) { YY_MIN_REDUCE <= act <= YY_MAX_REDUCE }

  /** What yy_shift and yy_reduce store in a stack entry: the code of a state, or of a pending reduction. */
  function Encode(act: nat): nat
  {
    if act > YY_MAX_SHIFT then act + (YY_MIN_REDUCE - YY_MIN_SHIFTREDUCE) else act
  }

  predicate IsStateCode(code: nat) { IsShift(code) || IsReduce(code) }
}

/** The action tables: as plain rows, and as Lemon packs them into one array. */
module ActionTables {
  import opened ParserCodes

  /** The uncompressed tables. A row holds only the entries that differ from the state's default. */
  datatype Automaton = Automaton(
    shiftRows: seq<map<nat, nat>>,
    gotoRows: seq<map<nat, nat>>,
    dflt: seq<nat>,
    fallback: seq<nat>,
    lhs: seq<nat>,
    nrhs: seq<nat>)
  {
    predicate WellFormed()
    {
      && |shiftRows| == |dflt| == YYNSTATE
      && |gotoRows| == YY_REDUCE_COUNT + 1
      && |fallback| == FALLBACK_COUNT && fallback[0] == 0
      && (forall t | 0 <= t < FALLBACK_COUNT :: fallback[t] < FALLBACK_COUNT)
      && (forall t {:trigger fallback[fallback[t]]} | 0 <= t < FALLBACK_COUNT :: fallback[fallback[t]] == 0)
      && |lhs| == |nrhs| == YYNRULE
      && (forall r | 0 <= r < YYNRULE :: NTERMINAL <= lhs[r] < YYNOCODE)
      && (forall s, t | 0 <= s < YYNSTATE && t in shiftRows[s] :: t < NTERMINAL)
      && (forall s, a | 0 <= s < |gotoRows| && a in gotoRows[s] :: NTERMINAL <= a < YYNOCODE)
    }

    function Fallback(t: nat): nat
      requires WellFormed()
    {
      if t < FALLBACK_COUNT then fallback[t] else 0
    }

    /** The meaning of a row: own entry, else the fallback token's, else the wildcard's, else the default. */
    function Lookup(s: nat, t: nat): nat
      requires WellFormed() && s < YYNSTATE
    {
      var row := shiftRows[s];
      if t in row then row[t]
      else if Fallback(t) != 0 && Fallback(t) in row then row[Fallback(t)]
      else if YYWILDCARD in row && t > 0 then row[YYWILDCARD]
      else dflt[s]
    }

    /** The action for the code on top of the stack; a pending reduction ignores the lookahead. */
    function ActionFor(code: nat, t: nat): nat
      requires WellFormed() && IsStateCode(code)
    {
      if code >= YY_MIN_REDUCE then code else Lookup(code, t)
    }
  }

  /** How a token is read where a set of terminals is wanted: as itself, as its fallback, or as the wildcard. */
  predicate ReadAs(A: Automaton, t: nat, sym: nat)
    requires A.WellFormed()
  {
    || sym == t
    || (t < FALLBACK_COUNT && sym == A.fallback[t] != 0)
    || (0 < t < NTERMINAL && sym == YYWILDCARD)
  }

  /**
   The action of state s for token t, said on its row: the entry of t; else that of its fallback; else that of the
   wildcard; and the default exactly when there is no entry for anything t is read as.
   */
  ghost predicate Acts(A: Automaton, s: nat, t: nat, act: nat)
    requires A.WellFormed() && s < YYNSTATE
  {
    var row := A.shiftRows[s];
    var viaFallback := t < FALLBACK_COUNT && A.fallback[t] != 0 && A.fallback[t] in row;
    && (t in row ==> act == row[t])
    && (t !in row && viaFallback ==> act == row[A.fallback[t]])
    && (t !in row && !viaFallback && t > 0 && YYWILDCARD in row ==> act == row[YYWILDCARD])
    && ((forall sym | sym in row :: !ReadAs(A, t, sym)) ==> act == A.dflt[s])
  }

  lemma LookupActs(A: Automaton, s: nat, t: nat)
    requires A.WellFormed() && s < YYNSTATE && t < NTERMINAL
    ensures Acts(A, s, t, A.Lookup(s, t))
    ensures (exists sym :: sym in A.shiftRows[s] && ReadAs(A, t, sym))
        ==> exists sym :: sym in A.shiftRows[s] && ReadAs(A, t, sym) && A.Lookup(s, t) == A.shiftRows[s][sym]
  {
    var row := A.shiftRows[s];
    if t in row {
      assert ReadAs(A, t, t);
    } else if t < FALLBACK_COUNT && A.fallback[t] != 0 && A.fallback[t] in row {
      assert ReadAs(A, t, A.fallback[t]);
    } else if t > 0 && YYWILDCARD in row {
      assert ReadAs(A, t, YYWILDCARD);
    }
  }

  /** yy_action, yy_lookahead, yy_shift_ofst, yy_reduce_ofst, yy_default, yyFallback and yyRuleInfo. */
  datatype Tables = Tables(
    action: seq<nat>,
    lookahead: seq<nat>,
    shiftOfst: seq<int>,
    reduceOfst: seq<int>,
    dflt: seq<nat>,
    fallback: seq<nat>,
    lhs: seq<nat>,
    nrhs: seq<nat>)

  /** Every entry of the row sits at its offset, marked with its own lookahead. */
  ghost predicate Places(T: Tables, ofst: int, row: map<nat, nat>)
    requires |T.action| == |T.lookahead| == YY_ACTTAB_COUNT
  {
    forall t | t in row ::
      && 0 <= ofst + t < YY_ACTTAB_COUNT
      && T.lookahead[ofst + t] == t
      && T.action[ofst + t] == row[t]
  }

  /** Some row of the list put an entry into slot i. */
  ghost predicate PlacedBy(ofsts: seq<int>, rows: seq<map<nat, nat>>, la: nat, i: int)
    requires |ofsts| == |rows|
  {
    exists s | 0 <= s < |rows| :: ofsts[s] + la == i && la in rows[s]
  }

  ghost predicate RowsAgree(ofsts: seq<int>, rows: seq<map<nat, nat>>)
    requires |ofsts| == |rows|
  {
    forall s, s' | 0 <= s < |rows| && 0 <= s' < |rows| && ofsts[s] == ofsts[s'] :: rows[s] == rows[s']
  }

  /**
   What the packing of rows into one array guarantees, stated from the side of the packer: rows are
   placed at their offsets, no slot is filled by anything else, and two rows share an offset only when
   they are the same row. That a lookup never sees another row's entry is a consequence (HitIsOwn).
   */
  ghost predicate Packs(T: Tables, A: Automaton)
  {
    && A.WellFormed()
    && |T.action| == |T.lookahead| == YY_ACTTAB_COUNT
    && T.dflt == A.dflt && T.fallback == A.fallback && T.lhs == A.lhs && T.nrhs == A.nrhs
    && |T.shiftOfst| == |A.shiftRows| && |T.reduceOfst| == |A.gotoRows|
    && (forall s | 0 <= s < |T.shiftOfst| :: T.shiftOfst[s] >= YY_SHIFT_MIN)
    && (forall s | 0 <= s < |T.shiftOfst| :: Places(T, T.shiftOfst[s], A.shiftRows[s]))
    && (forall s | 0 <= s < |T.reduceOfst| :: Places(T, T.reduceOfst[s], A.gotoRows[s]))
    && (forall s | 0 <= s < |T.reduceOfst| :: A.gotoRows[s] != map[] ==> T.reduceOfst[s] != YY_REDUCE_USE_DFLT)
    && RowsAgree(T.shiftOfst, A.shiftRows)
    && (forall i {:trigger PlacedBy(T.shiftOfst, A.shiftRows, T.lookahead[i], i)} | 0 <= i < YY_ACTTAB_COUNT ::
          T.lookahead[i] < NTERMINAL ==> PlacedBy(T.shiftOfst, A.shiftRows, T.lookahead[i], i))
  }

  predicate Hit(T: Tables, i: int, la: nat)
    requires |T.lookahead| == YY_ACTTAB_COUNT
  {
    0 <= i < YY_ACTTAB_COUNT && T.lookahead[i] == la
  }

  /** The lookahead check succeeds exactly on the state's own entries, whatever rows overlap it. */
  lemma HitIsOwn(T: Tables, A: Automaton, s: nat, la: nat)
    requires Packs(T, A) && s < YYNSTATE && la < NTERMINAL
    ensures Hit(T, T.shiftOfst[s] + la, la) <==> la in A.shiftRows[s]
    ensures la in A.shiftRows[s] ==> T.action[T.shiftOfst[s] + la] == A.shiftRows[s][la]
  {
    var i := T.shiftOfst[s] + la;
    assert Places(T, T.shiftOfst[s], A.shiftRows[s]);
    if Hit(T, i, la) {
      assert PlacedBy(T.shiftOfst, A.shiftRows, T.lookahead[i], i);
      var s' :| 0 <= s' < |A.shiftRows| && T.shiftOfst[s'] + la == i && la in A.shiftRows[s'];
      assert T.shiftOfst[s'] == T.shiftOfst[s];
    }
  }

  /** yy_find_shift_action (parse.c:1721-1778): retries once with the fallback token, then tries the wildcard. */
  method FindShiftAction(T: Tables, ghost A: Automaton, code: nat, la: nat) returns (act: nat)
    requires Packs(T, A) && IsStateCode(code) && la < NTERMINAL
    ensures act == A.ActionFor(code, la)
    ensures if code >= YY_MIN_REDUCE then act == code else Acts(A, code, la, act)
  {
    if code < YY_MIN_REDUCE { LookupActs(A, code, la); }
    hide Acts;
    var stateno, iLookAhead := code, la;
    if stateno >= YY_MIN_REDUCE {
      return stateno;
    }
    while true
      invariant stateno == code < YYNSTATE && iLookAhead < NTERMINAL
      invariant iLookAhead == la || (iLookAhead == A.Fallback(la) != 0 && la !in A.shiftRows[code])
      decreases A.Fallback(iLookAhead)
    {
      var i := T.shiftOfst[stateno];
      i := i + iLookAhead;
      HitIsOwn(T, A, stateno, iLookAhead);
      if i < 0 || i >= YY_ACTTAB_COUNT || T.lookahead[i] != iLookAhead {
        if iLookAhead < FALLBACK_COUNT {
          var iFallback := T.fallback[iLookAhead];
          if iFallback != 0 {
            assert T.fallback[iFallback] == 0;
            iLookAhead := iFallback;
            continue;
          }
        }
        var j := i - iLookAhead + YYWILDCARD;
        HitIsOwn(T, A, stateno, YYWILDCARD);
        if j < YY_ACTTAB_COUNT && T.lookahead[j] == YYWILDCARD && iLookAhead > 0 {
          return T.action[j];
        }
        return T.dflt[stateno];
      } else {
        return T.action[i];
      }
    }
  }

  /** yy_find_reduce_action (parse.c:1784-1809): its asserts hold whenever the goto row has the symbol. */
  method FindReduceAction(T: Tables, ghost A: Automaton, stateno: nat, la: nat) returns (act: nat)
    requires Packs(T, A) && stateno < |A.gotoRows| && la in A.gotoRows[stateno]
    ensures act == A.gotoRows[stateno][la]
  {
    assert stateno <= YY_REDUCE_COUNT;
    assert Places(T, T.reduceOfst[stateno], A.gotoRows[stateno]);
    var i := T.reduceOfst[stateno];
    assert i != YY_REDUCE_USE_DFLT;
    i := i + la;
    assert 0 <= i < YY_ACTTAB_COUNT;
    assert T.lookahead[i] == la;
    return T.action[i];
  }
}
