/** Ownership: every semantic value goes to exactly one reduce action or to exactly one destructor call. */
module ParserLedger {
  import opened ParserCodes
  import opened ActionTables
  import opened PushDown

  /** The values event number n brings into being: a token's, or the left-hand side's of a reduction. */
  function MadeBy(e: Event, n: nat): seq<Tree>
  {
    match e
    case Shifted(tok) => [Leaf(tok, n)]
    case SyntaxError(tok) => [Leaf(tok, n)]
    case Reduced(r, args) => [Node(r, args, n)]
    case _ => []
  }

  /** The values an event hands to a reduce action, or, on acceptance, to the client. */
  function TakenBy(e: Event): seq<Tree>
  {
    match e
    case Reduced(_, args) => args
    case Accepted(v) => [v]
    case _ => []
  }

  function FreedBy(e: Event): seq<Tree>
  {
    match e
    case Destroyed(_, v) => [v]
    case _ => []
  }

  /** How often v occurs. */
  function Count(ts: seq<Tree>, v: Tree): nat
  {
    if ts == [] then 0 else Count(ts[..|ts| - 1], v) + if ts[|ts| - 1] == v then 1 else 0
  }

  function Made(log: seq<Event>, v: Tree): nat
  {
    if log == [] then 0 else Made(log[..|log| - 1], v) + Count(MadeBy(log[|log| - 1], |log| - 1), v)
  }

  function Taken(log: seq<Event>, v: Tree): nat
  {
    if log == [] then 0 else Taken(log[..|log| - 1], v) + Count(TakenBy(log[|log| - 1]), v)
  }

  function Freed(log: seq<Event>, v: Tree): nat
  {
    if log == [] then 0 else Freed(log[..|log| - 1], v) + Count(FreedBy(log[|log| - 1]), v)
  }

  /** How often v is held on the stack; the bottom entry's value was never written. */
  function Held(stack: seq<Entry>, v: Tree): nat
  {
    Count(Minors(stack), v)
  }

  /** Each time v was made, it was handed over, destroyed or kept, except `lost` times. */
  predicate Balanced(log: seq<Event>, stack: seq<Entry>, v: Tree, lost: nat)
  {
    && stack != [] && stack[0].minor.Unset? && !v.Unset?
    && Made(log, v) == Taken(log, v) + Freed(log, v) + Held(stack, v) + lost
  }

  lemma LogGrows(log: seq<Event>, e: Event, v: Tree)
    ensures Made(log + [e], v) == Made(log, v) + Count(MadeBy(e, |log|), v)
    ensures Taken(log + [e], v) == Taken(log, v) + Count(TakenBy(e), v)
    ensures Freed(log + [e], v) == Freed(log, v) + Count(FreedBy(e), v)
  {
    assert (log + [e])[..|log|] == log;
  }

  lemma LogGrowsTwice(log: seq<Event>, e: Event, e': Event, v: Tree)
    ensures Made(log + [e, e'], v) == Made(log, v) + Count(MadeBy(e, |log|), v) + Count(MadeBy(e', |log| + 1), v)
    ensures Taken(log + [e, e'], v) == Taken(log, v) + Count(TakenBy(e), v) + Count(TakenBy(e'), v)
    ensures Freed(log + [e, e'], v) == Freed(log, v) + Count(FreedBy(e), v) + Count(FreedBy(e'), v)
  {
    hide Made, Taken, Freed, MadeBy, TakenBy, FreedBy, Count;
    var mid := log + [e];
    assert log + [e, e'] == mid + [e'];
    LogGrows(log, e, v);
    LogGrows(mid, e', v);
  }

  lemma CountOne(t: Tree, v: Tree)
    ensures Count([t], v) == if t == v then 1 else 0
  {
    assert [t][..0] == [];
  }

  lemma {:induction false} CountConcat(a: seq<Tree>, b: seq<Tree>, v: Tree)
    ensures Count(a + b, v) == Count(a, v) + Count(b, v)
    decreases |b|
  {
    if b == [] {
      assert a + b == a;
    } else {
      assert (a + b)[..|a + b| - 1] == a + b[..|b| - 1];
      CountConcat(a, b[..|b| - 1], v);
    }
  }

  lemma HeldConcat(a: seq<Entry>, b: seq<Entry>, v: Tree)
    ensures Held(a + b, v) == Held(a, v) + Held(b, v)
  {
    assert Minors(a + b) == Minors(a) + Minors(b);
    hide Minors;
    CountConcat(Minors(a), Minors(b), v);
  }

  lemma HeldOne(e: Entry, v: Tree)
    ensures Held([e], v) == if e.minor == v then 1 else 0
  {
    assert Minors([e]) == [e.minor];
    CountOne(e.minor, v);
  }

  /** Destroying a run of entries frees their values, each once, and does nothing else. */
  lemma {:induction false} DestroysFree(log: seq<Event>, es: seq<Entry>, v: Tree)
    ensures var log' := log + Destroys(es);
            && Made(log', v) == Made(log, v) && Taken(log', v) == Taken(log, v)
            && Freed(log', v) == Freed(log, v) + Held(es, v)
    decreases |es|
  {
    hide Made, Taken, Freed;
    if es == [] {
      assert log + Destroys(es) == log;
    } else {
      var front, top := es[..|es| - 1], Top(es);
      var e := Destroyed(top.major, top.minor);
      assert log + Destroys(es) == log + [e] + Destroys(front) && es == front + [top];
      assert Count([], v) == 0;
      hide Count, Destroys, Held;
      HeldConcat(front, [top], v);
      HeldOne(top, v);
      CountOne(top.minor, v);
      LogGrows(log, e, v);
      DestroysFree(log + [e], front, v);
    }
  }

  lemma OverflowLog(log: seq<Event>, es: seq<Entry>, v: Tree)
    ensures var log' := log + Destroys(es) + [Overflowed];
            && Made(log', v) == Made(log, v) && Taken(log', v) == Taken(log, v)
            && Freed(log', v) == Freed(log, v) + Held(es, v)
  {
    assert Count([], v) == 0;
    hide Made, Taken, Freed, Count, Destroys, Held;
    DestroysFree(log, es, v);
    LogGrows(log + Destroys(es), Overflowed, v);
  }

  /** How often a step forgets v without destroying it: once, if v is on top of a full stack met by an empty rule. */
  function LostIn(A: Automaton, c: Config, v: Tree): nat
    requires A.WellFormed()
  {
    if Ready(A, c) && Full(Fixed, c.stack) && Top(c.stack).minor == v
       && var act := A.ActionFor(Top(c.stack).stateno, c.input[0].major);
          IsReduce(act) && A.nrhs[act - YY_MIN_REDUCE] == 0
    then 1 else 0
  }

  function LostBy(A: Automaton, c: Config, n: nat, v: Tree): nat
    requires A.WellFormed()
  {
    if n == 0 then 0 else LostBy(A, c, n - 1, v) + LostIn(A, Run(A, Fixed, c, n - 1), v)
  }

  /** The bottom, what is popped, and what is forgotten make up the stack. */
  lemma OverflowBalanced(log: seq<Event>, stack: seq<Entry>, hi: nat, v: Tree, lost: nat)
    requires 1 <= hi <= |stack| && Balanced(log, stack, v, lost)
    ensures Balanced(log + Destroys(stack[1..hi]) + [Overflowed], stack[..1], v, lost + Held(stack[hi..], v))
  {
    var popped := stack[1..hi];
    assert stack == stack[..1] + (popped + stack[hi..]);
    hide Made, Taken, Freed, Held, Destroys;
    HeldConcat(stack[..1], popped + stack[hi..], v);
    HeldConcat(popped, stack[hi..], v);
    OverflowLog(log, popped, v);
  }

  lemma FoldBalanced(log: seq<Event>, stack: seq<Entry>, base: nat, r: nat, e: Entry, v: Tree, lost: nat)
    requires 1 <= base <= |stack| && Balanced(log, stack, v, lost)
    requires e.minor == Node(r, Minors(stack[base..]), |log|)
    ensures Balanced(log + [Reduced(r, Minors(stack[base..]))], stack[..base] + [e], v, lost)
  {
    assert stack == stack[..base] + stack[base..];
    HeldConcat(stack[..base], stack[base..], v);
    HeldConcat(stack[..base], [e], v);
    HeldOne(e, v);
    LogGrows(log, Reduced(r, Minors(stack[base..])), v);
    CountOne(e.minor, v);
    assert Count([], v) == 0;
    hide Made, Taken, Freed, Minors, Count;
  }

  lemma AcceptBalanced(log: seq<Event>, stack: seq<Entry>, base: nat, r: nat, v: Tree, lost: nat)
    requires 1 <= base <= |stack| && Balanced(log, stack, v, lost)
    ensures var args := Minors(stack[base..]);
            Balanced(log + [Reduced(r, args), Accepted(Node(r, args, |log|))], stack[..base], v, lost)
  {
    var args := Minors(stack[base..]);
    assert Count([], v) == 0;
    assert stack == stack[..base] + stack[base..];
    var e, e' := Reduced(r, args), Accepted(Node(r, args, |log|));
    assert MadeBy(e, |log|) == TakenBy(e') && TakenBy(e) == args
        && MadeBy(e', |log| + 1) == FreedBy(e) == FreedBy(e') == [];
    hide Made, Taken, Freed, Count, Minors, MadeBy, TakenBy, FreedBy;
    HeldConcat(stack[..base], stack[base..], v);
    LogGrowsTwice(log, e, e', v);
  }

  lemma ForgetBalanced(c: Config, v: Tree, lost: nat)
    requires |c.stack| > 1 && c.input != [] && Balanced(c.log, c.stack, v, lost)
    ensures var c' := Overflow(c, c.stack[1..|c.stack| - 1]);
            Balanced(c'.log, c'.stack, v, lost + if Top(c.stack).minor == v then 1 else 0)
  {
    assert c.stack[|c.stack| - 1..] == [Top(c.stack)];
    HeldOne(Top(c.stack), v);
    hide Balanced, Held, Destroys;
    OverflowBalanced(c.log, c.stack, |c.stack| - 1, v, lost);
  }

  lemma FoldStepBalanced(A: Automaton, c: Config, r: nat, v: Tree, lost: nat)
    requires A.WellFormed() && r < YYNRULE && ReduceReady(A, c.stack, r) && Balanced(c.log, c.stack, v, lost)
    ensures Balanced(FoldStep(A, c, r).log, FoldStep(A, c, r).stack, v, lost)
  {
    hide Balanced, Minors, GotoOf;
    FoldBalanced(c.log, c.stack, |c.stack| - A.nrhs[r], r, Folded(A, c.stack, r, |c.log|), v, lost);
  }

  lemma AcceptStepBalanced(A: Automaton, c: Config, r: nat, v: Tree, lost: nat)
    requires A.WellFormed() && r < YYNRULE && ReduceReady(A, c.stack, r) && c.input != []
    requires Balanced(c.log, c.stack, v, lost)
    ensures Balanced(AcceptStep(A, c, r).log, AcceptStep(A, c, r).stack, v, lost)
  {
    hide Balanced, Minors, GotoOf;
    AcceptBalanced(c.log, c.stack, |c.stack| - A.nrhs[r], r, v, lost);
  }

  lemma ReduceBalanced(A: Automaton, c: Config, r: nat, v: Tree, lost: nat)
    requires A.WellFormed() && r < YYNRULE && ReduceReady(A, c.stack, r) && c.input != []
    requires Balanced(c.log, c.stack, v, lost)
    ensures var c', forgets := ReduceStep(A, Fixed, c, r), A.nrhs[r] == 0 && Full(Fixed, c.stack);
            Balanced(c'.log, c'.stack, v, lost + if forgets && Top(c.stack).minor == v then 1 else 0)
  {
    hide Balanced, GotoOf, FoldStep, AcceptStep, Overflow, ReduceReady;
    if A.nrhs[r] == 0 && Full(Fixed, c.stack) {
      ForgetBalanced(c, v, lost);
    } else if GotoOf(A, c.stack, r) <= YY_MAX_SHIFTREDUCE {
      FoldStepBalanced(A, c, r, v, lost);
    } else {
      AcceptStepBalanced(A, c, r, v, lost);
    }
  }

  lemma PushBalanced(log: seq<Event>, stack: seq<Entry>, e: Entry, tok: Token, v: Tree, lost: nat)
    requires Balanced(log, stack, v, lost) && e.minor == Leaf(tok, |log|)
    ensures Balanced(log + [Shifted(tok)], stack + [e], v, lost)
  {
    LogGrows(log, Shifted(tok), v);
    HeldConcat(stack, [e], v);
    HeldOne(e, v);
    CountOne(e.minor, v);
    assert Count([], v) == 0;
    hide Made, Taken, Freed, Held, Count;
  }

  lemma ShiftBalanced(c: Config, act: nat, v: Tree, lost: nat)
    requires c.stack != [] && c.input != [] && Balanced(c.log, c.stack, v, lost)
    ensures var c' := ShiftStep(Fixed, c, act); Balanced(c'.log, c'.stack, v, lost)
  {
    if Full(Fixed, c.stack) {
      assert c.stack[1..|c.stack|] == c.stack[1..] && Held(c.stack[|c.stack|..], v) == 0;
      hide Balanced, Held;
      OverflowBalanced(c.log, c.stack, |c.stack|, v, lost);
    } else {
      var tok := c.input[0];
      hide Balanced;
      PushBalanced(c.log, c.stack, Entry(Encode(act), tok.major, Leaf(tok, |c.log|)), tok, v, lost);
    }
  }

  lemma ErrorBalanced(c: Config, v: Tree, lost: nat)
    requires c.input != [] && Balanced(c.log, c.stack, v, lost)
    ensures Balanced(ErrorStep(c).log, c.stack, v, lost)
  {
    assert Count([], v) == 0;
    hide Made, Taken, Freed, Count, Held;
    var tok := c.input[0];
    LogGrowsTwice(c.log, SyntaxError(tok), Destroyed(tok.major, Leaf(tok, |c.log|)), v);
  }

  /** No step loses or duplicates a value, but for the one way to lose a value that LostIn names. */
  lemma StepBalanced(A: Automaton, c: Config, v: Tree, lost: nat)
    requires A.WellFormed() && c.stack != [] && Balanced(c.log, c.stack, v, lost)
    ensures var c' := Step(A, Fixed, c); Balanced(c'.log, c'.stack, v, lost + LostIn(A, c, v))
  {
    hide Balanced, ShiftStep, ReduceStep;
    if Ready(A, c) {
      var act := A.ActionFor(Top(c.stack).stateno, c.input[0].major);
      if act <= YY_MAX_SHIFTREDUCE {
        ShiftBalanced(c, act, v, lost);
      } else if act <= YY_MAX_REDUCE {
        ReduceBalanced(A, c, act - YY_MIN_REDUCE, v, lost);
      } else {
        ErrorBalanced(c, v, lost);
      }
    }
  }

  lemma {:induction false} RunBalanced(A: Automaton, input: seq<Token>, n: nat, v: Tree)
    requires A.WellFormed() && !v.Unset?
    ensures var c := Run(A, Fixed, Start(input), n); Balanced(c.log, c.stack, v, LostBy(A, Start(input), n, v))
  {
    if n == 0 {
      HeldOne(BOTTOM, v);
    } else {
      RunBalanced(A, input, n - 1, v);
      var c, lost := Run(A, Fixed, Start(input), n - 1), LostBy(A, Start(input), n - 1, v);
      assert c.stack != [];
      hide Step, Balanced, LostIn;
      StepBalanced(A, c, v, lost);
    }
  }

  /** sqlite3ParserFree (parse.c:1693-1707) destroys whatever is still held. */
  lemma FreeBalanced(log: seq<Event>, stack: seq<Entry>, v: Tree, lost: nat)
    requires Balanced(log, stack, v, lost)
    ensures var log' := log + Destroys(stack[1..]); Made(log', v) == Taken(log', v) + Freed(log', v) + lost
  {
    var bottom, above := stack[0], stack[1..];
    assert stack == [bottom] + above;
    hide Made, Taken, Freed, Held, Destroys;
    DestroysFree(log, above, v);
    HeldConcat([bottom], above, v);
    HeldOne(bottom, v);
  }

  /** Each value is made once: the events that make values number them. */
  lemma {:induction false} MadeOnce(log: seq<Event>, v: Tree)
    ensures Made(log, v) <= 1
    ensures Made(log, v) == 1 <==> exists i :: MadeAt(log, i, v)
  {
    if log == [] {
    } else {
      var n := |log| - 1;
      MadeOnce(log[..n], v);
      var e := log[n];
      assert Count(MadeBy(e, n), v) == if MadeAt(log, n, v) then 1 else 0 by {
        assert MadeBy(e, n) != [] ==> MadeBy(e, n)[..0] == [];
      }
      assert forall i :: MadeAt(log[..n], i, v) <==> i < n && MadeAt(log, i, v);
      assert forall i :: MadeAt(log, i, v) ==> Born(v) == i;
      hide MadeAt, MadeBy, Count;
    }
  }

  function Born(v: Tree): nat
  {
    match v
    case Unset => 0
    case Leaf(_, n) => n
    case Node(_, _, n) => n
  }

  /** Event i made v. */
  predicate MadeAt(log: seq<Event>, i: int, v: Tree)
  {
    0 <= i < |log| && MadeBy(log[i], i) == [v]
  }

  /**
   A parser's whole life: after any run and sqlite3ParserFree, every value ever made, and a value is made
   but once, has been handed over exactly once, or destroyed exactly once, or lost to an empty rule.
   */
  lemma LifetimeConserves(A: Automaton, input: seq<Token>, n: nat, v: Tree)
    requires A.WellFormed() && !v.Unset?
    ensures var c, lost := Run(A, Fixed, Start(input), n), LostBy(A, Start(input), n, v);
            && c.stack != []
            && var log := c.log + Destroys(c.stack[1..]);
               && Taken(log, v) + Freed(log, v) + lost == Made(log, v) <= 1
               && (Made(log, v) == 1 <==> exists i :: MadeAt(log, i, v))
  {
    hide Run, Made, Taken, Freed, LostBy, MadeAt;
    RunBalanced(A, input, n, v);
    var c := Run(A, Fixed, Start(input), n);
    FreeBalanced(c.log, c.stack, v, LostBy(A, Start(input), n, v));
    MadeOnce(c.log + Destroys(c.stack[1..]), v);
  }

  /** At any moment of a run: nothing is handed over, destroyed, held or lost twice, or in two of these ways. */
  lemma NeverTwice(A: Automaton, input: seq<Token>, n: nat, v: Tree)
    requires A.WellFormed() && !v.Unset?
    ensures var c, lost := Run(A, Fixed, Start(input), n), LostBy(A, Start(input), n, v);
            Taken(c.log, v) + Freed(c.log, v) + Held(c.stack, v) + lost == Made(c.log, v) <= 1
  {
    hide Run, Made, Taken, Freed, Held, LostBy;
    RunBalanced(A, input, n, v);
    MadeOnce(Run(A, Fixed, Start(input), n).log, v);
  }
}
