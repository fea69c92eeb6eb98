/**
 The push-down automaton of parse.c as a step function on values.

 A step is one iteration of the loop in sqlite3Parser; a configuration carries the tokens the client
 has yet to feed, so a run covers any number of calls. The semantic value of a stack entry is the tree
 of reduce actions that built it: the free result of which every actual semantic value is an image.
 */
module PushDown {
  import opened ParserCodes
  import opened ActionTables

  datatype Token = Token(major: nat, text: string)

  /** born: the position in the log of the event that made the value, so that no two values are ever equal. */
  datatype Tree =
    | Unset  // memory nobody has written
    | Leaf(tok: Token, born: nat)
    | Node(rule: nat, kids: seq<Tree>, born: nat)

  datatype Entry = Entry(stateno: nat, major: nat, minor: Tree)

  /** What the parser does that its environment can see. */
  datatype Event =
    | Shifted(tok: Token)
    | Reduced(rule: nat, args: seq<Tree>)
    | Destroyed(major: nat, value: Tree)
    | SyntaxError(tok: Token)
    | Overflowed
    | Accepted(value: Tree)

  datatype Config = Config(stack: seq<Entry>, log: seq<Event>, input: seq<Token>)

  /** The stack of the shipped parser, and one that never fills up. */
  datatype Depth = Fixed | Unlimited

  const BOTTOM := Entry(0, 0, Unset)

  function Start(input: seq<Token>): Config
  {
    Config([BOTTOM], [], input)
  }

  function Top(stack: seq<Entry>): Entry
    requires stack != []
  {
    stack[|stack| - 1]
  }

  predicate Full(d: Depth, stack: seq<Entry>)
  {
    d.Fixed? && |stack| >= YYSTACKDEPTH
  }

  function Minors(es: seq<Entry>): (ts: seq<Tree>)
    ensures |ts| == |es|
  {
    seq(|es|, i requires 0 <= i < |es| => es[i].minor)
  }

  /** Popping the entries one by one, the last one first. */
  function Destroys(es: seq<Entry>): seq<Event>
  {
    if es == [] then [] else [Destroyed(Top(es).major, Top(es).minor)] + Destroys(es[..|es| - 1])
  }

  predicate ReduceReady(A: Automaton, stack: seq<Entry>, r: nat)
    requires A.WellFormed() && r < YYNRULE
  {
    && |stack| > A.nrhs[r]
    && var p := stack[|stack| - 1 - A.nrhs[r]].stateno;
    && p <= YY_REDUCE_COUNT
    && A.lhs[r] in A.gotoRows[p]
    && var g := A.gotoRows[p][A.lhs[r]];
    && (IsShift(g) || IsShiftReduce(g) || (g == YY_ACCEPT_ACTION && |stack| == A.nrhs[r] + 1))
  }

  /** The conditions the C code asserts, at the places it asserts them, for the next iteration. */
  predicate Ready(A: Automaton, c: Config)
    requires A.WellFormed()
  {
    && c.input != [] && c.input[0].major < NTERMINAL
    && c.stack != [] && IsStateCode(Top(c.stack).stateno)
    && var act := A.ActionFor(Top(c.stack).stateno, c.input[0].major);
    && (IsShift(act) || IsShiftReduce(act) || act == YY_ERROR_ACTION
        || (IsReduce(act) && ReduceReady(A, c.stack, act - YY_MIN_REDUCE)))
  }

  /** yyStackOverflow: the popped entries are destroyed, the bottom stays, the call is over. */
  function Overflow(c: Config, popped: seq<Entry>): Config
    requires c.stack != [] && c.input != []
  {
    Config(c.stack[..1], c.log + Destroys(popped) + [Overflowed], c.input[1..])
  }

  /** yy_shift (parse.c:1857-1892). */
  function ShiftStep(d: Depth, c: Config, act: nat): Config
    requires c.stack != [] && c.input != []
  {
    var tok := c.input[0];
    if Full(d, c.stack) then
      Overflow(c, c.stack[1..])
    else
      Config(c.stack + [Entry(Encode(act), tok.major, Leaf(tok, |c.log|))], c.log + [Shifted(tok)], c.input[1..])
  }

  function GotoOf(A: Automaton, stack: seq<Entry>, r: nat): nat
    requires A.WellFormed() && r < YYNRULE && ReduceReady(A, stack, r)
  {
    A.gotoRows[stack[|stack| - 1 - A.nrhs[r]].stateno][A.lhs[r]]
  }

  /** The entry that replaces a matched right-hand side. */
  function Folded(A: Automaton, stack: seq<Entry>, r: nat, born: nat): Entry
    requires A.WellFormed() && r < YYNRULE && ReduceReady(A, stack, r)
  {
    Entry(Encode(GotoOf(A, stack, r)), A.lhs[r], Node(r, Minors(stack[|stack| - A.nrhs[r]..]), born))
  }

  function FoldStep(A: Automaton, c: Config, r: nat): Config
    requires A.WellFormed() && r < YYNRULE && ReduceReady(A, c.stack, r)
  {
    var base := |c.stack| - A.nrhs[r];
    Config(c.stack[..base] + [Folded(A, c.stack, r, |c.log|)], c.log + [Reduced(r, Minors(c.stack[base..]))], c.input)
  }

  /** The start rule's value is handed over, not pushed. */
  function AcceptStep(A: Automaton, c: Config, r: nat): Config
    requires A.WellFormed() && r < YYNRULE && ReduceReady(A, c.stack, r) && c.input != []
  {
    var base := |c.stack| - A.nrhs[r];
    var args := Minors(c.stack[base..]);
    Config(c.stack[..base], c.log + [Reduced(r, args), Accepted(Node(r, args, |c.log|))], c.input[1..])
  }

  /** yy_reduce (parse.c:2241-2283 and 3954-3973); an overflow forgets the top entry without destroying it. */
  function ReduceStep(A: Automaton, d: Depth, c: Config, r: nat): Config
    requires A.WellFormed() && c.input != [] && r < YYNRULE && ReduceReady(A, c.stack, r)
  {
    if A.nrhs[r] == 0 && Full(d, c.stack) then Overflow(c, c.stack[1..|c.stack| - 1])
    else if GotoOf(A, c.stack, r) <= YY_MAX_SHIFTREDUCE then FoldStep(A, c, r)
    else AcceptStep(A, c, r)
  }

  /** YYNOERRORRECOVERY: report, destroy the token, forget it (parse.c:4166-4177). */
  function ErrorStep(c: Config): Config
    requires c.input != []
  {
    var tok := c.input[0];
    c.(log := c.log + [SyntaxError(tok), Destroyed(tok.major, Leaf(tok, |c.log|))], input := c.input[1..])
  }

  /** One iteration of the loop in sqlite3Parser (parse.c:4089-4201); a configuration no assert allows is stuck. */
  function Step(A: Automaton, d: Depth, c: Config): Config
    requires A.WellFormed()
  {
    if !Ready(A, c) then c else
    var act := A.ActionFor(Top(c.stack).stateno, c.input[0].major);
    if act <= YY_MAX_SHIFTREDUCE then ShiftStep(d, c, act)
    else if act <= YY_MAX_REDUCE then ReduceStep(A, d, c, act - YY_MIN_REDUCE)
    else ErrorStep(c)
  }

  function Run(A: Automaton, d: Depth, c: Config, n: nat): Config
    requires A.WellFormed()
  {
    if n == 0 then c else Step(A, d, Run(A, d, c, n - 1))
  }

  lemma {:induction false} RunAdds(A: Automaton, d: Depth, c: Config, m: nat, n: nat)
    requires A.WellFormed()
    ensures Run(A, d, c, m + n) == Run(A, d, Run(A, d, c, m), n)
  {
    hide Step;
    if n > 0 { RunAdds(A, d, c, m, n - 1); }
  }
}
