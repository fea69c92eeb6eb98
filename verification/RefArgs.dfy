/** Foreign-key actions: clauses in any number and order, folded into one packed integer (parse.c:2527-2581). */
module RefArgs {
  datatype Action = NoAction | Restrict | SetNull | SetDefault | Cascade

  datatype Clause = Match | OnInsert(a: Action) | OnDelete(a: Action) | OnUpdate(a: Action)

  /** refact (sqliteInt.h:1953-1963). */
  function Code(a: Action): bv32
  {
    match a
    case NoAction => 0
    case Restrict => 6
    case SetNull => 7
    case SetDefault => 8
    case Cascade => 9
  }

  /** refarg: the bits a clause writes, and what it writes there. */
  datatype Write = Write(value: bv32, mask: bv32)

  function RefArg(c: Clause): Write
  {
    match c
    case Match => Write(0, 0)
    case OnInsert(_) => Write(0, 0)
    case OnDelete(a) => Write(Code(a), 0xFF)
    case OnUpdate(a) => Write(Code(a) << 8, 0xFF00)
  }

  function Overwrite(flags: bv32, w: Write): bv32 { (flags & !w.mask) | w.value }

  /** refargs, left to right. */
  function RefArgs(cs: seq<Clause>): bv32
  {
    if cs == [] then 0 else Overwrite(RefArgs(cs[..|cs| - 1]), RefArg(cs[|cs| - 1]))
  }

  /** The reference: the last clause of its kind decides, and no such clause is NO ACTION. */
  function LastDelete(cs: seq<Clause>): Action
  {
    if cs == [] then NoAction
    else if cs[|cs| - 1].OnDelete? then cs[|cs| - 1].a
    else LastDelete(cs[..|cs| - 1])
  }

  function LastUpdate(cs: seq<Clause>): Action
  {
    if cs == [] then NoAction
    else if cs[|cs| - 1].OnUpdate? then cs[|cs| - 1].a
    else LastUpdate(cs[..|cs| - 1])
  }

  /** How sqlite3CreateForeignKey takes the actions out again (build.c:2693-2694). */
  function DeleteAction(flags: bv32): bv32 { flags & 0xFF }

  function UpdateAction(flags: bv32): bv32 { (flags >> 8) & 0xFF }

  function OtherBits(flags: bv32): bv32 { flags & 0xFFFF_0000 }

  /** OE_None, OE_Restrict, OE_SetNull, OE_SetDflt and OE_Cascade (sqliteInt.h:1953-1963). */
  predicate IsCode(a: Action, byte: bv32)
  {
    && (a == NoAction ==> byte == 0) && (a == Restrict ==> byte == 6) && (a == SetNull ==> byte == 7)
    && (a == SetDefault ==> byte == 8) && (a == Cascade ==> byte == 9)
  }

  /** The two bytes are the last ON DELETE and the last ON UPDATE action, and nothing else is ever set. */
  lemma LastClauseDecides(cs: seq<Clause>)
    ensures IsCode(LastDelete(cs), RefArgs(cs) & 0xFF)
    ensures IsCode(LastUpdate(cs), (RefArgs(cs) >> 8) & 0xFF)
    ensures RefArgs(cs) & 0xFFFF_0000 == 0
  {
    BytesOfLast(cs);
    assert IsCode(LastDelete(cs), Code(LastDelete(cs))) && IsCode(LastUpdate(cs), Code(LastUpdate(cs)));
    hide RefArgs, LastDelete, LastUpdate, IsCode, Code;
  }

  lemma {:induction false} BytesOfLast(cs: seq<Clause>)
    ensures DeleteAction(RefArgs(cs)) == Code(LastDelete(cs))
    ensures UpdateAction(RefArgs(cs)) == Code(LastUpdate(cs))
    ensures OtherBits(RefArgs(cs)) == 0
  {
    if cs == [] {
    } else {
      hide RefArg, Code, DeleteAction, UpdateAction, OtherBits, Overwrite;
      BytesOfLast(cs[..|cs| - 1]);
      OneClause(RefArgs(cs[..|cs| - 1]), cs[|cs| - 1]);
    }
  }

  /** A clause changes the byte of its kind only; MATCH and ON INSERT change nothing. */
  lemma OneClause(flags: bv32, c: Clause)
    ensures var after := Overwrite(flags, RefArg(c));
      && DeleteAction(after) == (if c.OnDelete? then Code(c.a) else DeleteAction(flags))
      && UpdateAction(after) == (if c.OnUpdate? then Code(c.a) else UpdateAction(flags))
      && OtherBits(after) == OtherBits(flags)
  {
    hide DeleteAction, UpdateAction, OtherBits, Overwrite, Code;
    match c
    case OnDelete(a) => CodeFits(a); LowByte(flags, Code(a));
    case OnUpdate(a) => CodeFits(a); HighByte(flags, Code(a));
    case _ => NoByte(flags);
  }

  lemma CodeFits(a: Action)
    ensures Code(a) <= 9
  {
  }

  lemma NoByte(flags: bv32)
    ensures Overwrite(flags, Write(0, 0)) == flags
  {
  }

  lemma LowByte(flags: bv32, a: bv32)
    requires a <= 9
    ensures DeleteAction(Overwrite(flags, Write(a, 0xFF))) == a
    ensures UpdateAction(Overwrite(flags, Write(a, 0xFF))) == UpdateAction(flags)
    ensures OtherBits(Overwrite(flags, Write(a, 0xFF))) == OtherBits(flags)
  {
  }

  lemma HighByte(flags: bv32, a: bv32)
    requires a <= 9
    ensures DeleteAction(Overwrite(flags, Write(a << 8, 0xFF00))) == DeleteAction(flags)
    ensures UpdateAction(Overwrite(flags, Write(a << 8, 0xFF00))) == a
    ensures OtherBits(Overwrite(flags, Write(a << 8, 0xFF00))) == OtherBits(flags)
  {
  }

  /** Different actions are told apart, so the packed integer determines both. */
  lemma PackedDetermines(cs: seq<Clause>, ds: seq<Clause>)
    ensures RefArgs(cs) == RefArgs(ds) <==> LastDelete(cs) == LastDelete(ds) && LastUpdate(cs) == LastUpdate(ds)
  {
    BytesOfLast(cs);
    BytesOfLast(ds);
    BytesMakeUp(RefArgs(cs));
    BytesMakeUp(RefArgs(ds));
    hide DeleteAction, UpdateAction, OtherBits, RefArgs, Pack;
    CodeTells(LastDelete(cs), LastDelete(ds));
    CodeTells(LastUpdate(cs), LastUpdate(ds));
  }

  function Pack(low: bv32, high: bv32): bv32 { low | (high << 8) }

  lemma BytesMakeUp(x: bv32)
    requires OtherBits(x) == 0
    ensures x == Pack(DeleteAction(x), UpdateAction(x))
  {
  }

  lemma CodeTells(a: Action, b: Action)
    ensures Code(a) == Code(b) <==> a == b
  {
  }
}
