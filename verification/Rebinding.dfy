/** What one scan of fishhook does, on values: first match in a list of rebindings, and the saved originals. */
module Rebinding {
  import opened Options

  type Ptr = int
  type Addr = nat

  /** struct rebinding (fishhook.h:45-49); `replaced` is the cell that receives the original, or NULL. */
  datatype Rebinding = Rebinding(name: string, replacement: Ptr, replaced: Option<Addr>)

  /** struct rebindings_entry (fishhook.c:54-58): one entry per call, the newest first. */
  datatype Entries = Nil | Entry(rebindings: seq<Rebinding>, next: Entries)

  /** All rebindings, in the order in which the scan tries them. */
  function Flatten(es: Entries): seq<Rebinding>
  {
    match es
    case Nil => []
    case Entry(rs, next) => rs + Flatten(next)
  }

  predicate Matches(r: Rebinding, name: Option<string>)
  {
    name.Some? && r.name == name.value
  }

  /** The position of the first rebinding of that name; slots without a usable name have none. */
  function FirstMatch(rs: seq<Rebinding>, name: Option<string>): (j: Option<nat>)
    ensures j.Some? ==> j.value < |rs|
  {
    if rs == [] then None
    else if Matches(rs[0], name) then Some(0)
    else match FirstMatch(rs[1..], name)
         case None => None
         case Some(k) => Some(k + 1)
  }

  /** It is a match, nothing before it is, and there is one whenever anything matches. */
  lemma {:induction false} FirstMatchIsFirst(rs: seq<Rebinding>, name: Option<string>)
    ensures match FirstMatch(rs, name)
            case Some(j) => Matches(rs[j], name) && forall k | 0 <= k < j :: !Matches(rs[k], name)
            case None => forall k | 0 <= k < |rs| :: !Matches(rs[k], name)
  {
    if rs == [] {
    } else {
      FirstMatchIsFirst(rs[1..], name);
      assert forall k | 1 <= k < |rs| :: rs[k] == rs[1..][k - 1];
    }
  }

  /** What a slot holds once a scan with rs has seen it. */
  function Install(rs: seq<Rebinding>, name: Option<string>, slot: Ptr): Ptr
  {
    match FirstMatch(rs, name)
    case None => slot
    case Some(j) => rs[j].replacement
  }

  /** The scan of this slot writes its old pointer to the cell of rebinding j. */
  predicate Saves(rs: seq<Rebinding>, name: Option<string>, slot: Ptr, j: nat)
  {
    FirstMatch(rs, name) == Some(j) && rs[j].replaced.Some? && slot != rs[j].replacement
  }

  function SaveOriginal(rs: seq<Rebinding>, name: Option<string>, slot: Ptr, cells: map<Addr, Ptr>): map<Addr, Ptr>
  {
    match FirstMatch(rs, name)
    case None => cells
    case Some(j) =>
      if rs[j].replaced.Some? && slot != rs[j].replacement then cells[rs[j].replaced.value := slot] else cells
  }

  function PassSlots(rs: seq<Rebinding>, names: seq<Option<string>>, slots: seq<Ptr>): (r: seq<Ptr>)
    requires |names| == |slots|
    ensures |r| == |slots|
  {
    seq(|slots|, i requires 0 <= i < |slots| => Install(rs, names[i], slots[i]))
  }

  function PassCells(rs: seq<Rebinding>, names: seq<Option<string>>, slots: seq<Ptr>, cells: map<Addr, Ptr>)
      : map<Addr, Ptr>
    requires |names| == |slots|
  {
    if slots == [] then cells else
    var n := |slots| - 1;
    SaveOriginal(rs, names[n], slots[n], PassCells(rs, names[..n], slots[..n], cells))
  }

  lemma {:induction false} PassCellsConcat(rs: seq<Rebinding>, names: seq<Option<string>>, slots: seq<Ptr>,
                                           names': seq<Option<string>>, slots': seq<Ptr>, cells: map<Addr, Ptr>)
    requires |names| == |slots| && |names'| == |slots'|
    ensures PassCells(rs, names + names', slots + slots', cells)
         == PassCells(rs, names', slots', PassCells(rs, names, slots, cells))
    decreases |slots'|
  {
    if slots' == [] {
      assert names + names' == names && slots + slots' == slots;
    } else {
      var n := |slots'| - 1;
      PassCellsConcat(rs, names, slots, names'[..n], slots'[..n], cells);
      var ns, ss := names + names', slots + slots';
      assert ns[|slots| + n] == names'[n] && ss[|slots| + n] == slots'[n];
      assert (names + names')[..|slots| + n] == names + names'[..n];
      assert (slots + slots')[..|slots| + n] == slots + slots'[..n];
      hide SaveOriginal;
    }
  }

  /** No two rebindings share a cell. */
  predicate DistinctCells(rs: seq<Rebinding>)
  {
    forall j, k | 0 <= j < k < |rs| && rs[j].replaced.Some? :: rs[j].replaced != rs[k].replaced
  }

  /** The last slot whose old pointer goes to the cell of rebinding j. */
  function LastSave(rs: seq<Rebinding>, names: seq<Option<string>>, slots: seq<Ptr>, j: nat): (last: Option<nat>)
    requires |names| == |slots|
    ensures last.Some? ==> last.value < |slots| && Saves(rs, names[last.value], slots[last.value], j)
    ensures last.Some? ==> forall k | last.value < k < |slots| :: !Saves(rs, names[k], slots[k], j)
    ensures last.None? ==> forall k | 0 <= k < |slots| :: !Saves(rs, names[k], slots[k], j)
  {
    if slots == [] then None else
    var n := |slots| - 1;
    if Saves(rs, names[n], slots[n], j) then Some(n) else LastSave(rs, names[..n], slots[..n], j)
  }

  /** The cell holds the same as before, or is absent as before. */
  predicate SameCell(a: Addr, cells: map<Addr, Ptr>, cells': map<Addr, Ptr>)
  {
    (a in cells' <==> a in cells) && (a in cells ==> cells'[a] == cells[a])
  }

  /**
   Saved originals, for a scan of any number of slots: the cell of rebinding j ends up with the pointer
   found in the last slot for which j was the first match and not yet installed, or keeps its value.
   */
  lemma {:induction false} SavedOriginal(rs: seq<Rebinding>, names: seq<Option<string>>, slots: seq<Ptr>,
                                         cells: map<Addr, Ptr>, j: nat)
    requires |names| == |slots| && DistinctCells(rs) && j < |rs| && rs[j].replaced.Some?
    ensures var cells', a := PassCells(rs, names, slots, cells), rs[j].replaced.value;
            match LastSave(rs, names, slots, j)
            case None => SameCell(a, cells, cells')
            case Some(i) => a in cells' && cells'[a] == slots[i]
    decreases |slots|
  {
    if slots == [] {
    } else {
      var n := |slots| - 1;
      SavedOriginal(rs, names[..n], slots[..n], cells, j);
      if !Saves(rs, names[n], slots[n], j) {
        SaveElsewhere(rs, names[n], slots[n], PassCells(rs, names[..n], slots[..n], cells), j);
      }
    }
  }

  lemma SaveElsewhere(rs: seq<Rebinding>, name: Option<string>, slot: Ptr, cells: map<Addr, Ptr>, j: nat)
    requires DistinctCells(rs) && j < |rs| && rs[j].replaced.Some? && !Saves(rs, name, slot, j)
    ensures SameCell(rs[j].replaced.value, cells, SaveOriginal(rs, name, slot, cells))
  {
  }

  /** Slots that already hold what the list asks for: nothing is saved, so no cell changes. */
  lemma {:induction false} NothingToSave(rs: seq<Rebinding>, names: seq<Option<string>>, slots: seq<Ptr>,
      cells: map<Addr, Ptr>)
    requires |names| == |slots| && PassSlots(rs, names, slots) == slots
    ensures PassCells(rs, names, slots, cells) == cells
    decreases |slots|
  {
    if slots == [] {
    } else {
      var n := |slots| - 1;
      assert PassSlots(rs, names, slots)[n] == slots[n];
      assert PassSlots(rs, names[..n], slots[..n]) == PassSlots(rs, names, slots)[..n];
      NothingToSave(rs, names[..n], slots[..n], cells);
    }
  }

  /** A second scan with the same list changes no slot and no cell. */
  lemma PassIsIdempotent(rs: seq<Rebinding>, names: seq<Option<string>>, slots: seq<Ptr>, cells: map<Addr, Ptr>)
    requires |names| == |slots|
    ensures var slots' := PassSlots(rs, names, slots);
            && PassSlots(rs, names, slots') == slots'
            && PassCells(rs, names, slots', PassCells(rs, names, slots, cells)) == PassCells(rs, names, slots, cells)
  {
    var slots' := PassSlots(rs, names, slots);
    assert PassSlots(rs, names, slots') == slots';
    NothingToSave(rs, names, slots', PassCells(rs, names, slots, cells));
  }

  lemma {:induction false} FirstMatchConcat(new': seq<Rebinding>, rs: seq<Rebinding>, name: Option<string>)
    ensures FirstMatch(new' + rs, name) ==
            if FirstMatch(new', name).Some? then FirstMatch(new', name)
            else match FirstMatch(rs, name) case None => None case Some(k) => Some(|new'| + k)
    decreases |new'|
  {
    if new' == [] {
      assert new' + rs == rs;
    } else {
      assert (new' + rs)[1..] == new'[1..] + rs;
      FirstMatchConcat(new'[1..], rs, name);
    }
  }

  /** A list in front decides if it has a match; otherwise the list behind it does. */
  lemma InstallConcat(a: seq<Rebinding>, b: seq<Rebinding>, name: Option<string>, slot: Ptr, cells: map<Addr, Ptr>)
    ensures var c := if FirstMatch(a, name).Some? then a else b;
            && Install(a + b, name, slot) == Install(c, name, slot)
            && SaveOriginal(a + b, name, slot, cells) == SaveOriginal(c, name, slot, cells)
  {
    FirstMatchConcat(a, b, name);
    assert FirstMatch(a, name).Some? ==> (a + b)[FirstMatch(a, name).value] == a[FirstMatch(a, name).value];
    assert FirstMatch(b, name).Some? ==> (a + b)[|a| + FirstMatch(b, name).value] == b[FirstMatch(b, name).value];
    hide FirstMatch, Matches;
  }

  /** Scanning what an older list installed gives what the whole list would have installed at load time. */
  lemma InstallOverOlder(new': seq<Rebinding>, rs: seq<Rebinding>, name: Option<string>, origin: Ptr)
    ensures Install(new' + rs, name, Install(rs, name, origin)) == Install(new' + rs, name, origin)
  {
    FirstMatchConcat(new', rs, name);
  }

  /** The same for all slots of a section. */
  lemma PassOverOlder(new': seq<Rebinding>, rs: seq<Rebinding>, names: seq<Option<string>>, origin: seq<Ptr>)
    requires |names| == |origin|
    ensures PassSlots(new' + rs, names, PassSlots(rs, names, origin)) == PassSlots(new' + rs, names, origin)
  {
    forall i | 0 <= i < |origin|
      ensures Install(new' + rs, names[i], Install(rs, names[i], origin[i])) == Install(new' + rs, names[i], origin[i])
    {
      InstallOverOlder(new', rs, names[i], origin[i]);
    }
  }

  /** On slots that are up to date, prepending more rebindings saves what these alone would save. */
  lemma {:induction false} OnlyNewSaves(new': seq<Rebinding>, rs: seq<Rebinding>, names: seq<Option<string>>,
                                        slots: seq<Ptr>, cells: map<Addr, Ptr>)
    requires |names| == |slots| && PassSlots(rs, names, slots) == slots
    ensures PassCells(new' + rs, names, slots, cells) == PassCells(new', names, slots, cells)
    decreases |slots|
  {
    if slots == [] {
    } else {
      var n := |slots| - 1;
      assert PassSlots(rs, names, slots)[n] == slots[n];
      assert PassSlots(rs, names[..n], slots[..n]) == PassSlots(rs, names, slots)[..n];
      OnlyNewSaves(new', rs, names[..n], slots[..n], cells);
      InstallConcat(new', rs, names[n], slots[n], PassCells(new', names[..n], slots[..n], cells));
    }
  }

  /** Cells that no rebinding of the list owns are not written. */
  lemma {:induction false} OtherCellsKept(rs: seq<Rebinding>, names: seq<Option<string>>, slots: seq<Ptr>,
                                          cells: map<Addr, Ptr>, a: Addr)
    requires |names| == |slots| && forall j | 0 <= j < |rs| :: rs[j].replaced != Some(a)
    ensures SameCell(a, cells, PassCells(rs, names, slots, cells))
    decreases |slots|
  {
    if slots == [] {
    } else {
      var n := |slots| - 1;
      OtherCellsKept(rs, names[..n], slots[..n], cells, a);
    }
  }

  /** Rebinding j of the array decides its name within the array, and the list had a rebinding of that name. */
  predicate Chains(new': seq<Rebinding>, rs: seq<Rebinding>, j: nat, prev: nat)
  {
    && j < |new'| && new'[j].replaced.Some? && FirstMatch(new', Some(new'[j].name)) == Some(j)
    && FirstMatch(rs, Some(new'[j].name)) == Some(prev) && new'[j].replacement != rs[prev].replacement
  }

  /**
   A call with any array of rebindings, on slots that are all up to date: the cell of a rebinding to a new
   pointer receives the previous replacement, so the hooks chain. One slot of that name is enough.
   */
  lemma RebindingChains(new': seq<Rebinding>, rs: seq<Rebinding>, names: seq<Option<string>>, slots: seq<Ptr>,
                        cells: map<Addr, Ptr>, j: nat, i: nat, prev: nat)
    requires |names| == |slots| && PassSlots(rs, names, slots) == slots
    requires DistinctCells(new') && Chains(new', rs, j, prev)
    requires i < |slots| && names[i] == Some(new'[j].name)
    ensures var cells', a := PassCells(new' + rs, names, slots, cells), new'[j].replaced.value;
            a in cells' && cells'[a] == rs[prev].replacement
  {
    OnlyNewSaves(new', rs, names, slots, cells);
    SavedOriginal(new', names, slots, cells, j);
    forall k | 0 <= k < |slots| && names[k] == Some(new'[j].name) ensures slots[k] == rs[prev].replacement {
      assert PassSlots(rs, names, slots)[k] == slots[k];
    }
    assert Saves(new', names[i], slots[i], j);
    var k := LastSave(new', names, slots, j).value;
    FirstMatchIsFirst(new', names[k]);
    hide PassCells, PassSlots, FirstMatch;
  }

  /**
   The chain does not survive images loaded later: their slots still hold load-time pointers. Loading one
   keeps the cell of rebinding j as it was exactly when the last slot it saves from, if any, holds that value.
   */
  lemma LateImageKeepsCell(rs: seq<Rebinding>, names: seq<Option<string>>, slots: seq<Ptr>, cells: map<Addr, Ptr>,
      j: nat)
    requires |names| == |slots| && DistinctCells(rs) && j < |rs| && rs[j].replaced.Some?
        && rs[j].replaced.value in cells
    ensures var cells', a := PassCells(rs, names, slots, cells), rs[j].replaced.value;
            && a in cells'
            && (cells'[a] == cells[a] <==>
                  match LastSave(rs, names, slots, j)
                  case None => true
                  case Some(i) => slots[i] == cells[a])
  {
    SavedOriginal(rs, names, slots, cells, j);
  }

  /** Two calls hook "f"; an image loaded afterwards makes the newer hook's cell skip the older hook. */
  lemma ChainBreaksOnLateImage()
    ensures var r1, r2 := Rebinding("f", 1, Some(10)), Rebinding("f", 2, Some(20));
            var loaded, rs := [Some("f")], [r2] + [r1];
            var cells1 := PassCells([r1], loaded, [7], map[]);
            var cells2 := PassCells(rs, loaded, PassSlots([r1], loaded, [7]), cells1);
            && cells2 == map[10 := 7, 20 := 1]
            && PassCells(rs, loaded, [9], cells2) == map[10 := 7, 20 := 9]
  {
    var r1, r2 := Rebinding("f", 1, Some(10)), Rebinding("f", 2, Some(20));
    var loaded, rs := [Some("f")], [r2] + [r1];
    assert FirstMatch([r1], Some("f")) == Some(0) && FirstMatch(rs, Some("f")) == Some(0);
    var cells1 := PassCells([r1], loaded, [7], map[]);
    assert PassCells([r1], loaded[..0], [7][..0], map[]) == map[];
    assert PassSlots([r1], loaded, [7]) == [1];
    assert PassCells(rs, loaded[..0], [1][..0], cells1) == cells1;
    var cells2 := PassCells(rs, loaded, [1], cells1);
    assert PassCells(rs, loaded[..0], [9][..0], cells2) == cells2;
  }
}
