/**
 fishhook on a process: a global list of rebindings, images with pointer sections overwritten in place, and
 the two events that scan them, a call of rebind_symbols and the loading of an image.
 */
module Fishhook {
  import opened Options
  import opened Rebinding

  const INDIRECT_SYMBOL_ABS: nat := 0x4000_0000
  const INDIRECT_SYMBOL_LOCAL: nat := 0x8000_0000

  datatype SectionKind = LazyPointers | NonLazyPointers | OtherSection

  /**
   A section header. `first` is reserved1, the position of its first slot in the indirect symbol table;
   `addr` tells where its slots are, `size` how many there are.
   */
  datatype Section = Section(kind: SectionKind, first: nat, addr: Addr, size: nat)

  datatype LoadCommand =
    | Segment(name: string, sects: seq<Section>)
    | SymtabCommand
    | DysymtabCommand(nindirectsyms: nat)
    | OtherCommand

  /** A Mach-O image; `known` is whether dladdr finds it, symtab holds string table offsets. */
  datatype Image = Image(known: bool, cmds: seq<LoadCommand>, symtab: seq<nat>, strtab: seq<char>, indirect: seq<nat>)

  /** A section to scan, with the image whose symbol tables name its slots. */
  datatype Place = Place(img: Image, sect: Section)

  predicate IsSpecial(index: nat)
  {
    index == INDIRECT_SYMBOL_ABS || index == INDIRECT_SYMBOL_LOCAL
    || index == INDIRECT_SYMBOL_LOCAL + INDIRECT_SYMBOL_ABS
  }

  /** The string that starts at `from`, up to the next NUL. */
  function CString(strtab: seq<char>, from: nat): string
    requires from <= |strtab|
    decreases |strtab| - from
  {
    if from == |strtab| || strtab[from] == '\0' then [] else [strtab[from]] + CString(strtab, from + 1)
  }

  /** It reads on to the first NUL, or to the end of the table, and no further. */
  lemma {:induction false} CStringReads(strtab: seq<char>, from: nat)
    requires from <= |strtab|
    ensures var s, end := CString(strtab, from), from + |CString(strtab, from)|;
            && end <= |strtab| && s == strtab[from..end] && '\0' !in s
            && (end == |strtab| || strtab[end] == '\0')
    decreases |strtab| - from
  {
    if from < |strtab| && strtab[from] != '\0' {
      CStringReads(strtab, from + 1);
    }
  }

  /** The symbol table has an entry for this index, and the string table its name. */
  predicate IndexOK(img: Image, index: nat)
  {
    IsSpecial(index) || (index < |img.symtab| && img.symtab[index] <= |img.strtab|)
  }

  predicate SectionOK(img: Image, sect: Section)
  {
    && sect.first + sect.size <= |img.indirect|
    && forall i | sect.first <= i < sect.first + sect.size :: IndexOK(img, img.indirect[i])
  }

  /** The name a rebinding must have to match slot i: the symbol without its leading underscore. */
  function SlotName(img: Image, sect: Section, i: nat): Option<string>
    requires SectionOK(img, sect) && i < sect.size
  {
    var index := img.indirect[sect.first + i];
    assert IndexOK(img, index);
    if IsSpecial(index) then None else
    UsableName(CString(img.strtab, img.symtab[index]))
  }

  function UsableName(symbol: string): Option<string>
  {
    if |symbol| > 1 then Some(symbol[1..]) else None
  }

  /** The symbol is that name with one character in front. */
  predicate IsSymbolOf(symbol: string, name: string)
  {
    |symbol| > 1 && symbol == [symbol[0]] + name
  }

  lemma UsableNameMeans(symbol: string, name: string)
    ensures UsableName(symbol) == Some(name) <==> IsSymbolOf(symbol, name)
  {
    if |symbol| > 1 { assert symbol == [symbol[0]] + symbol[1..]; }
  }

  /** Slot i belongs to an ordinary symbol, and that symbol is the name with one character in front. */
  predicate IsSlotOf(p: Place, i: nat, name: string)
    requires SectionOK(p.img, p.sect) && i < p.sect.size
  {
    var index := p.img.indirect[p.sect.first + i];
    && index != 0x4000_0000 && index != 0x8000_0000 && index != 0xC000_0000
    && index < |p.img.symtab| && p.img.symtab[index] <= |p.img.strtab|
    && IsSymbolOf(CString(p.img.strtab, p.img.symtab[index]), name)
  }

  lemma SlotNameMeans(p: Place, i: nat, name: string)
    requires SectionOK(p.img, p.sect) && i < p.sect.size
    ensures SlotName(p.img, p.sect, i) == Some(name) <==> IsSlotOf(p, i, name)
  {
    var index := p.img.indirect[p.sect.first + i];
    assert IndexOK(p.img, index);
    if !IsSpecial(index) {
      UsableNameMeans(CString(p.img.strtab, p.img.symtab[index]), name);
    }
  }

  function NamesUpTo(p: Place, n: nat): (r: seq<Option<string>>)
    requires SectionOK(p.img, p.sect) && n <= p.sect.size
    ensures |r| == n && forall i | 0 <= i < n :: r[i] == SlotName(p.img, p.sect, i)
  {
    if n == 0 then [] else NamesUpTo(p, n - 1) + [SlotName(p.img, p.sect, n - 1)]
  }

  /** The names of all slots of a section. */
  function Names(p: Place): (r: seq<Option<string>>)
    requires SectionOK(p.img, p.sect)
    ensures |r| == p.sect.size
  {
    NamesUpTo(p, p.sect.size)
  }

  predicate IsDataSegment(cmd: LoadCommand)
  {
    cmd.Segment? && (cmd.name == "__DATA" || cmd.name == "__DATA_CONST")
  }

  function ScannedSections(img: Image, sects: seq<Section>): seq<Place>
  {
    if sects == [] then [] else
    var last := sects[|sects| - 1];
    ScannedSections(img, sects[..|sects| - 1])
    + if last.kind.OtherSection? then [] else [Place(img, last)]
  }

  function ScannedCommands(img: Image, cmds: seq<LoadCommand>): seq<Place>
  {
    if cmds == [] then [] else
    var last := cmds[|cmds| - 1];
    ScannedCommands(img, cmds[..|cmds| - 1])
    + if IsDataSegment(last) then ScannedSections(img, last.sects) else []
  }

  /** The image has what rebind_symbols_for_image looks for; otherwise it is left alone. */
  predicate Scannable(img: Image)
  {
    && img.known
    && (exists k | 0 <= k < |img.cmds| :: img.cmds[k].SymtabCommand?)
    && (exists k | 0 <= k < |img.cmds| :: img.cmds[k].Segment? && img.cmds[k].name == "__LINKEDIT")
    && LastIndirect(img.cmds) > 0
  }

  /** nindirectsyms of the last LC_DYSYMTAB command, 0 if there is none. */
  function LastIndirect(cmds: seq<LoadCommand>): nat
  {
    if cmds == [] then 0
    else if cmds[|cmds| - 1].DysymtabCommand? then cmds[|cmds| - 1].nindirectsyms
    else LastIndirect(cmds[..|cmds| - 1])
  }

  function Scanned(img: Image): seq<Place>
  {
    if Scannable(img) then ScannedCommands(img, img.cmds) else []
  }

  /** Load command i is a data segment with that pointer section. */
  predicate HasPointers(cmds: seq<LoadCommand>, i: int, sect: Section)
  {
    && 0 <= i < |cmds| && cmds[i].Segment? && (cmds[i].name == "__DATA" || cmds[i].name == "__DATA_CONST")
    && sect in cmds[i].sects && (sect.kind.LazyPointers? || sect.kind.NonLazyPointers?)
  }

  /** Load command i is the last one with the sizes of the symbol tables, and there are indirect symbols. */
  predicate HasIndirect(cmds: seq<LoadCommand>, i: int)
  {
    && 0 <= i < |cmds| && cmds[i].DysymtabCommand? && cmds[i].nindirectsyms > 0
    && forall l | i < l < |cmds| :: !cmds[l].DysymtabCommand?
  }

  /** Exactly the pointer sections of the data segments of an image that has all its tables are scanned. */
  lemma ScannedExactly(img: Image, sect: Section)
    ensures Place(img, sect) in Scanned(img) <==>
              && img.known && (exists i :: HasPointers(img.cmds, i, sect)) && (exists i :: HasIndirect(img.cmds, i))
              && (exists k | 0 <= k < |img.cmds| :: img.cmds[k].SymtabCommand?)
              && (exists k | 0 <= k < |img.cmds| :: img.cmds[k].Segment? && img.cmds[k].name == "__LINKEDIT")
  {
    CommandsExactly(img, img.cmds, sect);
    IndirectExactly(img.cmds);
    hide ScannedCommands, HasPointers, HasIndirect, LastIndirect;
  }

  lemma {:induction false} IndirectExactly(cmds: seq<LoadCommand>)
    ensures LastIndirect(cmds) > 0 <==> exists i :: HasIndirect(cmds, i)
  {
    if cmds == [] {
    } else {
      var n := |cmds| - 1;
      IndirectExactly(cmds[..n]);
      if cmds[n].DysymtabCommand? {
        assert HasIndirect(cmds, n) <==> cmds[n].nindirectsyms > 0;
        assert forall i | i != n :: !HasIndirect(cmds, i);
      } else {
        assert forall i :: HasIndirect(cmds, i) <==> HasIndirect(cmds[..n], i);
      }
    }
  }

  lemma {:induction false} CommandsExactly(img: Image, cmds: seq<LoadCommand>, sect: Section)
    ensures Place(img, sect) in ScannedCommands(img, cmds) <==> exists i :: HasPointers(cmds, i, sect)
  {
    if cmds == [] {
    } else {
      var n := |cmds| - 1;
      CommandsExactly(img, cmds[..n], sect);
      if IsDataSegment(cmds[n]) { SectionsExactly(img, cmds[n].sects, sect); }
      var p, front := Place(img, sect), ScannedCommands(img, cmds[..n]);
      var part := if IsDataSegment(cmds[n]) then ScannedSections(img, cmds[n].sects) else [];
      assert ScannedCommands(img, cmds) == front + part;
      assert p in part <==> HasPointers(cmds, n, sect);
      hide ScannedCommands, ScannedSections;
      assert forall i :: HasPointers(cmds, i, sect) <==>
          HasPointers(cmds[..n], i, sect) || (i == n && HasPointers(cmds, n, sect));
    }
  }

  lemma {:induction false} SectionsExactly(img: Image, sects: seq<Section>, sect: Section)
    ensures Place(img, sect) in ScannedSections(img, sects) <==> sect in sects && !sect.kind.OtherSection?
  {
    if sects == [] {
    } else {
      SectionsExactly(img, sects[..|sects| - 1], sect);
      assert sects == sects[..|sects| - 1] + [sects[|sects| - 1]];
    }
  }

  /** Every section scanned, image by image, in the order of loading. */
  function Places(images: seq<Image>): seq<Place>
  {
    if images == [] then [] else Places(images[..|images| - 1]) + Scanned(images[|images| - 1])
  }

  /** Images are scanned in the order of loading, segments and sections in the order of the load commands. */
  lemma {:induction false} PlacesInOrder(images: seq<Image>, k: nat)
    requires k < |images|
    ensures Places(images) == Places(images[..k]) + Scanned(images[k]) + Places(images[k + 1..])
    decreases |images|
  {
    hide Scanned;
    var n := |images| - 1;
    if k == n {
      assert images[k + 1..] == [];
    } else {
      PlacesInOrder(images[..n], k);
      assert images[..n][..k] == images[..k] && images[..n][k + 1..] == images[k + 1..][..n - k - 1];
    }
  }

  lemma {:induction false} CommandsInOrder(img: Image, cmds: seq<LoadCommand>, k: nat)
    requires k < |cmds|
    ensures ScannedCommands(img, cmds) == ScannedCommands(img, cmds[..k]) + ScannedCommands(img, [cmds[k]])
                                          + ScannedCommands(img, cmds[k + 1..])
    decreases |cmds|
  {
    hide ScannedSections, IsDataSegment;
    var n := |cmds| - 1;
    assert ScannedCommands(img, [cmds[k]][..0]) == [];
    if k == n {
      assert cmds[k + 1..] == [];
    } else {
      CommandsInOrder(img, cmds[..n], k);
      assert cmds[..n][..k] == cmds[..k] && cmds[..n][k + 1..] == cmds[k + 1..][..n - k - 1];
    }
  }

  lemma {:induction false} SectionsInOrder(img: Image, sects: seq<Section>, k: nat)
    requires k < |sects|
    ensures ScannedSections(img, sects) == ScannedSections(img, sects[..k]) + ScannedSections(img, [sects[k]])
                                           + ScannedSections(img, sects[k + 1..])
    decreases |sects|
  {
    var n := |sects| - 1;
    assert ScannedSections(img, [sects[k]][..0]) == [];
    if k == n {
      assert sects[k + 1..] == [];
    } else {
      SectionsInOrder(img, sects[..n], k);
      assert sects[..n][..k] == sects[..k] && sects[..n][k + 1..] == sects[k + 1..][..n - k - 1];
    }
  }

  /** What scans write: the slots of each section by its address, and the cells that receive originals. */
  datatype Memory = Memory(slots: map<Addr, seq<Ptr>>, cells: map<Addr, Ptr>)

  predicate PlaceOK(p: Place, mem: Memory)
  {
    SectionOK(p.img, p.sect) && p.sect.addr in mem.slots && |mem.slots[p.sect.addr]| == p.sect.size
  }

  ghost predicate PlacesOK(ps: seq<Place>, mem: Memory)
  {
    forall p | p in ps :: PlaceOK(p, mem)
  }

  predicate Apart(ps: seq<Place>, k: int, l: int)
  {
    0 <= k < |ps| && 0 <= l < |ps| && k != l ==> ps[k].sect.addr != ps[l].sect.addr
  }

  /** Each pointer section has memory of its own. */
  ghost predicate Separate(ps: seq<Place>)
  {
    forall k, l :: Apart(ps, k, l)
  }

  /** Scanning one section, if its tables are in order. */
  function ScanOne(rs: seq<Rebinding>, p: Place, mem: Memory): (r: Memory)
    ensures r.slots.Keys == mem.slots.Keys
    ensures forall q :: PlaceOK(q, mem) ==> PlaceOK(q, r)
  {
    if !PlaceOK(p, mem) then mem else
    var slots := mem.slots[p.sect.addr];
    Memory(mem.slots[p.sect.addr := PassSlots(rs, Names(p), slots)], PassCells(rs, Names(p), slots, mem.cells))
  }

  /** Scanning sections one after the other. */
  function Scan(rs: seq<Rebinding>, ps: seq<Place>, mem: Memory): (r: Memory)
    ensures r.slots.Keys == mem.slots.Keys
    ensures forall q :: PlaceOK(q, mem) ==> PlaceOK(q, r)
  {
    if ps == [] then mem else ScanOne(rs, ps[|ps| - 1], Scan(rs, ps[..|ps| - 1], mem))
  }

  lemma {:induction false} ScanConcat(rs: seq<Rebinding>, ps: seq<Place>, ps': seq<Place>, mem: Memory)
    ensures Scan(rs, ps + ps', mem) == Scan(rs, ps', Scan(rs, ps, mem))
    decreases |ps'|
  {
    hide ScanOne;
    if ps' == [] {
      assert ps + ps' == ps;
    } else {
      var n := |ps'| - 1;
      ScanConcat(rs, ps, ps'[..n], mem);
      assert (ps + ps')[..|ps| + n] == ps + ps'[..n];
    }
  }

  function NamesOf(p: Place, mem: Memory): seq<Option<string>>
  {
    if PlaceOK(p, mem) then Names(p) else []
  }

  function SlotsOf(p: Place, mem: Memory): (r: seq<Ptr>)
    ensures |r| == |NamesOf(p, mem)|
  {
    if PlaceOK(p, mem) then mem.slots[p.sect.addr] else []
  }

  /** The names of all slots of all sections, and the slots themselves, in the order of scanning. */
  function AllNames(ps: seq<Place>, mem: Memory): seq<Option<string>>
  {
    if ps == [] then [] else AllNames(ps[..|ps| - 1], mem) + NamesOf(ps[|ps| - 1], mem)
  }

  function AllSlots(ps: seq<Place>, mem: Memory): (r: seq<Ptr>)
    ensures |r| == |AllNames(ps, mem)|
  {
    if ps == [] then [] else AllSlots(ps[..|ps| - 1], mem) + SlotsOf(ps[|ps| - 1], mem)
  }

  /** A scan of other sections does not touch the slots at addr. */
  lemma {:induction false} ScanElsewhere(rs: seq<Rebinding>, ps: seq<Place>, mem: Memory, addr: Addr)
    requires addr in mem.slots && forall p | p in ps :: p.sect.addr != addr
    ensures addr in Scan(rs, ps, mem).slots && Scan(rs, ps, mem).slots[addr] == mem.slots[addr]
  {
    if ps == [] {
    } else {
      assert ps[|ps| - 1] in ps;
      hide PassSlots, PassCells, Names;
      ScanElsewhere(rs, ps[..|ps| - 1], mem, addr);
    }
  }

  /** Scanning section by section treats the cells like one scan over all slots, so the laws of Rebinding apply. */
  lemma {:induction false} ScanIsOnePass(rs: seq<Rebinding>, ps: seq<Place>, mem: Memory)
    requires PlacesOK(ps, mem) && Separate(ps)
    ensures Scan(rs, ps, mem).cells == PassCells(rs, AllNames(ps, mem), AllSlots(ps, mem), mem.cells)
  {
    if ps == [] {
    } else {
      var n := |ps| - 1;
      var front, p := ps[..n], ps[n];
      SeparateFront(ps);
      assert p in ps && PlaceOK(p, mem);
      hide PassSlots, PassCells, Names, Separate;
      ScanIsOnePass(rs, front, mem);
      ScanElsewhere(rs, front, mem, p.sect.addr);
      PassCellsConcat(rs, AllNames(front, mem), AllSlots(front, mem), Names(p), mem.slots[p.sect.addr], mem.cells);
    }
  }

  lemma SeparateFront(ps: seq<Place>)
    requires Separate(ps) && ps != []
    ensures var n := |ps| - 1; Separate(ps[..n]) && forall p | p in ps[..n] :: p.sect.addr != ps[n].sect.addr
  {
    var n := |ps| - 1;
    forall k, l ensures Apart(ps[..n], k, l) { assert Apart(ps, k, l); }
    forall p | p in ps[..n] ensures p.sect.addr != ps[n].sect.addr {
      var k :| 0 <= k < n && ps[k] == p;
      assert Apart(ps, k, n);
    }
  }

  /** In each section, a scan of many leaves what a scan makes of that section's own contents. */
  lemma {:induction false} ScanSlots(rs: seq<Rebinding>, ps: seq<Place>, mem: Memory, p: Place)
    requires PlacesOK(ps, mem) && Separate(ps) && p in ps
    ensures PlaceOK(p, mem) && PlaceOK(p, Scan(rs, ps, mem))
    ensures Scan(rs, ps, mem).slots[p.sect.addr] == PassSlots(rs, Names(p), mem.slots[p.sect.addr])
  {
    var n := |ps| - 1;
    SeparateFront(ps);
    hide PassSlots, PassCells, Names, Separate;
    if p in ps[..n] {
      ScanSlots(rs, ps[..n], mem, p);
    } else {
      assert p == ps[n];
      ScanElsewhere(rs, ps[..n], mem, p.sect.addr);
    }
  }

  /** The slots of p hold what the list rs asks for, given what they held at load time. */
  predicate UpToDate(p: Place, rs: seq<Rebinding>, mem: Memory, loadTime: map<Addr, seq<Ptr>>)
  {
    && PlaceOK(p, mem) && p.sect.addr in loadTime && |loadTime[p.sect.addr]| == p.sect.size
    && mem.slots[p.sect.addr] == PassSlots(rs, Names(p), loadTime[p.sect.addr])
  }

  ghost predicate AllUpToDate(ps: seq<Place>, rs: seq<Rebinding>, mem: Memory, loadTime: map<Addr, seq<Ptr>>)
  {
    forall p | p in ps :: UpToDate(p, rs, mem, loadTime)
  }

  /** Rebinding j is the first of the list whose name slot i carries. */
  predicate FirstFor(p: Place, i: nat, rs: seq<Rebinding>, j: nat)
    requires SectionOK(p.img, p.sect) && i < p.sect.size
  {
    j < |rs| && IsSlotOf(p, i, rs[j].name) && forall k | 0 <= k < j :: !IsSlotOf(p, i, rs[k].name)
  }

  /** Slot i holds the replacement of the first rebinding of its symbol, or its load-time pointer if none has it. */
  ghost predicate SlotHolds(p: Place, i: nat, rs: seq<Rebinding>, mem: Memory, loadTime: map<Addr, seq<Ptr>>)
  {
    && PlaceOK(p, mem) && p.sect.addr in loadTime && |loadTime[p.sect.addr]| == p.sect.size && i < p.sect.size
    && var slot := mem.slots[p.sect.addr][i];
       && (forall j: nat | FirstFor(p, i, rs, j) :: slot == rs[j].replacement)
       && ((forall j | 0 <= j < |rs| :: !IsSlotOf(p, i, rs[j].name)) ==> slot == loadTime[p.sect.addr][i])
  }

  ghost predicate AllHold(ps: seq<Place>, rs: seq<Rebinding>, mem: Memory, loadTime: map<Addr, seq<Ptr>>)
  {
    forall p, i | p in ps && 0 <= i < p.sect.size :: SlotHolds(p, i, rs, mem, loadTime)
  }

  lemma FirstForMeans(p: Place, i: nat, rs: seq<Rebinding>)
    requires SectionOK(p.img, p.sect) && i < p.sect.size
    ensures match FirstMatch(rs, SlotName(p.img, p.sect, i))
            case Some(j) => FirstFor(p, i, rs, j) && forall k: nat | FirstFor(p, i, rs, k) :: k == j
            case None => forall j | 0 <= j < |rs| :: !IsSlotOf(p, i, rs[j].name)
  {
    var name := SlotName(p.img, p.sect, i);
    FirstMatchIsFirst(rs, name);
    hide FirstMatch, SlotName, IsSlotOf;
    forall k | 0 <= k < |rs| ensures Matches(rs[k], name) <==> IsSlotOf(p, i, rs[k].name) {
      SlotNameMeans(p, i, rs[k].name);
    }
  }

  /** Being up to date, said on the text of the symbols. */
  lemma UpToDateHolds(p: Place, i: nat, rs: seq<Rebinding>, mem: Memory, loadTime: map<Addr, seq<Ptr>>)
    requires UpToDate(p, rs, mem, loadTime) && i < p.sect.size
    ensures SlotHolds(p, i, rs, mem, loadTime)
  {
    FirstForMeans(p, i, rs);
    assert Names(p)[i] == SlotName(p.img, p.sect, i);
    hide FirstMatch, FirstFor, IsSlotOf, SlotName, Names, SectionOK;
  }

  lemma AllUpToDateHold(ps: seq<Place>, rs: seq<Rebinding>, mem: Memory, loadTime: map<Addr, seq<Ptr>>)
    requires AllUpToDate(ps, rs, mem, loadTime)
    ensures AllHold(ps, rs, mem, loadTime)
  {
    hide SlotHolds, UpToDate;
    forall p, i | p in ps && 0 <= i < p.sect.size ensures SlotHolds(p, i, rs, mem, loadTime) {
      UpToDateHolds(p, i, rs, mem, loadTime);
    }
  }

  /** Scanning with more rebindings in front brings everything up to date with the longer list. */
  lemma RescanUpToDate(ps: seq<Place>, new': seq<Rebinding>, rs: seq<Rebinding>, mem: Memory, loadTime: map<Addr,
      seq<Ptr>>)
    requires PlacesOK(ps, mem) && Separate(ps) && AllUpToDate(ps, rs, mem, loadTime)
    ensures AllUpToDate(ps, new' + rs, Scan(new' + rs, ps, mem), loadTime)
  {
    forall p | p in ps ensures UpToDate(p, new' + rs, Scan(new' + rs, ps, mem), loadTime) {
      assert UpToDate(p, rs, mem, loadTime);
      hide Scan, PassSlots, Names, Separate;
      ScanSlots(new' + rs, ps, mem, p);
      PassOverOlder(new', rs, Names(p), loadTime[p.sect.addr]);
    }
  }

  /** Loading sections at new addresses and scanning them, and only them, keeps everything up to date. */
  lemma LoadUpToDate(ps: seq<Place>, ps': seq<Place>, rs: seq<Rebinding>, mem: Memory, slots: map<Addr, seq<Ptr>>,
                     loadTime: map<Addr, seq<Ptr>>)
    requires PlacesOK(ps, mem) && Separate(ps) && AllUpToDate(ps, rs, mem, loadTime) && loadTime.Keys == mem.slots.Keys
    requires PlacesOK(ps', Memory(slots, map[])) && Separate(ps') && slots.Keys !! mem.slots.Keys
    ensures var mem' := Scan(rs, ps', Memory(mem.slots + slots, mem.cells));
            PlacesOK(ps + ps', mem') && Separate(ps + ps') && AllUpToDate(ps + ps', rs, mem', loadTime + slots)
  {
    LoadedApart(ps, ps', mem, slots);
    var mem0 := Memory(mem.slots + slots, mem.cells);
    hide Scan, PassSlots, Names, Separate;
    forall p | p in ps + ps' ensures UpToDate(p, rs, Scan(rs, ps', mem0), loadTime + slots) {
      if p in ps {
        assert UpToDate(p, rs, mem, loadTime);
        ScanElsewhere(rs, ps', mem0, p.sect.addr);
      } else {
        ScanSlots(rs, ps', mem0, p);
      }
    }
  }

  /** Sections loaded at new addresses are separate from the older ones, and spoil none of them. */
  lemma LoadedApart(ps: seq<Place>, ps': seq<Place>, mem: Memory, slots: map<Addr, seq<Ptr>>)
    requires PlacesOK(ps, mem) && Separate(ps) && PlacesOK(ps', Memory(slots, map[])) && Separate(ps')
    requires slots.Keys !! mem.slots.Keys
    ensures var mem0 := Memory(mem.slots + slots, mem.cells);
            && PlacesOK(ps + ps', mem0) && PlacesOK(ps', mem0) && Separate(ps + ps')
            && (forall p | p in ps :: mem0.slots[p.sect.addr] == mem.slots[p.sect.addr])
            && (forall p | p in ps' :: mem0.slots[p.sect.addr] == slots[p.sect.addr])
            && (forall p, p' | p in ps && p' in ps' :: p.sect.addr != p'.sect.addr)
  {
    var mem0 := Memory(mem.slots + slots, mem.cells);
    forall p | p in ps ensures PlaceOK(p, mem0) && p.sect.addr !in slots { assert PlaceOK(p, mem); }
    forall p | p in ps' ensures PlaceOK(p, mem0) && p.sect.addr in slots { assert PlaceOK(p, Memory(slots, map[])); }
    forall k, l ensures Apart(ps + ps', k, l) {
      assert Apart(ps, k, l) && Apart(ps', k - |ps|, l - |ps|);
    }
  }

  /** The slots of p already hold what a scan with rs would install. */
  predicate Installed(rs: seq<Rebinding>, p: Place, mem: Memory)
  {
    PlaceOK(p, mem) ==> PassSlots(rs, Names(p), mem.slots[p.sect.addr]) == mem.slots[p.sect.addr]
  }

  /** A scan of such sections changes no slot and no cell. */
  lemma {:induction false} ScanInstalled(rs: seq<Rebinding>, ps: seq<Place>, mem: Memory)
    requires forall k | 0 <= k < |ps| :: Installed(rs, ps[k], mem)
    ensures Scan(rs, ps, mem) == mem
  {
    if ps == [] {
    } else {
      ScanInstalled(rs, ps[..|ps| - 1], mem);
      var p := ps[|ps| - 1];
      assert Installed(rs, ps[|ps| - 1], mem);
      if PlaceOK(p, mem) {
        var slots := mem.slots[p.sect.addr];
        NothingToSave(rs, Names(p), slots, mem.cells);
        assert mem.slots[p.sect.addr := slots] == mem.slots;
      }
    }
  }

  /** With no rebinding, a scan changes nothing. */
  lemma ScanNothing(ps: seq<Place>, mem: Memory)
    ensures Scan([], ps, mem) == mem
  {
    forall k | 0 <= k < |ps| ensures Installed([], ps[k], mem) {
    }
    hide Scan, Installed;
    ScanInstalled([], ps, mem);
  }

  lemma {:induction false} AllInstalled(rs: seq<Rebinding>, ps: seq<Place>, mem: Memory)
    requires forall k | 0 <= k < |ps| :: Installed(rs, ps[k], mem)
    ensures PassSlots(rs, AllNames(ps, mem), AllSlots(ps, mem)) == AllSlots(ps, mem)
  {
    if ps == [] {
    } else {
      var front, p := ps[..|ps| - 1], ps[|ps| - 1];
      AllInstalled(rs, front, mem);
      assert Installed(rs, ps[|ps| - 1], mem);
      assert PassSlots(rs, NamesOf(p, mem), SlotsOf(p, mem)) == SlotsOf(p, mem);
      assert PassSlots(rs, AllNames(ps, mem), AllSlots(ps, mem))
          == PassSlots(rs, AllNames(front, mem), AllSlots(front, mem)) + PassSlots(rs, NamesOf(p, mem),
              SlotsOf(p, mem));
    }
  }

  /** Every slot of every scanned section occurs among all slots. */
  lemma {:induction false} SlotInAll(ps: seq<Place>, mem: Memory, p: Place, i: nat) returns (k: nat)
    requires p in ps && PlaceOK(p, mem) && i < p.sect.size
    ensures k < |AllNames(ps, mem)| && AllNames(ps, mem)[k] == Names(p)[i]
    ensures AllSlots(ps, mem)[k] == mem.slots[p.sect.addr][i]
  {
    var front := ps[..|ps| - 1];
    if p == ps[|ps| - 1] {
      k := |AllNames(front, mem)| + i;
    } else {
      k := SlotInAll(front, mem, p, i);
    }
  }

  /** The two things that can happen to a hooked process. */
  datatype Happening = Called(rebindings: seq<Rebinding>) | Loaded(img: Image, slots: map<Addr, seq<Ptr>>)

  datatype World = World(head: Entries, images: seq<Image>, mem: Memory, loadTime: map<Addr, seq<Ptr>>)

  ghost predicate Plausible(w: World, h: Happening)
  {
    h.Loaded? ==> PlacesOK(Scanned(h.img), Memory(h.slots, map[])) && Separate(Scanned(h.img))
                  && h.slots.Keys !! w.mem.slots.Keys
  }

  /** A call scans all images with the longer list; a load scans the new image only. */
  function Happens(w: World, h: Happening): World
  {
    match h
    case Called(rs) =>
      w.(head := Entry(rs, w.head), mem := Scan(rs + Flatten(w.head), Places(w.images), w.mem))
    case Loaded(img, slots) =>
      World(w.head, w.images + [img],
            Scan(Flatten(w.head), Scanned(img), Memory(w.mem.slots + slots, w.mem.cells)), w.loadTime + slots)
  }

  ghost predicate WorldOK(w: World)
  {
    && PlacesOK(Places(w.images), w.mem) && Separate(Places(w.images)) && w.loadTime.Keys == w.mem.slots.Keys
    && AllUpToDate(Places(w.images), Flatten(w.head), w.mem, w.loadTime)
  }

  function AfterAll(w: World, hs: seq<Happening>): World
  {
    if hs == [] then w else Happens(AfterAll(w, hs[..|hs| - 1]), hs[|hs| - 1])
  }

  ghost predicate AllPlausible(w: World, hs: seq<Happening>)
  {
    hs == [] || (AllPlausible(w, hs[..|hs| - 1]) && Plausible(AfterAll(w, hs[..|hs| - 1]), hs[|hs| - 1]))
  }

  /** All rebindings ever requested, the newest call first. */
  function Requested(hs: seq<Happening>): seq<Rebinding>
  {
    if hs == [] then [] else
    (match hs[|hs| - 1] case Called(rs) => rs case Loaded(_, _) => []) + Requested(hs[..|hs| - 1])
  }

  lemma HappensKeepsWorldOK(w: World, h: Happening)
    requires WorldOK(w) && Plausible(w, h)
    ensures WorldOK(Happens(w, h))
  {
    match h
    case Called(rs) =>
      RescanUpToDate(Places(w.images), rs, Flatten(w.head), w.mem, w.loadTime);
      hide Scan, Places, Separate;
    case Loaded(img, slots) =>
      assert (w.images + [img])[..|w.images|] == w.images;
      assert Places(w.images + [img]) == Places(w.images) + Scanned(img);
      hide Scan, Places, Separate;
      LoadUpToDate(Places(w.images), Scanned(img), Flatten(w.head), w.mem, slots, w.loadTime);
  }

  lemma LoadedFits(w: World, img: Image, slots: map<Addr, seq<Ptr>>)
    requires WorldOK(w) && Plausible(w, Loaded(img, slots))
    ensures PlacesOK(Scanned(img), Memory(w.mem.slots + slots, w.mem.cells))
  {
    hide Scanned, Places;
    LoadedApart(Places(w.images), Scanned(img), w.mem, slots);
  }

  /**
   Whatever the order of calls and image loads, each scanned slot of each loaded image holds the replacement
   of the first rebinding ever requested for its symbol, newest call first, or its load-time pointer.
   */
  lemma {:induction false} EveryInterleaving(cells: map<Addr, Ptr>, hs: seq<Happening>)
    requires AllPlausible(World(Nil, [], Memory(map[], cells), map[]), hs)
    ensures var w := AfterAll(World(Nil, [], Memory(map[], cells), map[]), hs);
            && WorldOK(w) && Flatten(w.head) == Requested(hs)
            && AllUpToDate(Places(w.images), Requested(hs), w.mem, w.loadTime)
            && AllHold(Places(w.images), Requested(hs), w.mem, w.loadTime)
    decreases |hs|
  {
    var w0 := World(Nil, [], Memory(map[], cells), map[]);
    WorldOKHolds(AfterAll(w0, hs));
    if hs == [] {
    } else {
      var front, h := hs[..|hs| - 1], hs[|hs| - 1];
      hide AllHold;
      hide Happens, WorldOK, Plausible, AllUpToDate, Places;
      EveryInterleaving(cells, front);
      HappensKeepsWorldOK(AfterAll(w0, front), h);
      HappensRequests(AfterAll(w0, front), h);
    }
  }

  lemma WorldOKHolds(w: World)
    ensures WorldOK(w) ==> AllUpToDate(Places(w.images), Flatten(w.head), w.mem, w.loadTime)
    ensures WorldOK(w) ==> AllHold(Places(w.images), Flatten(w.head), w.mem, w.loadTime)
  {
    if WorldOK(w) { AllUpToDateHold(Places(w.images), Flatten(w.head), w.mem, w.loadTime); }
  }

  lemma HappensRequests(w: World, h: Happening)
    ensures Flatten(Happens(w, h).head) == (match h case Called(rs) => rs case Loaded(_, _) => []) + Flatten(w.head)
  {
    hide Scan, Places, Scanned;
  }

  /** In a process that is up to date, all slots already hold what the list asks for. */
  lemma WorldInstalled(w: World)
    requires WorldOK(w)
    ensures forall k | 0 <= k < |Places(w.images)| :: Installed(Flatten(w.head), Places(w.images)[k], w.mem)
  {
    var ps, rs := Places(w.images), Flatten(w.head);
    hide Places, PassSlots, PassCells, Names;
    forall k | 0 <= k < |ps| ensures Installed(rs, ps[k], w.mem) {
      assert UpToDate(ps[k], rs, w.mem, w.loadTime);
      PassIsIdempotent(rs, Names(ps[k]), w.loadTime[ps[k].sect.addr], w.mem.cells);
    }
  }

  /** Scanning again changes no slot and no cell. */
  lemma RescanChangesNothing(w: World)
    requires WorldOK(w)
    ensures Scan(Flatten(w.head), Places(w.images), w.mem) == w.mem
  {
    WorldInstalled(w);
    ScanInstalled(Flatten(w.head), Places(w.images), w.mem);
  }

  /** Nor does calling rebind_symbols again with the same array, which prepends it a second time. */
  lemma CallTwice(w: World, rs: seq<Rebinding>)
    requires WorldOK(w)
    ensures var once := Happens(w, Called(rs)); Happens(once, Called(rs)).mem == once.mem
  {
    var once, older := Happens(w, Called(rs)), Flatten(w.head);
    HappensKeepsWorldOK(w, Called(rs));
    WorldInstalled(once);
    assert Flatten(once.head) == rs + older;
    hide Scan, Places, WorldOK;
    forall k | 0 <= k < |Places(w.images)| ensures Installed(rs + (rs + older), Places(w.images)[k], once.mem) {
      var p := Places(w.images)[k];
      assert Installed(rs + older, p, once.mem);
      if PlaceOK(p, once.mem) {
        SamePass(rs, older, Names(p), once.mem.slots[p.sect.addr]);
      }
    }
    ScanInstalled(rs + (rs + older), Places(w.images), once.mem);
  }

  lemma SamePass(rs: seq<Rebinding>, older: seq<Rebinding>, names: seq<Option<string>>, slots: seq<Ptr>)
    requires |names| == |slots|
    ensures PassSlots(rs + (rs + older), names, slots) == PassSlots(rs + older, names, slots)
  {
    forall i | 0 <= i < |slots|
      ensures Install(rs + (rs + older), names[i], slots[i]) == Install(rs + older, names[i], slots[i])
    {
      InstallConcat(rs, rs + older, names[i], slots[i], map[]);
      InstallConcat(rs, older, names[i], slots[i], map[]);
    }
  }

  /** A call writes its cells as one scan of all slots with its own array would, whatever was requested before. */
  lemma CallCells(w: World, rs: seq<Rebinding>)
    requires WorldOK(w)
    ensures var ps := Places(w.images);
            && PassSlots(Flatten(w.head), AllNames(ps, w.mem), AllSlots(ps, w.mem)) == AllSlots(ps, w.mem)
            && Happens(w, Called(rs)).mem.cells
               == PassCells(rs, AllNames(ps, w.mem), AllSlots(ps, w.mem), w.mem.cells)
  {
    var ps := Places(w.images);
    WorldInstalled(w);
    AllInstalled(Flatten(w.head), ps, w.mem);
    ScanIsOnePass(rs + Flatten(w.head), ps, w.mem);
    hide Scan, Places, PassSlots, PassCells;
    OnlyNewSaves(rs, Flatten(w.head), AllNames(ps, w.mem), AllSlots(ps, w.mem), w.mem.cells);
  }

  /**
   Saved originals, for a whole call over all images: the cell of rebinding j ends with the pointer found in the
   last slot of any image that j is the first of the array to match, and that does not hold its replacement yet;
   without such a slot it keeps its value. Cells of no rebinding of the array keep theirs.
   */
  lemma CallSavesOriginals(w: World, rs: seq<Rebinding>, j: nat)
    requires WorldOK(w) && DistinctCells(rs) && j < |rs| && rs[j].replaced.Some?
    ensures var ps, cells', a := Places(w.images), Happens(w, Called(rs)).mem.cells, rs[j].replaced.value;
            match LastSave(rs, AllNames(ps, w.mem), AllSlots(ps, w.mem), j)
            case None => SameCell(a, w.mem.cells, cells')
            case Some(i) => a in cells' && cells'[a] == AllSlots(ps, w.mem)[i]
    ensures forall a: Addr :: (forall k | 0 <= k < |rs| :: rs[k].replaced != Some(a)) ==>
              SameCell(a, w.mem.cells, Happens(w, Called(rs)).mem.cells)
  {
    var ps := Places(w.images);
    CallCells(w, rs);
    hide Happens, Places, PassSlots, PassCells, WorldOK;
    SavedOriginal(rs, AllNames(ps, w.mem), AllSlots(ps, w.mem), w.mem.cells, j);
    forall a: Addr | forall k | 0 <= k < |rs| :: rs[k].replaced != Some(a)
      ensures SameCell(a, w.mem.cells, PassCells(rs, AllNames(ps, w.mem), AllSlots(ps, w.mem), w.mem.cells))
    {
      OtherCellsKept(rs, AllNames(ps, w.mem), AllSlots(ps, w.mem), w.mem.cells, a);
    }
  }

  /** Hooks chain over whole calls: with a slot of that name in any image, the previous replacement is saved. */
  lemma CallChains(w: World, rs: seq<Rebinding>, j: nat, prev: nat, p: Place, i: nat)
    requires WorldOK(w) && DistinctCells(rs) && Chains(rs, Flatten(w.head), j, prev)
    requires p in Places(w.images) && SectionOK(p.img, p.sect) && i < p.sect.size && Names(p)[i] == Some(rs[j].name)
    ensures var cells', a := Happens(w, Called(rs)).mem.cells, rs[j].replaced.value;
            a in cells' && cells'[a] == Flatten(w.head)[prev].replacement
  {
    var ps := Places(w.images);
    CallCells(w, rs);
    assert PlaceOK(p, w.mem);
    hide Happens, Places, PassSlots, PassCells, WorldOK, Names;
    var k := SlotInAll(ps, w.mem, p, i);
    OnlyNewSaves(rs, Flatten(w.head), AllNames(ps, w.mem), AllSlots(ps, w.mem), w.mem.cells);
    RebindingChains(rs, Flatten(w.head), AllNames(ps, w.mem), AllSlots(ps, w.mem), w.mem.cells, j, k, prev);
  }

  /** Loading an image keeps a saved original if and only if the last slot it is saved from, if any, holds it too. */
  lemma LoadAndSavedOriginals(w: World, img: Image, slots: map<Addr, seq<Ptr>>, j: nat)
    requires WorldOK(w) && Plausible(w, Loaded(img, slots))
    requires var rs := Flatten(w.head);
             DistinctCells(rs) && j < |rs| && rs[j].replaced.Some? && rs[j].replaced.value in w.mem.cells
    ensures var w', a := Happens(w, Loaded(img, slots)), Flatten(w.head)[j].replaced.value;
            var ps, mem := Scanned(img), Memory(w.mem.slots + slots, w.mem.cells);
            && a in w'.mem.cells
            && (w'.mem.cells[a] == w.mem.cells[a] <==>
                  match LastSave(Flatten(w.head), AllNames(ps, mem), AllSlots(ps, mem), j)
                  case None => true
                  case Some(i) => AllSlots(ps, mem)[i] == w.mem.cells[a])
  {
    var rs, ps, mem := Flatten(w.head), Scanned(img), Memory(w.mem.slots + slots, w.mem.cells);
    LoadedFits(w, img, slots);
    hide Places, Scanned, Scan, WorldOK, PassCells;
    ScanIsOnePass(rs, ps, mem);
    LateImageKeepsCell(rs, AllNames(ps, mem), AllSlots(ps, mem), w.mem.cells, j);
  }

  /** The globals of fishhook.c, the images dyld knows, and the memory both look at. */
  class Process {
    var head: Entries
    var images: seq<Image>
    var registered: bool
    var mem: Memory
    /** For each scanned section, by its address, the pointers its slots held when the image was loaded. */
    ghost var loadTime: map<Addr, seq<Ptr>>

    ghost function State(): World
      reads this
    {
      World(head, images, mem, loadTime)
    }

    /** Every slot holds the first match of the whole list, newest call first, or its load-time pointer. */
    ghost predicate Valid()
      reads this
    {
      (registered <==> head.Entry?) && WorldOK(State())
    }

    constructor (cells: map<Addr, Ptr>)
      ensures Valid() && State() == World(Nil, [], Memory(map[], cells), map[])
    {
      head, images, registered, mem, loadTime := Nil, [], false, Memory(map[], cells), map[];
    }

    /** prepend_rebindings (fishhook.c:62-80); allocOK is whether both allocations succeed. */
    method PrependRebindings(rebindings: seq<Rebinding>, allocOK: bool) returns (retval: int)
      modifies this`head
      ensures retval == if allocOK then 0 else -1
      ensures head == if allocOK then Entry(rebindings, old(head)) else old(head)
    {
      if !allocOK {
        return -1;
      }
      head := Entry(rebindings, head);
      retval := 0;
    }

    /** One slot of the loop (fishhook.c:91-111): special indices are left alone. */
    method ScanSlot(rebindings: Entries, p: Place, i: nat)
      requires PlaceOK(p, mem) && i < p.sect.size
      modifies this`mem
      ensures Rebound(Flatten(rebindings), SlotName(p.img, p.sect, i), p.sect.addr, i, old(mem), mem)
    {
      var symtabIndex := p.img.indirect[p.sect.first + i];
      assert IndexOK(p.img, symtabIndex);
      if !IsSpecial(symtabIndex) {
        var symbolName := CString(p.img.strtab, p.img.symtab[symtabIndex]);
        assert SlotName(p.img, p.sect, i) == UsableName(symbolName);
        hide CString, SlotName, IndexOK, UsableName, Rebound;
        RebindSlot(rebindings, symbolName, p.sect.addr, i);
      } else {
        ReboundNothing(Flatten(rebindings), p.sect.addr, i, mem);
      }
    }

    static lemma ReboundNothing(rs: seq<Rebinding>, addr: Addr, i: nat, mem: Memory)
      requires addr in mem.slots && i < |mem.slots[addr]|
      ensures Rebound(rs, None, addr, i, mem, mem)
    {
      FirstMatchIsFirst(rs, None);
      assert mem.slots[addr][i := mem.slots[addr][i]] == mem.slots[addr];
      assert mem.slots[addr := mem.slots[addr]] == mem.slots;
    }

    /** perform_rebinding_with_section (fishhook.c:82-113). */
    method PerformRebindingWithSection(rebindings: Entries, p: Place)
      requires PlaceOK(p, mem)
      modifies this`mem
      ensures mem == ScanOne(Flatten(rebindings), p, old(mem))
    {
      ghost var rs, names, before := Flatten(rebindings), Names(p), mem.slots[p.sect.addr];
      PartStart(rs, names, before, p.sect.addr, mem);
      PartEnd(rs, names, before, p.sect.addr, mem);
      var i := 0;
      while i < p.sect.size
        invariant 0 <= i <= p.sect.size
        invariant mem == PartScan(rs, names, before, p.sect.addr, old(mem), i) && PlaceOK(p, mem)
      {
        PartStep(rs, names, before, p.sect.addr, old(mem), i);
        hide PartScan, Rebound, Names, SlotName, SectionOK;
        ScanSlot(rebindings, p, i);
        i := i + 1;
      }
    }

    /** A section scanned up to slot i. */
    static function PartScan(rs: seq<Rebinding>, names: seq<Option<string>>, before: seq<Ptr>, addr: Addr,
        mem: Memory, i: nat): Memory
      requires i <= |names| == |before|
    {
      Memory(mem.slots[addr := PassSlots(rs, names[..i], before[..i]) + before[i..]],
             PassCells(rs, names[..i], before[..i], mem.cells))
    }

    static lemma PartStart(rs: seq<Rebinding>, names: seq<Option<string>>, before: seq<Ptr>, addr: Addr, mem: Memory)
      requires |names| == |before| && addr in mem.slots && mem.slots[addr] == before
      ensures PartScan(rs, names, before, addr, mem, 0) == mem
    {
      assert PassSlots(rs, names[..0], before[..0]) + before[0..] == before;
      assert mem.slots[addr := before] == mem.slots;
    }

    static lemma PartEnd(rs: seq<Rebinding>, names: seq<Option<string>>, before: seq<Ptr>, addr: Addr, mem: Memory)
      requires |names| == |before|
      ensures PartScan(rs, names, before, addr, mem, |names|)
           == Memory(mem.slots[addr := PassSlots(rs, names, before)], PassCells(rs, names, before, mem.cells))
    {
      assert names[..|names|] == names && before[..|names|] == before && before[|names|..] == [];
      assert PassSlots(rs, names, before) + [] == PassSlots(rs, names, before);
    }

    /** Slot i is still as it was, and rebinding it is the next step. */
    static lemma PartStep(rs: seq<Rebinding>, names: seq<Option<string>>, before: seq<Ptr>, addr: Addr, mem: Memory,
        i: nat)
      requires i < |names| == |before|
      ensures var now, next := PartScan(rs, names, before, addr, mem, i), PartScan(rs, names, before, addr, mem, i + 1);
              && addr in now.slots && i < |now.slots[addr]| == |before|
              && addr in next.slots && |next.slots[addr]| == |before|
              && (forall m :: Rebound(rs, names[i], addr, i, now, m) ==> m == next)
    {
      assert names[..i + 1][..i] == names[..i] && before[..i + 1][..i] == before[..i];
      var now, next := PartScan(rs, names, before, addr, mem, i), PartScan(rs, names, before, addr, mem, i + 1);
      var slot' := Install(rs, names[i], before[i]);
      assert next.slots[addr] == now.slots[addr][i := slot'];
      assert next.slots == now.slots[addr := next.slots[addr]];
    }

    /** A match (fishhook.c:99-106): save the old pointer unless the replacement is already there, then install. */
    method ReplaceSlot(r: Rebinding, addr: Addr, i: nat)
      requires addr in mem.slots && i < |mem.slots[addr]|
      modifies this`mem
      ensures mem.slots == old(mem).slots[addr := old(mem).slots[addr][i := r.replacement]]
      ensures mem.cells == if r.replaced.Some? && old(mem).slots[addr][i] != r.replacement
                           then old(mem).cells[r.replaced.value := old(mem).slots[addr][i]] else old(mem).cells
    {
      if r.replaced.Some? && mem.slots[addr][i] != r.replacement {
        mem := mem.(cells := mem.cells[r.replaced.value := mem.slots[addr][i]]);
      }
      mem := mem.(slots := mem.slots[addr := mem.slots[addr][i := r.replacement]]);
    }

    static lemma EntryMatches(entry: seq<Rebinding>, symbolName: string)
      ensures FirstMatch(entry, UsableName(symbolName)).Some?
         <==> exists j | 0 <= j < |entry| :: IsSymbolOf(symbolName, entry[j].name)
    {
      var name := UsableName(symbolName);
      FirstMatchIsFirst(entry, name);
      hide FirstMatch, UsableName, IsSymbolOf;
      forall k | 0 <= k < |entry| ensures Matches(entry[k], name) <==> IsSymbolOf(symbolName, entry[k].name) {
        UsableNameMeans(symbolName, entry[k].name);
      }
    }

    /** One entry of the list (fishhook.c:98-110), in array order; tells whether it had a match. */
    method TryEntry(entry: seq<Rebinding>, symbolName: string, addr: Addr, i: nat) returns (found: bool)
      requires addr in mem.slots && i < |mem.slots[addr]|
      modifies this`mem
      ensures found <==> exists j | 0 <= j < |entry| :: IsSymbolOf(symbolName, entry[j].name)
      ensures found == FirstMatch(entry, UsableName(symbolName)).Some?
      ensures found ==> Rebound(entry, UsableName(symbolName), addr, i, old(mem), mem)
      ensures !found ==> mem == old(mem)
    {
      ghost var name := UsableName(symbolName);
      EntryMatches(entry, symbolName);
      var j := 0;
      while j < |entry|
        invariant 0 <= j <= |entry|
        invariant FirstMatch(entry[..j], name) == None
        invariant mem == old(mem)
      {
        FirstMatchConcat(entry[..j], [entry[j]], name);
        FirstMatchConcat(entry[..j + 1], entry[j + 1..], name);
        assert entry[..j] + [entry[j]] == entry[..j + 1] && entry[..j + 1] + entry[j + 1..] == entry;
        assert FirstMatch([entry[j]], name) == if Matches(entry[j], name) then Some(0) else None;
        if |symbolName| > 1 && symbolName[1..] == entry[j].name {
          assert FirstMatch(entry, name) == Some(j);
          ReplaceSlot(entry[j], addr, i);
          return true;
        }
        j := j + 1;
      }
      assert entry[..j] == entry;
      return false;
    }

    /** The search for one slot (fishhook.c:96-111), entry by entry. */
    method RebindSlot(rebindings: Entries, symbolName: string, addr: Addr, i: nat)
      requires addr in mem.slots && i < |mem.slots[addr]|
      modifies this`mem
      ensures Rebound(Flatten(rebindings), UsableName(symbolName), addr, i, old(mem), mem)
    {
      ghost var rs, name, slot := Flatten(rebindings), UsableName(symbolName), mem.slots[addr][i];
      var cur := rebindings;
      while cur.Entry?
        invariant Install(rs, name, slot) == Install(Flatten(cur), name, slot)
        invariant SaveOriginal(rs, name, slot, mem.cells) == SaveOriginal(Flatten(cur), name, slot, mem.cells)
        invariant mem == old(mem)
        decreases cur
      {
        InstallConcat(cur.rebindings, Flatten(cur.next), name, slot, mem.cells);
        hide FirstMatch, Install, SaveOriginal;
        var found := TryEntry(cur.rebindings, symbolName, addr, i);
        if found {
          return;
        }
        cur := cur.next;
      }
      assert mem.slots[addr][i := slot] == mem.slots[addr];
      assert mem.slots[addr := mem.slots[addr]] == mem.slots;
    }

    /** One slot has been rebound by a list, or left alone by it; nothing else has changed. */
    static predicate Rebound(rs: seq<Rebinding>, name: Option<string>, addr: Addr, i: nat, before: Memory,
        after: Memory)
      requires addr in before.slots && i < |before.slots[addr]|
    {
      var slot := before.slots[addr][i];
      && after.slots == before.slots[addr := before.slots[addr][i := Install(rs, name, slot)]]
      && after.cells == SaveOriginal(rs, name, slot, before.cells)
    }

    /** The first loop over the load commands (fishhook.c:118-147). */
    static method FindCommands(img: Image) returns (scannable: bool)
      ensures scannable == Scannable(img)
    {
      if !img.known {
        return false;
      }
      var linkedit, symtab, nindirectsyms := false, false, 0;
      for i := 0 to |img.cmds|
        invariant linkedit <==> exists k | 0 <= k < i :: img.cmds[k].Segment? && img.cmds[k].name == "__LINKEDIT"
        invariant symtab <==> exists k | 0 <= k < i :: img.cmds[k].SymtabCommand?
        invariant nindirectsyms == LastIndirect(img.cmds[..i])
      {
        assert img.cmds[..i + 1][..i] == img.cmds[..i];
        var cmd := img.cmds[i];
        if cmd.Segment? {
          if cmd.name == "__LINKEDIT" { linkedit := true; }
        } else if cmd.SymtabCommand? {
          symtab := true;
        } else if cmd.DysymtabCommand? {
          nindirectsyms := cmd.nindirectsyms;
        }
      }
      assert img.cmds[..|img.cmds|] == img.cmds;
      scannable := symtab && linkedit && nindirectsyms > 0;
    }

    /** rebind_symbols_for_image (fishhook.c:115-174). */
    method RebindSymbolsForImage(rebindings: Entries, img: Image)
      requires PlacesOK(Scanned(img), mem)
      modifies this`mem
      ensures mem == Scan(Flatten(rebindings), Scanned(img), old(mem))
    {
      var scannable := FindCommands(img);
      if !scannable {
        return;
      }
      ghost var rs := Flatten(rebindings);
      assert img.cmds[..0] == [] && Scanned(img) == ScannedCommands(img, img.cmds);
      assert Scan(rs, [], mem) == mem && ScannedCommands(img, []) == [];
      hide ScannedCommands, ScannedSections, Scan, Scanned, Scannable;
      var i := 0;
      while i < |img.cmds|
        invariant 0 <= i <= |img.cmds|
        invariant mem == Scan(rs, ScannedCommands(img, img.cmds[..i]), old(mem))
      {
        CommandsStep(img, img.cmds, i, rs, old(mem));
        if IsDataSegment(img.cmds[i]) {
          ScanSegment(rebindings, img, img.cmds[i].sects);
        }
        i := i + 1;
      }
      assert img.cmds[..i] == img.cmds;
    }

    /** The sections of one data segment (fishhook.c:161-171). */
    method ScanSegment(rebindings: Entries, img: Image, sects: seq<Section>)
      requires PlacesOK(ScannedSections(img, sects), mem)
      modifies this`mem
      ensures mem == Scan(Flatten(rebindings), ScannedSections(img, sects), old(mem))
    {
      ghost var rs := Flatten(rebindings);
      assert sects[..0] == [] && Scan(rs, [], mem) == mem && ScannedSections(img, []) == [];
      hide ScannedSections, Scan, ScanOne;
      var j := 0;
      while j < |sects|
        invariant 0 <= j <= |sects|
        invariant mem == Scan(rs, ScannedSections(img, sects[..j]), old(mem))
      {
        SectionsStep(img, sects, j, rs, old(mem));
        var sect := sects[j];
        if sect.kind.LazyPointers? {
          PerformRebindingWithSection(rebindings, Place(img, sect));
        }
        if sect.kind.NonLazyPointers? {
          PerformRebindingWithSection(rebindings, Place(img, sect));
        }
        j := j + 1;
      }
      assert sects[..j] == sects;
    }

    /** What one more section adds to a scan. */
    static lemma SectionsStep(img: Image, sects: seq<Section>, j: nat, rs: seq<Rebinding>, mem: Memory)
      requires j < |sects|
      ensures var p, now := Place(img, sects[j]), Scan(rs, ScannedSections(img, sects[..j]), mem);
              && Scan(rs, ScannedSections(img, sects[..j + 1]), mem)
                 == (if sects[j].kind.OtherSection? then now else ScanOne(rs, p, now))
              && (!sects[j].kind.OtherSection? ==> p in ScannedSections(img, sects))
    {
      hide ScanOne;
      assert sects[..j + 1][..j] == sects[..j];
      SectionsPrefix(img, sects, j + 1);
      var front, p := ScannedSections(img, sects[..j]), Place(img, sects[j]);
      if !sects[j].kind.OtherSection? {
        assert (front + [p])[..|front|] == front;
        assert p in ScannedSections(img, sects[..j + 1]);
      } else {
        assert front + [] == front;
      }
    }

    /** What one more load command adds to a scan. */
    static lemma CommandsStep(img: Image, cmds: seq<LoadCommand>, i: nat, rs: seq<Rebinding>, mem: Memory)
      requires i < |cmds|
      ensures var now, next := Scan(rs, ScannedCommands(img, cmds[..i]), mem),
          Scan(rs, ScannedCommands(img, cmds[..i + 1]), mem);
              if IsDataSegment(cmds[i]) then
                && next == Scan(rs, ScannedSections(img, cmds[i].sects), now)
                && forall p | p in ScannedSections(img, cmds[i].sects) :: p in ScannedCommands(img, cmds)
              else next == now
    {
      assert cmds[..i + 1][..i] == cmds[..i];
      if IsDataSegment(cmds[i]) {
        var front, part := ScannedCommands(img, cmds[..i]), ScannedSections(img, cmds[i].sects);
        assert ScannedCommands(img, cmds[..i + 1]) == front + part;
        CommandsPrefix(img, cmds, i + 1);
        hide Scan, ScannedCommands, ScannedSections;
        ScanConcat(rs, front, part, mem);
        forall p | p in part ensures p in ScannedCommands(img, cmds) { assert p in front + part; }
      } else {
        assert ScannedCommands(img, cmds[..i]) + [] == ScannedCommands(img, cmds[..i]);
      }
    }

    /** dyld runs the callback for every image it has loaded (fishhook.c:198-206). */
    method ScanLoadedImages()
      requires PlacesOK(Places(images), mem)
      modifies this`mem
      ensures mem == Scan(Flatten(head), Places(images), old(mem))
    {
      ghost var rs := Flatten(head);
      assert images[..0] == [] && Scan(rs, [], mem) == mem && Places([]) == [];
      hide Scan, Scanned, Places;
      var i := 0;
      while i < |images|
        invariant 0 <= i <= |images|
        invariant mem == Scan(rs, Places(images[..i]), old(mem))
      {
        ImagesStep(images, i, rs, old(mem));
        RebindSymbolsForImage(head, images[i]);
        i := i + 1;
      }
      assert images[..i] == images;
    }

    static lemma ImagesStep(images: seq<Image>, i: nat, rs: seq<Rebinding>, mem: Memory)
      requires i < |images|
      ensures Scan(rs, Places(images[..i + 1]), mem) == Scan(rs, Scanned(images[i]), Scan(rs, Places(images[..i]), mem))
      ensures forall p | p in Scanned(images[i]) :: p in Places(images)
    {
      assert images[..i + 1][..i] == images[..i];
      ImagesPrefix(images, i + 1);
      var front, part := Places(images[..i]), Scanned(images[i]);
      assert Places(images[..i + 1]) == front + part;
      hide Scan, Scanned, Places;
      ScanConcat(rs, front, part, mem);
      forall p | p in part ensures p in Places(images) { assert p in front + part; }
    }

    static lemma {:induction false} ImagesPrefix(images: seq<Image>, i: nat)
      requires i <= |images|
      ensures Places(images[..i]) <= Places(images)
      decreases |images| - i
    {
      if i < |images| {
        assert images[..i + 1][..i] == images[..i];
        ImagesPrefix(images, i + 1);
      } else {
        assert images[..i] == images;
      }
    }

    /** rebind_symbols (fishhook.c:192-208). */
    method RebindSymbols(rebindings: seq<Rebinding>, allocOK: bool) returns (retval: int)
      requires Valid()
      modifies this`head, this`registered, this`mem
      ensures Valid()
      ensures retval == if allocOK then 0 else -1
      ensures State() == if allocOK then Happens(old(State()), Called(rebindings)) else old(State())
      ensures allocOK ==> AllHold(Places(images), rebindings + Flatten(old(head)), mem, loadTime)
    {
      retval := PrependRebindings(rebindings, allocOK);
      if retval < 0 {
        return;
      }
      if head.next.Nil? {
        registered := true;
        ScanLoadedImages();
      } else {
        ScanLoadedImages();
      }
      HappensKeepsWorldOK(old(State()), Called(rebindings));
      WorldOKHolds(State());
    }

    /** dyld maps an image: it joins the list, and its slots appear in memory. */
    method MapImage(img: Image, slots: map<Addr, seq<Ptr>>)
      modifies this`images, this`mem, this`loadTime
      ensures images == old(images) + [img] && loadTime == old(loadTime) + slots
      ensures mem == Memory(old(mem).slots + slots, old(mem).cells)
    {
      images := images + [img];
      mem := mem.(slots := mem.slots + slots);
      loadTime := loadTime + slots;
    }

    /** _rebind_symbols_for_image (fishhook.c:176-179), which dyld runs once it is registered. */
    method Callback(img: Image)
      requires PlacesOK(Scanned(img), mem) && (registered <==> head.Entry?)
      modifies this`mem
      ensures mem == Scan(Flatten(head), Scanned(img), old(mem))
    {
      hide Scanned, Scan, PlacesOK;
      if registered {
        RebindSymbolsForImage(head, img);
      } else {
        ScanNothing(Scanned(img), mem);
      }
    }

    /** An image is loaded. */
    method LoadImage(img: Image, slots: map<Addr, seq<Ptr>>)
      requires Valid() && Plausible(State(), Loaded(img, slots))
      modifies this`images, this`mem, this`loadTime
      ensures Valid() && State() == Happens(old(State()), Loaded(img, slots))
      ensures AllHold(Places(images), Flatten(head), mem, loadTime)
    {
      hide WorldOK, Plausible, PlacesOK, Places, Scanned, Scan, Separate, AllHold, AllUpToDate, Flatten;
      HappensKeepsWorldOK(State(), Loaded(img, slots));
      LoadedFits(State(), img, slots);
      MapImage(img, slots);
      Callback(img);
      WorldOKHolds(State());
    }

    static lemma {:induction false} SectionsPrefix(img: Image, sects: seq<Section>, j: nat)
      requires j <= |sects|
      ensures ScannedSections(img, sects[..j]) <= ScannedSections(img, sects)
      decreases |sects| - j
    {
      if j < |sects| {
        assert sects[..j + 1][..j] == sects[..j];
        SectionsPrefix(img, sects, j + 1);
      } else {
        assert sects[..j] == sects;
      }
    }

    static lemma {:induction false} CommandsPrefix(img: Image, cmds: seq<LoadCommand>, i: nat)
      requires i <= |cmds|
      ensures ScannedCommands(img, cmds[..i]) <= ScannedCommands(img, cmds)
      decreases |cmds| - i
    {
      if i < |cmds| {
        assert cmds[..i + 1][..i] == cmds[..i];
        CommandsPrefix(img, cmds, i + 1);
      } else {
        assert cmds[..i] == cmds;
      }
    }
  }
}
