/** Class Assembler of C16_assembler.py, method buildBinary: the code of
    every label is laid out at 6-byte strides starting with `_main_` at
    address 0, lines that name a label are first reserved with a
    placeholder and then re-encoded with the label's address, and the
    number of instructions becomes a 2-byte header.

    `labels_` (a dict filled by parseSource) is given as a sequence of
    blocks in insertion order. An entry is either the bytes of an encoded
    Instruction or, for a line that needs an address, the line itself. */
module Assembler {

  import opened Word
  import opened Wrappers
  import opened PyText
  import opened AsmInstruction
  import I = Instruction

  /** One entry of a label's list in `labels_`. */
  datatype Item = Encoded(bytes: seq<u8>) | NeedsAddress(line: string)

  /** One label of `labels_` with its entries. */
  datatype Block = Block(name: string, items: seq<Item>)

  /** Assembler.start_label. */
  const MAIN: string := "_main_"

  /** The address text recorded for `_main_`. */
  const MAIN_ADDR: string := "0x0000"

  /** Assembler.dummy_fill: the placeholder for a line not yet encoded. */
  const DUMMY_FILL: seq<u8> := [0xAA, 0xBB, 0xCC, 0xDD, 0xEE, 0xFF]

  /** A dict has each key once. */
  predicate DistinctLabels(blocks: seq<Block>) {
    forall i, j :: 0 <= i < j < |blocks| ==> blocks[i].name != blocks[j].name
  }

  /** `labels_["_main_"]`, or None for the KeyError. */
  function MainItems(blocks: seq<Block>): (r: Option<seq<Item>>)
    ensures r.None? <==> forall i :: 0 <= i < |blocks| ==> blocks[i].name != MAIN
    ensures r.Some? ==> exists i :: 0 <= i < |blocks| && blocks[i].name == MAIN && blocks[i].items == r.value
  {
    if |blocks| == 0 then None
    else if blocks[0].name == MAIN then Some(blocks[0].items)
    else
      var r := MainItems(blocks[1..]);
      assert forall i :: 1 <= i < |blocks| ==> blocks[i] == blocks[1..][i - 1];
      r
  }

  // ----- laying out the entries (the two loops over labels) -----

  /** The locals of buildBinary while it lays out code: `self.encoded_`,
      `addr`, and `need_label_trans` as its keys in insertion order and
      the offset stored under each key. */
  datatype Layout = Layout(encoded: seq<u8>, addr: nat, needKeys: seq<string>, needPos: map<string, nat>)

  /** The layout before the first entry. */
  const START: Layout := Layout([], 0, [], map[])

  /** The dict keys are listed once each, in the order they were added. */
  ghost predicate Tracked(s: Layout) {
    (forall k :: k in s.needPos <==> k in s.needKeys) &&
    (forall i, j :: 0 <= i < j < |s.needKeys| ==> s.needKeys[i] != s.needKeys[j])
  }

  /** One pass of a layout loop: a line that needs an address records the
      current offset under its text and reserves the placeholder; an
      encoded instruction is appended; the address moves on by one
      instruction either way. */
  function Put(s: Layout, it: Item): Layout {
    match it
    case Encoded(b) => s.(encoded := s.encoded + b, addr := s.addr + INSTR_SIZE)
    case NeedsAddress(line) =>
      Layout(s.encoded + DUMMY_FILL, s.addr + INSTR_SIZE,
             if line in s.needPos then s.needKeys else s.needKeys + [line],
             s.needPos[line := s.addr])
  }

  /** A whole layout loop over the entries of one label. */
  function PutAll(s: Layout, items: seq<Item>): (r: Layout)
    ensures Tracked(s) ==> Tracked(r)
    decreases |items|
  {
    if |items| == 0 then s
    else
      var p := PutAll(s, items[..|items| - 1]);
      var r := Put(p, items[|items| - 1]);
      assert Tracked(p) ==> Tracked(r) by {
        if Tracked(p) && items[|items| - 1].NeedsAddress? {
          var line := items[|items| - 1].line;
          if line !in p.needPos {
            forall i, j | 0 <= i < j < |r.needKeys|
              ensures r.needKeys[i] != r.needKeys[j]
            {
              if j == |p.needKeys| {
                assert p.needKeys[i] in p.needPos;
              } else {
                assert r.needKeys[i] == p.needKeys[i] && r.needKeys[j] == p.needKeys[j];
              }
            }
          }
        }
      }
      r
  }

  /** The bytes an entry lays down before patching. */
  function ItemBytes(it: Item): seq<u8> {
    match it
    case Encoded(b) => b
    case NeedsAddress(_) => DUMMY_FILL
  }

  /** The bytes of a list of entries, one after the other. */
  function AllBytes(items: seq<Item>): seq<u8>
    decreases |items|
  {
    if |items| == 0 then [] else AllBytes(items[..|items| - 1]) + ItemBytes(items[|items| - 1])
  }

  /** What buildBinary has laid out by the end of the loop over
      `labels_`, and `label_addr`. */
  datatype Placement = Placement(layout: Layout, labelAddr: map<string, string>)

  /** The loop over the labels in insertion order, after `_main_`: every
      other label is given the current address as `hex(addr)`, then its
      entries are laid out. */
  function PlaceBlocks(p: Placement, blocks: seq<Block>): (r: Placement)
    ensures Tracked(p.layout) ==> Tracked(r.layout)
    decreases |blocks|
  {
    if |blocks| == 0 then p
    else
      var q := PlaceBlocks(p, blocks[..|blocks| - 1]);
      var b := blocks[|blocks| - 1];
      if b.name == MAIN then q
      else Placement(PutAll(q.layout, b.items), q.labelAddr[b.name := Hex(q.layout.addr)])
  }

  /** Both layout loops: the entries of `_main_` from address 0 with
      `label_addr` holding only `_main_`, then the other labels. */
  function LaidOut(mainItems: seq<Item>, blocks: seq<Block>): (r: Placement)
    ensures Tracked(r.layout)
  {
    PlaceBlocks(Placement(PutAll(START, mainItems), map[MAIN := MAIN_ADDR]), blocks)
  }

  /** The entries of the labels other than `_main_`, in insertion order. */
  function OtherItems(blocks: seq<Block>): seq<Item>
    decreases |blocks|
  {
    if |blocks| == 0 then []
    else
      var b := blocks[|blocks| - 1];
      OtherItems(blocks[..|blocks| - 1]) + (if b.name == MAIN then [] else b.items)
  }

  // ----- patching (the loop over need_label_trans) -----

  /** `s[:n]` for n >= 0. */
  function Take(s: seq<u8>, n: nat): seq<u8> {
    if n <= |s| then s[..n] else s
  }

  /** `s[n:]` for n >= 0. */
  function Drop(s: seq<u8>, n: nat): seq<u8> {
    if n <= |s| then s[n..] else []
  }

  /** `e[:p] + b + e[p + instr_size:]`. */
  function Splice(e: seq<u8>, p: nat, b: seq<u8>): seq<u8> {
    Take(e, p) + b + Drop(e, p + INSTR_SIZE)
  }

  /** `Instruction(line.replace(label, label_addr[label])).encoded_` where
      the label is the last token of the line. */
  function Patched(line: string, labelAddr: map<string, string>, pack: FloatPack): Result<seq<u8>, AsmError> {
    var ts := Split(line);
    if |ts| == 0 then Err(IndexError)
    else
      var lbl := ts[|ts| - 1];
      if lbl !in labelAddr then Err(KeyError(lbl))
      else Encoding(Replace(line, lbl, labelAddr[lbl]), pack)
  }

  /** A line to patch and the offset of its placeholder. */
  datatype Slot = Slot(line: string, at: nat)

  /** The entries of `need_label_trans` in insertion order. */
  function Slots(keys: seq<string>, pos: map<string, nat>): (r: seq<Slot>)
    requires forall k :: k in keys ==> k in pos
    ensures |r| == |keys|
    ensures forall j :: 0 <= j < |keys| ==> r[j] == Slot(keys[j], pos[keys[j]])
    decreases |keys|
  {
    if |keys| == 0 then []
    else Slots(keys[..|keys| - 1], pos) + [Slot(keys[|keys| - 1], pos[keys[|keys| - 1]])]
  }

  /** How a line waiting for an address is encoded once labels are known. */
  type Reencoder = string -> Result<seq<u8>, AsmError>

  /** The re-encoding buildBinary uses, for given label addresses. */
  function Reencode(labelAddr: map<string, string>, pack: FloatPack): Reencoder {
    line => Patched(line, labelAddr, pack)
  }

  /** Splice the re-encoded line of each slot over its offset, in order,
      stopping at the first exception. */
  function PatchSlots(e: seq<u8>, slots: seq<Slot>, reencode: Reencoder): Result<seq<u8>, AsmError>
    decreases |slots|
  {
    if |slots| == 0 then Ok(e)
    else
      match PatchSlots(e, slots[..|slots| - 1], reencode)
      case Err(x) => Err(x)
      case Ok(e1) =>
        var sl := slots[|slots| - 1];
        match reencode(sl.line)
        case Err(x) => Err(x)
        case Ok(b) => Ok(Splice(e1, sl.at, b))
  }

  // ----- the instruction-count header -----

  /** `hex(n).lstrip("0").lstrip("x")`, with a "0" in front when the
      number of digits is odd. */
  function CountDigits(n: nat): string {
    Even(LStrip(LStrip(Hex(n), '0'), 'x'))
  }

  /** Digits with a "0" in front when there is an odd number of them. */
  function Even(hx: string): string {
    if |hx| % 2 == 1 then "0" + hx else hx
  }

  /** `n_instr_`: `bytearray.fromhex` of those digits, with one zero byte
      added when it is shorter than 2 bytes; None for a ValueError. */
  function Header(n: nat): Option<seq<u8>> {
    match FromHex(CountDigits(n))
    case None => None
    case Some(b) => Some(if |b| < 2 then b + [0] else b)
  }

  /** The header read from the even digits of a count. */
  lemma HeaderFrom(n: nat, hx: string, count: Option<seq<u8>>)
    requires hx == CountDigits(n) && count == FromHex(hx)
    ensures Header(n).None? <==> count.None?
    ensures count.Some? ==> Header(n) == Some(if |count.value| < 2 then count.value + [0] else count.value)
  {
  }

  // ----- buildBinary -----

  /** The two attributes buildBinary sets. */
  datatype Binary = Binary(nInstr: seq<u8>, encoded: seq<u8>)

  /** buildBinary: lay out `_main_` at address 0 and then every other
      label, patch every line that needs an address, count the
      instructions; or the exception it raises. */
  function Build(blocks: seq<Block>, pack: FloatPack): Result<Binary, AsmError> {
    match MainItems(blocks)
    case None => Err(KeyError(MAIN))
    case Some(items) =>
      var p := LaidOut(items, blocks);
      match PatchSlots(p.layout.encoded, Slots(p.layout.needKeys, p.layout.needPos), Reencode(p.labelAddr, pack))
      case Err(x) => Err(x)
      case Ok(e) =>
        var n := |e| / INSTR_SIZE;
        match Header(n)
        case None => Err(BadHex(CountDigits(n)))
        case Some(h) => Ok(Binary(h, e))
  }

  /** An error in patching one slot is the error of the whole patching
      loop. */
  lemma {:induction false} PatchSlotsErrorSticks(e: seq<u8>, slots: seq<Slot>, reencode: Reencoder, i: nat)
    requires i <= |slots|
    requires PatchSlots(e, slots[..i], reencode).Err?
    ensures PatchSlots(e, slots, reencode) == PatchSlots(e, slots[..i], reencode)
    decreases |slots|
  {
    if i < |slots| {
      var front := slots[..|slots| - 1];
      assert front[..i] == slots[..i];
      PatchSlotsErrorSticks(e, front, reencode, i);
    } else {
      assert slots[..i] == slots;
    }
  }

  /** One more slot of the patching loop. */
  lemma PatchSlotsStep(e: seq<u8>, slots: seq<Slot>, reencode: Reencoder, j: nat)
    requires j < |slots| && PatchSlots(e, slots[..j], reencode).Ok?
    ensures PatchSlots(e, slots[..j + 1], reencode) ==
      match reencode(slots[j].line)
      case Err(x) => Err(x)
      case Ok(b) => Ok(Splice(PatchSlots(e, slots[..j], reencode).value, slots[j].at, b))
  {
    assert slots[..j + 1][..j] == slots[..j];
  }

  /** An Assembler once parseSource has filled `labels_`, with the
      attributes buildBinary sets. */
  class Assembler {
    const labels: seq<Block>
    var encoded: seq<u8>
    var nInstr: seq<u8>

    constructor (labels: seq<Block>)
      ensures this.labels == labels && encoded == [] && nInstr == []
    {
      this.labels := labels;
      encoded := [];
      nInstr := [];
    }

    /** buildBinary. On success `encoded_` and `n_instr_` hold what Build
        describes; on an exception the error is returned and `n_instr_`
        is untouched. */
    method BuildBinary(pack: FloatPack) returns (err: Option<AsmError>)
      modifies this
      ensures Build(labels, pack).Ok? ==>
        err == None && encoded == Build(labels, pack).value.encoded && nInstr == Build(labels, pack).value.nInstr
      ensures Build(labels, pack).Err? ==> err == Some(Build(labels, pack).error) && nInstr == old(nInstr)
    {
      encoded := [];
      var main := MainItems(labels);
      if main.None? {
        return Some(KeyError(MAIN));
      }
      var needKeys, needPos, labelAddr := LayOut(main.value);
      err := Patch(needKeys, needPos, labelAddr, pack);
      if err.Some? {
        return;
      }
      err := CountInstructions();
    }

    /** The two layout loops of buildBinary: `_main_` at address 0, then
        every other label in insertion order at the address reached so
        far. */
    method LayOut(mainItems: seq<Item>) returns (needKeys: seq<string>, needPos: map<string, nat>, labelAddr: map<string, string>)
      requires encoded == []
      modifies this
      ensures var p := LaidOut(mainItems, labels);
        p.layout.encoded == encoded && p.layout.needKeys == needKeys && p.layout.needPos == needPos && p.labelAddr == labelAddr
      ensures nInstr == old(nInstr)
    {
      var addr: nat := 0;
      needKeys, needPos := [], map[];
      labelAddr := map[MAIN := MAIN_ADDR];
      addr, needKeys, needPos := PutItems(mainItems, addr, needKeys, needPos);
      ghost var p0 := Placement(Layout(encoded, addr, needKeys, needPos), labelAddr);
      for b := 0 to |labels|
        invariant Placement(Layout(encoded, addr, needKeys, needPos), labelAddr) == PlaceBlocks(p0, labels[..b])
        invariant nInstr == old(nInstr)
      {
        assert labels[..b + 1][..b] == labels[..b];
        if labels[b].name != MAIN {
          labelAddr := labelAddr[labels[b].name := Hex(addr)];
          addr, needKeys, needPos := PutItems(labels[b].items, addr, needKeys, needPos);
        }
      }
      assert labels[..|labels|] == labels;
    }

    /** The loop over `need_label_trans`: each line is encoded again with
        its label replaced by the label's address and spliced over its
        placeholder. */
    method Patch(needKeys: seq<string>, needPos: map<string, nat>, labelAddr: map<string, string>, pack: FloatPack)
      returns (err: Option<AsmError>)
      requires forall k :: k in needKeys ==> k in needPos
      modifies this
      ensures match PatchSlots(old(encoded), Slots(needKeys, needPos), Reencode(labelAddr, pack))
              case Ok(e) => err == None && encoded == e
              case Err(x) => err == Some(x)
      ensures nInstr == old(nInstr)
    {
      ghost var e0 := encoded;
      ghost var slots := Slots(needKeys, needPos);
      for j := 0 to |needKeys|
        invariant PatchSlots(e0, slots[..j], Reencode(labelAddr, pack)) == Ok(encoded)
        invariant nInstr == old(nInstr)
      {
        PatchSlotsStep(e0, slots, Reencode(labelAddr, pack), j);
        var line := needKeys[j];
        assert slots[j] == Slot(line, needPos[line]);
        assert Reencode(labelAddr, pack)(line) == Patched(line, labelAddr, pack);
        err := PatchOne(line, needPos[line], labelAddr, pack);
        if err.Some? {
          PatchSlotsErrorSticks(e0, slots, Reencode(labelAddr, pack), j + 1);
          return;
        }
      }
      assert slots[..|needKeys|] == slots;
      err := None;
    }

    /** One pass of the patching loop: the re-encoded line replaces the
        placeholder at `at`. */
    method PatchOne(line: string, at: nat, labelAddr: map<string, string>, pack: FloatPack) returns (err: Option<AsmError>)
      modifies this
      ensures match Patched(line, labelAddr, pack)
              case Ok(b) => err == None && encoded == Splice(old(encoded), at, b)
              case Err(x) => err == Some(x) && encoded == old(encoded)
      ensures nInstr == old(nInstr)
    {
      var newInstr := ReEncode(line, labelAddr, pack);
      if newInstr.Err? {
        return Some(newInstr.error);
      }
      encoded := Take(encoded, at) + newInstr.value + Drop(encoded, at + INSTR_SIZE);
      err := None;
    }

    /** `Instruction(line.replace(label, label_addr[label]))` for the last
        token of the line as the label. */
    static method ReEncode(line: string, labelAddr: map<string, string>, pack: FloatPack) returns (r: Result<seq<u8>, AsmError>)
      ensures r == Patched(line, labelAddr, pack)
    {
      var ts := Split(line);
      if |ts| == 0 {
        return Err(IndexError);
      }
      var lbl := ts[|ts| - 1];
      if lbl !in labelAddr {
        return Err(KeyError(lbl));
      }
      r := Encode(Replace(line, lbl, labelAddr[lbl]), pack);
    }

    /** The instruction-count header: the hexadecimal digits of the count,
        made even, read back as bytes and filled up to 2 bytes. */
    method CountInstructions() returns (err: Option<AsmError>)
      modifies this
      ensures encoded == old(encoded)
      ensures match Header(|encoded| / INSTR_SIZE)
              case Some(h) => err == None && nInstr == h
              case None => err == Some(BadHex(CountDigits(|encoded| / INSTR_SIZE))) && nInstr == old(nInstr)
    {
      var h, hx := HeaderBytes(|encoded| / INSTR_SIZE);
      if h.None? {
        return Some(BadHex(hx));
      }
      nInstr := h.value;
      err := None;
    }

    /** The steps of the header for count `n`: the digits of `hex(n)`,
        made even, read back as bytes and filled up to 2 bytes. */
    static method HeaderBytes(n: nat) returns (h: Option<seq<u8>>, hx: string)
      ensures h == Header(n) && hx == CountDigits(n)
    {
      hx := LStrip(LStrip(Hex(n), '0'), 'x');
      if |hx| % 2 == 1 {
        hx := "0" + hx;
      }
      var count := FromHex(hx);
      HeaderFrom(n, hx, count);
      if count.None? {
        return None, hx;
      }
      var b := count.value;
      if |b| < 2 {
        b := b + [0];
      }
      h := Some(b);
    }

    /** One of the two loops of buildBinary over the entries of a label. */
    method PutItems(items: seq<Item>, addr0: nat, keys0: seq<string>, pos0: map<string, nat>)
      returns (addr: nat, needKeys: seq<string>, needPos: map<string, nat>)
      modifies this
      ensures Layout(encoded, addr, needKeys, needPos) == PutAll(Layout(old(encoded), addr0, keys0, pos0), items)
      ensures nInstr == old(nInstr)
    {
      ghost var s0 := Layout(encoded, addr0, keys0, pos0);
      addr, needKeys, needPos := addr0, keys0, pos0;
      for k := 0 to |items|
        invariant Layout(encoded, addr, needKeys, needPos) == PutAll(s0, items[..k])
        invariant nInstr == old(nInstr)
      {
        assert items[..k + 1][..k] == items[..k];
        if items[k].NeedsAddress? {
          var line := items[k].line;
          if line !in needPos {
            needKeys := needKeys + [line];
          }
          needPos := needPos[line := addr];
          encoded := encoded + DUMMY_FILL;
        } else {
          encoded := encoded + items[k].bytes;
        }
        addr := addr + INSTR_SIZE;
      }
      assert items[..|items|] == items;
    }
  }

  // ----- the layout -----

  /** The last position of `items` that holds the line `line`. */
  function LastIndex(items: seq<Item>, line: string): (r: Option<nat>)
    ensures r.Some? ==>
      r.value < |items| && items[r.value] == NeedsAddress(line) &&
      (forall k :: r.value < k < |items| ==> items[k] != NeedsAddress(line))
    ensures r.None? ==> forall k :: 0 <= k < |items| ==> items[k] != NeedsAddress(line)
    decreases |items|
  {
    if |items| == 0 then None
    else if items[|items| - 1] == NeedsAddress(line) then Some(|items| - 1)
    else
      var r := LastIndex(items[..|items| - 1], line);
      assert forall k :: 0 <= k < |items| - 1 ==> items[k] == items[..|items| - 1][k];
      r
  }

  /** Laying out entries advances the address by one instruction size per
      entry and appends the entries' bytes in order. */
  lemma {:induction false} PutAllLayout(s: Layout, items: seq<Item>)
    ensures PutAll(s, items).addr == s.addr + INSTR_SIZE * |items|
    ensures PutAll(s, items).encoded == s.encoded + AllBytes(items)
    decreases |items|
  {
    if |items| > 0 {
      PutAllLayout(s, items[..|items| - 1]);
    }
  }

  /** After laying out entries, a line that needs an address is recorded at
      the offset of its last occurrence; a line that does not occur keeps
      whatever it had. */
  lemma {:induction false} PutAllPos(s: Layout, items: seq<Item>, line: string)
    ensures LastIndex(items, line).Some? ==>
      line in PutAll(s, items).needPos &&
      PutAll(s, items).needPos[line] == s.addr + INSTR_SIZE * LastIndex(items, line).value
    ensures LastIndex(items, line).None? ==>
      (line in PutAll(s, items).needPos <==> line in s.needPos) &&
      (line in s.needPos ==> PutAll(s, items).needPos[line] == s.needPos[line])
    decreases |items|
  {
    if |items| > 0 {
      var front := items[..|items| - 1];
      PutAllPos(s, front, line);
      PutAllLayout(s, front);
      if items[|items| - 1] != NeedsAddress(line) {
        assert LastIndex(items, line) == LastIndex(front, line);
      }
    }
  }

  /** Laying out two lists one after the other is laying out their
      concatenation. */
  lemma {:induction false} PutAllConcat(s: Layout, a: seq<Item>, b: seq<Item>)
    ensures PutAll(s, a + b) == PutAll(PutAll(s, a), b)
    decreases |b|
  {
    if |b| == 0 {
      assert a + b == a;
    } else {
      assert (a + b)[..|a + b| - 1] == a + b[..|b| - 1];
      PutAllConcat(s, a, b[..|b| - 1]);
    }
  }

  /** Every entry lays down at least one instruction's worth of bytes:
      the placeholder has six, and an encoded instruction is padded up to
      six and never cut (EncodedEntryFull). */
  ghost predicate FullEntries(items: seq<Item>) {
    forall k :: 0 <= k < |items| ==> |ItemBytes(items[k])| >= INSTR_SIZE
  }

  /** The address has not run past the code, and every recorded
      placeholder lies inside the code. */
  ghost predicate Inside(s: Layout) {
    s.addr <= |s.encoded| &&
    forall k :: k in s.needPos ==> s.needPos[k] + INSTR_SIZE <= |s.encoded|
  }

  /** The entry an encoded line becomes lays down at least six bytes. */
  lemma EncodedEntryFull(line: string, pack: FloatPack)
    requires Encoding(line, pack).Ok?
    ensures |ItemBytes(Encoded(Encoding(line, pack).value))| >= INSTR_SIZE
  {
    EncodingShape(line, pack);
  }

  /** Laying out entries that each fill an instruction keeps every
      recorded placeholder inside the code. */
  lemma {:induction false} PutAllInside(s: Layout, items: seq<Item>)
    requires Inside(s) && FullEntries(items)
    ensures Inside(PutAll(s, items))
    decreases |items|
  {
    if |items| > 0 {
      var front := items[..|items| - 1];
      assert forall k :: 0 <= k < |front| ==> front[k] == items[k];
      PutAllInside(s, front);
      assert |ItemBytes(items[|items| - 1])| >= INSTR_SIZE;
    }
  }

  /** The loop over the other labels keeps every placeholder inside the
      code. */
  lemma PlaceBlocksInside(p: Placement, blocks: seq<Block>)
    requires Inside(p.layout) && FullEntries(OtherItems(blocks))
    ensures Inside(PlaceBlocks(p, blocks).layout)
  {
    PlaceBlocksLayout(p, blocks);
    PutAllInside(p.layout, OtherItems(blocks));
  }

  /** After both layout loops every placeholder lies inside the code. */
  lemma LaidOutInside(mainItems: seq<Item>, blocks: seq<Block>)
    requires FullEntries(AllItems(mainItems, blocks))
    ensures Inside(LaidOut(mainItems, blocks).layout)
  {
    LaidOutLayout(mainItems, blocks);
    PutAllInside(START, AllItems(mainItems, blocks));
  }

  /** The loop over the other labels lays out their entries in insertion
      order, skipping `_main_`. */
  lemma {:induction false} PlaceBlocksLayout(p: Placement, blocks: seq<Block>)
    ensures PlaceBlocks(p, blocks).layout == PutAll(p.layout, OtherItems(blocks))
    decreases |blocks|
  {
    if |blocks| > 0 {
      var front := blocks[..|blocks| - 1];
      PlaceBlocksLayout(p, front);
      var b := blocks[|blocks| - 1];
      assert PlaceBlocks(p, blocks) ==
        if b.name == MAIN then PlaceBlocks(p, front)
        else Placement(PutAll(PlaceBlocks(p, front).layout, b.items),
                       PlaceBlocks(p, front).labelAddr[b.name := Hex(PlaceBlocks(p, front).layout.addr)]);
      if b.name == MAIN {
        assert OtherItems(blocks) == OtherItems(front) + [] == OtherItems(front);
      } else {
        assert OtherItems(blocks) == OtherItems(front) + b.items;
        PutAllConcat(p.layout, OtherItems(front), b.items);
      }
    }
  }

  /** Every label other than `_main_` is recorded as `hex` of the address
      reached when its turn comes. */
  lemma {:induction false} PlaceBlocksLabel(p: Placement, blocks: seq<Block>, i: nat)
    requires DistinctLabels(blocks) && i < |blocks| && blocks[i].name != MAIN
    ensures blocks[i].name in PlaceBlocks(p, blocks).labelAddr
    ensures PlaceBlocks(p, blocks).labelAddr[blocks[i].name] ==
      Hex(p.layout.addr + INSTR_SIZE * |OtherItems(blocks[..i])|)
    decreases |blocks|
  {
    if i == |blocks| - 1 {
      PlaceBlocksLast(p, blocks);
    } else {
      var front := blocks[..|blocks| - 1];
      DistinctFront(blocks);
      assert front[i] == blocks[i] && front[..i] == blocks[..i];
      PlaceBlocksLabel(p, front, i);
      PlaceBlocksOther(p, blocks, blocks[i].name);
    }
  }

  /** The last label is recorded at the address the labels before it reach. */
  lemma PlaceBlocksLast(p: Placement, blocks: seq<Block>)
    requires |blocks| > 0 && blocks[|blocks| - 1].name != MAIN
    ensures var b := blocks[|blocks| - 1];
      b.name in PlaceBlocks(p, blocks).labelAddr &&
      PlaceBlocks(p, blocks).labelAddr[b.name] ==
        Hex(p.layout.addr + INSTR_SIZE * |OtherItems(blocks[..|blocks| - 1])|)
  {
    var front := blocks[..|blocks| - 1];
    PlaceBlocksLayout(p, front);
    PutAllLayout(p.layout, OtherItems(front));
  }

  /** The last label does not touch the entry of another name. */
  lemma PlaceBlocksOther(p: Placement, blocks: seq<Block>, k: string)
    requires |blocks| > 0 && blocks[|blocks| - 1].name != k
    ensures var q := PlaceBlocks(p, blocks[..|blocks| - 1]);
      (k in PlaceBlocks(p, blocks).labelAddr <==> k in q.labelAddr) &&
      (k in q.labelAddr ==> PlaceBlocks(p, blocks).labelAddr[k] == q.labelAddr[k])
  {
  }

  /** A prefix of a dict's labels has each label once too. */
  lemma DistinctFront(blocks: seq<Block>)
    requires DistinctLabels(blocks) && |blocks| > 0
    ensures DistinctLabels(blocks[..|blocks| - 1])
  {
    var front := blocks[..|blocks| - 1];
    forall a, b | 0 <= a < b < |front|
      ensures front[a].name != front[b].name
    {
      assert front[a] == blocks[a] && front[b] == blocks[b];
    }
  }

  /** A name no other label has keeps its entry in `label_addr`. */
  lemma {:induction false} PlaceBlocksKeeps(p: Placement, blocks: seq<Block>, k: string)
    requires forall i :: 0 <= i < |blocks| && blocks[i].name != MAIN ==> blocks[i].name != k
    ensures k in PlaceBlocks(p, blocks).labelAddr <==> k in p.labelAddr
    ensures k in p.labelAddr ==> PlaceBlocks(p, blocks).labelAddr[k] == p.labelAddr[k]
    decreases |blocks|
  {
    if |blocks| > 0 {
      var front := blocks[..|blocks| - 1];
      assert forall i :: 0 <= i < |front| ==> front[i] == blocks[i];
      PlaceBlocksKeeps(p, front, k);
    }
  }

  // ----- hex() text once stripped -----

  /** Stripping `hex(n)` of its leading zeros and x's leaves exactly its
      digits, for every n (zero included: "0x0" leaves "0"). */
  lemma StripHex(n: nat)
    ensures LStrip(LStrip(Hex(n), '0'), 'x') == HexDigits(n)
    ensures CountDigits(n) == Even(HexDigits(n))
  {
    StripHexPrefix(HexDigits(n));
  }

  /** The digits of a number below 256, made even, are its two-digit pair. */
  lemma SmallDigits(n: nat)
    requires n < 0x100
    ensures Even(HexDigits(n)) == HexPair(n)
  {
    HexDigitCount(n);
    if n >= 16 {
      assert HexDigits(n) == HexDigits(n / 16) + [HexDigit(n % 16)];
    }
  }

  /** The digits of a number below 65536 from 256 on, made even, are the
      pair of its high byte followed by the pair of its low byte. */
  lemma LargeDigits(n: nat)
    requires 0x100 <= n < 0x1_0000
    ensures Even(HexDigits(n)) == HexPair(n / 0x100) + HexPair(n % 0x100)
  {
    var q, r := n / 0x100, n % 0x100;
    var hq, pr := HexDigits(q), HexPair(r);
    HexDigitsSplit(n);
    assert HexDigits(n) == hq + pr;
    SmallDigits(q);
    assert |pr| == 2;
    EvenConcat(hq, pr);
  }

  /** Making digits even in front of an even number of digits. */
  lemma EvenConcat(h: string, p: string)
    requires |p| % 2 == 0
    ensures Even(h + p) == Even(h) + p
  {
    if |h| % 2 == 1 {
      assert "0" + (h + p) == ("0" + h) + p;
    }
  }

  // ----- the instruction-count header -----

  /** The header is always produced (the ValueError cannot happen), has at
      least 2 bytes, and exactly 2 for any count below 65536. */
  lemma HeaderDefined(n: nat)
    ensures Header(n).Some? && |Header(n).value| >= 2
    ensures n < 0x1_0000 ==> |Header(n).value| == 2
  {
    var h := HexDigits(n);
    assert CountDigits(n) == Even(h) by {
      StripHex(n);
    }
    EvenValid(h);
    EvenDigitsDecode(Even(h));
    if n < 0x100 {
      HeaderSmall(n);
    } else if n < 0x1_0000 {
      HeaderLarge(n);
    }
  }

  /** Evening up a string of digits keeps it a non-empty string of digits. */
  lemma EvenValid(h: string)
    requires |h| > 0 && forall i :: 0 <= i < |h| ==> HexDigitValue(h[i]).Some?
    ensures |Even(h)| > 0 && |Even(h)| % 2 == 0
    ensures forall i :: 0 <= i < |Even(h)| ==> HexDigitValue(Even(h)[i]).Some?
  {
    if |h| % 2 == 1 {
      assert forall i :: 1 <= i < |Even(h)| ==> Even(h)[i] == h[i - 1];
    }
  }

  /** Counts below 256 give the count followed by a zero byte. */
  lemma HeaderSmall(n: nat)
    requires n < 0x100
    ensures Header(n) == Some([n, 0])
  {
    assert CountDigits(n) == HexPair(n) by {
      StripHex(n);
      SmallDigits(n);
    }
    PairDecode(n);
    assert [n] + [0] == [n, 0];
  }

  /** Counts from 256 on are written high byte first. */
  lemma HeaderLarge(n: nat)
    requires 0x100 <= n < 0x1_0000
    ensures Header(n) == Some([n / 0x100, n % 0x100])
  {
    var hi, lo := n / 0x100, n % 0x100;
    StripHex(n);
    LargeDigits(n);
    HeaderOfPair(n, hi, lo);
  }

  /** A digit string made of two byte pairs is read back as those two bytes. */
  lemma HeaderOfPair(n: nat, hi: u8, lo: u8)
    requires CountDigits(n) == HexPair(hi) + HexPair(lo)
    ensures Header(n) == Some([hi, lo])
  {
    PairsDecode(hi, lo);
  }

  /** The loader reads the header as a native (little-endian) unsigned
      short. As written, a count from 256 on reads back with its bytes
      swapped; 256 instructions are loaded as 1. */
  lemma HeaderAsWritten(n: nat)
    requires 0x100 <= n < 0x1_0000
    ensures Header(n).Some? && |Header(n).value| == 2
    ensures U16At(Header(n).value, 0) == 0x100 * (n % 0x100) + n / 0x100
    ensures Header(0x100) == Some([1, 0]) && U16Of(1, 0) == 1
  {
    HeaderLarge(n);
    HeaderLarge(0x100);
  }

  /** The header as the loader expects it: the count as a little-endian
      unsigned short. */
  function IntendedHeader(n: u16): seq<u8> {
    BytesU16(n)
  }

  /** The intended header reads back as the count, and it is what the
      assembler already writes below 256. */
  lemma IntendedHeaderRoundTrip(n: u16)
    ensures U16At(IntendedHeader(n), 0) == n
    ensures n < 0x100 ==> Header(n) == Some(IntendedHeader(n))
  {
    U16RoundTrip(n);
    if n < 0x100 {
      HeaderSmall(n);
      assert IntendedHeader(n) == [n, 0] by {
        U16BytesRoundTrip(n, 0);
      }
    }
  }

  // ----- label addresses as operands -----

  /** The bytes the address operand of a patched line becomes, with the
      label replaced by `hex(a)`: refused for an odd number of digits
      (addresses below 16 and from 256 to 4095), one byte for two digits,
      and high byte first for four digits. */
  lemma AddressOperandAsWritten(a: nat)
    ensures a < 16 || 0x100 <= a < 0x1000 ==> ImmShortBytes(Hex(a)).None?
    ensures 16 <= a < 0x100 ==> ImmShortBytes(Hex(a)) == Some([a])
    ensures 0x1000 <= a < 0x1_0000 ==> ImmShortBytes(Hex(a)) == Some([a / 0x100, a % 0x100])
  {
    assert ImmShortBytes(Hex(a)) == FromHex(HexDigits(a)) by {
      StripHex(a);
    }
    HexDigitCount(a);
    if a < 16 || 0x100 <= a < 0x1000 {
      FromHexLength(HexDigits(a));
    } else if a < 0x100 {
      assert HexDigits(a) == HexPair(a) by {
        SmallDigits(a);
      }
      PairDecode(a);
    } else if a < 0x1_0000 {
      assert HexDigits(a) == HexPair(a / 0x100) + HexPair(a % 0x100) by {
        LargeDigits(a);
      }
      PairsDecode(a / 0x100, a % 0x100);
    }
  }

  /** A label placed after one instruction, at address 6, cannot be
      referred to: "0x6" strips to "6", an odd digit count. One placed at
      0x1002 is read back by a 2-byte field as 0x0210. */
  lemma AddressOperandCounterexamples()
    ensures ImmShortBytes(Hex(6)).None?
    ensures ImmShortBytes(Hex(0x1002)) == Some([0x10, 0x02]) && U16Of(0x10, 0x02) == 0x0210
  {
    assert ImmShortBytes(Hex(6)).None? by {
      AddressOperandAsWritten(6);
    }
    assert ImmShortBytes(Hex(0x1002)) == Some([0x10, 0x02]) by {
      AddressOperandAsWritten(0x1002);
      assert 0x1002 / 0x100 == 0x10 && 0x1002 % 0x100 == 0x02;
    }
    assert U16Of(0x10, 0x02) == 0x0210;
  }

  /** The literal an address should become: "0x" and the digit pairs of
      its low byte then its high byte, so that the bytes land in the
      order the CPU reads a short field. */
  function AddressLiteral(a: u16): string {
    "0x" + HexPair(a % 0x100) + HexPair(a / 0x100)
  }

  /** The intended literal assembles to the little-endian bytes of the
      address, whatever the address. */
  lemma AddressLiteralBytes(a: u16)
    ensures ImmShortBytes(AddressLiteral(a)) == Some(BytesU16(a))
  {
    ShortLiteralBytes(a % 0x100, a / 0x100);
  }

  /** A JUMP or CALL line with the intended literal assembles to an
      instruction whose field S0 is the address. */
  lemma AddressLiteralJump(op: u8, mnemonic: string, a: u16, pack: FloatPack)
    ensures Assemble(op, FMT_SHORT, [mnemonic, AddressLiteral(a)], pack).Ok?
    ensures var d := Assemble(op, FMT_SHORT, [mnemonic, AddressLiteral(a)], pack).value;
      |d| == INSTR_SIZE && d[0] == op && I.S0(d) == a
  {
    AddressLiteralBytes(a);
    var s := BytesU16(a);
    JumpLine(op, [mnemonic, AddressLiteral(a)], pack, s);
    ShortFields(op, 0, 0, s);
    U16RoundTrip(a);
  }

  /** A JUMP or CALL to a label, re-encoded with the intended literal of
      the label's address, is one instruction whose field S0 is that
      address; so such lines meet the six-byte premise of the layout
      lemmas. The label must not occur inside the mnemonic. */
  lemma IntendedJumpPatch(mnemonic: string, lbl: string, labels: map<string, string>, a: u16, pack: FloatPack)
    requires mnemonic == "JUMP" || mnemonic == "CALL"
    requires |lbl| > 0 && NoSpace(lbl) && lbl in labels && labels[lbl] == AddressLiteral(a)
    requires forall i :: 0 <= i < |mnemonic| + 1 ==> !OccursAt(mnemonic + " " + lbl, lbl, i)
    ensures var r := Reencode(labels, pack)(mnemonic + " " + lbl);
      r.Ok? && |r.value| == INSTR_SIZE && r.value[0] == OPCODES[mnemonic] && I.S0(r.value) == a
    ensures SixBytePatch(mnemonic + " " + lbl, Reencode(labels, pack))
  {
    var lit := AddressLiteral(a);
    JumpTokens(mnemonic, lbl);
    ReplaceSuffix(mnemonic + " ", lbl, lit);
    assert Replace(mnemonic + " " + lbl, lbl, lit) == mnemonic + " " + lit;
    assert Patched(mnemonic + " " + lbl, labels, pack) == Encoding(mnemonic + " " + lit, pack);
    IntendedJumpEncoding(mnemonic, a, pack);
  }

  /** A JUMP or CALL followed by one word splits into those two tokens. */
  lemma JumpTokens(mnemonic: string, w: string)
    requires mnemonic == "JUMP" || mnemonic == "CALL"
    requires |w| > 0 && NoSpace(w)
    ensures Split(mnemonic + " " + w) == [mnemonic, w]
  {
    assert NoSpace(mnemonic);
    SplitJoinOne(w);
    SplitAfterWord(mnemonic, w);
  }

  /** The line "JUMP <literal>" or "CALL <literal>" with the intended
      literal encodes to one instruction whose field S0 is the address. */
  lemma IntendedJumpEncoding(mnemonic: string, a: u16, pack: FloatPack)
    requires mnemonic == "JUMP" || mnemonic == "CALL"
    ensures var r := Encoding(mnemonic + " " + AddressLiteral(a), pack);
      r.Ok? && |r.value| == INSTR_SIZE && r.value[0] == OPCODES[mnemonic] && I.S0(r.value) == a
  {
    var lit := AddressLiteral(a);
    assert NoSpace(lit) by {
      assert lit == ['0', 'x'] + HexPair(a % 0x100) + HexPair(a / 0x100);
    }
    JumpTokens(mnemonic, lit);
    JumpCallFormat(mnemonic);
    EncodingDispatch(mnemonic + " " + lit, pack);
    AddressLiteralJump(OPCODES[mnemonic], mnemonic, a, pack);
  }

  /** JUMP and CALL are known instructions with the short-operand format. */
  lemma JumpCallFormat(mnemonic: string)
    requires mnemonic == "JUMP" || mnemonic == "CALL"
    ensures mnemonic in OPCODES && mnemonic in FORMATS && FORMATS[mnemonic] == FMT_SHORT
  {
    if mnemonic == "JUMP" {
      assert "JUMP" in OPCODES && FORMATS["JUMP"] == FMT_SHORT;
    } else {
      assert "CALL" in OPCODES && FORMATS["CALL"] == FMT_SHORT;
    }
  }

  /** The short fields of a laid-out jump or branch read back the short
      operand. */
  lemma ShortFields(op: u8, b0: u8, b1: u8, s: seq<u8>)
    requires |s| == 2
    ensures I.S0([op, s[0], s[1], 0, 0, 0]) == U16At(s, 0)
    ensures I.S2([op, b0, b1, s[0], s[1], 0]) == U16At(s, 0)
  {
  }

  /** A short-operand line whose operand reads as the bytes `s` assembles
      to the opcode, `s` and three zero bytes. */
  lemma JumpLine(op: u8, tokens: seq<string>, pack: FloatPack, s: seq<u8>)
    requires |tokens| == 2 && ImmShortBytes(tokens[1]) == Some(s) && |s| == 2
    ensures Assemble(op, FMT_SHORT, tokens, pack) == Ok([op, s[0], s[1], 0, 0, 0])
  {
    var f := FMT_SHORT;
    assert |f| == 2 && f[1] == ImmShort;
    assert FieldBytes(f[1], tokens[1], pack) == Ok(s);
    assert Operands(f, tokens, pack, 1) == Ok([]);
    OperandsSnoc(f, tokens, pack, 1, [], s);
    assert [] + s == s;
    assert Assemble(op, f, tokens, pack) == Ok(Pad([op] + s));
    JumpPad(op, s);
  }

  /** The three bytes of a jump padded to the instruction size. */
  lemma JumpPad(op: u8, s: seq<u8>)
    requires |s| == 2
    ensures Pad([op] + s) == [op, s[0], s[1], 0, 0, 0]
  {
    assert [op] + s == [op, s[0], s[1]];
    assert Zeros(3) == [0, 0, 0];
  }

  /** A conditional jump line with the intended literal assembles to an
      instruction whose field S2 is the address. */
  lemma AddressLiteralBranch(op: u8, mnemonic: string, r0: string, r1: string, a: u16, pack: FloatPack)
    requires r0 in REG_NAMES && r1 in REG_NAMES
    ensures Assemble(op, FMT_REG_REG_SHORT, [mnemonic, r0, r1, AddressLiteral(a)], pack).Ok?
    ensures var d := Assemble(op, FMT_REG_REG_SHORT, [mnemonic, r0, r1, AddressLiteral(a)], pack).value;
      |d| == INSTR_SIZE && d[0] == op && d[1] == REG_NAMES[r0] && d[2] == REG_NAMES[r1] && I.S2(d) == a
  {
    AddressLiteralBytes(a);
    var s := BytesU16(a);
    BranchLine(op, [mnemonic, r0, r1, AddressLiteral(a)], pack, s);
    ShortFields(op, REG_NAMES[r0], REG_NAMES[r1], s);
    U16RoundTrip(a);
  }

  /** A register, register, short line whose registers are known and whose
      last token reads as the bytes `s` assembles to the opcode, the two
      register numbers, `s` and one zero byte. */
  lemma BranchLine(op: u8, tokens: seq<string>, pack: FloatPack, s: seq<u8>)
    requires |tokens| == 4 && tokens[1] in REG_NAMES && tokens[2] in REG_NAMES
    requires ImmShortBytes(tokens[3]) == Some(s) && |s| == 2
    ensures Assemble(op, FMT_REG_REG_SHORT, tokens, pack) ==
      Ok([op, REG_NAMES[tokens[1]], REG_NAMES[tokens[2]], s[0], s[1], 0])
  {
    var f := FMT_REG_REG_SHORT;
    var b0, b1 := REG_NAMES[tokens[1]], REG_NAMES[tokens[2]];
    assert |f| == 4 && f[1] == Reg && f[2] == Reg && f[3] == ImmShort;
    assert FieldBytes(f[1], tokens[1], pack) == Ok([b0]);
    assert FieldBytes(f[2], tokens[2], pack) == Ok([b1]);
    assert FieldBytes(f[3], tokens[3], pack) == Ok(s);
    BranchOperands(f, tokens, pack, [b0], [b1], s);
    BranchPad(op, b0, b1, s);
  }

  /** The operand bytes of a line of four fields are those of its last
      three fields in order. */
  lemma BranchOperands(f: seq<Field>, tokens: seq<string>, pack: FloatPack, c1: seq<u8>, c2: seq<u8>, c3: seq<u8>)
    requires |f| == 4 && |tokens| == 4
    requires FieldBytes(f[1], tokens[1], pack) == Ok(c1)
    requires FieldBytes(f[2], tokens[2], pack) == Ok(c2)
    requires FieldBytes(f[3], tokens[3], pack) == Ok(c3)
    ensures Operands(f, tokens, pack, 4) == Ok(c1 + c2 + c3)
  {
    assert Operands(f, tokens, pack, 1) == Ok([]);
    OperandsSnoc(f, tokens, pack, 1, [], c1);
    assert [] + c1 == c1;
    OperandsSnoc(f, tokens, pack, 2, c1, c2);
    OperandsSnoc(f, tokens, pack, 3, c1 + c2, c3);
  }

  /** The five bytes of a branch padded to the instruction size. */
  lemma BranchPad(op: u8, b0: u8, b1: u8, s: seq<u8>)
    requires |s| == 2
    ensures Pad([op] + ([b0] + [b1] + s)) == [op, b0, b1, s[0], s[1], 0]
  {
    var line := [op] + ([b0] + [b1] + s);
    assert line == [op, b0, b1, s[0], s[1]];
    assert Zeros(1) == [0];
  }

  // ----- the whole layout -----

  /** The entries of all labels in the order they are laid out. */
  function AllItems(mainItems: seq<Item>, blocks: seq<Block>): seq<Item> {
    mainItems + OtherItems(blocks)
  }

  /** The layout loops lay the entries of `_main_` from address 0 and then
      those of the other labels, and `_main_` keeps its address. */
  lemma LaidOutLayout(mainItems: seq<Item>, blocks: seq<Block>)
    ensures LaidOut(mainItems, blocks).layout == PutAll(START, AllItems(mainItems, blocks))
    ensures LaidOut(mainItems, blocks).layout.addr == INSTR_SIZE * |AllItems(mainItems, blocks)|
    ensures LaidOut(mainItems, blocks).layout.encoded == AllBytes(AllItems(mainItems, blocks))
    ensures MAIN in LaidOut(mainItems, blocks).labelAddr && LaidOut(mainItems, blocks).labelAddr[MAIN] == MAIN_ADDR
  {
    var p0 := Placement(PutAll(START, mainItems), map[MAIN := MAIN_ADDR]);
    PlaceBlocksLayout(p0, blocks);
    PutAllConcat(START, mainItems, OtherItems(blocks));
    PutAllLayout(START, AllItems(mainItems, blocks));
    assert [] + AllBytes(AllItems(mainItems, blocks)) == AllBytes(AllItems(mainItems, blocks));
    PlaceBlocksKeeps(p0, blocks, MAIN);
  }

  /** The address recorded for `_main_` is the literal of address 0 in the
      intended form, and it assembles to a zero short. */
  lemma MainAddressZero()
    ensures MAIN_ADDR == AddressLiteral(0)
    ensures ImmShortBytes(MAIN_ADDR) == Some([0, 0])
  {
    var z := HexPair(0);
    assert z == ['0', '0'];
    assert "0x" + z + z == "0x0000";
    AddressLiteralBytes(0);
  }

  /** Each other label is recorded as `hex` of six times the number of
      entries laid out before it. */
  lemma LabelAddress(mainItems: seq<Item>, blocks: seq<Block>, i: nat)
    requires DistinctLabels(blocks) && i < |blocks| && blocks[i].name != MAIN
    ensures blocks[i].name in LaidOut(mainItems, blocks).labelAddr
    ensures LaidOut(mainItems, blocks).labelAddr[blocks[i].name] ==
      Hex(INSTR_SIZE * (|mainItems| + |OtherItems(blocks[..i])|))
  {
    var p0 := Placement(PutAll(START, mainItems), map[MAIN := MAIN_ADDR]);
    var n := |OtherItems(blocks[..i])|;
    assert p0.layout.addr + INSTR_SIZE * n == INSTR_SIZE * (|mainItems| + n) by {
      PutAllLayout(START, mainItems);
    }
    assert LaidOut(mainItems, blocks) == PlaceBlocks(p0, blocks);
    PlaceBlocksLabel(p0, blocks, i);
  }

  /** A label that no block defines has no address: patching a line that
      names it is a KeyError. */
  lemma UnknownLabel(mainItems: seq<Item>, blocks: seq<Block>, k: string)
    requires k != MAIN && forall i :: 0 <= i < |blocks| ==> blocks[i].name != k
    ensures k !in LaidOut(mainItems, blocks).labelAddr
  {
    PlaceBlocksKeeps(Placement(PutAll(START, mainItems), map[MAIN := MAIN_ADDR]), blocks, k);
  }

  /** An encoded entry longer than six bytes moves the code but not the
      address: after a 7-byte entry the address is 6, so a following line
      is recorded at offset 6 while its placeholder starts at offset 7. */
  lemma LongEntryDrifts(b: seq<u8>, line: string)
    requires |b| == INSTR_SIZE + 1
    ensures var l := PutAll(START, [Encoded(b), NeedsAddress(line)]);
      l.addr == 2 * INSTR_SIZE && l.needPos[line] == INSTR_SIZE &&
      |l.encoded| == 2 * INSTR_SIZE + 1 && l.encoded[INSTR_SIZE + 1..] == DUMMY_FILL && l.encoded[INSTR_SIZE..INSTR_SIZE + INSTR_SIZE] != DUMMY_FILL
  {
    var items := [Encoded(b), NeedsAddress(line)];
    assert items[..1] == [Encoded(b)];
    assert [Encoded(b)][..0] == [];
    var l1 := PutAll(START, [Encoded(b)]);
    assert l1 == Put(PutAll(START, []), Encoded(b)) == Put(START, Encoded(b));
    assert l1.encoded == b && l1.addr == INSTR_SIZE;
    var l := PutAll(START, items);
    assert l == Put(l1, NeedsAddress(line));
    assert l.encoded == b + DUMMY_FILL;
    assert l.encoded[INSTR_SIZE] == b[INSTR_SIZE];
    assert l.encoded[INSTR_SIZE + 1] == 0xAA != 0xBB == DUMMY_FILL[1];
  }

  /** Every entry lays down one instruction's worth of bytes. */
  ghost predicate SixByteItems(items: seq<Item>) {
    forall k :: 0 <= k < |items| ==> |ItemBytes(items[k])| == INSTR_SIZE
  }

  /** When every entry has the instruction size, the code is six bytes per
      entry and entry k sits at offset 6k. */
  lemma {:induction false} AllBytesSlots(items: seq<Item>)
    requires SixByteItems(items)
    ensures |AllBytes(items)| == INSTR_SIZE * |items|
    ensures forall k :: 0 <= k < |items| ==>
      AllBytes(items)[INSTR_SIZE * k..INSTR_SIZE * k + INSTR_SIZE] == ItemBytes(items[k])
    decreases |items|
  {
    if |items| > 0 {
      var front := items[..|items| - 1];
      var last := ItemBytes(items[|items| - 1]);
      assert forall k :: 0 <= k < |front| ==> front[k] == items[k];
      AllBytesSlots(front);
      var a := AllBytes(front);
      assert AllBytes(items) == a + last;
      forall k | 0 <= k < |items|
        ensures (a + last)[INSTR_SIZE * k..INSTR_SIZE * k + INSTR_SIZE] == ItemBytes(items[k])
      {
        ConcatSlices(a, last, INSTR_SIZE * k);
      }
    }
  }

  /** A 6-byte window of `a + b` lies in `a` or is `b` itself when `b` has
      6 bytes and the window starts at a multiple of six. */
  lemma ConcatSlices(a: seq<u8>, b: seq<u8>, lo: nat)
    requires |b| == INSTR_SIZE && lo + INSTR_SIZE <= |a| + |b|
    ensures lo + INSTR_SIZE <= |a| ==> (a + b)[lo..lo + INSTR_SIZE] == a[lo..lo + INSTR_SIZE]
    ensures lo == |a| ==> (a + b)[lo..lo + INSTR_SIZE] == b
  {
  }

  // ----- patching -----

  /** Byte `i` lies in the 6-byte slot at `at`. */
  predicate InSlot(i: int, at: nat) {
    at <= i < at + INSTR_SIZE
  }

  /** Slots at different multiples of six do not overlap. */
  lemma SlotsDisjoint(a: nat, b: nat, i: int)
    requires a % INSTR_SIZE == 0 && b % INSTR_SIZE == 0 && InSlot(i, a) && InSlot(i, b)
    ensures a == b
  {
    assert a == INSTR_SIZE * (a / INSTR_SIZE) && b == INSTR_SIZE * (b / INSTR_SIZE);
    assert a / INSTR_SIZE == i / INSTR_SIZE && b / INSTR_SIZE == i / INSTR_SIZE;
  }

  /** Splicing an instruction over a slot inside the code replaces that
      slot and nothing else. */
  lemma SpliceSlot(e: seq<u8>, p: nat, b: seq<u8>)
    requires |b| == INSTR_SIZE && p + INSTR_SIZE <= |e|
    ensures |Splice(e, p, b)| == |e|
    ensures Splice(e, p, b)[p..p + INSTR_SIZE] == b
    ensures forall i :: 0 <= i < |e| && !InSlot(i, p) ==> Splice(e, p, b)[i] == e[i]
  {
    var r := Splice(e, p, b);
    assert r == e[..p] + b + e[p + INSTR_SIZE..];
  }

  /** Slots at distinct multiples of six, each inside code of `size` bytes. */
  ghost predicate Aligned(slots: seq<Slot>, size: nat) {
    (forall j :: 0 <= j < |slots| ==> slots[j].at % INSTR_SIZE == 0 && slots[j].at + INSTR_SIZE <= size) &&
    (forall j, k :: 0 <= j < k < |slots| ==> slots[j].at != slots[k].at)
  }

  /** The re-encoded line has the instruction size when it is produced. */
  ghost predicate SixBytePatch(line: string, reencode: Reencoder) {
    reencode(line).Ok? ==> |reencode(line).value| == INSTR_SIZE
  }

  /** Every entry that needs an address re-encodes, when it does, to the
      instruction size. */
  ghost predicate SixBytePatches(items: seq<Item>, reencode: Reencoder) {
    forall k :: 0 <= k < |items| && items[k].NeedsAddress? ==> SixBytePatch(items[k].line, reencode)
  }

  /** Slots whose lines are entries that need an address re-encode to the
      instruction size when those entries do. */
  lemma SlotsSixByte(items: seq<Item>, slots: seq<Slot>, reencode: Reencoder)
    requires SixBytePatches(items, reencode)
    requires forall j :: 0 <= j < |slots| ==> exists k :: 0 <= k < |items| && items[k] == NeedsAddress(slots[j].line)
    ensures forall j :: 0 <= j < |slots| ==> SixBytePatch(slots[j].line, reencode)
  {
    forall j | 0 <= j < |slots|
      ensures SixBytePatch(slots[j].line, reencode)
    {
      var k :| 0 <= k < |items| && items[k] == NeedsAddress(slots[j].line);
      assert items[k].NeedsAddress? && items[k].line == slots[j].line;
    }
  }

  /** The slots of buildBinary's dict re-encode to the instruction size. */
  lemma LayoutSlotsSixByte(all: seq<Item>, reencode: Reencoder)
    requires SixBytePatches(all, reencode)
    ensures forall j :: 0 <= j < |LayoutSlotsOf(all)| ==> SixBytePatch(LayoutSlotsOf(all)[j].line, reencode)
  {
    var slots := LayoutSlotsOf(all);
    LayoutSlots(all);
    forall j | 0 <= j < |slots|
      ensures exists k :: 0 <= k < |all| && all[k] == NeedsAddress(slots[j].line)
    {
      var k := LastIndex(all, slots[j].line).value;
      assert all[k] == NeedsAddress(slots[j].line);
    }
    SlotsSixByte(all, slots, reencode);
  }

  /** The placeholder slots re-encode to the instruction size. */
  lemma PlaceholderSlotsSixByte(all: seq<Item>, reencode: Reencoder)
    requires SixBytePatches(all, reencode)
    ensures forall j :: 0 <= j < |PlaceholderSlots(all)| ==> SixBytePatch(PlaceholderSlots(all)[j].line, reencode)
  {
    var slots := PlaceholderSlots(all);
    PlaceholderSlotsShape(all);
    forall j | 0 <= j < |slots|
      ensures exists k :: 0 <= k < |all| && all[k] == NeedsAddress(slots[j].line)
    {
      var k := slots[j].at / INSTR_SIZE;
      assert all[k] == NeedsAddress(slots[j].line);
    }
    SlotsSixByte(all, slots, reencode);
  }

  /** Byte `i` lies in none of the slots. */
  ghost predicate Untouched(i: int, slots: seq<Slot>) {
    forall j :: 0 <= j < |slots| ==> !InSlot(i, slots[j].at)
  }

  /** `r` is `e` with each slot's re-encoded line at its offset and every
      byte outside the slots as it was. */
  ghost predicate PatchedAt(r: seq<u8>, e: seq<u8>, slots: seq<Slot>, reencode: Reencoder) {
    |r| == |e| &&
    (forall j :: 0 <= j < |slots| ==>
      reencode(slots[j].line).Ok? && slots[j].at + INSTR_SIZE <= |r| && r[slots[j].at..slots[j].at + INSTR_SIZE] == reencode(slots[j].line).value) &&
    (forall i :: 0 <= i < |e| && Untouched(i, slots) ==> r[i] == e[i])
  }

  /** Splicing one more aligned slot keeps the patched-at description. */
  lemma PatchedAtSnoc(r: seq<u8>, e: seq<u8>, slots: seq<Slot>, reencode: Reencoder)
    requires |slots| > 0 && Aligned(slots, |e|)
    requires PatchedAt(r, e, slots[..|slots| - 1], reencode)
    requires reencode(slots[|slots| - 1].line).Ok?
    requires |reencode(slots[|slots| - 1].line).value| == INSTR_SIZE
    ensures PatchedAt(Splice(r, slots[|slots| - 1].at, reencode(slots[|slots| - 1].line).value), e, slots, reencode)
  {
    var front := slots[..|slots| - 1];
    var last := slots[|slots| - 1];
    var b := reencode(last.line).value;
    var r2 := Splice(r, last.at, b);
    SpliceSlot(r, last.at, b);
    forall j | 0 <= j < |slots|
      ensures reencode(slots[j].line).Ok? && r2[slots[j].at..slots[j].at + INSTR_SIZE] == reencode(slots[j].line).value
    {
      if j < |slots| - 1 {
        assert front[j] == slots[j];
        forall i | slots[j].at <= i < slots[j].at + INSTR_SIZE
          ensures r2[i] == r[i]
        {
          if InSlot(i, last.at) {
            SlotsDisjoint(slots[j].at, last.at, i);
          }
        }
      }
    }
    forall i | 0 <= i < |e| && Untouched(i, slots)
      ensures r2[i] == e[i]
    {
      assert !InSlot(i, last.at);
      assert Untouched(i, front) by {
        forall j | 0 <= j < |front| ensures !InSlot(i, front[j].at) {
          assert front[j] == slots[j];
        }
      }
    }
  }

  /** Patching aligned slots with 6-byte instructions puts each slot's
      re-encoded line at its offset and leaves every byte outside the slots
      as it was. */
  lemma {:induction false} PatchSlotsSpec(e: seq<u8>, slots: seq<Slot>, reencode: Reencoder)
    requires Aligned(slots, |e|)
    requires forall j :: 0 <= j < |slots| ==> SixBytePatch(slots[j].line, reencode)
    requires PatchSlots(e, slots, reencode).Ok?
    ensures PatchedAt(PatchSlots(e, slots, reencode).value, e, slots, reencode)
    decreases |slots|
  {
    if |slots| > 0 {
      var front := slots[..|slots| - 1];
      var last := slots[|slots| - 1];
      assert forall j :: 0 <= j < |front| ==> front[j] == slots[j];
      assert Aligned(front, |e|);
      var e1 := PatchSlots(e, front, reencode).value;
      PatchSlotsSpec(e, front, reencode);
      assert SixBytePatch(last.line, reencode);
      PatchedAtSnoc(e1, e, slots, reencode);
    }
  }
  // ----- the whole of buildBinary -----

  /** The entries of `need_label_trans` after laying out `all` from
      address 0. */
  function LayoutSlotsOf(all: seq<Item>): seq<Slot> {
    var l := PutAll(START, all);
    assert Tracked(START);
    Slots(l.needKeys, l.needPos)
  }

  /** The layout loops record each line that needs an address at the slot
      of its last occurrence among all the entries: the slots are aligned,
      distinct and inside the code, and every such line has one. */
  lemma LayoutSlots(all: seq<Item>)
    ensures var slots := LayoutSlotsOf(all);
      Aligned(slots, INSTR_SIZE * |all|) &&
      (forall j :: 0 <= j < |slots| ==>
        LastIndex(all, slots[j].line).Some? && slots[j].at == INSTR_SIZE * LastIndex(all, slots[j].line).value) &&
      (forall line :: LastIndex(all, line).Some? ==> exists j :: 0 <= j < |slots| && slots[j].line == line)
  {
    SlotsAligned(all);
    SlotsAtLast(all);
    SlotsCover(all);
  }

  /** The layout's slots are distinct multiples of six inside the code. */
  lemma SlotsAligned(all: seq<Item>)
    ensures Aligned(LayoutSlotsOf(all), INSTR_SIZE * |all|)
  {
    var slots := LayoutSlotsOf(all);
    forall j | 0 <= j < |slots|
      ensures slots[j].at % INSTR_SIZE == 0 && slots[j].at + INSTR_SIZE <= INSTR_SIZE * |all|
    {
      SlotInside(all, j);
    }
    forall j, k | 0 <= j < k < |slots|
      ensures slots[j].at != slots[k].at
    {
      SlotsApart(all, j, k);
    }
  }

  /** One slot of the layout is a multiple of six inside the code. */
  lemma SlotInside(all: seq<Item>, j: nat)
    requires j < |LayoutSlotsOf(all)|
    ensures LayoutSlotsOf(all)[j].at % INSTR_SIZE == 0
    ensures LayoutSlotsOf(all)[j].at + INSTR_SIZE <= INSTR_SIZE * |all|
  {
    var slots := LayoutSlotsOf(all);
    SlotsAtLast(all);
    var a := LastIndex(all, slots[j].line).value;
    var at := slots[j].at;
    assert at == INSTR_SIZE * a && a + 1 <= |all|;
    WholeInstructions(a);
  }

  /** An offset of a whole number of instructions is a multiple of six.
      Kept as a lemma of its own: stated inline, the modulus makes the
      solver's search in SlotInside many times more expensive. */
  lemma WholeInstructions(a: nat)
    ensures (INSTR_SIZE * a) % INSTR_SIZE == 0
  {
  }

  /** Two slots of the layout are for different lines, so they are at
      different last occurrences. */
  lemma SlotsApart(all: seq<Item>, j: nat, k: nat)
    requires j < k < |LayoutSlotsOf(all)|
    ensures LayoutSlotsOf(all)[j].at != LayoutSlotsOf(all)[k].at
  {
    var l := PutAll(START, all);
    var slots := LayoutSlotsOf(all);
    assert Tracked(START);
    assert slots[j].line != slots[k].line;
    PutAllPos(START, all, slots[j].line);
    PutAllPos(START, all, slots[k].line);
  }

  /** Each slot of the layout is at six times the last index of its line. */
  lemma SlotsAtLast(all: seq<Item>)
    ensures var slots := LayoutSlotsOf(all);
      forall j :: 0 <= j < |slots| ==>
        LastIndex(all, slots[j].line).Some? && slots[j].at == INSTR_SIZE * LastIndex(all, slots[j].line).value
  {
    var l := PutAll(START, all);
    var slots := LayoutSlotsOf(all);
    forall j | 0 <= j < |slots|
      ensures LastIndex(all, slots[j].line).Some? && slots[j].at == INSTR_SIZE * LastIndex(all, slots[j].line).value
    {
      PutAllPos(START, all, slots[j].line);
    }
  }

  /** Every line that needs an address has a slot. */
  lemma SlotsCover(all: seq<Item>)
    ensures var slots := LayoutSlotsOf(all);
      forall line :: LastIndex(all, line).Some? ==> exists j :: 0 <= j < |slots| && slots[j].line == line
  {
    var l := PutAll(START, all);
    var slots := LayoutSlotsOf(all);
    assert Tracked(START);
    assert Tracked(l);
    forall line | LastIndex(all, line).Some?
      ensures exists j :: 0 <= j < |slots| && slots[j].line == line
    {
      PutAllPos(START, all, line);
      assert line in l.needKeys;
      var j :| 0 <= j < |l.needKeys| && l.needKeys[j] == line;
      assert slots[j].line == line;
    }
  }

  /** A byte window at a multiple of six that no slot starts at comes
      through patching unchanged. */
  lemma WindowUntouched(r: seq<u8>, e: seq<u8>, slots: seq<Slot>, reencode: Reencoder, k: nat)
    requires PatchedAt(r, e, slots, reencode) && Aligned(slots, |e|)
    requires INSTR_SIZE * k + INSTR_SIZE <= |e|
    requires forall j :: 0 <= j < |slots| ==> slots[j].at != INSTR_SIZE * k
    ensures r[INSTR_SIZE * k..INSTR_SIZE * k + INSTR_SIZE] == e[INSTR_SIZE * k..INSTR_SIZE * k + INSTR_SIZE]
  {
    forall i | INSTR_SIZE * k <= i < INSTR_SIZE * k + INSTR_SIZE
      ensures r[i] == e[i]
    {
      forall j | 0 <= j < |slots| ensures !InSlot(i, slots[j].at) {
        if InSlot(i, slots[j].at) {
          SlotsDisjoint(slots[j].at, INSTR_SIZE * k, i);
        }
      }
      assert Untouched(i, slots);
    }
  }

  /** What buildBinary produces when it succeeds: six bytes per entry of
      all labels in layout order; an encoded entry keeps its bytes; a line
      that needs an address holds its re-encoded line only at its LAST
      occurrence, and every earlier occurrence keeps the placeholder; the
      header is computed from the number of entries. */
  lemma BuildLaysOut(blocks: seq<Block>, pack: FloatPack, mainItems: seq<Item>)
    requires MainItems(blocks) == Some(mainItems)
    requires SixByteItems(AllItems(mainItems, blocks))
    requires SixBytePatches(AllItems(mainItems, blocks), Reencode(LaidOut(mainItems, blocks).labelAddr, pack))
    requires Build(blocks, pack).Ok?
    ensures var all := AllItems(mainItems, blocks);
      var bin := Build(blocks, pack).value;
      |bin.encoded| == INSTR_SIZE * |all| && Header(|all|) == Some(bin.nInstr)
    ensures var all := AllItems(mainItems, blocks);
      var bin := Build(blocks, pack).value;
      var reencode := Reencode(LaidOut(mainItems, blocks).labelAddr, pack);
      forall k :: 0 <= k < |all| ==>
        var w := bin.encoded[INSTR_SIZE * k..INSTR_SIZE * k + INSTR_SIZE];
        (all[k].Encoded? ==> w == all[k].bytes) &&
        (all[k].NeedsAddress? && LastIndex(all, all[k].line) == Some(k) ==> reencode(all[k].line) == Ok(w)) &&
        (all[k].NeedsAddress? && LastIndex(all, all[k].line) != Some(k) ==> w == DUMMY_FILL)
  {
    var all := AllItems(mainItems, blocks);
    var p := LaidOut(mainItems, blocks);
    var reencode := Reencode(p.labelAddr, pack);
    var slots := Slots(p.layout.needKeys, p.layout.needPos);
    var e := p.layout.encoded;
    LaidOutLayout(mainItems, blocks);
    AllBytesSlots(all);
    LayoutSlots(all);
    assert PatchSlots(e, slots, reencode).Ok?;
    var r := PatchSlots(e, slots, reencode).value;
    assert Build(blocks, pack).value == Binary(Header(|r| / INSTR_SIZE).value, r);
    LayoutSlotsSixByte(all, reencode);
    PatchSlotsSpec(e, slots, reencode);
    assert |r| / INSTR_SIZE == |all|;
    forall k | 0 <= k < |all|
      ensures var w := r[INSTR_SIZE * k..INSTR_SIZE * k + INSTR_SIZE];
        (all[k].Encoded? ==> w == all[k].bytes) &&
        (all[k].NeedsAddress? && LastIndex(all, all[k].line) == Some(k) ==> reencode(all[k].line) == Ok(w)) &&
        (all[k].NeedsAddress? && LastIndex(all, all[k].line) != Some(k) ==> w == DUMMY_FILL)
    {
      BuildWindow(all, e, r, slots, reencode, k);
    }
  }

  /** One window of BuildLaysOut. */
  lemma BuildWindow(all: seq<Item>, e: seq<u8>, r: seq<u8>, slots: seq<Slot>, reencode: Reencoder, k: nat)
    requires k < |all| && |e| == INSTR_SIZE * |all| && PatchedAt(r, e, slots, reencode) && Aligned(slots, |e|)
    requires forall j :: 0 <= j < |all| ==> e[INSTR_SIZE * j..INSTR_SIZE * j + INSTR_SIZE] == ItemBytes(all[j])
    requires forall j :: 0 <= j < |slots| ==>
      LastIndex(all, slots[j].line).Some? && slots[j].at == INSTR_SIZE * LastIndex(all, slots[j].line).value
    requires forall line :: LastIndex(all, line).Some? ==> exists j :: 0 <= j < |slots| && slots[j].line == line
    ensures var w := r[INSTR_SIZE * k..INSTR_SIZE * k + INSTR_SIZE];
      (all[k].Encoded? ==> w == all[k].bytes) &&
      (all[k].NeedsAddress? && LastIndex(all, all[k].line) == Some(k) ==> reencode(all[k].line) == Ok(w)) &&
      (all[k].NeedsAddress? && LastIndex(all, all[k].line) != Some(k) ==> w == DUMMY_FILL)
  {
    if all[k].NeedsAddress? && LastIndex(all, all[k].line) == Some(k) {
      var j :| 0 <= j < |slots| && slots[j].line == all[k].line;
      SlotPatched(r, e, slots, reencode, j);
    } else {
      WindowKept(all, e, r, slots, reencode, k);
    }
  }

  /** A window that is not the last occurrence of a line keeps its laid-out
      bytes. */
  lemma WindowKept(all: seq<Item>, e: seq<u8>, r: seq<u8>, slots: seq<Slot>, reencode: Reencoder, k: nat)
    requires k < |all| && |e| == INSTR_SIZE * |all| && PatchedAt(r, e, slots, reencode) && Aligned(slots, |e|)
    requires !(all[k].NeedsAddress? && LastIndex(all, all[k].line) == Some(k))
    requires forall j :: 0 <= j < |slots| ==>
      LastIndex(all, slots[j].line).Some? && slots[j].at == INSTR_SIZE * LastIndex(all, slots[j].line).value
    ensures r[INSTR_SIZE * k..INSTR_SIZE * k + INSTR_SIZE] == e[INSTR_SIZE * k..INSTR_SIZE * k + INSTR_SIZE]
  {
    assert forall j :: 0 <= j < |slots| ==> slots[j].at != INSTR_SIZE * k;
    WindowUntouched(r, e, slots, reencode, k);
  }

  /** A slot holds its re-encoded line. */
  lemma SlotPatched(r: seq<u8>, e: seq<u8>, slots: seq<Slot>, reencode: Reencoder, j: nat)
    requires PatchedAt(r, e, slots, reencode) && j < |slots|
    ensures slots[j].at + INSTR_SIZE <= |r|
    ensures reencode(slots[j].line) == Ok(r[slots[j].at..slots[j].at + INSTR_SIZE])
  {
  }

  // ----- every placeholder patched (the evidently intended layout) -----

  /** One slot per line that needs an address, at the offset of that
      occurrence, in layout order: what `need_label_trans` would hold if
      it kept a list of (line, offset) pairs instead of a dict keyed by
      the line. */
  function PlaceholderSlots(items: seq<Item>): seq<Slot>
    decreases |items|
  {
    if |items| == 0 then []
    else
      var k := |items| - 1;
      PlaceholderSlots(items[..k]) +
        (match items[k] case NeedsAddress(line) => [Slot(line, INSTR_SIZE * k)] case Encoded(_) => [])
  }

  /** Each placeholder slot is at an entry that needs an address and holds
      that entry's line; slots increase; every such entry has its slot. */
  lemma PlaceholderSlotsShape(items: seq<Item>)
    ensures var r := PlaceholderSlots(items);
      forall j :: 0 <= j < |r| ==>
        r[j].at % INSTR_SIZE == 0 && r[j].at < INSTR_SIZE * |items| &&
        items[r[j].at / INSTR_SIZE] == NeedsAddress(r[j].line)
    ensures var r := PlaceholderSlots(items);
      forall j, j' :: 0 <= j < j' < |r| ==> r[j].at < r[j'].at
    ensures var r := PlaceholderSlots(items);
      forall k :: 0 <= k < |items| && items[k].NeedsAddress? ==>
        exists j :: 0 <= j < |r| && r[j] == Slot(items[k].line, INSTR_SIZE * k)
  {
    PlaceholderSlotsAt(items);
    PlaceholderSlotsIncrease(items);
    PlaceholderSlotsCover(items);
  }

  /** The placeholder slots of the entries before the last one come first. */
  lemma PlaceholderSlotsFront(items: seq<Item>)
    requires |items| > 0
    ensures var k := |items| - 1;
      var rf := PlaceholderSlots(items[..k]);
      var r := PlaceholderSlots(items);
      |rf| <= |r| <= |rf| + 1 && r[..|rf|] == rf &&
      (items[k].NeedsAddress? <==> |r| == |rf| + 1) &&
      (items[k].NeedsAddress? ==> r[|rf|] == Slot(items[k].line, INSTR_SIZE * k))
  {
  }

  lemma {:induction false} PlaceholderSlotsAt(items: seq<Item>)
    ensures var r := PlaceholderSlots(items);
      forall j :: 0 <= j < |r| ==>
        r[j].at % INSTR_SIZE == 0 && r[j].at < INSTR_SIZE * |items| &&
        items[r[j].at / INSTR_SIZE] == NeedsAddress(r[j].line)
    decreases |items|
  {
    if |items| > 0 {
      var k := |items| - 1;
      var front := items[..k];
      PlaceholderSlotsAt(front);
      PlaceholderSlotsFront(items);
      var rf := PlaceholderSlots(front);
      var r := PlaceholderSlots(items);
      assert forall j :: 0 <= j < |rf| ==> r[j] == rf[j] && rf[j].at / INSTR_SIZE < k;
      assert forall i :: 0 <= i < k ==> front[i] == items[i];
      assert (INSTR_SIZE * k) / INSTR_SIZE == k && (INSTR_SIZE * k) % INSTR_SIZE == 0;
    }
  }

  lemma {:induction false} PlaceholderSlotsIncrease(items: seq<Item>)
    ensures var r := PlaceholderSlots(items);
      forall j :: 0 <= j < |r| ==> r[j].at < INSTR_SIZE * |items|
    ensures var r := PlaceholderSlots(items);
      forall j, j' :: 0 <= j < j' < |r| ==> r[j].at < r[j'].at
    decreases |items|
  {
    if |items| > 0 {
      var k := |items| - 1;
      PlaceholderSlotsIncrease(items[..k]);
      PlaceholderSlotsFront(items);
      var rf := PlaceholderSlots(items[..k]);
      var r := PlaceholderSlots(items);
      assert forall j :: 0 <= j < |rf| ==> r[j] == rf[j];
    }
  }

  lemma {:induction false} PlaceholderSlotsCover(items: seq<Item>)
    ensures var r := PlaceholderSlots(items);
      forall k :: 0 <= k < |items| && items[k].NeedsAddress? ==>
        exists j :: 0 <= j < |r| && r[j] == Slot(items[k].line, INSTR_SIZE * k)
    decreases |items|
  {
    if |items| > 0 {
      var n := |items| - 1;
      var front := items[..n];
      PlaceholderSlotsCover(front);
      PlaceholderSlotsFront(items);
      var rf := PlaceholderSlots(front);
      var r := PlaceholderSlots(items);
      forall k | 0 <= k < |items| && items[k].NeedsAddress?
        ensures exists j :: 0 <= j < |r| && r[j] == Slot(items[k].line, INSTR_SIZE * k)
      {
        if k < n {
          assert front[k] == items[k];
          var j :| 0 <= j < |rf| && rf[j] == Slot(items[k].line, INSTR_SIZE * k);
          assert r[j] == rf[j];
        } else {
          assert r[|rf|] == Slot(items[k].line, INSTR_SIZE * k);
        }
      }
    }
  }

  /** The placeholder slots are distinct multiples of six inside the code. */
  lemma PlaceholderSlotsAligned(items: seq<Item>)
    ensures Aligned(PlaceholderSlots(items), INSTR_SIZE * |items|)
  {
    PlaceholderSlotsShape(items);
  }

  /** The addresses the loop over `labels_` gives each label, `_main_` at
      0; `base` is the address the loop starts at. */
  function IntendedAddresses(base: nat, blocks: seq<Block>): map<string, nat>
    decreases |blocks|
  {
    if |blocks| == 0 then map[MAIN := 0]
    else
      var front := blocks[..|blocks| - 1];
      var b := blocks[|blocks| - 1];
      if b.name == MAIN then IntendedAddresses(base, front)
      else IntendedAddresses(base, front)[b.name := base + INSTR_SIZE * |OtherItems(front)|]
  }

  /** `label_addr` as evidently intended: each of those addresses written
      as its AddressLiteral rather than `hex(addr)`. */
  function IntendedLabels(base: nat, blocks: seq<Block>): map<string, string> {
    Literals(IntendedAddresses(base, blocks))
  }

  /** Each address of `addr` written as the AddressLiteral of its low 16 bits. */
  function Literals(addr: map<string, nat>): map<string, string> {
    map k | k in addr :: AddressLiteral(addr[k] % 0x1_0000)
  }

  /** The literal map has the keys of the address map. */
  lemma LiteralsKeys(addr: map<string, nat>)
    ensures Literals(addr).Keys == addr.Keys
  {
  }

  /** The literal recorded for one key. */
  lemma LiteralAt(addr: map<string, nat>, k: string)
    requires k in addr
    ensures k in Literals(addr) && Literals(addr)[k] == AddressLiteral(addr[k] % 0x1_0000)
  {
  }

  /** The intended label map has the labels buildBinary records: `_main_`
      at the literal of address 0, and every other label. */
  lemma IntendedLabelsKeys(p: Placement, base: nat, blocks: seq<Block>)
    requires p.labelAddr.Keys == {MAIN}
    ensures IntendedLabels(base, blocks).Keys == PlaceBlocks(p, blocks).labelAddr.Keys
    ensures MAIN in IntendedLabels(base, blocks) && IntendedLabels(base, blocks)[MAIN] == MAIN_ADDR
  {
    var addr := IntendedAddresses(base, blocks);
    IntendedAddressKeys(p, base, blocks);
    LiteralsKeys(addr);
    LiteralAt(addr, MAIN);
    MainAddressZero();
  }

  /** The intended addresses are for the labels buildBinary records, with
      `_main_` at 0. */
  lemma {:induction false} IntendedAddressKeys(p: Placement, base: nat, blocks: seq<Block>)
    requires p.labelAddr.Keys == {MAIN}
    ensures IntendedAddresses(base, blocks).Keys == PlaceBlocks(p, blocks).labelAddr.Keys
    ensures MAIN in IntendedAddresses(base, blocks) && IntendedAddresses(base, blocks)[MAIN] == 0
    decreases |blocks|
  {
    if |blocks| > 0 {
      IntendedAddressKeys(p, base, blocks[..|blocks| - 1]);
    }
  }

  /** Each label other than `_main_` gets the literal of six times the
      number of entries laid out before it. */
  lemma IntendedLabelAddress(base: nat, blocks: seq<Block>, i: nat)
    requires DistinctLabels(blocks) && i < |blocks| && blocks[i].name != MAIN
    requires base + INSTR_SIZE * |OtherItems(blocks[..i])| < 0x1_0000
    ensures blocks[i].name in IntendedLabels(base, blocks)
    ensures IntendedLabels(base, blocks)[blocks[i].name] ==
      AddressLiteral(base + INSTR_SIZE * |OtherItems(blocks[..i])|)
  {
    IntendedAddressOf(base, blocks, i);
    LiteralAt(IntendedAddresses(base, blocks), blocks[i].name);
    InAddressSpace(base + INSTR_SIZE * |OtherItems(blocks[..i])|);
  }

  /** The address itself, before it is written out. */
  lemma {:induction false} IntendedAddressOf(base: nat, blocks: seq<Block>, i: nat)
    requires DistinctLabels(blocks) && i < |blocks| && blocks[i].name != MAIN
    ensures blocks[i].name in IntendedAddresses(base, blocks)
    ensures IntendedAddresses(base, blocks)[blocks[i].name] == base + INSTR_SIZE * |OtherItems(blocks[..i])|
    decreases |blocks|
  {
    var front := blocks[..|blocks| - 1];
    if i < |blocks| - 1 {
      DistinctFront(blocks);
      assert front[i] == blocks[i] && front[..i] == blocks[..i];
      IntendedAddressOf(base, front, i);
    } else {
      assert front == blocks[..i];
    }
  }

  /** An address below 65536 is its own 16-bit value. Kept as a lemma of
      its own: stated inline, the modulus makes the solver's search in
      IntendedLabelAddress many times more expensive. */
  lemma InAddressSpace(a: nat)
    requires a < 0x1_0000
    ensures a % 0x1_0000 == a
  {
  }

  /** buildBinary as evidently intended: the same layout, with every
      placeholder patched instead of only the last one of each line, label
      addresses written as AddressLiteral, and the instruction count
      written little-endian; code that does not fit in memory is refused. */
  function BuildIntended(blocks: seq<Block>, pack: FloatPack): Result<Binary, AsmError> {
    match MainItems(blocks)
    case None => Err(KeyError(MAIN))
    case Some(items) =>
      var p := LaidOut(items, blocks);
      var labels := IntendedLabels(INSTR_SIZE * |items|, blocks);
      match PatchSlots(p.layout.encoded, PlaceholderSlots(AllItems(items, blocks)), Reencode(labels, pack))
      case Err(x) => Err(x)
      case Ok(e) =>
        if |e| > 0x1_0000 then Err(TooLarge(|e|))
        else Ok(Binary(IntendedHeader(|e| / INSTR_SIZE), e))
  }

  /** With every placeholder patched, each entry's slot holds its encoded
      instruction, no placeholder is left, and the header reads back as
      the number of entries. */
  lemma BuildIntendedPatchesAll(blocks: seq<Block>, pack: FloatPack, mainItems: seq<Item>)
    requires MainItems(blocks) == Some(mainItems)
    requires SixByteItems(AllItems(mainItems, blocks))
    requires SixBytePatches(AllItems(mainItems, blocks), Reencode(IntendedLabels(INSTR_SIZE * |mainItems|, blocks), pack))
    requires BuildIntended(blocks, pack).Ok?
    ensures var all := AllItems(mainItems, blocks);
      var bin := BuildIntended(blocks, pack).value;
      |bin.encoded| == INSTR_SIZE * |all| && |bin.nInstr| == 2 && U16At(bin.nInstr, 0) == |all|
    ensures var all := AllItems(mainItems, blocks);
      var bin := BuildIntended(blocks, pack).value;
      var reencode := Reencode(IntendedLabels(INSTR_SIZE * |mainItems|, blocks), pack);
      forall k :: 0 <= k < |all| ==>
        var w := bin.encoded[INSTR_SIZE * k..INSTR_SIZE * k + INSTR_SIZE];
        (all[k].Encoded? ==> w == all[k].bytes) &&
        (all[k].NeedsAddress? ==> reencode(all[k].line) == Ok(w))
  {
    var all := AllItems(mainItems, blocks);
    var p := LaidOut(mainItems, blocks);
    var reencode := Reencode(IntendedLabels(INSTR_SIZE * |mainItems|, blocks), pack);
    var slots := PlaceholderSlots(all);
    var e := p.layout.encoded;
    LaidOutLayout(mainItems, blocks);
    AllBytesSlots(all);
    PlaceholderSlotsAligned(all);
    PlaceholderSlotsShape(all);
    assert PatchSlots(e, slots, reencode).Ok?;
    var r := PatchSlots(e, slots, reencode).value;
    PlaceholderSlotsSixByte(all, reencode);
    PatchSlotsSpec(e, slots, reencode);
    assert |r| / INSTR_SIZE == |all|;
    assert BuildIntended(blocks, pack).value == Binary(IntendedHeader(|all|), r);
    IntendedHeaderRoundTrip(|all|);
    forall k | 0 <= k < |all|
      ensures var w := r[INSTR_SIZE * k..INSTR_SIZE * k + INSTR_SIZE];
        (all[k].Encoded? ==> w == all[k].bytes) &&
        (all[k].NeedsAddress? ==> reencode(all[k].line) == Ok(w))
    {
      IntendedWindow(all, e, r, reencode, k);
    }
  }

  /** One window of BuildIntendedPatchesAll. */
  lemma IntendedWindow(all: seq<Item>, e: seq<u8>, r: seq<u8>, reencode: Reencoder, k: nat)
    requires k < |all| && |e| == INSTR_SIZE * |all|
    requires PatchedAt(r, e, PlaceholderSlots(all), reencode)
    requires forall j :: 0 <= j < |all| ==> e[INSTR_SIZE * j..INSTR_SIZE * j + INSTR_SIZE] == ItemBytes(all[j])
    ensures var w := r[INSTR_SIZE * k..INSTR_SIZE * k + INSTR_SIZE];
      (all[k].Encoded? ==> w == all[k].bytes) &&
      (all[k].NeedsAddress? ==> reencode(all[k].line) == Ok(w))
  {
    if all[k].NeedsAddress? {
      PlaceholderWindow(all, e, r, reencode, k);
    } else {
      assert e[INSTR_SIZE * k..INSTR_SIZE * k + INSTR_SIZE] == ItemBytes(all[k]);
      EncodedWindow(all, e, r, reencode, k);
    }
  }

  /** A placeholder's window holds the re-encoded line. */
  lemma PlaceholderWindow(all: seq<Item>, e: seq<u8>, r: seq<u8>, reencode: Reencoder, k: nat)
    requires k < |all| && all[k].NeedsAddress?
    requires PatchedAt(r, e, PlaceholderSlots(all), reencode)
    ensures INSTR_SIZE * k + INSTR_SIZE <= |r|
    ensures reencode(all[k].line) == Ok(r[INSTR_SIZE * k..INSTR_SIZE * k + INSTR_SIZE])
  {
    var j := PlaceholderAt(all, k);
    SlotPatched(r, e, PlaceholderSlots(all), reencode, j);
  }

  /** An encoded entry's window is left as laid out. */
  lemma EncodedWindow(all: seq<Item>, e: seq<u8>, r: seq<u8>, reencode: Reencoder, k: nat)
    requires k < |all| && all[k].Encoded? && |e| == INSTR_SIZE * |all|
    requires PatchedAt(r, e, PlaceholderSlots(all), reencode)
    ensures r[INSTR_SIZE * k..INSTR_SIZE * k + INSTR_SIZE] == e[INSTR_SIZE * k..INSTR_SIZE * k + INSTR_SIZE]
  {
    PlaceholderMiss(all, k);
    PlaceholderSlotsAligned(all);
    WindowUntouched(r, e, PlaceholderSlots(all), reencode, k);
  }

  /** The slot of an entry that needs an address. */
  lemma PlaceholderAt(items: seq<Item>, k: nat) returns (j: nat)
    requires k < |items| && items[k].NeedsAddress?
    ensures j < |PlaceholderSlots(items)| && PlaceholderSlots(items)[j] == Slot(items[k].line, INSTR_SIZE * k)
  {
    PlaceholderSlotsShape(items);
    j :| 0 <= j < |PlaceholderSlots(items)| && PlaceholderSlots(items)[j] == Slot(items[k].line, INSTR_SIZE * k);
  }

  /** No placeholder slot is at an encoded entry. */
  lemma PlaceholderMiss(items: seq<Item>, k: nat)
    requires k < |items| && items[k].Encoded?
    ensures forall j :: 0 <= j < |PlaceholderSlots(items)| ==> PlaceholderSlots(items)[j].at != INSTR_SIZE * k
  {
    PlaceholderSlotsAt(items);
    assert (INSTR_SIZE * k) / INSTR_SIZE == k;
  }

  /** A line written twice gets one slot, at its second occurrence; the
      intended layout has a slot for each. */
  lemma RepeatedLineOneSlot(line: string)
    ensures LayoutSlotsOf([NeedsAddress(line), NeedsAddress(line)]) == [Slot(line, INSTR_SIZE)]
    ensures PlaceholderSlots([NeedsAddress(line), NeedsAddress(line)]) == [Slot(line, 0), Slot(line, INSTR_SIZE)]
  {
    var l2 := TwoPlaceholders(line);
    assert Slots(l2.needKeys, l2.needPos) == [Slot(line, INSTR_SIZE)];
    TwoPlaceholderSlots(line);
  }

  /** The layout of two identical placeholder lines. */
  lemma TwoPlaceholders(line: string) returns (l2: Layout)
    ensures l2 == Layout(DUMMY_FILL + DUMMY_FILL, 2 * INSTR_SIZE, [line], map[line := INSTR_SIZE])
    ensures PutAll(START, [NeedsAddress(line), NeedsAddress(line)]) == l2
  {
    var x := NeedsAddress(line);
    var l1 := OnePlaceholder(line);
    var items := [x, x];
    assert items[..1] == [x];
    l2 := Layout(DUMMY_FILL + DUMMY_FILL, 2 * INSTR_SIZE, [line], map[line := INSTR_SIZE]);
    assert Put(l1, x) == l2;
  }

  /** The layout of one placeholder line. */
  lemma OnePlaceholder(line: string) returns (l1: Layout)
    ensures l1 == Layout(DUMMY_FILL, INSTR_SIZE, [line], map[line := 0])
    ensures PutAll(START, [NeedsAddress(line)]) == l1
  {
    var x := NeedsAddress(line);
    assert [x][..0] == [];
    l1 := Layout(DUMMY_FILL, INSTR_SIZE, [line], map[line := 0]);
    assert Put(START, x) == l1;
  }

  /** The intended slots of two identical placeholder lines. */
  lemma TwoPlaceholderSlots(line: string)
    ensures PlaceholderSlots([NeedsAddress(line), NeedsAddress(line)]) == [Slot(line, 0), Slot(line, INSTR_SIZE)]
  {
    var x := NeedsAddress(line);
    assert [x, x][..1] == [x] && [x][..0] == [];
    assert PlaceholderSlots([x]) == [Slot(line, 0)];
  }

  /** So patching that layout leaves the placeholder in the first slot,
      whatever the re-encoding. */
  lemma RepeatedLineKeepsPlaceholder(line: string, reencode: Reencoder)
    ensures PatchSlots(AllBytes([NeedsAddress(line), NeedsAddress(line)]), [Slot(line, INSTR_SIZE)], reencode) ==
      match reencode(line)
      case Err(x) => Err(x)
      case Ok(b) => Ok(DUMMY_FILL + b)
  {
    var x := NeedsAddress(line);
    var items := [x, x];
    assert items[..1] == [x] && [x][..0] == [];
    assert AllBytes([x]) == AllBytes([]) + ItemBytes(x) == DUMMY_FILL;
    var e := AllBytes(items);
    assert e == AllBytes([x]) + ItemBytes(x);
    assert e == DUMMY_FILL + DUMMY_FILL;
    var s := [Slot(line, INSTR_SIZE)];
    assert s[..0] == [];
    assert PatchSlots(e, s[..0], reencode) == Ok(e);
    assert Take(e, INSTR_SIZE) == DUMMY_FILL && Drop(e, 2 * INSTR_SIZE) == [];
    match reencode(line)
    case Err(_) =>
    case Ok(b) =>
      assert Splice(e, INSTR_SIZE, b) == DUMMY_FILL + b + [] == DUMMY_FILL + b;
  }
}
