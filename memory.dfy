/** System memory (memory.h, memory.c): a flat array of 0x10000 bytes with
    2-byte and 4-byte accessors that reinterpret the bytes at an address in
    the host's native layout, taken here to be little-endian. */
module Memory {

  import opened Word
  import opened Errors

  // maximum memory address
  const SYSMEM_MAX_ADDR: u16 := 0xFFFF

  // upper memory address bound for the stack (4096 bytes maximum)
  const SYSMEM_STACK_MIN: u16 := 0xF000

  // terminal output line buffer
  const SYSMEM_TERMLB_START: u16 := 0xEF7F
  const SYSMEM_TERMLB_END: u16 := 0xEFFF

  // heap memory
  const SYSMEM_HEAP_START: u16 := 0x4000
  const SYSMEM_HEAP_END: u16 := 0xEF7E

  /** Number of bytes in `sysmem_t.mem`. */
  const MEM_SIZE: int := SYSMEM_MAX_ADDR as int + 1

  /** `memaddr_t` is an unsigned short. */
  type memaddr = u16

  /** The contents of system memory. */
  type Mem = m: seq<u8> | |m| == MEM_SIZE witness seq(MEM_SIZE, _ => 0)

  /** The status every accessor computes before touching memory. The test
      `addr > SYSMEM_MAX_ADDR` is the only one the accessors make. */
  function AccessStatus(addr: memaddr): u8 {
    if addr > SYSMEM_MAX_ADDR then ERR_SMEM_MAXADR else 0
  }

  /** A 2-byte access at `a` stays inside the array. */
  predicate Fits16(a: int) { 0 <= a && a + 2 <= MEM_SIZE }

  /** A 4-byte access at `a` stays inside the array. */
  predicate Fits32(a: int) { 0 <= a && a + 4 <= MEM_SIZE }

  /** Memory after `*((unsigned short*)(mem + a)) = v`. */
  function Store16(m: Mem, a: memaddr, v: u16): Mem
    requires Fits16(a)
  {
    var b := BytesU16(v);
    m[a := b[0]][a + 1 := b[1]]
  }

  /** The value of `*((unsigned short*)(mem + a))`. */
  function Load16(m: Mem, a: memaddr): u16
    requires Fits16(a)
  {
    U16At(m, a)
  }

  /** Memory after `*((float*)(mem + a)) = v`, `v` a 4-byte pattern. */
  function Store32(m: Mem, a: memaddr, v: u32): Mem
    requires Fits32(a)
  {
    var b := BytesU32(v);
    m[a := b[0]][a + 1 := b[1]][a + 2 := b[2]][a + 3 := b[3]]
  }

  /** The 4-byte pattern of `*((float*)(mem + a))`. */
  function Load32(m: Mem, a: memaddr): u32
    requires Fits32(a)
  {
    U32At(m, a)
  }

  /** Byte ranges `[a, a+n)` and `[b, b+k)` do not overlap. */
  predicate Disjoint(a: int, n: int, b: int, k: int) {
    a + n <= b || b + k <= a
  }

  // ----- properties of the accessors -----

  /** The address check of every accessor can never fire: a `memaddr_t`
      is at most SYSMEM_MAX_ADDR. */
  lemma AccessStatusAlwaysZero(addr: memaddr)
    ensures addr <= SYSMEM_MAX_ADDR
    ensures AccessStatus(addr) == 0
  {
  }

  /** The array has exactly SYSMEM_MAX_ADDR + 1 bytes and a 2-byte access
      fits exactly when it starts below 0xFFFF, a 4-byte one when it starts
      at or below 0xFFFC. */
  lemma AccessBounds(a: memaddr)
    ensures MEM_SIZE == 0x1_0000
    ensures Fits16(a) <==> a <= 0xFFFE
    ensures Fits32(a) <==> a <= 0xFFFC
  {
  }

  /** A 2-byte write followed by a 2-byte read at the same address yields
      the written value. */
  lemma Load16Store16(m: Mem, a: memaddr, v: u16)
    requires Fits16(a)
    ensures Load16(Store16(m, a, v), a) == v
  {
  }

  /** A 4-byte write followed by a 4-byte read at the same address yields
      the written pattern. */
  lemma {:induction false} Load32Store32(m: Mem, a: memaddr, v: u32)
    requires Fits32(a)
    ensures Load32(Store32(m, a, v), a) == v
  {
    var m' := Store32(m, a, v);
    assert m'[a..a + 4] == BytesU32(v);
    U32RoundTrip(v);
    assert U32At(m', a) == U32At(BytesU32(v), 0);
  }

  /** A 2-byte write changes bytes `a` and `a+1` and no other. */
  lemma Store16Frame(m: Mem, a: memaddr, v: u16)
    requires Fits16(a)
    ensures Store16(m, a, v)[a..a + 2] == BytesU16(v)
    ensures forall i :: 0 <= i < MEM_SIZE && i != a && i != a + 1 ==> Store16(m, a, v)[i] == m[i]
  {
  }

  /** A 4-byte write changes bytes `a..a+3` and no other. */
  lemma Store32Frame(m: Mem, a: memaddr, v: u32)
    requires Fits32(a)
    ensures Store32(m, a, v)[a..a + 4] == BytesU32(v)
    ensures forall i :: 0 <= i < MEM_SIZE && !(a <= i < a + 4) ==> Store32(m, a, v)[i] == m[i]
  {
  }

  /** Reads of a range that a write does not touch see the old bytes. */
  lemma Load16Store16Disjoint(m: Mem, a: memaddr, v: u16, b: memaddr)
    requires Fits16(a) && Fits16(b) && Disjoint(a, 2, b, 2)
    ensures Load16(Store16(m, a, v), b) == Load16(m, b)
  {
  }

  lemma Load16Store32Disjoint(m: Mem, a: memaddr, v: u32, b: memaddr)
    requires Fits32(a) && Fits16(b) && Disjoint(a, 4, b, 2)
    ensures Load16(Store32(m, a, v), b) == Load16(m, b)
  {
  }

  lemma Load32Store16Disjoint(m: Mem, a: memaddr, v: u16, b: memaddr)
    requires Fits16(a) && Fits32(b) && Disjoint(a, 2, b, 4)
    ensures Load32(Store16(m, a, v), b) == Load32(m, b)
  {
  }

  lemma Load32Store32Disjoint(m: Mem, a: memaddr, v: u32, b: memaddr)
    requires Fits32(a) && Fits32(b) && Disjoint(a, 4, b, 4)
    ensures Load32(Store32(m, a, v), b) == Load32(m, b)
  {
  }

  // ----- the memory map -----

  /** The declared regions are ordered and contiguous: heap, then the
      terminal line buffer, then the stack up to the last address. */
  lemma RegionsContiguous()
    ensures SYSMEM_HEAP_START < SYSMEM_HEAP_END
    ensures SYSMEM_HEAP_END + 1 == SYSMEM_TERMLB_START
    ensures SYSMEM_TERMLB_START < SYSMEM_TERMLB_END
    ensures SYSMEM_TERMLB_END + 1 == SYSMEM_STACK_MIN
    ensures SYSMEM_STACK_MIN < SYSMEM_MAX_ADDR
  {
  }

  /** Sizes of the regions, each counted inclusively. The stack holds the
      4096 bytes its comment announces; the heap and the line buffer are one
      byte larger than their comments' 44926 and 128 (those figures are
      END - START). */
  lemma RegionSizes()
    ensures SYSMEM_MAX_ADDR - SYSMEM_STACK_MIN + 1 == 4096
    ensures SYSMEM_HEAP_END - SYSMEM_HEAP_START + 1 == 44927
    ensures SYSMEM_TERMLB_END - SYSMEM_TERMLB_START + 1 == 129
  {
  }

  /** `sysmem_t`: the byte array, updated in place by the write accessors.
      The ghost field `contents` mirrors the array as a value. */
  class SysMem {
    const mem: array<u8>
    ghost var contents: Mem

    ghost predicate Valid()
      reads this, mem
    {
      mem.Length == MEM_SIZE && mem[..] == contents
    }

    /** The current memory contents. */
    ghost function Contents(): Mem
      reads this
    {
      contents
    }

    /** A memory holding `init`. The C program never clears `sysmem_t`
        (its bytes are whatever the loader or the host left), so the initial
        contents are a parameter. */
    constructor (init: Mem)
      ensures Valid() && fresh(mem)
      ensures Contents() == init
    {
      mem := new u8[MEM_SIZE](i requires 0 <= i < MEM_SIZE => init[i]);
      contents := init;
    }

    /** sysmem_iwrite: store `value` at `addr`, return the status. */
    method IWrite(addr: memaddr, value: u16) returns (status: u8)
      requires Valid()
      requires Fits16(addr)
      modifies this, mem
      ensures Valid()
      ensures status == 0
      ensures Contents() == Store16(old(Contents()), addr, value)
    {
      if addr > SYSMEM_MAX_ADDR {
        status := ERR_SMEM_MAXADR;
        return;
      }
      var b := BytesU16(value);
      mem[addr] := b[0];
      mem[addr + 1] := b[1];
      contents := Store16(contents, addr, value);
      status := 0;
    }

    /** sysmem_iread: the value at `addr` (the C writes it through `dest`). */
    method IRead(addr: memaddr) returns (status: u8, value: u16)
      requires Valid()
      requires Fits16(addr)
      ensures status == 0
      ensures value == Load16(Contents(), addr)
    {
      value := 0;
      if addr > SYSMEM_MAX_ADDR {
        status := ERR_SMEM_MAXADR;
        return;
      }
      value := U16Of(mem[addr], mem[addr + 1]);
      status := 0;
    }

    /** sysmem_fwrite: store the 4-byte pattern `value` at `addr`. */
    method FWrite(addr: memaddr, value: u32) returns (status: u8)
      requires Valid()
      requires Fits32(addr)
      modifies this, mem
      ensures Valid()
      ensures status == 0
      ensures Contents() == Store32(old(Contents()), addr, value)
    {
      if addr > SYSMEM_MAX_ADDR {
        status := ERR_SMEM_MAXADR;
        return;
      }
      var b := BytesU32(value);
      mem[addr] := b[0];
      mem[addr + 1] := b[1];
      mem[addr + 2] := b[2];
      mem[addr + 3] := b[3];
      contents := Store32(contents, addr, value);
      status := 0;
    }

    /** sysmem_fread: the 4-byte pattern at `addr`. */
    method FRead(addr: memaddr) returns (status: u8, value: u32)
      requires Valid()
      requires Fits32(addr)
      ensures status == 0
      ensures value == Load32(Contents(), addr)
    {
      value := 0;
      if addr > SYSMEM_MAX_ADDR {
        status := ERR_SMEM_MAXADR;
        return;
      }
      value := U32Of(mem[addr], mem[addr + 1], mem[addr + 2], mem[addr + 3]);
      status := 0;
    }
  }
}
