# C16 virtual machine — a verified model

C16 is a small 16-bit virtual machine written in C, with an assembler
written in Python. The machine has one CPU core with:

- a status register `stc`;
- three pointer registers: `rpc`, `rsp` and `rbp`;
- five integer registers: `ia0`..`ia3` and the return-value register `irv`;
- five float registers: `fa0`..`fa3` and `frv`.

It has 64 KiB of byte-addressed system memory. Every instruction is
6 bytes. Byte 0 is the opcode, and the operand fields overlap in bytes 1..5.
The loop `exec_main` repeats four steps while the status is 0:

1. fetch the instruction at `rpc`;
2. advance `rpc` by 6;
3. dispatch on the opcode;
4. leave a nonzero status to stop the loop. That status is either an
   error code or the halt sentinel `0xFF`.

The assembler turns text lines into the same 6-byte encoding. It lays the
blocks out, `_main_` first, then the other labels in definition order. It
then patches the instructions that name a label with that label's address,
and computes the instruction-count header.

This project models that core in Dafny in two layers:

- **Functional meaning.** `CpuSpec` gives each CPU handler as a function on
  a `Machine` (registers plus memory). `Instruction.Effect` gives the
  opcode dispatch. `Execution.Run` gives the fetch–execute loop, bounded
  by a number of cycles. `AsmInstruction.Encoding` gives the line encoder
  and `Assembler.Build` gives `buildBinary`.
- **In-place code.** These work the way the source does, and each is proved
  equal to its function:
  - `Memory.SysMem`: the byte array with its read and write accessors;
  - `Cpu.CpuCore`: the register file, updated in place by one method per
    `cpucore_*` handler;
  - `Instruction.Instr`: the 6-byte buffer with `instr_zero`, `instr_fetch`
    and `instr_exec`;
  - `Execution.ExecMain`: the `while` loop of `exec_main`;
  - `AsmInstruction.Encode` and the class `Assembler.Assembler`: the loops
    of the Python encoder and of `buildBinary`.

The lemmas state what the code promises:

- push/pop and write/read round trips;
- which registers each handler may change;
- saturation of `iadd` and `imul`, and wrap-around of `isub`;
- `call` followed by `ret` restores the caller's registers;
- the layout of the call frame;
- which opcodes reach a handler;
- how runs end;
- the exact behaviour of the assembler on well-formed and ill-formed lines.

Modelling conventions:

- Values are unbounded integers constrained to 8, 16 and 32 bits. Every
  C `unsigned short` wrap-around is written out (`Word.Add16`,
  `Word.Sub16`, `Word.Wrap16`).
- Multi-byte memory accesses are little-endian, the layout of the machine
  the C code targets.
- Floats are kept as their 4-byte patterns. A float copy is bit-exact, and
  float arithmetic is a parameter `fpu`.
- The C code has undefined behaviour in a few places: a division by zero,
  a shift by 32 or more, a left shift whose result `a * 2^k` no longer
  fits in a signed `int` (the `unsigned short` operand is promoted to
  `int` first), a 2- or 4-byte access that runs past address
  `0xFFFF`, and an instruction fetch past `0xFFFA`. Each of these is a
  precondition of the handler. `Execution.Run` ends with status
  `Undefined` where the next cycle would reach one.

Behaviour of the code that the model keeps as written:

- **Stack and instruction set.** The stack grows down from `0xFFFF`.
  Conditional jumps and moves compare two registers; there is no compare
  flag. The opcodes are the list of `instruction.h`. No memory bounds
  check can ever fire.
- **`imul` refusal code.** `imul` refuses `rpc`, `rsp` and `rbp` with
  `ERR_IADD_REGNOTALWD`, not with a code of its own.
- **`ERR_ISUB_UNDRFLW`.** `isub` wraps instead of saturating, so this code
  is never produced.
- **Unrecognized push.** `ipush` of an unrecognized register id pushes 0.
  The write's status then overwrites `ERR_UNREC_IREG`, so no error is
  reported.
- **Write status.** `iwtmem`/`fwtmem` drop the write's status.

## Model

| member | source | states |
|---|---|---|
| Word.Wrap16 | cpu.c:98-109 | conversion to unsigned short is the identity on 16-bit values and otherwise differs by a multiple of 2^16 |
| Word.Add16Sub16Wrap | cpu.c:98-109 | the model's 16-bit `+=`/`-=` agree with reduction modulo 2^16 of the exact result |
| Word.Add16Sub16Cancel | cpu.c:98-109 | adding then subtracting the same amount (the `rsp` restore in ipush/ipop) gives the value back, and vice versa |
| Word.BytesU16 | memory.c:13-23 | an unsigned short occupies 2 bytes |
| Word.BytesU32 | memory.c:42-52 | a float occupies 4 bytes |
| Word.U16RoundTrip | memory.c:13-38 | splitting a 16-bit value into little-endian bytes and reading them back gives the value |
| Word.U16BytesRoundTrip | memory.c:27-38 | reading 2 bytes and splitting the value gives the same bytes |
| Word.U32RoundTrip | memory.c:42-67 | splitting a 32-bit pattern into 4 bytes and reading them back gives the pattern |
| Word.U32BytesRoundTrip | memory.c:56-67 | reading 4 bytes and splitting the pattern gives the same bytes |
| Word.Add16 | execution.c:41 | definition of `x += n` on an unsigned short, the sum less 2^16 when it overflows (Word.Add16Sub16Wrap) |
| Word.Sub16 | cpu.c:98-109 | definition of `x -= n` on an unsigned short, the difference plus 2^16 when it goes below 0 (Word.Add16Sub16Wrap, Word.Add16Sub16Cancel) |
| Word.U16Of | memory.c:27-38 | definition of the unsigned short whose bytes, low byte first, are the two given (Word.U16RoundTrip) |
| Word.U32Of | memory.c:56-67 | definition of the 32-bit pattern whose bytes, lowest first, are the four given (Word.U32RoundTrip) |
| Word.U16At | memory.c:27-38 | definition of the little-endian unsigned short read at an index of a byte array (Word.U16BytesRoundTrip) |
| Word.U32At | memory.c:56-67 | definition of the little-endian 4-byte read at an index (Word.U32BytesRoundTrip) |
| Errors.ErrorCodesDistinctNonzero | error.h:14-36 | the 17 status codes are pairwise distinct and none is 0 ("no error") |
| Errors.ErrorBands | error.h:12-36 | every code lies in exactly one band: CPU (up to 0x10), memory (0x41) or instruction (0x51) |
| Errors.CpuBandGap | error.h:26-27 | within 0x01..0x10 every value is a CPU code except 0x0E |
| CpuDefs.IRegNumbering | cpu.h:76-85 | integer register ids run rpc = 0 .. irv = 7; every other byte is unrecognized; id and register are inverse |
| CpuDefs.FRegNumbering | cpu.h:89-95 | float register ids run fa0 = 0 .. frv = 4; every other byte is unrecognized; id and register are inverse |
| CpuDefs.SetIGetI | cpu.h:48-72 | writing an integer register reads it back and changes no other register and not the status |
| CpuDefs.SetFGetF | cpu.h:48-72 | writing a float register reads it back and changes no other register and not the status |
| CpuDefs.SavingConventionCovers | cpu.h:40-47 | every register other than rpc and rsp is either callee- or caller-saved, never both |
| CpuDefs.EndOfExecutionIsNotAnError | cpu.h:22 | the halt sentinel 0xFF is neither 0 nor an error code |
| Memory.AccessStatusAlwaysZero | memory.c:13-67 | the address check of every accessor can never fire on a 16-bit address, so the status is always 0 |
| Memory.AccessBounds | memory.h:40 | memory has 0x10000 bytes; a 2-byte access fits exactly up to 0xFFFE and a 4-byte access up to 0xFFFC |
| Memory.Load16Store16 | memory.c:13-38 | sysmem_iread after sysmem_iwrite at the same address returns the written value |
| Memory.Load32Store32 | memory.c:42-67 | sysmem_fread after sysmem_fwrite at the same address returns the written pattern |
| Memory.Store16Frame | memory.c:13-23 | a 2-byte write puts the little-endian bytes at a and a+1 and changes no other byte |
| Memory.Store32Frame | memory.c:42-52 | a 4-byte write puts the bytes at a..a+3 and changes no other byte |
| Memory.Load16Store16Disjoint | memory.c:13-38 | a 2-byte read is unaffected by a 2-byte write to a disjoint range |
| Memory.Load16Store32Disjoint | memory.c:27-52 | a 2-byte read is unaffected by a 4-byte write to a disjoint range |
| Memory.Load32Store16Disjoint | memory.c:13-23 | a 4-byte read is unaffected by a 2-byte write to a disjoint range |
| Memory.Load32Store32Disjoint | memory.c:42-67 | a 4-byte read is unaffected by a 4-byte write to a disjoint range |
| Memory.RegionsContiguous | memory.h:40-58 | heap, terminal buffer and stack are ordered and adjacent, the stack ending at the last address |
| Memory.RegionSizes | memory.h:40-58 | the stack holds 4096 bytes, the heap 44927 and the terminal buffer 129 |
| Memory.SysMem.constructor | memory.h:66 | the array is fresh and holds the given initial bytes |
| Memory.SysMem.IWrite | memory.c:13-23 | sysmem_iwrite returns status 0 and the memory becomes the old memory with the value stored at addr |
| Memory.SysMem.IRead | memory.c:27-38 | sysmem_iread returns status 0 and the little-endian value at addr |
| Memory.SysMem.FWrite | memory.c:42-52 | sysmem_fwrite returns status 0 and the memory becomes the old memory with the pattern stored at addr |
| Memory.SysMem.FRead | memory.c:56-67 | sysmem_fread returns status 0 and the 4-byte pattern at addr |
| Memory.Store16 | memory.c:13-23 | definition of the 2-byte write: the little-endian bytes of v at a and a+1 (Memory.Store16Frame, Memory.Load16Store16) |
| Memory.Load16 | memory.c:27-38 | definition of the 2-byte read: the little-endian value at a |
| Memory.Store32 | memory.c:42-52 | definition of the 4-byte write of a float pattern (Memory.Store32Frame, Memory.Load32Store32) |
| Memory.Load32 | memory.c:56-67 | definition of the 4-byte read |
| CpuSpec.IPush | cpu.c:98-109 | rsp ends 2 lower, except when pushing rsp, which is refused and leaves rsp as it was |
| CpuSpec.IPop | cpu.c:113-153 | rsp ends 2 higher for a recognized register other than rsp, and is unchanged for rsp or an unrecognized id |
| CpuSpec.FPush | cpu.c:157-161 | rsp ends 4 lower whatever the id |
| CpuSpec.FPop | cpu.c:165-192 | rsp ends 4 higher for a recognized id and is unchanged otherwise |
| CpuSpec.ApplyOp | cpu.c:98-192 | each push or pop moves rsp as its handler does |
| CpuSpec.RunOpsSplit | cpu.c:874-910 | a sequence of stack operations is its first operation followed by the rest |
| CpuSpec.RunOpsCompose | cpu.c:874-910 | running ops i..k is running i..j then j..k |
| CpuSpec.GetIRegV | cpu.c:38-69 | definition of cpucore_getiregv: a recognized id reads its register and changes nothing; any other id reads 0 and sets ERR_UNREC_IREG (CpuProps.GetIRegVCases) |
| CpuSpec.GetFRegV | cpu.c:74-91 | definition of cpucore_getfregv: likewise for fa0..frv and ERR_UNREC_FREG (CpuProps.GetFRegVCases) |
| CpuSpec.StoreGeneral | cpu.c:340-371 | definition of the destination switch shared by the bitwise, imul/idiv/imod, immediate and move handlers: rpc, rsp, rbp refused with the handler's code, ia0..irv written, anything else ERR_UNREC_IREG |
| CpuSpec.StoreArith | cpu.c:558-602 | definition of the destination switch of iadd and isub: only rpc refused, rsp and rbp writable |
| CpuSpec.ShiftRight | cpu.c:480 | definition of `(unsigned short)(a >> k)` on the int-promoted operand, defined for k below 32 |
| CpuSpec.Pow2 | cpu.c:514 | definition of 2^k, the factor a left shift multiplies by |
| CpuSpec.LeftShiftDefined | cpu.c:514 | definition of when `a << k` on the int-promoted operand is defined in C: k below 32 and a * 2^k at most INT_MAX (CpuProps.ShortShiftsDefined, CpuProps.LeftShiftLimits) |
| CpuSpec.ShiftLeft | cpu.c:514 | definition of `(unsigned short)(a << k)`: a * 2^k truncated to 16 bits, only where the shift is defined |
| CpuSpec.IRdMem | cpu.c:198-229 | definition of cpucore_irdmem: any recognized register, rpc and rsp included, gets the little-endian value at addr and the access status; an unknown id only sets ERR_UNREC_IREG |
| CpuSpec.IWtMem | cpu.c:232-234 | definition of cpucore_iwtmem: the register's value is stored at addr, the write's status is dropped |
| CpuSpec.FRdMem | cpu.c:237-259 | definition of cpucore_frdmem: a recognized float register gets the 4-byte pattern at addr; an unknown id only sets ERR_UNREC_FREG |
| CpuSpec.FWtMem | cpu.c:262-264 | definition of cpucore_fwtmem: the float register's pattern is stored at addr |
| CpuSpec.Jmp | cpu.c:270-278 | definition of cpucore_jmp: rpc becomes the address; the bound check cannot fire |
| CpuSpec.CondJump | cpu.c:281-333 | definition of cpucore_ij{eq,gt,ge,lt,le}: the same register twice is ERR_IREG_CMPTOSELF; otherwise jump when the unsigned comparison holds (CpuProps.CondJumpTaken) |
| CpuSpec.And | cpu.c:340-371 | definition of cpucore_and: d gets d & s through the general destination switch |
| CpuSpec.Or | cpu.c:375-406 | definition of cpucore_or: d gets the bitwise or of d and s |
| CpuSpec.Xor | cpu.c:410-441 | definition of cpucore_xor: d gets d ^ s (CpuProps.XorSelfClears) |
| CpuSpec.Not | cpu.c:445-476 | definition of cpucore_not: d gets ~d |
| CpuSpec.RShift | cpu.c:479-510 | definition of cpucore_rshift: d gets d >> k, for k below 32 |
| CpuSpec.LShift | cpu.c:513-544 | definition of cpucore_lshift: d gets d << k truncated to 16 bits, where C defines the shift |
| CpuSpec.IAdd | cpu.c:558-602 | definition of cpucore_iadd: the unsigned sum, saturated at 0xFFFF with ERR_IADD_OVRFLW, through the iadd/isub destination switch |
| CpuSpec.ISub | cpu.c:606-642 | definition of cpucore_isub: the difference wrapped to 16 bits |
| CpuSpec.Product | cpu.c:650-651 | definition of the product computed in unsigned int, which never wraps for two 16-bit factors |
| CpuSpec.IMul | cpu.c:646-686 | definition of cpucore_imul: the product saturated at 0xFFFF with ERR_IMUL_OVRFLW, refusing pointers with ERR_IADD_REGNOTALWD |
| CpuSpec.IDiv | cpu.c:690-721 | definition of cpucore_idiv: the unsigned quotient, for a nonzero divisor (CpuProps.IDivIModDivide) |
| CpuSpec.IMod | cpu.c:725-756 | definition of cpucore_imod: the unsigned remainder, for a nonzero divisor (CpuProps.IDivIModDivide) |
| CpuSpec.FArithmetic | cpu.c:763-865 | definition of cpucore_f{add,sub,mul,div}: d gets fpu(op, d, s), an unknown d sets ERR_UNREC_FREG (CpuProps.FArithmeticRouting) |
| CpuSpec.Call | cpu.c:874-889 | definition of cpucore_call: the ten pushes of CallPushes, then a jump to the address |
| CpuSpec.Ret | cpu.c:895-910 | definition of cpucore_ret: the ten pops of RetPops |
| CpuSpec.ISetR | cpu.c:916-946 | definition of cpucore_isetr: d gets the immediate through the general destination switch |
| CpuSpec.FSetR | cpu.c:949-970 | definition of cpucore_fsetr: a recognized float register gets the pattern, otherwise ERR_UNREC_FREG |
| CpuSpec.IMov | cpu.c:976-1007 | definition of cpucore_imov: dst gets src's value through the general destination switch |
| CpuSpec.FMov | cpu.c:1010-1032 | definition of cpucore_fmov: dst gets src's pattern (CpuProps.FMovCopies) |
| CpuSpec.CondMove | cpu.c:1035-1092 | definition of cpucore_imv{eq,ne,lt,le,gt,ge}: the same compared register twice is ERR_IREG_CMPTOSELF; otherwise imov when the comparison holds |
| CpuSpec.Init | cpu.c:17-33 | definition of the registers after cpucore_init: status 0, rpc at RPC_INIT, rsp and rbp at RSP_INIT, the rest 0 (Cpu.CpuCore.constructor) |
| Cpu.CpuCore.constructor | cpu.c:17-33 | cpucore_init: status 0, rpc = 0, rsp and rbp = 0xFFFF, every other register 0 |
| Cpu.CpuCore.GetIRegV | cpu.c:38-69 | cpucore_getiregv returns the register's value, or 0 with ERR_UNREC_IREG for an unknown id (the functional meaning) |
| Cpu.CpuCore.GetFRegV | cpu.c:74-91 | cpucore_getfregv returns the float register's pattern, or 0 with ERR_UNREC_FREG |
| Cpu.CpuCore.StoreGeneral | cpu.c:340-371 | the shared destination switch: the new registers are the specification's StoreGeneral of the old |
| Cpu.CpuCore.StoreArith | cpu.c:558-602 | the destination switch of iadd/isub, only rpc refused |
| Cpu.CpuCore.StoreF | cpu.c:763-786 | the float destination switch of the float handlers |
| Cpu.CpuCore.PutIReg | cpu.c:113-153 | one case of the ipop switch: register x gets the value |
| Cpu.CpuCore.PutFReg | cpu.c:165-192 | one case of the fpop switch: float register x gets the pattern |
| Cpu.CpuCore.IPush | cpu.c:98-109 | registers and memory afterwards are CpuSpec.IPush of those before |
| Cpu.CpuCore.IPop | cpu.c:113-153 | registers and memory afterwards are CpuSpec.IPop of those before |
| Cpu.CpuCore.FPush | cpu.c:157-161 | registers and memory afterwards are CpuSpec.FPush of those before |
| Cpu.CpuCore.FPop | cpu.c:165-192 | registers and memory afterwards are CpuSpec.FPop of those before |
| Cpu.CpuCore.IRdMem | cpu.c:198-229 | cpucore_irdmem agrees with CpuSpec.IRdMem |
| Cpu.CpuCore.IWtMem | cpu.c:232-234 | cpucore_iwtmem agrees with CpuSpec.IWtMem |
| Cpu.CpuCore.FRdMem | cpu.c:237-259 | cpucore_frdmem agrees with CpuSpec.FRdMem |
| Cpu.CpuCore.FWtMem | cpu.c:262-264 | cpucore_fwtmem agrees with CpuSpec.FWtMem |
| Cpu.CpuCore.Jmp | cpu.c:270-278 | cpucore_jmp agrees with CpuSpec.Jmp |
| Cpu.CpuCore.IJeq | cpu.c:281-289 | cpucore_ijeq agrees with CpuSpec.CondJump for EQ |
| Cpu.CpuCore.IJgt | cpu.c:292-300 | cpucore_ijgt agrees with CpuSpec.CondJump for GT |
| Cpu.CpuCore.IJge | cpu.c:303-311 | cpucore_ijge agrees with CpuSpec.CondJump for GE |
| Cpu.CpuCore.IJlt | cpu.c:314-322 | cpucore_ijlt agrees with CpuSpec.CondJump for LT |
| Cpu.CpuCore.IJle | cpu.c:325-333 | cpucore_ijle agrees with CpuSpec.CondJump for LE |
| Cpu.CpuCore.And | cpu.c:340-371 | cpucore_and agrees with CpuSpec.And |
| Cpu.CpuCore.Or | cpu.c:375-406 | cpucore_or agrees with CpuSpec.Or |
| Cpu.CpuCore.Xor | cpu.c:410-441 | cpucore_xor agrees with CpuSpec.Xor |
| Cpu.CpuCore.Not | cpu.c:445-476 | cpucore_not agrees with CpuSpec.Not |
| Cpu.CpuCore.RShift | cpu.c:479-510 | cpucore_rshift agrees with CpuSpec.RShift |
| Cpu.CpuCore.LShift | cpu.c:513-544 | cpucore_lshift agrees with CpuSpec.LShift |
| Cpu.CpuCore.IAdd | cpu.c:558-602 | cpucore_iadd agrees with CpuSpec.IAdd |
| Cpu.CpuCore.ISub | cpu.c:606-642 | cpucore_isub agrees with CpuSpec.ISub |
| Cpu.CpuCore.IMul | cpu.c:646-686 | cpucore_imul agrees with CpuSpec.IMul |
| Cpu.CpuCore.IDiv | cpu.c:690-721 | cpucore_idiv agrees with CpuSpec.IDiv |
| Cpu.CpuCore.IMod | cpu.c:725-756 | cpucore_imod agrees with CpuSpec.IMod |
| Cpu.CpuCore.FAdd | cpu.c:763-786 | cpucore_fadd agrees with CpuSpec.FArithmetic for addition |
| Cpu.CpuCore.FSub | cpu.c:790-812 | cpucore_fsub agrees with CpuSpec.FArithmetic for subtraction |
| Cpu.CpuCore.FMul | cpu.c:816-839 | cpucore_fmul agrees with CpuSpec.FArithmetic for multiplication |
| Cpu.CpuCore.FDiv | cpu.c:843-865 | cpucore_fdiv agrees with CpuSpec.FArithmetic for division |
| Cpu.CpuCore.SaveIntegerRegisters | cpu.c:876-881 | the five integer pushes of call are the first five operations of CallPushes |
| Cpu.CpuCore.SaveFloatRegisters | cpu.c:882-885 | the four float pushes of call are operations 5..8 of CallPushes |
| Cpu.CpuCore.Call | cpu.c:874-889 | cpucore_call agrees with CpuSpec.Call |
| Cpu.CpuCore.RestoreFloatRegisters | cpu.c:900-903 | the four float pops of ret are operations 1..4 of RetPops |
| Cpu.CpuCore.RestoreIntegerRegisters | cpu.c:904-909 | the five integer pops of ret are operations 5..9 of RetPops |
| Cpu.CpuCore.Ret | cpu.c:895-910 | cpucore_ret agrees with CpuSpec.Ret |
| Cpu.CpuCore.ISetR | cpu.c:916-946 | cpucore_isetr agrees with CpuSpec.ISetR |
| Cpu.CpuCore.FSetR | cpu.c:949-970 | cpucore_fsetr agrees with CpuSpec.FSetR |
| Cpu.CpuCore.IMov | cpu.c:976-1007 | cpucore_imov agrees with CpuSpec.IMov |
| Cpu.CpuCore.FMov | cpu.c:1010-1032 | cpucore_fmov agrees with CpuSpec.FMov |
| Cpu.CpuCore.IMvEq | cpu.c:1035-1042 | cpucore_imveq agrees with CpuSpec.CondMove for EQ |
| Cpu.CpuCore.IMvNe | cpu.c:1045-1052 | cpucore_imvne agrees with CpuSpec.CondMove for NE |
| Cpu.CpuCore.IMvLt | cpu.c:1055-1062 | cpucore_imvlt agrees with CpuSpec.CondMove for LT |
| Cpu.CpuCore.IMvLe | cpu.c:1065-1072 | cpucore_imvle agrees with CpuSpec.CondMove for LE |
| Cpu.CpuCore.IMvGt | cpu.c:1075-1082 | cpucore_imvgt agrees with CpuSpec.CondMove for GT |
| Cpu.CpuCore.IMvGe | cpu.c:1085-1092 | cpucore_imvge agrees with CpuSpec.CondMove for GE |
| CpuProps.GetIRegVCases | cpu.c:38-69 | a recognized id reads its register and changes nothing; any other id reads 0 and sets ERR_UNREC_IREG |
| CpuProps.GetFRegVCases | cpu.c:74-91 | a recognized float id reads its register; any other reads 0 and sets ERR_UNREC_FREG |
| CpuProps.IPushEffect | cpu.c:98-109 | pushing a recognized register other than rsp lowers rsp by 2, stores its value there, sets status 0 and changes nothing else |
| CpuProps.IPushRspRefused | cpu.c:100-104 | pushing rsp only sets ERR_IPUSH_RSP; rsp and memory are unchanged |
| CpuProps.IPushUnrecognized | cpu.c:98-109 | pushing an unrecognized id pushes 0 and ends with status 0 |
| CpuProps.IPopEffect | cpu.c:113-153 | popping a recognized register other than rsp loads the 2 bytes at rsp, raises rsp by 2, sets status 0 and leaves memory |
| CpuProps.IPopRefused | cpu.c:115-120 | popping rsp or an unrecognized id sets the error and leaves every register, rsp included, and memory |
| CpuProps.IPushPop | cpu.c:98-153 | `ipush a; ipop b` copies register a into b with status 0 and rsp restored |
| CpuProps.IPushPopRoundTrip | cpu.c:98-153 | pushing and popping the same register restores the whole register file up to the status |
| CpuProps.FPushEffect | cpu.c:157-161 | fpush lowers rsp by 4, stores the pattern (0 for an unknown id) and sets status 0 |
| CpuProps.FPopEffect | cpu.c:165-192 | fpop of a recognized id loads 4 bytes and raises rsp by 4; an unknown id only sets ERR_UNREC_FREG; memory unchanged |
| CpuProps.FPushPopRoundTrip | cpu.c:157-192 | pushing and popping the same float register restores the register file up to the status |
| CpuProps.IWtMemRdMem | cpu.c:198-234 | iwtmem then irdmem at the same address copies register a into b |
| CpuProps.FWtMemRdMem | cpu.c:237-264 | fwtmem then frdmem at the same address copies float register a into b |
| CpuProps.WtMemKeepsStatus | cpu.c:232-264 | writing a recognized register to memory leaves the whole register file, status included |
| CpuProps.IRdMemPointers | cpu.c:198-229 | irdmem may load rsp and rpc |
| CpuProps.JmpAlwaysTaken | cpu.c:270-278 | the jump's address check never fires; jmp always sets rpc |
| CpuProps.CondJumpTaken | cpu.c:281-333 | a conditional jump on distinct recognized registers sets rpc exactly when the comparison holds, and leaves the status |
| CpuProps.CondJumpUnknown | cpu.c:281-333 | with an unrecognized comparand, the status becomes ERR_UNREC_IREG, that comparand reads as 0, and the jump still happens exactly when the comparison holds |
| CpuProps.CondJumpSelf | cpu.c:281-289 | comparing a register with itself only sets ERR_IREG_CMPTOSELF |
| CpuProps.CondsComplement | cpu.c:281-333 | ne, ge and gt are the negations of eq, lt and le, and gt is lt with the operands swapped |
| CpuProps.StoreGeneralCases | cpu.c:340-371 | destinations rpc/rsp/rbp are refused with the handler's code, ia0..irv receive the value, others are unrecognized; no pointer changes |
| CpuProps.StoreArithCases | cpu.c:558-602 | iadd and isub refuse only rpc; rsp and rbp are legal destinations |
| CpuProps.Read2Status | cpu.c:340-371 | the two operand reads change nothing but possibly set ERR_UNREC_IREG |
| CpuProps.BitwisePointersProtected | cpu.c:340-544 | and, or, xor, not and the shifts never change rpc, rsp or rbp |
| CpuProps.ShortShiftsDefined | cpu.c:514 | a left shift by at most 15 is defined for every 16-bit operand |
| CpuProps.LeftShiftLimits | cpu.c:514 | 0x8000 shifted by 16 and 1 shifted by 31 are undefined; 0x7FFF shifted by 16 is defined and truncates to 0 |
| CpuProps.ArithPointersProtected | cpu.c:646-756 | imul, idiv and imod never change rpc, rsp or rbp |
| CpuProps.IMulPointersProtected | cpu.c:646-686 | imul never changes rpc, rsp or rbp |
| CpuProps.IDivPointersProtected | cpu.c:690-756 | idiv and imod never change rpc, rsp or rbp |
| CpuProps.MovePointersProtected | cpu.c:916-1092 | isetr, imov and the conditional moves never change rpc, rsp or rbp |
| CpuProps.IAddSaturates | cpu.c:558-602 | iadd stores the sum saturated at 0xFFFF and sets ERR_IADD_OVRFLW exactly when it overflows |
| CpuProps.IAddIntoRpc | cpu.c:558-602 | iadd into rpc is refused with ERR_IADD_REGNOTALWD, which replaces any overflow code |
| CpuProps.ISubWraps | cpu.c:606-642 | isub stores the difference modulo 2^16 and leaves the status |
| CpuProps.ISubNeverUnderflows | cpu.c:606-642 | isub never produces ERR_ISUB_UNDRFLW |
| CpuProps.IMulSaturates | cpu.c:646-686 | imul stores the product saturated at 0xFFFF and flags ERR_IMUL_OVRFLW exactly on overflow |
| CpuProps.IMulRefusal | cpu.c:646-686 | imul refuses rpc, rsp and rbp with iadd's code ERR_IADD_REGNOTALWD |
| CpuProps.IDivModStore | cpu.c:690-756 | idiv and imod store the unsigned quotient and remainder |
| CpuProps.IDivIModDivide | cpu.c:690-756 | what idiv and imod leave in d from the same state recombine to the old d: quotient times divisor plus remainder, with the remainder below the divisor |
| CpuProps.FArithmeticRouting | cpu.c:763-865 | a float operation stores fpu(op, d, s) in d and nothing else; an unknown destination only sets ERR_UNREC_FREG |
| CpuProps.FArithmeticUnknownSource | cpu.c:763-786 | an unknown float source reads as 0, sets ERR_UNREC_FREG, and the operation still runs |
| CpuProps.IMovCopies | cpu.c:976-1007 | imov into ia0..irv copies the source value |
| CpuProps.CondMoveTaken | cpu.c:1035-1092 | a conditional move on distinct comparands moves exactly when the comparison holds |
| CpuProps.CondMoveUnknown | cpu.c:1035-1092 | with an unrecognized comparand, the status becomes ERR_UNREC_IREG, that comparand reads as 0, and the move still happens exactly when the comparison holds |
| CpuProps.CondMoveSelf | cpu.c:1035-1042 | comparing a register with itself only sets ERR_IREG_CMPTOSELF |
| CpuProps.FMovCopies | cpu.c:949-1032 | fmov copies and fsetr sets a recognized float register |
| CpuProps.XorSelfClears | cpu.c:410-441 | `xor d d` sets a writable d to 0 and changes nothing else; on rpc, rsp, rbp or an unknown id it only sets the error |
| CallRet.PushStep | cpu.c:98-161 | one push below rsp lowers rsp by its size, sets status 0, saves the register in the slot and changes no byte outside it |
| CallRet.PushesRegs | cpu.c:874-889 | a run of pushes lowers rsp by the bytes needed and clears the status |
| CallRet.PushesFrame | cpu.c:874-889 | a run of pushes changes no byte outside the pushed range |
| CallRet.PushesSaved | cpu.c:874-889 | in a run of pushes each value lands in its own slot below the earlier ones |
| CallRet.SavedIsFrame | cpu.c:874-889 | the ten saved slots make up the frame |
| CallRet.CallPushesFit | cpu.c:874-889 | call's ten pushes need exactly 28 bytes |
| CallRet.CallOffsetsLow | cpu.c:876-880 | the integer pushes of call land 2, 4, 6, 8 and 10 bytes below the caller's rsp |
| CallRet.CallOffsetsHigh | cpu.c:882-887 | the float pushes land 14, 18, 22 and 26 bytes below, and rpc 28 bytes below |
| CallRet.CallSlotsAreFrame | cpu.c:874-889 | the slots call fills make up the frame |
| CallRet.CallRegs | cpu.c:874-889 | call lowers rsp by 28, clears the status, sets rpc to the target and keeps every other register |
| CallRet.CallFrame | cpu.c:874-889 | below the caller's rsp, call leaves the caller's registers in the frame, the return address at the callee's rsp |
| CallRet.CallKeepsRest | cpu.c:874-889 | call changes no byte outside the 28 below the caller's rsp |
| CallRet.PopStep | cpu.c:113-192 | one pop raises rsp by its size, sets status 0, loads its register from the slot and changes nothing else |
| CallRet.PopsRegs | cpu.c:895-910 | a run of pops raises rsp by the bytes needed, clears the status and leaves memory |
| CallRet.PopsUntouched | cpu.c:895-910 | a run of pops leaves every register it does not pop |
| CallRet.PopsRestored | cpu.c:895-910 | a register no later pop overwrites ends with the bytes of its slot |
| CallRet.RetPopsFit | cpu.c:895-910 | ret's ten pops need 28 bytes and pop each register once |
| CallRet.RetOffsets | cpu.c:898-909 | where each pop of ret reads, counted up from the callee's rsp |
| CallRet.RestoredSlots | cpu.c:895-910 | registers holding every slot's bytes are those the frame describes |
| CallRet.RetSlots | cpu.c:895-910 | after ret every popped register holds the bytes of its slot |
| CallRet.RetKeeps | cpu.c:895-910 | ret raises rsp by 28, clears the status and leaves memory |
| CallRet.RetKeepsReturnValues | cpu.c:895-910 | ret leaves irv and frv as the callee left them |
| CallRet.RetEffect | cpu.c:895-910 | ret loads the ten registers from the frame and changes nothing else |
| CallRet.RetRestoresCaller | cpu.c:874-910 | ret over a frame of the caller's registers restores all of them except irv and frv |
| CallRet.CallThenRet | cpu.c:874-910 | call immediately followed by ret restores every register up to the status |
| CallRet.CallSavesCalleeSavedI | cpu.h:40-47 | call saves exactly the integer registers documented as callee-saved, plus rpc |
| CallRet.CallSavesCalleeSavedF | cpu.h:40-47 | call saves exactly the float registers documented as callee-saved |
| CallRet.RetMirrorsCall | cpu.c:874-910 | ret pops the registers call pushes, in reverse order |
| Instruction.OpcodesContiguous | instruction.h:60-115 | the opcode enum runs contiguously from NOOP = 0x00 to HALT = 0x2A |
| Instruction.FieldLayout | instruction.h:33-56 | the short fields S0..S2 span bytes R0R1, R1R2, R2R3 and F spans bytes 2..5 starting with S1 |
| Instruction.ShiftAmountIsR1 | instruction.c:98-103 | the shift amount, the low byte of S1, is byte R1 |
| Instruction.R0 | instruction.h:49 | definition of INSTR_R0, byte 1 of the instruction (Instruction.FieldLayout) |
| Instruction.R1 | instruction.h:50 | definition of INSTR_R1, byte 2 |
| Instruction.R2 | instruction.h:51 | definition of INSTR_R2, byte 3 |
| Instruction.R3 | instruction.h:52 | definition of INSTR_R3, byte 4 |
| Instruction.S0 | instruction.h:53 | definition of INSTR_S0, the little-endian unsigned short at byte 1 (Instruction.FieldLayout) |
| Instruction.S1 | instruction.h:54 | definition of INSTR_S1, the unsigned short at byte 2 |
| Instruction.S2 | instruction.h:55 | definition of INSTR_S2, the unsigned short at byte 3 |
| Instruction.F | instruction.h:56 | definition of INSTR_F, the 4-byte float pattern at byte 2 |
| Instruction.ShiftAmount | instruction.c:98-103 | definition of the shift amount: S1 passed to an `unsigned char` parameter, so S1 modulo 256 (Instruction.ShiftAmountIsR1) |
| Instruction.NoopChangesNothing | instruction.c:34-35 | NOOP changes nothing |
| Instruction.HaltOnlySetsSentinel | instruction.c:153-155 | HALT sets the halt sentinel and changes nothing else |
| Instruction.CallDispatch | instruction.c:137-139 | CALL runs cpucore_call with the address S0 |
| Instruction.UndispatchedOpcodes | instruction.c:29-162 | exactly IMOV..IMGE and bytes past HALT reach the default case, which only sets ERR_UNREC_INSTR |
| Instruction.OnlyWritersWriteMemory | instruction.c:29-162 | only IPSH, FPSH, IWTM, FWTM and CALL change memory |
| Instruction.CallRetKeepsMemory | instruction.c:140-142 | RET only reads memory |
| Instruction.PopsKeepMemory | cpu.c:113-192 | a run of pops leaves memory |
| Instruction.KeepsRpc | instruction.c:29-162 | every instruction but a jump, call, ret, ipop or irdmem leaves rpc as the loop set it |
| Instruction.StackKeepsRpc | instruction.c:38-49 | ipsh, fpsh and fpop leave rpc |
| Instruction.BitwiseKeepsRpc | instruction.c:86-103 | the bitwise instructions leave rpc |
| Instruction.IntegerKeepsRpc | instruction.c:106-120 | the integer arithmetic instructions leave rpc |
| Instruction.StackCase | instruction.c:38-49 | the stack cases of the switch agree with ExecStack |
| Instruction.MemoryCase | instruction.c:52-63 | the memory cases agree with ExecMemory |
| Instruction.JumpCase | instruction.c:66-83 | the jump cases agree with ExecJump |
| Instruction.BitwiseCase | instruction.c:86-103 | the bitwise cases agree with ExecBitwise |
| Instruction.IntegerCase | instruction.c:106-120 | the integer cases agree with ExecInteger |
| Instruction.FloatCase | instruction.c:123-134 | the float cases agree with ExecFloat |
| Instruction.CallRetCase | instruction.c:137-142 | the call and return cases agree with ExecCallRet |
| Instruction.ImmediateCase | instruction.c:145-150 | the immediate cases agree with ExecImmediate |
| Instruction.Defined | instruction.c:29-162 | definition of what instr_exec needs to stay clear of undefined behaviour: stack and memory accesses inside memory, shifts C defines, nonzero divisors, room for call and ret |
| Instruction.ExecStack | instruction.c:38-49 | definition of the stack cases: register R0 |
| Instruction.ExecMemory | instruction.c:52-63 | definition of the memory cases: register R0, address S1 |
| Instruction.ExecJump | instruction.c:66-83 | definition of the jump cases: JUMP to S0, conditional jumps compare R0 and R1 and go to S2 |
| Instruction.ExecBitwise | instruction.c:86-103 | definition of the bitwise cases: registers R0 and R1, shift amount S1 cut to a byte |
| Instruction.ExecInteger | instruction.c:106-120 | definition of the integer arithmetic cases on R0 and R1 |
| Instruction.ExecFloat | instruction.c:123-134 | definition of the float arithmetic cases on R0 and R1 |
| Instruction.ExecCallRet | instruction.c:137-142 | definition of the call and return cases: CALL to S0 |
| Instruction.ExecImmediate | instruction.c:145-150 | definition of the immediate cases: ISET takes S1, FSET the pattern F |
| Instruction.Effect | instruction.c:29-162 | definition of instr_exec: the handler of byte 0, HALT sets the sentinel, every opcode without a case sets ERR_UNREC_INSTR (Instruction.Instr.Exec, Instruction.UndispatchedOpcodes) |
| Instruction.Instr.constructor | instruction.h:22 | a fresh 6-byte buffer |
| Instruction.Instr.Zero | instruction.c:13-17 | instr_zero sets all 6 bytes to 0 |
| Instruction.Instr.Fetch | instruction.c:21-25 | instr_fetch copies the 6 bytes at addr and only reads memory |
| Instruction.Instr.Exec | instruction.c:29-162 | instr_exec leaves the buffer and produces Effect of the old state |
| Execution.ExecMain | execution.c:21-43 | the loop ends in Run's final state, with Run's cycle count |
| Execution.FetchAt | instruction.c:21-25 | definition of the 6 bytes an instruction fetch copies |
| Execution.Advance | execution.c:41 | definition of rpc moving one instruction on, as an unsigned short sum |
| Execution.CanStep | execution.c:32-42 | definition of a cycle clear of undefined behaviour: the fetch and the instruction stay inside memory |
| Execution.Step | execution.c:32-42 | definition of one cycle: fetch at rpc, advance rpc, execute (Execution.Cycle) |
| Execution.Run | execution.c:27-43 | definition of the loop `while (!cpu->stc)` for at most a bound of cycles (Execution.RunOutcome, Execution.ExecMain) |
| Execution.Cycle | execution.c:32-42 | one iteration of the loop body is Step |
| Execution.RunCycle | execution.c:27-43 | one more cycle keeps the loop invariant |
| Execution.RunEnded | execution.c:27 | at loop exit the outcome is the exit state |
| Execution.RunStep | execution.c:27-43 | a run from status 0 is one cycle followed by the rest |
| Execution.RunDefined | execution.c:27-43 | a defined run can take its first cycle |
| Execution.RunOutcome | execution.c:27 | a run stops exactly with a nonzero status; cycles never exceed the bound; nonzero status stops at once |
| Execution.ErrorsEndTheRun | execution.c:27 | every error code, and the halt sentinel, ends the loop with no further cycle |
| Execution.MoreFuelSameStop | execution.c:27-43 | once a run has stopped, a larger bound gives the same outcome |
| Execution.CallPushesReturnAddress | execution.c:41-42 | the cycle of a CALL saves the caller's registers with rpc already advanced, so the return address is the next instruction |
| Execution.CallStep | execution.c:41-42 | the cycle of a CALL is cpucore_call from the advanced state |
| Execution.JumpToSelfNeverStops | execution.c:27-43 | a JUMP to its own address leaves the state unchanged, so every bound runs out |
| Execution.StraightLineHalts | execution.c:27-43 | straight-line instructions followed by HALT stop after k+1 cycles with rpc past the HALT |
| Execution.StraightRun | execution.c:41 | a straight cycle advances rpc by one instruction |
| Execution.HaltRun | instruction.c:153-155 | a run starting at a HALT stops after one cycle with the sentinel |
| Execution.HaltStep | execution.c:41-42 | the cycle of a HALT sets the sentinel and only advances rpc |
| Execution.NoopsThenHalt | execution.c:21-43 | k NOOPs and a HALT at address 0 stop after k+1 cycles with rpc at 6(k+1) |
| Execution.NoopsAreStraight | instruction.c:34-35 | a program of NOOPs is straight-line |
| PyText.DropSpaces | C16_assembler.py:164 | the result is a suffix of the input without a leading separator |
| PyText.WordLength | C16_assembler.py:164 | the first word is a run of non-separators ended by a separator or the end |
| PyText.Split | C16_assembler.py:164 | `str.split()` gives non-empty tokens without separators |
| PyText.SplitSpace | C16_assembler.py:164 | a leading separator does not change the split |
| PyText.SplitWord | C16_assembler.py:164 | a word followed by a separator splits off as the first token |
| PyText.SplitJoin | C16_assembler.py:164 | splitting undoes joining words with single spaces |
| PyText.LStrip | C16_assembler.py:179 | `lstrip(c)` removes exactly the leading copies of c |
| PyText.HexDigitValue | C16_assembler.py:179 | a hexadecimal digit has a value below 16 |
| PyText.FromHexLength | C16_assembler.py:179 | `bytearray.fromhex` without whitespace decodes two digits per byte and refuses an odd count |
| PyText.HexDigit | C16_assembler.py:286 | the digit for v decodes to v |
| PyText.HexDigits | C16_assembler.py:286 | the digits of `hex(n)` are non-empty hexadecimal digits |
| PyText.HexDigitsValue | C16_assembler.py:286 | the digits of `hex(n)` decode to n with no leading zero |
| PyText.HexDigitCount | C16_assembler.py:305 | `hex(n)` has 1, 2, 3 or 4 digits below 16, 256, 4096 and 65536 |
| PyText.HexDigitsSplit | C16_assembler.py:305 | from 256 on, the last two digits of `hex(n)` are the pair of the low byte |
| PyText.EvenDigitsDecode | C16_assembler.py:305-308 | an even number of hexadecimal digits always decodes, to half as many bytes |
| PyText.FromHexPair | C16_assembler.py:308 | two digits decode to the byte they spell, in front of the rest |
| PyText.PairDecode | C16_assembler.py:308 | the two digits of a byte decode to that byte |
| PyText.ReplaceSuffix | C16_assembler.py:299 | `str.replace` on a pattern that occurs only as the suffix rewrites only the suffix |
| PyText.FromHex | C16_assembler.py:179 | definition of `bytearray.fromhex`: pairs of hexadecimal digits high digit first, whitespace between pairs, anything else a ValueError (PyText.FromHexLength) |
| PyText.Hex | C16_assembler.py:286 | `hex(n)`: "0x" and the digits of n with no leading zero |
| PyText.Replace | C16_assembler.py:299 | definition of `str.replace`: every occurrence replaced, left to right without overlaps (PyText.ReplaceSuffix) |
| AsmInstruction.Zeros | C16_assembler.py:183-184 | n zero bytes |
| AsmInstruction.Encode | C16_assembler.py:153-184 | Instruction.__init__ returns the Encoding of the line |
| AsmInstruction.EncodeFields | C16_assembler.py:171-184 | the field loop and padding give Assemble |
| AsmInstruction.PadToSize | C16_assembler.py:183-184 | the padding loop gives Pad |
| AsmInstruction.EncodeField | C16_assembler.py:173-181 | one field's bytes are FieldBytes |
| AsmInstruction.OperandsErrorSticks | C16_assembler.py:172-181 | the first failing field decides the error of the line |
| AsmInstruction.TablesAgree | C16_assembler.py:25-132 | the opcode and format dicts name the same mnemonics |
| AsmInstruction.StackOpcodes | C16_assembler.py:25-31 | the opcode table agrees with the enum of instruction.h for NOOP and the stack instructions |
| AsmInstruction.MemoryOpcodes | C16_assembler.py:32-36 | it agrees for the memory instructions |
| AsmInstruction.JumpBitwiseOpcodes | C16_assembler.py:37-50 | it agrees for the jump and bitwise instructions |
| AsmInstruction.ArithCallSetMoveOpcodes | C16_assembler.py:51-79 | it agrees for arithmetic, call/ret, immediates, moves and HALT |
| AsmInstruction.RegistersMatchEnums | C16_assembler.py:134-149 | every register name assembles to its enum value in cpu.h; exactly 13 names |
| AsmInstruction.RegisterKindNotChecked | C16_assembler.py:173-177 | a float register name in an integer field assembles to an integer register |
| AsmInstruction.PadShape | C16_assembler.py:182-184 | padding keeps the bytes, adds only zeros and reaches 6 bytes; it never cuts |
| AsmInstruction.EncodingShape | C16_assembler.py:163-184 | an encoded line starts with its opcode, then its field bytes, padded to at least 6 bytes |
| AsmInstruction.OperandsStep | C16_assembler.py:172-181 | the fields up to n encode exactly when those before do and field n-1 is acceptable |
| AsmInstruction.OperandsSnoc | C16_assembler.py:172-181 | an acceptable field appends its bytes |
| AsmInstruction.OperandsOk | C16_assembler.py:172-181 | the fields encode exactly when every field has an acceptable token |
| AsmInstruction.EncodingDispatch | C16_assembler.py:163-171 | an empty line is an IndexError, an unknown mnemonic a ValueError, a known one is assembled with its opcode and format |
| AsmInstruction.AssembleSucceeds | C16_assembler.py:172-184 | a known instruction assembles exactly when every field has an acceptable token |
| AsmInstruction.FirstFailingField | C16_assembler.py:172-181 | a missing token is an IndexError and an unknown register or bad literal is the ValueError naming it |
| AsmInstruction.OperandsNext | C16_assembler.py:172-181 | field i fails with a missing token or its own error |
| AsmInstruction.OddDigitsRefused | C16_assembler.py:178-179 | an imm_short literal with an odd number of digits after stripping is refused |
| AsmInstruction.StripHexPrefix | C16_assembler.py:179 | stripping "0x" leaves the digits behind it |
| AsmInstruction.PairsDecode | C16_assembler.py:179 | two digit pairs decode to two bytes, high pair first |
| AsmInstruction.ShortLiteralBytes | C16_assembler.py:178-179 | "0x" and two digit pairs assemble to those two bytes in the order written |
| AsmInstruction.ImmShortBytes | C16_assembler.py:178-179 | definition of an imm_short field: `bytearray.fromhex` of the token with leading 0s then x's stripped (AsmInstruction.ShortLiteralBytes, AsmInstruction.OddDigitsRefused) |
| AsmInstruction.FieldBytes | C16_assembler.py:173-181 | definition of one field's bytes: a register's byte, an imm_short's bytes, a float's 4-byte pattern, or the ValueError |
| AsmInstruction.Operands | C16_assembler.py:172-181 | definition of the field loop: the bytes of fields 1..n-1 in order, or the first error (AsmInstruction.OperandsOk) |
| AsmInstruction.Pad | C16_assembler.py:182-184 | zero bytes up to the instruction size, never a cut |
| AsmInstruction.Encoding | C16_assembler.py:163-184 | `Instruction(line).encoded_`: IndexError for an empty line, ValueError for an unknown mnemonic, else the assembled fields |
| AsmInstruction.Assemble | C16_assembler.py:168-184 | the opcode byte, the field bytes, padding; or the first field's error |
| Assembler.MainItems | C16_assembler.py:274 | `labels_["_main_"]` is None exactly when no block is `_main_` |
| Assembler.ItemBytes | C16_assembler.py:276-281 | definition of what one entry appends to `encoded_`: the placeholder for a string, the encoded bytes otherwise |
| Assembler.OtherItems | C16_assembler.py:284-288 | definition of the entries of every label other than `_main_`, in insertion order (Assembler.PlaceBlocksLayout) |
| Assembler.AllItems | C16_assembler.py:273-288 | definition of the entries in layout order: `_main_`'s, then the others' (Assembler.LaidOutLayout) |
| Assembler.Take | C16_assembler.py:300 | definition of `encoded_[:p]` |
| Assembler.Drop | C16_assembler.py:302 | definition of `encoded_[p + instr_size:]` |
| Assembler.Splice | C16_assembler.py:300-302 | definition of the slice assignment that puts the re-encoded line over the slot (Assembler.SpliceSlot) |
| Assembler.CountDigits | C16_assembler.py:305-307 | definition of the count's hex digits with `0x` stripped and evened up (Assembler.StripHex, Assembler.EvenValid) |
| Assembler.Even | C16_assembler.py:306-307 | definition of the `0` put in front of an odd number of digits (Assembler.EvenValid) |
| Assembler.PlaceholderSlots | C16_assembler.py:276-279 | definition of the corrected `need_label_trans`: one slot per entry that needs an address, at six times its index (Assembler.PlaceholderSlotsShape, Assembler.PlaceholderSlotsAligned) |
| Assembler.IntendedAddresses | C16_assembler.py:284-287 | definition of the corrected label addresses: `_main_` at 0 and every other label at the address its turn reaches (Assembler.IntendedLabelAddress) |
| Assembler.Put | C16_assembler.py:274-282 | one pass of a layout loop: an address line records its offset once per text and reserves the placeholder, an encoded entry is appended, the address moves on 6 |
| Assembler.Patched | C16_assembler.py:298-299 | the line with its last token replaced by that label's recorded literal, re-encoded; IndexError or KeyError otherwise (Assembler.UnknownLabel, Assembler.IntendedJumpPatch) |
| Assembler.Reencode | C16_assembler.py:298-299 | definition of the re-encoding of a line with a given label table |
| Assembler.PatchSlots | C16_assembler.py:297-302 | definition of the patching loop: each recorded line re-encoded and spliced over its slot in insertion order, the first error ends it (Assembler.PatchSlotsSpec) |
| Assembler.Header | C16_assembler.py:305-311 | `n_instr_`: the even digits of the count decoded, padded to 2 bytes (Assembler.HeaderSmall, Assembler.HeaderLarge) |
| Assembler.Build | C16_assembler.py:255-311 | buildBinary: the KeyError for a missing `_main_`, the layout, the patched code and the header (Assembler.BuildLaysOut) |
| Assembler.IntendedHeader | C16_assembler.py:305-311 | the count written low byte first (Assembler.IntendedHeaderRoundTrip) |
| Assembler.AddressLiteral | C16_assembler.py:286 | the literal an address should become, low byte's digits first (Assembler.AddressLiteralBytes) |
| Assembler.IntendedLabels | C16_assembler.py:272-295 | the corrected label table: `_main_` at 0, each other label at the literal of its address (Assembler.IntendedLabelAddress) |
| Assembler.BuildIntended | C16_assembler.py:255-311 | buildBinary with the three corrections, refusing code beyond the address space (Assembler.BuildIntendedPatchesAll) |
| Assembler.PutAll | C16_assembler.py:274-282 | laying out entries keeps `need_label_trans` tracked: its keys are the listed lines, each once (the bound on the offsets is Assembler.PutAllInside) |
| Assembler.PutAllInside | C16_assembler.py:274-282 | when every entry lays down at least six bytes, the address never passes the end of the code and every recorded offset `p` has `p + 6 <= len(encoded_)` |
| Assembler.EncodedEntryFull | C16_assembler.py:183-184 | an encoded instruction is at least six bytes, because the padding loop pads and never cuts, so such entries meet PutAllInside's premise |
| Assembler.PlaceBlocks | C16_assembler.py:284-295 | the loop over the other labels keeps `need_label_trans` tracked |
| Assembler.PlaceBlocksInside | C16_assembler.py:284-295 | the loop over the other labels keeps every recorded offset inside the code when their entries have at least six bytes |
| Assembler.LaidOut | C16_assembler.py:270-295 | after both layout loops `need_label_trans` is tracked |
| Assembler.LaidOutInside | C16_assembler.py:266-295 | after both layout loops every recorded offset lies inside the code when every entry has at least six bytes |
| Assembler.LongEntryDrifts | C16_assembler.py:274-282 | after a 7-byte entry `addr` is 6 while the code is 7 bytes long, so the next line is recorded at offset 6 and its placeholder starts at offset 7 |
| Assembler.Slots | C16_assembler.py:297-302 | the patching loop visits need_label_trans in insertion order, with each line's recorded position |
| Assembler.PatchSlotsErrorSticks | C16_assembler.py:297-302 | an error in patching one slot ends the build with that error |
| Assembler.PatchSlotsStep | C16_assembler.py:297-302 | one pass of the patching loop splices the re-encoded line over its slot |
| Assembler.Assembler.constructor | C16_assembler.py:203-218 | the labels are stored and nothing is encoded yet |
| Assembler.Assembler.BuildBinary | C16_assembler.py:255-311 | buildBinary produces Build's code and header, or raises its error leaving the header |
| Assembler.Assembler.LayOut | C16_assembler.py:266-295 | the two layout loops produce LaidOut |
| Assembler.Assembler.Patch | C16_assembler.py:297-302 | the patching loop produces PatchSlots |
| Assembler.Assembler.PatchOne | C16_assembler.py:298-302 | one pass replaces the placeholder with the re-encoded line, or raises |
| Assembler.Assembler.ReEncode | C16_assembler.py:298-299 | the line with its label replaced by the address is encoded as Patched says |
| Assembler.Assembler.CountInstructions | C16_assembler.py:305-311 | the header is Header of the instruction count |
| Assembler.Assembler.HeaderBytes | C16_assembler.py:305-311 | the string steps of the header give Header of the count, and the digits it reports on a failure are the even digits of `hex(n)` |
| Assembler.Assembler.PutItems | C16_assembler.py:274-282 | one layout loop produces PutAll |
| Assembler.LastIndex | C16_assembler.py:278 | the last position holding a line, or None when it does not occur |
| Assembler.PutAllLayout | C16_assembler.py:274-282 | laying out advances the address by 6 per entry and appends the entries' bytes in order |
| Assembler.PutAllPos | C16_assembler.py:278 | a line's recorded position is that of its last occurrence |
| Assembler.PutAllConcat | C16_assembler.py:274-295 | laying out two lists in turn is laying out their concatenation |
| Assembler.PlaceBlocksLayout | C16_assembler.py:284-295 | the other labels are laid out in insertion order, skipping `_main_` |
| Assembler.PlaceBlocksLabel | C16_assembler.py:286 | every other label is recorded as `hex` of the address reached at its turn |
| Assembler.PlaceBlocksLast | C16_assembler.py:286 | the last label is recorded at the address the ones before it reach |
| Assembler.PlaceBlocksOther | C16_assembler.py:286 | recording a label does not touch another label's entry |
| Assembler.PlaceBlocksKeeps | C16_assembler.py:284-286 | a name no block has keeps its entry |
| Assembler.StripHex | C16_assembler.py:305 | stripping `hex(n)` of leading zeros and x's leaves exactly its digits |
| Assembler.SmallDigits | C16_assembler.py:305-307 | below 256 the evened digits are the byte's pair |
| Assembler.LargeDigits | C16_assembler.py:305-307 | from 256 on the evened digits are the high byte's pair followed by the low byte's |
| Assembler.HeaderDefined | C16_assembler.py:305-311 | the header is always produced and has 2 bytes for counts below 65536 |
| Assembler.EvenValid | C16_assembler.py:306-307 | evening up keeps a non-empty string of digits with an even count |
| Assembler.HeaderSmall | C16_assembler.py:305-311 | counts below 256 give the count followed by a zero byte |
| Assembler.HeaderLarge | C16_assembler.py:305-311 | counts from 256 on are written high byte first |
| Assembler.HeaderAsWritten | C16_assembler.py:305-311 | from 256 on, the little-endian reader sees the count with its bytes swapped; 256 reads as 1 |
| Assembler.IntendedHeaderRoundTrip | C16_assembler.py:305-311 | the intended header reads back as the count and equals the written one below 256 |
| Assembler.AddressOperandAsWritten | C16_assembler.py:286 | `hex(addr)` as an operand is refused below 16 and for three digits, one byte for two digits, high byte first for four |
| Assembler.AddressOperandCounterexamples | C16_assembler.py:286 | address 6 is refused and 0x1002 is read back as 0x0210 |
| Assembler.AddressLiteralBytes | C16_assembler.py:179 | the intended literal assembles to the little-endian bytes of the address |
| Assembler.AddressLiteralJump | C16_assembler.py:298-299 | a JUMP/CALL line with the intended literal has S0 equal to the address |
| Assembler.AddressLiteralBranch | C16_assembler.py:298-299 | a conditional jump line with the intended literal has S2 equal to the address |
| Assembler.LaidOutLayout | C16_assembler.py:266-295 | `_main_` is laid out from address 0, then the other labels; `_main_` keeps its address |
| Assembler.MainAddressZero | C16_assembler.py:272 | the address of `_main_` assembles to a zero short |
| Assembler.LabelAddress | C16_assembler.py:286 | each other label is recorded as `hex` of 6 times the entries before it |
| Assembler.UnknownLabel | C16_assembler.py:299 | a label no block defines has no address, so patching it is a KeyError |
| Assembler.AllBytesSlots | C16_assembler.py:274-295 | when every entry has 6 bytes, entry k sits at offset 6k |
| Assembler.SlotsDisjoint | C16_assembler.py:300-302 | slots at different multiples of six do not overlap |
| Assembler.SpliceSlot | C16_assembler.py:300-302 | splicing replaces that slot and nothing else, keeping the length |
| Assembler.PatchSlotsSpec | C16_assembler.py:297-302 | after patching every slot holds its re-encoded line and every other byte is as laid out |
| Assembler.LayoutSlots | C16_assembler.py:278-302 | the layout's slots are distinct aligned positions at each line's last occurrence, and every such line has one |
| Assembler.SlotsAligned | C16_assembler.py:278-302 | the layout's slots are distinct multiples of six inside the code |
| Assembler.SlotsApart | C16_assembler.py:278-302 | two slots of the layout are at different positions |
| Assembler.SlotsAtLast | C16_assembler.py:278 | each slot is at 6 times the last index of its line |
| Assembler.SlotsCover | C16_assembler.py:278 | every line that needs an address has a slot |
| Assembler.WindowUntouched | C16_assembler.py:297-302 | a window no slot starts at comes through patching unchanged |
| Assembler.BuildLaysOut | C16_assembler.py:255-311 | when each line that needs an address re-encodes, if at all, to six bytes: the code has 6 bytes per entry and the header counts them; each encoded entry keeps its bytes; the last occurrence of each line holds its re-encoding; earlier occurrences keep the placeholder |
| Assembler.BuildWindow | C16_assembler.py:255-311 | one window of BuildLaysOut |
| Assembler.WindowKept | C16_assembler.py:297-302 | a window that is not a line's last occurrence keeps its laid-out bytes |
| Assembler.SlotPatched | C16_assembler.py:300-302 | a slot holds its re-encoded line |
| Assembler.PlaceholderSlotsShape | C16_assembler.py:276-279 | one slot per entry needing an address, at that entry, in increasing order |
| Assembler.PlaceholderSlotsAligned | C16_assembler.py:276-279 | those slots are distinct multiples of six inside the code |
| Assembler.IntendedLabelsKeys | C16_assembler.py:272-295 | the corrected label table has exactly the names of the one as written, with MAIN at address 0 |
| Assembler.IntendedLabelAddress | C16_assembler.py:284-295 | in the corrected label table, a non-main label maps to the 4-digit literal of main's size plus six times the entries before it |
| Assembler.BuildIntendedPatchesAll | C16_assembler.py:255-311 | in the corrected build, when each line that needs an address re-encodes, if at all, to six bytes: the code is six bytes per entry, the header reads back little-endian as the entry count, and with every placeholder patched from the corrected label literals each entry holds its encoded instruction |
| Assembler.SlotsSixByte | C16_assembler.py:297-302 | slots drawn from the entries that need an address inherit their six-byte re-encoding |
| Assembler.LayoutSlotsSixByte | C16_assembler.py:278-302 | every slot of the layout as written re-encodes, if at all, to six bytes when its entries do |
| Assembler.PlaceholderSlotsSixByte | C16_assembler.py:276-302 | every slot of the corrected layout re-encodes, if at all, to six bytes when its entries do |
| Assembler.IntendedJumpPatch | C16_assembler.py:297-302 | a JUMP or CALL to a label, re-encoded with the corrected literal, is six bytes with the label's address in field S0, so such lines meet the six-byte premise |
| Assembler.IntendedJumpEncoding | C16_assembler.py:163-184 | "JUMP" or "CALL" followed by the corrected literal of an address encodes to six bytes: the opcode, then the address in field S0 |
| Assembler.JumpTokens | C16_assembler.py:164 | a mnemonic and one word split into exactly those two tokens |
| Assembler.JumpCallFormat | C16_assembler.py:39-88 | JUMP and CALL are known mnemonics with the short-operand format |
| Assembler.IntendedWindow | C16_assembler.py:297-302 | one window of BuildIntendedPatchesAll |
| Assembler.PlaceholderAt | C16_assembler.py:276-279 | an entry needing an address has its own slot |
| Assembler.PlaceholderMiss | C16_assembler.py:280-281 | no slot is at an encoded entry |
| Assembler.RepeatedLineOneSlot | C16_assembler.py:278 | a line written twice gets one slot, at its second occurrence |
| Assembler.TwoPlaceholders | C16_assembler.py:274-282 | the layout of two identical placeholder lines |
| Assembler.OnePlaceholder | C16_assembler.py:274-282 | the layout of one placeholder line |
| Assembler.TwoPlaceholderSlots | C16_assembler.py:276-279 | the intended slots of two identical lines are one each |
| Assembler.RepeatedLineKeepsPlaceholder | C16_assembler.py:297-302 | patching that layout leaves the placeholder bytes in the first slot |

## Left out

- Float arithmetic: the numeric result of fadd/fsub/fmul/fdiv is the parameter `fpu`. IEEE 754 rounding is not modelled, and neither is the C conversion of a float register to its bit pattern.
- Float literals in the assembler (`struct.pack("f", float(tok))`) are a parameter `FloatPack` that may refuse a token.
- Diagnostics are not modelled: the `printf` output and `debug.c`/`debug.h` called from `exec_main`. They change no state.
- `exec_loadbin` (file I/O) is not modelled. The header it reads is modelled only through the assembler's header (see Findings).
- `main.c`, `test.c` and `old_test.c` are not modelled.
- `parseSource` (file reading) is not modelled. The labels dict is an input of `Assembler.Build`.
- The assembler's substring test that sends a line down the placeholder path (`if instr in ls`) is not modelled. The model takes each entry as already classified.
- `writeBinary` and the module-level script of the assembler are not modelled: they only do I/O.
- The core id `cid` is not modelled: it is only printed.
- Memory's initial contents are a parameter of `Memory.SysMem.constructor`, because the C leaves the array uninitialised.
- Execution.ExecMain: the cycle counter is an unbounded `nat`, not the C `unsigned int`. Its wrap-around after 2^32 cycles is not modelled.
- Execution.Run: the loop is bounded by a fuel count. A run that would go on longer ends with `OutOfFuel`. `Execution.MoreFuelSameStop` shows the bound does not change a run that stops.
- Undefined behaviour is excluded by preconditions. This covers a division by zero, a shift by 32 or more, a left shift whose result overflows `int` (`CpuSpec.LeftShiftDefined`), a 2- or 4-byte access past `0xFFFF`, and a fetch past `0xFFFA`.
- Stack overflow into the heap is not checked, because the code has no such check.
- Assembler.BuildLaysOut: requires `Assembler.SixByteItems`, that every entry lays down exactly six bytes. The padding loop pads short encodings but never cuts a long one: `ISET ia0 0x1234567890` encodes to 7 bytes. The layout loops still add 6 to `addr` for such an entry, so every later label address and recorded offset points one byte or more before the entry it names (`Assembler.LongEntryDrifts`), and no lemma describes that layout.
- Assembler.BuildLaysOut: holds only when every line that needs an address re-encodes, if at all, to six bytes. A longer re-encoding (for example `JUMP 123456789abc`, seven bytes) grows the bytearray through Python slice assignment and shifts every later entry. The model computes that (`Assembler.Splice`), but no lemma describes the shifted layout.
- Assembler.BuildIntendedPatchesAll: requires `Assembler.SixByteItems` like `Assembler.BuildLaysOut`. An entry longer than six bytes shifts the code past the addresses the corrected layout assigns, as above. It also has the same six-byte premise on re-encoded lines. `Assembler.IntendedJumpPatch` shows that a JUMP or CALL to a label meets it.

## Findings

| source | as written | input that shows it | evidently intended | confidence | as-written member | corrected member |
|---|---|---|---|---|---|---|
| C16_assembler.py:305-311 | the instruction count is written as `fromhex` of its digits, high byte first, but `exec_loadbin` (execution.c:66-67) reads it as a little-endian unsigned short | a program of 256 instructions gets header bytes `01 00`, loaded as 1 instruction | the count written low byte first | not executed | Assembler.HeaderAsWritten | Assembler.BuildIntendedPatchesAll |
| C16_assembler.py:286 | a label's address is `hex(addr)`, then put through the `imm_short` parser, which strips `0`/`x` and calls `fromhex` | address 6 gives "6", an odd digit count, so a ValueError; address 0x1002 gives bytes `10 02`, read as 0x0210 | a 4-digit literal in the byte order the parser's reader expects | not executed | Assembler.AddressOperandCounterexamples | Assembler.IntendedLabelAddress |
| C16_assembler.py:278 | `need_label_trans` is a dict keyed by the line text, so a repeated address line is recorded only at its last position | the same line `JUMP loop` twice: the first copy keeps the placeholder bytes `AA BB CC DD EE FF` | one placeholder per occurrence, each patched | not executed | Assembler.RepeatedLineKeepsPlaceholder | Assembler.BuildIntendedPatchesAll |

`Assembler.BuildIntended` is the build with all three corrections applied. It also refuses code larger than the 64 KiB address space (`TooLarge`), because a 16-bit header and 16-bit label literals cannot describe it; the build as written has no such check.
