/** The CPU core (cpu.c): `cpucore_t` as a class whose handlers update its
    registers, and system memory, in place. Each handler is proved to leave
    exactly the state that the corresponding function of CpuSpec computes
    from the state before the call. */
module Cpu {

  import opened Word
  import opened Errors
  import opened Memory
  import CpuDefs
  import CpuSpec

  class CpuCore {
    // status code
    var stc: u8
    // program counter, stack pointer, base pointer
    var rpc: u16
    var rsp: u16
    var rbp: u16
    // integer registers, read as unsigned short
    var ia0: u16
    var ia1: u16
    var ia2: u16
    var ia3: u16
    var irv: u16
    // float registers, as their 32-bit patterns
    var fa0: u32
    var fa1: u32
    var fa2: u32
    var fa3: u32
    var frv: u32

    /** The register file as a value. */
    ghost function State(): CpuDefs.Regs
      reads this
    {
      CpuDefs.Regs(stc, rpc, rsp, rbp, ia0, ia1, ia2, ia3, irv, fa0, fa1, fa2, fa3, frv)
    }

    /** The register file together with the contents of `sysmem`. */
    ghost function M(sysmem: SysMem): CpuSpec.Machine
      reads this, sysmem
    {
      CpuSpec.Machine(State(), sysmem.Contents())
    }

    /** cpucore_init (the core id is not modelled). */
    constructor ()
      ensures State() == CpuSpec.Init()
    {
      stc := 0;
      rpc := CpuDefs.RPC_INIT;
      rsp := CpuDefs.RSP_INIT;
      rbp := CpuDefs.RSP_INIT;
      ia0, ia1, ia2, ia3, irv := 0, 0, 0, 0, 0;
      fa0, fa1, fa2, fa3, frv := 0, 0, 0, 0, 0;
    }

    /** cpucore_getiregv. */
    method GetIRegV(ireg: u8) returns (v: u16)
      modifies this
      ensures (v, State()) == CpuSpec.GetIRegV(old(State()), ireg)
    {
      match ireg {
        case 0 => v := rpc;
        case 1 => v := rsp;
        case 2 => v := rbp;
        case 3 => v := ia0;
        case 4 => v := ia1;
        case 5 => v := ia2;
        case 6 => v := ia3;
        case 7 => v := irv;
        case _ => stc := ERR_UNREC_IREG; v := 0;
      }
    }

    /** cpucore_getfregv. */
    method GetFRegV(freg: u8) returns (v: u32)
      modifies this
      ensures (v, State()) == CpuSpec.GetFRegV(old(State()), freg)
    {
      match freg {
        case 0 => v := fa0;
        case 1 => v := fa1;
        case 2 => v := fa2;
        case 3 => v := fa3;
        case 4 => v := frv;
        case _ => stc := ERR_UNREC_FREG; v := 0;
      }
    }

    /** The destination switch that cpu.c repeats in the bitwise,
        multiplicative, immediate and move handlers. */
    method StoreGeneral(dest: u8, v: u16, notAllowed: u8)
      modifies this
      ensures State() == CpuSpec.StoreGeneral(old(State()), dest, v, notAllowed)
    {
      match dest {
        case 0 => stc := notAllowed;
        case 1 => stc := notAllowed;
        case 2 => stc := notAllowed;
        case 3 => ia0 := v;
        case 4 => ia1 := v;
        case 5 => ia2 := v;
        case 6 => ia3 := v;
        case 7 => irv := v;
        case _ => stc := ERR_UNREC_IREG;
      }
    }

    /** The destination switch of iadd and isub. */
    method StoreArith(dest: u8, v: u16, notAllowed: u8)
      modifies this
      ensures State() == CpuSpec.StoreArith(old(State()), dest, v, notAllowed)
    {
      match dest {
        case 0 => stc := notAllowed;
        case 1 => rsp := v;
        case 2 => rbp := v;
        case 3 => ia0 := v;
        case 4 => ia1 := v;
        case 5 => ia2 := v;
        case 6 => ia3 := v;
        case 7 => irv := v;
        case _ => stc := ERR_UNREC_IREG;
      }
    }

    /** The destination switch of the float handlers. */
    method StoreF(dest: u8, v: u32)
      modifies this
      ensures State() == CpuSpec.FSetR(old(State()), dest, v)
    {
      match dest {
        case 0 => fa0 := v;
        case 1 => fa1 := v;
        case 2 => fa2 := v;
        case 3 => fa3 := v;
        case 4 => frv := v;
        case _ => stc := ERR_UNREC_FREG;
      }
    }

    /** The store through the destination pointer that the pop and load
        handlers pass to the memory read: register `ireg` receives `v`. */
    method PutIReg(ireg: u8, v: u16)
      requires ireg <= 7
      modifies this
      ensures CpuDefs.IRegOf(ireg).Some?
      ensures State() == CpuDefs.SetI(old(State()), CpuDefs.IRegOf(ireg).value, v)
    {
      match ireg {
        case 0 => rpc := v;
        case 1 => rsp := v;
        case 2 => rbp := v;
        case 3 => ia0 := v;
        case 4 => ia1 := v;
        case 5 => ia2 := v;
        case 6 => ia3 := v;
        case 7 => irv := v;
      }
    }

    method PutFReg(freg: u8, v: u32)
      requires freg <= 4
      modifies this
      ensures CpuDefs.FRegOf(freg).Some?
      ensures State() == CpuDefs.SetF(old(State()), CpuDefs.FRegOf(freg).value, v)
    {
      match freg {
        case 0 => fa0 := v;
        case 1 => fa1 := v;
        case 2 => fa2 := v;
        case 3 => fa3 := v;
        case 4 => frv := v;
      }
    }

    // ----- stack instructions -----

    /** cpucore_ipush. */
    method IPush(sysmem: SysMem, ireg: u8)
      requires sysmem.Valid()
      requires ireg != CpuSpec.ID_RSP ==> Fits16(Sub16(rsp, 2))
      modifies this, sysmem, sysmem.mem
      ensures sysmem.Valid()
      ensures M(sysmem) == CpuSpec.IPush(old(M(sysmem)), ireg)
    {
      rsp := Sub16(rsp, 2);
      if ireg == CpuSpec.ID_RSP {
        stc := ERR_IPUSH_RSP;
        rsp := Add16(rsp, 2);
      } else {
        var v := GetIRegV(ireg);
        stc := sysmem.IWrite(rsp, v);
      }
    }

    /** cpucore_ipop. */
    method IPop(sysmem: SysMem, ireg: u8)
      requires sysmem.Valid()
      requires ireg <= 7 && ireg != CpuSpec.ID_RSP ==> Fits16(rsp)
      modifies this
      ensures M(sysmem) == CpuSpec.IPop(old(M(sysmem)), ireg)
    {
      if ireg == CpuSpec.ID_RSP {
        stc := ERR_IPOP_RSP;
        rsp := Sub16(rsp, 2);
      } else if ireg <= 7 {
        var s, v := sysmem.IRead(rsp);
        PutIReg(ireg, v);
        stc := s;
      } else {
        stc := ERR_UNREC_IREG;
        rsp := Sub16(rsp, 2);
      }
      rsp := Add16(rsp, 2);
    }

    /** cpucore_fpush. */
    method FPush(sysmem: SysMem, freg: u8)
      requires sysmem.Valid()
      requires Fits32(Sub16(rsp, 4))
      modifies this, sysmem, sysmem.mem
      ensures sysmem.Valid()
      ensures M(sysmem) == CpuSpec.FPush(old(M(sysmem)), freg)
    {
      rsp := Sub16(rsp, 4);
      var v := GetFRegV(freg);
      stc := sysmem.FWrite(rsp, v);
    }

    /** cpucore_fpop. */
    method FPop(sysmem: SysMem, freg: u8)
      requires sysmem.Valid()
      requires freg <= 4 ==> Fits32(rsp)
      modifies this
      ensures M(sysmem) == CpuSpec.FPop(old(M(sysmem)), freg)
    {
      if freg <= 4 {
        var s, v := sysmem.FRead(rsp);
        PutFReg(freg, v);
        stc := s;
      } else {
        stc := ERR_UNREC_FREG;
        rsp := Sub16(rsp, 4);
      }
      rsp := Add16(rsp, 4);
    }

    // ----- memory access instructions -----

    /** cpucore_irdmem. */
    method IRdMem(sysmem: SysMem, ireg: u8, addr: memaddr)
      requires sysmem.Valid()
      requires ireg <= 7 ==> Fits16(addr)
      modifies this
      ensures M(sysmem) == CpuSpec.IRdMem(old(M(sysmem)), ireg, addr)
    {
      if ireg <= 7 {
        var s, v := sysmem.IRead(addr);
        PutIReg(ireg, v);
        stc := s;
      } else {
        stc := ERR_UNREC_IREG;
      }
    }

    /** cpucore_iwtmem: the write's status is dropped. */
    method IWtMem(sysmem: SysMem, ireg: u8, addr: memaddr)
      requires sysmem.Valid()
      requires Fits16(addr)
      modifies this, sysmem, sysmem.mem
      ensures sysmem.Valid()
      ensures M(sysmem) == CpuSpec.IWtMem(old(M(sysmem)), ireg, addr)
    {
      var v := GetIRegV(ireg);
      var _ := sysmem.IWrite(addr, v);
    }

    /** cpucore_frdmem. */
    method FRdMem(sysmem: SysMem, freg: u8, addr: memaddr)
      requires sysmem.Valid()
      requires freg <= 4 ==> Fits32(addr)
      modifies this
      ensures M(sysmem) == CpuSpec.FRdMem(old(M(sysmem)), freg, addr)
    {
      if freg <= 4 {
        var s, v := sysmem.FRead(addr);
        PutFReg(freg, v);
        stc := s;
      } else {
        stc := ERR_UNREC_FREG;
      }
    }

    /** cpucore_fwtmem: the write's status is dropped. */
    method FWtMem(sysmem: SysMem, freg: u8, addr: memaddr)
      requires sysmem.Valid()
      requires Fits32(addr)
      modifies this, sysmem, sysmem.mem
      ensures sysmem.Valid()
      ensures M(sysmem) == CpuSpec.FWtMem(old(M(sysmem)), freg, addr)
    {
      var v := GetFRegV(freg);
      var _ := sysmem.FWrite(addr, v);
    }

    // ----- jump instructions -----

    /** cpucore_jmp. */
    method Jmp(addr: memaddr)
      modifies this
      ensures State() == CpuSpec.Jmp(old(State()), addr)
    {
      if addr > SYSMEM_MAX_ADDR {
        // the C sets ERR_SMEM_MAXADR here; a memaddr never exceeds the bound
        assert false;
      } else {
        rpc := addr;
      }
    }

    /** cpucore_ijeq. */
    method IJeq(ireg1: u8, ireg2: u8, addr: memaddr)
      modifies this
      ensures State() == CpuSpec.CondJump(old(State()), CpuSpec.EQ, ireg1, ireg2, addr)
    {
      if ireg1 == ireg2 {
        stc := ERR_IREG_CMPTOSELF;
      } else {
        var a := GetIRegV(ireg1);
        var b := GetIRegV(ireg2);
        if a == b {
          Jmp(addr);
        }
      }
    }

    /** cpucore_ijgt. */
    method IJgt(ireg1: u8, ireg2: u8, addr: memaddr)
      modifies this
      ensures State() == CpuSpec.CondJump(old(State()), CpuSpec.GT, ireg1, ireg2, addr)
    {
      if ireg1 == ireg2 {
        stc := ERR_IREG_CMPTOSELF;
      } else {
        var a := GetIRegV(ireg1);
        var b := GetIRegV(ireg2);
        if a > b {
          Jmp(addr);
        }
      }
    }

    /** cpucore_ijge. */
    method IJge(ireg1: u8, ireg2: u8, addr: memaddr)
      modifies this
      ensures State() == CpuSpec.CondJump(old(State()), CpuSpec.GE, ireg1, ireg2, addr)
    {
      if ireg1 == ireg2 {
        stc := ERR_IREG_CMPTOSELF;
      } else {
        var a := GetIRegV(ireg1);
        var b := GetIRegV(ireg2);
        if a >= b {
          Jmp(addr);
        }
      }
    }

    /** cpucore_ijlt. */
    method IJlt(ireg1: u8, ireg2: u8, addr: memaddr)
      modifies this
      ensures State() == CpuSpec.CondJump(old(State()), CpuSpec.LT, ireg1, ireg2, addr)
    {
      if ireg1 == ireg2 {
        stc := ERR_IREG_CMPTOSELF;
      } else {
        var a := GetIRegV(ireg1);
        var b := GetIRegV(ireg2);
        if a < b {
          Jmp(addr);
        }
      }
    }

    /** cpucore_ijle. */
    method IJle(ireg1: u8, ireg2: u8, addr: memaddr)
      modifies this
      ensures State() == CpuSpec.CondJump(old(State()), CpuSpec.LE, ireg1, ireg2, addr)
    {
      if ireg1 == ireg2 {
        stc := ERR_IREG_CMPTOSELF;
      } else {
        var a := GetIRegV(ireg1);
        var b := GetIRegV(ireg2);
        if a <= b {
          Jmp(addr);
        }
      }
    }

    // ----- binary arithmetic instructions -----

    /** cpucore_and. */
    method And(ireg1: u8, ireg2: u8)
      modifies this
      ensures State() == CpuSpec.And(old(State()), ireg1, ireg2)
    {
      var a := GetIRegV(ireg1);
      var b := GetIRegV(ireg2);
      StoreGeneral(ireg1, CpuSpec.BitAnd(a, b), ERR_BIN_REGNOTALWD);
    }

    /** cpucore_or. */
    method Or(ireg1: u8, ireg2: u8)
      modifies this
      ensures State() == CpuSpec.Or(old(State()), ireg1, ireg2)
    {
      var a := GetIRegV(ireg1);
      var b := GetIRegV(ireg2);
      StoreGeneral(ireg1, CpuSpec.BitOr(a, b), ERR_BIN_REGNOTALWD);
    }

    /** cpucore_xor. */
    method Xor(ireg1: u8, ireg2: u8)
      modifies this
      ensures State() == CpuSpec.Xor(old(State()), ireg1, ireg2)
    {
      var a := GetIRegV(ireg1);
      var b := GetIRegV(ireg2);
      StoreGeneral(ireg1, CpuSpec.BitXor(a, b), ERR_BIN_REGNOTALWD);
    }

    /** cpucore_not. */
    method Not(ireg: u8)
      modifies this
      ensures State() == CpuSpec.Not(old(State()), ireg)
    {
      var a := GetIRegV(ireg);
      StoreGeneral(ireg, CpuSpec.BitNot(a), ERR_BIN_REGNOTALWD);
    }

    /** cpucore_rshift. */
    method RShift(ireg: u8, offset: u8)
      requires offset < 32
      modifies this
      ensures State() == CpuSpec.RShift(old(State()), ireg, offset)
    {
      var a := GetIRegV(ireg);
      StoreGeneral(ireg, CpuSpec.ShiftRight(a, offset), ERR_BIN_REGNOTALWD);
    }

    /** cpucore_lshift. */
    method LShift(ireg: u8, offset: u8)
      requires CpuSpec.LeftShiftDefined(CpuSpec.IVal(State(), ireg), offset)
      modifies this
      ensures State() == CpuSpec.LShift(old(State()), ireg, offset)
    {
      var a := GetIRegV(ireg);
      StoreGeneral(ireg, CpuSpec.ShiftLeft(a, offset), ERR_BIN_REGNOTALWD);
    }

    // ----- integer arithmetic instructions -----

    /** cpucore_iadd. */
    method IAdd(ireg1: u8, ireg2: u8)
      modifies this
      ensures State() == CpuSpec.IAdd(old(State()), ireg1, ireg2)
    {
      var a := GetIRegV(ireg1);
      var b := GetIRegV(ireg2);
      var sum: int := a as int + b as int;
      if sum > 0xFFFF {
        stc := ERR_IADD_OVRFLW;
        sum := 0xFFFF;
      }
      StoreArith(ireg1, sum, ERR_IADD_REGNOTALWD);
    }

    /** cpucore_isub. */
    method ISub(ireg1: u8, ireg2: u8)
      modifies this
      ensures State() == CpuSpec.ISub(old(State()), ireg1, ireg2)
    {
      var a := GetIRegV(ireg1);
      var b := GetIRegV(ireg2);
      var dif := Sub16(a, b);
      StoreArith(ireg1, dif, ERR_ISUB_REGNOTALWD);
    }

    /** cpucore_imul. */
    method IMul(ireg1: u8, ireg2: u8)
      modifies this
      ensures State() == CpuSpec.IMul(old(State()), ireg1, ireg2)
    {
      var a := GetIRegV(ireg1);
      var b := GetIRegV(ireg2);
      var prod := CpuSpec.Product(a, b);
      if prod > 0xFFFF {
        stc := ERR_IMUL_OVRFLW;
        prod := 0xFFFF;
      }
      StoreGeneral(ireg1, prod, ERR_IADD_REGNOTALWD);
    }

    /** cpucore_idiv. */
    method IDiv(ireg1: u8, ireg2: u8)
      requires CpuSpec.IVal(State(), ireg2) != 0
      modifies this
      ensures State() == CpuSpec.IDiv(old(State()), ireg1, ireg2)
    {
      var a := GetIRegV(ireg1);
      var b := GetIRegV(ireg2);
      StoreGeneral(ireg1, a / b, ERR_IDIV_REGNOTALWD);
    }

    /** cpucore_imod. */
    method IMod(ireg1: u8, ireg2: u8)
      requires CpuSpec.IVal(State(), ireg2) != 0
      modifies this
      ensures State() == CpuSpec.IMod(old(State()), ireg1, ireg2)
    {
      var a := GetIRegV(ireg1);
      var b := GetIRegV(ireg2);
      StoreGeneral(ireg1, a % b, ERR_IMOD_REGNOTALWD);
    }

    // ----- floating point arithmetic instructions -----

    /** cpucore_fadd, with the arithmetic supplied by `fpu`. */
    method FAdd(fpu: CpuSpec.Fpu, freg1: u8, freg2: u8)
      modifies this
      ensures State() == CpuSpec.FArithmetic(old(State()), fpu, CpuSpec.FADD, freg1, freg2)
    {
      var f2 := GetFRegV(freg2);
      match freg1 {
        case 0 => fa0 := fpu(CpuSpec.FADD, fa0, f2);
        case 1 => fa1 := fpu(CpuSpec.FADD, fa1, f2);
        case 2 => fa2 := fpu(CpuSpec.FADD, fa2, f2);
        case 3 => fa3 := fpu(CpuSpec.FADD, fa3, f2);
        case 4 => frv := fpu(CpuSpec.FADD, frv, f2);
        case _ => stc := ERR_UNREC_FREG;
      }
    }

    /** cpucore_fsub, with the arithmetic supplied by `fpu`. */
    method FSub(fpu: CpuSpec.Fpu, freg1: u8, freg2: u8)
      modifies this
      ensures State() == CpuSpec.FArithmetic(old(State()), fpu, CpuSpec.FSUB, freg1, freg2)
    {
      var f2 := GetFRegV(freg2);
      match freg1 {
        case 0 => fa0 := fpu(CpuSpec.FSUB, fa0, f2);
        case 1 => fa1 := fpu(CpuSpec.FSUB, fa1, f2);
        case 2 => fa2 := fpu(CpuSpec.FSUB, fa2, f2);
        case 3 => fa3 := fpu(CpuSpec.FSUB, fa3, f2);
        case 4 => frv := fpu(CpuSpec.FSUB, frv, f2);
        case _ => stc := ERR_UNREC_FREG;
      }
    }

    /** cpucore_fmul, with the arithmetic supplied by `fpu`. */
    method FMul(fpu: CpuSpec.Fpu, freg1: u8, freg2: u8)
      modifies this
      ensures State() == CpuSpec.FArithmetic(old(State()), fpu, CpuSpec.FMUL, freg1, freg2)
    {
      var f2 := GetFRegV(freg2);
      match freg1 {
        case 0 => fa0 := fpu(CpuSpec.FMUL, fa0, f2);
        case 1 => fa1 := fpu(CpuSpec.FMUL, fa1, f2);
        case 2 => fa2 := fpu(CpuSpec.FMUL, fa2, f2);
        case 3 => fa3 := fpu(CpuSpec.FMUL, fa3, f2);
        case 4 => frv := fpu(CpuSpec.FMUL, frv, f2);
        case _ => stc := ERR_UNREC_FREG;
      }
    }

    /** cpucore_fdiv, with the arithmetic supplied by `fpu`. */
    method FDiv(fpu: CpuSpec.Fpu, freg1: u8, freg2: u8)
      modifies this
      ensures State() == CpuSpec.FArithmetic(old(State()), fpu, CpuSpec.FDIV, freg1, freg2)
    {
      var f2 := GetFRegV(freg2);
      match freg1 {
        case 0 => fa0 := fpu(CpuSpec.FDIV, fa0, f2);
        case 1 => fa1 := fpu(CpuSpec.FDIV, fa1, f2);
        case 2 => fa2 := fpu(CpuSpec.FDIV, fa2, f2);
        case 3 => fa3 := fpu(CpuSpec.FDIV, fa3, f2);
        case 4 => frv := fpu(CpuSpec.FDIV, frv, f2);
        case _ => stc := ERR_UNREC_FREG;
      }
    }

    // ----- call/return instructions -----

    /** The first part of cpucore_call: push rbp and ia0..ia3. */
    method SaveIntegerRegisters(sysmem: SysMem)
      requires sysmem.Valid()
      requires CpuSpec.OpsFit(rsp, CpuSpec.CallPushes, 0, 5)
      modifies this, sysmem, sysmem.mem
      ensures sysmem.Valid()
      ensures M(sysmem) == CpuSpec.RunOps(old(M(sysmem)), CpuSpec.CallPushes, 0, 5)
    {
      ghost var m0 := M(sysmem);
      CpuSpec.RunOpsSplit(m0, CpuSpec.CallPushes, 0, 5);
      IPush(sysmem, CpuSpec.ID_RBP);
      ghost var m1 := M(sysmem);
      CpuSpec.RunOpsSplit(m1, CpuSpec.CallPushes, 1, 5);
      IPush(sysmem, CpuSpec.ID_IA0);
      ghost var m2 := M(sysmem);
      CpuSpec.RunOpsSplit(m2, CpuSpec.CallPushes, 2, 5);
      IPush(sysmem, CpuSpec.ID_IA1);
      ghost var m3 := M(sysmem);
      CpuSpec.RunOpsSplit(m3, CpuSpec.CallPushes, 3, 5);
      IPush(sysmem, CpuSpec.ID_IA2);
      ghost var m4 := M(sysmem);
      CpuSpec.RunOpsSplit(m4, CpuSpec.CallPushes, 4, 5);
      IPush(sysmem, CpuSpec.ID_IA3);
    }

    /** The second part of cpucore_call: push fa0..fa3. */
    method SaveFloatRegisters(sysmem: SysMem)
      requires sysmem.Valid()
      requires CpuSpec.OpsFit(rsp, CpuSpec.CallPushes, 5, 9)
      modifies this, sysmem, sysmem.mem
      ensures sysmem.Valid()
      ensures M(sysmem) == CpuSpec.RunOps(old(M(sysmem)), CpuSpec.CallPushes, 5, 9)
    {
      ghost var m0 := M(sysmem);
      CpuSpec.RunOpsSplit(m0, CpuSpec.CallPushes, 5, 9);
      FPush(sysmem, CpuSpec.ID_FA0);
      ghost var m1 := M(sysmem);
      CpuSpec.RunOpsSplit(m1, CpuSpec.CallPushes, 6, 9);
      FPush(sysmem, CpuSpec.ID_FA1);
      ghost var m2 := M(sysmem);
      CpuSpec.RunOpsSplit(m2, CpuSpec.CallPushes, 7, 9);
      FPush(sysmem, CpuSpec.ID_FA2);
      ghost var m3 := M(sysmem);
      CpuSpec.RunOpsSplit(m3, CpuSpec.CallPushes, 8, 9);
      FPush(sysmem, CpuSpec.ID_FA3);
    }

    /** cpucore_call: push the callee-saved registers, then rpc (which the
        fetch-execute loop has already advanced past the call), then jump. */
    method Call(sysmem: SysMem, addr: memaddr)
      requires sysmem.Valid()
      requires CpuSpec.CallFits(rsp)
      modifies this, sysmem, sysmem.mem
      ensures sysmem.Valid()
      ensures M(sysmem) == CpuSpec.Call(old(M(sysmem)), addr)
    {
      CpuSpec.RunOpsCompose(M(sysmem), CpuSpec.CallPushes, 0, 5, 10);
      SaveIntegerRegisters(sysmem);
      CpuSpec.RunOpsCompose(M(sysmem), CpuSpec.CallPushes, 5, 9, 10);
      SaveFloatRegisters(sysmem);
      CpuSpec.RunOpsSplit(M(sysmem), CpuSpec.CallPushes, 9, 10);
      IPush(sysmem, CpuSpec.ID_RPC);
      Jmp(addr);
    }

    /** The middle part of cpucore_ret: pop fa3..fa0. */
    method RestoreFloatRegisters(sysmem: SysMem)
      requires sysmem.Valid()
      requires CpuSpec.OpsFit(rsp, CpuSpec.RetPops, 1, 5)
      modifies this
      ensures M(sysmem) == CpuSpec.RunOps(old(M(sysmem)), CpuSpec.RetPops, 1, 5)
    {
      ghost var m0 := M(sysmem);
      CpuSpec.RunOpsSplit(m0, CpuSpec.RetPops, 1, 5);
      FPop(sysmem, CpuSpec.ID_FA3);
      ghost var m1 := M(sysmem);
      CpuSpec.RunOpsSplit(m1, CpuSpec.RetPops, 2, 5);
      FPop(sysmem, CpuSpec.ID_FA2);
      ghost var m2 := M(sysmem);
      CpuSpec.RunOpsSplit(m2, CpuSpec.RetPops, 3, 5);
      FPop(sysmem, CpuSpec.ID_FA1);
      ghost var m3 := M(sysmem);
      CpuSpec.RunOpsSplit(m3, CpuSpec.RetPops, 4, 5);
      FPop(sysmem, CpuSpec.ID_FA0);
    }

    /** The last part of cpucore_ret: pop ia3..ia0 and rbp. */
    method RestoreIntegerRegisters(sysmem: SysMem)
      requires sysmem.Valid()
      requires CpuSpec.OpsFit(rsp, CpuSpec.RetPops, 5, 10)
      modifies this
      ensures M(sysmem) == CpuSpec.RunOps(old(M(sysmem)), CpuSpec.RetPops, 5, 10)
    {
      ghost var m0 := M(sysmem);
      CpuSpec.RunOpsSplit(m0, CpuSpec.RetPops, 5, 10);
      IPop(sysmem, CpuSpec.ID_IA3);
      ghost var m1 := M(sysmem);
      CpuSpec.RunOpsSplit(m1, CpuSpec.RetPops, 6, 10);
      IPop(sysmem, CpuSpec.ID_IA2);
      ghost var m2 := M(sysmem);
      CpuSpec.RunOpsSplit(m2, CpuSpec.RetPops, 7, 10);
      IPop(sysmem, CpuSpec.ID_IA1);
      ghost var m3 := M(sysmem);
      CpuSpec.RunOpsSplit(m3, CpuSpec.RetPops, 8, 10);
      IPop(sysmem, CpuSpec.ID_IA0);
      ghost var m4 := M(sysmem);
      CpuSpec.RunOpsSplit(m4, CpuSpec.RetPops, 9, 10);
      IPop(sysmem, CpuSpec.ID_RBP);
    }

    /** cpucore_ret: pop rpc, then the callee-saved registers in the reverse
        order of the pushes. */
    method Ret(sysmem: SysMem)
      requires sysmem.Valid()
      requires CpuSpec.RetFits(rsp)
      modifies this
      ensures M(sysmem) == CpuSpec.Ret(old(M(sysmem)))
    {
      CpuSpec.RunOpsCompose(M(sysmem), CpuSpec.RetPops, 0, 1, 10);
      CpuSpec.RunOpsSplit(M(sysmem), CpuSpec.RetPops, 0, 1);
      IPop(sysmem, CpuSpec.ID_RPC);
      CpuSpec.RunOpsCompose(M(sysmem), CpuSpec.RetPops, 1, 5, 10);
      RestoreFloatRegisters(sysmem);
      RestoreIntegerRegisters(sysmem);
    }

    // ----- immediate value instructions -----

    /** cpucore_isetr. */
    method ISetR(ireg: u8, value: u16)
      modifies this
      ensures State() == CpuSpec.ISetR(old(State()), ireg, value)
    {
      StoreGeneral(ireg, value, ERR_IIMM_REGNOTALWD);
    }

    /** cpucore_fsetr. */
    method FSetR(freg: u8, value: u32)
      modifies this
      ensures State() == CpuSpec.FSetR(old(State()), freg, value)
    {
      StoreF(freg, value);
    }

    // ----- move instructions -----

    /** cpucore_imov: move register `r1` into register `r2`. */
    method IMov(r1: u8, r2: u8)
      modifies this
      ensures State() == CpuSpec.IMov(old(State()), r1, r2)
    {
      var value := GetIRegV(r1);
      StoreGeneral(r2, value, ERR_IMOV_REGNOTALWD);
    }

    /** cpucore_fmov. */
    method FMov(r1: u8, r2: u8)
      modifies this
      ensures State() == CpuSpec.FMov(old(State()), r1, r2)
    {
      var value := GetFRegV(r1);
      StoreF(r2, value);
    }

    /** cpucore_imveq: move `ireg1` into `ireg2` when `ireg3 == ireg4`. */
    method IMvEq(ireg1: u8, ireg2: u8, ireg3: u8, ireg4: u8)
      modifies this
      ensures State() == CpuSpec.CondMove(old(State()), CpuSpec.EQ, ireg1, ireg2, ireg3, ireg4)
    {
      if ireg3 == ireg4 {
        stc := ERR_IREG_CMPTOSELF;
      } else {
        var a := GetIRegV(ireg3);
        var b := GetIRegV(ireg4);
        if a == b {
          IMov(ireg1, ireg2);
        }
      }
    }

    /** cpucore_imvne: move `ireg1` into `ireg2` when `ireg3 != ireg4`. */
    method IMvNe(ireg1: u8, ireg2: u8, ireg3: u8, ireg4: u8)
      modifies this
      ensures State() == CpuSpec.CondMove(old(State()), CpuSpec.NE, ireg1, ireg2, ireg3, ireg4)
    {
      if ireg3 == ireg4 {
        stc := ERR_IREG_CMPTOSELF;
      } else {
        var a := GetIRegV(ireg3);
        var b := GetIRegV(ireg4);
        if a != b {
          IMov(ireg1, ireg2);
        }
      }
    }

    /** cpucore_imvlt: move `ireg1` into `ireg2` when `ireg3 < ireg4`. */
    method IMvLt(ireg1: u8, ireg2: u8, ireg3: u8, ireg4: u8)
      modifies this
      ensures State() == CpuSpec.CondMove(old(State()), CpuSpec.LT, ireg1, ireg2, ireg3, ireg4)
    {
      if ireg3 == ireg4 {
        stc := ERR_IREG_CMPTOSELF;
      } else {
        var a := GetIRegV(ireg3);
        var b := GetIRegV(ireg4);
        if a < b {
          IMov(ireg1, ireg2);
        }
      }
    }

    /** cpucore_imvle: move `ireg1` into `ireg2` when `ireg3 <= ireg4`. */
    method IMvLe(ireg1: u8, ireg2: u8, ireg3: u8, ireg4: u8)
      modifies this
      ensures State() == CpuSpec.CondMove(old(State()), CpuSpec.LE, ireg1, ireg2, ireg3, ireg4)
    {
      if ireg3 == ireg4 {
        stc := ERR_IREG_CMPTOSELF;
      } else {
        var a := GetIRegV(ireg3);
        var b := GetIRegV(ireg4);
        if a <= b {
          IMov(ireg1, ireg2);
        }
      }
    }

    /** cpucore_imvgt: move `ireg1` into `ireg2` when `ireg3 > ireg4`. */
    method IMvGt(ireg1: u8, ireg2: u8, ireg3: u8, ireg4: u8)
      modifies this
      ensures State() == CpuSpec.CondMove(old(State()), CpuSpec.GT, ireg1, ireg2, ireg3, ireg4)
    {
      if ireg3 == ireg4 {
        stc := ERR_IREG_CMPTOSELF;
      } else {
        var a := GetIRegV(ireg3);
        var b := GetIRegV(ireg4);
        if a > b {
          IMov(ireg1, ireg2);
        }
      }
    }

    /** cpucore_imvge: move `ireg1` into `ireg2` when `ireg3 >= ireg4`. */
    method IMvGe(ireg1: u8, ireg2: u8, ireg3: u8, ireg4: u8)
      modifies this
      ensures State() == CpuSpec.CondMove(old(State()), CpuSpec.GE, ireg1, ireg2, ireg3, ireg4)
    {
      if ireg3 == ireg4 {
        stc := ERR_IREG_CMPTOSELF;
      } else {
        var a := GetIRegV(ireg3);
        var b := GetIRegV(ireg4);
        if a >= b {
          IMov(ireg1, ireg2);
        }
      }
    }
  }
}
