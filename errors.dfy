/** Status codes written into the CPU's `stc` register (error.h).
    A status of 0 means "no error"; every code below is nonzero, so any of
    them stops the fetch-execute loop. */
module Errors {

  import opened Word

  // CPU error codes start at 0x01
  const ERR_IPUSH_RSP: u8 := 0x01
  const ERR_IPOP_RSP: u8 := 0x02
  const ERR_UNREC_IREG: u8 := 0x03
  const ERR_UNREC_FREG: u8 := 0x04
  const ERR_IREG_CMPTOSELF: u8 := 0x05
  const ERR_IADD_OVRFLW: u8 := 0x06
  const ERR_IADD_REGNOTALWD: u8 := 0x07
  const ERR_ISUB_REGNOTALWD: u8 := 0x08
  const ERR_ISUB_UNDRFLW: u8 := 0x09
  const ERR_IMUL_OVRFLW: u8 := 0x0A
  const ERR_IDIV_REGNOTALWD: u8 := 0x0B
  const ERR_IMOD_REGNOTALWD: u8 := 0x0C
  const ERR_BIN_REGNOTALWD: u8 := 0x0D
  const ERR_IIMM_REGNOTALWD: u8 := 0x0F
  const ERR_IMOV_REGNOTALWD: u8 := 0x10

  // memory error codes start at 0x41
  const ERR_SMEM_MAXADR: u8 := 0x41

  // instruction error codes start at 0x51
  const ERR_UNREC_INSTR: u8 := 0x51

  /** Every error code the header declares, in declaration order. */
  const AllErrors: seq<u8> := [
    ERR_IPUSH_RSP, ERR_IPOP_RSP, ERR_UNREC_IREG, ERR_UNREC_FREG,
    ERR_IREG_CMPTOSELF, ERR_IADD_OVRFLW, ERR_IADD_REGNOTALWD,
    ERR_ISUB_REGNOTALWD, ERR_ISUB_UNDRFLW, ERR_IMUL_OVRFLW,
    ERR_IDIV_REGNOTALWD, ERR_IMOD_REGNOTALWD, ERR_BIN_REGNOTALWD,
    ERR_IIMM_REGNOTALWD, ERR_IMOV_REGNOTALWD,
    ERR_SMEM_MAXADR,
    ERR_UNREC_INSTR
  ]

  predicate IsError(c: u8) {
    c in AllErrors
  }

  /** The three bands the header assigns: CPU, memory, instruction. */
  predicate IsCpuError(c: u8) { 0x01 <= c <= 0x10 && c in AllErrors }
  predicate IsMemoryError(c: u8) { c == ERR_SMEM_MAXADR }
  predicate IsInstrError(c: u8) { c == ERR_UNREC_INSTR }

  /** No two codes coincide and none is the "no error" value 0. */
  lemma {:induction false} ErrorCodesDistinctNonzero()
    ensures forall i, j :: 0 <= i < j < |AllErrors| ==> AllErrors[i] != AllErrors[j]
    ensures forall i :: 0 <= i < |AllErrors| ==> AllErrors[i] != 0
    ensures |AllErrors| == 17
  {
  }

  /** Every code lies in exactly one of the three bands. */
  lemma ErrorBands(c: u8)
    requires IsError(c)
    ensures IsCpuError(c) <==> !(IsMemoryError(c) || IsInstrError(c))
    ensures IsCpuError(c) || IsMemoryError(c) || IsInstrError(c)
    ensures IsCpuError(c) ==> c <= 0x10
  {
  }

  /** Code 0x0E is the only gap in the CPU band. */
  lemma CpuBandGap(c: u8)
    requires 0x01 <= c <= 0x10
    ensures IsCpuError(c) <==> c != 0x0E
  {
  }
}
