/** Class Instruction of the assembler (C16_assembler.py): one source line
    becomes the bytes of one instruction, an opcode byte followed by the
    bytes of its fields and zero padding up to the instruction size. */
module AsmInstruction {

  import opened Word
  import opened Wrappers
  import opened PyText
  import I = Instruction
  import CpuDefs

  /** Instruction.instr_size. */
  const INSTR_SIZE: nat := 6

  // ----- the tables of class Instruction -----

  /** Instruction.opcodes: mnemonic to opcode byte. */
  const OPCODES: map<string, u8> := map[
    "NOOP" := 0x00,
    "IPSH" := 0x01, "IPOP" := 0x02, "FPSH" := 0x03, "FPOP" := 0x04,
    "IRDM" := 0x05, "IWTM" := 0x06, "FRDM" := 0x07, "FWTM" := 0x08,
    "JUMP" := 0x09, "IJEQ" := 0x0A, "IJGT" := 0x0B, "IJGE" := 0x0C, "IJLT" := 0x0D, "IJLE" := 0x0E,
    "AND" := 0x0F, "OR" := 0x10, "XOR" := 0x11, "NOT" := 0x12, "RSFT" := 0x13, "LSFT" := 0x14,
    "IADD" := 0x15, "ISUB" := 0x16, "IMUL" := 0x17, "IDIV" := 0x18, "IMOD" := 0x19,
    "FADD" := 0x1A, "FSUB" := 0x1B, "FMUL" := 0x1C, "FDIV" := 0x1D,
    "CALL" := 0x1E, "RET" := 0x1F,
    "ISET" := 0x20, "FSET" := 0x21,
    "IMOV" := 0x22, "FMOV" := 0x23, "IMEQ" := 0x24, "IMNE" := 0x25,
    "IMLT" := 0x26, "IMLE" := 0x27, "IMGT" := 0x28, "IMGE" := 0x29,
    "HALT" := 0x2A]

  /** The kinds of field of an instruction format. */
  datatype Field = Op | Reg | ImmShort | ImmFloat

  const FMT_OP: seq<Field> := [Op]
  const FMT_SHORT: seq<Field> := [Op, ImmShort]
  const FMT_REG: seq<Field> := [Op, Reg]
  const FMT_REG_SHORT: seq<Field> := [Op, Reg, ImmShort]
  const FMT_REG_FLOAT: seq<Field> := [Op, Reg, ImmFloat]
  const FMT_REG_REG: seq<Field> := [Op, Reg, Reg]
  const FMT_REG4: seq<Field> := [Op, Reg, Reg, Reg, Reg]
  const FMT_REG_REG_SHORT: seq<Field> := [Op, Reg, Reg, ImmShort]

  /** Instruction.instr_fmts: mnemonic to the fields its line carries. */
  const FORMATS: map<string, seq<Field>> := map[
    "NOOP" := FMT_OP, "RET" := FMT_OP, "HALT" := FMT_OP,
    "JUMP" := FMT_SHORT, "CALL" := FMT_SHORT,
    "IPSH" := FMT_REG, "IPOP" := FMT_REG, "FPSH" := FMT_REG, "FPOP" := FMT_REG, "NOT" := FMT_REG,
    "IRDM" := FMT_REG_SHORT, "IWTM" := FMT_REG_SHORT, "FRDM" := FMT_REG_SHORT, "FWTM" := FMT_REG_SHORT,
    "RSFT" := FMT_REG_SHORT, "LSFT" := FMT_REG_SHORT, "ISET" := FMT_REG_SHORT,
    "FSET" := FMT_REG_FLOAT,
    "AND" := FMT_REG_REG, "OR" := FMT_REG_REG, "XOR" := FMT_REG_REG,
    "IADD" := FMT_REG_REG, "ISUB" := FMT_REG_REG, "IMUL" := FMT_REG_REG,
    "IDIV" := FMT_REG_REG, "IMOD" := FMT_REG_REG,
    "FADD" := FMT_REG_REG, "FMUL" := FMT_REG_REG, "FSUB" := FMT_REG_REG, "FDIV" := FMT_REG_REG,
    "IMOV" := FMT_REG_REG, "FMOV" := FMT_REG_REG,
    "IMEQ" := FMT_REG4, "IMNE" := FMT_REG4, "IMLT" := FMT_REG4,
    "IMLE" := FMT_REG4, "IMGT" := FMT_REG4, "IMGE" := FMT_REG4,
    "IJEQ" := FMT_REG_REG_SHORT, "IJGT" := FMT_REG_REG_SHORT, "IJGE" := FMT_REG_REG_SHORT,
    "IJLT" := FMT_REG_REG_SHORT, "IJLE" := FMT_REG_REG_SHORT]

  /** Instruction.reg_names: one table for both register files. */
  const REG_NAMES: map<string, u8> := map[
    "rpc" := 0x00, "rsp" := 0x01, "rbp" := 0x02, "ia0" := 0x03,
    "ia1" := 0x04, "ia2" := 0x05, "ia3" := 0x06, "irv" := 0x07,
    "fa0" := 0x00, "fa1" := 0x01, "fa2" := 0x02, "fa3" := 0x03, "frv" := 0x04]

  /** The assembler's name for each integer register. */
  function IRegName(r: CpuDefs.IReg): string {
    match r
    case RPC => "rpc"
    case RSP => "rsp"
    case RBP => "rbp"
    case IA0 => "ia0"
    case IA1 => "ia1"
    case IA2 => "ia2"
    case IA3 => "ia3"
    case IRV => "irv"
  }

  /** The assembler's name for each float register. */
  function FRegName(r: CpuDefs.FReg): string {
    match r
    case FA0 => "fa0"
    case FA1 => "fa1"
    case FA2 => "fa2"
    case FA3 => "fa3"
    case FRV => "frv"
  }

  // ----- encoding one line (Instruction.__init__) -----

  /** Why assembling stopped: the Python exception and what it was about. */
  datatype AsmError =
    | IndexError                      // a missing token
    | KeyError(key: string)           // a label without an address, or no _main_
    | UnknownInstruction(name: string)
    | UnknownRegister(name: string)
    | BadHex(literal: string)         // bytearray.fromhex refused the digits
    | BadFloat(literal: string)       // float() or struct.pack refused the literal
    | TooLarge(size: nat)             // the code does not fit in memory (corrected build only)

  /** `struct.pack("f", float(tok))` read as a 32-bit pattern, or None for a
      ValueError or OverflowError. Float parsing and rounding are not
      modelled, so this is a parameter. */
  type FloatPack = string -> Option<u32>

  /** The bytes of an imm_short token: `bytearray.fromhex(tok.lstrip("0").lstrip("x"))`,
      the digits in the order they are written. */
  function ImmShortBytes(tok: string): Option<seq<u8>> {
    FromHex(LStrip(LStrip(tok, '0'), 'x'))
  }

  /** The bytes one field appends. */
  function FieldBytes(f: Field, tok: string, pack: FloatPack): Result<seq<u8>, AsmError> {
    match f
    case Op => Ok([])
    case Reg => if tok in REG_NAMES then Ok([REG_NAMES[tok]]) else Err(UnknownRegister(tok))
    case ImmShort =>
      (match ImmShortBytes(tok)
       case Some(b) => Ok(b)
       case None => Err(BadHex(tok)))
    case ImmFloat =>
      (match pack(tok)
       case Some(v) => Ok(BytesU32(v))
       case None => Err(BadFloat(tok)))
  }

  /** The bytes fields 1 to n-1 of `fmt` append, read from `tokens`, or the
      first error among them. */
  function Operands(fmt: seq<Field>, tokens: seq<string>, pack: FloatPack, n: nat): Result<seq<u8>, AsmError>
    requires n <= |fmt|
    decreases n
  {
    if n <= 1 then Ok([])
    else
      match Operands(fmt, tokens, pack, n - 1)
      case Err(e) => Err(e)
      case Ok(b) =>
        if n - 1 >= |tokens| then Err(IndexError)
        else
          match FieldBytes(fmt[n - 1], tokens[n - 1], pack)
          case Err(e) => Err(e)
          case Ok(c) => Ok(b + c)
  }

  /** `b` padded with zero bytes up to the instruction size; never cut. */
  function Pad(b: seq<u8>): seq<u8> {
    if |b| < INSTR_SIZE then b + Zeros(INSTR_SIZE - |b|) else b
  }

  /** `n` zero bytes. */
  function Zeros(n: nat): (z: seq<u8>)
    ensures |z| == n && forall i :: 0 <= i < n ==> z[i] == 0
  {
    seq(n, _ => 0)
  }

  /** The bytes `Instruction(line).encoded_` holds, or the exception. */
  function Encoding(line: string, pack: FloatPack): Result<seq<u8>, AsmError> {
    var tokens := Split(line);
    if |tokens| == 0 then Err(IndexError)
    else if tokens[0] !in OPCODES then Err(UnknownInstruction(tokens[0]))
    else
      TablesAgree();
      Assemble(OPCODES[tokens[0]], FORMATS[tokens[0]], tokens, pack)
  }

  /** The instruction with opcode `op` and format `fmt`: the opcode byte,
      the bytes of the fields, zero bytes up to the instruction size. */
  function Assemble(op: u8, fmt: seq<Field>, tokens: seq<string>, pack: FloatPack): Result<seq<u8>, AsmError> {
    match Operands(fmt, tokens, pack, |fmt|)
    case Err(e) => Err(e)
    case Ok(b) => Ok(Pad([op] + b))
  }

  /** Instruction.__init__: split the line, look up the opcode and the
      format, then lay down the fields. */
  method Encode(line: string, pack: FloatPack) returns (r: Result<seq<u8>, AsmError>)
    ensures r == Encoding(line, pack)
  {
    var tokens := Split(line);
    if |tokens| == 0 {
      return Err(IndexError);
    }
    if tokens[0] !in OPCODES {
      return Err(UnknownInstruction(tokens[0]));
    }
    TablesAgree();
    r := EncodeFields(OPCODES[tokens[0]], FORMATS[tokens[0]], tokens, pack);
  }

  /** The loops of Instruction.__init__: append the bytes of each field in
      turn, then pad with zero bytes to the instruction size. */
  method EncodeFields(op: u8, fmt: seq<Field>, tokens: seq<string>, pack: FloatPack) returns (r: Result<seq<u8>, AsmError>)
    ensures r == Assemble(op, fmt, tokens, pack)
  {
    var encoded := [op];
    ghost var ops: seq<u8> := [];
    if |fmt| > 0 {
      for i := 1 to |fmt|
        invariant encoded == [op] + ops
        invariant Operands(fmt, tokens, pack, i) == Ok(ops)
      {
        if i >= |tokens| {
          FirstFailingField(op, fmt, tokens, pack, i);
          return Err(IndexError);
        }
        var c := EncodeField(fmt[i], tokens[i], pack);
        if c.Err? {
          FirstFailingField(op, fmt, tokens, pack, i);
          return Err(c.error);
        }
        OperandsSnoc(fmt, tokens, pack, i, ops, c.value);
        encoded := encoded + c.value;
        ops := ops + c.value;
      }
    }
    assert Assemble(op, fmt, tokens, pack) == Ok(Pad(encoded)) by {
      assert Operands(fmt, tokens, pack, |fmt|) == Ok(ops);
      assert encoded == [op] + ops;
    }
    encoded := PadToSize(encoded);
    r := Ok(encoded);
  }

  /** The while loop of Instruction.__init__: append zero bytes until the
      instruction size is reached. */
  method PadToSize(b: seq<u8>) returns (encoded: seq<u8>)
    ensures encoded == Pad(b)
  {
    encoded := b;
    while |encoded| < INSTR_SIZE
      invariant |b| <= |encoded|
      invariant encoded == b + Zeros(|encoded| - |b|)
      invariant |b| < INSTR_SIZE ==> |encoded| <= INSTR_SIZE
      invariant |b| >= INSTR_SIZE ==> encoded == b
      decreases INSTR_SIZE - |encoded|
    {
      assert Zeros(|encoded| - |b|) + [0] == Zeros(|encoded| + 1 - |b|);
      encoded := encoded + [0];
    }
  }

  /** One pass of the loop over the fields: a register name becomes its
      byte, an imm_short its hexadecimal digits, an imm_float its 4-byte
      pattern. */
  method EncodeField(f: Field, tok: string, pack: FloatPack) returns (r: Result<seq<u8>, AsmError>)
    ensures r == FieldBytes(f, tok, pack)
  {
    r := Ok([]);
    if f == Reg {
      if tok !in REG_NAMES {
        return Err(UnknownRegister(tok));
      }
      r := Ok([REG_NAMES[tok]]);
    } else if f == ImmShort {
      var b := FromHex(LStrip(LStrip(tok, '0'), 'x'));
      if b.None? {
        return Err(BadHex(tok));
      }
      r := Ok(b.value);
    } else if f == ImmFloat {
      var v := pack(tok);
      if v.None? {
        return Err(BadFloat(tok));
      }
      r := Ok(BytesU32(v.value));
    }
  }

  /** The first failing field decides the error of the whole line. */
  lemma {:induction false} OperandsErrorSticks(fmt: seq<Field>, tokens: seq<string>, pack: FloatPack, i: nat, n: nat)
    requires i <= n <= |fmt|
    requires Operands(fmt, tokens, pack, i).Err?
    ensures Operands(fmt, tokens, pack, n) == Operands(fmt, tokens, pack, i)
    decreases n
  {
    if n > i {
      OperandsErrorSticks(fmt, tokens, pack, i, n - 1);
    }
  }

  // ----- properties of the tables -----

  /** Both dicts of class Instruction name the same 43 mnemonics, those of
      the opcode enum. */
  lemma TablesAgree()
    ensures OPCODES.Keys == FORMATS.Keys
  {
  }

  /** The opcode table agrees with the opcode enum of instruction.h, in
      three parts: each mnemonic has the byte of the enum constant of the
      same name. This part covers the no-op and the stack instructions. */
  lemma StackOpcodes()
    ensures "NOOP" in OPCODES && OPCODES["NOOP"] == I.NOOP
    ensures "IPSH" in OPCODES && OPCODES["IPSH"] == I.IPSH
    ensures "IPOP" in OPCODES && OPCODES["IPOP"] == I.IPOP
    ensures "FPSH" in OPCODES && OPCODES["FPSH"] == I.FPSH
    ensures "FPOP" in OPCODES && OPCODES["FPOP"] == I.FPOP
  {
    assert OPCODES["NOOP"] == I.NOOP;
    assert OPCODES["IPSH"] == I.IPSH;
  }

  /** The opcode table agrees with the enum for the memory instructions. */
  lemma MemoryOpcodes()
    ensures "IRDM" in OPCODES && OPCODES["IRDM"] == I.IRDM
    ensures "IWTM" in OPCODES && OPCODES["IWTM"] == I.IWTM
    ensures "FRDM" in OPCODES && OPCODES["FRDM"] == I.FRDM
    ensures "FWTM" in OPCODES && OPCODES["FWTM"] == I.FWTM
  {
  }

  /** The opcode table agrees with the enum for the jump and bitwise instructions. */
  lemma JumpBitwiseOpcodes()
    ensures "JUMP" in OPCODES && OPCODES["JUMP"] == I.JUMP
    ensures "IJEQ" in OPCODES && OPCODES["IJEQ"] == I.IJEQ
    ensures "IJGT" in OPCODES && OPCODES["IJGT"] == I.IJGT
    ensures "IJGE" in OPCODES && OPCODES["IJGE"] == I.IJGE
    ensures "IJLT" in OPCODES && OPCODES["IJLT"] == I.IJLT
    ensures "IJLE" in OPCODES && OPCODES["IJLE"] == I.IJLE
    ensures "AND" in OPCODES && OPCODES["AND"] == I.AND
    ensures "OR" in OPCODES && OPCODES["OR"] == I.OR
    ensures "XOR" in OPCODES && OPCODES["XOR"] == I.XOR
    ensures "NOT" in OPCODES && OPCODES["NOT"] == I.NOT
    ensures "RSFT" in OPCODES && OPCODES["RSFT"] == I.RSFT
    ensures "LSFT" in OPCODES && OPCODES["LSFT"] == I.LSFT
  {
  }

  /** The opcode table agrees with the enum for the arithmetic, call/return, immediate, move instructions and HALT. */
  lemma ArithCallSetMoveOpcodes()
    ensures "IADD" in OPCODES && OPCODES["IADD"] == I.IADD
    ensures "ISUB" in OPCODES && OPCODES["ISUB"] == I.ISUB
    ensures "IMUL" in OPCODES && OPCODES["IMUL"] == I.IMUL
    ensures "IDIV" in OPCODES && OPCODES["IDIV"] == I.IDIV
    ensures "IMOD" in OPCODES && OPCODES["IMOD"] == I.IMOD
    ensures "FADD" in OPCODES && OPCODES["FADD"] == I.FADD
    ensures "FSUB" in OPCODES && OPCODES["FSUB"] == I.FSUB
    ensures "FMUL" in OPCODES && OPCODES["FMUL"] == I.FMUL
    ensures "FDIV" in OPCODES && OPCODES["FDIV"] == I.FDIV
    ensures "CALL" in OPCODES && OPCODES["CALL"] == I.CALL
    ensures "RET" in OPCODES && OPCODES["RET"] == I.RET
    ensures "ISET" in OPCODES && OPCODES["ISET"] == I.ISET
    ensures "FSET" in OPCODES && OPCODES["FSET"] == I.FSET
    ensures "IMOV" in OPCODES && OPCODES["IMOV"] == I.IMOV
    ensures "FMOV" in OPCODES && OPCODES["FMOV"] == I.FMOV
    ensures "IMEQ" in OPCODES && OPCODES["IMEQ"] == I.IMEQ
    ensures "IMNE" in OPCODES && OPCODES["IMNE"] == I.IMNE
    ensures "IMLT" in OPCODES && OPCODES["IMLT"] == I.IMLT
    ensures "IMLE" in OPCODES && OPCODES["IMLE"] == I.IMLE
    ensures "IMGT" in OPCODES && OPCODES["IMGT"] == I.IMGT
    ensures "IMGE" in OPCODES && OPCODES["IMGE"] == I.IMGE
    ensures "HALT" in OPCODES && OPCODES["HALT"] == I.HALT
  {
  }

  /** Every register name assembles to its enum value in cpu.h, and the
      table names exactly the 13 registers. */
  lemma RegistersMatchEnums()
    ensures forall r: CpuDefs.IReg :: IRegName(r) in REG_NAMES && REG_NAMES[IRegName(r)] == CpuDefs.IRegId(r)
    ensures forall r: CpuDefs.FReg :: FRegName(r) in REG_NAMES && REG_NAMES[FRegName(r)] == CpuDefs.FRegId(r)
    ensures forall s :: s in REG_NAMES <==> (exists r: CpuDefs.IReg :: s == IRegName(r)) || (exists r: CpuDefs.FReg :: s == FRegName(r))
  {
    forall s | s in REG_NAMES
      ensures (exists r: CpuDefs.IReg :: s == IRegName(r)) || (exists r: CpuDefs.FReg :: s == FRegName(r))
    {
      if s == "rpc" { assert s == IRegName(CpuDefs.RPC); }
      else if s == "rsp" { assert s == IRegName(CpuDefs.RSP); }
      else if s == "rbp" { assert s == IRegName(CpuDefs.RBP); }
      else if s == "ia0" { assert s == IRegName(CpuDefs.IA0); }
      else if s == "ia1" { assert s == IRegName(CpuDefs.IA1); }
      else if s == "ia2" { assert s == IRegName(CpuDefs.IA2); }
      else if s == "ia3" { assert s == IRegName(CpuDefs.IA3); }
      else if s == "irv" { assert s == IRegName(CpuDefs.IRV); }
      else if s == "fa0" { assert s == FRegName(CpuDefs.FA0); }
      else if s == "fa1" { assert s == FRegName(CpuDefs.FA1); }
      else if s == "fa2" { assert s == FRegName(CpuDefs.FA2); }
      else if s == "fa3" { assert s == FRegName(CpuDefs.FA3); }
      else { assert s == FRegName(CpuDefs.FRV); }
    }
  }

  /** A reg field accepts a name from either register file: the integer
      and the float register with the same number assemble alike, so
      `IPSH fa1` encodes as `IPSH rsp`. */
  lemma RegisterKindNotChecked(r: CpuDefs.FReg)
    ensures exists q: CpuDefs.IReg :: REG_NAMES[IRegName(q)] == REG_NAMES[FRegName(r)]
  {
    RegistersMatchEnums();
    var q := match r
      case FA0 => CpuDefs.RPC
      case FA1 => CpuDefs.RSP
      case FA2 => CpuDefs.RBP
      case FA3 => CpuDefs.IA0
      case FRV => CpuDefs.IA1;
    assert REG_NAMES[IRegName(q)] == REG_NAMES[FRegName(r)];
  }

  // ----- properties of the encoding -----

  /** Padding keeps the bytes, adds zeros only, and reaches the
      instruction size: the result is never cut. */
  lemma PadShape(b: seq<u8>)
    ensures |Pad(b)| == if |b| < INSTR_SIZE then INSTR_SIZE else |b|
    ensures Pad(b)[..|b|] == b
    ensures forall i :: |b| <= i < |Pad(b)| ==> Pad(b)[i] == 0
  {
  }

  /** An encoded line starts with the opcode of its mnemonic, then the
      bytes of its fields in order, then zeros; it has at least
      INSTR_SIZE bytes, and more when its fields need more. */
  lemma EncodingShape(line: string, pack: FloatPack)
    requires Encoding(line, pack).Ok?
    ensures |Split(line)| > 0 && Split(line)[0] in OPCODES && Split(line)[0] in FORMATS
    ensures Operands(FORMATS[Split(line)[0]], Split(line), pack, |FORMATS[Split(line)[0]]|).Ok?
    ensures var b := Encoding(line, pack).value;
            var ops := Operands(FORMATS[Split(line)[0]], Split(line), pack, |FORMATS[Split(line)[0]]|).value;
            b[0] == OPCODES[Split(line)[0]] &&
            |b| == (if 1 + |ops| < INSTR_SIZE then INSTR_SIZE else 1 + |ops|) &&
            b[1..1 + |ops|] == ops &&
            forall i :: 1 + |ops| <= i < |b| ==> b[i] == 0
  {
    var ts := Split(line);
    TablesAgree();
    var ops := Operands(FORMATS[ts[0]], ts, pack, |FORMATS[ts[0]]|).value;
    PadShape([OPCODES[ts[0]]] + ops);
  }

  /** Field `i` of the line has a token and it is acceptable. */
  predicate FieldOk(fmt: seq<Field>, tokens: seq<string>, pack: FloatPack, i: nat)
    requires i < |fmt|
  {
    i < |tokens| && FieldBytes(fmt[i], tokens[i], pack).Ok?
  }

  /** One more field: the fields up to `n` encode exactly when those up
      to `n - 1` do and field `n - 1` has an acceptable token. */
  lemma OperandsStep(fmt: seq<Field>, tokens: seq<string>, pack: FloatPack, n: nat)
    requires 1 < n <= |fmt|
    ensures Operands(fmt, tokens, pack, n).Ok? <==>
      Operands(fmt, tokens, pack, n - 1).Ok? && FieldOk(fmt, tokens, pack, n - 1)
  {
  }

  /** An acceptable token for the next field appends its bytes. */
  lemma OperandsSnoc(fmt: seq<Field>, tokens: seq<string>, pack: FloatPack, n: nat, b: seq<u8>, c: seq<u8>)
    requires 1 <= n < |fmt| && n < |tokens|
    requires Operands(fmt, tokens, pack, n) == Ok(b)
    requires FieldBytes(fmt[n], tokens[n], pack) == Ok(c)
    ensures Operands(fmt, tokens, pack, n + 1) == Ok(b + c)
  {
  }

  /** The fields of a line all encode exactly when each field has a token
      and each token is acceptable for its field. */
  lemma {:induction false} OperandsOk(fmt: seq<Field>, tokens: seq<string>, pack: FloatPack, n: nat)
    requires n <= |fmt|
    ensures Operands(fmt, tokens, pack, n).Ok? <==> forall i :: 1 <= i < n ==> FieldOk(fmt, tokens, pack, i)
    decreases n
  {
    if n > 1 {
      OperandsOk(fmt, tokens, pack, n - 1);
      OperandsStep(fmt, tokens, pack, n);
      if forall i :: 1 <= i < n ==> FieldOk(fmt, tokens, pack, i) {
        assert forall i :: 1 <= i < n - 1 ==> FieldOk(fmt, tokens, pack, i);
        assert FieldOk(fmt, tokens, pack, n - 1);
      }
    }
  }

  /** An empty line is an IndexError, an unknown mnemonic a ValueError,
      and a known one is assembled with its opcode and format. */
  lemma EncodingDispatch(line: string, pack: FloatPack)
    ensures Split(line) == [] ==> Encoding(line, pack) == Err(IndexError)
    ensures |Split(line)| > 0 && Split(line)[0] !in OPCODES ==>
      Encoding(line, pack) == Err(UnknownInstruction(Split(line)[0]))
    ensures |Split(line)| > 0 && Split(line)[0] in OPCODES ==>
      Split(line)[0] in FORMATS &&
      Encoding(line, pack) == Assemble(OPCODES[Split(line)[0]], FORMATS[Split(line)[0]], Split(line), pack)
  {
    TablesAgree();
  }

  /** A known instruction assembles exactly when its format has a token for
      every field and each token is acceptable for its field. */
  lemma AssembleSucceeds(op: u8, fmt: seq<Field>, tokens: seq<string>, pack: FloatPack)
    ensures Assemble(op, fmt, tokens, pack).Ok? <==> forall i :: 1 <= i < |fmt| ==> FieldOk(fmt, tokens, pack, i)
  {
    OperandsOk(fmt, tokens, pack, |fmt|);
  }

  /** The first field that fails decides the exception: a missing token is
      an IndexError, an unknown register name, a bad hexadecimal literal
      or a float literal that does not pack is a ValueError naming it. */
  lemma FirstFailingField(op: u8, fmt: seq<Field>, tokens: seq<string>, pack: FloatPack, i: nat)
    requires 1 <= i < |fmt|
    requires Operands(fmt, tokens, pack, i).Ok?
    ensures i >= |tokens| ==> Assemble(op, fmt, tokens, pack) == Err(IndexError)
    ensures i < |tokens| && FieldBytes(fmt[i], tokens[i], pack).Err? ==>
      Assemble(op, fmt, tokens, pack) == Err(FieldBytes(fmt[i], tokens[i], pack).error)
    ensures i < |tokens| && fmt[i] == Reg && tokens[i] !in REG_NAMES ==>
      Assemble(op, fmt, tokens, pack) == Err(UnknownRegister(tokens[i]))
  {
    OperandsNext(fmt, tokens, pack, i);
    if i >= |tokens| || FieldBytes(fmt[i], tokens[i], pack).Err? {
      OperandsErrorSticks(fmt, tokens, pack, i + 1, |fmt|);
    }
  }

  /** Field `i` fails with a missing token or its own error, or appends its bytes. */
  lemma OperandsNext(fmt: seq<Field>, tokens: seq<string>, pack: FloatPack, i: nat)
    requires 1 <= i < |fmt|
    requires Operands(fmt, tokens, pack, i).Ok?
    ensures i >= |tokens| ==> Operands(fmt, tokens, pack, i + 1) == Err(IndexError)
    ensures i < |tokens| && FieldBytes(fmt[i], tokens[i], pack).Err? ==>
      Operands(fmt, tokens, pack, i + 1) == Err(FieldBytes(fmt[i], tokens[i], pack).error)
  {
  }

  /** An imm_short literal with an odd number of digits after its leading
      zeros and x's are stripped is refused; e.g. "0x6". */
  lemma OddDigitsRefused(tok: string)
    requires NoSpace(tok)
    requires |LStrip(LStrip(tok, '0'), 'x')| % 2 == 1
    ensures ImmShortBytes(tok).None?
  {
    var t1 := LStrip(tok, '0');
    SuffixNoSpace(tok, |tok| - |t1|);
    var t := LStrip(t1, 'x');
    SuffixNoSpace(t1, |t1| - |t|);
    FromHexLength(t);
  }

  /** Stripping a "0x" prefix leaves the digits behind it, whatever the first digit is. */
  lemma StripHexPrefix(d: string)
    requires |d| > 0 && d[0] != 'x'
    ensures LStrip(LStrip("0x" + d, '0'), 'x') == d
  {
    assert "0x" + d == ['0'] + (['x'] + d);
    LStripStep(['x'] + d, '0');
    LStripStep(d, 'x');
  }

  /** The digit pairs of two bytes decode to those two bytes, high pair first. */
  lemma PairsDecode(hi: u8, lo: u8)
    ensures FromHex(HexPair(hi) + HexPair(lo)) == Some([hi, lo])
  {
    FromHexPair(lo, "");
    assert HexPair(lo) + "" == HexPair(lo);
    assert FromHex("") == Some([]);
    FromHexPair(hi, HexPair(lo));
    assert [hi] + ([lo] + []) == [hi, lo];
  }

  /** A literal "0x" followed by two digit pairs is assembled to those two bytes in
      the order written. */
  lemma ShortLiteralBytes(hi: u8, lo: u8)
    ensures ImmShortBytes("0x" + HexPair(hi) + HexPair(lo)) == Some([hi, lo])
  {
    var d := HexPair(hi) + HexPair(lo);
    assert "0x" + HexPair(hi) + HexPair(lo) == "0x" + d;
    StripHexPrefix(d);
    PairsDecode(hi, lo);
  }
}
