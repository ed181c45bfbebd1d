/**
 * Opcodes, instructions and their 64-bit encoding (internal/chunk.go).
 *
 * The other modules work on decoded instructions; the lemmas here say exactly
 * when the machine word written by encode gives the same instruction back.
 */
module Chunks {

  datatype OpCode =
    | Noop
    | LoadGoroutineDump | LoadFieldAccessor | LoadNumber | LoadString
    | Assignment | PushBool | PushDump | Dup
    | AddGoroutine | NextGoroutine | TempDump | ResetDump
    | Contains | In | RegexMatches | RegexNotMatches
    | Equal | Greater | GreaterEqual | Less | LessEqual | NotEqual
    | JumpIfFalse | JumpIfTrue | JumpTo | Call | Return
    | FuncDiff | FuncIntersect | FuncLoad | FuncSave | FuncShowDump
    | FuncToJSON | FuncToDot | FuncUnion | FuncGraph
    | CommandChangeDir | CommandEmpty | CommandGetWorkingDir | CommandHelp
    | CommandListDir | CommandQuit | CommandVars | CommandSetPragma | CommandGetPragma

  /** A decoded instruction. */
  datatype Instr = Instr(op: OpCode, arg: nat)

  type Chunk = seq<Instr>

  /** The operand a forward jump carries until it is patched. */
  const PATCH_PLACEHOLDER: nat := 0xffff

  /** The constants a program refers to by index. */
  datatype Const = CNum(n: int) | CStr(s: string) | CMulti(targets: seq<nat>)

  /** All chunks of a program (chunk 0 is the main one) and their constants. */
  datatype Code = Code(chunks: seq<Chunk>, consts: seq<Const>)

  predicate IsJump(op: OpCode) {
    op.JumpIfFalse? || op.JumpIfTrue? || op.JumpTo? || op.NextGoroutine?
  }

  const JUMP_TABLE_SIZE: nat := 46

  /** The number of an opcode is its position in the jump table. */
  function Number(op: OpCode): (n: nat)
    ensures n < JUMP_TABLE_SIZE < 0x200
  {
    match op
    case Noop => 0
    case LoadGoroutineDump => 1
    case LoadFieldAccessor => 2
    case LoadNumber => 3
    case LoadString => 4
    case Assignment => 5
    case PushBool => 6
    case PushDump => 7
    case Dup => 8
    case AddGoroutine => 9
    case NextGoroutine => 10
    case TempDump => 11
    case ResetDump => 12
    case Contains => 13
    case In => 14
    case RegexMatches => 15
    case RegexNotMatches => 16
    case Equal => 17
    case Greater => 18
    case GreaterEqual => 19
    case Less => 20
    case LessEqual => 21
    case NotEqual => 22
    case JumpIfFalse => 23
    case JumpIfTrue => 24
    case JumpTo => 25
    case Call => 26
    case Return => 27
    case FuncDiff => 28
    case FuncIntersect => 29
    case FuncLoad => 30
    case FuncSave => 31
    case FuncShowDump => 32
    case FuncToJSON => 33
    case FuncToDot => 34
    case FuncUnion => 35
    case FuncGraph => 36
    case CommandChangeDir => 37
    case CommandEmpty => 38
    case CommandGetWorkingDir => 39
    case CommandHelp => 40
    case CommandListDir => 41
    case CommandQuit => 42
    case CommandVars => 43
    case CommandSetPragma => 44
    case CommandGetPragma => 45
  }

  /** The opcode at a position of the jump table. */
  function Numbered(n: nat): OpCode {
    if n < 16 then Numbered0(n) else if n < 32 then Numbered1(n) else Numbered2(n)
  }

  function Numbered0(n: nat): OpCode {
    match n
    case 0 => Noop
    case 1 => LoadGoroutineDump
    case 2 => LoadFieldAccessor
    case 3 => LoadNumber
    case 4 => LoadString
    case 5 => Assignment
    case 6 => PushBool
    case 7 => PushDump
    case 8 => Dup
    case 9 => AddGoroutine
    case 10 => NextGoroutine
    case 11 => TempDump
    case 12 => ResetDump
    case 13 => Contains
    case 14 => In
    case _ => RegexMatches
  }

  function Numbered1(n: nat): OpCode {
    match n
    case 16 => RegexNotMatches
    case 17 => Equal
    case 18 => Greater
    case 19 => GreaterEqual
    case 20 => Less
    case 21 => LessEqual
    case 22 => NotEqual
    case 23 => JumpIfFalse
    case 24 => JumpIfTrue
    case 25 => JumpTo
    case 26 => Call
    case 27 => Return
    case 28 => FuncDiff
    case 29 => FuncIntersect
    case 30 => FuncLoad
    case _ => FuncSave
  }

  function Numbered2(n: nat): OpCode {
    match n
    case 32 => FuncShowDump
    case 33 => FuncToJSON
    case 34 => FuncToDot
    case 35 => FuncUnion
    case 36 => FuncGraph
    case 37 => CommandChangeDir
    case 38 => CommandEmpty
    case 39 => CommandGetWorkingDir
    case 40 => CommandHelp
    case 41 => CommandListDir
    case 42 => CommandQuit
    case 43 => CommandVars
    case 44 => CommandSetPragma
    case _ => CommandGetPragma
  }

  lemma NumberedBack(op: OpCode)
    ensures Numbered(Number(op)) == op
  {
    match op
    case Noop => case LoadGoroutineDump => case LoadFieldAccessor => case LoadNumber => case LoadString =>
    case Assignment => case PushBool => case PushDump => case Dup => case AddGoroutine => case NextGoroutine =>
    case TempDump => case ResetDump => case Contains => case In => case RegexMatches => case RegexNotMatches =>
    case Equal => case Greater => case GreaterEqual => case Less => case LessEqual => case NotEqual =>
    case JumpIfFalse => case JumpIfTrue => case JumpTo => case Call => case Return => case FuncDiff =>
    case FuncIntersect => case FuncLoad => case FuncSave => case FuncShowDump => case FuncToJSON =>
    case FuncToDot => case FuncUnion => case FuncGraph => case CommandChangeDir => case CommandEmpty =>
    case CommandGetWorkingDir => case CommandHelp => case CommandListDir => case CommandQuit =>
    case CommandVars => case CommandSetPragma => case CommandGetPragma =>
  }

  /** encode: the opcode goes to bit 55 and up, the operand is or-ed in. */
  function Encode(op: bv64, val: bv64): bv64 {
    (op << 55) | val
  }

  /** decode: everything above bit 55 is the opcode, the low 48 bits the operand. */
  function Decode(word: bv64): (bv64, bv64) {
    (word >> 55, word & !0xffff_0000_0000_0000)
  }

  /** Decoding gives back what was encoded exactly for 9-bit opcodes and 48-bit operands. */
  lemma EncodingSurvives(op: bv64, val: bv64)
    ensures Decode(Encode(op, val)) == (op, val) <==> op < 0x200 && val < 0x1_0000_0000_0000
  {
  }

  // ----- instructions as machine words -----

  /** The last k bits of a number. */
  function Bits(n: nat, k: bv64): bv64
    decreases k
  {
    if k == 0 then 0 else WithBit(Bits(n / 2, k - 1), n % 2 == 1)
  }

  function WithBit(w: bv64, last: bool): bv64 {
    (w << 1) | (if last then 1 else 0)
  }

  lemma BitAdded(w: bv64, k: bv64, last: bool)
    requires 0 < k <= 48 && w >> (k - 1) == 0
    ensures WithBit(w, last) >> k == 0
  {
  }

  lemma {:induction false} BitsFit(n: nat, k: bv64)
    requires k <= 48
    ensures Bits(n, k) >> k == 0
    decreases k
  {
    hide WithBit, Bits;
    if k == 0 {
      NothingFits(n);
    } else {
      BitsFit(n / 2, k - 1);
      BitAdded(Bits(n / 2, k - 1), k, n % 2 == 1);
      BitsUnfold(n, k);
    }
  }

  lemma NothingFits(n: nat)
    ensures Bits(n, 0) >> 0 == 0
  {
  }

  /** The number a word stands for. */
  function Value(w: bv64): nat
    decreases w
  {
    if w == 0 then 0
    else
      Halved(w);
      2 * Value(w >> 1) + (if w & 1 == 1 then 1 else 0)
  }

  lemma Halved(w: bv64)
    ensures w != 0 ==> w >> 1 < w
  {
  }

  lemma BitRemoved(w: bv64, k: bv64, last: bool)
    requires k < 48 && w >> k == 0
    ensures WithBit(w, last) >> 1 == w && (WithBit(w, last) & 1 == 1 <==> last)
    ensures WithBit(w, last) == 0 <==> w == 0 && !last
  {
  }

  function Pow2(k: bv64): nat {
    if k == 0 then 1 else 2 * Pow2(k - 1)
  }

  lemma ValueWithBit(w: bv64, k: bv64, last: bool)
    requires k < 48 && w >> k == 0
    ensures Value(WithBit(w, last)) == 2 * Value(w) + (if last then 1 else 0)
  {
    BitRemoved(w, k, last);
    hide WithBit;
    var v := WithBit(w, last);
    if v == 0 {
      assert Value(w) == 0;
    } else {
      assert Value(v) == 2 * Value(v >> 1) + (if v & 1 == 1 then 1 else 0);
    }
  }

  /** The bits of a number that fits stand for it. */
  lemma {:induction false} BitsValue(n: nat, k: bv64)
    requires k <= 48 && n < Pow2(k)
    ensures Value(Bits(n, k)) == n
    decreases k
  {
    hide WithBit, Value, Pow2, Bits;
    if k == 0 {
      NoBits(n);
    } else {
      HalfFits(n, k);
      BitsValue(n / 2, k - 1);
      BitsFit(n / 2, k - 1);
      BitsUnfold(n, k);
      ValueWithBit(Bits(n / 2, k - 1), k - 1, n % 2 == 1);
    }
  }

  lemma NoBits(n: nat)
    ensures n < Pow2(0) ==> Value(Bits(n, 0)) == n
  {
  }

  lemma HalfFits(n: nat, k: bv64)
    requires k != 0 && n < Pow2(k)
    ensures n / 2 < Pow2(k - 1) && n == 2 * (n / 2) + if n % 2 == 1 then 1 else 0
  {
  }

  lemma BitsUnfold(n: nat, k: bv64)
    requires k != 0
    ensures Bits(n, k) == WithBit(Bits(n / 2, k - 1), n % 2 == 1)
  {
    hide WithBit;
  }

  /** The opcode of an instruction as a machine word. */
  function OpWord(op: OpCode): bv64 {
    Bits(Number(op), 9)
  }

  /** The operand of an instruction as a machine word. */
  function ArgWord(arg: nat): bv64 {
    Bits(arg, 48)
  }

  lemma WordsFit(op: OpCode, arg: nat)
    ensures OpWord(op) < 0x200 && ArgWord(arg) < 0x1_0000_0000_0000
  {
    hide Bits, Number;
    BitsFit(Number(op), 9);
    BitsFit(arg, 48);
    Small(OpWord(op));
    Small(ArgWord(arg));
  }

  lemma Small(w: bv64)
    ensures w >> 9 == 0 ==> w < 0x200
    ensures w >> 48 == 0 ==> w < 0x1_0000_0000_0000
  {
  }

  lemma LowBitRanges()
    ensures Pow2(9) == 0x200 && Pow2(24) == 0x100_0000
  {
    assert Pow2(8) == 0x100;
    assert Pow2(16) == 0x1_0000;
  }

  lemma BitRanges()
    ensures Pow2(9) == 0x200 && Pow2(48) == 0x1_0000_0000_0000
  {
    LowBitRanges();
    assert Pow2(32) == 0x1_0000_0000;
    assert Pow2(40) == 0x100_0000_0000;
  }

  function Word(x: Instr): bv64 {
    Encode(OpWord(x.op), ArgWord(x.arg))
  }

  /** The instruction a machine word stands for. */
  function FromWord(word: bv64): Instr {
    var (op, arg) := Decode(word);
    Instr(Numbered(Value(op)), Value(arg))
  }

  /** The machine word of an instruction decodes to the instruction. */
  lemma WordBack(x: Instr)
    requires x.arg < 0x1_0000_0000_0000
    ensures FromWord(Word(x)) == x
  {
    hide Number, Numbered, Bits, Value, Encode, Decode, Pow2;
    WordsFit(x.op, x.arg);
    EncodingSurvives(OpWord(x.op), ArgWord(x.arg));
    BitRanges();
    BitsValue(Number(x.op), 9);
    BitsValue(x.arg, 48);
    NumberedBack(x.op);
  }

  /** So different instructions have different words. */
  lemma WordDetermines(x: Instr, y: Instr)
    requires x.arg < 0x1_0000_0000_0000 && y.arg < 0x1_0000_0000_0000
    requires Word(x) == Word(y)
    ensures x == y
  {
    hide Word, FromWord;
    WordBack(x);
    WordBack(y);
  }
}
