/** Instruction words: the encoders and the decoders the machine uses. A word has
    four bytes; operands that do not fit their bytes are cut off silently. */
module BcInstr {
  type Word = nat

  datatype Instr =
    | Move(a: int, b: int)
    | LoadI(a: int, i: int)
    | LoadK(a: int, k: int)
    | LoadFalse(a: int)
    | LoadTrue(a: int)
    | LoadNull(a: int)
    | LoadVoid(a: int)
    | GetUpDict(a: int, b: int, c: int)
    | SetUpDict(a: int, b: int, c: int)
    | Jmp(target: int)
    | FJmp(a: int, target: int)
    | Call(a: int, b: int)
    | Invalid(word: Word)

  const OP_MOVE := 1
  const OP_LOADI := 2
  const OP_LOADK := 3
  const OP_LOADFALSE := 4
  const OP_LOADTRUE := 5
  const OP_LOADNULL := 6
  const OP_LOADVOID := 7
  const OP_GETUPDICT := 11
  const OP_SETUPDICT := 12
  const OP_JMP := 15
  const OP_FJMP := 16
  const OP_CALL := 17

  function U8(n: int): (u: nat)
    ensures u < 256
  {
    n % 256
  }

  function U16(n: int): (u: nat)
    ensures u < 65536
  {
    n % 65536
  }

  function U24(n: int): (u: nat)
    ensures u < 16777216
  {
    n % 16777216
  }

  function IA(op: nat, a: int): Word {
    op + 256 * U8(a)
  }

  function IAB(op: nat, a: int, b: int): Word {
    op + 256 * U8(a) + 65536 * U8(b)
  }

  function IABC(op: nat, a: int, b: int, c: int): Word {
    op + 256 * U8(a) + 65536 * U8(b) + 16777216 * U8(c)
  }

  function IABx(op: nat, a: int, bx: int): Word {
    op + 256 * U8(a) + 65536 * U16(bx)
  }

  function IAx(op: nat, ax: int): Word {
    op + 256 * U24(ax)
  }

  function GetOp(w: Word): nat {
    w % 256
  }

  function GetA(w: Word): nat {
    w / 256 % 256
  }

  function GetB(w: Word): nat {
    w / 65536 % 256
  }

  function GetC(w: Word): nat {
    w / 16777216 % 256
  }

  function GetAx(w: Word): nat {
    w / 256
  }

  function GetBx(w: Word): nat {
    w / 65536 % 65536
  }

  /** The same two bytes read as a signed number. */
  function GetsBx(w: Word): int {
    if GetBx(w) < 32768 then GetBx(w) else GetBx(w) - 65536
  }

  function Encode(i: Instr): Word {
    match i
    case Move(a, b) => IAB(OP_MOVE, a, b)
    case LoadI(a, n) => IABx(OP_LOADI, a, n)
    case LoadK(a, k) => IABx(OP_LOADK, a, k)
    case LoadFalse(a) => IA(OP_LOADFALSE, a)
    case LoadTrue(a) => IA(OP_LOADTRUE, a)
    case LoadNull(a) => IA(OP_LOADNULL, a)
    case LoadVoid(a) => IA(OP_LOADVOID, a)
    case GetUpDict(a, b, c) => IABC(OP_GETUPDICT, a, b, c)
    case SetUpDict(a, b, c) => IABC(OP_SETUPDICT, a, b, c)
    case Jmp(t) => IAx(OP_JMP, t)
    case FJmp(a, t) => IABx(OP_FJMP, a, t)
    case Call(a, b) => IAB(OP_CALL, a, b)
    case Invalid(w) => w
  }

  function Decode(w: Word): Instr {
    var op := GetOp(w);
    if op == OP_MOVE then Move(GetA(w), GetB(w))
    else if op == OP_LOADI then LoadI(GetA(w), GetsBx(w))
    else if op == OP_LOADK then LoadK(GetA(w), GetBx(w))
    else if op == OP_LOADFALSE then LoadFalse(GetA(w))
    else if op == OP_LOADTRUE then LoadTrue(GetA(w))
    else if op == OP_LOADNULL then LoadNull(GetA(w))
    else if op == OP_LOADVOID then LoadVoid(GetA(w))
    else if op == OP_GETUPDICT then GetUpDict(GetA(w), GetB(w), GetC(w))
    else if op == OP_SETUPDICT then SetUpDict(GetA(w), GetB(w), GetC(w))
    else if op == OP_JMP then Jmp(GetAx(w))
    else if op == OP_FJMP then FJmp(GetA(w), GetBx(w))
    else if op == OP_CALL then Call(GetA(w), GetB(w))
    else Invalid(w)
  }

  /** The lowest byte of a word is the number the instruction has in the opcode table, and
      the next ones hold its operands. */
  lemma WordsAre(i: Instr)
    ensures var w := Encode(i);
      match i
      case Move(a, b) => w % 256 == 1 && w / 256 % 256 == a % 256 && w / 65536 == b % 256
      case LoadI(a, n) => w % 256 == 2 && w / 256 % 256 == a % 256 && w / 65536 == n % 65536
      case LoadK(a, k) => w % 256 == 3 && w / 256 % 256 == a % 256 && w / 65536 == k % 65536
      case LoadFalse(a) => w % 256 == 4 && w / 256 == a % 256
      case LoadTrue(a) => w % 256 == 5 && w / 256 == a % 256
      case LoadNull(a) => w % 256 == 6 && w / 256 == a % 256
      case LoadVoid(a) => w % 256 == 7 && w / 256 == a % 256
      case GetUpDict(a, b, c) => w % 256 == 11 && w / 256 % 256 == a % 256 && w / 65536 % 256 == b % 256 && w / 16777216 == c % 256
      case SetUpDict(a, b, c) => w % 256 == 12 && w / 256 % 256 == a % 256 && w / 65536 % 256 == b % 256 && w / 16777216 == c % 256
      case Jmp(t) => w % 256 == 15 && w / 256 == t % 16777216
      case FJmp(a, t) => w % 256 == 16 && w / 256 % 256 == a % 256 && w / 65536 == t % 65536
      case Call(a, b) => w % 256 == 17 && w / 256 % 256 == a % 256 && w / 65536 == b % 256
      case Invalid(word) => w == word
  {
    match i
    case Move(a, b) => PartsApart(1, a % 256, b % 256);
    case LoadI(a, n) => PartsApart(2, a % 256, n % 65536);
    case LoadK(a, k) => PartsApart(3, a % 256, k % 65536);
    case LoadFalse(a) => PartsApart(4, a % 256, 0);
    case LoadTrue(a) => PartsApart(5, a % 256, 0);
    case LoadNull(a) => PartsApart(6, a % 256, 0);
    case LoadVoid(a) => PartsApart(7, a % 256, 0);
    case GetUpDict(a, b, c) => BytesApart(11, a % 256, b % 256, c % 256);
    case SetUpDict(a, b, c) => BytesApart(12, a % 256, b % 256, c % 256);
    case Jmp(t) => OpApart(15, t % 16777216);
    case FJmp(a, t) => PartsApart(16, a % 256, t % 65536);
    case Call(a, b) => PartsApart(17, a % 256, b % 256);
    case Invalid(_) =>
  }

  lemma OpApart(p: nat, q: nat)
    requires p < 256
    ensures (p + 256 * q) % 256 == p && (p + 256 * q) / 256 == q
  {
  }

  lemma PartsApart(p: nat, q: nat, r: nat)
    requires p < 256 && q < 256
    ensures var w := p + 256 * q + 65536 * r; w % 256 == p && w / 256 % 256 == q && w / 65536 == r && (r == 0 ==> w / 256 == q)
  {
    assert (p + 256 * q + 65536 * r) / 256 == q + 256 * r;
  }

  lemma BytesApart(p: nat, q: nat, r: nat, s: nat)
    requires p < 256 && q < 256 && r < 256
    ensures var w := p + 256 * q + 65536 * r + 16777216 * s;
      w % 256 == p && w / 256 % 256 == q && w / 65536 % 256 == r && w / 16777216 == s
  {
    var w := p + 256 * q + 65536 * r + 16777216 * s;
    assert w / 256 == q + 256 * (r + 256 * s);
    assert w / 65536 == r + 256 * s;
  }

  predicate Byte(n: int) {
    0 <= n < 256
  }

  /** The operands fit the bytes they are put in. */
  predicate Fits(i: Instr) {
    match i
    case Move(a, b) => Byte(a) && Byte(b)
    case LoadI(a, n) => Byte(a) && -32768 <= n < 32768
    case LoadK(a, k) => Byte(a) && 0 <= k < 65536
    case LoadFalse(a) => Byte(a)
    case LoadTrue(a) => Byte(a)
    case LoadNull(a) => Byte(a)
    case LoadVoid(a) => Byte(a)
    case GetUpDict(a, b, c) => Byte(a) && Byte(b) && Byte(c)
    case SetUpDict(a, b, c) => Byte(a) && Byte(b) && Byte(c)
    case Jmp(t) => 0 <= t < 16777216
    case FJmp(a, t) => Byte(a) && 0 <= t < 65536
    case Call(a, b) => Byte(a) && Byte(b)
    case Invalid(_) => true
  }

  lemma IABDecodes(op: nat, a: int, b: int)
    requires op < 256
    ensures var w := IAB(op, a, b); GetOp(w) == op && GetA(w) == U8(a) && GetB(w) == U8(b)
  {
  }

  lemma IABCDecodes(op: nat, a: int, b: int, c: int)
    requires op < 256
    ensures var w := IABC(op, a, b, c); GetOp(w) == op && GetA(w) == U8(a) && GetB(w) == U8(b) && GetC(w) == U8(c)
  {
    hide U8;
    var w := IABC(op, a, b, c);
    var high := U8(b) + 256 * U8(c);
    assert w / 65536 == high;
    assert w / 16777216 == U8(c);
    assert w / 256 == U8(a) + 256 * high;
  }

  lemma IABxDecodes(op: nat, a: int, bx: int)
    requires op < 256
    ensures var w := IABx(op, a, bx); GetOp(w) == op && GetA(w) == U8(a) && GetBx(w) == U16(bx)
  {
  }

  lemma IAxDecodes(op: nat, ax: int)
    requires op < 256
    ensures var w := IAx(op, ax); GetOp(w) == op && GetAx(w) == U24(ax)
  {
  }

  lemma IADecodes(op: nat, a: int)
    requires op < 256
    ensures var w := IA(op, a); GetOp(w) == op && GetA(w) == U8(a)
  {
  }

  lemma CutOff(n: int)
    ensures U8(n) == n <==> Byte(n)
    ensures U16(n) == n <==> 0 <= n < 65536
    ensures U24(n) == n <==> 0 <= n < 16777216
  {
  }

  lemma SignedDecodes(op: nat, a: int, n: int)
    requires op < 256
    ensures GetsBx(IABx(op, a, n)) == n <==> -32768 <= n < 32768
  {
    hide IABx, GetBx, GetA, GetOp;
    IABxDecodes(op, a, n);
  }

  /** The machine reads back what the compiler wrote exactly when the operands fit. */
  lemma DecodeEncode(i: Instr)
    requires !i.Invalid?
    ensures Decode(Encode(i)) == i <==> Fits(i)
  {
    hide IA, IAB, IABC, IABx, IAx, GetOp, GetA, GetB, GetC, GetAx, GetBx, GetsBx, U8, U16, U24;
    match i
    case Move(a, b) => IABDecodes(OP_MOVE, a, b); CutOff(a); CutOff(b);
    case LoadI(a, n) => IABxDecodes(OP_LOADI, a, n); SignedDecodes(OP_LOADI, a, n); CutOff(a);
    case LoadK(a, k) => IABxDecodes(OP_LOADK, a, k); CutOff(a); CutOff(k);
    case LoadFalse(a) => IADecodes(OP_LOADFALSE, a); CutOff(a);
    case LoadTrue(a) => IADecodes(OP_LOADTRUE, a); CutOff(a);
    case LoadNull(a) => IADecodes(OP_LOADNULL, a); CutOff(a);
    case LoadVoid(a) => IADecodes(OP_LOADVOID, a); CutOff(a);
    case GetUpDict(a, b, c) => IABCDecodes(OP_GETUPDICT, a, b, c); CutOff(a); CutOff(b); CutOff(c);
    case SetUpDict(a, b, c) => IABCDecodes(OP_SETUPDICT, a, b, c); CutOff(a); CutOff(b); CutOff(c);
    case Jmp(t) => IAxDecodes(OP_JMP, t); CutOff(t);
    case FJmp(a, t) => IABxDecodes(OP_FJMP, a, t); CutOff(a); CutOff(t);
    case Call(a, b) => IABDecodes(OP_CALL, a, b); CutOff(a); CutOff(b);
  }
}
