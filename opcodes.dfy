/**
 * The oma instruction set. The compiler and the shu virtual machine declare
 * the same enumeration in the same order, so one datatype serves both; the
 * numeric value of an opcode is its position, Nul = 0 up to Ret = 42.
 */
module Opcodes {
  import opened Wrappers

  datatype Opcode =
      Nul | Tru | Fls | Flt | Int | Str | Arr | Map
    | Lmd | Nal | Pop | Lod | Sav | Lou | Sau | Clu
    | Jmp | Jit | Jif | Dup | Swp | Rot | Add | Sub
    | Mul | Div | Rem | Neg | Eql | Neq | Gtn | Gte
    | Ltn | Lte | Not | Get | Set | Apn | Tag | Utg
    | Gtg | Cal | Ret

  /** The number of opcodes; every numeric value is below it, hence below 64. */
  const OPCODE_COUNT: nat := 43

  /** The numeric value of an opcode (`op as u8`). */
  function Code(op: Opcode): (n: nat)
    ensures n < OPCODE_COUNT
  {
    match op
    case Nul => 0
    case Tru => 1
    case Fls => 2
    case Flt => 3
    case Int => 4
    case Str => 5
    case Arr => 6
    case Map => 7
    case Lmd => 8
    case Nal => 9
    case Pop => 10
    case Lod => 11
    case Sav => 12
    case Lou => 13
    case Sau => 14
    case Clu => 15
    case Jmp => 16
    case Jit => 17
    case Jif => 18
    case Dup => 19
    case Swp => 20
    case Rot => 21
    case Add => 22
    case Sub => 23
    case Mul => 24
    case Div => 25
    case Rem => 26
    case Neg => 27
    case Eql => 28
    case Neq => 29
    case Gtn => 30
    case Gte => 31
    case Ltn => 32
    case Lte => 33
    case Not => 34
    case Get => 35
    case Set => 36
    case Apn => 37
    case Tag => 38
    case Utg => 39
    case Gtg => 40
    case Cal => 41
    case Ret => 42
  }

  /** `Opcode::from_u8`: the opcode with a given numeric value, if any. */
  function FromCode(n: int): (r: Option<Opcode>)
    ensures r.Some? <==> 0 <= n < OPCODE_COUNT
  {
    match n
    case 0 => Some(Nul)
    case 1 => Some(Tru)
    case 2 => Some(Fls)
    case 3 => Some(Flt)
    case 4 => Some(Int)
    case 5 => Some(Str)
    case 6 => Some(Arr)
    case 7 => Some(Map)
    case 8 => Some(Lmd)
    case 9 => Some(Nal)
    case 10 => Some(Pop)
    case 11 => Some(Lod)
    case 12 => Some(Sav)
    case 13 => Some(Lou)
    case 14 => Some(Sau)
    case 15 => Some(Clu)
    case 16 => Some(Jmp)
    case 17 => Some(Jit)
    case 18 => Some(Jif)
    case 19 => Some(Dup)
    case 20 => Some(Swp)
    case 21 => Some(Rot)
    case 22 => Some(Add)
    case 23 => Some(Sub)
    case 24 => Some(Mul)
    case 25 => Some(Div)
    case 26 => Some(Rem)
    case 27 => Some(Neg)
    case 28 => Some(Eql)
    case 29 => Some(Neq)
    case 30 => Some(Gtn)
    case 31 => Some(Gte)
    case 32 => Some(Ltn)
    case 33 => Some(Lte)
    case 34 => Some(Not)
    case 35 => Some(Get)
    case 36 => Some(Set)
    case 37 => Some(Apn)
    case 38 => Some(Tag)
    case 39 => Some(Utg)
    case 40 => Some(Gtg)
    case 41 => Some(Cal)
    case 42 => Some(Ret)
    case _ => None
  }

  /** Decoding a value below 43 names the opcode with exactly that value. */
  lemma CodeOfFromCode(n: int)
    requires 0 <= n < OPCODE_COUNT
    ensures Code(FromCode(n).value) == n
  {
  }

  /** Numbering is injective: decoding an opcode's value gives back that opcode. */
  lemma FromCodeOfCode(op: Opcode)
    ensures FromCode(Code(op)) == Some(op)
  {
  }

  /** The opcodes that are followed by an operand in the instruction stream. */
  predicate HasOperand(op: Opcode) {
    op in {Flt, Int, Str, Lmd, Nal, Lod, Sav, Lou, Sau, Jmp, Jit, Jif, Cal}
  }
}
