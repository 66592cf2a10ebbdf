/**
 * `src/vm/mod.rs`: the virtual machine. It owns a chunk and an instruction
 * pointer `ip`; `run` fetches one instruction, dispatches on it and returns.
 *
 * The VM never changes its chunk: `chunk` is a constant field and every
 * method may change `ip` only. The constant that `run` prints is returned as
 * `printed` instead of being written to standard output.
 */
module Vm {

  import opened Prims
  import opened OpCodes
  import opened Chunks

  datatype InterpretResult = Ok | CompileError | RuntimeError

  class VM<V> {
    const chunk: Chunk<V>
    var ip: nat

    /** `VM::new`: the chunk as given, execution at its first byte. */
    constructor (chunk: Chunk<V>)
      ensures this.chunk == chunk && ip == 0
    {
      this.chunk := chunk;
      ip := 0;
    }

    /**
     * `read_instr`: the byte at `ip`, decoded; `ip` moves past it. Indexing
     * past the end panics before `ip` moves; a byte from 3 on panics in the
     * decoding, after `ip` has moved.
     */
    method ReadInstr() returns (r: Outcome<OpCode>)
      modifies this`ip
      ensures old(ip) >= |chunk.code| ==>
        r == Panicked(IndexOutOfBounds(old(ip), |chunk.code|)) && ip == old(ip)
      ensures old(ip) < |chunk.code| ==> ip == old(ip) + 1 && r == FromByte(chunk.code[old(ip)])
    {
      if ip >= |chunk.code| {
        return Panicked(IndexOutOfBounds(ip, |chunk.code|));
      }
      var instr := chunk.code[ip];
      ip := ip + 1;
      r := FromByte(instr);
    }

    /**
     * `read_constant`: reads the operand byte through `read_instr`, so it is
     * decoded as an opcode and only the operands 0, 1 and 2 get past it; the
     * opcode's discriminant then indexes the constant pool.
     */
    method ReadConstant() returns (r: Outcome<V>)
      modifies this`ip
      ensures old(ip) >= |chunk.code| ==>
        r == Panicked(IndexOutOfBounds(old(ip), |chunk.code|)) && ip == old(ip)
      ensures old(ip) < |chunk.code| ==> ip == old(ip) + 1 && r == ConstantAt(chunk.code[old(ip)], chunk.constants)
    {
      var op := ReadInstr();
      match op {
        case Panicked(f) =>
          return Panicked(f);
        case Done(o) =>
          var index := ToByte(o);
          if index >= |chunk.constants| {
            return Panicked(IndexOutOfBounds(index, |chunk.constants|));
          }
          return Done(chunk.constants[index]);
      }
    }

    /**
     * `run`: every arm of its `loop` returns, so exactly one instruction is
     * dispatched. `Const` reads and prints its constant and gives `Ok`,
     * `Return` gives `Ok`, and `Neg` (not implemented) gives `RuntimeError`;
     * `CompileError` never comes out, and at most two bytes are consumed.
     */
    method Run() returns (r: Outcome<InterpretResult>, printed: Option<V>)
      modifies this`ip
      ensures chunk.code == old(chunk.code) && chunk.constants == old(chunk.constants)
      ensures r != Done(CompileError)
      ensures printed.Some? ==> r == Done(Ok)
      ensures old(ip) <= ip <= old(ip) + 2
      ensures old(ip) >= |chunk.code| ==> r == Panicked(IndexOutOfBounds(old(ip), |chunk.code|))
      ensures old(ip) < |chunk.code| && chunk.code[old(ip)] >= 3 ==>
        r == Panicked(InvalidOpcode(chunk.code[old(ip)]))
      ensures old(ip) < |chunk.code| && chunk.code[old(ip)] == ToByte(Return) ==>
        r == Done(Ok) && printed == None && ip == old(ip) + 1
      ensures old(ip) < |chunk.code| && chunk.code[old(ip)] == ToByte(Neg) ==>
        r == Done(RuntimeError) && printed == None && ip == old(ip) + 1
      ensures old(ip) < |chunk.code| && chunk.code[old(ip)] == ToByte(Const) ==>
        (old(ip) + 1 >= |chunk.code| ==>
          r == Panicked(IndexOutOfBounds(old(ip) + 1, |chunk.code|)) && ip == old(ip) + 1) &&
        (old(ip) + 1 < |chunk.code| ==>
          ip == old(ip) + 2 &&
          match ConstantAt(chunk.code[old(ip) + 1], chunk.constants)
          case Done(v) => r == Done(Ok) && printed == Some(v)
          case Panicked(f) => r == Panicked(f))
    {
      printed := None;
      var instr := ReadInstr();
      match instr {
        case Panicked(f) =>
          return Panicked(f), None;
        case Done(Const) =>
          var constant := ReadConstant();
          match constant {
            case Panicked(f) =>
              return Panicked(f), None;
            case Done(v) =>
              return Done(Ok), Some(v);
          }
        case Done(Return) =>
          return Done(Ok), None;
        case Done(_) =>
          return Done(RuntimeError), None;
      }
    }
  }

  /**
   * What `read_constant` gives for operand byte `b`: a byte from 3 on panics
   * as an invalid opcode; otherwise the byte indexes the pool, which panics
   * past its end.
   */
  function ConstantAt<V>(b: Byte, constants: seq<V>): (r: Outcome<V>)
    ensures r.Done? <==> b < 3 && b < |constants|
    ensures r.Done? ==> r.value == constants[b]
    ensures b >= 3 ==> r == Panicked(InvalidOpcode(b))
    ensures b < 3 <= |constants| ==> r.Done?
  {
    match FromByte(b)
    case Panicked(f) => Panicked(f)
    case Done(op) =>
      var index := ToByte(op);
      if index >= |constants| then Panicked(IndexOutOfBounds(index, |constants|))
      else Done(constants[index])
  }

  /**
   * The disassembler and `run` disagree on operands: the listing accepts any
   * operand below the pool size, while `run` decodes the operand as an
   * opcode and panics on 3 even when the pool holds four constants.
   */
  lemma OperandThreeListedNotRun<V>(constants: seq<V>, show: V -> string)
    requires |constants| >= 4
    ensures DisassembleInstr([ToByte(Const), 3], constants, show, 0).next == Done(2)
    ensures ConstantAt(3, constants) == Panicked(InvalidOpcode(3))
  {
  }
}
