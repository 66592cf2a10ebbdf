/**
 * `src/vm/opcode.rs`: the instruction set, and the conversion of a byte to an
 * instruction (`From<u8>`). The reverse direction is Rust's `op as u8` cast,
 * which yields the variant's position in the declaration.
 */
module OpCodes {

  import opened Prims

  datatype OpCode = Const | Neg | Return

  /** `op as u8`: the discriminant, in declaration order. */
  function ToByte(op: OpCode): (b: Byte)
    ensures b < 3
  {
    match op
    case Const => 0
    case Neg => 1
    case Return => 2
  }

  /** `OpCode::from(byte)`; any byte from 3 on panics with "invalid opcode". */
  function FromByte(b: Byte): (r: Outcome<OpCode>)
    ensures r.Panicked? <==> b >= 3
    ensures r.Panicked? ==> r.fault == InvalidOpcode(b)
  {
    match b
    case 0 => Done(Const)
    case 1 => Done(Neg)
    case 2 => Done(Return)
    case _ => Panicked(InvalidOpcode(b))
  }

  /** Decoding undoes the cast: `OpCode::from(op as u8) == op`. */
  lemma FromToByte(op: OpCode)
    ensures FromByte(ToByte(op)) == Done(op)
  {
  }

  /** On the bytes it accepts, decoding is undone by the cast, so it is injective there. */
  lemma ToFromByte(b: Byte)
    requires b < 3
    ensures FromByte(b).Done? && ToByte(FromByte(b).value) == b
  {
  }

  lemma FromByteInjective(b1: Byte, b2: Byte)
    requires FromByte(b1).Done? && FromByte(b1) == FromByte(b2)
    ensures b1 == b2
  {
    ToFromByte(b1);
    ToFromByte(b2);
  }
}
