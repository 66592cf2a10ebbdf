/**
 * `src/vm/chunk.rs`: a chunk of bytecode (an append-only byte buffer and an
 * append-only constant pool) and its disassembler.
 *
 * Constants are values of an opaque type `V`; the disassembler shows them with
 * the caller's `show` (the `Display` of `Value`, which is not part of this model).
 * The text sink (`fmt::Write`) is a `Sink` whose text only grows; formatting
 * never fails here.
 */
module Chunks {

  import opened Prims
  import opened Format
  import opened OpCodes

  /** Where the listing goes (`out: &mut W`). */
  class Sink {
    var text: string

    constructor ()
      ensures text == []
    {
      text := [];
    }

    method Write(s: string)
      modifies this
      ensures text == old(text) + s
    {
      text := text + s;
    }
  }

  class Chunk<V> {
    var code: seq<Byte>
    var constants: seq<V>

    /** `Chunk::new`: nothing written, no constants. */
    constructor ()
      ensures code == [] && constants == []
    {
      code := [];
      constants := [];
    }

    /** `write`: `byte` becomes the last byte of the code; nothing else changes. */
    method Write(byte: Byte)
      modifies this
      ensures code == old(code) + [byte]
      ensures constants == old(constants)
    {
      code := code + [byte];
    }

    /** `add_constant`: appends `value` to the pool and returns its index, which stays valid. */
    method AddConstant(value: V) returns (index: nat)
      modifies this
      ensures index == |old(constants)|
      ensures constants == old(constants) + [value] && constants[index] == value
      ensures code == old(code)
    {
      constants := constants + [value];
      index := |constants| - 1;
    }

    /**
     * `disassemble` (reached through `Debug for Chunk`): lists one instruction
     * after another, from offset 0, until the end of the code or a panic.
     * It only writes to `out`; the chunk is not in its frame.
     */
    method Disassemble(out: Sink, show: V -> string) returns (r: Outcome<()>)
      modifies out
      ensures out.text == old(out.text) + ListFrom(code, constants, show, 0).text
      ensures r == ListFrom(code, constants, show, 0).result
    {
      ghost var start, whole := out.text, ListFrom(code, constants, show, 0);
      var offset: nat := 0;
      while offset < |code|
        invariant out.text + ListFrom(code, constants, show, offset).text == start + whole.text
        invariant ListFrom(code, constants, show, offset).result == whole.result
        decreases |code| - offset
      {
        var step := DisassembleInstr(code, constants, show, offset);
        ListFromStep(code, constants, show, offset, out.text);
        out.Write(step.text);
        match step.next {
          case Panicked(f) =>
            return Panicked(f);
          case Done(next) =>
            offset := next;
        }
      }
      assert ListFrom(code, constants, show, offset) == Report([], Done(()));
      assert out.text + [] == out.text;
      return Done(());
    }
  }

  /** What listing one instruction gives: its text, and the next offset or a panic. */
  datatype Step = Step(text: string, next: Outcome<nat>)

  /** What the whole walk gives: the text, and whether it ended or panicked. */
  datatype Report = Report(text: string, result: Outcome<()>)

  /** How many bytes the instruction starting with opcode byte `b` takes. */
  function Width(b: Byte): (w: nat)
    ensures w == 1 || w == 2
  {
    if b == ToByte(Const) then 2 else 1
  }

  /** The panic, if any, that listing the instruction at `offset` causes. */
  function InstrFault(code: seq<Byte>, poolSize: nat, offset: nat): Option<Fault>
    requires offset < |code|
  {
    if code[offset] >= 3 then Some(InvalidOpcode(code[offset]))
    else if code[offset] != ToByte(Const) then None
    else if offset + 1 >= |code| then Some(IndexOutOfBounds(offset + 1, |code|))
    else if code[offset + 1] >= poolSize then Some(IndexOutOfBounds(code[offset + 1], poolSize))
    else None
  }

  /** `const_instr`: the operand byte, its padded value and the constant it names. */
  function ConstInstr<V>(code: seq<Byte>, constants: seq<V>, show: V -> string, offset: nat): (s: Step)
    ensures s.next.Done? <==> offset + 1 < |code| && code[offset + 1] < |constants|
    ensures s.next.Done? ==> s.next.value == offset + 2 && |s.text| > 0 && s.text[|s.text| - 1] == '\n'
    ensures s.next.Panicked? ==> s.next.fault.IndexOutOfBounds?
  {
    if offset + 1 >= |code| then Step([], Panicked(IndexOutOfBounds(offset + 1, |code|)))
    else
      var constant := code[offset + 1];
      var shown := "CONST " + ZeroPad4(constant) + " ";
      if constant >= |constants| then Step(shown, Panicked(IndexOutOfBounds(constant, |constants|)))
      else Step(shown + show(constants[constant]) + "\n", Done(offset + 2))
  }

  /** `simple_instr`: the mnemonic on a line of its own. */
  function SimpleInstr(name: string, offset: nat): (s: Step)
    ensures s.next == Done(offset + 1)
    ensures |s.text| == |name| + 1 && s.text[..|name|] == name && s.text[|name|] == '\n'
  {
    Step(name + "\n", Done(offset + 1))
  }

  /**
   * `disassemble_instr`: the offset as `{:04}` and a space, then the
   * instruction. `Neg` falls into the "Unknown opcode" arm, which ends without
   * a newline; a byte from 3 on never gets there, since decoding it panics.
   * The loop of `disassemble` only calls it with `offset < |code|`.
   */
  function DisassembleInstr<V>(code: seq<Byte>, constants: seq<V>, show: V -> string, offset: nat): (s: Step)
    requires offset < |code|
    ensures s.next.Panicked? <==> InstrFault(code, |constants|, offset).Some?
    ensures s.next.Panicked? ==> s.next.fault == InstrFault(code, |constants|, offset).value
    ensures s.next.Done? ==> s.next.value == offset + Width(code[offset]) <= |code|
  {
    var header := ZeroPad4(offset) + " ";
    var body := match FromByte(code[offset])
      case Panicked(f) => Step([], Panicked(f))
      case Done(Const) => ConstInstr(code, constants, show, offset)
      case Done(Return) => SimpleInstr("RET", offset)
      case Done(Neg) => Step("Unknown opcode " + Decimal(code[offset]), Done(offset + 1));
    Step(header + body.text, body.next)
  }

  /** One turn of the loop of `disassemble`: list an instruction, then go on from the next one. */
  lemma ListFromStep<V>(code: seq<Byte>, constants: seq<V>, show: V -> string, offset: nat, before: string)
    requires offset < |code|
    ensures var s := DisassembleInstr(code, constants, show, offset);
      match s.next
      case Panicked(f) =>
        ListFrom(code, constants, show, offset) == Report(s.text, Panicked(f))
      case Done(next) =>
        && before + ListFrom(code, constants, show, offset).text
           == (before + s.text) + ListFrom(code, constants, show, next).text
        && ListFrom(code, constants, show, offset).result == ListFrom(code, constants, show, next).result
  {
    var s := DisassembleInstr(code, constants, show, offset);
    if s.next.Done? {
      var rest := ListFrom(code, constants, show, s.next.value);
      assert before + (s.text + rest.text) == (before + s.text) + rest.text;
    }
  }

  /** The listing from `offset` on, as the `while` loop of `disassemble` produces it. */
  function ListFrom<V>(code: seq<Byte>, constants: seq<V>, show: V -> string, offset: nat): Report
    decreases |code| - offset
  {
    if offset >= |code| then Report([], Done(()))
    else
      var s := DisassembleInstr(code, constants, show, offset);
      match s.next
      case Panicked(f) => Report(s.text, Panicked(f))
      case Done(next) =>
        var rest := ListFrom(code, constants, show, next);
        Report(s.text + rest.text, rest.result)
  }
}

module ChunkWalk {

  import opened Prims
  import opened Format
  import opened OpCodes
  import opened Chunks

  /** The offsets at which the walk of `disassemble` starts an instruction, from `offset` on. */
  function Starts(code: seq<Byte>, offset: nat): (r: seq<nat>)
    ensures |r| > 0 <==> offset < |code|
    ensures |r| > 0 ==> r[0] == offset
    ensures forall k :: 0 <= k < |r| ==> offset <= r[k] < |code|
    ensures forall k :: 0 <= k < |r| - 1 ==> r[k + 1] == r[k] + Width(code[r[k]])
    ensures forall j, k :: 0 <= j < k < |r| ==> r[j] + Width(code[r[j]]) <= r[k]
    decreases |code| - offset
  {
    if offset >= |code| then [] else [offset] + Starts(code, offset + Width(code[offset]))
  }

  /** The instruction starting at `r[k]` takes in byte `i`. */
  ghost predicate Covers(code: seq<Byte>, r: seq<nat>, k: int, i: int)
  {
    0 <= k < |r| && r[k] < |code| && r[k] <= i < r[k] + Width(code[r[k]])
  }

  /** Some instruction of the walk `r` takes in byte `i`. */
  ghost predicate Listed(code: seq<Byte>, r: seq<nat>, i: int)
  {
    exists k :: Covers(code, r, k, i)
  }

  /** No byte belongs to two instructions of a walk. */
  lemma CoversDisjoint(code: seq<Byte>, offset: nat, i: int, k1: int, k2: int)
    requires Covers(code, Starts(code, offset), k1, i) && Covers(code, Starts(code, offset), k2, i)
    ensures k1 == k2
  {
  }

  /**
   * A walk that does not panic visits only instructions that list without a
   * panic, and its last instruction ends exactly at the end of the code.
   */
  lemma {:induction false} WalkEndsAtEnd<V>(code: seq<Byte>, constants: seq<V>, show: V -> string, offset: nat)
    requires ListFrom(code, constants, show, offset).result.Done?
    ensures var r := Starts(code, offset);
      && (forall k :: 0 <= k < |r| ==> DisassembleInstr(code, constants, show, r[k]).next.Done?)
      && (|r| > 0 ==> r[|r| - 1] + Width(code[r[|r| - 1]]) == |code|)
    decreases |code| - offset
  {
    if offset < |code| {
      var next := offset + Width(code[offset]);
      WalkEndsAtEnd(code, constants, show, next);
      var r := Starts(code, offset);
      assert r == [offset] + Starts(code, next);
    }
  }

  lemma {:induction false} CoveredFrom<V>(code: seq<Byte>, constants: seq<V>, show: V -> string, offset: nat, i: nat)
    requires ListFrom(code, constants, show, offset).result.Done?
    requires offset <= i < |code|
    ensures Listed(code, Starts(code, offset), i)
    decreases |code| - offset
  {
    var r := Starts(code, offset);
    var next := offset + Width(code[offset]);
    if i < next {
      assert Covers(code, r, 0, i);
    } else {
      CoveredFrom(code, constants, show, next, i);
      var k :| Covers(code, Starts(code, next), k, i);
      assert r == [offset] + Starts(code, next);
      assert Covers(code, r, k + 1, i);
    }
  }

  /**
   * The walk of a chunk that disassembles without a panic starts at offset 0,
   * moves forward by 1 or 2 bytes at a time, ends exactly at the end of the
   * code, and every byte belongs to exactly one listed instruction.
   */
  lemma EveryByteListedOnce<V>(code: seq<Byte>, constants: seq<V>, show: V -> string)
    requires ListFrom(code, constants, show, 0).result == Done(())
    ensures var r := Starts(code, 0);
      && (|code| > 0 ==> r[0] == 0)
      && (forall k :: 0 <= k < |r| - 1 ==> r[k] < r[k + 1] <= r[k] + 2)
      && (|r| > 0 ==> r[|r| - 1] + Width(code[r[|r| - 1]]) == |code|)
      && (forall i :: 0 <= i < |code| ==> Listed(code, r, i))
      && (forall i, k1, k2 :: Covers(code, r, k1, i) && Covers(code, r, k2, i) ==> k1 == k2)
  {
    var r := Starts(code, 0);
    WalkEndsAtEnd(code, constants, show, 0);
    forall k | 0 <= k < |r| - 1
      ensures r[k] < r[k + 1] <= r[k] + 2
    {
      var w := Width(code[r[k]]);
      assert r[k + 1] == r[k] + w && (w == 1 || w == 2);
    }
    forall i | 0 <= i < |code|
      ensures Listed(code, r, i)
    {
      CoveredFrom(code, constants, show, 0, i);
    }
    forall i, k1, k2 | Covers(code, r, k1, i) && Covers(code, r, k2, i)
      ensures k1 == k2
    {
      CoversDisjoint(code, 0, i, k1, k2);
    }
  }
}

/**
 * Reading the disassembler's text back: each instruction's text starts with
 * its offset, and the mnemonic, the operand and the shown constant can be
 * recovered from it.
 */
module ListingText {

  import opened Prims
  import opened Format
  import opened OpCodes
  import opened Chunks

  /** What one instruction's text says. */
  datatype Line =
    | ConstLine(offset: nat, operand: nat, shown: string)
    | ReturnLine(offset: nat)
    | UnknownLine(offset: nat, byte: nat)

  /** The number at the front of `text` and what follows the space after it. */
  function ReadHeader(text: string): Option<(nat, string)>
  {
    match LeadingNumber(text)
    case None => None
    case Some((offset, rest)) =>
      if rest != [] && rest[0] == ' ' then Some((offset, rest[1..])) else None
  }

  function ReadBody(offset: nat, body: string): Option<Line>
  {
    if body == "RET\n" then Some(ReturnLine(offset))
    else if |body| >= 15 && body[..15] == "Unknown opcode " then
      match LeadingNumber(body[15..])
      case None => None
      case Some((b, tail)) => if tail == [] then Some(UnknownLine(offset, b)) else None
    else if |body| >= 6 && body[..6] == "CONST " then
      match LeadingNumber(body[6..])
      case None => None
      case Some((c, tail)) =>
        if |tail| >= 2 && tail[0] == ' ' && tail[|tail| - 1] == '\n'
        then Some(ConstLine(offset, c, tail[1..|tail| - 1]))
        else None
    else None
  }

  function ReadLine(text: string): Option<Line>
  {
    match ReadHeader(text)
    case None => None
    case Some((offset, body)) => ReadBody(offset, body)
  }

  /** Every instruction's text, a panicking one's included, starts with its offset and a space. */
  lemma InstrTextStartsWithOffset<V>(code: seq<Byte>, constants: seq<V>, show: V -> string, offset: nat)
    requires offset < |code|
    ensures var t := DisassembleInstr(code, constants, show, offset).text;
      ReadHeader(t).Some? && ReadHeader(t).value.0 == offset
  {
    var t := DisassembleInstr(code, constants, show, offset).text;
    var rest := t[|ZeroPad4(offset)|..];
    assert t == ZeroPad4(offset) + rest;
    ReadZeroPad4(offset, rest);
  }

  /**
   * The text of an instruction that lists without a panic reads back as that
   * instruction: a `Const` with its operand byte and the shown constant it
   * names, a `Return`, or byte 1 (`Neg`) as an unknown opcode.
   */
  lemma ReadInstrText<V>(code: seq<Byte>, constants: seq<V>, show: V -> string, offset: nat)
    requires offset < |code|
    requires DisassembleInstr(code, constants, show, offset).next.Done?
    ensures var t := DisassembleInstr(code, constants, show, offset).text;
      && (code[offset] == ToByte(Const) ==>
            ReadLine(t) == Some(ConstLine(offset, code[offset + 1], show(constants[code[offset + 1]]))))
      && (code[offset] == ToByte(Return) ==> ReadLine(t) == Some(ReturnLine(offset)))
      && (code[offset] == ToByte(Neg) ==> ReadLine(t) == Some(UnknownLine(offset, code[offset])))
  {
    var t := DisassembleInstr(code, constants, show, offset).text;
    if code[offset] == ToByte(Const) {
      var c := code[offset + 1];
      assert t == ZeroPad4(offset) + " " + ("CONST " + ZeroPad4(c) + " " + show(constants[c]) + "\n");
      ReadHeaderOf(offset, "CONST " + ZeroPad4(c) + " " + show(constants[c]) + "\n");
      ReadConstBody(offset, c, show(constants[c]));
    } else if code[offset] == ToByte(Neg) {
      assert t == ZeroPad4(offset) + " " + ("Unknown opcode " + Decimal(code[offset]));
      ReadHeaderOf(offset, "Unknown opcode " + Decimal(code[offset]));
      ReadUnknownBody(offset, code[offset]);
    } else if code[offset] == ToByte(Return) {
      assert t == ZeroPad4(offset) + " " + "RET\n";
      ReadHeaderOf(offset, "RET\n");
    }
  }

  lemma ReadHeaderOf(offset: nat, body: string)
    ensures ReadHeader(ZeroPad4(offset) + " " + body) == Some((offset, body))
  {
    var rest := [' '] + body;
    assert ZeroPad4(offset) + " " + body == ZeroPad4(offset) + rest;
    ReadZeroPad4(offset, rest);
    assert rest[1..] == body;
  }

  lemma ReadConstBody(offset: nat, c: nat, shown: string)
    ensures ReadBody(offset, "CONST " + ZeroPad4(c) + " " + shown + "\n") == Some(ConstLine(offset, c, shown))
  {
    var body := "CONST " + ZeroPad4(c) + " " + shown + "\n";
    var tail := " " + shown + "\n";
    assert body == "CONST " + (ZeroPad4(c) + tail);
    assert body[0] == 'C';
    assert body != "RET\n";
    assert |body| >= 15 ==> body[..15] != "Unknown opcode ";
    assert body[..6] == "CONST ";
    assert body[6..] == ZeroPad4(c) + tail;
    ReadZeroPad4(c, tail);
    assert tail[1..|tail| - 1] == shown;
  }

  lemma ReadUnknownBody(offset: nat, b: nat)
    ensures ReadBody(offset, "Unknown opcode " + Decimal(b)) == Some(UnknownLine(offset, b))
  {
    var body := "Unknown opcode " + Decimal(b);
    assert body[0] == 'U';
    assert body != "RET\n";
    assert body[..15] == "Unknown opcode ";
    assert body[15..] == Decimal(b) + [];
    ReadDecimal(b, []);
  }

  /**
   * Every listed instruction ends its line except byte 1 (`Neg`): its
   * "Unknown opcode 1" has no newline, so the next instruction continues it.
   */
  lemma InstrTextEndsLine<V>(code: seq<Byte>, constants: seq<V>, show: V -> string, offset: nat)
    requires offset < |code|
    requires DisassembleInstr(code, constants, show, offset).next.Done?
    ensures var t := DisassembleInstr(code, constants, show, offset).text;
      t != [] && (t[|t| - 1] == '\n' <==> code[offset] != ToByte(Neg))
  {
  }
}
