/**
 * The sample program that `src/main.rs` builds: one constant, then the bytes
 * `Const 0`, `Neg`, `Return`. The chunk is listed and run once.
 */
module Sample {

  import opened Prims
  import opened OpCodes
  import opened Chunks
  import opened Vm
  import opened Format

  lemma PaddedSmall()
    ensures ZeroPad4(0) == "0000" && ZeroPad4(2) == "0002" && ZeroPad4(3) == "0003"
    ensures Decimal(1) == "1"
  {
    assert Zeros(3) == "000";
    assert Decimal(0) == "0" && Decimal(2) == "2" && Decimal(3) == "3";
  }

  lemma SampleConst<V>(value: V, show: V -> string)
    ensures DisassembleInstr([0, 0, 1, 2], [value], show, 0)
         == Step("0000" + " " + ("CONST " + "0000" + " " + show(value) + "\n"), Done(2))
  {
    PaddedSmall();
    assert FromByte(0) == Done(Const);
  }

  lemma SampleNeg<V>(value: V, show: V -> string)
    ensures DisassembleInstr([0, 0, 1, 2], [value], show, 2)
         == Step("0002" + " " + ("Unknown opcode " + "1"), Done(3))
  {
    PaddedSmall();
    assert FromByte(1) == Done(Neg);
  }

  lemma SampleReturn<V>(value: V, show: V -> string)
    ensures DisassembleInstr([0, 0, 1, 2], [value], show, 3)
         == Step("0003" + " " + ("RET" + "\n"), Done(4))
  {
    PaddedSmall();
    assert FromByte(2) == Done(Return);
  }

  lemma ConstText()
    ensures "0000" + " " + ("CONST " + "0000" + " ") == "0000 CONST 0000 "
  {
  }

  lemma NegText()
    ensures "0002" + " " + ("Unknown opcode " + "1") == "0002 Unknown opcode 1"
  {
  }

  lemma ReturnText()
    ensures "0003" + " " + ("RET" + "\n") == "0003 RET\n"
  {
  }

  lemma Flatten(x: string)
    ensures "0000" + " " + ("CONST " + "0000" + " " + x + "\n")
            + ("0002" + " " + ("Unknown opcode " + "1") + ("0003" + " " + ("RET" + "\n")))
         == "0000 CONST 0000 " + x + "\n" + "0002 Unknown opcode 1" + "0003 RET\n"
  {
    ConstText();
    NegText();
    ReturnText();
    var c := "0000" + " " + ("CONST " + "0000" + " ");
    assert "0000" + " " + ("CONST " + "0000" + " " + x + "\n") == c + x + "\n";
  }

  /** The listing of the sample chunk, instruction by instruction. */
  lemma SampleListing<V>(value: V, show: V -> string)
    ensures ListFrom([0, 0, 1, 2], [value], show, 0)
         == Report("0000 CONST 0000 " + show(value) + "\n" + "0002 Unknown opcode 1" + "0003 RET\n", Done(()))
  {
    var code: seq<Byte>, constants := [0, 0, 1, 2], [value];
    SampleConst(value, show);
    SampleNeg(value, show);
    SampleReturn(value, show);
    var t0 := DisassembleInstr(code, constants, show, 0).text;
    var t2 := DisassembleInstr(code, constants, show, 2).text;
    var t3 := DisassembleInstr(code, constants, show, 3).text;
    assert ListFrom(code, constants, show, 4) == Report([], Done(()));
    assert ListFrom(code, constants, show, 3) == Report(t3 + [], Done(()));
    assert ListFrom(code, constants, show, 2) == Report(t2 + (t3 + []), Done(()));
    assert ListFrom(code, constants, show, 0) == Report(t0 + (t2 + (t3 + [])), Done(()));
    assert t3 + [] == t3;
    Flatten(show(value));
  }

  /**
   * The listing shows the constant, and, since the "Unknown opcode" text of
   * `Neg` ends without a newline, the `Return` at offset 3 on the same line;
   * running gives `Ok` after printing the constant.
   */
  method BuildAndRun<V>(value: V, show: V -> string)
    returns (listing: string, listed: Outcome<()>, result: Outcome<InterpretResult>, printed: Option<V>)
    ensures listing == "0000 CONST 0000 " + show(value) + "\n" + "0002 Unknown opcode 1" + "0003 RET\n"
    ensures listed == Done(())
    ensures result == Done(Ok) && printed == Some(value)
  {
    var chunk := new Chunk<V>();
    var c1 := chunk.AddConstant(value);
    chunk.Write(ToByte(Const));
    chunk.Write(c1 % 256);   // `c1 as u8`
    chunk.Write(ToByte(Neg));
    chunk.Write(ToByte(Return));
    assert chunk.code == [0, 0, 1, 2] && chunk.constants == [value];
    SampleListing(value, show);
    var out := new Sink();
    listed := chunk.Disassemble(out, show);
    listing := out.text;
    var vm := new VM(chunk);
    result, printed := vm.Run();
  }

  /** Successive `add_constant` calls on a new chunk hand out 0, 1, 2. */
  method AddThreeConstants<V>(a: V, b: V, c: V) returns (i: nat, j: nat, k: nat)
    ensures i == 0 && j == 1 && k == 2
  {
    var chunk := new Chunk<V>();
    i := chunk.AddConstant(a);
    j := chunk.AddConstant(b);
    k := chunk.AddConstant(c);
    assert chunk.constants == [a, b, c];
  }
}
