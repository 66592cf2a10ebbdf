# rlox bytecode core, modelled in Dafny

This project models the working part of a small Rust bytecode virtual machine
for a Lox-like language. The compiler is still a stub, so the model covers four
pieces:

- the **chunk** (`src/vm/chunk.rs`). It holds an append-only byte buffer
  `code` and an append-only constant pool `constants`. Its **disassembler**
  walks the code from offset 0. Each instruction's text starts with its offset
  as `{:04}`. The walk advances 2 bytes for `Const` and 1 byte otherwise.
- **opcode decoding** (`src/vm/opcode.rs`). Bytes 0, 1 and 2 become `Const`,
  `Neg` and `Return`, and any other byte panics. The inverse is the `as u8`
  discriminant cast.
- the **VM** (`src/vm/mod.rs`). It owns a chunk and an instruction pointer
  `ip`. `run` fetches and dispatches exactly one instruction.
- **tokens** (`src/compiler/token.rs`). This covers how token kinds are shown,
  `u32` spans and their conversions to and from `Range<usize>`, and the source
  text a token covers.

Modules: `Prims` holds the machine integers, `Fault` and `Outcome`. `Format`
holds `{}`, `{:04}` and reading a number back. `OpCodes`, `Chunks`, `ChunkWalk`
and `ListingText` model the disassembler and its walk. `Vm`, `Sample` and
`Tokens` cover the rest.

Design choices:

- A Rust panic is an explicit outcome, `Panicked(fault)`. It is either an
  out-of-range index or `invalid opcode`. This lets the contracts state exactly
  when the disassembler and the VM panic.
- Constants have an opaque type `V`, because `Value` is not part of this model.
  The disassembler shows a constant with a `show: V -> string` parameter, which
  stands for `Display for Value`.
- The `fmt::Write` sink is a `Sink` object whose text only grows.
- The VM holds its chunk in a constant field, and its methods may modify only
  `ip`.
- The constant that `run` prints is returned as `printed`.
- `main.rs` casts the constant index with `as u8`. `Sample.BuildAndRun`
  writes that cast as `% 256`.

The code is modelled as written, including these quirks, each stated by a
lemma:

- Byte 1 (`Neg`) is listed as `Unknown opcode 1` with no newline, so the next
  instruction continues the same line (`ListingText.InstrTextEndsLine`,
  `Sample.SampleListing`).
- `read_constant` decodes its operand as an opcode. `run` therefore panics on a
  constant index of 3 or more, even when the pool holds that constant. The
  disassembler accepts any index below the pool size
  (`Vm.ConstantAt`, `Vm.OperandThreeListedNotRun`).

## Model

| member | source | states |
|---|---|---|
| `Format.DecimalDigits` | src/vm/chunk.rs:46 | `{}` of a number is a non-empty string of digits whose value is the number |
| `Format.ZeroPad4Digits` | src/vm/chunk.rs:41 | `{:04}` gives only digits, at least four of them, and exactly four iff the number is below 10000; its value is the number |
| `Format.ReadZeroPad4` | src/vm/chunk.rs:54 | reading a number back from a `{:04}` rendering recovers the number and the text after it |
| `Format.ReadDecimal` | src/vm/chunk.rs:46 | reading a number back from a `{}` rendering recovers the number and the text after it |
| `OpCodes.ToByte` | src/vm/opcode.rs:2-6 | the declaration-order discriminant (`op as u8`) is always below 3 |
| `OpCodes.FromByte` | src/vm/opcode.rs:8-16 | decoding panics with `InvalidOpcode(b)` exactly for the bytes from 3 on |
| `OpCodes.FromToByte` | src/vm/opcode.rs:8-16 | `from(op as u8) == op` for every opcode |
| `OpCodes.ToFromByte` | src/vm/opcode.rs:10-13 | every byte below 3 decodes, and casting the result gives the byte back |
| `OpCodes.FromByteInjective` | src/vm/opcode.rs:10-13 | two bytes that decode to the same opcode are equal |
| `Chunks.Chunk.constructor` | src/vm/chunk.rs:12-17 | a new chunk has empty code and an empty pool |
| `Chunks.Chunk.Write` | src/vm/chunk.rs:19-21 | the byte is appended to the code; earlier bytes and the pool are unchanged |
| `Chunks.Chunk.AddConstant` | src/vm/chunk.rs:23-26 | the index returned is the old pool length and holds the value; earlier constants and the code are unchanged |
| `Chunks.Chunk.Disassemble` | src/vm/chunk.rs:28-34 | the sink receives the listing of the whole walk from offset 0, and the result says whether it panicked; only the sink changes |
| `Chunks.Width` | src/vm/chunk.rs:43-48 | an instruction takes 1 or 2 bytes |
| `Chunks.ConstInstr` | src/vm/chunk.rs:52-58 | a `Const` lists without a panic iff its operand byte exists and indexes the pool; it then ends its line and advances by 2, and otherwise the panic is an index out of bounds |
| `Chunks.SimpleInstr` | src/vm/chunk.rs:60-68 | the mnemonic is followed by a newline and the offset advances by 1 |
| `Chunks.DisassembleInstr` | src/vm/chunk.rs:36-50 | listing an instruction panics exactly on a byte from 3 on, or on a `Const` whose operand byte is missing or names no constant; otherwise the next offset is the instruction's width further and within the code |
| `Chunks.ListFromStep` | src/vm/chunk.rs:30-32 | one loop turn: the listing from an offset is this instruction's text followed by the listing from the next offset, or stops at its panic |
| `ChunkWalk.Starts` | src/vm/chunk.rs:29-32 | the offsets the walk visits start at the first offset, stay inside the code, and each is the previous plus that instruction's width |
| `ChunkWalk.CoversDisjoint` | src/vm/chunk.rs:29-32 | no byte belongs to two instructions of the walk |
| `ChunkWalk.WalkEndsAtEnd` | src/vm/chunk.rs:29-33 | in a walk without a panic, every visited instruction lists cleanly and the last one ends exactly at the end of the code |
| `ChunkWalk.EveryByteListedOnce` | src/vm/chunk.rs:28-34 | a panic-free walk starts at 0, moves forward by 1 or 2, ends at the end of the code, and every byte belongs to exactly one listed instruction |
| `ListingText.InstrTextStartsWithOffset` | src/vm/chunk.rs:41 | every instruction's text, a panicking one's included, starts with its offset and a space |
| `ListingText.ReadInstrText` | src/vm/chunk.rs:41-68 | an instruction's text reads back as that instruction: `Const` with its operand and the shown constant, `Return`, or `Unknown opcode 1` for `Neg` |
| `ListingText.InstrTextEndsLine` | src/vm/chunk.rs:44-48 | a listed instruction ends with a newline iff it is not `Neg` |
| `Vm.VM.constructor` | src/vm/mod.rs:39-41 | the VM keeps the chunk it is given and starts at `ip == 0` |
| `Vm.VM.ReadInstr` | src/vm/mod.rs:58-62 | past the end it panics and leaves `ip`; otherwise it returns the decoding of `code[ip]` and advances `ip` by exactly 1 |
| `Vm.VM.ReadConstant` | src/vm/mod.rs:64-67 | it consumes one byte and gives `constants[b]` only for an operand below 3 and below the pool size, and panics otherwise |
| `Vm.ConstantAt` | src/vm/mod.rs:64-67 | a constant read succeeds iff the operand is below 3 and below the pool size, and then gives the constant at that index |
| `Vm.VM.Run` | src/vm/mod.rs:43-56 | one instruction is dispatched: `Const` gives `Ok` with `ip` + 2 after printing its constant, `Return` gives `Ok` and `Neg` gives `RuntimeError` with `ip` + 1; never `CompileError`, and the chunk is unchanged |
| `Vm.OperandThreeListedNotRun` | src/vm/mod.rs:64-67 | operand 3 with four constants lists cleanly but panics as an invalid opcode when run |
| `Sample.SampleListing` | src/main.rs:6-12 | the listing of `Const 0`, `Neg`, `Return` with one constant, where `Return` follows `Unknown opcode 1` on the same line |
| `Sample.BuildAndRun` | src/main.rs:6-15 | building the sample chunk, listing it and running it gives that listing, `Ok`, and the constant printed |
| `Sample.AddThreeConstants` | src/vm/chunk.rs:23-26 | successive `add_constant` calls on a new chunk return 0, 1, 2 |
| `Tokens.KindText` | src/compiler/token.rs:223-267 | every kind displays as a non-empty text |
| `Tokens.KindTextRoundTrip` | src/compiler/token.rs:223-267 | reading a kind's display back gives the kind |
| `Tokens.KindTextInjective` | src/compiler/token.rs:223-267 | two kinds with the same display are equal |
| `Tokens.KindTextIsTokenText` | src/compiler/token.rs:11-92 | a punctuation, operator or keyword kind displays as exactly the text its `#[token]` attribute matches (the braces as one `{` and `}`) |
| `Tokens.CategoryKindText` | src/compiler/token.rs:245-265 | `Number`, `String`, `Ident`, `Error` and `Eof` display as "Number", "String", "Ident", "Error" and "EOF" |
| `Tokens.NewSpan` | src/compiler/token.rs:277-279 | the span keeps both bounds as given |
| `Tokens.SpanOfRange` | src/compiler/token.rs:282-289 | each bound is kept iff it is below 2^32, and is otherwise reduced mod 2^32 |
| `Tokens.RangeOfSpan` | src/compiler/token.rs:291-298 | widening to `usize` keeps both bounds |
| `Tokens.SpanRangeRoundTrip` | src/compiler/token.rs:282-298 | span to range to span is the identity |
| `Tokens.RangeSpanRoundTrip` | src/compiler/token.rs:282-298 | range to span to range is the identity iff both bounds are below 2^32 |
| `Tokens.Slice` | src/compiler/token.rs:300-306 | the slice has length `end - start` and the source is what precedes it, then the slice, then what follows it |
| `Tokens.NewToken` | src/compiler/token.rs:315-317 | the token keeps its kind and span as given |
| `Tokens.Lit` | src/compiler/token.rs:319-321 | the literal has length `end - start` and its `i`-th character is the source's at `start + i` |

## Left out

- The lexer derived by `logos`, with its regular expressions and token
  matching: that code is generated by a library that is not part of this model.
  `TokenAttribute` records only the fixed texts of the `#[token]` attributes.
- `compile` in `src/compiler/mod.rs` is `todo!()`, so it has no behaviour to
  model.
- The `main.rs` driver: process entry, `env_logger`, and `println!` of the
  listing. `main.rs` calls `write` with a second line argument that `write`
  does not take, so the sample uses the one-argument `write` of `chunk.rs`.
- `Value` (`src/vm/value.rs` is not part of this model) and its
  floating-point contents. Constants have an opaque type and their `Display` is
  the `show` parameter.
- `println!` in `run` is not modelled as output. The printed constant is
  returned as `printed`.
- `fmt::Error` propagated by `?` in the disassembler: the model's sink never
  fails.
- `Display for Token`: it uses derived `Debug` output, which is not part of
  this model.
- `Tokens.Slice`: works on characters and does not model the panic
  `str` slicing raises at a position that is not a UTF-8 character boundary.
  Its precondition states only the range condition.
- `Chunks.DisassembleInstr`: requires `offset < |code|`, which its only
  caller, the loop of `disassemble`, guarantees. The text written before a
  panic is kept, but not the state a panic unwinds.
- `Vm.VM.Run`: the source's `loop` is not kept as a loop, because every arm
  returns and the body runs exactly once.
- The VM's chunk is owned in Rust and shared by reference here. The VM never
  modifies it, but the model does not rule out other code holding the same
  reference.
