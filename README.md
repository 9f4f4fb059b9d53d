# oma, shu, rox, sl2, the toy VM and the GraphQL paging helpers in Dafny

A model of the core of a repository of small programming-language projects, with proofs about it:

- **oma compiler** (`oma-compiler`): the lexer, the source-span helpers, the Pratt parser producing the AST, the local-slot counter, and the code generator that lowers the AST to shu bytecode (contexts, locals, upvalues, jump placeholders and their patching, `if`, `while`, `case`, map and array literals, lambdas), plus the writer of the executable container.
- **shu VM**: the opcode table, the container decoder (proved the inverse of the writer), runtime values with their heap arrays, maps and upvalue cells, the native-lambda registry, the fiber stack, one handler per opcode in the fiber, and the VM's set-up and stepping loop.
- **toy virtual machine**: instruction decoding, typed operands with two's-complement wrap-around, the byte operand stack and the execute loop.
- **rox** (a clox port): the scanner, the chunk and the single-pass compiler to stack bytecode.
- **scripting-language-2**: the chunk and the recursive-descent parser, with a round trip from expression trees through their printed tokens to the chunk.
- **GraphQL helpers**: `paginatedResolver` (cursor paging) and `getObjects` (filtering a keyed object).

State the source changes in place is modelled as a `class` whose methods are proved equal to a specification function of the old state (`ensures State() == Spec(old(State()))`); the properties are lemmas about those functions. Floating-point arithmetic, I/O and host callbacks are parameters.

The sl2 parser, `push_load` and the pop in the assignment rule are modelled as written. The rox rule table is modelled as written, with `!=` binding at no level. The oma `if` lowering is modelled as written, with its end `Jmp` emitted without an operand placeholder, and `GenExpr` uses it. Each of these has a corrected counterpart with its intended property proved, listed under "## Findings".

The main proofs, for a reader who wants the substance before the full table:

- `Bytes.FromLEBound`, `Bytes.FromLEOfLE` and `Bytes.LEOfFromLE`: little-endian words are bounded, and encoding and decoding them are inverses.
- `ContainerParse.RoundTrip`: loading the bytes the compiler wrote, followed by any trailing bytes, gives back the same function. It rests on `ChunkRoundTrip`, `DataRoundTrip`, `ConstantRoundTrip` and `FunctionConstantRoundTrip`, proved by mutual induction.
- `CompilerChunk.DecodeEncoded`: an emitted instruction decodes to the same opcode and to its operand masked to the width of its size class, and occupies exactly the emitted bytes.
- `OmaGenCase.CaseJumps` and `OmaGenCase.ArmsJumps`: where every jump of a lowered `case` lands.
- `Sl2Grammar.ParseRoundTrip`: parsing the printed tokens of a well-formed expression followed by end of file gives exactly one chunk, the one the as-written parser builds for it.
- `ShuFiber.Fiber.Step` and its two-state predicate `ShuFiber.Fiber.Executed`: one fiber step is one opcode handler, with its effect on the stack, containers, cells and frames, and no other object the fiber reaches changes.
- `ShuVm.RunStops` and `ShuVm.RunAllRunning`: the stepping loop stops at the first Done, Yield or error and returns that error unchanged, and it runs out of fuel exactly when every step was Running.
- `ShuVm.Vm.Resume` with `ShuVm.StepOwes` and `ShuVm.RunEndsOk`: every step of the loop owes what `Fiber.Step` promises from the state before it, and the run finishes Ok exactly when its last step was a `ret` with no frame.
- `PaginatedResolver.PagingVisitsAll`: following the cursors from the first page, with any limit of at least one, returns every value in key order.

## Model

| member | source | states |
|---|---|---|
| Opcodes.FromCode | programming-languages/scripting-language-3/crates/shu/src/opcode.rs:3-57 | a numeric value names an opcode exactly when it is below 43 |
| Opcodes.CodeOfFromCode | programming-languages/scripting-language-3/crates/shu/src/opcode.rs:3-57 | decoding a value below 43 gives the opcode with exactly that value |
| Opcodes.FromCodeOfCode | programming-languages/scripting-language-3/crates/shu/src/opcode.rs:3-57 | the numbering is injective: an opcode's own value decodes back to it |
| ShuChunk.RawCode | programming-languages/scripting-language-3/crates/shu/src/chunk.rs:94-97 | the raw code is the high six bits: below 64, and four times it plus the low two bits is the byte |
| ShuChunk.OpcodeOf | programming-languages/scripting-language-3/crates/shu/src/chunk.rs:86-88 | an instruction byte names an opcode exactly when its raw code is below 43 |
| ShuChunk.Size | programming-languages/scripting-language-3/crates/shu/src/chunk.rs:99-107 | the operand size is 0, 1, 2, 4 or 8; non-zero exactly for a known opcode that takes an operand, and then 2 to the power of the low two bits |
| ShuChunk.ReadLE | programming-languages/scripting-language-3/crates/shu/src/chunk.rs:110-130 | the read succeeds exactly when all n bytes are present, and the value is the little-endian number those bytes spell |
| ShuChunk.OpAt | programming-languages/scripting-language-3/crates/shu/src/chunk.rs:24-38 | an instruction is found exactly when its byte and all its operand bytes are present; its operand is 0 without operand bytes and otherwise the little-endian value of those bytes |
| ShuChunk.ConstantAt | programming-languages/scripting-language-3/crates/shu/src/chunk.rs:20-22 | a constant is found exactly below the pool length, and it is that pool entry |
| ShuChunk.AsStr | programming-languages/scripting-language-3/crates/shu/src/chunk.rs:52-58 | Some exactly for a string constant, holding its text |
| ShuChunk.AsFunction | programming-languages/scripting-language-3/crates/shu/src/chunk.rs:60-66 | Some exactly for a function constant, holding the function |
| ShuChunk.UnknownOpcodeHasNoOperand | programming-languages/scripting-language-3/crates/shu/src/chunk.rs:99-107 | a byte whose high six bits are 43 to 63 names no opcode and announces no operand bytes |
| CompilerChunk.SizeClass | programming-languages/oma/crates/oma-compiler/src/chunk.rs:94-100 | the smallest size class, at most 3, whose width holds the value |
| CompilerChunk.Bits64 | programming-languages/oma/crates/oma-compiler/src/chunk.rs:93 | the cast of an i64 to u64 is a u64 congruent to the integer modulo 2^64 |
| CompilerChunk.PoolEntry | programming-languages/oma/crates/oma-compiler/src/chunk.rs:101-108 | a string or function operand adds exactly one constant to the pool, any other operand none |
| CompilerChunk.Normalized | programming-languages/oma/crates/oma-compiler/src/chunk.rs:90-110 | floats and i64s take size class 3, a usize its smallest class, and strings and functions the index of their new pool entry; a u64 value always fits its class |
| CompilerChunk.Encode | programming-languages/oma/crates/oma-compiler/src/chunk.rs:30-49 | the first byte is the opcode shifted left by two plus the size class, followed by the operand bytes exactly when the opcode takes an operand |
| CompilerChunk.Emitted | programming-languages/oma/crates/oma-compiler/src/chunk.rs:21-52 | emitting appends the pool entry, if any, to the data and the encoded instruction to the code |
| CompilerChunk.Patched | programming-languages/oma/crates/oma-compiler/src/chunk.rs:55-82 | patching keeps the code length and the bytes up to the instruction byte, adds the operand's pool entry, and writes the value masked to the width already recorded |
| CompilerChunk.Chunk.Len | programming-languages/oma/crates/oma-compiler/src/chunk.rs:84-86 | the length is the length of the code |
| CompilerChunk.Chunk.AddConstant | programming-languages/oma/crates/oma-compiler/src/chunk.rs:112-115 | the constant is appended and its index, the old pool length, is returned |
| CompilerChunk.Chunk.NormalizeOperand | programming-languages/oma/crates/oma-compiler/src/chunk.rs:90-110 | the value and class agree with `Normalized` on the old pool, and only the operand's pool entry is added |
| CompilerChunk.Chunk.Emit | programming-languages/oma/crates/oma-compiler/src/chunk.rs:21-52 | returns the old code length, and the chunk after it is `Emitted` of the chunk before |
| CompilerChunk.Chunk.PatchWidth | programming-languages/oma/crates/oma-compiler/src/chunk.rs:57 | the width recorded in an instruction byte is 1, 2, 4 or 8 |
| CompilerChunk.Chunk.Patch | programming-languages/oma/crates/oma-compiler/src/chunk.rs:55-82 | the chunk after it is `Patched` of the chunk before: same length, the operand bytes replaced by the masked value |
| CompilerChunk.DecodeEncoded | programming-languages/oma/crates/oma-compiler/src/chunk.rs:30-49 | decoding the shu chunk where an instruction was encoded gives back its opcode and its operand masked to its class width, and the instruction occupies exactly the encoded bytes |
| CompilerChunk.DecodeEmittedOperand | programming-languages/oma/crates/oma-compiler/src/chunk.rs:21-52 | an operand that fits its class decodes to exactly the value emitted |
| CompilerChunk.EmitFieldsFit | programming-languages/oma/crates/oma-compiler/src/chunk.rs:90-110 | the emitted value is a u64 that its size class holds, so masking leaves it unchanged |
| CompilerChunk.DecodePatched | programming-languages/oma/crates/oma-compiler/src/chunk.rs:55-82 | after a patch the instruction keeps its opcode and decodes to the new value masked to the recorded width, so a class-0 jump keeps only the low byte of its target |
| CompilerChunk.BareJumpIsClassZero | programming-languages/oma/crates/oma-compiler/src/chunk.rs:21-52 | a jump emitted without an operand is the two bytes `Jmp` shifted by two and a zero operand byte |
| Registry.NativeLambdaRegistry.Add | programming-languages/oma/crates/shu/src/registry.rs:16-22 | the lambda is appended, earlier entries are unchanged, and the returned id is the new length minus one and finds it |
| Registry.NativeLambdaRegistry.Get | programming-languages/oma/crates/shu/src/registry.rs:24-26 | an entry is found exactly for an id below the number added, and it is that entry |
| ShuVm.LoadFailure | programming-languages/oma/crates/shu/src/vm.rs:24-27 | a decoding failure becomes a `Parse` reason, and only a malformed container does; the unimplemented info section becomes `Panic` |
| ShuVm.RunOutcome | programming-languages/oma/crates/shu/src/vm.rs:36 | what the loop makes of the successive step results: it goes on while they are Running and ends Ok or with the error at the first that is not (`RunStops`, `RunAllRunning`) |
| ShuVm.RunStops | programming-languages/oma/crates/shu/src/vm.rs:36-38 | when every step before the k-th was Running and the k-th is not, the run ends there: Ok on Done or Yield and that step's error, unchanged, otherwise |
| ShuVm.RunAllRunning | programming-languages/oma/crates/shu/src/vm.rs:36 | the loop runs out of fuel exactly when every step taken was Running |
| ShuVm.CallStatus | programming-languages/oma/crates/shu/src/fiber/mod.rs:496-534 | the status `cal` gives from the values alone: `Panic` when arity and callee exceed the stack, `WrongArity` for a lambda of another arity or a native lambda called with other than one argument, `ValueNotCallable` for anything else, otherwise Running (`StepOwing`) |
| ShuVm.StepOwes | programming-languages/oma/crates/shu/src/fiber/mod.rs:71-130 | what a fiber step promises of its status from the chunk, ip, base, values, frames and natives before it: the two fetch errors; Running after any other opcode that succeeds, Done exactly for `ret` with no frame, never Yield; and the exact status of every value opcode (from `ValueStep`), of `arr`, `map`, `clu`, `apn`, `cal` (`CallStatus`) and `ret` (`StepOwing`, `RunEndsOk`) |
| ShuVm.ReturnsFromMain | programming-languages/oma/crates/shu/src/fiber/mod.rs:536-538 | the step decoded a `ret` with no frame to return to, the one step that is Done (`RunEndsOk`) |
| ShuVm.RunEndsOk | programming-languages/oma/crates/shu/src/vm.rs:36-38 | for steps each owing `StepOwes` and all Running but the last, the loop ends Ok exactly when the last step was a `ret` with no frame |
| ShuVm.StepOwing | programming-languages/oma/crates/shu/src/fiber/mod.rs:71-130 | one fiber step keeps the fiber valid and its status owes `StepOwes` from the snapshot of the fiber before it |
| ShuVm.Vm.Start | programming-languages/oma/crates/shu/src/vm.rs:23-34 | a failed decode is the outcome with nothing installed; otherwise the registry and a new fiber on the decoded function are installed |
| ShuVm.Vm.Resume | programming-languages/oma/crates/shu/src/vm.rs:36 | the outcome is `RunOutcome` of the steps taken: every step but the last was Running, and the last is not Running unless the fuel ran out; each step owes `StepOwes` from the snapshot before it, the first from the fiber's state on entry; the run finishes Ok exactly when the last step was a `ret` with no frame |
| ShuVm.Vm.Run | programming-languages/oma/crates/shu/src/vm.rs:23-39 | the decode failure is the outcome; otherwise the set-up followed by the stepping loop, whose first step is taken from the new fiber (ip 0 of the decoded chunk, the main lambda and its Nulls, no frame), each step owing `StepOwes`, and which finishes Ok exactly when the last step was a `ret` with no frame |
| ShuVm.Vm.Step | programming-languages/oma/crates/shu/src/vm.rs:41-44 | with no fiber the unwrap panics and nothing changes; otherwise one fiber step, changing only the fiber, its stack, its registered cells and the containers and cells its values hold, with its status dropped (`r` is Ok exactly when `status` is): an instruction that does not decode is `InvalidCode` at the instruction pointer, an unknown opcode `InvalidOpcode`, and a fetched instruction has the effect `Executed` states for it |
| Bytes.LE | programming-languages/oma/crates/oma-compiler/src/chunk.rs:35-46 | the masked little-endian encoding is exactly n bytes long |
| Bytes.FromLEOfLE | programming-languages/oma/crates/oma-compiler/src/chunk.rs:35-46 | encoding n bytes and decoding them gives the value modulo 256^n, the masking the encoders perform |
| Bytes.LEOfFromLE | programming-languages/scripting-language-3/crates/shu/src/chunk.rs:114-130 | decoding a byte string and re-encoding it at the same width gives the same bytes |
| Bytes.FromLEOfLESmall | programming-languages/scripting-language-3/crates/shu/src/chunk.rs:114-130 | a value that fits in n bytes is read back unchanged from its encoding |
| Bytes.FromLEBound | programming-languages/scripting-language-3/crates/shu/src/chunk.rs:114-130 | n bytes read little-endian denote a number below 256^n |
| Bytes.TruncDivRem | programming-languages/toy-virtual-machine/src/instruction.rs:223-255 | Rust's truncating `/` and `%` recombine to the dividend, and the remainder takes the dividend's sign and is smaller than the divisor in magnitude |
| Bytes.TruncDivMagnitude | programming-languages/toy-virtual-machine/src/instruction.rs:223-238 | a truncated quotient is no larger in magnitude than the dividend, and as large only for a divisor of 1 or -1 |
| ContainerEmit.Emit | programming-languages/scripting-language-3/crates/oma-compiler/src/emit.rs:10-17 | the container is the four magic bytes followed by the function record, so longer than four bytes |
| ContainerEmit.EmitFunction | programming-languages/scripting-language-3/crates/oma-compiler/src/emit.rs:62-79 | a function record is at least 34 bytes: four words, a chunk and the upvalue descriptors |
| ContainerEmit.EmitUpvalues | programming-languages/scripting-language-3/crates/oma-compiler/src/emit.rs:69-76 | each upvalue descriptor takes exactly nine bytes |
| ContainerEmit.EmitUpvalue | programming-languages/scripting-language-3/crates/oma-compiler/src/emit.rs:70-75 | a descriptor is its index word and one flag byte |
| ContainerEmit.EmitChunk | programming-languages/scripting-language-3/crates/oma-compiler/src/emit.rs:19-29 | a chunk is at least its data section header and its code section header |
| ContainerEmit.EmitData | programming-languages/scripting-language-3/crates/oma-compiler/src/emit.rs:31-42 | a data section is at least its marker and its count word |
| ContainerEmit.EmitConstant | programming-languages/scripting-language-3/crates/oma-compiler/src/emit.rs:44-60 | a constant is never empty: it starts with its marker |
| ContainerParse.WordAt | programming-languages/oma/crates/shu/src/parse.rs:141-156 | a word is read exactly when eight bytes remain, and the cursor moves by eight |
| ContainerParse.WordAtValue | programming-languages/oma/crates/shu/src/parse.rs:141-156 | the word read is a u64 whose little-endian encoding is the eight bytes read |
| ContainerParse.ExpectAt | programming-languages/oma/crates/shu/src/parse.rs:125-139 | succeeds exactly when the expected bytes are next, moving past them; any failure is a `ParseError` |
| ContainerParse.BytesAt | programming-languages/oma/crates/shu/src/parse.rs:51-64 | succeeds exactly when the bytes are present and `current + len` does not overflow, and returns exactly those bytes; an overflow is told apart from a short input |
| ContainerParse.ParseBytes | programming-languages/oma/crates/shu/src/parse.rs:22-26 | a container that loads starts with the magic bytes |
| ContainerParse.FunctionAt | programming-languages/oma/crates/shu/src/parse.rs:95-123 | a record that is read ends strictly after where it began and within the input |
| ContainerParse.ChunkAt | programming-languages/oma/crates/shu/src/parse.rs:28-39 | a chunk that is read ends strictly after its start and within the input |
| ContainerParse.DataAt | programming-languages/oma/crates/shu/src/parse.rs:41-49 | a data section that is read ends strictly after its start and within the input |
| ContainerParse.ConstantsAt | programming-languages/oma/crates/shu/src/parse.rs:46-48 | exactly the count of constants is read, and the cursor stays within the input |
| ContainerParse.ConstantAt | programming-languages/oma/crates/shu/src/parse.rs:66-72 | a constant that is read ends strictly after its start |
| ContainerParse.ConstantStringAt | programming-languages/oma/crates/shu/src/parse.rs:74-87 | a string constant that is read is valid UTF-8 |
| ContainerParse.ConstantFunctionAt | programming-languages/oma/crates/shu/src/parse.rs:89-93 | a function constant that is read holds a function |
| ContainerParse.CodeAt | programming-languages/oma/crates/shu/src/parse.rs:51-64 | the code read is exactly the len bytes after the marker and length word |
| ContainerParse.UpvaluesAt | programming-languages/oma/crates/shu/src/parse.rs:102-115 | exactly count descriptors are read, nine bytes each |
| ContainerParse.UpvalueAt | programming-languages/oma/crates/shu/src/parse.rs:106-113 | a descriptor is read exactly when nine bytes remain and its flag byte is 0 or 1, the flag 1 meaning local |
| ContainerParse.UpvaluesRoundTrip | programming-languages/oma/crates/shu/src/parse.rs:102-115 | descriptors emitted are read back in order, ending where the encoding ends |
| ContainerParse.FunctionRoundTrip | programming-languages/oma/crates/shu/src/parse.rs:95-123 | a function record emitted is read back field for field, ending where the encoding ends |
| ContainerParse.ChunkRoundTrip | programming-languages/oma/crates/shu/src/parse.rs:28-39 | a chunk emitted is read back with the same constants and code |
| ContainerParse.CodeRoundTrip | programming-languages/oma/crates/shu/src/parse.rs:51-64 | a code section emitted is read back exactly |
| ContainerParse.DataRoundTrip | programming-languages/oma/crates/shu/src/parse.rs:41-49 | a data section emitted is read back with the same constants in pool order |
| ContainerParse.ConstantsRoundTrip | programming-languages/oma/crates/shu/src/parse.rs:46-48 | a sequence of constants emitted is read back in order |
| ContainerParse.ConstantRoundTrip | programming-languages/oma/crates/shu/src/parse.rs:66-72 | a constant emitted is read back unchanged |
| ContainerParse.StringRoundTrip | programming-languages/oma/crates/shu/src/parse.rs:74-87 | a UTF-8 string constant emitted is read back unchanged |
| ContainerParse.FunctionConstantRoundTrip | programming-languages/oma/crates/shu/src/parse.rs:89-93 | a function constant emitted is read back unchanged |
| ContainerParse.RoundTrip | programming-languages/oma/crates/shu/src/parse.rs:22-26 | loading what the compiler emitted gives back the same function, whatever bytes follow it |
| ContainerParse.BadMagicRejected | programming-languages/oma/crates/shu/src/parse.rs:23 | anything that does not begin with the magic bytes is a `ParseError` |
| ContainerParse.InfoSectionUnimplemented | programming-languages/oma/crates/shu/src/parse.rs:29-30 | a chunk opening with the info marker reaches the unimplemented path |
| ContainerParser.Parser.Parse | programming-languages/oma/crates/shu/src/parse.rs:22-26 | the parser's result equals `ParseBytes` of its input |
| ContainerParser.Parser.Peek | programming-languages/oma/crates/shu/src/parse.rs:147-156 | succeeds exactly when n bytes remain, returning them without moving the cursor |
| ContainerParser.Parser.Advance | programming-languages/oma/crates/shu/src/parse.rs:141-145 | succeeds exactly when n bytes remain, returning them and moving past them; on failure the cursor stays |
| ContainerParser.Parser.Expect | programming-languages/oma/crates/shu/src/parse.rs:125-139 | succeeds exactly when `ExpectAt` does, ending where it ends |
| ContainerParser.Parser.Word | programming-languages/oma/crates/shu/src/parse.rs:141-145 | result and cursor agree with `WordAt` |
| ContainerParser.Parser.Take | programming-languages/oma/crates/shu/src/parse.rs:56-61 | result and cursor agree with `BytesAt` |
| ContainerParser.Parser.ParseFunction | programming-languages/oma/crates/shu/src/parse.rs:95-123 | result and cursor agree with `FunctionAt` |
| ContainerParser.Parser.ParseUpvalues | programming-languages/oma/crates/shu/src/parse.rs:104-115 | the loop's result and cursor agree with `UpvaluesAt` |
| ContainerParser.Parser.ParseUpvalue | programming-languages/oma/crates/shu/src/parse.rs:106-113 | result and cursor agree with `UpvalueAt` |
| ContainerParser.Parser.ParseChunk | programming-languages/oma/crates/shu/src/parse.rs:28-39 | result and cursor agree with `ChunkAt` |
| ContainerParser.Parser.ParseData | programming-languages/oma/crates/shu/src/parse.rs:41-49 | the loop's result and cursor agree with `DataAt` |
| ContainerParser.Parser.ParseCode | programming-languages/oma/crates/shu/src/parse.rs:51-64 | result and cursor agree with `CodeAt` |
| ContainerParser.Parser.ParseConstant | programming-languages/oma/crates/shu/src/parse.rs:66-72 | result and cursor agree with `ConstantAt` |
| ContainerParser.Parser.ParseConstantString | programming-languages/oma/crates/shu/src/parse.rs:74-87 | result and cursor agree with `ConstantStringAt` |
| ContainerParser.Parser.ParseConstantFunction | programming-languages/oma/crates/shu/src/parse.rs:89-93 | result and cursor agree with `ConstantFunctionAt` |
| ContainerParser.Load | programming-languages/oma/crates/shu/src/parse.rs:18-26 | a new parser over the bytes returns `ParseBytes` of them |
| ToyInstruction.CodeOf | programming-languages/toy-virtual-machine/src/instruction.rs:28-35 | the operation code is the high five bits, and decoding fails, naming them, exactly when they are above 0x9 and neither 0x10 nor 0x11 |
| ToyInstruction.TypeOf | programming-languages/toy-virtual-machine/src/instruction.rs:71-78 | the operation type is the low three bits, and every one of the eight values is a type |
| ToyInstruction.OperationDecodes | programming-languages/toy-virtual-machine/src/instruction.rs:28-78 | an instruction byte built from a code and a type decodes to that code and that type |
| ToyInstruction.Allowed | programming-languages/toy-virtual-machine/src/instruction.rs:37-56 | nope takes only the nope type, mod every type but nope and f32, and every other code every type but nope |
| ToyInstruction.Make | programming-languages/toy-virtual-machine/src/instruction.rs:99-107 | the operand built holds the given type and value |
| ToyInstruction.Decode | programming-languages/toy-virtual-machine/src/instruction.rs:110-122 | the operand read has the requested type and a payload in that type's range |
| ToyInstruction.Encode | programming-languages/toy-virtual-machine/src/instruction.rs:124-136 | an operand is written as exactly its type's length of bytes |
| ToyInstruction.DecodeEncode | programming-languages/toy-virtual-machine/src/instruction.rs:110-136 | writing a well-formed operand and reading it back gives the operand |
| ToyInstruction.EncodeDecode | programming-languages/toy-virtual-machine/src/instruction.rs:110-136 | reading an operand from exactly its width of bytes and writing it back gives the bytes |
| ToyInstruction.DecodeValueMod | programming-languages/toy-virtual-machine/src/instruction.rs:110-122 | the value read, signed or not, is the little-endian pattern modulo 2 to the type's width |
| ToyInstruction.OperandEq | programming-languages/toy-virtual-machine/src/instruction.rs:98 | the derived equality: operands of different types differ, and integer operands of one type are equal exactly when their values are |
| ToyInstruction.Wrap | programming-languages/toy-virtual-machine/src/instruction.rs:172-255 | reduction puts every value in its type's range |
| ToyInstruction.WrapCongruent | programming-languages/toy-virtual-machine/src/instruction.rs:172-255 | reduction changes a value by a multiple of the type's modulus, so the arithmetic wraps around |
| ToyInstruction.WrapInRange | programming-languages/toy-virtual-machine/src/instruction.rs:172-255 | a value already in range is left unchanged |
| ToyInstruction.WrapHalf | programming-languages/toy-virtual-machine/src/instruction.rs:223-238 | the signed maximum plus one wraps to the minimum |
| ToyInstruction.Arith | programming-languages/toy-virtual-machine/src/instruction.rs:172-255 | an integer result has the operands' type, is in range, and is the wrapped exact result |
| ToyInstruction.ArithWraps | programming-languages/toy-virtual-machine/src/instruction.rs:172-221 | integer addition, subtraction and multiplication agree with the exact result modulo 2 to the width |
| ToyInstruction.QuotientInRange | programming-languages/toy-virtual-machine/src/instruction.rs:223-238 | a truncated quotient of in-range values stays in range, except the minimum divided by -1 |
| ToyInstruction.DivisionWraps | programming-languages/toy-virtual-machine/src/instruction.rs:223-238 | integer division of in-range operands is the truncated quotient, except the minimum divided by -1, which wraps to the minimum |
| ToyInstruction.RemainderExact | programming-languages/toy-virtual-machine/src/instruction.rs:240-255 | the integer remainder of in-range operands is the truncated remainder and never wraps |
| ToyStack.PopOf | programming-languages/toy-virtual-machine/src/stack.rs:16-24 | a pop fails exactly when more bytes are asked for than are held; otherwise it splits the stack into what remains and the top len bytes |
| ToyStack.PopAfterPush | programming-languages/toy-virtual-machine/src/stack.rs:12-24 | popping as many bytes as were just pushed gives them back and restores the stack |
| ToyStack.Stack.Push | programming-languages/toy-virtual-machine/src/stack.rs:12-14 | the bytes go on top, in order |
| ToyStack.Stack.Pop | programming-languages/toy-virtual-machine/src/stack.rs:16-24 | too short a stack is an error that leaves it unchanged; otherwise the top len bytes are removed and returned |
| ToyCore.PopOperand | programming-languages/toy-virtual-machine/src/core.rs:171-176 | fails exactly when the stack holds fewer bytes than the type's length; otherwise the top operand of that type is removed and the counter kept |
| ToyCore.PopTwice | programming-languages/toy-virtual-machine/src/core.rs:178-185 | fails exactly when fewer than two operands' bytes are held; otherwise two operands of the type are removed |
| ToyCore.Flag | programming-languages/toy-virtual-machine/src/core.rs:146-164 | the flag is the type's length of bytes |
| ToyCore.Arithmetic | programming-languages/toy-virtual-machine/src/core.rs:81-119 | a successful arithmetic instruction keeps the counter and shortens the stack by one operand |
| ToyCore.Jumped | programming-languages/toy-virtual-machine/src/core.rs:121-137 | a successful jump keeps the counter within the program and pops one operand |
| ToyCore.Compared | programming-languages/toy-virtual-machine/src/core.rs:146-164 | a successful comparison keeps the counter and shortens the stack by one operand |
| ToyCore.Dispatch | programming-languages/toy-virtual-machine/src/core.rs:47-60 | defines the `match operation_code`: nope, push, pop, jump, dup, eq and neq, and the arithmetic opcodes (`DispatchEffect`) |
| ToyCore.Step | programming-languages/toy-virtual-machine/src/core.rs:27-60 | defines one pass of the loop: fetch a byte, decode code and type, refuse a disallowed type, dispatch (`StepStaysInProgram`, `StepStackEffect`) |
| ToyCore.Run | programming-languages/toy-virtual-machine/src/core.rs:21-67 | defines `execute` for at most fuel steps: the first error ends it, and so does a counter at or past the end (`RunContinues`, `NopesHalt`) |
| ToyCore.StepPastEnd | programming-languages/toy-virtual-machine/src/core.rs:27 | with the counter at or past the end there is no instruction to fetch |
| ToyCore.DispatchEffect | programming-languages/toy-virtual-machine/src/core.rs:47-60 | a successful instruction changes the stack length by its stack effect and keeps the counter within the program |
| ToyCore.StepStaysInProgram | programming-languages/toy-virtual-machine/src/core.rs:24-66 | a successful instruction leaves the counter inside the program or just past its end |
| ToyCore.StepStackEffect | programming-languages/toy-virtual-machine/src/core.rs:24-66 | every successful instruction changes the stack by exactly its stack effect |
| ToyCore.NopeAdvances | programming-languages/toy-virtual-machine/src/core.rs:48 | a nope byte only moves the counter on |
| ToyCore.PushCopiesOperand | programming-languages/toy-virtual-machine/src/core.rs:69-74 | push copies its program operand's bytes onto the stack and moves past them |
| ToyCore.DupCopiesTop | programming-languages/toy-virtual-machine/src/core.rs:139-144 | dup pushes a second copy of the top operand's bytes |
| ToyCore.CompareFlags | programming-languages/toy-virtual-machine/src/core.rs:146-164 | eq and neq replace the top two operands by a flag that is 1 exactly when the test holds |
| ToyCore.ArithmeticOperandOrder | programming-languages/toy-virtual-machine/src/core.rs:81-119 | add and mul combine the top operand with the one below; sub, div and mod take the one below as the left-hand side; integer division by zero panics |
| ToyCore.JumpIfZero | programming-languages/toy-virtual-machine/src/core.rs:121-137 | with a zero stack operand the counter goes to the u32 target, an error outside the program; otherwise it moves past the target |
| ToyCore.NopesHalt | programming-languages/toy-virtual-machine/src/core.rs:21-66 | a program of n nope bytes runs to completion in n steps, leaving the stack untouched |
| ToyCore.EmptyProgramFails | programming-languages/toy-virtual-machine/src/core.rs:27 | an empty program fails on its first fetch |
| ToyCore.RunContinues | programming-languages/toy-virtual-machine/src/core.rs:24-66 | a step that does not end the run leaves the outcome of the rest of the run unchanged |
| ToyCore.Core.NextProgramBytes | programming-languages/toy-virtual-machine/src/core.rs:192-199 | result and new state agree with `Fetch`: the bytes at the counter, moved past, or an error when too few remain |
| ToyCore.Core.NextOperand | programming-languages/toy-virtual-machine/src/core.rs:187-190 | a program operand of the type is read where `Fetch` finds its bytes |
| ToyCore.Core.PushOperandStack | programming-languages/toy-virtual-machine/src/core.rs:166-169 | the state after it is `PushOperand` of the state before |
| ToyCore.Core.PopOperandStack | programming-languages/toy-virtual-machine/src/core.rs:171-176 | result and new state agree with `PopOperand` |
| ToyCore.Core.PopOperandStackTwice | programming-languages/toy-virtual-machine/src/core.rs:178-185 | result and new state agree with `PopTwice` |
| ToyCore.Core.ExecutePush | programming-languages/toy-virtual-machine/src/core.rs:69-74 | agrees with `Dispatch` for push |
| ToyCore.Core.ExecutePop | programming-languages/toy-virtual-machine/src/core.rs:76-79 | agrees with `Dispatch` for pop |
| ToyCore.Core.ExecuteArithmetic | programming-languages/toy-virtual-machine/src/core.rs:81-119 | agrees with `Arithmetic` |
| ToyCore.Core.ExecuteJump | programming-languages/toy-virtual-machine/src/core.rs:121-137 | agrees with `Jumped` |
| ToyCore.Core.ExecuteDup | programming-languages/toy-virtual-machine/src/core.rs:139-144 | agrees with `Dispatch` for dup |
| ToyCore.Core.ExecuteCompare | programming-languages/toy-virtual-machine/src/core.rs:146-164 | agrees with `Compared` |
| ToyCore.Core.Cycle | programming-languages/toy-virtual-machine/src/core.rs:27-60 | one pass of the loop agrees with `Step` |
| ToyCore.Core.Iterate | programming-languages/toy-virtual-machine/src/core.rs:24-66 | either the run ends here with the outcome `Run` promised, or the same outcome is promised from the new state with one less fuel |
| ToyCore.Core.Execute | programming-languages/toy-virtual-machine/src/core.rs:21-67 | for at most fuel instructions, the outcome is the one `Run` gives for the starting state |
| Values.ToI64 | programming-languages/oma/crates/shu/src/fiber/mod.rs:153-157 | the cast of a u64 pattern to i64 is in range, equal to the pattern or the pattern minus 2^64, and non-negative exactly when the pattern is at most the i64 maximum |
| Values.ArrayObj.Get | programming-languages/oma/crates/shu/src/value.rs:235-251 | a lookup answers exactly for a non-negative Int key: the element in range, Null past the end |
| Values.ArrayObj.Set | programming-languages/oma/crates/shu/src/value.rs:222-233 | succeeds exactly for an Int key inside the array, replacing just that element; otherwise nothing changes |
| Values.ArrayObj.Push | programming-languages/oma/crates/shu/src/value.rs:253-256 | the value is appended |
| Values.MapObj.Get | programming-languages/oma/crates/shu/src/value.rs:293-300 | a lookup answers exactly for a String key: the stored value, or Null when absent |
| Values.MapObj.Set | programming-languages/oma/crates/shu/src/value.rs:284-291 | succeeds exactly for a String key, inserting or overwriting it; otherwise nothing changes |
| Values.Get | programming-languages/oma/crates/shu/src/value.rs:146-152 | arrays and maps delegate to their own lookup; any other receiver gives None |
| Values.Set | programming-languages/oma/crates/shu/src/value.rs:154-160 | arrays and maps delegate to their own update; any other receiver fails and nothing changes |
| Values.Arith | programming-languages/oma/crates/shu/src/value.rs:13-23 | defined exactly on two numbers; Int with Int gives the exact Int result, and a Float on either side gives a Float of the float operation on the promoted operands |
| Values.Add | programming-languages/oma/crates/shu/src/value.rs:60-67 | two strings concatenate, anything else is arithmetic |
| Values.Neg | programming-languages/oma/crates/shu/src/value.rs:85-91 | defined exactly on numbers, negating them |
| Values.Not | programming-languages/oma/crates/shu/src/value.rs:138-144 | defined exactly on booleans, negating them |
| Values.Eql | programming-languages/oma/crates/shu/src/value.rs:93-104 | always a Bool; structural on scalars and strings, identity on arrays and maps, false across variants and for tagged values and lambdas |
| Values.Neq | programming-languages/oma/crates/shu/src/value.rs:106-112 | the negation of `eql` |
| Values.Compare | programming-languages/oma/crates/shu/src/value.rs:25-35 | defined exactly on two numbers, giving a Bool; integers compare exactly, and an Int paired with a Float is promoted |
| Values.Gte | programming-languages/oma/crates/shu/src/value.rs:118-124 | defined exactly when `ltn` is, and its negation |
| Values.Lte | programming-languages/oma/crates/shu/src/value.rs:130-136 | defined exactly when `gtn` is, and its negation |
| Values.IntOrderings | programming-languages/oma/crates/shu/src/value.rs:114-136 | on integers the four orderings are the usual ones |
| Values.EqlSymmetric | programming-languages/oma/crates/shu/src/value.rs:93-104 | `eql` is symmetric whenever float equality is |
| Values.EqlReflexive | programming-languages/oma/crates/shu/src/value.rs:93-104 | every value other than a float, a tagged value or a lambda equals itself |
| Values.EqlAcrossVariants | programming-languages/oma/crates/shu/src/value.rs:93-112 | values of different variants, an Int and a Float included, are never equal and always `neq` |
| FiberStack.Stack.Push | programming-languages/scripting-language-3/crates/shu/src/fiber/stack.rs:27-29 | the value goes on top; frames and the upvalue registry are unchanged |
| FiberStack.Stack.Pop | programming-languages/scripting-language-3/crates/shu/src/fiber/stack.rs:31-33 | the top value is removed and returned, None on an empty stack |
| FiberStack.Stack.Last | programming-languages/scripting-language-3/crates/shu/src/fiber/stack.rs:35-37 | the top value, present exactly when the stack is not empty |
| FiberStack.Stack.Get | programming-languages/scripting-language-3/crates/shu/src/fiber/stack.rs:39-41 | the slot's value, present exactly below the top |
| FiberStack.Stack.Set | programming-languages/scripting-language-3/crates/shu/src/fiber/stack.rs:43-50 | succeeds exactly below the top, replacing just that slot; otherwise nothing changes |
| FiberStack.Stack.PushFrame | programming-languages/scripting-language-3/crates/shu/src/fiber/stack.rs:56-58 | the frame is appended, values and cells unchanged |
| FiberStack.Stack.PopFrame | programming-languages/scripting-language-3/crates/shu/src/fiber/stack.rs:60-62 | the most recent frame is removed and returned, None when there is none |
| FiberStack.Stack.IsFramesEmpty | programming-languages/scripting-language-3/crates/shu/src/fiber/stack.rs:64-66 | true exactly when there are no frames |
| FiberStack.Stack.Upvalue | programming-languages/scripting-language-3/crates/shu/src/fiber/stack.rs:71-88 | returns the registered cell open on the slot, or a fresh open cell that is registered from then on |
| FiberStack.Stack.CloseUpvalue | programming-languages/scripting-language-3/crates/shu/src/fiber/stack.rs:90-111 | pops the top value; the cell open on its slot, if any, takes the value and leaves the registry, and every other registered cell is unchanged; an empty stack changes nothing |
| FiberStack.Stack.CloseDownTo | programming-languages/oma/crates/shu/src/fiber/mod.rs:536-564 | pops down to the base; every cell open on a popped slot takes that slot's value and leaves the registry, and every other registered cell is unchanged |
| FiberStack.Stack.BuildTrace | programming-languages/scripting-language-3/crates/shu/src/fiber/stack.rs:114-120 | one entry per frame, each None since a loaded chunk carries no debug info |
| ShuFiber.Fiber.constructor | programming-languages/oma/crates/shu/src/fiber/mod.rs:48-69 | the main function becomes a lambda without upvalues in slot 0, followed by a Null for each local, with no frames |
| ShuFiber.Fiber.Objects | programming-languages/oma/crates/shu/src/fiber/mod.rs:39-45 | the objects the fiber reaches in one hop, which `Untouched` says stay as they were, are arrays, maps and cells, never the fiber or its stack |
| ShuFiber.Fiber.Step | programming-languages/oma/crates/shu/src/fiber/mod.rs:71-130 | an instruction that does not decode is `InvalidCode` at ip, an unknown opcode an `InvalidOpcode`; a fetched instruction has the effect `Executed` states for it, from the state before the step |
| ShuFiber.Fetch | programming-languages/oma/crates/shu/src/fiber/mod.rs:71-75 | an instruction is fetched exactly when the bytes at ip decode and name an opcode; it carries that opcode, the operand below 2^64 and the offset past the operand |
| ShuFiber.ValueStepEffect | programming-languages/oma/crates/shu/src/fiber/mod.rs:132-494 | a successful value opcode changes the stack depth by its `Depth` and, unless it jumps, moves ip just past the instruction; `jmp` goes to its operand, and an empty stack is `EmptyStack` for every opcode that pops |
| ShuFiber.Fiber.Execute | programming-languages/oma/crates/shu/src/fiber/mod.rs:76-129 | a step of any opcode but `ret` that succeeds is `Running`, only `ret` with no frame is `Done`, nothing yields; value opcodes agree with `ValueStep`; `arr`, `map`, `lmd`, `lou`, `sau`, `clu`, `get`, `set`, `apn`, `cal` and `ret` have the effects of their handlers; no object the fiber reached changes but the cell or container the opcode stores into and the cells it closes |
| ShuFiber.Fiber.ExecuteValue | programming-languages/oma/crates/shu/src/fiber/mod.rs:77-124 | every value opcode ends in the values and ip `ValueStep` gives from the values and base before the step, or in its error, with the frames, cells, chunk and every object the fiber reached unchanged |
| ShuFiber.Fiber.ExecuteConstant | programming-languages/oma/crates/shu/src/fiber/mod.rs:78-87 | `nul`, `tru`, `fls`, `flt`, `int`, `str` and `nal` push their value, or fail on a bad data or registry index, as `ValueStep` says |
| ShuFiber.Fiber.ExecuteAccess | programming-languages/oma/crates/shu/src/fiber/mod.rs:88-102 | `pop`, `lod`, `sav`, `dup`, `swp` and `rot` change the stack as `ValueStep` says, relative to the base pointer, and a slot at or past 2^64 panics |
| ShuFiber.Fiber.ExecuteJump | programming-languages/oma/crates/shu/src/fiber/mod.rs:96-98 | `jmp` sets ip to its operand; `jit` and `jif` pop and jump only on exactly `true` or `false`, and otherwise go on past the instruction |
| ShuFiber.Fiber.ExecuteOperation | programming-languages/oma/crates/shu/src/fiber/mod.rs:104-115 | arithmetic and ordering opcodes replace their operands by the `binary!` or `neg` result, panic where the operation panics, and are a `Type` error where it has no result |
| ShuFiber.Fiber.ExecuteLogic | programming-languages/oma/crates/shu/src/fiber/mod.rs:110-124 | `eql`, `neq`, `not`, `tag`, `utg` and `gtg` replace their operands as `ValueStep` says; `tag` needs a string on top and `utg` a tagged value |
| ShuFiber.Fiber.ExecuteAlloc | programming-languages/oma/crates/shu/src/fiber/mod.rs:84-86 | `arr` and `map` push a fresh empty container; `lmd` pushes a lambda capturing each descriptor or fails with the first capture error, keeping every registered cell in place and adding only fresh ones; no object the fiber reached changes |
| ShuFiber.Fiber.ExecuteUpvalue | programming-languages/oma/crates/shu/src/fiber/mod.rs:92-94 | `lou` and `sau` load and store through the current lambda's cell, open or closed; `clu` pops the top value and closes the cell open on its slot, or fails on an empty stack; no object the fiber reached changes but the cell `sau` stores into and the cell `clu` closes |
| ShuFiber.Fiber.ExecuteContainer | programming-languages/oma/crates/shu/src/fiber/mod.rs:118-120 | `get` replaces receiver and key by the value found, or is `InvalidKey`; `set` stores into the array or map and leaves the value; `apn` appends to an array, otherwise `Type`; no other object the fiber reached changes |
| ShuFiber.Fiber.ExecuteCall | programming-languages/oma/crates/shu/src/fiber/mod.rs:126 | a lambda of the operand arity gets a frame returning past the `cal`, based at the callee, with a Null per local; a native lambda of arity 1 replaces callee and argument by its result; any other callee or arity is an error; no object the fiber reached changes |
| ShuFiber.Fiber.ExecuteReturn | programming-languages/oma/crates/shu/src/fiber/mod.rs:127 | with no frame the step is Done and only ip moves; otherwise the result is kept, the cells open down to the base are closed, the caller's frame is restored, and no other object the fiber reached changes |
| ShuFiber.Fiber.NextOp | programming-languages/oma/crates/shu/src/fiber/mod.rs:601-615 | the instruction at ip, with ip moved past its operand, or `InvalidCode` with ip kept |
| ShuFiber.Fiber.StackPop | programming-languages/oma/crates/shu/src/fiber/mod.rs:566-571 | the top value, or `EmptyStack` |
| ShuFiber.Fiber.PushValue | programming-languages/oma/crates/shu/src/fiber/mod.rs:132-157 | the value is pushed and nothing else changes |
| ShuFiber.Fiber.LoadString | programming-languages/oma/crates/shu/src/fiber/mod.rs:159-172 | pushes a copy of the string constant; an index past the pool is `InvalidData`, a function constant `WrongConstantType` |
| ShuFiber.Fiber.NewArray | programming-languages/oma/crates/shu/src/fiber/mod.rs:174-178 | pushes a new empty array |
| ShuFiber.Fiber.NewMap | programming-languages/oma/crates/shu/src/fiber/mod.rs:180-184 | pushes a new empty map |
| ShuFiber.Fiber.Capture | programming-languages/oma/crates/shu/src/fiber/mod.rs:224-245 | captures the local slot's cell or the current lambda's upvalue, failing exactly when the descriptor names neither; only new cells are registered |
| ShuFiber.Fiber.MakeLambda | programming-languages/oma/crates/shu/src/fiber/mod.rs:186-210 | the function constant becomes a lambda capturing each descriptor in order; a bad index, a wrong constant or the first failing capture is the error; the cells registered before stay registered in order, and only fresh cells are added after them |
| ShuFiber.Fiber.LoadNative | programming-languages/oma/crates/shu/src/fiber/mod.rs:212-222 | pushes the registered native lambda, or `InvalidNativeLambda` for an unknown id |
| ShuFiber.Fiber.PopValue | programming-languages/oma/crates/shu/src/fiber/mod.rs:247-250 | drops the top value, or `EmptyStack` |
| ShuFiber.Fiber.LoadLocal | programming-languages/oma/crates/shu/src/fiber/mod.rs:252-256 | pushes a copy of slot bp+local; an overflowing slot number panics and a slot past the top is `EmptyStack` |
| ShuFiber.Fiber.SaveLocal | programming-languages/oma/crates/shu/src/fiber/mod.rs:258-262 | copies the top value into slot bp+local and leaves it on top; the same errors as `lod` |
| ShuFiber.Fiber.LoadUpvalue | programming-languages/oma/crates/shu/src/fiber/mod.rs:264-281 | pushes the upvalue's value, read from its slot while open and from the cell once closed |
| ShuFiber.Fiber.SaveUpvalue | programming-languages/oma/crates/shu/src/fiber/mod.rs:283-303 | stores the top value through the upvalue, into its slot while open and into the cell once closed, leaving it on top; no other object the fiber reached changes |
| ShuFiber.Fiber.CloseTop | programming-languages/oma/crates/shu/src/fiber/mod.rs:305-310 | pops the top value; the cell open on its slot, if any, takes that value and leaves the registry, and no other object the fiber reached changes; an empty stack is `EmptyStack` |
| ShuFiber.Fiber.Jump | programming-languages/oma/crates/shu/src/fiber/mod.rs:312-315 | continues at the offset |
| ShuFiber.Fiber.JumpIf | programming-languages/oma/crates/shu/src/fiber/mod.rs:317-329 | pops the top value and jumps only when it is exactly the tested boolean |
| ShuFiber.Fiber.Duplicate | programming-languages/oma/crates/shu/src/fiber/mod.rs:331-336 | pushes a copy of the top value, or `EmptyStack` |
| ShuFiber.Fiber.Swap | programming-languages/oma/crates/shu/src/fiber/mod.rs:338-346 | exchanges the two top values, `EmptyStack` with fewer than two |
| ShuFiber.Fiber.Rotate | programming-languages/oma/crates/shu/src/fiber/mod.rs:348-358 | a, b, c on top become c, a, b, `EmptyStack` with fewer than three |
| ShuFiber.Fiber.Binary | programming-languages/oma/crates/shu/src/fiber/mod.rs:18-28 | pops right then left and pushes the operation's result; an undefined result is a `Type` error |
| ShuFiber.Fiber.Negate | programming-languages/oma/crates/shu/src/fiber/mod.rs:380-382 | replaces a number by its negation, anything else is a `Type` error |
| ShuFiber.Fiber.LogicalNot | programming-languages/oma/crates/shu/src/fiber/mod.rs:416-418 | replaces a boolean by its negation, anything else is a `Type` error |
| ShuFiber.Fiber.Equality | programming-languages/oma/crates/shu/src/fiber/mod.rs:384-398 | replaces the top two values by `eql` or `neq` of them, never failing on two values |
| ShuFiber.Fiber.GetKey | programming-languages/oma/crates/shu/src/fiber/mod.rs:420-431 | pops key and receiver and pushes the looked-up value; a failed lookup is `InvalidKey` |
| ShuFiber.Fiber.SetKey | programming-languages/oma/crates/shu/src/fiber/mod.rs:433-445 | pops key, value and receiver, stores the value and pushes it back; a failed store is `InvalidKey` |
| ShuFiber.Fiber.Append | programming-languages/oma/crates/shu/src/fiber/mod.rs:447-460 | pops a value and an array, appends the value and pushes the value back; a receiver that is not an array is a `Type` error |
| ShuFiber.Fiber.MakeTagged | programming-languages/oma/crates/shu/src/fiber/mod.rs:462-475 | pops a string tag and a value and pushes the tagged value |
| ShuFiber.Fiber.Untag | programming-languages/oma/crates/shu/src/fiber/mod.rs:477-484 | replaces a tagged value by its payload |
| ShuFiber.Fiber.GetTag | programming-languages/oma/crates/shu/src/fiber/mod.rs:486-494 | replaces a value by its tag, or by Null when it is not tagged |
| ShuFiber.Fiber.Call | programming-languages/oma/crates/shu/src/fiber/mod.rs:496-534 | a lambda of matching arity gets a new frame based at the callee's slot with a Null per local; a native lambda replaces callee and argument by its result; anything else is an error |
| ShuFiber.Fiber.Return | programming-languages/oma/crates/shu/src/fiber/mod.rs:536-564 | with no frame the fiber is Done and nothing changes; otherwise the result is popped, every cell open on a slot down to the base takes that slot's value and leaves the registry, no other object the fiber reached changes, the result is pushed and the caller's frame restored |
| ShuFiber.Fiber.RestoreFrame | programming-languages/oma/crates/shu/src/fiber/mod.rs:551-560 | the result is pushed back and the caller's chunk, ip and bp are restored from the popped frame, with the cells unchanged |
| Source.Combine | programming-languages/oma/crates/oma-compiler/src/source.rs:20-27 | the combined span starts at the earlier start and ends at the later end, in the left span's source |
| Source.Empty | programming-languages/oma/crates/oma-compiler/src/source.rs:29-35 | the empty span lies within an empty source |
| Source.Content | programming-languages/oma/crates/oma-compiler/src/source.rs:41-43 | the content is exactly the spanned bytes |
| Source.Len | programming-languages/oma/crates/oma-compiler/src/source.rs:74-76 | the length is the distance from start to end |
| Source.CombineCovers | programming-languages/oma/crates/oma-compiler/src/source.rs:20-27 | the combined span covers both spans and stays within the source |
| Source.LineEnd | programming-languages/oma/crates/oma-compiler/src/source.rs:45-56 | the first newline at or after the position, or the end of the text |
| Source.LineStart | programming-languages/oma/crates/oma-compiler/src/source.rs:45-56 | the position just after the last newline before the position, or 0 |
| Source.LineTurn | programming-languages/oma/crates/oma-compiler/src/source.rs:78-102 | one turn of the loop over the lines: the line starting at pos holds pos + offset exactly when the offset is at most its length |
| Source.Line | programming-languages/oma/crates/oma-compiler/src/source.rs:78-90 | the line is 1 plus the number of newlines before the span's start |
| Source.Column | programming-languages/oma/crates/oma-compiler/src/source.rs:92-102 | the column is the start's distance from the beginning of its line |
| Source.LineContent | programming-languages/oma/crates/oma-compiler/src/source.rs:45-56 | the whole line holding the start, without its newline |
| Source.LineHolds | programming-languages/oma/crates/oma-compiler/src/source.rs:45-102 | the line holding a position has no newline, holds the position at most at its end, and the column counts the bytes before it |
| Source.AfterNewline | programming-languages/oma/crates/oma-compiler/src/source.rs:78-102 | a position right after a newline is column 0 of the next line |
| Lexer.SkipSpace | programming-languages/scripting-language-3/crates/oma-compiler/src/lex.rs:169-178 | the first byte at or after the position that is not whitespace, or the end |
| Lexer.IdentEnd | programming-languages/scripting-language-3/crates/oma-compiler/src/lex.rs:138-167 | an identifier runs over letters, digits and `_` and stops at the first other byte |
| Lexer.NumberEnd | programming-languages/scripting-language-3/crates/oma-compiler/src/lex.rs:118-136 | a number runs over digits and at most one dot, and stops at a second dot or any other byte |
| Lexer.QuoteAt | programming-languages/scripting-language-3/crates/oma-compiler/src/lex.rs:98-116 | the first quote at or after the position, or the end |
| Lexer.Keyword | programming-languages/scripting-language-3/crates/oma-compiler/src/lex.rs:138-167 | a word is the keyword it spells, `true` and `false` are Bool, `null` is Null, and every other word is an Ident |
| Lexer.Punctuation | programming-languages/scripting-language-3/crates/oma-compiler/src/lex.rs:43-79 | punctuation takes one or two bytes, two only when a second byte is present |
| Lexer.ScanSpan | programming-languages/scripting-language-3/crates/oma-compiler/src/lex.rs:23-81 | each lexeme's span is exactly the bytes consumed after the whitespace, every lexeme but End takes at least one byte, and End comes only at the end of input |
| Lexer.EndRepeats | programming-languages/scripting-language-3/crates/oma-compiler/src/lex.rs:28-30 | at the end of input `next` yields End, and End again after it |
| Lexer.TwoBytesWin | programming-languages/scripting-language-3/crates/oma-compiler/src/lex.rs:43-79 | a two-byte token wins over its one-byte prefix |
| Lexer.LoneAmpersandOrBar | programming-languages/scripting-language-3/crates/oma-compiler/src/lex.rs:66-78 | a lone ampersand or a lone vertical bar is an unexpected-byte error |
| Lexer.Word | programming-languages/scripting-language-3/crates/oma-compiler/src/lex.rs:37-38 | a word starting with a letter or `_` runs over letters, digits and `_`, and its token is its keyword or Ident |
| Lexer.NoUnderscore | programming-languages/scripting-language-3/crates/oma-compiler/src/lex.rs:37-56 | `_` on its own is an Ident: the Underscore token is never produced |
| Lexer.NumberToken | programming-languages/scripting-language-3/crates/oma-compiler/src/lex.rs:118-136 | a number holds digits and at most one dot; a second dot ends it |
| Lexer.StringToken | programming-languages/scripting-language-3/crates/oma-compiler/src/lex.rs:98-116 | a string runs from its quote to the next quote, both included; without a closing quote it is an end-of-input error |
| Lexer.CommentToken | programming-languages/scripting-language-3/crates/oma-compiler/src/lex.rs:83-96 | `//` starts a comment running up to the next newline, which it leaves |
| Lexer.Scan | programming-languages/scripting-language-3/crates/oma-compiler/src/lex.rs:23-81 | defines `next` from a position: whitespace skipped, then one lexeme or error and the positions after it (`Lexer.ScanSpan` and the token lemmas) |
| Lexer.Lexer.Peek | programming-languages/scripting-language-3/crates/oma-compiler/src/lex.rs:211-213 | the byte at the cursor, present exactly before the end |
| Lexer.Lexer.Advance | programming-languages/scripting-language-3/crates/oma-compiler/src/lex.rs:215-222 | returns the byte at the cursor and moves past it, or None at the end |
| Lexer.Lexer.Whitespace | programming-languages/scripting-language-3/crates/oma-compiler/src/lex.rs:169-178 | the cursor moves to `SkipSpace` of where it was |
| Lexer.Lexer.LineComment | programming-languages/scripting-language-3/crates/oma-compiler/src/lex.rs:83-96 | the cursor moves to the end of the line and the lexeme is a Comment over the bytes consumed |
| Lexer.Lexer.StringLiteral | programming-languages/scripting-language-3/crates/oma-compiler/src/lex.rs:98-116 | the lexeme and cursor agree with the string rule of `Scan` |
| Lexer.Lexer.NumberLiteral | programming-languages/scripting-language-3/crates/oma-compiler/src/lex.rs:118-136 | the cursor moves to `NumberEnd` and the lexeme is a Number over the bytes consumed |
| Lexer.Lexer.Identifier | programming-languages/scripting-language-3/crates/oma-compiler/src/lex.rs:138-167 | the cursor moves to `IdentEnd` and the lexeme's token is the keyword of the bytes consumed |
| Lexer.Lexer.Next | programming-languages/scripting-language-3/crates/oma-compiler/src/lex.rs:23-81 | the lexeme, the error and the new cursor agree with `Scan` from the old cursor |
| OmaAst.BinaryOpOf | programming-languages/scripting-language-3/crates/oma-compiler/src/ast.rs:154-173 | exactly the twelve operator tokens give an operator, each its own one, and every other token gives none |
| OmaAst.UnaryOpOf | programming-languages/scripting-language-3/crates/oma-compiler/src/ast.rs:194-203 | `-` gives negation and `!` logical not, and no other token gives a unary operator |
| OmaAst.BinaryOpOfInjective | programming-languages/scripting-language-3/crates/oma-compiler/src/ast.rs:154-173 | two operator tokens that give the same operator are the same token |
| OmaAst.AssigneeOf | programming-languages/scripting-language-3/crates/oma-compiler/src/ast.rs:235-241 | an access expression assigns to the access; any other expression is an assignee exactly when it converts to a pattern, and then assigns to that pattern |
| OmaAst.PatOfExprOf | programming-languages/scripting-language-3/crates/oma-compiler/src/ast.rs:383-459 | every pattern is recovered from the expression that spells it |
| OmaAst.MapPairsRoundTrip | programming-languages/scripting-language-3/crates/oma-compiler/src/ast.rs:399-427 | every list of map pattern pairs is recovered from the expression pairs that spell it |
| OmaAst.ArrayItemsRoundTrip | programming-languages/scripting-language-3/crates/oma-compiler/src/ast.rs:428-455 | every list of array pattern items is recovered from the expression items that spell it |
| OmaAst.ExprOfPatOf | programming-languages/scripting-language-3/crates/oma-compiler/src/ast.rs:383-459 | a conversion that succeeds loses nothing: the pattern spells the expression it came from |
| OmaAst.MapPairsBack | programming-languages/scripting-language-3/crates/oma-compiler/src/ast.rs:399-427 | map pairs that convert are spelled back by their pattern pairs |
| OmaAst.ArrayItemsBack | programming-languages/scripting-language-3/crates/oma-compiler/src/ast.rs:428-455 | array items that convert are spelled back by their pattern items |
| OmaAst.ComputedKeyIsNoPattern | programming-languages/scripting-language-3/crates/oma-compiler/src/ast.rs:420 | a map with a computed-key pair `[k]: v` anywhere among its pairs is not a pattern |
| OmaAst.MapPairsFail | programming-languages/scripting-language-3/crates/oma-compiler/src/ast.rs:420 | a computed-key pair anywhere makes the whole pair list fail to convert |
| OmaAst.IdentsCount | programming-languages/scripting-language-3/crates/oma-compiler/src/ast.rs:461-485 | `idents` succeeds exactly on the patterns it supports (no spreads, no array patterns) and then lists as many names as the slot counter reserves for the pattern |
| OmaAst.PairIdentsCount | programming-languages/scripting-language-3/crates/oma-compiler/src/ast.rs:472-481 | the same for map pattern pairs: defined exactly without spreads, listing as many names as are counted |
| OmaParseSpec.Peek | programming-languages/oma/crates/oma-compiler/src/parse.rs:663-676 | keeps a pending lookahead unchanged; otherwise reads lexemes until one is not a comment and holds it as the lookahead; never moves back |
| OmaParseSpec.Advance | programming-languages/oma/crates/oma-compiler/src/parse.rs:678-681 | returns the lookahead, which is never a comment, and clears it; input strictly shrinks unless the lexeme is `End`, which sits at the end of the source |
| OmaParseSpec.Expect | programming-languages/oma/crates/oma-compiler/src/parse.rs:683-699 | succeeds only with one of the expected tokens, clearing the lookahead; when `End` is not expected, a success consumes input |
| OmaParseSpec.Take | programming-languages/oma/crates/oma-compiler/src/parse.rs:683-699 | as `expect` of one token other than `End`, with a mismatch a panic: it never fails where `expect` succeeds |
| OmaParseSpec.Consume | programming-languages/oma/crates/oma-compiler/src/parse.rs:52-53 | taking a lookahead already seen: yields exactly that lexeme, consumes input, and agrees with `Take` of its token |
| OmaParseSpec.ParseIdent | programming-languages/oma/crates/oma-compiler/src/parse.rs:589-596 | an identifier consumes input and leaves no lookahead |
| OmaParseSpec.ParseLit | programming-languages/oma/crates/oma-compiler/src/parse.rs:598-640 | a literal consumes input |
| OmaParseSpec.ModuleFrom | programming-languages/oma/crates/oma-compiler/src/parse.rs:31-35 | a module never moves the parser back |
| OmaParseSpec.ParseBlock | programming-languages/oma/crates/oma-compiler/src/parse.rs:37-78 | a block is a block expression, and it stops with one of its terminators as the lookahead |
| OmaParseSpec.BlockLoop | programming-languages/oma/crates/oma-compiler/src/parse.rs:47-71 | the loop of a block returns a block and stops with a terminator as the lookahead |
| OmaParseSpec.ParseExpr | programming-languages/oma/crates/oma-compiler/src/parse.rs:80-89 | an expression consumes input |
| OmaParseSpec.BindExpr | programming-languages/oma/crates/oma-compiler/src/parse.rs:91-106 | a `let` consumes input; its expression must be an assignment to a pattern, anything else panics, and an Ok result is a `Bind` (`OmaParseProps.BindRule`, `BindIsBind`) |
| OmaParseSpec.IfExpr | programming-languages/oma/crates/oma-compiler/src/parse.rs:108-151 | an `if` consumes input |
| OmaParseSpec.ElseBranch | programming-languages/oma/crates/oma-compiler/src/parse.rs:117-137 | the part after `else` consumes input |
| OmaParseSpec.Braced | programming-languages/oma/crates/oma-compiler/src/parse.rs:113-115 | a braced body is a block between an open and a close brace |
| OmaParseSpec.CaseExpr | programming-languages/oma/crates/oma-compiler/src/parse.rs:153-187 | a `case` consumes input |
| OmaParseSpec.Arms | programming-languages/oma/crates/oma-compiler/src/parse.rs:160-177 | the arm loop stops with `}` as the lookahead |
| OmaParseSpec.ArmBody | programming-languages/oma/crates/oma-compiler/src/parse.rs:165-174 | an arm body consumes input; a body that is not a braced block must be followed by `,`, any other lexeme being the unexpected-token error (`OmaParseProps.ArmBodyComma`) |
| OmaParseSpec.ForExpr | programming-languages/oma/crates/oma-compiler/src/parse.rs:189-210 | a `for` consumes input |
| OmaParseSpec.WhileExpr | programming-languages/oma/crates/oma-compiler/src/parse.rs:212-228 | a `while` consumes input |
| OmaParseSpec.Pratt | programming-languages/oma/crates/oma-compiler/src/parse.rs:230-344 | an operator expression consumes input |
| OmaParseSpec.Operand | programming-languages/oma/crates/oma-compiler/src/parse.rs:231-240 | the operand an operator expression starts with consumes input |
| OmaParseSpec.PrattLoop | programming-languages/oma/crates/oma-compiler/src/parse.rs:242-341 | the operator loop never moves back |
| OmaParseSpec.PostfixStep | programming-languages/oma/crates/oma-compiler/src/parse.rs:247-303 | an index or call applied to the left operand consumes input |
| OmaParseSpec.InfixStep | programming-languages/oma/crates/oma-compiler/src/parse.rs:305-338 | an infix operator with its right side consumes input; `=` needs a left side that converts to an assignee, otherwise `InvalidAssignee` (`OmaParseProps.AssignRejects`) |
| OmaParseSpec.Prefix | programming-languages/oma/crates/oma-compiler/src/parse.rs:346-358 | a prefix operator with its operand consumes input |
| OmaParseSpec.Arguments | programming-languages/oma/crates/oma-compiler/src/parse.rs:360-386 | the argument loop stops with `)` as the lookahead |
| OmaParseSpec.SpreadArgument | programming-languages/oma/crates/oma-compiler/src/parse.rs:360-386 | a spread argument consumes input |
| OmaParseSpec.PlainArgument | programming-languages/oma/crates/oma-compiler/src/parse.rs:360-386 | a plain argument consumes input |
| OmaParseSpec.GroupOrLambda | programming-languages/oma/crates/oma-compiler/src/parse.rs:388-412 | a group or lambda consumes input |
| OmaParseSpec.GroupExpr | programming-languages/oma/crates/oma-compiler/src/parse.rs:414-419 | a parenthesised expression consumes input |
| OmaParseSpec.LambdaExpr | programming-languages/oma/crates/oma-compiler/src/parse.rs:421-446 | what `lambda_expr` returns is a lambda, and it consumes input |
| OmaParseSpec.LambdaBody | programming-languages/oma/crates/oma-compiler/src/parse.rs:421-446 | a lambda body consumes input |
| OmaParseSpec.LambdaHead | programming-languages/oma/crates/oma-compiler/src/parse.rs:448-490 | a lambda head consumes input |
| OmaParseSpec.Parameters | programming-languages/oma/crates/oma-compiler/src/parse.rs:448-490 | the parameter loop stops with `)` as the lookahead |
| OmaParseSpec.SpreadParameter | programming-languages/oma/crates/oma-compiler/src/parse.rs:448-490 | a spread parameter consumes input |
| OmaParseSpec.PatParameter | programming-languages/oma/crates/oma-compiler/src/parse.rs:448-490 | a pattern parameter consumes input |
| OmaParseSpec.MapExpr | programming-languages/oma/crates/oma-compiler/src/parse.rs:492-547 | a map literal consumes input |
| OmaParseSpec.MapPairs | programming-languages/oma/crates/oma-compiler/src/parse.rs:492-547 | the pair loop stops with `}` as the lookahead |
| OmaParseSpec.MapPair | programming-languages/oma/crates/oma-compiler/src/parse.rs:492-547 | one map pair consumes input |
| OmaParseSpec.ArrayExpr | programming-languages/oma/crates/oma-compiler/src/parse.rs:549-587 | an array literal consumes input |
| OmaParseSpec.Items | programming-languages/oma/crates/oma-compiler/src/parse.rs:549-587 | the item loop stops with `]` as the lookahead |
| OmaParseSpec.SpreadItem | programming-languages/oma/crates/oma-compiler/src/parse.rs:549-587 | a spread item consumes input |
| OmaParseSpec.PlainItem | programming-languages/oma/crates/oma-compiler/src/parse.rs:549-587 | a plain item consumes input |
| OmaParseSpec.ParsePat | programming-languages/oma/crates/oma-compiler/src/parse.rs:642-649 | a pattern consumes input; an expression that does not convert is `InvalidCasePat` at its span (`OmaParseProps.PatRule`) |
| OmaParseSpec.CallOrTag | programming-languages/oma/crates/oma-compiler/src/parse.rs:261-297 | defines the call-or-tag choice: a PascalCase name applied to exactly one plain argument is a `Tag`, any other argument list to it is `MultipleTagArguments`, everything else a `Call` (`OmaParseProps.TagRule`) |
| OmaParseSpec.ParseModule | programming-languages/oma/crates/oma-compiler/src/parse.rs:25-35 | defines `parse`: the module, then `End` (`OmaParseProps.ParseEnds`) |
| OmaParseProps.InfixPowers | programming-languages/oma/crates/oma-compiler/src/parse.rs:709-723 | every binary operator's right power is its left power plus one, and no binary operator is postfix, `;` or `End` |
| OmaParseProps.LoopStops | programming-languages/oma/crates/oma-compiler/src/parse.rs:305-310 | the operator loop stops, keeping its left operand, at an operator whose left power is below the minimum |
| OmaParseProps.LoopTakes | programming-languages/oma/crates/oma-compiler/src/parse.rs:305-338 | at an operator whose left power reaches the minimum, the loop takes it and goes on from the combined expression |
| OmaParseProps.RightOperandStops | programming-languages/oma/crates/oma-compiler/src/parse.rs:330-334 | left associativity: the right operand of `a - b - c`'s first `-` is `b` alone |
| OmaParseProps.ExprIsPratt | programming-languages/oma/crates/oma-compiler/src/parse.rs:80-89 | an expression that does not start with a keyword is the operator parser at power 0 |
| OmaParseProps.AssignValue | programming-languages/oma/crates/oma-compiler/src/parse.rs:320-329 | right associativity of `=`: on success its value is the whole expression parsed after it, so `a = b = c` assigns `b = c` to `a`; it succeeds whenever that value parses and the left side is an assignee |
| OmaParseProps.AssignRejects | programming-languages/oma/crates/oma-compiler/src/parse.rs:320-328 | with a value that parses, `=` is `InvalidAssignee` at the left side exactly when the left side has no assignee, and otherwise the assignment of that assignee |
| OmaParseProps.BindRule | programming-languages/oma/crates/oma-compiler/src/parse.rs:91-106 | after `let`, an assignment to a pattern becomes the `Bind` of that pattern and value; any other expression is the `unimplemented!` panic |
| OmaParseProps.BindIsBind | programming-languages/oma/crates/oma-compiler/src/parse.rs:91-106 | whatever the input, a `let` that parses is a `Bind` |
| OmaParseProps.ArmBodyComma | programming-languages/oma/crates/oma-compiler/src/parse.rs:165-174 | an arm body that is not braced is an expression followed by `,`: the `,` is taken, and any other lexeme is unexpected with `,` expected |
| OmaParseProps.PatRule | programming-languages/oma/crates/oma-compiler/src/parse.rs:642-649 | a pattern is the expression converted; an expression that does not convert is `InvalidCasePat` at its span |
| OmaParseProps.ParseEnds | programming-languages/oma/crates/oma-compiler/src/parse.rs:25-35 | `parse` succeeds exactly when the module does, and then the module's block stops at `End` |
| OmaParseProps.PeekTwice | programming-languages/oma/crates/oma-compiler/src/parse.rs:663-676 | peeking twice sees the same lexeme and consumes nothing more; the lexeme is never a comment |
| OmaParseProps.BlockNeedsSeparator | programming-languages/oma/crates/oma-compiler/src/parse.rs:60-63 | an expression other than `if`, `while`, `for` and `case` followed by neither `;` nor a terminator is the unexpected-token error listing the terminators |
| OmaParseProps.BlockKeywordForms | programming-languages/oma/crates/oma-compiler/src/parse.rs:56-59 | after `if`, `while`, `for` or `case` the block goes on without `;`, and the flag says it does not end in one |
| OmaParseProps.BlockAtTerminator | programming-languages/oma/crates/oma-compiler/src/parse.rs:60-65 | an expression followed by a terminator is kept, and the flag says the block does not end in `;` |
| OmaParseProps.BlockSemicolon | programming-languages/oma/crates/oma-compiler/src/parse.rs:52-54 | a `;` after an expression is taken, and the flag says the block ends in one |
| OmaParseProps.EmptyBlock | programming-languages/oma/crates/oma-compiler/src/parse.rs:41-45 | a block that starts at a terminator is empty and counts as ending in `;` |
| OmaParseProps.BlockLoopKeeps | programming-languages/oma/crates/oma-compiler/src/parse.rs:44-71 | the block keeps the expressions parsed so far and appends the rest in order; an empty result block has the `;` flag |
| OmaParseProps.TagRule | programming-languages/oma/crates/oma-compiler/src/parse.rs:261-297 | a call on a PascalCase name is a tag exactly when it has one non-spread argument, otherwise the multiple-tag-arguments error; on any other receiver it is a call |
| OmaParseProps.GroupOrLambdaChoice | programming-languages/oma/crates/oma-compiler/src/parse.rs:388-412 | at `(` the parser looks ahead on its own copy of the rest of the source and reads a lambda when a lambda head parses or a group does not, a group otherwise |
| OmaParser.ParseSource | programming-languages/oma/crates/oma-compiler/src/parse.rs:17-29 | a fresh parser over the source returns exactly the module `ParseModule` describes |
| OmaParser.Parser.constructor | programming-languages/oma/crates/oma-compiler/src/parse.rs:17-23 | a new parser starts at the start of the source with no lookahead |
| OmaParser.Parser.Parse | programming-languages/oma/crates/oma-compiler/src/parse.rs:25-29 | from the start of the source, returns the module `ParseModule` describes |
| OmaParser.Parser.Peek | programming-languages/oma/crates/oma-compiler/src/parse.rs:663-676 | updates the lexer and lookahead in place and ends in the result and state `OmaParseSpec.Peek` gives for the state it started in |
| OmaParser.Parser.Advance | programming-languages/oma/crates/oma-compiler/src/parse.rs:678-681 | updates the lexer and lookahead in place and ends in the result and state `OmaParseSpec.Advance` gives for the state it started in |
| OmaParser.Parser.Expect | programming-languages/oma/crates/oma-compiler/src/parse.rs:683-699 | updates the lexer and lookahead in place and ends in the result and state `OmaParseSpec.Expect` gives for the state it started in |
| OmaParser.Parser.Take | programming-languages/oma/crates/oma-compiler/src/parse.rs:683-699 | updates the lexer and lookahead in place and ends in the result and state `OmaParseSpec.Take` gives for the state it started in |
| OmaParser.Parser.Consume | programming-languages/oma/crates/oma-compiler/src/parse.rs:52-53 | updates the lexer and lookahead in place and ends in the result and state `OmaParseSpec.Consume` gives for the state it started in |
| OmaParser.Parser.ParseIdent | programming-languages/oma/crates/oma-compiler/src/parse.rs:589-596 | updates the lexer and lookahead in place and ends in the result and state `OmaParseSpec.ParseIdent` gives for the state it started in |
| OmaParser.Parser.ParseLit | programming-languages/oma/crates/oma-compiler/src/parse.rs:598-640 | updates the lexer and lookahead in place and ends in the result and state `OmaParseSpec.ParseLit` gives for the state it started in |
| OmaParser.Parser.ModuleFrom | programming-languages/oma/crates/oma-compiler/src/parse.rs:31-35 | updates the lexer and lookahead in place and ends in the result and state `OmaParseSpec.ModuleFrom` gives for the state it started in |
| OmaParser.Parser.ParseBlock | programming-languages/oma/crates/oma-compiler/src/parse.rs:37-78 | updates the lexer and lookahead in place and ends in the result and state `OmaParseSpec.ParseBlock` gives for the state it started in |
| OmaParser.Parser.ParseExpr | programming-languages/oma/crates/oma-compiler/src/parse.rs:80-89 | updates the lexer and lookahead in place and ends in the result and state `OmaParseSpec.ParseExpr` gives for the state it started in |
| OmaParser.Parser.BindExpr | programming-languages/oma/crates/oma-compiler/src/parse.rs:91-106 | updates the lexer and lookahead in place and ends in the result and state `OmaParseSpec.BindExpr` gives for the state it started in; the rules it then follows are `OmaParseProps.BindRule` |
| OmaParser.Parser.IfExpr | programming-languages/oma/crates/oma-compiler/src/parse.rs:108-151 | updates the lexer and lookahead in place and ends in the result and state `OmaParseSpec.IfExpr` gives for the state it started in |
| OmaParser.Parser.ElseBranch | programming-languages/oma/crates/oma-compiler/src/parse.rs:117-137 | updates the lexer and lookahead in place and ends in the result and state `OmaParseSpec.ElseBranch` gives for the state it started in |
| OmaParser.Parser.Braced | programming-languages/oma/crates/oma-compiler/src/parse.rs:113-115 | updates the lexer and lookahead in place and ends in the result and state `OmaParseSpec.Braced` gives for the state it started in |
| OmaParser.Parser.CaseExpr | programming-languages/oma/crates/oma-compiler/src/parse.rs:153-187 | updates the lexer and lookahead in place and ends in the result and state `OmaParseSpec.CaseExpr` gives for the state it started in |
| OmaParser.Parser.ArmBody | programming-languages/oma/crates/oma-compiler/src/parse.rs:165-174 | updates the lexer and lookahead in place and ends in the result and state `OmaParseSpec.ArmBody` gives for the state it started in; the rules it then follows are `OmaParseProps.ArmBodyComma` |
| OmaParser.Parser.ForExpr | programming-languages/oma/crates/oma-compiler/src/parse.rs:189-210 | updates the lexer and lookahead in place and ends in the result and state `OmaParseSpec.ForExpr` gives for the state it started in |
| OmaParser.Parser.WhileExpr | programming-languages/oma/crates/oma-compiler/src/parse.rs:212-228 | updates the lexer and lookahead in place and ends in the result and state `OmaParseSpec.WhileExpr` gives for the state it started in |
| OmaParser.Parser.Pratt | programming-languages/oma/crates/oma-compiler/src/parse.rs:230-344 | updates the lexer and lookahead in place and ends in the result and state `OmaParseSpec.Pratt` gives for the state it started in |
| OmaParser.Parser.Operand | programming-languages/oma/crates/oma-compiler/src/parse.rs:231-240 | updates the lexer and lookahead in place and ends in the result and state `OmaParseSpec.Operand` gives for the state it started in |
| OmaParser.Parser.PostfixStep | programming-languages/oma/crates/oma-compiler/src/parse.rs:247-303 | updates the lexer and lookahead in place and ends in the result and state `OmaParseSpec.PostfixStep` gives for the state it started in |
| OmaParser.Parser.InfixStep | programming-languages/oma/crates/oma-compiler/src/parse.rs:305-338 | updates the lexer and lookahead in place and ends in the result and state `OmaParseSpec.InfixStep` gives for the state it started in |
| OmaParser.Parser.Prefix | programming-languages/oma/crates/oma-compiler/src/parse.rs:346-358 | updates the lexer and lookahead in place and ends in the result and state `OmaParseSpec.Prefix` gives for the state it started in |
| OmaParser.Parser.Arguments | programming-languages/oma/crates/oma-compiler/src/parse.rs:360-386 | updates the lexer and lookahead in place and ends in the result and state `OmaParseSpec.Arguments` gives for the state it started in |
| OmaParser.Parser.SpreadArgument | programming-languages/oma/crates/oma-compiler/src/parse.rs:360-386 | updates the lexer and lookahead in place and ends in the result and state `OmaParseSpec.SpreadArgument` gives for the state it started in |
| OmaParser.Parser.PlainArgument | programming-languages/oma/crates/oma-compiler/src/parse.rs:360-386 | updates the lexer and lookahead in place and ends in the result and state `OmaParseSpec.PlainArgument` gives for the state it started in |
| OmaParser.Parser.GroupOrLambda | programming-languages/oma/crates/oma-compiler/src/parse.rs:388-412 | updates the lexer and lookahead in place and ends in the result and state `OmaParseSpec.GroupOrLambda` gives for the state it started in |
| OmaParser.Parser.GroupExpr | programming-languages/oma/crates/oma-compiler/src/parse.rs:414-419 | updates the lexer and lookahead in place and ends in the result and state `OmaParseSpec.GroupExpr` gives for the state it started in |
| OmaParser.Parser.LambdaExpr | programming-languages/oma/crates/oma-compiler/src/parse.rs:421-446 | updates the lexer and lookahead in place and ends in the result and state `OmaParseSpec.LambdaExpr` gives for the state it started in |
| OmaParser.Parser.LambdaBody | programming-languages/oma/crates/oma-compiler/src/parse.rs:421-446 | updates the lexer and lookahead in place and ends in the result and state `OmaParseSpec.LambdaBody` gives for the state it started in |
| OmaParser.Parser.LambdaHead | programming-languages/oma/crates/oma-compiler/src/parse.rs:448-490 | updates the lexer and lookahead in place and ends in the result and state `OmaParseSpec.LambdaHead` gives for the state it started in |
| OmaParser.Parser.SpreadParameter | programming-languages/oma/crates/oma-compiler/src/parse.rs:448-490 | updates the lexer and lookahead in place and ends in the result and state `OmaParseSpec.SpreadParameter` gives for the state it started in |
| OmaParser.Parser.PatParameter | programming-languages/oma/crates/oma-compiler/src/parse.rs:448-490 | updates the lexer and lookahead in place and ends in the result and state `OmaParseSpec.PatParameter` gives for the state it started in |
| OmaParser.Parser.MapExpr | programming-languages/oma/crates/oma-compiler/src/parse.rs:492-547 | updates the lexer and lookahead in place and ends in the result and state `OmaParseSpec.MapExpr` gives for the state it started in |
| OmaParser.Parser.MapPair | programming-languages/oma/crates/oma-compiler/src/parse.rs:492-547 | updates the lexer and lookahead in place and ends in the result and state `OmaParseSpec.MapPair` gives for the state it started in |
| OmaParser.Parser.ArrayExpr | programming-languages/oma/crates/oma-compiler/src/parse.rs:549-587 | updates the lexer and lookahead in place and ends in the result and state `OmaParseSpec.ArrayExpr` gives for the state it started in |
| OmaParser.Parser.SpreadItem | programming-languages/oma/crates/oma-compiler/src/parse.rs:549-587 | updates the lexer and lookahead in place and ends in the result and state `OmaParseSpec.SpreadItem` gives for the state it started in |
| OmaParser.Parser.PlainItem | programming-languages/oma/crates/oma-compiler/src/parse.rs:549-587 | updates the lexer and lookahead in place and ends in the result and state `OmaParseSpec.PlainItem` gives for the state it started in |
| OmaParser.Parser.ParsePat | programming-languages/oma/crates/oma-compiler/src/parse.rs:642-649 | updates the lexer and lookahead in place and ends in the result and state `OmaParseSpec.ParsePat` gives for the state it started in; the rules it then follows are `OmaParseProps.PatRule` |
| OmaContext.WithParent | programming-languages/oma/crates/oma-compiler/src/gen.rs:683-697 | a child context has the given parent, slot 0 bound to the lambda at depth 0, no captures and an empty chunk |
| OmaContext.New | programming-languages/oma/crates/oma-compiler/src/gen.rs:667-681 | the top-level context is a child context without a parent |
| OmaContext.Emit | programming-languages/oma/crates/oma-compiler/src/gen.rs:699-702 | emitting appends the instruction to the chunk and returns the offset it starts at, the old code length |
| OmaContext.Patch | programming-languages/oma/crates/oma-compiler/src/gen.rs:704-706 | a patch succeeds exactly when the operand bytes lie within the code, and then rewrites them with the `usize` operand |
| OmaContext.AddLocal | programming-languages/oma/crates/oma-compiler/src/gen.rs:708-711 | binding appends a slot at the current depth and returns its position, the old slot count |
| OmaContext.EnterScope | programming-languages/oma/crates/oma-compiler/src/gen.rs:749-751 | entering a scope raises the depth by one and changes nothing else |
| OmaContext.FindLocal | programming-languages/oma/crates/oma-compiler/src/gen.rs:713-721 | the slot found has the name and no later slot does; without a result no slot has the name |
| OmaContext.LocalOf | programming-languages/oma/crates/oma-compiler/src/gen.rs:713-721 | the search from the newest slot down returns the newest slot of the name, if any |
| OmaContext.Position | programming-languages/oma/crates/oma-compiler/src/gen.rs:724 | the first position holding an equal capture, found exactly when one is listed |
| OmaContext.AddUpvalue | programming-languages/oma/crates/oma-compiler/src/gen.rs:723-730 | an equal capture already listed is reused and the context kept; otherwise it is appended at the end; the index always holds the capture |
| OmaContext.AddUpvalueTo | programming-languages/oma/crates/oma-compiler/src/gen.rs:723-730 | the in-place update agrees with `AddUpvalue` |
| OmaContext.UniquePosition | programming-languages/oma/crates/oma-compiler/src/gen.rs:724 | the position of a capture is its first occurrence |
| OmaContext.UpvalueOf | programming-languages/oma/crates/oma-compiler/src/gen.rs:732-747 | the recursive capture search agrees with `ResolveUpvalue` |
| OmaContext.ExitScopeOf | programming-languages/oma/crates/oma-compiler/src/gen.rs:753-773 | leaving a scope agrees with `ExitScope`: slots of the closed depth are dropped and counted |
| OmaContext.KeptExactly | programming-languages/oma/crates/oma-compiler/src/gen.rs:753-773 | leaving a scope keeps exactly the slots bound below the closed depth |
| OmaContext.KeptCount | programming-languages/oma/crates/oma-compiler/src/gen.rs:753-773 | the kept slots and the pop count add up to the old slot count; with nothing popped, nothing changes |
| OmaContext.KeptPrefix | programming-languages/oma/crates/oma-compiler/src/gen.rs:753-773 | slots bound before the scope was entered keep their positions |
| OmaContext.KeptAll | programming-languages/oma/crates/oma-compiler/src/gen.rs:753-773 | a scope with no slots of its own leaves the slots unchanged |
| OmaContext.NewHoldsLambda | programming-languages/oma/crates/oma-compiler/src/gen.rs:667-697 | a new context holds the lambda's slot 0 |
| OmaContext.AddLocalAfterLambda | programming-languages/oma/crates/oma-compiler/src/gen.rs:708-711 | a new binding never takes slot 0, and slot 0 stays the lambda's |
| OmaContext.ExitScopeHoldsLambda | programming-languages/oma/crates/oma-compiler/src/gen.rs:753-773 | leaving a scope never drops slot 0, bound at depth 0 |
| OmaContext.AddUpvalueDistinct | programming-languages/oma/crates/oma-compiler/src/gen.rs:723-730 | adding a capture keeps the capture list free of duplicates |
| OmaContext.ResolveUpvalueCases | programming-languages/oma/crates/oma-compiler/src/gen.rs:732-747 | a capture comes from the parent's newest slot of the name, else from the parent's own capture, else there is none; without a parent there is none |
| OmaContext.ResolveUpvalueDistinct | programming-languages/oma/crates/oma-compiler/src/gen.rs:732-747 | resolving keeps every capture list in the chain free of duplicates and leaves the slots and chunk alone |
| OmaGenSpec.FindRegistry | programming-languages/oma/crates/oma-compiler/src/gen.rs:601-606 | the registry search finds a name exactly when it is registered, and then the id of the first entry with that name |
| OmaGenSpec.GenModule | programming-languages/oma/crates/oma-compiler/src/gen.rs:29-41 | defines `module`: the body, then `Ret`, as the arity-0 main function with the counted locals, or a panic when the locals cannot be counted (`OmaGen.Generator.Generate` runs it) |
| OmaGenSpec.GenExpr | programming-languages/oma/crates/oma-compiler/src/gen.rs:43-63 | defines `expr`: each expression form goes to its lowering (`OmaGenGrowth.ExprGrows` and the shape lemmas) |
| OmaGenSpec.GenIf | programming-languages/oma/crates/oma-compiler/src/gen.rs:381-407 | defines `if_expr` as written, with the end `Jmp` emitted without an operand (`OmaGenJumps.IfEndJumpMasked`) |
| OmaGenSpec.GenWhile | programming-languages/oma/crates/oma-compiler/src/gen.rs:554-576 | defines `while_expr`: the condition, a `Jif` placeholder, the body, a `Jmp` back to the condition, the `Jif` patched past it, then `Nul` (`OmaGenJumps.WhileJumps`) |
| OmaGenSpec.GenCase | programming-languages/oma/crates/oma-compiler/src/gen.rs:409-457 | defines `case_expr`: the subject once, the arms, a `Nul` fallback and `Swp Pop` (`OmaGenCase.CaseJumps`) |
| OmaGenNames.NewestUnique | programming-languages/oma/crates/oma-compiler/src/gen.rs:713-721 | the newest slot with a name is unique |
| OmaGenNames.LocalsFirst | programming-languages/oma/crates/oma-compiler/src/gen.rs:597-600 | an identifier with a slot in the current function loads (`Lod`) the newest such slot, whatever captures or registry entries exist |
| OmaGenNames.Shadowing | programming-languages/oma/crates/oma-compiler/src/gen.rs:708-721 | after a binding, the name loads the new slot: it shadows every older binding |
| OmaGenNames.CaptureIffEnclosed | programming-languages/oma/crates/oma-compiler/src/gen.rs:732-747 | capture succeeds exactly when an enclosing function binds the name, and a failed capture leaves the context unchanged |
| OmaGenNames.NonLocal | programming-languages/oma/crates/oma-compiler/src/gen.rs:597-616 | without a slot, the identifier loads a capture (`Lou`), else the first registry entry (`Nal`), and is the unresolved-identifier error exactly when neither exists |
| OmaGenNames.TopLevelNames | programming-languages/oma/crates/oma-compiler/src/gen.rs:597-616 | at the top level a name without a slot loads a registry entry exactly when one is registered, otherwise it is unresolved |
| OmaGenNames.AssignToLocal | programming-languages/oma/crates/oma-compiler/src/gen.rs:301-340 | assigning to a name stores (`Sav`) into its newest slot in the current function; without one it is unresolved, even if an enclosing function binds it |
| OmaGenNames.BindToNewSlot | programming-languages/oma/crates/oma-compiler/src/gen.rs:231-268 | binding a name stores into a new slot after every existing one |
| OmaLocals.RunThen | programming-languages/scripting-language-3/crates/oma-compiler/src/ast.rs:646-698 | running two walks in turn is running their sequence |
| OmaLocals.Context.constructor | programming-languages/scripting-language-3/crates/oma-compiler/src/ast.rs:615-621 | a new counter has no live slots, a zero high-water mark and no open scopes |
| OmaLocals.Context.Add | programming-languages/scripting-language-3/crates/oma-compiler/src/ast.rs:624-629 | adding raises the live count by the amount and the high-water mark to at least the live count |
| OmaLocals.Context.EnterScope | programming-languages/scripting-language-3/crates/oma-compiler/src/ast.rs:631-633 | entering a scope saves the live count |
| OmaLocals.Context.ExitScope | programming-languages/scripting-language-3/crates/oma-compiler/src/ast.rs:635-637 | leaving a scope restores the live count saved last and drops that save |
| OmaLocals.CountExprLocals | programming-languages/scripting-language-3/crates/oma-compiler/src/ast.rs:640-644 | the count is the high-water mark of the walk `Use` describes for the expression |
| OmaLocals.CountExprLocalsWithCtx | programming-languages/scripting-language-3/crates/oma-compiler/src/ast.rs:646-698 | the walk moves the counter exactly as `Use` says and leaves the open scopes as they were |
| OmaLocals.CountScoped | programming-languages/scripting-language-3/crates/oma-compiler/src/ast.rs:662-684 | a branch or loop body is counted inside a scope of its own |
| OmaLocals.CountAll | programming-languages/scripting-language-3/crates/oma-compiler/src/ast.rs:648-652 | a block's expressions are counted in order |
| OmaLocals.CountArgs | programming-languages/scripting-language-3/crates/oma-compiler/src/ast.rs:654-661 | a call's arguments are counted in order; a spread argument is not supported |
| OmaLocals.CountArms | programming-languages/scripting-language-3/crates/oma-compiler/src/ast.rs:672-679 | each `case` arm is counted inside a scope of its own, in order |
| OmaLocals.CountArm | programming-languages/scripting-language-3/crates/oma-compiler/src/ast.rs:673-678 | an arm counts its pattern's slots and then its body's, inside a scope |
| OmaLocals.CountPatLocals | programming-languages/scripting-language-3/crates/oma-compiler/src/ast.rs:700-715 | a pattern adds one slot per identifier, through tags and map pairs, none for a literal |
| OmaLocals.GrowWithinPeak | programming-languages/scripting-language-3/crates/oma-compiler/src/ast.rs:646-698 | a walk never leaves more slots live than at its peak |
| OmaLocals.AllGrowWithinPeak | programming-languages/scripting-language-3/crates/oma-compiler/src/ast.rs:648-652 | the same for a block's expressions |
| OmaLocals.ArgsGrowWithinPeak | programming-languages/scripting-language-3/crates/oma-compiler/src/ast.rs:654-661 | the same for a call's arguments |
| OmaLocals.ArmsGrowWithinPeak | programming-languages/scripting-language-3/crates/oma-compiler/src/ast.rs:672-679 | the arms of a `case` leave no slot live |
| OmaLocals.BindNeedsItsIdents | programming-languages/scripting-language-3/crates/oma-compiler/src/ast.rs:653 | a bind needs one slot per identifier its pattern binds, as `Pat::idents` lists them |
| OmaLocals.BranchesShareSlots | programming-languages/scripting-language-3/crates/oma-compiler/src/ast.rs:662-671 | the two branches of an `if` share their slots: the `if` needs the larger of their peaks and leaves none live |
| OmaLocals.ArmsShareSlots | programming-languages/scripting-language-3/crates/oma-compiler/src/ast.rs:672-679 | the arms of a `case` share their slots: it needs what its neediest arm needs, and leaves none live |
| OmaLocals.BindsAccumulate | programming-languages/scripting-language-3/crates/oma-compiler/src/ast.rs:648-653 | a block of binds needs, and keeps live, the sum of the slots they bind |
| OmaGen.Generator.constructor | programming-languages/oma/crates/oma-compiler/src/gen.rs:18-23 | a new generator holds the registry and a fresh top-level context |
| OmaGen.Generator.Generate | programming-languages/oma/crates/oma-compiler/src/gen.rs:25-41 | from a fresh generator, returns exactly the function `GenModule` describes: arity 0, the module's locals counted ahead, its code followed by `Ret` |
| OmaGen.Generator.EmitOp | programming-languages/oma/crates/oma-compiler/src/gen.rs:699-702 | emitting updates the context as `Emit` does and returns the instruction's offset |
| OmaGen.Generator.EmitBare | programming-languages/oma/crates/oma-compiler/src/gen.rs:649-656 | an instruction without operand updates the context as `Bare` does |
| OmaGen.Generator.EmitUsize | programming-languages/oma/crates/oma-compiler/src/gen.rs:631-647 | an instruction with a `usize` operand updates the context as `WithUsize` does |
| OmaGen.Generator.EmitString | programming-languages/oma/crates/oma-compiler/src/gen.rs:618-623 | an instruction with a string operand updates the context as `WithString` does |
| OmaGen.Generator.EmitPlaceholder | programming-languages/oma/crates/oma-compiler/src/gen.rs:383-386 | a jump with the `usize::MAX` placeholder updates the context as `Placeholder` does and returns its offset |
| OmaGen.Generator.PatchTo | programming-languages/oma/crates/oma-compiler/src/gen.rs:704-706 | a patch updates the context as `PatchAt` does, failing where the source's `unwrap` panics |
| OmaGen.Generator.PatchEach | programming-languages/oma/crates/oma-compiler/src/gen.rs:409-457 | the loops that patch a list of jumps to the current length agree with `PatchAll` |
| OmaGen.Generator.Expr | programming-languages/oma/crates/oma-compiler/src/gen.rs:43-63 | lowering an expression updates the context as `GenExpr` says, or fails with its error |
| OmaGen.Generator.MapExpr | programming-languages/oma/crates/oma-compiler/src/gen.rs:65-85 | a map literal is lowered as `GenExpr` says |
| OmaGen.Generator.ArrayExpr | programming-languages/oma/crates/oma-compiler/src/gen.rs:87-103 | an array literal is lowered as `GenExpr` says |
| OmaGen.Generator.LambdaExpr | programming-languages/oma/crates/oma-compiler/src/gen.rs:105-149 | a child context is swapped in, the lambda lowered, the parent restored and `Lmd` emitted, as `GenLambda` says |
| OmaGen.Generator.TagExpr | programming-languages/oma/crates/oma-compiler/src/gen.rs:151-159 | a tag is lowered as `GenExpr` says |
| OmaGen.Generator.BlockExpr | programming-languages/oma/crates/oma-compiler/src/gen.rs:161-183 | a block is lowered as `GenExpr` says |
| OmaGen.Generator.BinaryExpr | programming-languages/oma/crates/oma-compiler/src/gen.rs:185-209 | a binary expression is lowered as `GenBinary` says |
| OmaGen.Generator.UnaryExpr | programming-languages/oma/crates/oma-compiler/src/gen.rs:211-221 | a unary expression is lowered as `GenExpr` says |
| OmaGen.Generator.BindExpr | programming-languages/oma/crates/oma-compiler/src/gen.rs:223-229 | a `let` is lowered as `GenExpr` says |
| OmaGen.Generator.AssignExpr | programming-languages/oma/crates/oma-compiler/src/gen.rs:270-299 | an assignment is lowered as `GenAssign` says |
| OmaGen.Generator.StoreExprPat | programming-languages/oma/crates/oma-compiler/src/gen.rs:231-340 | storing into a pattern, declaring or not, agrees with `StorePat` |
| OmaGen.Generator.StoreExprPairs | programming-languages/oma/crates/oma-compiler/src/gen.rs:231-340 | the loop over a map pattern's fields agrees with `StorePairs` |
| OmaGen.Generator.CallExpr | programming-languages/oma/crates/oma-compiler/src/gen.rs:342-358 | a call is lowered as `GenCall` says |
| OmaGen.Generator.AccessExpr | programming-languages/oma/crates/oma-compiler/src/gen.rs:360-379 | an access is lowered as `GenAccess` says |
| OmaGen.Generator.Field | programming-languages/oma/crates/oma-compiler/src/gen.rs:360-379 | an access's field is lowered as `GenField` says |
| OmaGen.Generator.IfExpr | programming-languages/oma/crates/oma-compiler/src/gen.rs:381-407 | an `if` is lowered as `GenIf` says |
| OmaGen.Generator.CaseExpr | programming-languages/oma/crates/oma-compiler/src/gen.rs:409-457 | a `case` is lowered as `GenCase` says |
| OmaGen.Generator.CaseExprPat | programming-languages/oma/crates/oma-compiler/src/gen.rs:459-539 | a `case` pattern's tests agree with `GenCasePat`, returning the failure jumps it adds |
| OmaGen.Generator.CaseExprPairs | programming-languages/oma/crates/oma-compiler/src/gen.rs:459-539 | the loop over a map pattern's fields agrees with `GenCasePairs` |
| OmaGen.Generator.CaseExprPatSubject | programming-languages/oma/crates/oma-compiler/src/gen.rs:541-552 | loading the subject along a path agrees with `Subject` |
| OmaGen.Generator.WhileExpr | programming-languages/oma/crates/oma-compiler/src/gen.rs:554-576 | a `while` is lowered as `GenWhile` says |
| OmaGen.Generator.Lit | programming-languages/oma/crates/oma-compiler/src/gen.rs:578-595 | a literal is lowered as `GenLit` says |
| OmaGen.Generator.Ident | programming-languages/oma/crates/oma-compiler/src/gen.rs:597-616 | an identifier is lowered as `GenIdent` says |
| OmaGen.Generator.Lookup | programming-languages/oma/crates/oma-compiler/src/gen.rs:601-606 | the registry search returns the first entry of the name, as `FindRegistry` says |
| OmaGenGrowth.ExprGrows | programming-languages/oma/crates/oma-compiler/src/gen.rs:43-63 | lowering any expression only appends code (every patch lands at or after the start) and returns with the enclosing functions' code, slots and depth, and the current depth, unchanged |
| OmaGenGrowth.LambdaGrows | programming-languages/oma/crates/oma-compiler/src/gen.rs:105-149 | a lambda reaches from the context it started in and leaves its slots unchanged, so the parent is found again |
| OmaGenGrowth.AssignGrows | programming-languages/oma/crates/oma-compiler/src/gen.rs:270-299 | an assignment only appends code and keeps the frames |
| OmaGenGrowth.IfGrows | programming-languages/oma/crates/oma-compiler/src/gen.rs:381-407 | an `if` only appends code and keeps the frames |
| OmaGenGrowth.WhileGrows | programming-languages/oma/crates/oma-compiler/src/gen.rs:554-576 | a `while` only appends code and keeps the frames |
| OmaGenGrowth.CaseGrows | programming-languages/oma/crates/oma-compiler/src/gen.rs:409-457 | a `case` only appends code and keeps the frames, though each arm opens and closes a scope |
| OmaGenFrames.StorePatGrows | programming-languages/oma/crates/oma-compiler/src/gen.rs:231-340 | storing into a pattern only appends code, in the same function at the same depth |
| OmaGenFrames.CasePatGrows | programming-languages/oma/crates/oma-compiler/src/gen.rs:459-539 | a `case` pattern's tests only append code, and every failure jump they add lies after the start |
| OmaGenFrames.ResolveUpvalueFrames | programming-languages/oma/crates/oma-compiler/src/gen.rs:732-747 | resolving a capture changes only capture lists, all the way out |
| OmaGenJumps.PlaceholderSlot | programming-languages/oma/crates/oma-compiler/src/gen.rs:383-386 | a jump with the `usize::MAX` placeholder is a size-class-3 slot with eight operand bytes |
| OmaGenJumps.BareJumpSlot | programming-languages/oma/crates/oma-compiler/src/gen.rs:390 | a jump emitted without an operand is a size-class-0 slot with one operand byte |
| OmaGenJumps.UsizeJump | programming-languages/oma/crates/oma-compiler/src/gen.rs:566-568 | a jump emitted with a `usize` target keeps the earlier code and decodes to that target when it fits in 64 bits |
| OmaGenJumps.SlotPatched | programming-languages/oma/crates/oma-compiler/src/gen.rs:704-706 | patching a slot always fits; it then decodes to the target reduced to its width and every other byte is kept |
| OmaGenJumps.IfJumps | programming-languages/oma/crates/oma-compiler/src/gen.rs:381-407 | as written: once the condition and body lower, the `if` fails only when its else branch does; the `Jif` lands just past the body's `Jmp`, and that `Jmp`, emitted without operand, keeps only the end offset's low byte |
| OmaGenJumps.IfEndJumpMasked | programming-languages/oma/crates/oma-compiler/src/gen.rs:390-404 | as written: an `if` whose code ends at offset 256 or beyond has an end `Jmp` that does not land on its end |
| OmaGenJumps.WhileJumps | programming-languages/oma/crates/oma-compiler/src/gen.rs:554-576 | once the condition and body lower, a `while` always succeeds; it ends with the back `Jmp` to the condition and `Nul`, and the `Jif` lands on that `Nul` |
| OmaGenIfFixed.FixedIfJumps | programming-languages/oma/crates/oma-compiler/src/gen.rs:381-407 | corrected: with a placeholder on the end `Jmp`, the `if` still fails only with its else branch, the `Jif` lands past the `Jmp`, and the `Jmp` lands on the end for every code length a `usize` holds |
| OmaGenIfFixed.GenIfFixed | programming-languages/oma/crates/oma-compiler/src/gen.rs:381-407 | defines the corrected `if_expr`, with a placeholder on the end `Jmp` (`FixedIfJumps`) |
| OmaGenCase.PatchAllLands | programming-languages/oma/crates/oma-compiler/src/gen.rs:417-421 | patching a list of non-overlapping placeholder jumps always fits and lands each on the current end, keeping every other byte |
| OmaGenCase.CasePatSlots | programming-languages/oma/crates/oma-compiler/src/gen.rs:459-539 | a pattern keeps every failure jump, given and added, a pending placeholder |
| OmaGenCase.ArmsBase | programming-languages/oma/crates/oma-compiler/src/gen.rs:438-456 | after the last arm the failure jumps land on the `Nul` fallback and the arm-end jumps just past it |
| OmaGenCase.ArmStep | programming-languages/oma/crates/oma-compiler/src/gen.rs:416-436 | one arm: pattern and body in a scope, then the end `Jmp`; the new failure jumps are pending and all jumps stay apart |
| OmaGenCase.ArmsJumps | programming-languages/oma/crates/oma-compiler/src/gen.rs:416-456 | by induction over the arms: each incoming failure jump lands on the arm it skips to, every arm-end jump past the `Nul` fallback, and the code ends in `Nul Swp Pop` |
| OmaGenCase.CaseJumps | programming-languages/oma/crates/oma-compiler/src/gen.rs:409-457 | the subject is lowered once ahead of the arms; each arm's failure jumps land on the next arm, the last arm's on `Nul`; every end `Jmp` lands on the `Swp Pop` after it; earlier code is kept |
| OmaGenLiterals.MapEntryShape | programming-languages/oma/crates/oma-compiler/src/gen.rs:65-85 | one field of a map literal: `Dup`, the value's code, a `Str` naming the key's pool entry, `Set` and `Pop`, and the next field starts right after |
| OmaGenLiterals.ArrayItemShape | programming-languages/oma/crates/oma-compiler/src/gen.rs:87-103 | one item of an array literal: `Dup`, the value's code, `Apn` and `Pop`, and the next item starts right after |
| OmaGenLiterals.MapEntryBalanced | programming-languages/oma/crates/shu/src/fiber/mod.rs:433-445 | a field's steps find key, value and receiver where `set` pops them (it pushes the value back, which `Pop` drops) and leave the stack as found, the map on top |
| OmaGenLiterals.ArrayEntryBalanced | programming-languages/oma/crates/shu/src/fiber/mod.rs:447-460 | an item's steps find value and array where `apn` pops them (it pushes the value back, which `Pop` drops) and leave the stack as found, the array on top |
| OmaGenLiterals.EntriesBalanced | programming-languages/oma/crates/oma-compiler/src/gen.rs:65-103 | any number of fields or items leave the container on top |
| OmaGenLiterals.LiteralPushesContainer | programming-languages/oma/crates/oma-compiler/src/gen.rs:65-103 | a whole map or array literal pushes exactly one value, the container |
| OmaGenShapes.BlockSplits | programming-languages/oma/crates/oma-compiler/src/gen.rs:161-183 | a non-empty block is its leading expressions each followed by `Clu`, then its last one, then `Clu Nul` when it ends in `;`; an error anywhere is the block's error |
| OmaGenShapes.BlockSemiEnds | programming-languages/oma/crates/oma-compiler/src/gen.rs:177-180 | a block ending in `;` ends in `Clu Nul`: its last value is dropped and `nil` is its value |
| OmaGenShapes.EmptyBlockIsNil | programming-languages/oma/crates/oma-compiler/src/gen.rs:161-183 | an empty block is a single `Nul` |
| OmaGenShapes.ParamsBind | programming-languages/oma/crates/oma-compiler/src/gen.rs:116-123 | the parameters bind the next slots in order at the current depth; any other parameter form panics |
| OmaGenShapes.LambdaEmits | programming-languages/oma/crates/oma-compiler/src/gen.rs:105-149 | a lambda whose locals can be counted, with plain parameters and a body that lowers, is one `Lmd` of a function of arity the number of parameters, the counted locals and code ending in `Ret` |
| RoxChunk.Empty | programming-languages/rox/src/chunk.rs:12-18 | a new chunk is valid, with no constants and no code |
| RoxChunk.Written | programming-languages/rox/src/chunk.rs:20-23 | writing appends the byte to the code and its line to the lines, keeps the constants and keeps the two lists in step |
| RoxChunk.IndexOfLast | programming-languages/rox/src/chunk.rs:25-28 | the index of the constant just appended is the pool size minus one, defined exactly when it fits in a byte |
| RoxChunk.Chunk.constructor | programming-languages/rox/src/chunk.rs:12-18 | a new chunk holds the empty contents |
| RoxChunk.Chunk.Write | programming-languages/rox/src/chunk.rs:20-23 | the byte and its line are appended together in place |
| RoxChunk.Chunk.AddConstant | programming-languages/rox/src/chunk.rs:25-28 | appends the constant and returns its index, which holds the constant; nothing where the index exceeds 255 and the source panics |
| RoxScan.Text | programming-languages/rox/src/compile/scan.rs:13-15 | a token's text is its `len` bytes from `start` |
| RoxScan.Skip | programming-languages/rox/src/compile/scan.rs:298-328 | skipping passes blanks and `//` comments, counts every newline passed, and stops at the end or at a byte that is neither |
| RoxScan.StringRun | programming-languages/rox/src/compile/scan.rs:199-217 | the string loop stops at the first quote or the end, counting the newlines before it |
| RoxScan.DigitsEnd | programming-languages/rox/src/compile/scan.rs:219-243 | a run of digits from p stops at the first non-digit |
| RoxScan.NumberEnd | programming-languages/rox/src/compile/scan.rs:219-243 | a number covers only digits and dots from p |
| RoxScan.IdentEnd | programming-languages/rox/src/compile/scan.rs:245-254 | a word runs over letters, digits and `_` and stops at the first other byte |
| RoxScan.Keyword | programming-languages/rox/src/compile/scan.rs:256-276 | a word is an identifier or a keyword |
| RoxScan.KeywordSpelled | programming-languages/rox/src/compile/scan.rs:256-276 | a word is a keyword only when it spells that keyword exactly |
| RoxScan.KeywordExact | programming-languages/rox/src/compile/scan.rs:256-276 | a word spelling a keyword exactly is that keyword |
| RoxScan.ErrorToken | programming-languages/rox/src/compile/scan.rs:278-286 | an error token's text is its message |
| RoxScan.TokenAt | programming-languages/rox/src/compile/scan.rs:143-196 | defines the token at the first byte after blanks: one-byte punctuation, a two-byte operator when `=` follows, a string, number or word, else an unexpected-character error (`RoxScanProps.TokenAtFacts`, `TokenAtWellFormed`) |
| RoxScan.Scan | programming-languages/rox/src/compile/scan.rs:138-197 | defines `scan_token`: whitespace and comments skipped (`Skip`), then Eof at the end or `TokenAt` (`RoxScanProps.ScanAtEnd`, `ScanAfterSkip`, `ScanProgress`) |
| RoxScan.Latin1Utf8 | programming-languages/rox/src/compile/scan.rs:278-286 | a byte read as a character takes one UTF-8 byte below 0x80 and two otherwise |
| RoxScan.Scanner.constructor | programming-languages/rox/src/compile/scan.rs:129-136 | a new scanner starts at the first byte on line 1 |
| RoxScan.Scanner.Peek | programming-languages/rox/src/compile/scan.rs:350-352 | the byte at the cursor, present exactly while input is left |
| RoxScan.Scanner.PeekNext | programming-languages/rox/src/compile/scan.rs:346-348 | the byte after the cursor, present exactly when it exists |
| RoxScan.Scanner.Advance | programming-languages/rox/src/compile/scan.rs:341-344 | moves on one byte, even at the end, and returns the byte passed if there was one |
| RoxScan.Scanner.Expect | programming-languages/rox/src/compile/scan.rs:331-339 | consumes the next byte exactly when it is the expected one |
| RoxScan.Scanner.SkipWhitespace | programming-languages/rox/src/compile/scan.rs:298-328 | moves the cursor and line counter as `Skip` says |
| RoxScan.Scanner.ScanString | programming-languages/rox/src/compile/scan.rs:199-217 | the string token and cursor agree with `StringToken` |
| RoxScan.Scanner.ScanNumber | programming-languages/rox/src/compile/scan.rs:219-243 | the number ends where `NumberEnd` says, on the same line |
| RoxScan.Scanner.ScanIdentifier | programming-languages/rox/src/compile/scan.rs:245-254 | the word ends where `IdentEnd` says and has the type `Keyword` gives |
| RoxScan.Scanner.ScanToken | programming-languages/rox/src/compile/scan.rs:138-197 | the token and the new cursor are those `Scan` gives |
| RoxScanProps.ScanAtEnd | programming-languages/rox/src/compile/scan.rs:138-146 | with only whitespace and comments left, the token is Eof one byte past the end |
| RoxScanProps.ScanAfterSkip | programming-languages/rox/src/compile/scan.rs:138-148 | after the whitespace and comments, the token is the one starting at the first byte left |
| RoxScanProps.TokenAtFacts | programming-languages/rox/src/compile/scan.rs:148-196 | a token starting at a byte is never Eof, takes at least one byte, and any but Error is text of the source |
| RoxScanProps.ScanWellFormed | programming-languages/rox/src/compile/scan.rs:138-197 | every token is well formed: its range lies in its source |
| RoxScanProps.EofIffExhausted | programming-languages/rox/src/compile/scan.rs:138-146 | Eof comes exactly when only whitespace and comments are left |
| RoxScanProps.EofAtEnd | programming-languages/rox/src/compile/scan.rs:138-146 | at the end a call yields Eof on the same line and stays at the end |
| RoxScanProps.EofForever | programming-languages/rox/src/compile/scan.rs:138-146 | once the input is exhausted every later call yields Eof |
| RoxScanProps.TokenIsConsumedText | programming-languages/rox/src/compile/scan.rs:138-197 | every token but Eof and Error is exactly the bytes the call consumed after skipping, at least one |
| RoxScanProps.ScanProgress | programming-languages/rox/src/compile/scan.rs:138-197 | every token but Eof consumes at least one byte; Eof leaves nothing to read |
| RoxScanProps.OneOrTwoBytes | programming-languages/rox/src/compile/scan.rs:160-191 | `!`, `=`, `<`, `>` make the two-byte token when `=` follows and the one-byte token otherwise |
| RoxScanProps.SingleByte | programming-languages/rox/src/compile/scan.rs:149-159 | single punctuation maps one byte to one token |
| RoxScanProps.WordTokenShape | programming-languages/rox/src/compile/scan.rs:245-276 | a word starts with a letter or `_`, runs as far as letters, digits and `_` go, and has the keyword type it spells or Identifier |
| RoxScanProps.NumberTokenShape | programming-languages/rox/src/compile/scan.rs:219-243 | a number is digits, then a `.` and digits only when a digit follows the `.`: at most one dot, between digits |
| RoxScanProps.StringTokenShape | programming-languages/rox/src/compile/scan.rs:199-217 | a string runs from its quote through the next quote, the line counter rising by the newlines inside; unterminated, it is the error token |
| RoxScanProps.UnexpectedByte | programming-languages/rox/src/compile/scan.rs:195 | a byte that starts no token gives an Error token with the message, and is consumed |
| RoxScanProps.ScanCounts | programming-languages/rox/src/compile/scan.rs:138-197 | the line counter stays 1 plus the newlines read, and a token carries the line its last byte is on |
| RoxScanProps.StartCounted | programming-languages/rox/src/compile/scan.rs:129-136 | a new scanner's line counter counts lines |
| RoxCompile.RuleFor | programming-languages/rox/src/compile/mod.rs:40-103 | a rule binding at assignment level or tighter has an infix function; Eof has no prefix and binds at no level |
| RoxCompile.KeepsGrows | programming-languages/rox/src/compile/mod.rs:120-442 | compiling never shrinks the code, the pool or the reports |
| RoxCompile.KeepsConstant | programming-languages/rox/src/compile/mod.rs:120-442 | a constant in the pool stays what it was |
| RoxCompile.ErrorAt | programming-languages/rox/src/compile/mod.rs:384-400 | outside panic mode the report is written and both error flags set; in panic mode nothing changes |
| RoxCompile.ScanPast | programming-languages/rox/src/compile/mod.rs:343-353 | the scan loop reports and skips every Error token, stopping at one that is not an Error |
| RoxCompile.Advance | programming-languages/rox/src/compile/mod.rs:343-353 | the current token becomes the previous one and the next non-Error token the current one; input only shrinks, strictly unless at Eof |
| RoxCompile.Expect | programming-languages/rox/src/compile/mod.rs:364-370 | advances exactly when the current token has the type, and otherwise changes nothing |
| RoxCompile.Consume | programming-languages/rox/src/compile/mod.rs:355-361 | with the expected type it advances; otherwise it reports the message at the current token |
| RoxCompile.EmitByte | programming-languages/rox/src/compile/mod.rs:427-430 | the byte is written tagged with the previous token's line; a halted compiler changes nothing |
| RoxCompile.EmitBytes | programming-languages/rox/src/compile/mod.rs:422-425 | the two bytes are appended in order |
| RoxCompile.AddConstant | programming-languages/rox/src/compile/mod.rs:418-420 | the value is appended to the pool and its index returned; with 256 constants already the compiler halts, as the source panics |
| RoxCompile.EmitConstant | programming-languages/rox/src/compile/mod.rs:413-416 | the code gains OP_CONSTANT and the new constant's index |
| RoxCompile.IdentifierConstant | programming-languages/rox/src/compile/mod.rs:335-337 | the name's text becomes a new string constant whose index is returned |
| RoxCompile.BinaryCode | programming-languages/rox/src/compile/mod.rs:271-290 | each operator's code is at most two bytes |
| RoxCompile.EmitAll | programming-languages/rox/src/compile/mod.rs:271-290 | the bytes are appended to the code, constants kept |
| RoxCompile.ParsePrecedence | programming-languages/rox/src/compile/mod.rs:301-328 | unless an error was reported, it stops at a token binding less tightly than the level, and never at an `=` where an assignment could stand |
| RoxCompile.Operand | programming-languages/rox/src/compile/mod.rs:312-327 | once a prefix rule exists, the prefix, the infix loop and the assignment check leave the same guarantees |
| RoxCompile.AssignmentTarget | programming-languages/rox/src/compile/mod.rs:325-327 | without an error, no `=` is left where an assignment could have stood |
| RoxCompile.Expression | programming-languages/rox/src/compile/mod.rs:218-220 | without an error, an expression stops at a token that binds at no level and is no `=` |
| RoxCompile.InfixLoop | programming-languages/rox/src/compile/mod.rs:315-323 | the loop stops at a token binding less tightly than the level |
| RoxCompile.SyncLoop | programming-languages/rox/src/compile/mod.rs:172-196 | skipping stops at Eof, after a `;`, or before a token that starts a statement |
| RoxCompile.Synchronize | programming-languages/rox/src/compile/mod.rs:172-196 | recovery leaves panic mode and stops at a statement boundary |
| RoxCompile.Declaration | programming-languages/rox/src/compile/mod.rs:143-153 | a declaration consumes input unless at Eof |
| RoxCompile.Declarations | programming-languages/rox/src/compile/mod.rs:131-141 | the loop runs until the Eof token has been consumed |
| RoxCompile.Compiled | programming-languages/rox/src/compile/mod.rs:131-141 | the final chunk extends the given one and ends in OP_RETURN |
| RoxCompile.Compile | programming-languages/rox/src/compile/mod.rs:131-141 | `compile` is true exactly when nothing was reported, and the chunk ends in OP_RETURN, extending the one it was given |
| RoxCompileProps.UnaryCode | programming-languages/rox/src/compile/mod.rs:259-269 | the operand's code, then OP_NEGATE for `-` or OP_NOT for `!` |
| RoxCompileProps.BinaryCodeAfterRight | programming-languages/rox/src/compile/mod.rs:271-290 | the right operand is parsed one level above the operator, then the operator's code follows: operators of a level associate to the left |
| RoxCompileProps.NamedVariableCode | programming-languages/rox/src/compile/mod.rs:243-252 | the name becomes a new constant, and the code ends in OP_SET_GLOBAL where an assignment may stand and `=` follows, else OP_GET_GLOBAL, with the constant's index |
| RoxCompileProps.AssignmentCode | programming-languages/rox/src/compile/mod.rs:245-249 | the assignment ends in OP_SET_GLOBAL and the name's index |
| RoxCompileProps.InvalidAssignmentTarget | programming-languages/rox/src/compile/mod.rs:325-327 | where no assignment may stand the `=` is left alone; where one may, it is consumed and reported as an invalid target unless already in panic mode |
| RoxCompileProps.InitializerCode | programming-languages/rox/src/compile/mod.rs:158-162 | the initializer is the expression after `=`, or OP_NIL |
| RoxCompileProps.VarDeclarationCode | programming-languages/rox/src/compile/mod.rs:155-170 | the code ends in OP_DEFINE_GLOBAL with the index of the name's constant, added before the initializer's code |
| RoxCompileProps.PrintStatementShape | programming-languages/rox/src/compile/mod.rs:206-210 | the value's code then OP_PRINT; without `;` after the value the error is reported there |
| RoxCompileProps.ExpressionStatementShape | programming-languages/rox/src/compile/mod.rs:212-216 | the value's code then OP_POP; without `;` after the value the error is reported there |
| RoxCompileProps.AsWrittenNotEqualStops | programming-languages/rox/src/compile/mod.rs:60-62 | as written, `!=` binds at no level, so the infix loop stops at it whatever level it parses at |
| RoxCompileProps.CorrectedNotEqualConsumed | programming-languages/rox/src/compile/mod.rs:60-62 | with `!=` at the level of `==`, an expression that compiles without error never stops at a `!=` |
| RoxNotEqual.AsWrittenRejectsNotEqual | programming-languages/rox/src/compile/mod.rs:60-62 | as written, `a != b;` compiles to `GET a; POP; RETURN` and `compile` answers false, the missing `;` reported at `!=` |
| RoxNotEqual.CorrectedAcceptsNotEqual | programming-languages/rox/src/compile/mod.rs:60-62 | with the corrected row, `a != b;` compiles to `GET a; GET b; EQUAL; NOT; POP; RETURN` and `compile` answers true |
| RoxCompiler.Compiler.constructor | programming-languages/rox/src/compile/mod.rs:120-129 | a scanner at the start of the source, no tokens, no chunk, no errors |
| RoxCompiler.Compiler.ErrorAt | programming-languages/rox/src/compile/mod.rs:384-400 | updates the compiler in place and updates the state as `ErrorAt` says |
| RoxCompiler.Compiler.ErrorAtCurrent | programming-languages/rox/src/compile/mod.rs:376-378 | updates the compiler in place and reports at the current token |
| RoxCompiler.Compiler.Error | programming-languages/rox/src/compile/mod.rs:380-382 | updates the compiler in place and reports at the previous token |
| RoxCompiler.Compiler.Advance | programming-languages/rox/src/compile/mod.rs:343-353 | updates the compiler in place and updates the state as `Advance` says |
| RoxCompiler.Compiler.SkipErrors | programming-languages/rox/src/compile/mod.rs:343-353 | updates the compiler in place and the scan loop agrees with `ScanPast` |
| RoxCompiler.Compiler.Check | programming-languages/rox/src/compile/mod.rs:372-374 | true exactly when the current token has the type |
| RoxCompiler.Compiler.Expect | programming-languages/rox/src/compile/mod.rs:364-370 | updates the compiler in place and agrees with `Expect` |
| RoxCompiler.Compiler.Consume | programming-languages/rox/src/compile/mod.rs:355-361 | updates the compiler in place and agrees with `Consume` |
| RoxCompiler.Compiler.EmitByte | programming-languages/rox/src/compile/mod.rs:427-430 | updates the compiler in place and agrees with `EmitByte` |
| RoxCompiler.Compiler.EmitBytes | programming-languages/rox/src/compile/mod.rs:422-425 | updates the compiler in place and agrees with `EmitBytes` |
| RoxCompiler.Compiler.MakeConstant | programming-languages/rox/src/compile/mod.rs:418-420 | updates the compiler in place and agrees with `AddConstant` |
| RoxCompiler.Compiler.EmitConstant | programming-languages/rox/src/compile/mod.rs:413-416 | updates the compiler in place and agrees with `EmitConstant` |
| RoxCompiler.Compiler.IdentifierConstant | programming-languages/rox/src/compile/mod.rs:335-337 | updates the compiler in place and agrees with `IdentifierConstant` |
| RoxCompiler.Compiler.ParsePrecedence | programming-languages/rox/src/compile/mod.rs:301-328 | updates the compiler in place and agrees with `ParsePrecedence` |
| RoxCompiler.Compiler.Prefix | programming-languages/rox/src/compile/mod.rs:304-313 | updates the compiler in place and agrees with `Prefix` |
| RoxCompiler.Compiler.Expression | programming-languages/rox/src/compile/mod.rs:218-220 | updates the compiler in place and agrees with `Expression` |
| RoxCompiler.Compiler.Grouping | programming-languages/rox/src/compile/mod.rs:254-257 | updates the compiler in place and agrees with `Prefix` on `(` |
| RoxCompiler.Compiler.Unary | programming-languages/rox/src/compile/mod.rs:259-269 | updates the compiler in place and agrees with `UnaryOp` |
| RoxCompiler.Compiler.NamedVariable | programming-languages/rox/src/compile/mod.rs:243-252 | updates the compiler in place and agrees with `NamedVariable` |
| RoxCompiler.Compiler.StringLiteral | programming-languages/rox/src/compile/mod.rs:233-237 | updates the compiler in place and agrees with `Prefix` on a string |
| RoxCompiler.Compiler.Number | programming-languages/rox/src/compile/mod.rs:222-231 | updates the compiler in place and agrees with `Prefix` on a number |
| RoxCompiler.Compiler.Literal | programming-languages/rox/src/compile/mod.rs:292-299 | updates the compiler in place and agrees with `Prefix` on `true`, `false` and `nil` |
| RoxCompiler.Compiler.Binary | programming-languages/rox/src/compile/mod.rs:271-290 | updates the compiler in place and agrees with `Binary` |
| RoxCompiler.Compiler.EmitOperator | programming-languages/rox/src/compile/mod.rs:274-289 | updates the compiler in place and agrees with `EmitAll` of `BinaryCode` |
| RoxCompiler.Compiler.ExpressionStatement | programming-languages/rox/src/compile/mod.rs:212-216 | updates the compiler in place and agrees with `ExpressionStatement` |
| RoxCompiler.Compiler.PrintStatement | programming-languages/rox/src/compile/mod.rs:206-210 | updates the compiler in place and agrees with `PrintStatement` |
| RoxCompiler.Compiler.Statement | programming-languages/rox/src/compile/mod.rs:198-204 | updates the compiler in place and agrees with `Statement` |
| RoxCompiler.Compiler.ParseVariable | programming-languages/rox/src/compile/mod.rs:330-333 | updates the compiler in place and agrees with `ParseVariable` |
| RoxCompiler.Compiler.DefineVariable | programming-languages/rox/src/compile/mod.rs:339-341 | updates the compiler in place and writes OP_DEFINE_GLOBAL and the index |
| RoxCompiler.Compiler.Initializer | programming-languages/rox/src/compile/mod.rs:158-167 | updates the compiler in place and agrees with `Initializer` |
| RoxCompiler.Compiler.VarDeclaration | programming-languages/rox/src/compile/mod.rs:155-170 | updates the compiler in place and agrees with `VarDeclaration` |
| RoxCompiler.Compiler.Synchronize | programming-languages/rox/src/compile/mod.rs:172-196 | updates the compiler in place and agrees with `Synchronize` |
| RoxCompiler.Compiler.Declaration | programming-languages/rox/src/compile/mod.rs:143-153 | updates the compiler in place and agrees with `Declaration` |
| RoxCompiler.Compiler.EmitReturn | programming-languages/rox/src/compile/mod.rs:409-411 | updates the compiler in place and writes OP_RETURN |
| RoxCompiler.Compiler.Compile | programming-languages/rox/src/compile/mod.rs:131-141 | updates the compiler in place and from a fresh compiler, the verdict, chunk and reports are those `Compile` gives, or nothing where the source panics |
| RoxCompiler.EmittedAll | programming-languages/rox/src/compile/mod.rs:274-289 | the bytes `EmitAll` writes are written one or two at a time as `binary` writes them |
| Sl2Chunk.InstructionOf | programming-languages/scripting-language-2/src/chunk.rs:71-83 | an operator token compiles to the instruction whose operator token it is |
| Sl2Chunk.OperatorTokenInverse | programming-languages/scripting-language-2/src/chunk.rs:71-83 | each of the eight operator instructions comes back from its own token |
| Sl2Chunk.ValueOf | programming-languages/scripting-language-2/src/chunk.rs:92-97 | only a number token is a constant, and the constant keeps the token's number |
| Sl2Chunk.PushedValid | programming-languages/scripting-language-2/src/chunk.rs:28-31 | `push` of an instruction naming something the chunk holds keeps the chunk valid |
| Sl2Chunk.PushedConstantValid | programming-languages/scripting-language-2/src/chunk.rs:35-40 | the new Push names the new constant, earlier instructions and constants are unchanged, and validity is kept |
| Sl2Chunk.EnteredSpec | programming-languages/scripting-language-2/src/chunk.rs:45-46 | `entry(..).or_insert(len)` adds exactly that key, keeps every entry, and gives a new name the table's size |
| Sl2Chunk.LoadedAsWrittenSpec | programming-languages/scripting-language-2/src/chunk.rs:44-49 | `push_load` enters the name, appends its position, and emits a Load carrying the table size before the entry, which names a slot exactly when the name was new |
| Sl2Chunk.LoadedAsWritten | programming-languages/scripting-language-2/src/chunk.rs:44-49 | defines `push_load` as written: the name entered, its position appended, and a Load of the table's size before the entry (`LoadedAsWrittenSpec`, `RepeatedNameAsWritten`) |
| Sl2Chunk.RepeatedNameAsWritten | programming-languages/scripting-language-2/src/chunk.rs:44-49 | a name loaded twice gets the table `{name: 0}` and the code `[Load(0), Load(1)]`, which names no identifier, so the chunk is not valid |
| Sl2Chunk.PopAsWrittenMisaligns | programming-languages/scripting-language-2/src/parser.rs:56 | popping only the instruction leaves one more position than instructions, so the chunk is not valid |
| Sl2Chunk.PoppedAsWritten | programming-languages/scripting-language-2/src/parser.rs:56 | defines the assignment rule's pop as written: the last instruction goes, its position stays (`PopAsWrittenMisaligns`) |
| Sl2Chunk.LoadedValid | programming-languages/scripting-language-2/src/chunk.rs:44-49 | the corrected `push_load` of the Findings table, not the code as written: the Load carries the index the table holds for the name, and validity is kept |
| Sl2Chunk.LoadKnownName | programming-languages/scripting-language-2/src/chunk.rs:44-49 | the corrected `push_load`: a known name is loaded by its first index and the table is unchanged |
| Sl2Chunk.PoppedValid | programming-languages/scripting-language-2/src/parser.rs:56 | the corrected pop of the Findings table: the instruction and its position go together, undoing a `push`, and validity is kept |
| Sl2Chunk.Chunk.constructor | programming-languages/scripting-language-2/src/chunk.rs:15-26 | a new chunk for the path, with no constants, identifiers, positions or instructions |
| Sl2Chunk.Chunk.Push | programming-languages/scripting-language-2/src/chunk.rs:28-31 | appends the position and the instruction in place |
| Sl2Chunk.Chunk.PushPush | programming-languages/scripting-language-2/src/chunk.rs:35-40 | appends the constant, the position and a Push of the constant's index in place |
| Sl2Chunk.Chunk.PushLoad | programming-languages/scripting-language-2/src/chunk.rs:44-49 | updates the chunk in place as `LoadedAsWritten` says: the Load carries the table's size before the entry |
| Sl2Parser.ParseLevel | programming-languages/scripting-language-2/src/parser.rs:43-187 | each precedence level consumes at least one token unless it fails, its operator loops at least none, and the chunk never shrinks |
| Sl2Parser.Declaration | programming-languages/scripting-language-2/src/parser.rs:33-37 | one expression parsed into a new chunk for the path, consuming at least one token unless it fails |
| Sl2Parser.NextChunk | programming-languages/scripting-language-2/src/parser.rs:196-204 | nothing exactly when the tokens have run out or the next is EndOfFile; otherwise one declaration |
| Sl2Parser.Parser.constructor | programming-languages/scripting-language-2/src/parser.rs:19-27 | a parser for the path over the tokens, at the first one |
| Sl2Parser.Parser.ParseTerm | programming-languages/scripting-language-2/src/parser.rs:168-187 | moves along the tokens, and ends with the chunk, position and error `ParseLevel` gives at the Term level |
| Sl2Parser.Parser.ParseUnaryOperation | programming-languages/scripting-language-2/src/parser.rs:147-166 | moves along the tokens, and ends with the chunk, position and error `ParseLevel` gives at the Unary level |
| Sl2Parser.Parser.ParsePowerOperation | programming-languages/scripting-language-2/src/parser.rs:130-145 | moves along the tokens, and ends with the chunk, position and error `ParseLevel` gives at the Exponential level |
| Sl2Parser.Parser.ParseMultiplyOperation | programming-languages/scripting-language-2/src/parser.rs:111-128 | moves along the tokens, and ends with the chunk, position and error `ParseLevel` gives at the Multiplicative level |
| Sl2Parser.Parser.ParseAddOperation | programming-languages/scripting-language-2/src/parser.rs:92-109 | moves along the tokens, and ends with the chunk, position and error `ParseLevel` gives at the Additive level |
| Sl2Parser.Parser.ParseLogicalOperation | programming-languages/scripting-language-2/src/parser.rs:73-90 | moves along the tokens, and ends with the chunk, position and error `ParseLevel` gives at the Logical level |
| Sl2Parser.Parser.ParseAssignmentOperation | programming-languages/scripting-language-2/src/parser.rs:43-71 | moves along the tokens, and ends with the chunk, position and error `ParseLevel` gives at the Assignment level |
| Sl2Parser.Parser.ParseDeclaration | programming-languages/scripting-language-2/src/parser.rs:33-37 | the chunk or error and the new position are those `Declaration` gives |
| Sl2Parser.Parser.Next | programming-languages/scripting-language-2/src/parser.rs:196-204 | nothing, without moving, at EndOfFile or when the tokens run out; otherwise the declaration `NextChunk` gives |
| Sl2Parser.Parser.ParseAll | programming-languages/scripting-language-2/src/parser.rs:29-31 | collecting the iterator yields exactly the results `Chunks` lists |
| Sl2ParserValid.ValidIsBounded | programming-languages/scripting-language-2/src/chunk.rs:14-50 | a valid chunk with no Store satisfies the weaker invariant the parser as written keeps, with no spare position |
| Sl2ParserValid.StoreCountPushed | programming-languages/scripting-language-2/src/chunk.rs:28-31 | `push` adds one Store to the count exactly when it pushes a Store |
| Sl2ParserValid.PushedBounded | programming-languages/scripting-language-2/src/chunk.rs:28-31 | `push` of an instruction within the chunk keeps it bounded; a Store uses up the spare position its target's pop left |
| Sl2ParserValid.PushedConstantBounded | programming-languages/scripting-language-2/src/chunk.rs:35-40 | `push_push` keeps the chunk bounded and the spare positions as they were |
| Sl2ParserValid.LoadedAsWrittenBounded | programming-languages/scripting-language-2/src/chunk.rs:44-49 | `push_load` as written keeps the chunk bounded: its Load is at most the table size |
| Sl2ParserValid.PoppedAsWrittenBounded | programming-languages/scripting-language-2/src/parser.rs:56 | taking back a Load keeps the chunk bounded and leaves one spare position |
| Sl2ParserValid.LevelBounded | programming-languages/scripting-language-2/src/parser.rs:43-187 | every level, on success, keeps the chunk bounded with as many spare positions as before, and never shrinks the table |
| Sl2ParserValid.TermBounded | programming-languages/scripting-language-2/src/parser.rs:168-187 | the term rule keeps the chunk bounded |
| Sl2ParserValid.UnaryBounded | programming-languages/scripting-language-2/src/parser.rs:147-166 | the unary rule keeps the chunk bounded |
| Sl2ParserValid.PowerBounded | programming-languages/scripting-language-2/src/parser.rs:130-145 | the power rule keeps the chunk bounded |
| Sl2ParserValid.LeftAssociativeBounded | programming-languages/scripting-language-2/src/parser.rs:73-128 | the logical, additive and multiplicative rules keep the chunk bounded |
| Sl2ParserValid.LoopBounded | programming-languages/scripting-language-2/src/parser.rs:76-89 | each operator loop keeps the chunk bounded |
| Sl2ParserValid.AssignmentBounded | programming-languages/scripting-language-2/src/parser.rs:43-71 | the assignment rule, which pops the target's Load and later pushes the Store, keeps the chunk bounded and its spare positions |
| Sl2ParserValid.ChunksBounded | programming-languages/scripting-language-2/src/parser.rs:29-31 | every chunk `parse` yields is bounded and holds exactly one position per instruction plus one per Store |
| Sl2ParserValid.SelfAssignmentAsWritten | programming-languages/scripting-language-2/src/parser.rs:43-71 | `a = a` yields the one chunk `[Load(1), Store(0)]` with table `{a: 0}` and three positions, which is not valid |
| Sl2ParserValid.IdentifierOperand | programming-languages/scripting-language-2/src/parser.rs:168-174 | an identifier followed by `=` or EndOfFile parses at the logical level to one Load carrying the table size, consuming that one token |
| Sl2Grammar.Tokens | programming-languages/scripting-language-2/src/parser.rs:43-187 | every expression tree prints as at least one token |
| Sl2Grammar.Emit | programming-languages/scripting-language-2/src/chunk.rs:28-49 | a tree compiles to at least one instruction, with the chunk operations as written |
| Sl2Grammar.AtPrefix | programming-languages/scripting-language-2/src/parser.rs:43-187 | a token sequence starts, at each position, with the rest of any prefix |
| Sl2Grammar.LevelFacts | programming-languages/scripting-language-2/src/parser.rs:73-128 | the three left-associative levels, their loops and their operands' levels |
| Sl2Grammar.ChainStartAt | programming-languages/scripting-language-2/src/parser.rs:73-75 | a left-associative level parses its operand, then runs its loop |
| Sl2Grammar.ChainStepAt | programming-languages/scripting-language-2/src/parser.rs:85-88 | one round of the loop on an operator of the level: the right operand, then the operator's instruction |
| Sl2Grammar.ChainStopAt | programming-languages/scripting-language-2/src/parser.rs:77-83 | the loop ends before any operator looser than its level |
| Sl2Grammar.InfixLeft | programming-languages/scripting-language-2/src/parser.rs:43-187 | an infix tree's left operand prints first and stops at the tree's operator |
| Sl2Grammar.InfixRight | programming-languages/scripting-language-2/src/parser.rs:43-187 | an infix tree's operator and right operand end where the tree ends |
| Sl2Grammar.TermRoundTrip | programming-languages/scripting-language-2/src/parser.rs:168-187 | a leaf parses to a Load of its name or a Push of its constant |
| Sl2Grammar.UnaryRoundTrip | programming-languages/scripting-language-2/src/parser.rs:147-166 | a leaf or prefix tree parses at the unary level to its chunk |
| Sl2Grammar.PowerInfixRoundTrip | programming-languages/scripting-language-2/src/parser.rs:130-145 | `^` parses its left operand at the unary level and its right at the power level again: right-associative |
| Sl2Grammar.PowerRoundTrip | programming-languages/scripting-language-2/src/parser.rs:130-145 | a tree of the power grade or tighter, followed by no `^`, parses at the power level to its chunk |
| Sl2Grammar.ChainInfixRoundTrip | programming-languages/scripting-language-2/src/parser.rs:73-128 | with an operator of the level at the top, the chain of its left operand then one loop round: left-associative |
| Sl2Grammar.ChainRightRoundTrip | programming-languages/scripting-language-2/src/parser.rs:85-88 | the loop's round on a tree's operator and right operand ends after the tree, with the tree's chunk |
| Sl2Grammar.ChainRoundTrip | programming-languages/scripting-language-2/src/parser.rs:73-128 | a tree of the level's grade or tighter, parsed as operand then loop, reaches the loop after the whole tree with the tree's chunk |
| Sl2Grammar.LevelRoundTrip | programming-languages/scripting-language-2/src/parser.rs:73-128 | a tree of grade g or tighter, followed by no operator of grade g or tighter, parses at level g to its chunk |
| Sl2Grammar.AssignToRoundTrip | programming-languages/scripting-language-2/src/parser.rs:43-71 | `name = value`: the target is loaded, taken back with its position left, and stored by the index its Load carried after the value |
| Sl2Grammar.AssignmentRoundTrip | programming-languages/scripting-language-2/src/parser.rs:43-71 | any well-formed tree followed by no infix operator parses at the assignment level to its chunk |
| Sl2Grammar.DeclarationRoundTrip | programming-languages/scripting-language-2/src/parser.rs:33-37 | `parse_declaration` on a printed tree yields the tree's chunk and stops after the tree |
| Sl2Grammar.ParseRoundTrip | programming-languages/scripting-language-2/src/parser.rs:29-204 | `parse` on one printed tree and EndOfFile yields exactly one chunk, the tree's, as the code is written: so precedence and associativity are the tree's |
| PaginatedResolver.SliceEnd | graphql-exploration/server/src/resolvers/helpers/paginatedResolver.ts:47 | `slice`'s end: the argument clamped to the item count, counted from the end when negative |
| PaginatedResolver.Paginate | graphql-exploration/server/src/resolvers/helpers/paginatedResolver.ts:12-49 | defines one page: none for no keys, the first key for no cursor, `BAD_USER_INPUT` for an unknown cursor (`EmptyPage`, `UnknownCursor`, `PageContents`) |
| PaginatedResolver.PageFrom | graphql-exploration/server/src/resolvers/helpers/paginatedResolver.ts:41-48 | defines the page at a found offset: every key counted, the key `limit` on as `nextCursor`, the sliced values as nodes (`PageContents`) |
| PaginatedResolver.Walk | graphql-exploration/server/src/resolvers/helpers/paginatedResolver.ts:41-48 | defines a client following `nextCursor` until it is absent (`WalkFrom`, `PagingVisitsAll`) |
| PaginatedResolver.Slice | graphql-exploration/server/src/resolvers/helpers/paginatedResolver.ts:47 | `slice(start, end)` holds the keys from start on, and exactly `keys[start..end]` for an end inside |
| PaginatedResolver.Offset | graphql-exploration/server/src/resolvers/helpers/paginatedResolver.ts:27-32 | no cursor stands for 0; a cursor's offset is -1 exactly when it is no key, and otherwise the key there is the cursor |
| PaginatedResolver.EmptyPage | graphql-exploration/server/src/resolvers/helpers/paginatedResolver.ts:19-25 | with no objects the page is count 0, no next cursor and no nodes, whatever the cursor |
| PaginatedResolver.UnknownCursor | graphql-exploration/server/src/resolvers/helpers/paginatedResolver.ts:32-39 | a cursor fails exactly when it is no key, and then with BAD_USER_INPUT |
| PaginatedResolver.AbsentCursorStartsAtFirstKey | graphql-exploration/server/src/resolvers/helpers/paginatedResolver.ts:27-30 | no cursor is the same as the first key |
| PaginatedResolver.PageContents | graphql-exploration/server/src/resolvers/helpers/paginatedResolver.ts:41-48 | a page for a known cursor at `o`: the count is every key, the nodes are the values of `keys[o..o+limit]` in order, and the next cursor is the key at `o+limit`, absent exactly when past the last key |
| PaginatedResolver.CountIsTotal | graphql-exploration/server/src/resolvers/helpers/paginatedResolver.ts:44-45 | a successful page counts every key |
| PaginatedResolver.ValuesOfAppend | graphql-exploration/server/src/resolvers/helpers/paginatedResolver.ts:47 | mapping keys to values distributes over concatenation |
| PaginatedResolver.PageAt | graphql-exploration/server/src/resolvers/helpers/paginatedResolver.ts:32-48 | the page at the key in position `o` is the page from `o` |
| PaginatedResolver.WalkFrom | graphql-exploration/server/src/resolvers/helpers/paginatedResolver.ts:41-48 | following `nextCursor` from the key at `o` yields the values of every key from `o` on |
| PaginatedResolver.WalkLast | graphql-exploration/server/src/resolvers/helpers/paginatedResolver.ts:41-48 | from a last page's key the walk is that page alone |
| PaginatedResolver.PagingVisitsAll | graphql-exploration/server/src/resolvers/helpers/paginatedResolver.ts:12-49 | starting without a cursor and following `nextCursor` with a positive limit visits every object once, in key order |
| GetObjects.Filter | graphql-exploration-ts/server/src/resolvers/helpers/getObjects.ts:5-11 | visiting `Object.values` in order, each kept object is written at its id, and the result is a well-formed object |
| GetObjects.KeptKeys | graphql-exploration-ts/server/src/resolvers/helpers/getObjects.ts:5-11 | defines the result's keys in `Object.keys` order: each kept id where it was first written (`KeysMatchValues`, `DistinctKept`) |
| GetObjects.Kept | graphql-exploration-ts/server/src/resolvers/helpers/getObjects.ts:5-11 | defines the object returned for the values visited: keys as `KeptKeys`, each with the last kept object of that id (`KeptExactly`, `KeptLast`) |
| GetObjects.KeysMatchValues | graphql-exploration-ts/server/src/resolvers/helpers/getObjects.ts:8 | the result's keys are exactly the ids written |
| GetObjects.KeptIsValid | graphql-exploration-ts/server/src/resolvers/helpers/getObjects.ts:5-11 | the result has distinct keys, each with its value |
| GetObjects.DistinctKept | graphql-exploration-ts/server/src/resolvers/helpers/getObjects.ts:8 | an id written twice is listed once |
| GetObjects.KeptExactly | graphql-exploration-ts/server/src/resolvers/helpers/getObjects.ts:6-10 | an id is a key of the result exactly when some object with that id passes the predicate |
| GetObjects.KeptLast | graphql-exploration-ts/server/src/resolvers/helpers/getObjects.ts:6-10 | each stored object passed the predicate, is stored under its own id, and is the last object with that id to pass |
| JsObjects.Values | graphql-exploration-ts/server/src/resolvers/helpers/getObjects.ts:6 | `Object.values` lists one value per key, in key order |
| JsObjects.ValuesOf | graphql-exploration/server/src/resolvers/helpers/paginatedResolver.ts:47 | `keys.map(id => objects[id])` lists one value per key, in the keys' order |
| JsObjects.IndexOf | graphql-exploration/server/src/resolvers/helpers/paginatedResolver.ts:32 | `indexOf` is the first position of the key, or -1 exactly when it is absent |
| JsObjects.IndexOfDistinct | graphql-exploration/server/src/resolvers/helpers/paginatedResolver.ts:32 | with distinct keys, a key's first position is its only one |
| ShuVm.Vm.constructor | programming-languages/oma/crates/shu/src/vm.rs:16-21 | a new VM has no registry and no fiber |
| Registry.NativeLambdaRegistry.constructor | programming-languages/oma/crates/shu/src/registry.rs:10-14 | a new registry holds no lambdas |
| Values.ArrayObj.constructor | programming-languages/oma/crates/shu/src/value.rs:218-220 | a new array has no elements |
| Values.MapObj.constructor | programming-languages/oma/crates/shu/src/value.rs:278-282 | a new map has no entries |
| Values.NativeLambdaObj.constructor | programming-languages/oma/crates/shu/src/value.rs:386-391 | a native lambda holds the given call |
| CompilerChunk.Chunk.constructor | programming-languages/oma/crates/oma-compiler/src/chunk.rs:13-19 | a new chunk is empty |
| ContainerParser.Parser.constructor | programming-languages/oma/crates/shu/src/parse.rs:18-20 | a parser over the bytes at position 0 |
| FiberStack.Stack.constructor | programming-languages/scripting-language-3/crates/shu/src/fiber/stack.rs:19-25 | a new stack holds no values, frames or upvalues |
| Lexer.Lexer.constructor | programming-languages/scripting-language-3/crates/oma-compiler/src/lex.rs:15-21 | a lexer at the start of the source |
| ToyCore.Core.constructor | programming-languages/toy-virtual-machine/src/core.rs:13-19 | a core at instruction 0 with an empty stack, over the program |
| ToyStack.Stack.constructor | programming-languages/toy-virtual-machine/src/stack.rs:8-10 | a new stack holds no bytes |
| RoxCompile.Prefix | programming-languages/rox/src/compile/mod.rs:304-313 | the prefix rule of the previous token, or `expected expression`: it keeps the compiler ready, grows nothing back, never adds input and, once halted, changes nothing |
| RoxCompile.UnaryOp | programming-languages/rox/src/compile/mod.rs:259-269 | the operand at unary level then its operator: it keeps the compiler ready, grows nothing back, never adds input and, once halted, changes nothing |
| RoxCompile.NamedVariable | programming-languages/rox/src/compile/mod.rs:243-252 | a read of the global, or the value and a write where an assignment may stand and `=` follows: it keeps the compiler ready, grows nothing back, never adds input and, once halted, changes nothing |
| RoxCompile.Assignment | programming-languages/rox/src/compile/mod.rs:245-247 | past the `=`, the value, then the write of the global: it keeps the compiler ready, grows nothing back, never adds input and, once halted, changes nothing |
| RoxCompile.Binary | programming-languages/rox/src/compile/mod.rs:271-290 | the right operand one level above the operator's, then its code: it keeps the compiler ready, grows nothing back, never adds input and, once halted, changes nothing |
| RoxCompile.ExpressionStatement | programming-languages/rox/src/compile/mod.rs:212-216 | the value and `;`: it keeps the compiler ready, grows nothing back, never adds input and, once halted, changes nothing, and consumes input unless at Eof |
| RoxCompile.PrintStatement | programming-languages/rox/src/compile/mod.rs:206-210 | the value and `;`: it keeps the compiler ready, grows nothing back, never adds input and, once halted, changes nothing, and consumes input unless at Eof |
| RoxCompile.Statement | programming-languages/rox/src/compile/mod.rs:198-204 | `print` or an expression statement: it keeps the compiler ready, grows nothing back, never adds input and, once halted, changes nothing, and consumes input unless at Eof |
| RoxCompile.Initializer | programming-languages/rox/src/compile/mod.rs:158-167 | the value after `=` or `nil`, then `;`: it keeps the compiler ready, grows nothing back, never adds input and, once halted, changes nothing |
| RoxCompile.VarDeclaration | programming-languages/rox/src/compile/mod.rs:155-170 | the name's constant, the initializer, `;` and the definition: it keeps the compiler ready, grows nothing back, never adds input and, once halted, changes nothing |
| RoxCompile.ParseVariable | programming-languages/rox/src/compile/mod.rs:330-333 | the name is consumed or reported, its text becomes the newest constant, whose index is returned, and no code is written |

## Left out

- Err(Panic): a Rust panic or `unimplemented!` in the source becomes an `Err(Panic)` (or `Panic` reason) outcome in the model, not a process abort. This covers the generator (`OmaGenSpec`, `OmaGen.Generator`), the oma parser (`OmaParseSpec`), the shu values and fiber (`Values`, `ShuFiber`: `i64` overflow, `usize` underflow in `cal`), the toy VM (`ToyCore`), `ShuVm.LoadFailure` (the unimplemented info section) and `ShuVm.Vm.Step` (the unwrap of a missing fiber). It also covers the sl2 parser's unwraps at parser.rs:53-63 (`Sl2Parser`, the `Panic` failure), the local counter's unsupported forms such as a spread argument (`OmaLocals.Countable` false, so the generator returns `Err(Panic)`), and rox's `expect("too many constants")` in `add_constant` (`RoxCompile`, the `halted` state, after which nothing changes). The unwinding itself is not modelled.
- F32Ops, FloatOps, Host.number: f32 and f64 arithmetic, float comparison and decimal-to-float parsing are uninterpreted parameters. Only their bit patterns are carried, so no IEEE-754 property is proved.
- Host.pascal: the `inflections` crate's PascalCase test is a parameter of the oma parser. `OmaParseSpec.CallOrTag` and its lemmas hold for any such test.
- Source, Lexer: Rust `&str` values are UTF-8 byte sequences. Slicing a `&str` inside a multi-byte character panics in the source; on bytes it cannot, so those panics are absent from `Source` and `Lexer`.
- ShuFiber.Fiber.Executed: its frame property `Untouched` names the objects the fiber's values and registered cells refer to directly. Objects nested deeper inside those containers are not named, although no step's `modifies` clause includes them.
- ShuVm.Vm.Resume: each step's status is tied to the snapshot taken before it, and the first snapshot to the fiber on entry. A snapshot is not tied to the effect of the step before it. That effect is the two-state `Executed` of `Fiber.Step`, which a sequence of results cannot carry.
- ShuVm.StepOwes: for `lmd`, `lou`, `sau`, `get` and `set`, it says only that the status is Running or an error. Which error depends on the heap or on the captured cells at that step, which a value snapshot does not hold. `Fiber.Step`'s `Executed` states those cases in full.
- ShuVm.LoadFailure: the `Trace` that vm.rs:26 attaches to a load error is dropped. The model keeps only the reason.
- ShuVm.Vm.Run: `info!` logging is dropped.
- ShuVm.Vm.Run: the stepping loop takes a `fuel` bound and can end `OutOfFuel`, which the source's unbounded loop cannot. Its `modifies` clause, like `Resume`'s, is every object, because native callbacks may return any heap object; a single `Vm.Step` is framed to the fiber's own objects.
- ShuVm.Vm.Run: as for `Resume`, snapshots after the first are not tied to the state the previous step left. `Run` returns `Resume`'s steps and snapshots unchanged.
- ShuFiber.Fiber.SetKey: with fewer than three values on the stack it fails with `EmptyStack` and pops nothing. fiber/mod.rs:434-436 pops up to two values before the failing pop.
- ToyCore.Core.Execute: the `u32` instruction counter is a `nat` and does not wrap. That only differs for programs of 4 GiB or more. The loop takes a `fuel` bound.
- CompilerChunk.Chunk.Patch: the source panics when the patched offset or its operand bytes lie outside the code. The method requires them inside instead. The generator's `OmaGenSpec.PatchAt` returns `Err(Panic)` for that case.
- OmaGenLiterals.LiteralPushesContainer: the stack effect of a map or array literal is proved assuming each entry's value code leaves exactly one value. Stack effects of arbitrary expressions are not modelled.
- Registry: native lambdas are opaque `Value -> Value` functions. What a callback does is not modelled.
- CompilerChunk.Chunk.Emit: the `dbg!(&op)` at gen.rs:700 writes each emitted op to standard error. That output is left out; the op is emitted unchanged.
- RoxCompiler: `end` calls `disassemble_chunk` (rox compile/mod.rs:405) when no error was reported. That printing is left out; the chunk is unchanged by it.
- GetObjects.KeptKeys: keys are listed in insertion order. JavaScript lists integer-like keys (array indices) first, in numeric order; the ids here are nanoid strings, which are not integer-like, so the two orders agree for them but not for arbitrary string keys.
- Sl2Parser: the chunk is threaded through the parser as a value (`ChunkState`, with `Sl2Chunk.Chunk` as the class for its in-place operations). Aliasing of the `&mut Chunk` is not modelled.
- OmaGen.Generator.IfExpr: `GenExpr` and the generator use the `if` lowering as written. The corrected `OmaGenIfFixed.GenIfFixed` is proved on its own; the rest of the generator is not rebuilt on it.
- Sl2Grammar.ParseRoundTrip: the round trip is stated for trees the grammar prints without parentheses. The sl2 source has no grouping.
- I/O: file reading and writing, the command-line drivers and the REPLs are left out.
- GraphQL resolvers other than the two helpers, the Apollo server and its schema are left out. `paginatedResolver`'s thrown `GraphQLError` is the `BadUserInput` error value.

## Findings

| source | as written | input that shows it | evidently intended | confidence | as-written member | corrected member |
|---|---|---|---|---|---|---|
| programming-languages/scripting-language-2/src/chunk.rs:44-49 | `push_load` emits `Load(identifiers.len())` even when the name is already in the table | a name loaded twice: the table is `{a: 0}` and the code `[Load(0), Load(1)]` | the Load carries the index the table holds for the name | not executed | Sl2Chunk.RepeatedNameAsWritten | Sl2Chunk.LoadedValid |
| programming-languages/scripting-language-2/src/parser.rs:56 | the assignment rule pops the target's instruction but not its position | `x = 1`, `a = a`: the chunk keeps one position more than it has instructions | the instruction and its position are popped together | not executed | Sl2Chunk.PopAsWrittenMisaligns | Sl2Chunk.PoppedValid |
| programming-languages/rox/src/compile/mod.rs:60-62 | `!=` has an infix rule but binds at `PREC_NONE`, so the infix loop never takes it | `a != b;` compiles to `GET a; POP; RETURN` and reports a missing `;` at `!=` | `!=` binds at `PREC_EQUALITY` like `==` | not executed | RoxNotEqual.AsWrittenRejectsNotEqual | RoxNotEqual.CorrectedAcceptsNotEqual |
| programming-languages/oma/crates/oma-compiler/src/gen.rs:390 | the end `Jmp` of an `if` is emitted without an operand, so patching masks its target to one byte | an `if` whose code ends at offset 256 or beyond: the `Jmp` does not land on the end | the `Jmp` gets a `usize::MAX` placeholder like the `Jif`, and lands on the end for any code length | not executed | OmaGenJumps.IfEndJumpMasked | OmaGenIfFixed.FixedIfJumps |
