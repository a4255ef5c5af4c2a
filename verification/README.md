# MediaStation engine core in Dafny

This project models the core of the MediaStation engine, a reimplementation of the engine that runs the
Media Station, Inc. children's titles. The model covers:

- the bounded chunk reader, with its 32-bit byte counter, and the subfile's RIFF walk;
- tagged datums, with every payload layout;
- the asset header and its section loop;
- the records a context's parameters hold: variable declarations, script functions, event handlers
  and their code chunks;
- the script interpreter's statement loop and built-ins;
- the timer and path assets;
- the movie reader;
- the engine's playing-asset list and its boot-derived queries.

The model is built from pure functions over immutable values. A `Chunk` is a value: id, declared size,
bytes charged so far, the stream's bytes and a cursor. Each reader returns `Result` with the advanced
chunk or an error. The errors are the ones the engine raises with `error()`, with the differences listed
under "Left out": among them, reads charge the chunk through the corrected counter (see Findings), and a
read past the end of the stream fails with `EndOfStream`, where the engine's stream would return fewer
bytes. Warnings are not errors, and the model
carries on past them as the engine does.

Each decoder is paired with an encoder, and the round trip between them is proved. The interpreter is
paired with a reference evaluator over statement trees. The theorem is that running a tree's bytecode
gives the tree's value, shared state and locals, or the same error. The timer is paired with a
corrected version, and the corrected timer is proved to run each handler exactly once. The movie reader,
the timer and the chunk counter each have an as-written and a corrected definition (see Findings).

Modules, one per file:

- results.dfy (`Results`): the engine's fatal errors, `Result`, `Option`
- bytes.dfy (`Bytes`): little- and big-endian integers, 32-bit casts
- chunk.dfy (`Chunks`): `Chunk`: charged reads, `incBytesRead`, `hasReadAll`
- subfile.dfy (`Subfiles`): `Subfile`: preamble checks, `nextChunk`
- datum.dfy (`Datums`): `Datum`, `Point`, `BoundingBox`, `Polygon`, `Reference`
- asset_header.dfy (`AssetHeaders`): `AssetHeader` and its sections
- variable_declaration.dfy (`Variables`): `VariableDeclaration`
- code_chunk.dfy (`CodeChunks`): the stored form of `CodeChunk`
- function.dfy (`Functions`): `Function`
- event_handler.dfy (`EventHandlers`): `EventHandler`
- context_parameters.dfy (`ContextParams`): `ContextParameters`
- script.dfy (`Script`): statement classes, opcodes, operand kinds, scopes, `Operand`
- interpreter.dfy (`Interpreter`): `CodeChunk::execute` and `executeNextStatement`
- asset.dfy (`Assets`): the `Asset` base-class clock
- timer.dfy (`Timers`): `Timer`
- path.dfy (`Paths`): `Path`
- movie.dfy (`Movies`): `Movie`, `MovieFrameHeader`, `MovieFrameFooter`, `Sound::readChunk`
- engine.dfy (`Engine`): `addPlayingAsset`, the frame loop's sort and sweep, `isFirstGenerationEngine`, `loadContext`

## Model

| member | source | states |
|---|---|---|
| Chunks.IncBytesReadAsWritten | engines/mediastation/chunk.h:45-50 | the counter update on 32-bit fields: a charge the counter can hold is accepted exactly when it fits the size, but a charge whose total passes 2^32 is accepted whenever the wrapped remainder fits, although the true total exceeds the size; a failure is "Chunk overread" |
| Chunks.OverlongReadPassesGuard | engines/mediastation/chunk.h:45-50 | as written, charging 0xFFFFFFFF bytes to a 10-byte chunk that has read 1 passes the guard and leaves the count 0 |
| Chunks.IncBytesRead | engines/mediastation/chunk.h:45-50 | the intended charge: it succeeds exactly when count plus charge is within the size, the count grows by exactly the charge, and nothing else changes |
| Chunks.Read | engines/mediastation/chunk.h:56-59 | a read charges first: an overlong charge fails even with bytes left; otherwise it succeeds iff the stream has the bytes, which it returns from the cursor |
| Chunks.ReadSplits | engines/mediastation/chunk.h:56-59 | two consecutive reads give the same bytes and chunk as one read of the combined length |
| Chunks.HasReadAll | engines/mediastation/chunk.h:41-43 | the 32-bit `size - bytesRead == 0` holds exactly when the whole payload has been charged |
| Chunks.ReadU16LE | engines/mediastation/datum.cpp:57 | a 16-bit tag is the little-endian value of the next two payload bytes, charged like any read |
| Subfiles.Align | engines/mediastation/subfile.cpp:55-57 | a chunk header starts at an even offset: an odd position skips exactly one byte |
| Subfiles.NextChunk | engines/mediastation/subfile.cpp:54-60 | `nextChunk` succeeds iff an 8-byte header fits after alignment; the new chunk has the header's id and size, nothing charged, and the cursor after the header |
| Subfiles.StreamU32LE | engines/mediastation/subfile.cpp:44 | an uncharged stream read takes four bytes little-endian and fails only at the end of the data |
| Subfiles.Open | engines/mediastation/subfile.cpp:29-52 | the constructor accepts exactly the well-formed preamble; a wrong RIFF, rate or data code gives that check's error, in the constructor's order; the RIFF error carries the id read, while the rate and data errors carry the id of the chunk before, as their messages print |
| Subfiles.PreambleOpens | engines/mediastation/subfile.cpp:29-52 | a preamble built from its parts opens, whatever follows it, and yields its rate |
| Datums.CodesDistinct | engines/mediastation/datum.h:30-52 | the datum type codes are pairwise distinct |
| Datums.KnownExactly | engines/mediastation/datum.cpp:69-103 | a tag has a payload reader exactly when it is one of the declared codes; any other tag is fatal |
| Datums.AliasPairs | engines/mediastation/datum.cpp:71-94 | the paired codes (UINT16, INT16, UINT32, FLOAT64, POINT) select the same layout |
| Datums.AliasesDecodeAlike | engines/mediastation/datum.cpp:71-94 | two codes with one layout accept the same bytes and decode them to the same payload |
| Datums.ReadDatum | engines/mediastation/datum.cpp:56-59 | `Datum(chunk)` reads a 16-bit tag and then the payload that tag selects; the result agrees with its tag and the chunk moves forward |
| Datums.ReadTyped | engines/mediastation/datum.cpp:61-67 | `Datum(chunk, expected)` fails with the expected and found codes when the tag differs; otherwise the payload has the expected code's layout |
| Datums.ReadWithType | engines/mediastation/datum.cpp:69-103 | `readWithType` fails on an undeclared tag; otherwise it gives a payload of that tag's layout |
| Datums.ReadString | engines/mediastation/datum.cpp:81-88 | STRING and FILENAME: a UINT32_1 size, then that many bytes, kept up to the first NUL |
| Datums.StringStopsAtNul | engines/mediastation/datum.cpp:81-88 | a string with a NUL inside keeps only the bytes before it, but the reader consumes every declared byte |
| Datums.UntilNul | engines/mediastation/datum.cpp:86-87 | what `Common::String(buffer)` keeps is a NUL-free prefix that ends at the first NUL or at the end |
| Datums.UntilNulKeepsNulFree | engines/mediastation/datum.cpp:86-87 | a NUL-free buffer is kept whole |
| Datums.ReadPoint | engines/mediastation/datum.cpp:29-32 | a point is x then y, each an INT16_2 datum |
| Datums.ReadBox | engines/mediastation/datum.cpp:34-37 | a bounding box is a POINT_2 datum, then a POINT_1 datum |
| Datums.ReadPolygon | engines/mediastation/datum.cpp:39-45 | a polygon is a UINT16_1 count, then that many POINT_1 datums |
| Datums.ReadPoints | engines/mediastation/datum.cpp:41-44 | the polygon loop reads exactly `n` POINT_1 datums, in order |
| Datums.AsInt | engines/mediastation/datum.h:62-71 | `u.i` is read from an integer payload; other payloads are refused instead of reinterpreted |
| Datums.ReadInt | engines/mediastation/datum.cpp:56-59 | `Datum(chunk).u.i` is the integer payload of the datum `Datum(chunk)` reads |
| Datums.ReadTypedInt | engines/mediastation/datum.cpp:61-78 | a typed integer datum reads the typed datum's value; a UINT8 or UINT16 value is non-negative, while a UINT32 value is kept wrapped to signed 32 bits, as `u.i` stores it |
| Datums.IntRoundTrip | engines/mediastation/datum.cpp:71-78 | an integer written with an integer layout reads back as that datum, in both the untyped and the typed read, consuming exactly its bytes |
| Datums.PointRoundTrip | engines/mediastation/datum.cpp:29-32 | a written point datum reads back under both point codes and both reads |
| Datums.StringRoundTrip | engines/mediastation/datum.cpp:81-88 | a NUL-free string written with its size reads back whole |
| Datums.BoxRoundTrip | engines/mediastation/datum.cpp:34-37 | a written bounding box reads back with both of its points |
| Datums.PolygonRoundTrip | engines/mediastation/datum.cpp:39-45 | a written polygon reads back with all its points in order |
| Datums.PointsRoundTrip | engines/mediastation/datum.cpp:41-44 | written points read back as the same list, consuming exactly their bytes |
| Datums.PayloadRoundTrip | engines/mediastation/datum.cpp:69-103 | every payload layout reads back what its encoder wrote |
| Datums.RoundTrip | engines/mediastation/datum.cpp:56-103 | every well-shaped datum reads back unchanged and consumes exactly its bytes, both untyped and with its own tag expected |
| AssetHeaders.AssetTypesDistinct | engines/mediastation/assetheader.h:42-69 | the asset type codes are pairwise distinct |
| AssetHeaders.SectionTypesDistinct | engines/mediastation/assetheader.h:75-122 | the section type codes are pairwise distinct |
| AssetHeaders.SetInt | engines/mediastation/asset_header.cpp:55-152 | each integer section sets its own field and no other: the 32-bit value for the references, z-index, asset reference, startup, cursor, frame rate and both load types, and whether it is nonzero for transparency and own subfile; a repeated ASSET_ID changes nothing; a movie's CHUNK_REFERENCE sets the header reference and clears the others, while another asset's sets only the plain reference |
| AssetHeaders.LastValueWins | engines/mediastation/asset_header.cpp:65-152 | a later section of the same integer tag overrides an earlier one |
| AssetHeaders.MovieReferenceResets | engines/mediastation/asset_header.cpp:72-74 | a movie's CHUNK_REFERENCE zeroes the audio and video references |
| AssetHeaders.ReadSection | engines/mediastation/asset_header.cpp:44-159 | an EVENT_HANDLER section is fatal, and so is a section type that no case handles; a section keeps the file number, type and id, and moves forward unless it is EMPTY |
| AssetHeaders.ReadSectionType | engines/mediastation/asset_header.cpp:161-165 | a section type is a typed UINT16_1 datum's value |
| AssetHeaders.ReadSections | engines/mediastation/asset_header.cpp:34-41 | the section loop keeps the three leading fields and moves forward |
| AssetHeaders.ReadHeader | engines/mediastation/asset_header.cpp:27-42 | the file number, type and id are the three leading datums' integers, the file number and id in 32 bits; a failure of the first datum is the header's failure; reading moves the chunk forward |
| AssetHeaders.HeaderRoundTrip | engines/mediastation/asset_header.cpp:27-42 | an encoded header reads back as the three leading values with the sections applied in order, stopping just after the EMPTY terminator |
| AssetHeaders.TypedSectionRoundTrip | engines/mediastation/asset_header.cpp:93-101 | a stored BOUNDING_BOX or MOUSE_ACTIVE_AREA section reads back with exactly its effect |
| AssetHeaders.SoundInfoRoundTrip | engines/mediastation/asset_header.cpp:143-147 | a stored SOUND_INFO section sets the chunk count, then the rate |
| AssetHeaders.IntSectionRoundTrip | engines/mediastation/asset_header.cpp:55-152 | a stored integer section reads back with exactly its effect |
| AssetHeaders.SectionRoundTrip | engines/mediastation/asset_header.cpp:44-159 | every stored valid section reads back with exactly its effect and its bytes |
| AssetHeaders.TagRoundTrip | engines/mediastation/asset_header.cpp:161-165 | a stored 16-bit tag reads back as the section type |
| AssetHeaders.SectionsRoundTrip | engines/mediastation/asset_header.cpp:34-41 | a stored section list, ended by EMPTY, applies its sections in order and stops just after the terminator |
| AssetHeaders.NoSections | engines/mediastation/asset_header.cpp:34-35 | an EMPTY first tag leaves the header as it is |
| Variables.ReadDeclaration | engines/mediastation/mediascript/variabledeclaration.cpp:29-76 | the id is a 16-bit value and the type an 8-bit one, and the value has the shape the type's `switch` branch produces |
| Variables.ReadValue | engines/mediastation/mediascript/variabledeclaration.cpp:33-75 | each branch produces its own value variant and moves the chunk forward |
| Variables.ReadItems | engines/mediastation/mediascript/variabledeclaration.cpp:35-40 | a collection reads exactly its count of nested declarations |
| Variables.RoundTrip | engines/mediastation/mediascript/variabledeclaration.cpp:29-76 | a stored declaration, nested collections included, reads back unchanged and consumes exactly its bytes |
| Variables.ValueRoundTrip | engines/mediastation/mediascript/variabledeclaration.cpp:33-75 | each stored value reads back through its type's branch |
| Variables.ItemsRoundTrip | engines/mediastation/mediascript/variabledeclaration.cpp:35-40 | the items of a stored collection read back in order |
| Variables.BooleanIsOne | engines/mediastation/mediascript/variabledeclaration.cpp:60-64 | a BOOLEAN is true exactly when its raw value is 1 |
| Variables.LiteralKeepsSecond | engines/mediastation/mediascript/variabledeclaration.cpp:66-74 | LITERAL falls into the default branch: two datums are read and the second is kept |
| Variables.UnknownTypeReadsOneDatum | engines/mediastation/mediascript/variabledeclaration.cpp:71-74 | an unknown type code is not fatal: one generic datum is read and kept |
| CodeChunks.ReadCodeChunk | engines/mediastation/mediascript/codechunk.cpp:33-37 | the body is a UINT32_1 length, then exactly that many bytes, charged to the chunk |
| CodeChunks.CodeChunkRoundTrip | engines/mediastation/mediascript/codechunk.cpp:33-37 | a stored body reads back as exactly its bytes |
| CodeChunks.OverlongBodyFails | engines/mediastation/mediascript/codechunk.cpp:33-37 | a length the chunk cannot pay for is an overread |
| Functions.RegisteredId | engines/mediastation/mediascript/function.cpp:29 | the registered id is the stored id plus 19900, modulo 2^32 |
| Functions.RegistrationInjective | engines/mediastation/mediascript/function.cpp:29 | distinct stored ids register distinct functions |
| Functions.StoredIdRegisters | engines/mediastation/mediascript/function.cpp:29 | every 32-bit registered id comes from a stored id |
| Functions.ReadFunction | engines/mediastation/mediascript/function.cpp:27-32 | the file id, then the stored id, then the code chunk |
| Functions.RoundTrip | engines/mediastation/mediascript/function.cpp:27-32 | a stored function reads back under the same registered id with the same body |
| EventHandlers.ReadHandler | engines/mediastation/mediascript/eventhandler.cpp:26-39 | the type, the argument type, an argument datum of any type, the length when there is an argument, then the code |
| EventHandlers.ReadLength | engines/mediastation/mediascript/eventhandler.cpp:33-36 | with a null argument nothing is read; otherwise a UINT32_1 length datum is required |
| EventHandlers.LengthMustBeUint32 | engines/mediastation/mediascript/eventhandler.cpp:34 | with an argument, a length datum of any other type is fatal |
| EventHandlers.LengthRoundTrip | engines/mediastation/mediascript/eventhandler.cpp:33-36 | a written length reads back, or is absent for a null argument |
| EventHandlers.RoundTrip | engines/mediastation/mediascript/eventhandler.cpp:26-39 | a stored handler reads back unchanged and consumes exactly its bytes, whatever its length field says |
| ContextParams.ReadWord | engines/mediastation/contextparameters.cpp:31-32 | file numbers and section tags are typed UINT16_1 datums |
| ContextParams.ReadSection | engines/mediastation/contextparameters.cpp:35-70 | as written, NAME always fails; FILE_NUMBER is fatal; an unknown tag is fatal; the file number is kept |
| ContextParams.ReadSections | engines/mediastation/contextparameters.cpp:32-72 | the loop keeps the file number and moves forward |
| ContextParams.ReadContext | engines/mediastation/contextparameters.cpp:30-73 | the record's file number is its first datum |
| ContextParams.NameRoundTrip | engines/mediastation/contextparameters.cpp:36-49 | a stored NAME section names the context in the corrected reader, and fails with the FILE_NUMBER error as written |
| ContextParams.VariableRoundTrip | engines/mediastation/contextparameters.cpp:51-59 | a stored VARIABLE section declares its variable under its id |
| ContextParams.BytecodeRoundTrip | engines/mediastation/contextparameters.cpp:61-65 | a stored BYTECODE section defines its function under the registered id |
| ContextParams.SectionRoundTrip | engines/mediastation/contextparameters.cpp:35-70 | every stored section the reader handles reads back with exactly its effect |
| ContextParams.SectionsRoundTrip | engines/mediastation/contextparameters.cpp:33-72 | stored sections apply in order and the loop stops just after EMPTY |
| ContextParams.ContextRoundTrip | engines/mediastation/contextparameters.cpp:30-73 | the corrected reader recovers the file number and the effect of every section of a stored record |
| ContextParams.NameFails | engines/mediastation/contextparameters.cpp:36-49 | as written, a stored NAME section ends the loop with the FILE_NUMBER error |
| ContextParams.NameEndsRecord | engines/mediastation/contextparameters.cpp:36-49 | as written, a record fails at its first NAME section, whatever comes before it |
| ContextParams.LastVariableWins | engines/mediastation/contextparameters.cpp:57 | a later VARIABLE with the same id replaces the earlier one |
| ContextParams.VariableKept | engines/mediastation/contextparameters.cpp:57 | sections that declare other ids keep a variable |
| Script.InstructionTypesDistinct | engines/mediastation/mediascript/codechunk.h:32-37 | the statement classes are distinct, so the first datum fixes the class |
| Script.OpcodesDistinct | engines/mediastation/mediascript/codechunk.h:39-70 | the opcodes are distinct |
| Script.OperandTypesDistinct | engines/mediastation/mediascript/codechunk.h:72-90 | the operand kinds are distinct, and none is the default kind |
| Script.ScopesDistinct | engines/mediastation/mediascript/codechunk.h:92-96 | the three scopes are distinct |
| Interpreter.GetVariable | engines/mediastation/mediascript/codechunk.cpp:203-227 | a missing global reads as the default operand; a local slot must exist; a parameter needs bound arguments and is argument `id - 1`; an unknown scope is fatal |
| Interpreter.PutVariable | engines/mediastation/mediascript/codechunk.cpp:229-250 | a global is stored and a local overwritten; a parameter cannot be written; an unknown scope is fatal |
| Interpreter.PutThenGet | engines/mediastation/mediascript/codechunk.cpp:203-250 | a stored variable reads back, and every other variable reads as before |
| Interpreter.CallBuiltInFunction | engines/mediastation/mediascript/codechunk.cpp:252-265 | only the effect transition is known, and it returns the default operand without effect |
| Interpreter.SelfKind | engines/mediastation/mediascript/codechunk.cpp:270 | the method's asset must be non-null and registered |
| Interpreter.CallBuiltInMethod | engines/mediastation/mediascript/codechunk.cpp:267-343 | a method never adds or removes assets or changes globals, and only appends to the trace; the mouse methods need a hotspot and no arguments; `timePlay` records a movie's start, refuses a sound, plays a path (its new state and handler runs) and is fatal on any other type; `setDuration` sets a path's duration to the argument in whole milliseconds; `percentComplete` returns a path's progress as a LITERAL1 integer; an unknown method id is fatal |
| Interpreter.PathMethodsCompose | engines/mediastation/mediascript/codechunk.cpp:289-337 | setting a path's duration, playing it, then reading its progress: the play runs the handlers for the new duration after the earlier trace, and the progress reads 0 |
| Interpreter.Statement | engines/mediastation/mediascript/codechunk.cpp:57-201 | a statement never adds or removes assets, and only appends to the trace; a statement read with the cursor at or past the end of the bytecode fails (`Overread`); an instruction class other than EMPTY, FUNCTION_CALL, OPERAND and VARIABLE_REF fails with `UnknownInstruction` carrying that class |
| Interpreter.VariableRef | engines/mediastation/mediascript/codechunk.cpp:187-195 | reading a variable moves only the cursor |
| Interpreter.FunctionCall | engines/mediastation/mediascript/codechunk.cpp:71-147 | a call keeps the assets and only appends to the trace; with no fuel left it fails; an opcode other than ASSIGN_VARIABLE, CALL_ROUTINE and CALL_METHOD fails with `UnknownOpcode` carrying that opcode |
| Interpreter.Assign | engines/mediastation/mediascript/codechunk.cpp:75-86 | an assignment yields the default operand, keeps the assets and only appends to the trace |
| Interpreter.CallRoutine | engines/mediastation/mediascript/codechunk.cpp:88-112 | a routine call, registered or built-in, keeps the assets and only appends to the trace |
| Interpreter.CallMethod | engines/mediastation/mediascript/codechunk.cpp:114-140 | a method call keeps the assets and only appends to the trace |
| Interpreter.Args | engines/mediastation/mediascript/codechunk.cpp:94-98 | `n` argument statements give exactly `n` operands, keep the assets and only append to the trace |
| Interpreter.ReadOperand | engines/mediastation/mediascript/codechunk.cpp:149-185 | an operand changes no shared state; an asset operand is either the null asset or a registered asset; a kind other than ASSET_ID, LITERAL1, LITERAL2, DOLLAR_SIGN_VARIABLE, FLOAT1 and FLOAT2 fails with `UnknownOperand` carrying that kind |
| Interpreter.VarRefCase | engines/mediastation/mediascript/codechunk.cpp:187-195 | a stored variable reference reads its variable, or fails as `getVariable` does, and leaves the cursor just past it |
| Interpreter.AssignCase | engines/mediastation/mediascript/codechunk.cpp:75-86 | a stored assignment evaluates its right side, stores the value as `putVariable` does, and yields the default operand |
| Interpreter.CallFnCase | engines/mediastation/mediascript/codechunk.cpp:88-112 | a stored call of a built-in function evaluates its arguments left to right and returns the built-in's result |
| Interpreter.CallMethodCase | engines/mediastation/mediascript/codechunk.cpp:114-140 | a stored method call evaluates `self`, requires an asset, then evaluates the arguments and returns the built-in method's result |
| Interpreter.Execute | engines/mediastation/mediascript/codechunk.cpp:39-55 | `execute` binds the argument list as given, possibly null; after it the cursor is rewound and the arguments unbound; the assets are kept and the trace only grows |
| Interpreter.NullArgumentsHaveNoParameters | engines/mediastation/mediascript/codechunk.cpp:214-218 | code that `execute` runs with the null argument list and that reads a parameter fails with the null-list error |
| Interpreter.Run | engines/mediastation/mediascript/codechunk.cpp:42-45 | the statement loop stops only at the end of the bytecode; the assets are kept and the trace only grows |
| Interpreter.ArgsMatch | engines/mediastation/mediascript/codechunk.cpp:93-98 | the argument statements run left to right as their trees evaluate, stopping at the first error |
| Interpreter.StatementMatches | engines/mediastation/mediascript/codechunk.cpp:57-201 | running a tree's bytecode gives the tree's value, shared state and local slots, with the cursor just past it, or the same error |
| Interpreter.RunMatches | engines/mediastation/mediascript/codechunk.cpp:42-45 | the loop over a sequence of encoded trees evaluates them in order, yielding the last value |
| Interpreter.ExecuteMatches | engines/mediastation/mediascript/codechunk.cpp:39-55 | `execute` on encoded trees binds the arguments, evaluates the trees, rewinds and unbinds, and keeps the locals they left |
| Interpreter.CallRegisteredCase | engines/mediastation/mediascript/codechunk.cpp:88-111 | a registered routine gets its arguments evaluated in the caller and runs its body in its own frame, and the caller resumes just past the call with the routine's value |
| Assets.Process | engines/mediastation/asset.h:43 | the default `process` does nothing and keeps the playing flag |
| Engine.DefaultProcessFrame | engines/mediastation/asset.h:43 | with the default `process`, a frame keeps exactly the assets that are playing, front-most first |
| Assets.FreshIsIdle | engines/mediastation/asset.h:56-60 | a new asset is not playing and its times are 0 |
| Timers.Duration | engines/mediastation/assets/timer.cpp:43-52 | the timer's duration is the largest threshold, or 0 with none |
| Timers.Play | engines/mediastation/assets/timer.cpp:29-53 | a playing timer is left alone; otherwise it starts now, with nothing processed and the duration recomputed |
| Timers.Stop | engines/mediastation/assets/timer.cpp:55-64 | a stopped timer is left alone; otherwise it stops and its start and processed times reset |
| Timers.Elapsed | engines/mediastation/assets/timer.cpp:73 | the 32-bit `currentTime - startTime` is the plain difference when no wrap occurs |
| Timers.DueMembers | engines/mediastation/assets/timer.cpp:81-90 | the handlers one pass runs are exactly those whose thresholds are in range, in order |
| Timers.DueCount | engines/mediastation/assets/timer.cpp:81-90 | one pass runs each handler at most once |
| Timers.Process | engines/mediastation/assets/timer.cpp:66-92 | a stopped timer does nothing; a timer past its duration stops and runs nothing; otherwise exactly the handlers with `lastProcessed <= t <= elapsed` run, and `lastProcessed` becomes the elapsed time |
| Timers.ProcessFixed | engines/mediastation/assets/timer.cpp:66-92 | the corrected pass: the due handlers run even on the frame that stops the timer, and the next pass starts one millisecond later |
| Timers.SampledThresholdFiresTwice | engines/mediastation/assets/timer.cpp:84-91 | as written, a threshold equal to the last frame's elapsed time runs again on the next frame |
| Timers.ExpiryHidesLastThreshold | engines/mediastation/assets/timer.cpp:73-80 | as written, a frame past the duration stops the timer without running the last handler |
| Timers.ReachesExists | engines/mediastation/assets/timer.cpp:85 | some frame reaches a threshold exactly when one frame's elapsed time is at least it |
| Timers.RunFixedCounts | engines/mediastation/assets/timer.cpp:66-92 | from any clock consistent with `play`, the corrected timer runs a handler once if a frame reaches it and not otherwise |
| Timers.ExactlyOnce | engines/mediastation/assets/timer.cpp:29-92 | started by `play` and driven by non-decreasing frames, the corrected timer runs each handler exactly once if some frame reaches its threshold, and never otherwise |
| Paths.TotalSteps | engines/mediastation/assets/path.cpp:46 | the step count is a 32-bit value |
| Paths.StepsWithoutWrap | engines/mediastation/assets/path.cpp:46 | below 2^32 the product does not wrap, and the count is duration times rate over 1000 |
| Paths.Progress | engines/mediastation/assets/path.cpp:60 | storing the fraction in an unsigned field leaves the progress 0 on every step but the last, where it is 1 |
| Paths.Trace | engines/mediastation/assets/path.cpp:57-78 | one Step run per step if there is a Step handler, then one End run if there is a PathEnd handler |
| Paths.PlaySpec | engines/mediastation/assets/path.cpp:37-82 | a zero step rate is fatal, through the check when the duration is nonzero and through the division when it is zero; any other rate plays |
| Paths.Play | engines/mediastation/assets/path.cpp:37-82 | the step loop produces exactly the reference trace and leaves the progress 0 |
| Paths.PlayRunsEachStep | engines/mediastation/assets/path.cpp:57-71 | the Step handler runs once per step and sees progress 1 only on the last |
| Paths.PlayEndsWithEnd | engines/mediastation/assets/path.cpp:73-78 | the PathEnd handler runs once, after every Step run |
| Paths.SetDuration | engines/mediastation/assets/path.cpp:84-88 | only the duration changes |
| Paths.SetDurationTakesEffect | engines/mediastation/assets/path.cpp:46-88 | the next `play` takes its step count from the new duration |
| Paths.PercentCompleteAfterPlay | engines/mediastation/assets/path.cpp:81-94 | outside a handler the progress reads 0 |
| Movies.FooterFieldsInverse | engines/mediastation/assets/movie.cpp:32-58 | a footer and its field list in read order determine each other, in both generations |
| Movies.ReadUints | engines/mediastation/assets/movie.cpp:117-121 | `n` generic datums read as unsigned 32-bit values |
| Movies.ReadFooter | engines/mediastation/assets/movie.cpp:32-58 | a footer is 9 datums in the first generation and 13 later, read in the order of its fields |
| Movies.FooterRoundTrip | engines/mediastation/assets/movie.cpp:32-58 | a footer written in its generation's layout reads back unchanged |
| Movies.External | engines/mediastation/assets/movie.cpp:27-30 | a bitmap decoding step is accepted only when it moves the chunk forward |
| Movies.ReadFrame | engines/mediastation/assets/movie.cpp:27-30 | the bitmap header, the index and keyframe end, then the bitmap |
| Movies.ReadItem | engines/mediastation/assets/movie.cpp:86-108 | the section type selects a frame or a footer, and any other type is fatal with that type |
| Movies.ReadStill | engines/mediastation/assets/movie.cpp:86-108 | `readStill` adds a frame to the stills and a footer to the footers |
| Movies.StillFooterRoundTrip | engines/mediastation/assets/movie.cpp:97-101 | a stored FOOTER section is read into the footers and nothing else changes |
| Movies.Next | engines/mediastation/subfile.cpp:54-60 | the next chunk comes from the same stream, starts past the previous chunk's reads with nothing charged yet, and leaves fewer stream bytes |
| Movies.AnimationStep | engines/mediastation/assets/movie.cpp:141-166 | one animation section is read, then the next chunk is fetched |
| Movies.Animation | engines/mediastation/assets/movie.cpp:137-167 | animation chunks are read until a chunk of another id comes, and that chunk is returned unread; only frames and footers are appended |
| Movies.ReadSound | engines/mediastation/assets/sound.cpp:68-94 | the whole chunk is read, and then an encoding other than PCM or IMA ADPCM is fatal |
| Movies.AudioAsWritten | engines/mediastation/assets/movie.cpp:171-179 | the audio step as written changes only the sounds |
| Movies.Audio | engines/mediastation/assets/movie.cpp:171-179 | only a chunk with the audio id is read as sound; any other chunk is left for the header check |
| Movies.HeaderChunk | engines/mediastation/assets/movie.cpp:183-191 | the closing chunk must have the header id and size 4, with each failure reported as in the source, and its 4 bytes are skipped |
| Movies.Frameset | engines/mediastation/assets/movie.cpp:131-192 | a frameset never touches the stills or the metadata |
| Movies.Framesets | engines/mediastation/assets/movie.cpp:131 | the frameset loop never touches the stills or the metadata |
| Movies.FramesetsSplit | engines/mediastation/assets/movie.cpp:131 | `a + b` framesets are `a` framesets, then `b` more from where they stopped |
| Movies.ReadSubfile | engines/mediastation/assets/movie.cpp:110-116 | a first datum other than ROOT is fatal with its value, and the movie reader adds no stills |
| Movies.MetadataRoundTrip | engines/mediastation/assets/movie.cpp:110-128 | stored metadata gives the frameset count, offset and lengths, and the framesets then run from just after it |
| Movies.AudioAssignmentLosesHeader | engines/mediastation/assets/movie.cpp:171-191 | with a zero audio reference, as written the header chunk's id becomes 0 and the header check fails, while as intended it passes |
| Movies.FramesetWithoutAudio | engines/mediastation/assets/movie.cpp:131-192 | a frameset with no audio chunk fails as written and succeeds as intended |
| Movies.AudioAssignmentReadsHeaderAsSound | engines/mediastation/assets/movie.cpp:171-179 | with a nonzero audio reference, as written any chunk is read as sound, while as intended a chunk with another id is not |
| Engine.AddPlaying | engines/mediastation/mediastation.cpp:236-245 | an asset already playing leaves the list unchanged, and a new one is appended at the end |
| Engine.AddPlayingIsSetInsertion | engines/mediastation/mediastation.cpp:236-245 | adding is idempotent, adds exactly that asset, and keeps the list free of duplicates |
| Engine.SortByZ | engines/mediastation/mediastation.cpp:139-141 | the sort returns a permutation of the list in descending z order |
| Engine.PlayingAppend | engines/mediastation/mediastation.cpp:143-150 | the sweep distributes over concatenation, so the survivors keep their order |
| Engine.PlayingMembers | engines/mediastation/mediastation.cpp:143-150 | exactly the assets still playing survive the sweep |
| Engine.Sweep | engines/mediastation/mediastation.cpp:143-150 | the erase loop processes each asset once and keeps, in order, exactly those still playing afterwards |
| Engine.Frame | engines/mediastation/mediastation.cpp:139-150 | a frame sorts, then processes and sweeps |
| Engine.FrameKeepsPlaying | engines/mediastation/mediastation.cpp:139-150 | after a frame every asset left is playing, and every asset whose processing left it playing is still there |
| Engine.FrameKeepsOrder | engines/mediastation/mediastation.cpp:139-150 | when processing keeps z-indices, the survivors stay in descending z order |
| Engine.IsFirstGeneration | engines/mediastation/mediastation.cpp:85-91 | the query is fatal before boot; after boot it is true exactly when there is no version information |
| Engine.LoadContext | engines/mediastation/mediastation.cpp:187-211 | fatal before boot; null when the subfile declaration is missing, its start offset is not 16, or its file is undeclared; otherwise the declared file's name |
| Engine.LoadContextMonotone | engines/mediastation/mediastation.cpp:193-210 | declaring more subfiles and files keeps every loadable context and its file |

## Left out

- Host and display work is not modelled because it has no logic to verify. This covers `run()` and its event polling, palette setting, screen updates, delays and `initGraphics`.
- Audio decoding is not modelled. `Sound::readChunk` is modelled only up to the encoding check.
- Bitmap decoding is not modelled. The bitmap header and pixel readers are passed in as parameters.
- Timer event handlers are not executed. The model returns the list of handler indices that would run.
- Path handlers are not executed either. The model returns a trace of Step and End runs.
- `Datum.u.i` on a non-integer payload is refused with `PayloadPun`. The source reinterprets a pointer or double's bits, which cannot be given a meaning.
- `Datum.u.f` is kept as the FLOAT64 payload's raw bytes. Floating point is not modelled.
- Datums.AsFloat refuses a payload that is not FLOAT64 with `PayloadPun`. A FLOAT1 or FLOAT2 operand in a script is read this way. The source stores `Datum(*_bytecode).u.f` whatever the payload is (codechunk.cpp:174-177), and those bits have no meaning here.
- The seconds-to-milliseconds conversion that `setDuration` and the timer thresholds use is a parameter of the model. The same goes for `Timer::play`'s conversion of threshold seconds.
- The values of codes declared in headers missing from these sources are parameters, since the sources do not give them. These are the `VariableDeclaration::Type` codes, the `ContextParameters::SectionType` codes, `EventHandler::ArgumentType::Null` and the built-in function ids. builtins.h, variabledeclaration.h, contextparameters.h and eventhandler.h are not part of this model.
- The chunk reader in chunk.cpp, and the header layout it reads, is not part of this model. Chunk headers are modelled as RIFF headers: a four-character id read big-endian, then a 32-bit little-endian size.
- chunk.h declares no `length`, `skip` or `pos`, although movie.cpp and sound.cpp use them. `length` is modelled as the declared size, and `skip(n)` as a charged read of `n` bytes.
- mediastation.h declares `_assetPlaying` rather than the `_assetsPlaying` list that mediastation.cpp uses. The list is modelled.
- codechunk.h declares a `CodeChunk` with no `execute`, `_args` or `_locals`, and function.cpp has no `Function::execute`. The model follows codechunk.cpp: `_args` is a possibly null argument list, and `_locals` is an array whose `operator[]` asserts the index, failing with `IndexOutOfRange`. `Function::execute` is taken to run the function's code chunk with the arguments.
- path.h declares `percentComplete` and `_percentComplete` as `uint32`, while path.cpp defines `percentComplete` as returning `double`. The model follows the header's field type, so the stored progress is truncated, and Paths.Progress's value of 0 or 1 rests on that.
- contextparameters.cpp builds a `Variable` from the VARIABLE section's chunk, but no `Variable(Chunk &)` constructor is among these sources; the only chunk reader for a variable is `VariableDeclaration::VariableDeclaration(Chunk &)` in variabledeclaration.cpp. ContextParams.ReadSection reads the section as a VariableDeclaration and stores it under its id.
- The `AssetHeader` constructor leaves every field that no section sets uninitialised (the z-index, the bounding box and mouse area pointers, the startup, the flags and the other integers). AssetHeaders.Initial fixes these unspecified values to zero, `false` and `None`, so the model's value for an unset field is a choice, not the engine's.
- boot.h declares none of the fields that `isFirstGenerationEngine` and `loadContext` consult. These are the version information, the subfile declarations with file id and start offset, and the file declarations with name. They are modelled as a `Boot` record.
- assetheader.h declares the movie references as separate fields, while asset_header.cpp writes them through a union. The model follows asset_header.cpp. The video reference section is taken to be MOVIE_ANIMATION_CHUNK_REFERENCE (0x06a4), because the enum has no video member.
- Chunks.Read charges through the corrected counter, so a charge past the size is always an overread; Chunks.IncBytesReadAsWritten records the wrapping check it replaces. A read past the end of the stream fails with `EndOfStream`, while the engine's stream would return fewer bytes and carry on.
- Interpreter.CallBuiltInMethod refuses `setDuration` on an operand that is not a FLOAT64 with `PayloadPun`. The source reads `u.d` from whatever operand it is given (codechunk.cpp:319-324), whose bits have no meaning here.
- Interpreter.CallBuiltInMethod fails with `NullAsset` for a method called on the null asset. The source dereferences the null pointer, which has no defined outcome.
- Engine.LoadContext stops at the file name. Opening the `Context` is outside this model.
- Engine.Sweep processes each asset on its own, with `process` as a function from asset to asset. A `process` that changes the playing list while the loop runs is not modelled.
- Engine.SortByZ is one particular stable sort. `Common::sort` does not fix the order of equal z-indices, so the stated properties are only the ones every order has: a permutation in descending z order.
- Interpreter.StatementMatches covers statement trees that call only built-ins. Interpreter.CallRegisteredCase adds one level of calls into registered functions whose bodies call only built-ins. Deeper chains of registered calls are not covered by a theorem.
- Interpreter.Statement bounds call nesting with a fuel parameter, and running out of fuel is an error. The source recurses without a bound, so a script that recurses forever is modelled as failing with `OutOfFuel` instead of never returning.
- Movies.External rejects a decoding step that does not move the chunk forward. This makes the animation loop terminate, while the source would loop.
- Movies.ReadSubfile takes the choice between the as-written and the corrected audio step as a parameter.
- Timers.Elapsed is the 32-bit difference. Frames are given as millisecond counter values, so the clock's own wrap is represented but not analysed further.
- Paths.TotalSteps wraps the 32-bit product as the source does. Play's trace for a wrapped product is not related to the unwrapped one.
- The IF_ELSE, WHILE, RETURN, DECLARE_VARIABLES and arithmetic opcodes are declared in the source's enum but not executed by it. They fail with the unknown-opcode error, as in the source.

## Findings

| source | as written | input that shows it | evidently intended | confidence | as-written member | corrected member |
|---|---|---|---|---|---|---|
| engines/mediastation/chunk.h:45-50 | `_bytesRead += inc` wraps in 32 bits before the overread check | a 10-byte chunk with 1 byte read, charged 0xFFFFFFFF more: the count wraps to 0 and no error is raised | a charge past the chunk's size is an overread | not executed | Chunks.IncBytesReadAsWritten | Chunks.IncBytesRead |
| engines/mediastation/contextparameters.cpp:36-49 | the NAME case has no `break` and falls into FILE_NUMBER's `error` | any record with a NAME section fails after reading the name | a NAME section names the context and the loop goes on | not executed | ContextParams.NameFails | ContextParams.ContextRoundTrip |
| engines/mediastation/assets/movie.cpp:171 | `chunk.id = audioReference` assigns instead of comparing | audio reference 0 and a frameset with no audio: the header chunk's id becomes 0 and the header check fails | only a chunk whose id is the audio reference is read as sound | not executed | Movies.FramesetWithoutAudio | Movies.Audio |
| engines/mediastation/assets/timer.cpp:84-91 | a handler is due when `lastProcessed <= t`, and `lastProcessed` is set to the elapsed time already processed | thresholds [5, 10], frames at 5 and 7 ms: the 5 ms handler runs twice | each handler runs once | not executed | Timers.SampledThresholdFiresTwice | Timers.ExactlyOnce |
| engines/mediastation/assets/timer.cpp:73-80 | the expiry check returns before the handlers are run | threshold [10], frames at 5 and 11 ms: the 10 ms handler never runs | the last handler runs on the frame that passes it | not executed | Timers.ExpiryHidesLastThreshold | Timers.ExactlyOnce |
