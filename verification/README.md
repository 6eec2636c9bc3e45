# Online code replacement, modelled in Dafny

Ocolos pauses a running process and gives it a BOLT-optimised code layout. The
functions BOLT moved are copied to new pages. Functions that neither moved nor
have a frame on a thread's stack are overwritten in place. Direct calls inside
functions that do have a frame are re-encoded to reach the moved callees. Then
every thread continues where it stood.

This project models that pipeline over a byte-addressed memory with page
permissions and proves that the process then behaves as before:

* `Tracer.Prepare` builds the tables from what the tools print: the call sites,
  their index, the symbol map and the symbols of the BOLTed binary.
* `Tracer.ReplaceCode` is the tracer's sequence from the pause on, with the
  sets, the four record files, the hijacked thread and the insertion library.
  Its contract says exactly when it goes through, and that it then ends in a
  memory that is the overlay of the four record streams.
* `Tracer.ReplaceCodePreservesBehaviour` goes from those tables to the resumed
  process: it has exactly the traces of the process left alone, that is, the same
  operations, the same function entries (moved entries under their old names),
  the same function pointers and the same returns, for every number of threads,
  every stack, every schedule and every length of run. The traces are compared in
  both directions.
* `Tracer.CutShortPreservesBehaviour` says the same of a library that is stopped
  on its way: at any byte of the new text, between any two records after it,
  between the cells of a v-table, and within a patch where the cut makes no
  difference. `Boundaries.TornPatchCalls` says of every other cut of a patch that
  it leaves a call of neither function.
* `Tracer.ResumedRunsExecutable` says that the resumed process never leaves the
  pages it may execute. `Tracer.OnStackCallsPatched`, `Tracer.CodeInPlace` and
  `Tracer.PrintedCallsKnown` say that nothing that is due is left out.
* `Pointers.StoredPointersOriginal` joins the hook pass to this: with a hook that
  knows the new entries, a rewritten function leaves the same pointers in memory
  after the replacement as before, which are what indirect calls are assumed to
  use.
* `Example.AssumptionsAreMet` shows that all these assumptions hold together, on
  whole pages and with an insertion that goes through, and `Example.ReplaceIt`
  that the whole replacement then succeeds: a process of two threads
  with a patched caller, a moved callee, an overwritten function, a call through a
  v-table and one through a function pointer. On the same program,
  `LastFunction.QuietIsNeeded` and `Example.TornPatchMisleads` show that the
  conclusion fails with a frame in the last function, and after a stop within a
  patch.

## Modules

| module | file of the repository | content |
|---|---|---|
| `Words`, `Code`, `Machine` | | words and bytes; instruction decoding; threads, traces and the bisimulation argument |
| `Rel32`, `Hex` | `src/utils.cpp` | the rel32 encoder, hexadecimal conversions |
| `CallSites`, `Disassembly` | `src/extract_call_sites.cpp` | line decoding, the 16 workers, the inverted index; why the table is true of the code |
| `CallStack` | `src/infrastructure.cpp` | the symbol map, the ordered lookup of stack addresses, the set differences |
| `Patching` | `src/extract_machine_code.cpp` | re-encoded call sites |
| `Records`, `Elf` | `elf-extract/src/` | the record format, its writers and both readers |
| `Insertion` | `src/replace_function.cpp` | pages, permissions and copies of the four phases |
| `Injection` | `src/ptrace_pause.cpp` | the thread scan, the register hijack and its restoration |
| `Replacement`, `Boundaries`, `Tracer` | `src/tracer.cpp` | the whole replacement and its safety |
| `Example`, `LastFunction` | | a replacement that meets every assumption, and one that fails for want of one |
| `HookPass`, `Pointers` | `hook-function-pointers-llvm/` | the pass that hooks stored function pointers, and what it does for the replacement |
| `BuildServer` | `build-accelerator/rca-clang/src/server/main.rs` | the accept loop beside the background build, the batches of conversions |

## What is assumed

The predicates `Tracer.WorldFine` and `Tracer.NumbersFine`, and
`Replacement.Unwound` and `Replacement.LastFunctionQuiet` for the stacks, hold
everything the main theorem asks for. What `Tracer.ReplaceCode` ensures is not
assumed: that the files hold the records due, and that new text went to pages
the process did not have.

* Program: functions do not overlap; instructions overlap neither each other nor
  a function boundary; calls enter a function at its start only, and so do jumps
  into a function that is overwritten.
* Function pointers: whenever the process, left alone, calls through one, it names
  an original entry (`Machine.CallsEntries`).
* Disassembly: it prints the code of the process, and a listed function is no
  longer than the symbol map has it. That every patched site is a direct call of
  its function, recorded with its real target, is derived.
* BOLT: a correspondence, with a rank that bounds silent jumps, relates the
  instructions of each function to those of its new body, which may be laid out
  differently. No two functions have the same new entry. An unmoved function stays
  within its old extent.
* BOLTed binary: the loader puts the contents of each loaded section at its
  address, and no two loaded sections disagree about a byte. Each moved function,
  and each unmoved one that has a symbol there, lies in its section. Nothing is
  asked of sections that are not loaded, of imported symbols, or of symbols of
  functions that are not written.
* v-tables: they lie apart from the old instructions. A cell that the program
  calls through lies apart from the code; a BOLTed table copied over it renames
  its entry or leaves it, or no table touches it.
* A library that is stopped on its way: no two v-tables overlap, the pages of the
  new text are free, and the stop is one that `Boundaries.SafeStop` describes.
* Unwinding: each program counter and each return address of each thread is an
  instruction and is in the list of stack addresses.
* Patches: the new distance of each patched call is one that the encoder gets
  right.
* No thread stands strictly inside the last function of the image, unless that
  function moved.

## Where the code is not exact

* `convert_long_2_vec_uint8` takes base-256 digits by truncating division.
  `Rel32.EncoderExact` characterises when its bytes are the two's complement;
  most backward distances are encoded wrongly, by one missed borrow for each
  nonzero digit below the top one (`Rel32.EncodedNegative`).
* The stack lookup cannot name the function with the greatest address.
  `CallStack.ExposedExactly` says that an unprotected frame is always one of
  that function.
* The lookup is strictly-below. A thread stopped on the first byte of a function
  is attributed to the function before it (`CallStack.EntryIsMisattributed`). The
  function it is about to enter may then be overwritten, which the theorem
  covers: nothing of the old body has been executed yet.
* `prev` of the first map position is undefined, so the lookup asks for a
  function below each stack address (`Tracer.LookupPossible`).
* The insertion readers end the process on an empty payload, ignore fewer than
  eight bytes after the last record, and take uninitialised memory for the end of
  a payload that is cut off. `parse_yz` has none of these but panics or reads
  out of bounds on a cut-off file.
* A call line whose target prints as two hexadecimal digits counts as six byte
  tokens and ends the extractor. A symbol of fewer than five characters makes
  `substr` throw.
* The page set that `insert_machine_code` means to lock at the end is never
  filled, so the old text stays writable (`Insertion.PermissionOutcome`).
* `extract_vtable` does not look at the kind of the section. The record of a table
  that a copy relocation puts into .bss holds whatever the file has at the
  section's offset, and the insertion overwrites the table with it.
  `Elf.UnloadedVtable` says that the record is right exactly when that stretch of
  the file is all zero.
* The tracer learns of a stopped library only by the signal, and cannot tell the
  library's own SIGSTOP from one sent by somebody else. A library stopped within
  a patch leaves a call of neither function, unless the bytes copied or those left
  make no difference (`Boundaries.TornPatchCalls`, `Example.TornPatchMisleads`).
* A store whose destination operand is itself another function has its
  destination hooked instead of its value, and a second run of the pass hooks it
  again (`HookPass.IdempotentExactly`, `HookPass.NotIdempotent`).
* The pass hooks stores only. A function that is mentioned elsewhere, as an
  argument of a call for instance, is not hooked: `HookPass.PassHidesMoves` asks
  that such functions have not moved.

## Model

| member | source | states |
|---|---|---|
| Tracer.ReplaceCode | src/tracer.cpp:77-114 | It succeeds if and only if every function and v-table due can be read, some thread, all before it having been refused, stopped with signal 5 beyond the first byte of the library and then stopped and was reset, the library ran to its end, no record is empty, the pages of the new text are free and those of the other records mapped; likewise for a library that was stopped and for no thread at all. Then every thread has its registers back, and memory is the overlay of exactly the records due, or of what was copied of them |
| Tracer.Prepare | src/extract_call_sites.cpp:97-186 | The tables tabulate the extracted sites, invert them, hold the first text symbol of each address, and index the BOLTed symbols; they exist if and only if no worker dies |
| Tracer.ReplaceCodePreservesBehaviour | src/tracer.cpp:79-99 | With tables made of what the tools print, the process resumed after the replacement has exactly the traces of the unreplaced one, whatever its threads, stacks and schedules |
| Tracer.ResumedRunsExecutable | src/replace_function.cpp:262-265 | In every run of the resumed process each thread stands at an instruction all of whose bytes lie on executable pages, if the program was on such pages before |
| Tracer.MixedExecutable | src/replace_function.cpp:110-119 | Kept code, overwritten functions and new text lie on executable pages after the insertion |
| Tracer.CutShortPreservesBehaviour | src/ptrace_pause.cpp:210-222 | So does a process whose library was stopped at any byte of the new text, between two later records, between two cells of a v-table, or within a patch where it makes no difference |
| Tracer.WriteFiles | src/tracer.cpp:58-99 | They are written if and only if no function due and no v-table makes the ELF reader panic; then the four files hold exactly the moved functions, the call sites to patch, the first v-table of each address, and the functions neither moved nor on a stack |
| Tracer.WriteBeforePause | src/tracer.cpp:61-68 | The two files written before the pause, record by record, if and only if every moved function and every v-table can be read |
| Tracer.WriteAfterPause | src/tracer.cpp:83-99 | The two files that depend on the stacks, record by record; the second if and only if every function to overwrite can be read |
| Tracer.InsertionRunsPlan | src/replace_function.cpp:369-386 | An insertion of those files that succeeds has read back every record and put the first stream on pages the process did not have |
| Tracer.InsertionStops | src/replace_function.cpp:369-386 | An insertion of those files that is stopped has copied exactly the records, and the bytes of the next one, that it came to |
| Tracer.InsertionGoesThrough | src/replace_function.cpp:101-119 | The insertion of those files succeeds if and only if no record is empty, the pages of the new text are free and the pages of all other records are mapped by then |
| Tracer.InsertionReaches | src/replace_function.cpp:369-386 | An insertion that would succeed can be stopped at any record and byte |
| Tracer.StreamsFine | src/tracer.cpp:61-95 | The written records are slices of the loaded BOLTed image, and none overwrites a moved or on-stack function |
| Tracer.NewTextApart | src/replace_function.cpp:245-246 | Text on pages the process did not have covers none of its instructions |
| Tracer.WorldGivesPlan | src/tracer.cpp:58-99 | From the tools to the plan: every patched site is a true call, every record is due, new entries and new text are new |
| Tracer.OnStackCallsPatched | src/extract_machine_code.cpp:20-44 | Every recorded call of a moved function in a function with a frame calls the moved entry afterwards; every other instruction of such a function keeps its bytes |
| Tracer.CodeInPlace | src/tracer.cpp:61-95 | Every moved function with a symbol, every unmoved one off the stacks and every first v-table lies in memory afterwards, byte for byte as in the BOLTed image |
| Tracer.PrintedCallsKnown | src/extract_call_sites.cpp:47-91 | Every printed direct call with an ordinary symbol and target, not on the last line, is in the table and in the index under its target |
| Replacement.ReplacementPreservesBehaviour | src/tracer.cpp:84-95 | Old and new process have the same traces in both directions, up to renaming moved entries |
| Replacement.ReplacementBisimulates | src/tracer.cpp:84-95 | Kept old code, patched calls, new bodies and v-table cells of the mixed memory do what the old code did and continue at corresponding addresses |
| Replacement.EntriesShared | src/extract_machine_code.cpp:20-47 | Every function can be entered at its old place, under its old name, after the replacement |
| Replacement.KeptMatches | src/extract_machine_code.cpp:20-44 | An old instruction outside every overwritten function, patched or not, corresponds to itself |
| Replacement.BodyMatches | src/tracer.cpp:61-65 | An instruction of a new body, decoded from final memory, corresponds to the old one it stands for |
| Replacement.BodyCallMatches | src/tracer.cpp:61-65 | So do its calls, direct, through a cell or through a pointer, and the function pointers it creates |
| Replacement.OnStackSafety | src/tracer.cpp:84-95 | In the whole extent of a function with a frame, data and padding included, the displacement bytes of patched calls are all that changes, outside what new text and v-tables cover |
| Replacement.OnStackInstruction | src/tracer.cpp:84-95 | An instruction of a function with a frame keeps its bytes, unless it is a recorded five-byte call of a moved function, which then calls the moved entry |
| Replacement.NoRecordOverFrame | src/infrastructure.cpp:538-548 | No record has a stack address strictly inside its bytes |
| Replacement.PatchClear | src/replace_function.cpp:374-385 | No byte of a patch is written by any of the other three phases |
| Replacement.PatchesApart | src/extract_machine_code.cpp:34-44 | Two patches that share a byte are the same patch |
| Replacement.StreamsConsistent | src/replace_function.cpp:369-386 | No two records of the four streams disagree about a byte |
| Replacement.DecodeKept | src/replace_function.cpp:122-123 | A kept, unpatched instruction decodes in final memory as it did |
| Replacement.DecodePatched | src/extract_machine_code.cpp:28-44 | A patched site decodes in final memory to a call of the moved entry of its recorded target |
| Replacement.DecodeBody | src/replace_function.cpp:252-254 | An instruction inside a copied body decodes as in the BOLTed image |
| Replacement.SlotAfter | src/replace_function.cpp:378-381 | A cell read by an indirect call holds its old entry or that entry's new place |
| Replacement.FramesMixed | src/infrastructure.cpp:496-514 | Every frame found by unwinding stands where old and new code correspond |
| Boundaries.SafeAtEveryRecord | src/replace_function.cpp:369-386 | After any prefix of the records, in phase order, the process has exactly its old traces |
| Boundaries.SafeWhenStopped | src/replace_function.cpp:369-386 | So it has after any prefix and any number of bytes of the next record, if that record is new text, a patch whose copied or missing bytes are the old ones anyway, or a v-table cut between cells |
| Boundaries.TornPatchCalls | src/replace_function.cpp:122-123 | A cut patch calls the old function if and only if the copied bytes are the old ones, the moved function if and only if the missing bytes are the new ones, and otherwise neither |
| Boundaries.BeforePatch | src/replace_function.cpp:374-377 | Until a patch is copied, its bytes are those of the program |
| Boundaries.UntouchedBehaves | src/replace_function.cpp:370-373 | While only new text is being filled, behaviour is unchanged |
| Boundaries.CutSlots | src/replace_function.cpp:378-381 | A cut between two v-table records leaves no half-copied cell |
| Example.AssumptionsAreMet | src/tracer.cpp:77-114 | All assumptions of the whole replacement hold of one process, from the printed listings and an ELF file with unloaded sections and an imported symbol to whole pages and the stacks; its insertion succeeds, and the conclusion holds of the memory it leaves |
| Example.ReplaceIt | src/tracer.cpp:108-143 | On that process, with a first thread that makes no step and a second one that does, the replacement succeeds |
| Example.TornPatchMisleads | src/replace_function.cpp:122-123 | With every assumption met, the library can stop after two bytes of a patch, and the process then behaves differently |
| LastFunction.QuietIsNeeded | src/infrastructure.cpp:502-508 | A process with a frame in the last function meets every other assumption of the whole replacement, its insertion succeeds, and it behaves differently afterwards |
| Machine.StepMatched | src/tracer.cpp:79-99 | Each step of one process is answered by finitely many steps of the same thread of a related one, with the same events, if one of the two calls through pointers to entries only |
| Machine.RunMatched | src/tracer.cpp:79-99 | Each run of one process has a run of a related one with the same trace, ending with the same data and related stacks |
| Machine.SameTraces | src/tracer.cpp:79-99 | Related processes have the same set of traces |
| Rel32.ConvertLong2VecUint8 | src/utils.cpp:268-284 | The two loops produce the truncated base-256 digits, least significant first |
| Rel32.EncoderExact | src/utils.cpp:268-284 | The bytes denote the number modulo 2^32 if and only if it is non-negative or a multiple of 2^24 |
| Rel32.EncodedNegative | src/utils.cpp:273-277 | What the bytes of a negative number denote: that number plus one missed borrow per nonzero lower digit |
| Rel32.BackwardCallMisencoded | src/utils.cpp:268-284 | One byte back is encoded as 255 bytes forward |
| Patching.PatchReaches | src/extract_machine_code.cpp:28-43 | The processor executing the five bytes reaches the moved function if and only if the distance fits 32 bits and is non-negative or a multiple of 2^24 |
| Patching.ExtractCallSites | src/extract_machine_code.cpp:20-47 | The file holds one record for each site whose function is on a stack and whose target moved, each once, and no other |
| Patching.PatchCallers | src/extract_machine_code.cpp:22-45 | The file grows by exactly the patches of those callers of one target whose function is on a stack, each once |
| Patching.WritePatch | src/extract_machine_code.cpp:28-44 | The file grows by one record of the shared format, at the site, with the opcode and the re-encoded distance |
| CallSites.DecodeLine | src/extract_call_sites.cpp:48-90 | What a line contributes: skipped, a site, or one of three ways to end the program |
| CallSites.CollectBytes | src/extract_call_sites.cpp:68-78 | The byte tokens of a line and their values; refused if and only if there are more than five |
| CallSites.JoinBackward | src/extract_call_sites.cpp:80-87 | The displacement's tokens, last one first |
| Hex.JoinedBackwardValue | src/extract_call_sites.cpp:84-88 | Byte strings joined last first denote the little-endian value of the bytes |
| CallSites.DecodedCall | src/extract_call_sites.cpp:50-89 | For every symbol and target, a printed direct call throws on a short symbol, is skipped when it goes through the PLT or ends the listing, ends the program on a two-digit target, and otherwise decodes to its address, its bytes, its successor, and displacement plus successor modulo 2^32 |
| CallSites.OtherLines | src/extract_call_sites.cpp:50 | A line of fewer than nine words, or whose seventh is neither call nor callq, contributes nothing |
| CallSites.NoByteTokens | src/extract_call_sites.cpp:80-87 | A call line without a byte token reads out of bounds |
| CallSites.TargetIsArchitectural | src/extract_call_sites.cpp:88 | The sum modulo 2^32 is the processor's target, forward or backward, if and only if that target is in the low 4 GiB |
| CallSites.PatchReadsBack | src/extract_machine_code.cpp:28-43 | A generated patch, printed and fed to the extractor, gives the moved address if and only if neither its symbol nor its target trips the extractor |
| CallSites.ScanFunction | src/extract_call_sites.cpp:47-91 | The sites of one function stored one after the other, the last one kept for an address |
| CallSites.LinesExactly | src/extract_call_sites.cpp:47-91 | The scan of a listing dies if and only if some line but the last does; its sites are those of all these lines, no more and no fewer |
| CallSites.LinesInOrder | src/extract_call_sites.cpp:47-91 | Sites come in the order of the lines |
| CallSites.LastSiteStays | src/extract_call_sites.cpp:89 | Of the sites of one worker at one address, the last one stays |
| CallSites.ThreadFunction | src/extract_call_sites.cpp:20-93 | One worker's map is all its functions' sites stored in order |
| CallSites.ListFunctions | src/extract_call_sites.cpp:119-131 | Exactly the functions of text and weak symbols, in order |
| CallSites.ScannedSymbols | src/extract_call_sites.cpp:123-129 | Lines with the letters T, t, W and w count, with the address and size they print |
| CallSites.Partition | src/extract_call_sites.cpp:136-152 | Sixteen slices that concatenate to the list, fifteen of a sixteenth each and the last with the remainder, for every length |
| CallSites.ExtractInParallel | src/extract_call_sites.cpp:153-169 | The merged map tabulates the sequential extraction; of an address that several workers have it keeps the first one's site, and it equals the sequential map when sites at one address agree; it dies if and only if the sequential one does |
| CallSites.MergeTabulates | src/extract_call_sites.cpp:166-169 | A merge that keeps what is there tabulates both lists of sites |
| CallSites.BuildIndex | src/extract_call_sites.cpp:176-186 | Each caller occurs once under its target and nowhere else, no list is empty, and the lengths add up to the number of sites |
| CallSites.FileCaller | src/extract_call_sites.cpp:178-185 | One caller more at the end of its target's list |
| CallSites.ExtractAll | src/extract_call_sites.cpp:119-186 | The whole extractor: its table tabulates every listed site and its index inverts the table, if and only if no worker dies |
| CallSites.ExtractedExactly | src/extract_call_sites.cpp:20-186 | Line by line: the extraction goes through if and only if no line fails, every entry is the site of some line, and every line with a site has an entry, filed under its target |
| Disassembly.FaithfulSite | src/extract_call_sites.cpp:50-89 | A site read from a line that prints the code records what the processor does there |
| Disassembly.FaithfulSites | src/extract_call_sites.cpp:20-93 | So does every site of a whole extraction, and each belongs to a scanned function |
| Disassembly.ExtractedSitesFine | src/extract_machine_code.cpp:23-33 | With that table, every site that will be patched is a direct call of its function with its real target and successor |
| Disassembly.WeakFunctionsAreInvisible | src/infrastructure.cpp:397-415 | Every function of the stack map is scanned for calls; an address is missing from the map if and only if no line with the letter T or t declares it, and is then scanned for its lines with W or w only |
| CallStack.GetFuncWithOriginalAddr | src/infrastructure.cpp:396-420 | Each address with the information of the first text symbol that declares it |
| CallStack.TextSymbols | src/infrastructure.cpp:400-407 | Lines with the letters T and t count, with the address and size they print |
| CallStack.FirstStays | src/infrastructure.cpp:403-412 | A line that is the first of its address stays the one, whatever follows |
| CallStack.GetUnmovedFunc | src/infrastructure.cpp:425-439 | The functions BOLT did not move |
| CallStack.ChangeFuncToHeap | src/infrastructure.cpp:443-449 | The same entries in strict key order, whatever the iteration order |
| CallStack.LowerBound | src/infrastructure.cpp:502 | The first position whose key is not below the address |
| CallStack.GetFuncInCallStack | src/infrastructure.cpp:496-514 | Exactly the functions that are the greatest key strictly below some stack address that has a key at or above it |
| CallStack.LowerBoundOwner | src/infrastructure.cpp:502-504 | The entry before the lower bound owns the address, and no other does |
| CallStack.GetUnmovedFuncNotInCallStack | src/infrastructure.cpp:538-548 | The unmoved functions without a frame |
| CallStack.CallerIsOwner | src/infrastructure.cpp:501-509 | A return address, even one past the caller's end, is attributed to its caller if and only if the caller is not the last function |
| CallStack.OwnerUnique | src/infrastructure.cpp:502-504 | An address is attributed to at most one function |
| CallStack.ExposedExactly | src/infrastructure.cpp:496-548 | A function to be overwritten has an address strictly inside on a stack if and only if it is the last function, unmoved, with such a frame |
| CallStack.LastFunctionMissed | src/infrastructure.cpp:502-503 | A thread in the last of two functions protects none |
| CallStack.EntryIsMisattributed | src/infrastructure.cpp:502-504 | A thread on a function's first byte is attributed to the function before |
| CallStack.GetKeysToArray | src/utils.cpp:296-302 | Every key once |
| CallStack.GetMovedAddrToArray | src/utils.cpp:306-312 | Every moved address, one per function |
| Hex.ConvertStr2Long | src/utils.cpp:220-234 | The value of the string in base 16, wrapped to 64 bits |
| Hex.IsHex | src/utils.cpp:237-245 | True if and only if the word is non-empty and all lower-case hexadecimal digits |
| Hex.ConvertStr2Uint8 | src/utils.cpp:248-264 | The value of two characters in base 16 |
| Hex.OnlyLowerCase | src/utils.cpp:223-228 | Lower-case digits count, capital letters and punctuation add nothing |
| Hex.PrintedLongReadsBack | src/utils.cpp:288-293 | Every long, negative ones included, survives printing in base 16 and reading |
| Records.ParseYz | elf-extract/src/bin/nm.rs:100-114 | The parse of the file, or the panic or out-of-bounds read it ends in |
| Records.ParseOfEncode | elf-extract/src/bin/nm.rs:104-111 | Every sequence of records survives writing and parsing |
| Records.ParseOfTail | elf-extract/src/bin/nm.rs:105-111 | What follows whole records ends the parse as it would alone |
| Records.ParseCutOff | elf-extract/src/bin/nm.rs:106-108 | A record cut within the address or the length is read past the end, one cut between them or in the payload panics |
| Records.EncodeOfParse | elf-extract/src/lib.rs:27-31 | A file that parses is exactly what the writer makes of the parsed records |
| Records.ReadOfEncode | src/replace_function.cpp:101-107 | The insertion readers return the records before the first empty payload, and finish if and only if there is none |
| Records.ReadBack | src/replace_function.cpp:224-229 | Every sequence of records with non-empty payloads survives writing and reading |
| Records.ReadCutOff | src/replace_function.cpp:104-107 | A record cut within the address ends the stream, one cut in the length or before the payload ends the process, and one cut in the payload is filled up with what the buffer held |
| Records.NegativeLength | src/replace_function.cpp:105-106 | A length of 2^63 or more is a negative one |
| Records.EncodeAllAppend | elf-extract/src/lib.rs:61-63 | Files of records concatenate |
| Records.Layout | elf-extract/src/lib.rs:61-63 | A record is the address in eight bytes, the length in eight bytes, both least significant byte first, and the payload |
| Records.LayoutOfPatch | src/extract_machine_code.cpp:36-44 | The bytes of one patch in the file |
| Records.ReplayInside | src/replace_function.cpp:252-254 | A byte inside a record of a consistent stream is that record's byte |
| Records.ReplayOutside | src/replace_function.cpp:121-123 | A byte outside every record is unchanged |
| Records.OrderIrrelevant | src/replace_function.cpp:101-126 | Consistent streams with the same records, in any order and multiplicity, leave the same memory |
| Records.PermutationIrrelevant | src/replace_function.cpp:223-260 | Any permutation of disjoint records leaves the same memory |
| Records.TornBetween | src/replace_function.cpp:101-126 | Copying stopped at the edge of a record has replayed a prefix of the stream |
| Elf.IndexSymbols | elf-extract/src/lib.rs:115-122 | Each address with the last text symbol that has it |
| Elf.LastTextStays | elf-extract/src/lib.rs:116-121 | A later text symbol takes its address over, other symbols change nothing |
| Elf.WriteFunctions | elf-extract/src/lib.rs:49-64 | The records in the order asked, if and only if every symbol found can be sliced |
| Elf.FunctionRecordOf | elf-extract/src/lib.rs:49-64 | A record for each address that has a symbol, with its bytes, and for no other |
| Elf.FunctionReadExactly | elf-extract/src/lib.rs:55-59 | A function can be read if and only if it has a section that does not start above it and its bytes lie in the file; then those are read |
| Elf.FunctionBytesAreLoaded | elf-extract/src/lib.rs:54-59 | For a symbol within a loaded section, the address-to-offset translation finds the bytes the loader puts at its address |
| Elf.GetVtables | elf-extract/src/lib.rs:138-161 | Exactly the first v-table of each address, each address once |
| Elf.VtablesDue | elf-extract/src/lib.rs:168-181 | The v-tables are the symbols with the prefixes _ZTV and _ZTC that are not imported |
| Elf.VtableReadExactly | elf-extract/src/lib.rs:182-187 | A v-table can be read if and only if it has a section and its bytes lie in the file; then those are read |
| Elf.FirstTableStays | elf-extract/src/lib.rs:154-157 | The first v-table of an address stays when symbols follow |
| Elf.FirstTableFound | elf-extract/src/lib.rs:141-159 | Every address with a v-table has a first one |
| Elf.WriteVtable | elf-extract/src/lib.rs:21-32 | The file holds exactly those records |
| Elf.VtableBytesAreLoaded | elf-extract/src/lib.rs:182-187 | A v-table record holds the loaded bytes |
| Elf.UnloadedVtable | elf-extract/src/lib.rs:182-187 | The record of a v-table in zero-filled memory holds its bytes if and only if the stretch of the file taken for it is all zero |
| Elf.UnloadedVtableRead | elf-extract/src/lib.rs:182-187 | A file whose v-table in .bss is read as something else |
| Elf.RecordsFit | elf-extract/src/lib.rs:58-59 | No record is longer than the file |
| Insertion.PageVisited | src/replace_function.cpp:239-244 | A page is visited if and only if some record reaches it, overshoot of one page included |
| Insertion.PageWalk | src/replace_function.cpp:110-113 | The pages visited are the multiples of 4096 from the one at or below the address up to 4096 beyond the end |
| Insertion.AddressSpace.MapPages | src/replace_function.cpp:239-250 | Pages not owned yet are mapped, zeroed and writable; fails if and only if somebody else has one of them |
| Insertion.AddressSpace.UnlockPages | src/replace_function.cpp:110-119 | All pages of the record become writable; fails if and only if one is unmapped |
| Insertion.AddressSpace.Memcpy | src/replace_function.cpp:122-123 | The copy overlays the payload; it may only be called on writable pages |
| Insertion.AddressSpace.ReplayBolted | src/replace_function.cpp:221-260 | All records on fresh pages, if and only if the stream is well formed and none of its pages was mapped before: the phase never collides with itself |
| Insertion.AddressSpace.LockPages | src/replace_function.cpp:262-265 | Exactly the pages of the set become read-only and executable |
| Insertion.AddressSpace.InsertBoltedFunctions | src/replace_function.cpp:219-271 | The first phase: outcome and memory, or exit |
| Insertion.AddressSpace.InsertCodeToOrigTextSec | src/replace_function.cpp:99-127 | A later phase: outcome and memory, or exit |
| Insertion.AddressSpace.InsertMachineCode | src/replace_function.cpp:369-391 | The four phases in order; a missing file is skipped |
| Insertion.AddressSpace.InsertMachineCodeUntil | src/replace_function.cpp:369-386 | The four phases stopped after some records and some bytes of the next one |
| Insertion.InsertionEffect | src/replace_function.cpp:369-386 | The four phases succeed if and only if all streams are well formed, new pages are free and rewritten pages mapped; the result is one replay of all records |
| Insertion.NotStopped | src/replace_function.cpp:369-386 | Stopped after its last record, the library has done all it does |
| Insertion.StoppedEffect | src/replace_function.cpp:369-386 | Stopped anywhere, the library has copied a torn prefix of all records, the first of them to pages that were free |
| Insertion.PermissionOutcome | src/replace_function.cpp:262-265 | Afterwards a page reached by a later phase is RWX, another new-text page RX, every other as before; uncovered bytes of old pages are unchanged |
| Insertion.PermissionBits | src/replace_function.cpp:262-265 | New text that no later phase reaches can be read and executed and not written; rewritten pages can be read, written and executed |
| Insertion.NothingToInsert | src/replace_function.cpp:370-385 | Without files the insertion does nothing |
| Insertion.StaysMapped | src/replace_function.cpp:241-254 | No byte is written outside a mapped page |
| Injection.IsNum | src/utils.cpp:210-217 | True if and only if all characters are decimal digits |
| Injection.ConvertStr2Int | src/utils.cpp:198-207 | The decimal value of a string of digits |
| Injection.DecimalOfPrinted | src/utils.cpp:198-207 | Every number survives printing in base 10 and reading |
| Injection.ReadDirectory | src/ptrace_pause.cpp:19-30 | One pass adds exactly the threads named, each once, and reports whether there was a new one |
| Injection.PauseAndGetTids | src/ptrace_pause.cpp:5-33 | The scan ends; its result is every thread any pass named, once, and the last pass named none that was new |
| Injection.HijackedStackFits | src/ptrace_pause.cpp:115 | The stack pointer handed over is aligned as at a function entry and lies 264 to 279 bytes below the old one, clear of the red zone |
| Injection.Tracee.PtraceSingleStep | src/ptrace_pause.cpp:109-187 | The kernel is handed the library's address, the stack below and all other registers as they were; a thread is runnable if and only if it then stopped with signal 5 beyond that address, and refused if and only if it stopped otherwise and was reset |
| Injection.Tracee.PtraceCont | src/ptrace_pause.cpp:191-242 | Whatever signal stops the library, the thread gets back the registers saved before the hijack, or the tracer exits |
| Injection.Tracee.RunLibrary | src/tracer.cpp:108-114 | In the fields of the kernel's answers: the thread that runs is the first that is not refused, it stopped with signal 5 beyond the library's first byte, and no other runs; exactly when the tracer exits; otherwise all registers of all threads are as before |
| HookPass.CollectUses | hook-function-pointers-llvm/HookFunctionPointers.cpp:35-62 | Exactly the stores of functions that are neither intrinsic nor library functions |
| HookPass.IrFunction.Instrument | hook-function-pointers-llvm/HookFunctionPointers.cpp:102-122 | One store: a hook call in front, and every use of the picked function replaced |
| HookPass.IrFunction.RunPass | hook-function-pointers-llvm/HookFunctionPointers.cpp:32-122 | Exactly the wanted stores are hooked, each through its own local, and nothing else changes, in any order |
| HookPass.EachWantedHookedOnce | hook-function-pointers-llvm/HookFunctionPointers.cpp:102-122 | One hook call more for each wanted store, on its stored function if and only if the destination is no other function |
| HookPass.OthersStay | hook-function-pointers-llvm/HookFunctionPointers.cpp:50-56 | Stores of intrinsics and library functions, of anything but a function, and all other instructions stay as they were |
| HookPass.FunctionStoresHooked | hook-function-pointers-llvm/HookFunctionPointers.cpp:58-121 | Every other store of a function gets a hook call on it in front and stores its answer |
| HookPass.SecondRunHooks | hook-function-pointers-llvm/HookFunctionPointers.cpp:106-121 | A second run would hook exactly the stores into another function |
| HookPass.IdempotentExactly | hook-function-pointers-llvm/HookFunctionPointers.cpp:32-122 | The pass is idempotent if and only if no wanted store has another function as its destination |
| HookPass.NotIdempotent | hook-function-pointers-llvm/HookFunctionPointers.cpp:106-121 | A store of one function into another keeps its value unhooked, and a second run would hook it again |
| HookPass.PassPreservesMeaning | hook-function-pointers-llvm/HookFunctionPointers.cpp:102-122 | With a hook that returns its argument, a function and its rewrite pass through the same blocks and reach the same memory, after any number of blocks |
| HookPass.PassHidesMoves | hook-function-pointers-llvm/HookFunctionPointers.cpp:102-122 | With a hook that answers with the old places, a rewritten function in a world where functions have moved passes through the same blocks and reaches the same memory as the original did, if moved functions are mentioned by hooked stores only |
| Pointers.StoredPointersOriginal | hook-function-pointers-llvm/HookFunctionPointers.cpp:114-121 | After the replacement, with a hook that knows the new entries, a rewritten function leaves the pointers it left before: original entries |
| BuildServer.Server.Connection | build-accelerator/rca-clang/src/server/main.rs:158-196 | The server stays on some run of its state machine; a connection gets the optimised binary if and only if the build had finished by then, and profiling if and only if it is one of the first ten; the build starts with the eleventh, and all handlers so far are in phases |
| BuildServer.Server.Background | build-accelerator/rca-clang/src/server/main.rs:182-194 | The background thread, which may panic at any step, changes no connection, comes exactly where its steps lead, and sets the flag only by finishing |
| BuildServer.Server.Serve | build-accelerator/rca-clang/src/server/main.rs:153-203 | The accept loop beside the build: every usable connection is answered in turn, and the handlers come in phases |
| BuildServer.StepKeepsInv | build-accelerator/rca-clang/src/server/main.rs:149-196 | Each step of the server or of the background build keeps the invariant |
| BuildServer.EveryRun | build-accelerator/rca-clang/src/server/main.rs:149-196 | In every interleaving: ten profiled connections, then at least one plain one, then plain ones until only the optimised binary; each with its handler's answer; the build starts at most once, with the eleventh connection, and the flag means it finished |
| BuildServer.RepliesByPhase | build-accelerator/rca-clang/src/server/main.rs:15-68 | In every run: of the first ten clients those that announce an invocation are told to profile, the others and later ones to run plainly, and from the end of the build on only to run the optimised binary |
| BuildServer.Answers | build-accelerator/rca-clang/src/server/main.rs:22-63 | The answer of each handler to each text |
| BuildServer.EveryPhasingRuns | build-accelerator/rca-clang/src/server/main.rs:149-196 | Each such sequence of handlers is that of some run |
| BuildServer.WaitFor | build-accelerator/rca-clang/src/server/main.rs:93-103 | Every started child has been waited for |
| BuildServer.StartChild | build-accelerator/rca-clang/src/server/main.rs:77-91 | One child more, on the right pair of files |
| BuildServer.GeneratePerfFdata | build-accelerator/rca-clang/src/server/main.rs:71-105 | At every moment at most four children are unwaited; they are waited for in rounds of four and once more at the end; on return each was started once, on its pair of files, and waited for once, in order |

## Left out

Members whose contract says less than one might ask:

- Tracer.ReplaceCode: says nothing about memory when the tracer or the process exits; copies are taken to proceed byte by byte, in order.
- Tracer.ReplaceCodePreservesBehaviour: assumes that each patched distance is encodable and that the last function is quiet, because the code is wrong otherwise (`Patching.PatchReaches`, `LastFunction.QuietIsNeeded`).
- Tracer.CutShortPreservesBehaviour: leaves out stops within an overwritten function, within a cell of a v-table, and within a patch that then calls neither function, because the code is wrong there (`Example.TornPatchMisleads`).
- CallSites.ScanFunction: asks for a non-empty listing; on an empty one the loop bound of `src/extract_call_sites.cpp:47` wraps around and the loop reads out of bounds.
- Injection.PauseAndGetTids: does not claim that every thread was found; a thread created after the last pass is missed, and attaching and waiting are not modelled.
- Injection.Tracee.PtraceSingleStep: leaves the registers open when the tracer exits.
- CallStack.GetFuncInCallStack: asks for a function below each stack address, because `prev` of the first position is undefined there.
- Elf.WriteFunctions: says nothing about the part of the file written before a panic; additions of offsets wrap as in a release build.
- Records.ParseYz: reads of eight bytes at unaligned addresses are taken to work.
- Injection.ConvertStr2Int: the `long` does not overflow.
- Insertion.AddressSpace.InsertMachineCode: `mmap` and `mprotect` fail for no other reason than the page being taken or missing, page addresses do not overflow, and the log file opens (otherwise the code closes a null file).
- BuildServer.EveryRun: the `int` counter does not overflow, and a handler whose text is not UTF-8 or whose socket fails ends the run.

Parts of the system that are not modelled:

- Instructions other than direct calls, jumps, conditional jumps on a zero flag, returns, calls through an absolute 8-byte cell, calls through one register, the creation of a function pointer, and one-byte operations.
- The hook function itself, which the repository does not have: it is taken to answer with the original entry.
- A BOLTed call that never returns: code after a call is assumed to correspond.
- The machine has no caches and stores no code; operations act on an abstract shared data state, and faults only stop a thread.
- The insertion library runs while no other thread moves, so its memory effect is stated after the registers are restored.
- `perf`, `perf2bolt`, `llvm-bolt`, `nm` and `objdump` invocation, the parsing of `llvm-bolt`'s report, configuration and sockets: I/O; their results are inputs.
- libunwind and the kernel: stack addresses and the outcomes of `ptrace` and `waitpid` are inputs.
- The correctness of BOLT, the ELF parsing library, and the Boost archives between extractor and tracer, which are taken to restore their maps.
- Uninitialised stack memory is one fixed content per phase.
- Overflow of C++ `long` in the hexadecimal conversions is undefined behaviour in principle and wraps here.
- `get_v_table` and the file of on-stack functions for a later round, which the replacement does not use.
- LLVM types, casts and pass registration; the hook pass works on a small intermediate representation.
- Debug-only code, logging and time measurement.
