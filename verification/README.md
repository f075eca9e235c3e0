# Verified model of the header logic

This project models the four C-library headers of the repository that contain logic, and proves
properties of the model with Dafny 4.11. `dafny verify dfyconfig.toml` checks everything.

**Object stacks** (`chapter03/share/obstack.h`). An obstack builds one object at a time at the top of a
chunk of memory, fixes it in place when it is finished, and unwinds by freeing an object and everything
above it. `ObstackModel` gives memory as a map from addresses to bytes, the chunk chain, the control
block, and what each macro does to them. `ObstackProofs` shows what each operation keeps, `ObstackRuns`
what holds of whole runs, `ObstackTheorems` what follows for every reachable state, `ObstackCalls`
exactly when a single call moves the object, allocates a chunk or gives one back, `ObstackShared` that
any number of obstacks can share one memory, and `ObstackFast` that the unchecked growths refine the
checked ones. `ObstackMacros` is the code itself: methods that update the control block and the heap in
place, in the GNU C and in the portable macro set, each verified against `ObstackModel`. `Align` has the
mask arithmetic.

The finished objects and the growing one are history variables beside the control block: `Represents`
says that the chunk chain and the pointers hold exactly that stack. A run mixes uses of the macros with
the client changing its own memory and storing into its objects. Chunk allocation and the contents of
fresh memory are parameters (`Grant`): any block of unmapped memory that is large enough, whatever it
contains.

`_obstack_begin`, `_obstack_newchunk` and `__obstack_free` are only declared in the header; obstack.c is
not part of this model. Their methods have bodies written from what the header says of them: the new
chunk takes the partly built object at its start (lines 78-81), the old chunk is given back unless
`maybe_empty_object` is set or the object is not the first thing in it (lines 173-176), and freeing
unwinds the chain to the chunk the address belongs to (lines 96-98).

**Cancellation-cleanup blocks** (`chapter03/share/pthread.h`). `Cleanup` has programs of nested blocks
and what a thread running one does, cancelled at any step of any body or never; `CleanupBreaks` says what
an uncancelled thread does in each form, what `break` comes to, and when the forms agree;
`CleanupTheorems` relates the nested blocks to an explicit stack of handlers and says what a cancellation
runs; `CleanupForms` is the three ways the macros are written, as code over mutable frames, jump buffers
and threads. The intent is that of POSIX.1-2008, section 2.9.5.3 of XSH.

**Feature-test macros** (`chapter03/share/features.h`). `Features` has the macro environment, the
sequence of `#undef` and `#define` steps as methods that rewrite it, and a closed form of the result;
`FeaturesTheorems` proves or refutes what the header's comments promise.

**argz vectors** (`chapter03/share/argz.h`). `Argz` has the encoding, the cursor step, and the two
documented loops.

Some documented or natural expectations turn out not to hold without a condition, and the model proves
the exact one:

- Feature macros are meant to add up (features.h lines 66-68). A user who defines
  only `_ISOC99_SOURCE` gets POSIX.1-2008 by implication, and loses it by adding `_POSIX_SOURCE`
  (`AccumulationCanFail`). `AccumulationHolds` gives the exact class of settings that accumulate.
- A thread macro is documented as equivalent to `_POSIX_C_SOURCE=199506L` (features.h lines 58-59). That
  is so exactly under the condition of `ThreadsAreALevel`; a user who defines nothing else gets
  POSIX.1-2008 with the one and loses it with the other.
- `maybe_empty_object` says that the current chunk may have a zero-length object. Without frees it is
  exact, and no chunk is kept for nothing (`NoChunkForNothing`). After frees it can be out of date
  (`KeptForNothing`); `StaysTight` says at exactly which steps a chunk is then kept for nothing.
- The two loops of argz.h (lines 112-125) differ on an empty vector given by a pointer that is not null
  (`LoopsAgree`).
- The scope forms and the jump-buffer form of a cleanup block differ when a block is left by `break`,
  except for a plain block whose handler is to be executed anyway (`BreakAgreesWhen`, for any body whose
  nested blocks break safely). For whole programs `BreaksSafely` is sufficient but not necessary
  (`SafetyNotNeeded`); the exact condition, a check of the program's text for each initial cancel type,
  is `AgreesFrom` (`FormsAgreeExactly`).

Two more exact conditions: an object can be grown from its own bytes exactly when that does not replace
its chunk (`GrowingSource`), and the two strategies of `__PTR_ALIGN` agree exactly when the base is
aligned (`PtrAlignFormsAgree`).

## Model

| member | source | states |
|---|---|---|
| Align.AndMask | chapter03/share/obstack.h:223-225 | `&` with a power-of-two mask, computed bit by bit, is the remainder |
| Align.AndNotMask | chapter03/share/obstack.h:119-123 | `& ~mask` drops exactly the remainder, for every integer |
| Align.BptrAlignLeast | chapter03/share/obstack.h:119-123 | the mask formula gives the least address at or above P a whole number of steps of A+1 from B |
| Align.BptrAlignIdempotent | chapter03/share/obstack.h:119-123 | aligning twice is aligning once |
| Align.BptrAlignMonotone | chapter03/share/obstack.h:119-123 | aligning keeps the order of addresses |
| Align.PtrAlignFormsAgree | chapter03/share/obstack.h:125-134 | the base-0 and base-B strategies agree if and only if B is aligned |
| ObstackProofs.ReplacedHoldsNothing | chapter03/share/obstack.h:173-176 | if the flag is clear and the base is at the start of contents, the chunk owns no live object, not even a zero-length one, so giving it back loses none |
| ObstackProofs.NewChunkKeeps | chapter03/share/obstack.h:78-81 | relocation keeps every finished object at its address in its chunk and moves the growing bytes intact |
| ObstackProofs.AppendKeeps | chapter03/share/obstack.h:296-304 | storing at `next_free` appends to the growing object and touches neither finished objects nor client memory |
| ObstackProofs.SkipKeeps | chapter03/share/obstack.h:359-366 | a blank appends the bytes that are already there |
| ObstackProofs.FinishKeeps | chapter03/share/obstack.h:388-401 | finishing pushes the growing bytes at the address they lie at; the next object starts aligned or at the clamped limit |
| ObstackProofs.FreeKeeps | chapter03/share/obstack.h:403-409 | freeing a live object by either path leaves exactly the objects before it, an empty object growing at its address, its chunk current and client memory as it was |
| ObstackProofs.FillKeeps | chapter03/share/obstack.h:71-76 | a client store into one live object changes no other |
| ObstackRuns.Step | chapter03/share/obstack.h:296-409 | every step of a run keeps the representation invariant |
| ObstackRuns.Run | chapter03/share/obstack.h:296-409 | every run, of any length and any allocator answers, ends in a state that represents its history |
| ObstackRuns.StepRefines | chapter03/share/obstack.h:296-409 | every use of a macro is its step of an abstract stack of byte strings, call by call: what it appends, whether it finishes the object, and that it then returns that object's address; memory afterwards holds what the stack says |
| ObstackRuns.FinishedStays | chapter03/share/obstack.h:28-32 | over any run that does not free it, a finished object and all below it keep address, size and chunk, and memory holds their bytes, unchanged unless the client itself stored into that very object |
| ObstackRuns.UnwindRestores | chapter03/share/obstack.h:96-98 | freeing an object after any run that did not free it, whatever was stored where, leaves exactly the objects below it, each in place, the chunk that held it and its address as base |
| ObstackRuns.FinishThenFree | chapter03/share/obstack.h:96-98 | finishing an object, any run that does not free below it, stores included, and freeing it gives back the objects before it in place and the chunk chain it was finished in |
| ObstackCalls.NewChunkExactly | chapter03/share/obstack.h:173-176 | the old chunk is given back, all of it, if and only if the flag is clear and the growing object was first in it; otherwise it stays in chain and memory; the object goes to the first clear address of the granted block |
| ObstackCalls.RoomIsMade | chapter03/share/obstack.h:280-286 | after `obstack_make_room` there is room for what was asked, objects as before; nothing changes at all if and only if there was room |
| ObstackCalls.MovesOnlyWhenFull | chapter03/share/obstack.h:296-378 | a growing or finishing call leaves the object in place if and only if, at its new length, it fits the chunk; memory then changes at most at the added bytes, and not for blanks |
| ObstackCalls.NextStarts | chapter03/share/obstack.h:388-401 | after a finishing call the next object is empty and starts at the least clear address from the end of the finished one, or at the chunk limit if that comes first |
| ObstackCalls.FreeExactly | chapter03/share/obstack.h:403-409 | freeing any address leaves its chunk current, exactly the client's memory and the remaining chunks mapped and unchanged, and sets the flag if and only if it was set or an older chunk is gone back to |
| ObstackCalls.StaysTight | chapter03/share/obstack.h:173-176 | if every older chunk has a live object in it, a step, free or not, keeps that so if and only if it does not leave an unused chunk while the flag is set |
| ObstackCalls.NoChunkForNothing | chapter03/share/obstack.h:173-176 | over any run without frees every older chunk has a live object in it, and the flag is set if and only if the current one has a zero-length object |
| ObstackCalls.EmptiedAgain | chapter03/share/obstack.h:288-294 | build anything in a new obstack and free the oldest object: `obstack_empty_p` holds again |
| ObstackCalls.KeptForNothing | chapter03/share/obstack.h:173-176 | after a zero-length object was finished and freed, a growth that does not fit keeps an unused chunk |
| ObstackTheorems.BeginRepresents | chapter03/share/obstack.h:228-246 | a new obstack is empty, represents the empty stack and owns only its chunk |
| ObstackTheorems.ReachableInv | chapter03/share/obstack.h:228-409 | every state a run of a new obstack reaches has the invariant that the results below assume |
| ObstackTheorems.PointersInOrder | chapter03/share/obstack.h:146-180 | contents <= object_base <= next_free <= chunk_limit |
| ObstackTheorems.EachInOneChunk | chapter03/share/obstack.h:146-180 | each live object lies in the contents of exactly one live chunk |
| ObstackTheorems.Disjoint | chapter03/share/obstack.h:88-93 | live objects and the growing one occupy pairwise disjoint ranges |
| ObstackTheorems.Aligned | chapter03/share/obstack.h:223-225 | every object with a byte in it starts at an address clear in the mask; an unaligned address is the limit of its chunk |
| ObstackTheorems.EmptyPMeans | chapter03/share/obstack.h:288-294 | `obstack_empty_p` holds if and only if there is one chunk and nothing with a byte in it |
| ObstackTheorems.RunConserves | chapter03/share/obstack.h:34-37 | over any run, mapped memory is the client's, byte for byte as the client last left it, plus the chunks in the chain: no leak, no stray write |
| ObstackShared.RunTurns | chapter03/share/obstack.h:94-95 | any interleaving of any number of obstacks over one memory keeps each one's invariant and their chunks apart |
| ObstackShared.InterleavedIsOwnRun | chapter03/share/obstack.h:94-95 | to each obstack an interleaving is a run of its own, so every result about runs holds of it |
| ObstackShared.OthersMoveNothing | chapter03/share/obstack.h:94-95 | nothing other obstacks or the client do elsewhere moves or changes a finished object |
| ObstackTheorems.FreeForeign | chapter03/share/obstack.h:403-409 | freeing an address in no chunk, or null, gives back every chunk; any other leaves its chunk current |
| ObstackTheorems.GrantExists | chapter03/share/obstack.h:34-37 | whatever is mapped, some fresh block serves the allocator's call, so no growth is ever stuck |
| ObstackTheorems.LiveSource | chapter03/share/obstack.h:374-378 | a live object can always be the source of a copy or growth and is read correctly, even when a chunk is replaced |
| ObstackTheorems.GrowingSource | chapter03/share/obstack.h:296-304 | growing an object from its own bytes is allowed if and only if its chunk is not replaced |
| ObstackFast.FastIsChecked | chapter03/share/obstack.h:254-256 | with room for all of them, unchecked growths equal checked ones, stay below the limit and never move the object |
| ObstackFast.FastAfterMakeRoom | chapter03/share/obstack.h:280-286 | after `obstack_make_room` for n bytes, fast growths of at most n bytes in all, blanks among them, stay in the chunk, never move the object, equal the checked ones and store their bytes at their places |
| ObstackFast.FastBuildsSame | chapter03/share/obstack.h:254-256 | they build what checked growths build without making room: as long, and equal but for the unspecified bytes of blanks |
| ObstackFast.PointerReadsBack | chapter03/share/obstack.h:343-349 | a stored pointer reads back as itself |
| ObstackFast.IntReadsBack | chapter03/share/obstack.h:351-357 | a stored int reads back as itself, sign included |
| ObstackMacros.Heap.Memcpy | chapter03/share/obstack.h:302-303 | the byte loop copies exactly the source range and changes nothing else |
| ObstackMacros.Obstack.NewChunk | chapter03/share/obstack.h:184-184 | the code for the new chunk does what ObstackModel says |
| ObstackMacros.Obstack.OutOfLineFree | chapter03/share/obstack.h:197-197 | the chain walk stops at the owning chunk and gives back exactly the newer ones |
| ObstackMacros.Obstack.GnuCall | chapter03/share/obstack.h:260-409 | each GNU C macro has the modelled effect and returned address |
| ObstackMacros.Obstack.PortableCall | chapter03/share/obstack.h:411-507 | each portable macro has the same |
| ObstackMacros.Simulate | chapter03/share/obstack.h:260-509 | the two macro sets, on separate heaps, stay in equal states and return equal addresses over any list of calls |
| CleanupBreaks.FormsAgree | chapter03/share/pthread.h:527-703 | on programs that break safely the scope and jump-buffer forms give the same trace, cancel type and outcome, cancelled anywhere or never |
| CleanupBreaks.FormsAgreeExactly | chapter03/share/pthread.h:527-703 | for every program and initial cancel type, the forms agree in all worlds if and only if a check of its text succeeds |
| CleanupBreaks.BreakAgreesWhen | chapter03/share/pthread.h:655-667 | a block left by `break`, whatever its body (nested blocks breaking safely), agrees between the forms if and only if it is plain and its handler is to be executed |
| CleanupBreaks.NormalExit | chapter03/share/pthread.h:583-608 | a thread that is not cancelled does, over its whole program and in order, exactly its actions and the handlers popped with non-zero `execute` (and those of blocks left by `break`), each under the type its text says |
| CleanupBreaks.BreakIsFallingThrough | chapter03/share/pthread.h:661-667 | in the jump-buffer form every program, in every world, does what the same program with its bodies cut at their breaks does in the scope form |
| CleanupBreaks.JumpNormalExit | chapter03/share/pthread.h:697-703 | so an uncancelled thread in that form runs the handlers popped with non-zero `execute`, of blocks left by `break` too, and ends with the type its text says |
| CleanupTheorems.FlatProgram | chapter03/share/pthread.h:545-560 | nested blocks, breaks and all, behave as an explicit stack of frames pushed and popped by flat code |
| CleanupTheorems.CancelRunsOpenHandlers | chapter03/share/pthread.h:591-608 | over the whole run of any program, a thread runs the handlers popped with non-zero `execute` or left by `break` before it is cancelled, then exactly those still open, innermost first, once each, under the type each finds, and nothing else |
| CleanupTheorems.CancelledIsPrefix | chapter03/share/pthread.h:590-593 | up to the cancelled step a thread has done what it would have done uncancelled, under the same type |
| CleanupTheorems.BlockPop | chapter03/share/pthread.h:623-629 | a block left at its end runs its handler last, if and only if `execute` is not zero, and a deferred one under the type from before the push, which stays in force unless the handler sets another |
| CleanupTheorems.JumpBlockPop | chapter03/share/pthread.h:694-703 | in the jump-buffer form so does a block left at its end or by `break` |
| CleanupTheorems.TypeRestored | chapter03/share/pthread.h:614-629 | deferred blocks put back the cancel type however they nest and whatever is done in them |
| CleanupTheorems.JumpTypeRestored | chapter03/share/pthread.h:694-703 | in the jump-buffer form they do so even if left by `break` |
| CleanupTheorems.DeferredThroughout | chapter03/share/pthread.h:611-622 | the body of a deferred block runs in deferred mode throughout if nothing in it sets the type |
| CleanupForms.Thread.RunClasses | chapter03/share/pthread.h:527-576 | the C++ form, over a mutable frame object with a destructor, does what the model says |
| CleanupForms.Thread.RunFrames | chapter03/share/pthread.h:583-629 | so does the form with the cleanup attribute |
| CleanupForms.Thread.Unwind | chapter03/share/pthread.h:648-652 | walking the registered buffers runs their handlers innermost first and empties the list |
| CleanupForms.Thread.RunJumps | chapter03/share/pthread.h:640-703 | the jump-buffer form leaves the registered list as it was, or, cancelled, has run every registered handler |
| CleanupForms.RunAllForms | chapter03/share/pthread.h:525-703 | three threads running one program in the three forms: the two scope forms end alike, and the third with them where the text says that the forms agree |
| Features.Preprocessor.Resolve | chapter03/share/features.h:119-393 | the sequence of steps gives the closed form, from every environment |
| FeaturesTheorems.PosixDefinedWhen | chapter03/share/features.h:271-343 | each POSIX flag, if and only if a condition on the user's own macros and literal levels |
| FeaturesTheorems.XopenDefinedWhen | chapter03/share/features.h:345-369 | the same of each X/Open flag |
| FeaturesTheorems.IsoDefinedWhen | chapter03/share/features.h:230-269 | the same of each ISO C flag, the compiler's language levels among the conditions |
| FeaturesTheorems.OthersDefinedWhen | chapter03/share/features.h:371-393 | the same of the remaining flags |
| FeaturesTheorems.LevelInTheEnd | chapter03/share/features.h:274-311 | the final value of `_POSIX_C_SOURCE` from the user's own macros |
| FeaturesTheorems.SourcesInTheEnd | chapter03/share/features.h:185-228 | what every other macro of the user is in the end |
| FeaturesTheorems.XopenAlone | chapter03/share/features.h:43-45 | what `_XOPEN_SOURCE` alone gives at 500, 600 and 700, and not below |
| FeaturesTheorems.PosixAlone | chapter03/share/features.h:38-42 | what `_POSIX_C_SOURCE` alone gives at each documented level, and not below |
| FeaturesTheorems.ThreadsAlone | chapter03/share/features.h:306-311 | what a thread macro alone gives under `__STRICT_ANSI__`: POSIX.1c-1995 and nothing newer |
| FeaturesTheorems.GnuTurnsAllOn | chapter03/share/features.h:192-216 | `_GNU_SOURCE` gives every flag but the compiler's, whatever else is defined |
| FeaturesTheorems.ThreadsNeverLower | chapter03/share/features.h:300-311 | `_REENTRANT` and `_THREAD_SAFE` never lower the POSIX level or take a flag away |
| FeaturesTheorems.ThreadsAreALevel | chapter03/share/features.h:58-59 | a thread macro comes to the same features as `_POSIX_C_SOURCE=199506L` if and only if the user's other macros keep the header from choosing a newer level, or that level brings nothing |
| FeaturesTheorems.ResolvedTwice | chapter03/share/features.h:119-393 | resolving twice is resolving once |
| FeaturesTheorems.FlagsImply | chapter03/share/features.h:313-369 | the flags imply one another as the standards do, for every level |
| FeaturesTheorems.Xpg7WithoutThreads | chapter03/share/features.h:323-369 | exactly when `__USE_XOPEN2K8` comes without `__USE_POSIX199506` |
| FeaturesTheorems.AccumulationHolds | chapter03/share/features.h:61-68 | settings accumulate over every way of defining more if and only if `Accumulates` |
| FeaturesTheorems.AccumulationCanFail | chapter03/share/features.h:271-298 | an environment in which adding a macro takes POSIX.1-2008 away |
| FeaturesTheorems.DefaultAccumulates | chapter03/share/features.h:61-68 | with `_DEFAULT_SOURCE` nothing is lost by asking for more |
| Argz.ArgzNext | chapter03/share/argz.h:131-145 | the cursor goes past the next NUL, to null at the end, and to the first entry from null |
| Argz.NextIsNextStart | chapter03/share/argz.h:131-145 | wherever the cursor points, the next one is the least string start after it, null if there is none |
| Argz.WhileLoop | chapter03/share/argz.h:116-118 | the first loop terminates and visits exactly the starts of the strings |
| Argz.ForLoop | chapter03/share/argz.h:120-124 | so does the second, but for an empty vector that is not null |
| Argz.LoopsAgree | chapter03/share/argz.h:112-125 | the loops agree if and only if the pointer is null or the length is positive |
| Argz.DecodeEncode | chapter03/share/argz.h:112-125 | reading the vector of a list of NUL-free strings gives the list |
| Argz.EncodeDecode | chapter03/share/argz.h:112-125 | every NUL-closed vector is the vector of the strings read from it, which are NUL-free |
| Argz.VisitsExactly | chapter03/share/argz.h:112-125 | the walk visits each string of the list in order, as many as there are NULs |
| Argz.BothLoops | chapter03/share/argz.h:116-124 | both loops, with null for the empty list, visit exactly the list |

## Left out

- Chunk sizes: `chunk_size` is not modelled; a fresh block may have any size that is large enough, so the proofs do not depend on the sizing rule of obstack.c.
- Allocation failure, `obstack_alloc_failed_handler`, negative lengths, overflow of `int` and of pointers, and function-pointer casts.
- Chunk headers as bytes: `limit` and `prev` are written once when a chunk is linked in, so the chain is an inductive list rather than pointers read from memory; a client that overwrites a header is not modelled.
- The `abort` of obstack.c on an address in no chunk; the model only says that every chunk has then been given back.
- `obstack_object_size` and `obstack_room`, which are subtractions, and `_obstack_memory_used`, which has no body in the header.
- Word order: pointers and ints are stored least significant byte first, in 8 and 4 bytes, and chunk headers take 16 bytes.
- The narrow-pointer strategy of `__PTR_ALIGN` in the obstack itself: the obstack uses the base-0 strategy, and `PtrAlignFormsAgree` says when they are the same.
- Cancellation elsewhere than at body steps: signal delivery, cancellation inside a handler or inside the pop sequence, and C++ exceptions thrown by handlers.
- Leaving a block by `return` or `goto`, which POSIX leaves undefined; only `break` out of the innermost block is modelled.
- `__pthread_register_cancel` and its relatives have no body in the header; they are modelled by what the comments on the macros require.
- Feature macros are modelled by whether they are defined; only the ones compared with a level carry a value. The fortify, `gets`, `scanf` and compiler-version tests of features.h after line 394 are left out.
- The clean slate of features.h is grouped by family of flags, and the tests for XPG6 and XPG7 stand beside that for XPG5 instead of inside it, which is the same since a level of 600 is at least 500.
- The other argz and envz operations, which the headers describe only in comments.
- The repository's other headers, which declare functions and constants, and its hello-world program.
