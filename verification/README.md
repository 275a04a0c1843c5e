# Verified models of four C and C++ headers

Most headers of this repository only declare things. Four contain logic of their own, and
this Dafny project models that logic and proves what the headers promise about it.

**Cancellation cleanup handlers (`include/pthread.h`).** `pthread_cleanup_push`/`pop` and
`push_defer_np`/`pop_restore_np` expand in three ways: a C++ scope object, a frame variable
with a cleanup attribute, and a `sigsetjmp` buffer that is registered and unregistered.

- `CleanupLanguage.dfy` has the code that uses the macros (one path through it: steps, cancellation
  points, direct `pthread_setcanceltype` calls, `pthread_exit`, nested blocks), and
  `CleanupSemantics.dfy` what running it does. Cancellation is a clock: it strikes at instant number `clock` of the run if it can act there
  (at a cancellation point, or anywhere under the asynchronous type). The results hold for every clock, and
  `CleanupPending.dfy` proves that a request that stays pending until it can act is one of the clocks.
- `CxxCleanup.dfy` and `GnuCleanup.dfy` run the two scoped expansions in place on a thread
  (`CancelThread.dfy`), with their frame objects and fields.
- `JumpMachine.dfy` compiles the third to flat code with a re-entry point per push for a machine with jump
  buffers, `JumpCorrectness.dfy` proves that the machine does what the structured meaning says, and
  `JumpCleanup.dfy` runs it in place.
- `CleanupTimeline.dfy` says independently what the macros promise: a timeline of the uncancelled run
  that lists, for every instant, the handlers installed there. Runs are proved equal to it.
  `CleanupProperties.dfy` draws the consequences for whole runs.
- `CleanupAgreement.dfy` and `CleanupExpansions.dfy` compare the expansions.

The expansions do *not* always agree. Under asynchronous cancellation the `sigsetjmp` expansion loses a
handler that the scoped ones run when cancellation strikes between `__pthread_unregister_cancel` and the
`if (execute)` call (lines 689-691 and 725-727), or inside a push after the point where the scoped frame
exists but before the buffer is registered (lines 670-679 and 705-714). Every push, plain or deferring, has that
instant. `LostAt` names the losing instants from the code alone, and the expansions agree at all other instants
that are modelled; the two places without an instant of their own add no outcome (`BetweenInstants`). `Exposed`
tells which code has a losing instant at all; code that keeps the default type has none.

**Feature-test macros (`include/features.h`).** `FeatureMacros.dfy` declares what the header concludes from
the macros a user defined; `FeatureResolver.dfy` goes through the header directive by directive, overwriting
the macro table, and is proved to reach that conclusion; `FeatureProperties.dfy` proves what the comments
promise, and `FeatureTables.dfy` the table of what each macro brings, value by value. Four things differ from what the comments say or one may expect, and the code is followed:

- "If more than one of these are defined, they accumulate" (line 65) does not always hold. `AccumulateExactly` says
  for any two selections, one growing into the other, whether they accumulate. Macros that do not name a standard
  always do. Each of `__STRICT_ANSI__`, `_ISOC99_SOURCE`, `_ISOC11_SOURCE`, `_POSIX_SOURCE`, `_POSIX_C_SOURCE` and
  `_XOPEN_SOURCE` can take features away, because it can switch the default off or replace an implied POSIX level.
- Adding `_GNU_SOURCE` only adds features, but `__USE_POSIX_IMPLICITLY` disappears where POSIX had been implied.
- "If nothing (other than _GNU_SOURCE and _DEFAULT_SOURCE) is defined" (line 213) overlooks `_ISOC95_SOURCE`,
  which no directive ever tests.
- An empty body is tolerated where a directive says `(X - 0)`, but `_POSIX_C_SOURCE`, `_FILE_OFFSET_BITS` and
  `_FORTIFY_SOURCE` are also compared as they stand, which is an error when they are empty.

**`StringPiece` (`include/pcre_stringpiece.h`).** `ByteOrder.dfy` has the lexicographic order of unsigned
bytes; `Windows.dfy` has trimming; `StringPieces.dfy` has the class over arrays, with `memcmp` and `strlen` as loops.

**`RE_Options` (`include/pcrecpp.h`).** `OptionWord.dfy` has the packed option word, modelled as the set of
the positions of its one bits with `|`, `&` and `~` on such sets, the setters, and any run of them.

Assumptions about code that is not in the repository: `__pthread_register_cancel` (and `_defer`) adds a buffer
to the end of the thread's list, the `_defer` variant also saves the type and sets it to deferred;
`__pthread_unregister_cancel` (and `_restore`) takes the last buffer off, the `_restore` variant also restores
the type saved in it; cancellation, `pthread_exit` and `__pthread_unwind_next` jump to the last buffer of the
list, or end the thread. Each of these is one atomic step. Objects and frame variables of open scopes are
destroyed, innermost first, when a thread is unwound. What `sys/cdefs.h` defines is a parameter.

## Model

| member | source | states |
|---|---|---|
| CleanupExpansions.RunAll | include/pthread.h:549-740 | Running the three expansions on equal threads: the two scoped ones always agree; the sigsetjmp one agrees if and only if the instant of cancellation is not a losing one, and otherwise differs by one missing handler call; in a thread of default type all three agree |
| CleanupAgreement.ExpansionsAgree | include/pthread.h:576-740 | For all code and every instant: both styles end the same way with the same type, and with the same trace except at losing instants, where exactly one handler call is missing |
| CleanupAgreement.AgreeEverywhere | include/pthread.h:576-740 | The styles agree at all instants if and only if the code never pushes, nor pops a plain block with nonzero `execute`, while the type is asynchronous |
| CleanupAgreement.DefaultTypeAgrees | include/pthread.h:576-740 | Without direct type changes in a deferred thread, the expansions have one meaning at every instant |
| CleanupAgreement.LostHandler | include/pthread.h:686-692 | A concrete lost handler, between unregistering and the call |
| CleanupAgreement.LostInPush | include/pthread.h:591-593 | Struck inside a push, the scoped styles call the handler and the sigsetjmp style does not |
| CleanupAgreement.LostOnRestore | include/pthread.h:598-600 | Struck after the type was restored and before the flag is set, the scoped styles call the handler even for zero `execute`, the sigsetjmp style does not |
| CleanupTimeline.RunIsTimeline | include/pthread.h:569-584 | Every run, cancelled anywhere or not, is the walk along its timeline |
| CleanupTimeline.CutShort | include/pthread.h:569-574 | A cancelled or exiting thread has done what comes before the cut and then the handlers of the blocks open there, innermost first, once each, and no other; the cut is the first pthread_exit or the struck instant, whichever comes first |
| CleanupTimeline.CompletedTrace | include/pthread.h:576-584 | A completed run did exactly what its timeline lists, in that order, so each handler called by a pop comes after its block's body and before what follows the block |
| CleanupPending.ActsAtFirst | include/pthread.h:513-519 | A pending request acts at the first enabled instant from its arrival on, by position in the timeline |
| CleanupPending.ActsNowhere | include/pthread.h:513-519 | Where there is no such instant before the code ends, it does not act |
| CleanupPending.PendingRunIsRun | include/pthread.h:513-514 | A request that arrives at any instant and stays pending acts as one of the clocks does |
| CleanupPending.PendingAgree | include/pthread.h:549-740 | With a pending request the expansions look the same to an observer if and only if the instant at which it comes to act is not a losing one |
| CleanupProperties.HandlersOfCompletedRun | include/pthread.h:580-584 | On normal completion the handlers called are those whose pop had nonzero `execute`, once each, in pop order |
| CleanupProperties.WorkOfCompletedRun | include/pthread.h:576-584 | A completed run did all work of its code, once and in order |
| CleanupProperties.DirectCallDecides | include/pthread.h:509-511 | After a direct pthread_setcanceltype the next step is done under the type asked for |
| CleanupProperties.ExitDecides | include/pthread.h:569-574 | pthread_exit ends the thread wherever it is called |
| CleanupProperties.CancelledExactly | include/pthread.h:516-519 | Deferred code is cancelled at its cancellation points and nowhere else |
| CleanupProperties.StruckBetween | include/pthread.h:513-519 | Under the asynchronous type cancellation can strike between any two steps, and at a cancellation point under either type |
| CleanupProperties.StruckBeforePop | include/pthread.h:582-584 | Struck at the end of its body, a block of either style calls its handler whatever `execute` is |
| CleanupProperties.RestoresType | include/pthread.h:595-601 | A completed push_defer_np/pop_restore_np block leaves the type it found whatever its body did, and its handler runs last under that type |
| CleanupProperties.StaysDeferred | include/pthread.h:587-593 | Deferred code without direct type changes sees only the deferred type, also while unwinding |
| CleanupProperties.DeferredInside | include/pthread.h:587-601 | Under a deferring block everything happens under the deferred type, except for the block's own handler at its end |
| CleanupSemantics.CompletedRun | include/pthread.h:576-601 | A completed run passed every instant, has the statically known type and only added to the trace |
| CxxCleanup.Execute | include/pthread.h:552-601 | The C++ expansion, with its object's fields, constructor and destructor, does what the scoped meaning says |
| CxxCleanup.CleanupObject.Destroy | include/pthread.h:562 | The destructor calls the handler if and only if the flag is nonzero |
| CxxCleanup.CleanupObject.Defer | include/pthread.h:564-565 | Saves the old type and sets the deferred one |
| CxxCleanup.CleanupObject.Restore | include/pthread.h:566 | Sets the saved type |
| GnuCleanup.Execute | include/pthread.h:608-654 | The cleanup-attribute expansion does what the scoped meaning says |
| GnuCleanup.CleanupRoutine | include/pthread.h:608-613 | Calls the handler if and only if the flag is nonzero |
| JumpCorrectness.ProgramMeansRun | include/pthread.h:665-740 | The flat code of any thread halts with the structured outcome and no buffer left registered |
| JumpCorrectness.Simulates | include/pthread.h:665-728 | From any point of any code: the machine gets to the end of the piece, or to the buffer registered before it, with the buffer list as it was and enclosing buffers untouched |
| JumpCorrectness.Reenters | include/pthread.h:670-679 | A push returned to by a jump calls its handler and passes unwinding on to the next buffer |
| JumpCorrectness.NeverMisused | include/pthread.h:679-689 | Along every run, no buffer is used before sigsetjmp filled it and only the last registered buffer is unregistered |
| JumpMachine.BetweenInstants | include/pthread.h:670-691 | Cancelled where no instant is modelled, a thread unwinds as it does at a neighbouring instant |
| JumpCleanup.JumpThread.Execute | include/pthread.h:665-740 | The machine in place, with the library's list of buffers, does what the sigsetjmp meaning says |
| JumpCleanup.JumpThread.RegisterCancel | include/pthread.h:679-717 | The assumed contract of registering a buffer |
| JumpCleanup.JumpThread.UnregisterCancel | include/pthread.h:689-730 | The assumed contract of unregistering a buffer |
| FeatureResolver.Preprocessor.Resolve | include/features.h:118-441 | Going through all directives fails exactly on malformed input, and otherwise ends with the declared source macros, derived macros, fortification level and gets decision |
| FeatureResolver.Preprocessor.SelectSources | include/features.h:182-295 | The directives up to the POSIX level, which read one another's results, come to the closed-form choice |
| FeatureResolver.Preprocessor.DeriveStandards | include/features.h:297-353 | The POSIX and X/Open macros derived from the two levels |
| FeatureResolver.Preprocessor.DeriveRest | include/features.h:355-441 | The remaining derived macros |
| FeatureResolver.GroupsAddUp | include/features.h:118-441 | What the groups of directives add one after the other is what is declared for each macro |
| FeatureProperties.ResolvedTwice | include/features.h:118-441 | Running the header on its own result changes nothing |
| FeatureProperties.NotImplicitAgain | include/features.h:119-142 | On a table cleared of derived macros a second run yields the same ones except __USE_POSIX_IMPLICITLY |
| FeatureProperties.RaisingKeepsFeatures | include/features.h:258-353 | Raising the value of defined _XOPEN_SOURCE and _POSIX_C_SOURCE removes no derived macro |
| FeatureProperties.AccumulateExactly | include/features.h:60-65 | For any two selections of which the second keeps every macro of the first, raises POSIX and X/Open numbers at most, and adds any others: the derived macros accumulate if and only if the default is not switched off, kernel names are not newly allowed, no implied POSIX level is undercut, and the record of an implied POSIX does not disappear |
| FeatureProperties.LostIfLoses | include/features.h:215-282 | In each of those cases a derived macro is lost |
| FeatureProperties.KeptUnlessLoses | include/features.h:215-353 | In no other case is one lost |
| FeatureProperties.ImplicitExactly | include/features.h:258-282 | When __USE_POSIX_IMPLICITLY is derived, in terms of what the user defined |
| FeatureProperties.Accumulate | include/features.h:60-65 | Defining any further macros that do not name a standard keeps every derived macro, but for __USE_POSIX_IMPLICITLY |
| FeatureProperties.ChoicesKept | include/features.h:189-295 | Where nothing is lost, each threshold of the POSIX level is met or made up for, and the X/Open issue, the default and the fortification level do not drop |
| FeatureProperties.NamingPosix | include/features.h:215-282 | Defining _POSIX_C_SOURCE afresh loses features if and only if it switches the default off or undercuts an implied POSIX level that nothing else provides |
| FeatureProperties.NamingXopen | include/features.h:215-282 | Defining _XOPEN_SOURCE afresh loses features if and only if it switches the default off or lowers an implied POSIX level |
| FeatureProperties.NamingIsoC | include/features.h:215-222 | Defining _ISOC99_SOURCE or _ISOC11_SOURCE loses features if and only if it switches the default off |
| FeatureProperties.NamingStrict | include/features.h:215-282 | Defining __STRICT_ANSI__ loses features if and only if it switches the default off or POSIX was implied without X/Open |
| FeatureProperties.NamingPosixSource | include/features.h:215-282 | Defining _POSIX_SOURCE loses features if and only if it switches the default off or an implied level was not provided otherwise |
| FeatureProperties.NamingAloneLosesMisc | include/features.h:215-222 | On an empty request, naming any standards takes __USE_MISC away |
| FeatureProperties.NamingWitnesses | include/features.h:215-282 | A concrete loss for each macro that names a standard |
| FeatureProperties.GnuAddsFeatures | include/features.h:189-211 | Adding _GNU_SOURCE keeps every derived macro but __USE_POSIX_IMPLICITLY, which goes exactly when the user's macros left POSIX to be implied |
| FeatureProperties.ConcreteLosses | include/features.h:258-282 | Concrete environments: what _GNU_SOURCE takes away, XPG7 without 1003.1c, C99 without C95 in C++11 |
| FeatureProperties.GnuTurnsOnAll | include/features.h:189-211 | With _GNU_SOURCE a derived macro is always on if and only if it is not one of five that others decide |
| FeatureProperties.Chains | include/features.h:224-377 | Each derived macro brings along those of the earlier standards |
| FeatureProperties.Xopen2K8WithoutThreads | include/features.h:307-341 | Exactly when XPG7 comes without POSIX 1003.1c |
| FeatureProperties.C99WithoutC95 | include/features.h:230-253 | Exactly when C99 comes without C95, in terms of the compiler and the two levels: it takes a C++ compiler |
| FeatureProperties.ThreadsOnlyRaise | include/features.h:284-295 | _REENTRANT and _THREAD_SAFE never lower the level, guarantee 199506 and remove no derived macro |
| FeatureProperties.MalformedExactly | include/features.h:297-388 | Which user definitions make a directive erroneous |
| FeatureProperties.IsoC95SourceIsIdle | include/features.h:191-192 | _ISOC95_SOURCE influences nothing |
| FeatureTables.PosixCSourceTable | include/features.h:37-42 | Exactly what _POSIX_C_SOURCE brings in strict mode, for every value |
| FeatureTables.XopenSourceTable | include/features.h:43-45 | Exactly what _XOPEN_SOURCE brings in strict mode, for every value |
| FeatureTables.XopenSourceResolved | include/features.h:268-282 | The POSIX level and other source macros _XOPEN_SOURCE implies, for every value |
| FeatureTables.OldXopenTable | include/features.h:268-353 | X/Open before issue 5 outside strict mode, with and without _XOPEN_SOURCE_EXTENDED |
| FeatureTables.IsoFlagTable | include/features.h:224-240 | Exactly what _ISOC99_SOURCE and _ISOC11_SOURCE bring |
| FeatureTables.StandardFlagTable | include/features.h:297-353 | Exactly what nothing, _POSIX_SOURCE and _XOPEN_SOURCE_EXTENDED alone bring in strict mode |
| FeatureTables.LargeFileFlagTable | include/features.h:355-361 | Exactly what _LARGEFILE_SOURCE and _LARGEFILE64_SOURCE bring |
| FeatureTables.AtfileFlagTable | include/features.h:371-373 | Exactly what _ATFILE_SOURCE brings |
| FeatureTables.KernelNamesTable | include/features.h:146-148 | _LOOSE_KERNEL_NAMES takes __KERNEL_STRICT_NAMES away |
| FeatureTables.ThreadTable | include/features.h:284-295 | _REENTRANT and _THREAD_SAFE bring exactly level 199506, and raise a lower one to it |
| FeatureTables.DefaultTable | include/features.h:62-65 | Exactly what the default brings, under each of its names or none |
| FeatureTables.DefaultOverrides | include/features.h:258-266 | A named default overrides any POSIX level |
| FeatureTables.GnuTable | include/features.h:189-211 | Exactly what _GNU_SOURCE brings, whatever levels are named beside it |
| FeatureTables.GnuResolved | include/features.h:189-211 | Exactly which source macros _GNU_SOURCE overwrites |
| FeatureTables.ImpliedTable | include/features.h:268-282 | Outside strict mode, asking for C99 only implies POSIX.1-2008 |
| FeatureTables.PosixSourceTable | include/features.h:268-301 | Outside strict mode, _POSIX_SOURCE alone brings 1003.1 and no more |
| FeatureTables.FileOffsetTable | include/features.h:363-432 | What _FILE_OFFSET_BITS brings, for every value and compiler |
| FeatureTables.IsoTable | include/features.h:224-253 | Exactly which ISO C and C++ standards each compiler version brings |
| FeatureTables.GetsTable | include/features.h:394-398 | Exactly when gets is still declared |
| FeatureTables.FortifyTable | include/features.h:379-388 | The fortification level for every value, compiler version and optimization level |
| FeatureTables.InlinesTable | include/features.h:437-441 | Exactly when `extern inline` is decided for |
| FeatureTables.CleanSlate | include/features.h:118-142 | What was derived before is forgotten, but for the two macros that are not cleared |
| FeatureProperties.StrictPosix2 | include/features.h:65-68 | The documented example: strict ISO C, _POSIX_SOURCE and level 2 give 1003.1 and 1003.2 but nothing else |
| FeatureMacros.PackedIsLexicographic | include/features.h:157-173 | The packed version test is the lexicographic order when both minors are below 65536 |
| FeatureMacros.PrereqIsVersion | include/features.h:157-173 | __GNUC_PREREQ asks for the given version or a newer one, and is false without a version |
| FeatureMacros.PackedBounds | include/features.h:157-173 | The exact bounds on a version's minor and on a query's minor for the test to be right |
| StringPieces.Memcmp | include/pcre_stringpiece.h:114-153 | The loop decides the lexicographic order of equally long byte strings (ISO C99, section 7.21.4.1) |
| StringPieces.Strlen | include/pcre_stringpiece.h:72-76 | Finds the first NUL |
| StringPieces.NarrowWraps | include/pcre_stringpiece.h:72-78 | The narrowed length is the int congruent to the length modulo 2 to the 32 |
| StringPieces.StringPiece.Equals | include/pcre_stringpiece.h:114-117 | True exactly for equal contents |
| StringPieces.StringPiece.LessThan | include/pcre_stringpiece.h:122-127 | Decides the strict order |
| StringPieces.StringPiece.LessOrEqual | include/pcre_stringpiece.h:122-128 | Decides the order |
| StringPieces.StringPiece.GreaterOrEqual | include/pcre_stringpiece.h:122-129 | Decides the reversed order |
| StringPieces.StringPiece.GreaterThan | include/pcre_stringpiece.h:122-130 | Decides the strict reversed order |
| StringPieces.StringPiece.Compare | include/pcre_stringpiece.h:133-140 | The sign decides the order, zero exactly for equal contents |
| StringPieces.StringPiece.StartsWith | include/pcre_stringpiece.h:150-153 | True exactly for a prefix |
| StringPieces.StringPiece.RemovePrefix | include/pcre_stringpiece.h:105-108 | The new window, and in range the view without its first bytes |
| StringPieces.StringPiece.RemoveSuffix | include/pcre_stringpiece.h:110-112 | The new window, and in range the view without its last bytes |
| StringPieces.StringPiece.SetCString | include/pcre_stringpiece.h:94-97 | The view up to the first NUL if and only if its length fits an int |
| StringPieces.StringPiece.FromCString | include/pcre_stringpiece.h:72-73 | The view up to the first NUL if and only if its length fits an int |
| StringPieces.StringPiece.FromString | include/pcre_stringpiece.h:77-78 | A view of the whole string if and only if its length fits an int |
| StringPieces.Rebuilt | include/pcre_stringpiece.h:142-144 | A view rebuilt from as_string() compares equal, with embedded NULs too |
| StringPieces.MutualPrefix | include/pcre_stringpiece.h:151-153 | Two views start with each other exactly when they are == |
| ByteOrder.FirstDifference | include/pcre_stringpiece.h:122-126 | The order is decided by the first difference |
| ByteOrder.ShorterLengthDecides | include/pcre_stringpiece.h:122-126 | Comparing over the shorter length with a length tie-break is the order of the whole views |
| ByteOrder.Trichotomy | include/pcre_stringpiece.h:127-140 | The order is total and antisymmetric |
| ByteOrder.Transitive | include/pcre_stringpiece.h:127-140 | The order is transitive |
| ByteOrder.PrefixAtMost | include/pcre_stringpiece.h:151-153 | A prefix is at most what starts with it |
| ByteOrder.PrefixRange | include/pcre_stringpiece.h:151-153 | Views with a common prefix are contiguous in the order |
| ByteOrder.NulRoundTrip | include/pcre_stringpiece.h:82-97 | Bytes followed by a NUL are read back by the C string functions exactly when they contain no NUL |
| Windows.TrimConserves | include/pcre_stringpiece.h:105-112 | Along any in-range run, removed prefixes, what is left and removed suffixes make up the original view |
| Windows.TrimTotals | include/pcre_stringpiece.h:105-112 | The result depends on the totals only, and a run is in range exactly when its total is |
| OptionWord.RunOfSetters | include/pcrecpp.h:358-454 | After any run of setters from any word each getter shows the last write, the other bits are those of the last whole word, and each limit depends on its own setter |
| OptionWord.ReadAfterWrite | include/pcrecpp.h:342-347 | A getter sees the write to its option and none to another |
| OptionWord.OtherBitsKept | include/pcrecpp.h:342-344 | Bits of no supported option are untouched |
| OptionWord.SettersCommute | include/pcrecpp.h:388-446 | Setters of different options commute |
| OptionWord.SwitchesDetermineWord | include/pcrecpp.h:385-454 | The nine switches and the other bits determine the word |
| OptionWord.FlagsByNumber | include/pcre.h:127-141 | What each of the nine numbers switches on when passed as flags |
| OptionWord.FlagsCombine | include/pcrecpp.h:360-369 | Flags combined by bitwise or switch on what either does |
| OptionWord.WordIsNumber | include/pcrecpp.h:448-454 | A word stands for exactly one 32-bit number |
| OptionWord.MaskIsOneBit | include/pcre.h:127-141 | The supported constants are distinct single bits |
| OptionWord.REOptions.SetOption | include/pcrecpp.h:388-446 | Sets its own option, leaves the other eight, and returns the object |
| OptionWord.Only | include/pcrecpp.h:465-482 | Turns on exactly one option |
| OptionWord.UTF8 | include/pcrecpp.h:465-467 | The word is 0x800 |
| OptionWord.CASELESS | include/pcrecpp.h:469-471 | The word is 0x1 |
| OptionWord.MULTILINE | include/pcrecpp.h:472-474 | The word is 0x2 |
| OptionWord.DOTALL | include/pcrecpp.h:476-478 | The word is 0x4 |
| OptionWord.EXTENDED | include/pcrecpp.h:480-482 | The word is 0x8 |

## Left out

- Branches and loops around cleanup blocks: code is one path through a thread, with `execute` already a value.
- What a cleanup routine does inside: a call is one event; a routine that is itself cancelled, changes the type or pushes handlers is not modelled.
- `pthread_setcancelstate`, signal masks and the registers in a jump buffer.
- Instants inside the library's helpers and inside a constructor: each is one step.
- Early `return`, `goto` or `break` out of a block, and a push paired with the other kind of pop.
- FeatureResolver.Preprocessor.Resolve: does not say what the macro table holds after a malformed directive, because the compilation has failed there.
- Macro bodies other than empty or a single integer, and the deprecation warning.
- `__glibc_clang_prereq` and `__GLIBC_PREREQ`: the same packed comparison as `__GNUC_PREREQ`, with other numbers.
- Views of negative length or outside their buffer: they can be built and trimmed, but comparing them is undefined in C++.
- `CopyToString`, `operator[]`, `data`, `size`, `empty`, the `unsigned char` and `void` overloads, and `operator<<`: copies of what is modelled, or not in the header.
- `RE` matching, `Scanner` and `Arg`: their bodies are not part of this model.
- The other headers: prototypes and constants.
