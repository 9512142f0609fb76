# Verified models of the Jennifer interpreter

Jennifer is a small language with value semantics: every binding owns its value, and
assigning, passing or spawning copies. Its interpreter gets its speed from not doing
what that sentence says. It skips copies when load-time analyses allow it, takes
integer shortcuts, shares map indexes between values, recycles frames, rewrites struct
identities only where needed, and runs tasks that wait for each other without polling.
This project models those parts in Dafny and proves that each fast form agrees with the
simple one it stands for, or that a protocol keeps what its comments promise.

`dafny verify dfyconfig.toml` checks everything.

## The parts

**Skipping copies.** `Syntax`, `ValueSemantics` and `SpawnCapture` give a small language
(globals, constants, locals, lists, index writes, named and unknown calls, loops, try,
spawn) its copy-everything meaning, and `Constants` shows that constants stay what they are;
`CallGraph`, `EscapeAnalysis`, `CaptureFixpoint` and `ArgSnapshots` are the analyses.
`AliasHeap` and `AliasEval` give the same language the meaning the interpreter really has,
with shared backings in a heap, parameters bound by alias, arguments copied only where
marked, and spawn snapshots filtered to the stamped names. `AliasInvariant`, `AliasStores`
and `AliasSim` carry the simulation and `CopyElision` states the result: for every accepted
program and every run, the optimised interpreter ends with the same outcome and the same
globals as the copy-everything one. `IndexWrites` says what an index assignment means to the
program that reads it back. A program is accepted when it holds no uncopied value across
code that may write a global, and so always when all its globals are constants;
`LeakyArguments` has one program for each of the three ways to hold one, on which the two
differ.

**Formatter and lexer.** `Lexing` says what the tokens of a source are, `LexerMachine` is
the lexer that computes them, `Spellings` lists what is one token, `LexLocality` and `Relex`
say when a written token is read back as itself, `Merges` when it never is again. `Layout`
reads off the tokens where lines break and how far they are indented (`Lines` has the lines
of a text), `Formatter` is the formatter's state machine, `Placement` follows its tokens
into the output; `FormatPreserves` proves, for every choice of line breaks, that its output
has the input's tokens exactly when no neighbours merge. `Quoting` is the string quoter and
the text of interpolation slots.

**Waiting.** `WakeUp` is the register, poll and sleep protocol of tasks and channels under
every interleaving, `PokeDelivery` shows that a poke that is owed arrives, `WaiterProgress`
that it leads the sleeper to what there is, `ChannelFlow` what becomes of values and
senders, and `WaitSets` is the list of waiters and the cancel signal. `HostLock` is the
reentrant lock around dispatch into the host interpreter, step by step.

**Values.** `Numbers` compares integers with binary64 floats exactly, `Equality` defines
equality and the key encoding, `KeyText` its strings, `EqualLoop` is the code that decides
equality, and `MapIndex` is the hash index shared by the headers of a map.

**Integers.** `Arithmetic` has the overflow probes and floored division, `FastPath` the
integer shortcuts in conditions and assignments, `ExprMeaning` what either evaluator
computes.

**Graphs.** `Cycles` is shared by `ModuleLoading`, the depth-first module loader, and
`ZeroValues`, the cycle checks behind zero values.

**Module boundary.** `Retagging` rewrites struct identities, `ModuleBoundary` is a call into
a module and back, `ParameterCheck` the declared-type check on both sides.

**Frames.** `Unwinding` says which deferred calls run and how their failures merge,
`RunSemantics` what a run does over a stack of frames with a depth counter and a memory
counter, `RunProperties` what every run keeps, and `FrameRuns` is the interpreter that
updates all of it in place. `FramePool` is the pool of recycled frames.

## Where the code does not do what is claimed for it

- A value held without a copy can be changed before it is used: a call result by a later
  argument, an indexed global by its own index, an assigned global by the indices of the
  target (`LeakyArguments.CallResultsLeak`, `IndexedGlobalsLeak`, `AssignedGlobalsLeak`).
- A shared map index is exact only until a header behind another one over the same array
  appends another key (`MapIndex.MapStore.UpsertKey` says exactly when, and
  `MapIndex.SharedIndexMisleads` is a run in which a lookup goes wrong).
- The formatter writes `.` `.`, `.` `..`, and an integer, a dot and a number without a
  space, and they are read back as other tokens; its output is wrong exactly then, and the
  check before an in-place write refuses exactly then (`FormatPreserves.FormatInPlace`).
- A clause of a `for` header that begins with a bracket is put on a line of its own, and a `)`
  behind a comment is indented like the arguments it closes (`Layout.BracketLeavesHeader`,
  `Layout.LineAfterNote`).
- A quoted string reads back exactly when it has no braces (`Quoting.QuoteRoundTrip`).
- The impostor check does not read recorded types: an empty `list of Point` of the caller
  can come back as a list of the module's `Point` (`ModuleBoundary.EmptyListRebranded`).
- A task keeps its recorded type across the boundary, so a module rejects a task of its
  own struct (`ParameterCheck.TaskKeepsItsType`); the parameter check is the same on both
  sides exactly for types with no own type inside a list, map, task or channel
  (`ParameterCheck.ParameterCheckIsExact`).
- An exit raised by a deferred call is lost when a call registered before it then fails
  (`RunProperties.DeferredExitLostInRun`).

## Model

| member | source | states |
|---|---|---|
| `SpawnCapture.ExecFiltered` | internal/interpreter/interpreter.go:5347-5400 | for every program without shadowing, running with each spawn's snapshot filtered to its stamped names gives the same result, globals and locals as copying all globals |
| `SpawnCapture.FilteredSpawnSame` | internal/interpreter/environment.go:526-549 | one spawn body, with all it transitively calls, cannot tell its filtered snapshot from the full one |
| `SpawnCapture.StampCovers` | internal/interpreter/spawncapture.go:98-128 | a stamp covers every global the body and its callees may touch, or asks for all |
| `CaptureFixpoint.Round` | internal/interpreter/spawncapture.go:59-83 | one pass only grows the summaries, reports exactly whether it changed one, and an unchanged pass leaves every call absorbed |
| `CaptureFixpoint.ComputeCaptures` | internal/interpreter/spawncapture.go:35-83 | the fixpoint terminates in a closed summary holding only what some chain of calls justifies |
| `CaptureFixpoint.SummaryIsExact` | internal/interpreter/spawncapture.go:35-128 | a method needs all globals exactly when a chain of calls reaches one that does, and otherwise its names are exactly those referred to along such chains |
| `CaptureFixpoint.StampIsExact` | internal/interpreter/spawncapture.go:98-128 | a spawn copies nothing it cannot need: its stamp names exactly what its body, or a method along some chain of its calls, refers to, and asks for all exactly when such a chain makes a dynamic call |
| `CallGraph.Propagate` | internal/interpreter/globalsafe.go:92-109 | the backward worklist terminates and marks exactly the methods from which a chain of named calls reaches a seed |
| `CallGraph.ReverseEdges` | internal/interpreter/globalsafe.go:82-91 | the callers lists hold exactly the reversed call edges |
| `EscapeAnalysis.ComputeEntryGlobalSafe` | internal/interpreter/globalsafe.go:64-146 | a method is stamped safe exactly when no chain of named calls reaches a direct hazard, re-entry free exactly when none reaches a re-entry, and the spawn mark is set exactly when some spawn can re-enter |
| `EscapeAnalysis.UnmarkedIsSafeSet` | internal/interpreter/globalsafe.go:64-146 | unmarked methods call only unmarked methods and write only their own locals, which are no globals |
| `EscapeAnalysis.ExecKeepsGlobals` | internal/interpreter/interpreter.go:2191-2240 | on every run, code the analysis leaves unmarked ends with every global as it began |
| `EscapeAnalysis.InvokeKeepsGlobals` | internal/interpreter/globalsafe.go:112-115 | calling a safe method changes no global, when its argument expressions reach no global write either |
| `ArgSnapshots.Snaps` | internal/interpreter/argsnap.go:62-79 | the backward loop marks exactly the arguments that alias a global and are followed by one that may write a global |
| `ArgSnapshots.ClearedIsQuiet` | internal/interpreter/argsnap.go:97-164 | an expression the mutation scan clears reaches no global write |
| `ArgSnapshots.FlaggedIsLoud` | internal/interpreter/argsnap.go:97-164 | the scan flags exactly the expressions with a spawn, a dynamic call or a call of a method that is not safe |
| `AliasHeap.CopyOwned` | internal/interpreter/interpreter.go:2139-2145 | a copy denotes the same value, is owned by its new binding alone, and leaves all existing values as they were |
| `AliasHeap.WriteOwned` | internal/interpreter/interpreter.go:2846-2943 | an in-place index write to an owned backing computes the functional update and changes no value that does not share that backing |
| `AliasSim.ArgsSim` | internal/interpreter/interpreter.go:5627-5657 | in a settled call, every argument the callee receives denotes the value its expression had when evaluated left to right, with only the marked ones copied |
| `AliasSim.CallSim` | internal/interpreter/interpreter.go:5616-5698 | a settled call in the sharing interpreter simulates the call that copies everything |
| `AliasSim.ExecSim` | internal/interpreter/interpreter.go:2191-2240 | every settled statement keeps the ownership invariant and simulates its copy-everything meaning |
| `CopyElision.OptimisedRunIsNaive` | internal/interpreter/interpreter.go:5616-5698 | for every accepted program and run, alias-bound parameters, selective argument copies and filtered spawn snapshots together give the outcome and globals of copying everything |
| `CopyElision.BorrowIsCopy` | internal/interpreter/interpreter.go:2191-2240 | turning alias binding of read-only parameters on or off, in safe methods or, without a mutable global, in all, changes no outcome and no global |
| `CopyElision.FrozenRunIsNaive` | internal/interpreter/interpreter.go:2191-2227 | in a script all of whose globals are constants, with no further condition, borrowing read-only parameters in every method gives the outcome of copying everything, and every global ends as it began |
| `Constants.ExecKeeps` | internal/interpreter/interpreter.go:2206-2227 | no run of any program, calls and spawns included, changes a constant at any depth |
| `IndexWrites.ReadAfterWrite` | internal/interpreter/interpreter.go:2550-2575 | after an index assignment of any depth, the expression that spells its target reads the assigned value; every chain that differs at some step, and every other variable, reads as before |
| `IndexWrites.LiteralTarget` | internal/interpreter/interpreter.go:2307-2352 | `$m[0][1] = e` followed by `$m[0][1]` gives the value of `e`, for every chain of literal steps |
| `IndexWrites.BlocksKeepScope` | internal/interpreter/interpreter.go:1767-1787 | after an `if`, a loop or a `try` exactly the locals from before are in scope |
| `LeakyArguments.LeakyStamps` | internal/interpreter/globalsafe.go:64-146 | the counterexample runs under exactly the stamps the analysis computes for it |
| `LeakyArguments.CallResultsLeak` | internal/interpreter/argsnap.go:81-91 | a call whose first argument is a call result receives another value than the one its expression had |
| `LeakyArguments.IndexedGlobalsLeak` | internal/interpreter/interpreter.go:4336-4357 | `$g[bump()]` indexes the global as the index left it: 7 where copying everything gives 1 |
| `LeakyArguments.AssignedGlobalsLeak` | internal/interpreter/interpreter.go:2307-2352 | `$l[bump()] = $g` stores the global as the target's index left it |
| `LexLocality.ScanLocal` | internal/lexer/lexer.go:136-267 | a token scans the same wherever it stands, when what follows does not continue it |
| `Spellings.DecimalsAreNumbers` | internal/lexer/lexer.go:682-752 | digits, with an underscore, a fraction or an exponent, are one number |
| `Spellings.BasedAreNumbers` | internal/lexer/lexer.go:682-752 | a base prefix and digits of that base are one integer |
| `Spellings.NamesAreWords` | internal/lexer/lexer.go:136-267 | a name of letters and digits is one keyword or identifier, and with a `$` one variable |
| `Spellings.RawIsString` | internal/lexer/lexer.go:136-267 | anything without a quote between single quotes is one string |
| `Spellings.OperatorsAreMarks` | internal/lexer/lexer.go:136-267 | each operator of one or two characters is one token |
| `Spellings.EscapesStandFor` | internal/lexer/lexer.go:533-580 | `\u` with four and `\U` with eight hexadecimal digits stand for the character of that number, and fail where there is none |
| `Relex.RelexPieces` | cmd/jennifer/fmt.go:197-235 | text assembled from whole tokens, gaps and comments that are kept apart re-lexes to exactly those tokens |
| `LexerMachine.Lexer.Next` | internal/lexer/lexer.go:136-267 | one call advances past one token or trivia item and returns it, or fails exactly when the text at the position does not lex |
| `LexerMachine.Lexer.ReadNumber` | internal/lexer/lexer.go:682-752 | reads exactly the longest number, based, decimal or with exponent, or fails on a bad separator |
| `LexerMachine.Lexer.ReadCooked` | internal/lexer/lexer.go:472-531 | reads a cooked string into its characters and slots, failing exactly on bad escapes or a missing end |
| `LexerMachine.Lexer.ScanSlot` | internal/lexer/lexer.go:582-633 | a slot's text is the exact source between its braces, and it fails exactly when they do not balance |
| `LexerMachine.Lexer.CopyNested` | internal/lexer/lexer.go:635-660 | a nested literal is copied unchanged through its closing quote |
| `LexerMachine.TokenizeAll` | internal/lexer/lexer.go:99-134 | the lexer's loop returns the token list of the source, and an error exactly when there is none |
| `Formatter.FmtState.Separator` | cmd/jennifer/fmt.go:742-991 | in every state, nothing is put between two tokens only where they may touch, and always between neighbours that merge |
| `Formatter.FmtState.WriteSeparator` | cmd/jennifer/fmt.go:742-991 | writes only white space, and leaves the last token bare only before a token it may touch |
| `Formatter.FmtState.WriteToken` | cmd/jennifer/fmt.go:1077-1096 | appends the token; unless it merges with what is there, all written tokens stay apart |
| `Formatter.FmtState.EmitTrivia` | cmd/jennifer/fmt.go:627-735 | comments and blank lines change no token of the output, and never leave a line comment open |
| `Formatter.FmtState.Open` | cmd/jennifer/fmt.go:446-525 | pushes the container and the brace kind that the tokens before it ask for |
| `Formatter.FmtState.CloseBracket` | cmd/jennifer/fmt.go:526-551 | pops what the bracket opened, and indent is again the number of open wrapped containers |
| `Formatter.FmtState.Emit` | cmd/jennifer/fmt.go:417-587 | one token in, one token out: where it stands, and on which line, is what the tokens before it ask for; indent equals the number of open wrapped containers; and the output either still consists of exactly the tokens sent or can no longer be read as them |
| `FormatPreserves.FormatTokens` | cmd/jennifer/fmt.go:290-304 | for every token list and every choice of line breaks, the output re-lexes to the same code tokens if and only if no neighbours merge; on balanced input indentation returns to zero; and every code token stands in the output in order, with nothing, one blank or one line break between neighbours, and a break where there must be one and only where there may; if it opens a line, it is indented by exactly four blanks for each wrapped container around it, one more level on a continuation, or stands below the first value of its `when` |
| `FormatPreserves.FormatSource` | cmd/jennifer/fmt.go:197-204 | formatting a source that lexes keeps its code tokens if and only if it has no merging neighbours |
| `FormatPreserves.SameCodeTokens` | cmd/jennifer/fmt.go:205-217 | decides whether both texts lex and have the same code tokens |
| `FormatPreserves.FormatInPlace` | cmd/jennifer/fmt.go:155-174 | the self-check before an in-place write refuses exactly the sources with merging neighbours |
| `FormatPreserves.LexedIsWhole` | internal/lexer/lexer.go:99-134 | every token the lexer returns is spelled so that it lexes alone to itself |
| `FormatPreserves.DeepenNests` | cmd/jennifer/fmt.go:417-587 | the depth of both stacks follows the nesting of brackets |
| `Placement.DrawnNext` | cmd/jennifer/fmt.go:409-587 | each further token keeps all of that: a line opens with four blanks per open wrapped container, a closing bracket standing outside its own |
| `Formatter.FmtState.SeparatorBreaks` | cmd/jennifer/fmt.go:742-991 | the line breaks after a statement, after the opening bracket and the commas of a wrapped container, and after a block, with the exceptions for headers, inline arms and words that go on after a block |
| `Formatter.FmtState.SeparatorKeeps` | cmd/jennifer/fmt.go:742-991 | it breaks nowhere but there, before a closing `}` or `]`, and where a continuation or a list of `when` values is broken |
| `Formatter.FmtState.SeparatorTouches` | cmd/jennifer/fmt.go:742-991 | nothing stands before commas, semicolons, colons, dots and `)`, behind dots, opening brackets and a unary minus, or between a callee or an indexed value and its bracket |
| `Formatter.FmtState.NoteLeaves` | cmd/jennifer/fmt.go:589-625 | how far a comment or blank line indents the line it opens, for every token that may follow |
| `Layout.BracketLeavesHeader` | cmd/jennifer/fmt.go:804-832 | a clause of a `for` header that begins with a bracket is put on a line of its own |
| `Merges.DotsMerge` | internal/lexer/lexer.go:136-267 | a text that begins with a dot touching a dot or a double dot has another first token |
| `Merges.NumbersMerge` | internal/lexer/lexer.go:682-752 | a text that begins with an integer, a dot and a number has a longer first token |
| `Merges.MergeSpoils` | cmd/jennifer/fmt.go:742-991 | once two tokens have merged, whatever stands before them and whatever is written after, the text is never read back as its tokens |
| `Quoting.QuoteJenniferString` | cmd/jennifer/fmt.go:1171-1195 | the loop computes the quoted form, character by character |
| `Quoting.QuoteRoundTrip` | cmd/jennifer/fmt.go:1171-1195 | the quoted form lexes to one string token with the original value exactly when the string has no braces |
| `Quoting.SlotIsBalanced` | internal/lexer/lexer.go:582-660 | outside nested literals a slot's braces balance, never reaching its own closing brace early |
| `WakeUp.StepInv` | internal/interpreter/waitset.go:11-143 | every step of every sender, closer, finisher and waiter keeps the invariant |
| `WakeUp.NoLostWakeUp` | internal/interpreter/waitset.go:11-143 | in every interleaving, a sleeping unpoked waiter on a source that holds a value, is closed or finished is still owed a poke, and no sender is parked there behind its poke |
| `PokeDelivery.OwedPokeArrives` | internal/interpreter/waitset.go:55-64 | from every reachable state in which a sleeping waiter is owed a poke, any schedule of that source's notifies has at most the stated number of steps, and can go on until the poke is delivered |
| `PokeDelivery.NotifyShrinks` | internal/interpreter/waitset.go:55-64 | every step of a notify leaves less for the notifies of its source to do |
| `PokeDelivery.NotifyOwes` | internal/interpreter/waitset.go:55-64 | a notify step delivers the poke that is due or leaves it due |
| `PokeDelivery.NeverBlocked` | internal/interpreter/waitset.go:55-64 | while a poke is due, some notify of that source can step |
| `WaiterProgress.OnlyPokesWake` | internal/interpreter/waitset.go:19-24 | in every reachable state a sleeper with a poke can wake on it, with every live source to poll again, and nothing else but giving up moves a sleeper |
| `WaiterProgress.SleeperFinds` | internal/interpreter/waitset.go:11-143 | from every reachable state in which a sleeper's source holds a value, is closed or is finished: once that source's notifies are through, the sleeper's own steps, in any order of polling, find it closed or reach within the stated number of steps a poll that does not miss |
| `ChannelFlow.ValuesConserved` | internal/interpreter/waitset.go:101-143 | on every run, the values given to a channel are those taken from it and those it holds, never more than its capacity |
| `ChannelFlow.SendsAccountedFor` | internal/interpreter/waitset.go:101-119 | on every run, each send that began has handed its value over, was given up, or is under way |
| `ChannelFlow.ReceivableIsTaken` | internal/interpreter/waitset.go:124-143 | a receive would succeed exactly when some step takes a value from the channel |
| `ChannelFlow.NobodyIsStuck` | internal/interpreter/waitset.go:11-143 | in every reachable state a thread that is not idle, parked or asleep can step, waits for a lock whose holder can, or is about to return from its wait |
| `WaitSets.WaitSet.Add` | internal/interpreter/waitset.go:32-36 | adds one registration |
| `WaitSets.WaitSet.Remove` | internal/interpreter/waitset.go:39-51 | removes one registration of the waiter, if any, and no other |
| `WaitSets.WaitSet.Notify` | internal/interpreter/waitset.go:55-64 | leaves every registered waiter poked |
| `WaitSets.CancelState.RequestCancel` | internal/interpreter/value.go:187-198 | sets the flag and closes the signal that was handed out, if any |
| `WaitSets.CancelState.CancelSignal` | internal/interpreter/value.go:204-218 | hands out one signal for all callers, already closed exactly when cancelled |
| `HostLock.StepInv` | internal/interpreter/interpreter.go:1230-1252 | every load, store, lock and unlock keeps the lock's invariant |
| `HostLock.OneInside` | internal/interpreter/interpreter.go:1230-1252 | in every run at most one chain is inside, the owner holds the mutex, and the count is its unmatched enters |
| `HostLock.CountIsGuarded` | internal/interpreter/interpreter.go:1222-1229 | the unguarded count is only touched by the chain that holds the mutex |
| `HostLock.ReentryNeverBlocks` | internal/interpreter/interpreter.go:1230-1241 | a chain inside never waits, and a waiting chain waits for one that can move |
| `HostLock.FreedAtOutermost` | internal/interpreter/interpreter.go:1243-1252 | the mutex is freed exactly by the exit matching the outermost enter |
| `Numbers.IntFloatIsExact` | internal/interpreter/value.go:1378-1408 | comparing an int64 with a float orders them as numbers, without rounding, infinities included |
| `Numbers.TruncIsExact` | internal/interpreter/value.go:1378-1408 | truncating a binary64 value gives a value binary64 holds exactly |
| `Numbers.NumericIsExact` | internal/interpreter/value.go:370-402 | the three-way comparison of any two numbers but NaN is their order, and is antisymmetric |
| `Numbers.NumericIsTransitive` | internal/interpreter/value.go:370-402 | the comparison is transitive, equal only through equal parts |
| `Equality.SameRefl` | internal/interpreter/value.go:1182-1351 | equality is reflexive on values without NaN |
| `Equality.SameSym` | internal/interpreter/value.go:1182-1351 | equality is symmetric |
| `Equality.SameTrans` | internal/interpreter/value.go:1182-1351 | equality is transitive across integers, floats and containers |
| `Equality.ComponentsCount` | internal/interpreter/value.go:1182-1351 | in a list, struct, enum value or object, changing one component makes it unequal exactly when the component is unequal |
| `Equality.EntriesCount` | internal/interpreter/value.go:1283-1339 | the same for the value of one key of a map |
| `Equality.EncodeIsEquality` | internal/interpreter/value.go:410-441 | two keys with an encoding encode alike exactly when they are equal, and a key with one equals none without |
| `KeyText.SameStringIsEqual` | internal/interpreter/value.go:404-441 | the strings of two hashable keys are the same exactly when the keys are equal, for any representation that tells the representable floats apart |
| `KeyText.RepresentationExists` | internal/interpreter/value.go:416-430 | there is such a representation |
| `KeyText.SpelledReadsBack` | internal/interpreter/value.go:410-434 | the digits of a number in base 10 or 16 read back to it |
| `EqualLoop.EqualMaps` | internal/interpreter/value.go:1283-1339 | comparing maps through an index or by scanning returns exactly: same length and mutual containment |
| `EqualLoop.EqualByIndex` | internal/interpreter/value.go:1308-1324 | counting hits through an index decides mutual containment, also when two entries meet one slot |
| `EqualLoop.Equal` | internal/interpreter/value.go:1182-1351 | the recursive comparison decides the equivalence |
| `MapIndex.UsableIsExact` | internal/interpreter/value.go:443-449 | an index as long as the map, whose keys are covered, points each key at its own entry |
| `MapIndex.IndexFinds` | internal/interpreter/value.go:475-491 | a lookup through a usable index agrees with the linear scan, hit or miss |
| `MapIndex.MapStore.NewMap` | internal/interpreter/value.go:350-360 | a new empty map with an array of its own |
| `MapIndex.MapStore.Share` | internal/interpreter/value.go:350-360 | copying a header shares backing and index and keeps the invariant of all headers |
| `MapIndex.MapStore.LookupKey` | internal/interpreter/value.go:475-491 | returns the position the linear scan would whenever every index is exact, and otherwise whatever a trusted index says |
| `MapIndex.MapStore.BuildMapIndex` | internal/interpreter/value.go:451-469 | builds a fresh usable index, or none exactly when a key is unhashable or repeated, changing no entries |
| `MapIndex.MapStore.UpsertKey` | internal/interpreter/value.go:498-525 | always leaves its own map right; leaves every index exact and every other header's keys unmoved if and only if the key was there, the append lands past every header of the array, or it writes the same key again |
| `MapIndex.AppendBehindMisleads` | internal/interpreter/value.go:498-525 | a longer header that trusts its index is misled by an append of another key: the index answers for the overwritten key, which no scan finds |
| `MapIndex.SharedIndexMisleads` | internal/interpreter/value.go:498-525 | a run from the empty store: two headers of one map each append a key, and a trusted lookup answers 1 where the scan finds nothing |
| `Arithmetic.AddIsExact` | internal/interpreter/interpreter.go:5012-5019 | addition reports overflow exactly when the sum leaves int64, and is otherwise the sum |
| `Arithmetic.SubIsExact` | internal/interpreter/interpreter.go:5021-5027 | the same for subtraction |
| `Arithmetic.MulIsExact` | internal/interpreter/interpreter.go:5029-5043 | the same for multiplication, through a wrapped product and a division |
| `Arithmetic.FlooredIdentity` | internal/interpreter/interpreter.go:4927-4946 | quotient times divisor plus remainder is the dividend, and the remainder has the divisor's sign and is smaller |
| `Arithmetic.FlooredFits` | internal/interpreter/intfast.go:110-137 | floored quotient and remainder fit int64 except for the smallest int64 divided by -1 |
| `Arithmetic.OnlyOverflow` | internal/interpreter/intfast.go:110-137 | that one quotient does not fit |
| `FastPath.IntOperandRefines` | internal/interpreter/intfast.go:52-108 | whenever the integer shortcut answers, the plain evaluator gives the same integer without error or effect |
| `FastPath.FastConditionRefines` | internal/interpreter/intfast.go:163-207 | the same for conditions |
| `FastPath.FastIsPlain` | internal/interpreter/interpreter.go:4576-4734 | evaluating with shortcuts equals evaluating without them, on every expression and environment |
| `ExprMeaning.ArithmeticIsExact` | internal/interpreter/interpreter.go:4899-4926 | with or without shortcuts, `+`, `-` and `*` of two ints are the mathematical result, or an error exactly when it is no int64 |
| `ExprMeaning.DivisionIsFloored` | internal/interpreter/interpreter.go:4927-4946 | `//` and `%` are the one quotient and remainder with the remainder on the divisor's side, or an error for a zero divisor and a quotient that is no int64 |
| `ExprMeaning.ComparisonIsOrder` | internal/interpreter/intfast.go:139-161 | the six comparisons are the order of the integers |
| `ExprMeaning.LogicShortCircuits` | internal/interpreter/intfast.go:163-207 | `and` and `or` stop at a deciding left side and otherwise are the right side; `not` negates |
| `ExprMeaning.IndexPicks` | internal/interpreter/interpreter.go:4336-4357 | an index picks the element or byte at its position, and fails outside |
| `ExprMeaning.AssignThenRead` | internal/interpreter/interpreter.go:2242-2299 | a successful assignment changes the value of the addressed binding and of no other |
| `ExprMeaning.AssignRefuses` | internal/interpreter/interpreter.go:2242-2299 | an assignment fails, writing nothing, exactly for a constant, a value of another type or an unknown name |
| `FastPath.FastAssignRefines` | internal/interpreter/intfast.go:212-234 | whenever the assignment shortcut applies, the general assignment writes the same slot and succeeds |
| `FastPath.FrameChain.SlotBinding` | internal/interpreter/intfast.go:26-39 | the parent walk finds the binding at a depth and slot, or none |
| `FastPath.FrameChain.FastAssign` | internal/interpreter/intfast.go:212-234 | writes exactly the addressed binding, or refuses and changes nothing |
| `FastPath.FrameChain.Execute` | internal/interpreter/interpreter.go:2242-2299 | trying the shortcut first ends as the general assignment would |
| `Cycles.OrderedIsAcyclic` | internal/interpreter/module.go:991-1069 | no cycle starts at a node of an order in which imports come first |
| `ModuleLoading.Registry.LoadModule` | internal/interpreter/module.go:991-1069 | loads a module after its imports, restores the stack, and fails only with a real cycle |
| `ModuleLoading.LoadProgram` | internal/interpreter/module.go:304-329 | loading succeeds exactly when the reachable graph has no cycle, and then runs each reachable module once, after its imports |
| `ZeroValues.Visit` | internal/interpreter/interpreter.go:610-734 | the colour search either orders what it reaches, fields first, or exhibits a cycle |
| `ZeroValues.CheckZeroCycles` | internal/interpreter/interpreter.go:610-734 | both checks accept exactly the declarations without a cycle of by-value zero edges |
| `ZeroValues.FieldDrops` | internal/interpreter/interpreter.go:4144-4173 | along every field a zero value needs, the rank falls |
| `ZeroValues.ZeroExists` | internal/interpreter/interpreter.go:4033-4063 | for accepted declarations the mutually recursive constructors end in a zero value of the declared shape |
| `Retagging.RebuildMoves` | internal/interpreter/module.go:83-141 | rewriting changes a value exactly when some identity or recorded type in it is one to move |
| `Retagging.RetagIsRebuild` | internal/interpreter/module.go:83-192 | the copy-on-write rewriting equals the plain one if and only if no container it skips hides an identity to move |
| `Retagging.WellTypedIsHonest` | internal/interpreter/module.go:190-206 | a value whose containers hold what their recorded primitive types say hides none |
| `Retagging.TypeMoves` | internal/interpreter/module.go:209-240 | a declared type is rewritten exactly when the precheck says so |
| `ModuleBoundary.RetagStructs` | internal/interpreter/module.go:83-141 | the recursive loops compute the copy-on-write rewriting |
| `ModuleBoundary.RoundTrip` | internal/interpreter/module.go:457-503 | in and back out is the identity exactly on values without a bare own identity or recorded type |
| `ModuleBoundary.IdentitiesCross` | internal/interpreter/module.go:56-76 | exactly the structs and enums a module declares, `Error` excepted, lose its identity on the way in and get it on the way out |
| `ModuleBoundary.ImpostorsAreFound` | internal/interpreter/module.go:368-420 | the check reports a bare value inside the argument whose name the module owns, and misses none |
| `ModuleBoundary.AcceptedComeBack` | internal/interpreter/module.go:368-503 | the check accepts exactly the arguments whose identities at every depth come back, and recorded types come back exactly when none is a bare own name |
| `ModuleBoundary.EmptyListRebranded` | internal/interpreter/module.go:368-420 | an accepted empty list whose recorded type then changes owner |
| `ModuleBoundary.CrossArguments` | internal/interpreter/module.go:457-483 | the argument loop accepts exactly when no argument holds an impostor, moves each inward, and otherwise names the first offender |
| `ParameterCheck.ParameterCheckAgrees` | internal/interpreter/value.go:1058-1160 | for a value without own-typed tasks, channels and native objects and without bare own recorded types, the moved argument meets the bare parameter type exactly when the caller's value meets the qualified one |
| `ParameterCheck.ParameterCheckIsExact` | internal/interpreter/value.go:1058-1160 | a parameter type is checked alike on both sides, for every accepted well-typed argument with foreign native objects, if and only if no own type stands inside a list, map, task or channel of it |
| `ParameterCheck.TaskKeepsItsType` | internal/interpreter/value.go:1120-1135 | a task of a module's struct meets the qualified type outside and fails the bare one inside |
| `Unwinding.UnwindsIsPromised` | internal/interpreter/interpreter.go:3494-3517 | running the list backwards is exactly: reverse order, each once, a plain defer always, an errdefer if and only if the frame was failing or a later-registered call failed |
| `Unwinding.MergeExits` | internal/interpreter/interpreter.go:3467-3479 | a frame ends in an exit exactly when its body did, or else when its last failing deferred call did |
| `RunProperties.ExprRestores` | internal/interpreter/interpreter.go:4600-4612 | evaluating any expression restores depth, memory count and frames, on every ending |
| `RunProperties.CallRestores` | internal/interpreter/interpreter.go:5616-5698 | the same for a call: bad arguments, both limits, any flow or error of the body |
| `RunProperties.BlockRestores` | internal/interpreter/interpreter.go:1767-1787 | the same for a block |
| `RunProperties.TryRestores` | internal/interpreter/interpreter.go:3552-3610 | the same for try, and an exit raised in the body is its ending |
| `RunProperties.StmtsAdvance` | internal/interpreter/interpreter.go:1789-1800 | statements change only their own frame, and lose no registered call |
| `RunProperties.DeferredRuns` | internal/interpreter/interpreter.go:3503-3517 | the backward loop runs the calls by the rule, and its error is the last one |
| `RunProperties.FrameFinishes` | internal/interpreter/interpreter.go:3467-3479 | a frame leaves with the merged outcome, and an exit of its body is kept |
| `RunProperties.ProgramKeeps` | internal/interpreter/interpreter.go:1416-1428 | every run ends with depth restored and the memory count of the global frame, every frame ever entered unwound by the rule, and an exit raised outside deferred calls is the ending with its code |
| `RunProperties.EveryFrameHonours` | internal/interpreter/interpreter.go:3467-3517 | over whole runs: deferred calls of each frame ran last first, each plain one once; each errdefer exactly when the body ended in a thrown, runtime or foreign error, not for an exit or any flow, or a later-registered call failed; and the frame left with its body's ending unless that was no exit and a deferred call failed, and then with the last such error |
| `RunProperties.HandlersCatch` | internal/interpreter/interpreter.go:3552-3610 | a handler runs exactly for a thrown value or a runtime error; an exit or a foreign error goes on outward |
| `RunProperties.BodiesCompose` | internal/interpreter/interpreter.go:1789-1800 | a body is its statements in order up to the first that ends in an error or leaves by a flow |
| `RunProperties.DeferredExitLostInRun` | internal/interpreter/interpreter.go:3503-3517 | a program with two defers exits under one of them and still ends with the other's error |
| `FrameRuns.Runner.Run` | internal/interpreter/interpreter.go:1416-1428 | runs a program as the semantics says, with everything that is proved of programs |
| `FramePool.Environment.Sized` | internal/interpreter/environment.go:294-307 | what a newly built frame is |
| `FramePool.Pool.Borrow` | internal/interpreter/environment.go:40-62 | whatever the pool hands out meets the contract of a newly built frame |
| `FramePool.Pool.Release` | internal/interpreter/environment.go:69-100 | the frame's bytes go back to its chain's counter and the pool holds only clean frames without shared storage |
| `FramePool.Environment.DefineAt` | internal/interpreter/environment.go:315-340 | places the binding, growing with unused slots, and writes nothing beyond the length |
| `FramePool.Environment.LookupLocal` | internal/interpreter/environment.go:347-357 | finds a name in the slots, then in the name map |
| `FramePool.UnusedIsInvisible` | internal/interpreter/environment.go:342-346 | unused slots change no lookup of a name that is not empty |
| `FramePool.Environment.Drive` | internal/interpreter/environment.go:315-357 | any sequence of definitions, assignments and reads sees a frame only through its table |
| `FramePool.Pool.Compare` | internal/interpreter/environment.go:40-100 | no such sequence tells a recycled frame from a new one |

## Left out

- The copy-elision language has no maps, structs, break, continue, append or local constants; a
  spawn body runs to its end at the spawn, on its own snapshot.
- Moves of fresh literals, owned call results and dead arguments, and borrowed local
  definitions: all rest on facts of the resolver, which is not part of this model.
- Callbacks from library functions into the program and re-entry from spawned tasks are
  unknown calls here.
- CopyElision.OptimisedRunIsNaive: accepts programs in which nothing that may write a global
  is evaluated while a call result, or a global read by an index or assigned value, is still
  held. Each of the three clauses has a program that fails without it; the condition is not
  necessary for every program, because the scan it uses takes a call for a write when the
  callee merely might write. The spawn re-entry mark may have either value: a spawn body ends
  before its caller goes on, so the concurrent writes it guards against do not arise here.
- Width heuristics, line-break decisions and pragma rewriting of the formatter are arbitrary
  inputs; error positions of the lexer are absent.
- LexerMachine.TokenizeAll: has no byte-order mark, no token budget and no cap on slots or on the
  nesting of comments.
- WakeUp.NoLostWakeUp: a receive that blocks is only seen when it takes a value.
- WaitSets.WaitSet.Notify: runs as one step; its locking is in the step model.
- Float rounding, the bit layout of floats and native payload equality are absent.
- ModuleLoading.LoadProgram: resolving, parsing and running module bodies always succeed.
- FrameRuns.Runner.Run: values are their sizes, conditions are read from a list of answers, which
  makes loops finite, and `for` headers and `match` are left to `while` and blocks; spawned tasks,
  cancellation checkpoints and calls into modules are absent.
- FramePool.Environment.Drive: stays within one frame; the shadowing check over parents and reads
  through parents are absent.
- HostLock.StepInv: an entry without a chain, which skips the lock, is absent.
- ParameterCheck.ParameterCheckAgrees: is about single values; the exact condition on the
  parameter type is ParameterCheck.ParameterCheckIsExact.
- Command line, REPL, diagnostics, profiling, library builtins, parser and resolver: reporting,
  host calls or declarative data.
