# Sly: a verified model of the compiler and its runtime

Sly compiles Scheme. It expands macros, translates the result either into a graph of
named continuations that is then optimised, or into bytecode for a register machine,
and runs compiled programs on a runtime with a copying collector. This project models
the parts where a mistake would change what a program means, and proves that they do
not change it.

* **Continuation graphs** (`Cps*.dfy`, `src/cps.c`). Source forms have a direct
  evaluator; graphs have one of their own, indexed by the depth of nested calls. The
  translator fills a graph in place while one counter numbers labels and temporaries.
  Its output means what the form means. Four passes over the graph keep that
  meaning, with the conditions below: the collection of constants, folding with them,
  the tail-call rewrite, and the inlining of procedures that are called once, which
  copies a procedure under new names and splices the copy into the caller.
  `CpsOptimize.OptimizeProgram` runs translator, collection, folding and tail calls one
  after the other on any program; `CpsInlineCall.InlineCall` inlines a call in a
  translated one.
* **Runtime heap** (`Scm*.dfy`, `scheme/scm_runtime.c`). Values, objects, forwarding
  headers, slots rewritten in place. A collection is an isomorphism of the reachable
  heap, packs the new pool, recounts shared string buffers and terminates on every heap;
  mutator and collector together keep the heap well formed in every run. `list?` is
  right on every heap.
* **Bytecode** (`Bc*.dfy`, `src/sly_compile.c`, `src/sly_vm.c`, `src/opcodes.h`). The
  compiler appends and back-patches instruction words; the machine decodes and runs
  them. Compiled code ends exactly where and as direct evaluation ends.
* **Dictionary** (`Dict*.dfy`, `src/sly_types.c`). Linear probing with tombstones and
  growth refines a finite map.
* **Macros** (`Syn*.dfy`, `src/sly_types.c`, `src/syntax_expander.c`). What matching
  accepts and binds, and when construction gives the form back, repetitions of lists
  included; resolution depends on the set of bindings only.

## How the model reads the source

* Values of the graph and bytecode models are data trees; copying a list or sharing a
  constant makes no difference in them. Identity and mutation of pairs are modelled in
  the heap model only.
* Primitives have one semantics for compile time and run time. In the graphs these are
  the integer and list primitives over unbounded integers; the other names of the
  primitive table have no result. In the bytecode model the builtins are a parameter.
* What both sides of a theorem are stated with (the values of constants, the primitives,
  the binding of arguments, the words of an object) is pinned down by what it gives:
  `CpsMeaning`, `ScmCollected.ResultKept`, `BcLang.CallMeans`, `SynConstruct.TemplateKept`,
  `SynResolve.ResolvedMeans`.
* A call of `void` with arguments is an error in the graphs, as the primitive's own code
  (`src/cps.c:163-166`) and the interpreter's arity (`src/builtins.h:1289`) have it. The
  compiled runtime does not look at the arguments (`scheme/scm_runtime.c:1237-1243`), so
  there the folded program is what the unfolded one does.
* Tables of variable records are values in the model. The code chains alternatives in place
  (`src/cps.c:990-998`) and shares records between tables (`src/cps.c:853-872`); a record is
  redefined in place only where a variable is bound twice on one path, which the passes are
  not proved for. Use counts are threaded in a table of their own.
* Inlining is proved for programs in which no two lambdas bind the same identifier, as the
  expander renames them (`CpsBinders.Unique`). The depth of calls differs on the two sides:
  a run of the inlined program needs at most twice the depth and one more in the original.
* Bounds on recursion: `fuel` counts nested closure calls and is the same on both sides
  of every statement about graphs, so it says nothing about programs only in being read
  for each depth separately. A rank on labels shows that each procedure's graph ends.
* The expander gives every bound identifier a generated name, so no program it hands to
  the translator binds the name of a primitive (`NoPrimBound`). Generated names are told
  apart by their number; the text of two generated names can coincide in the code.
* Addresses are offsets into a pool. `cc`, the continuation a collection is handed,
  is one of the roots.
* In `scheme/scm_runtime.c` line 241 the stray `====` is read as the plain assignment.
* Keys of a dictionary stand for keys up to `sly_equal`; that equal keys hash equally is
  taken for granted. `hash_dict` depends on the order of slots (`src/sly_types.c:252-262`),
  so two equal scope sets built in different orders do not meet this; nothing is proved about
  that hash.
* Symbol tables are the names one scope can see, its own and those of the scopes around it.

## What turned out not to hold

* Folding can turn a program that stops with an error into one that runs: `void` is folded
  whatever its arguments (`CpsOptimize.VoidRepaired`, `(void d)` for any datum). The folded
  program ends as the original does, at each depth of calls, exactly if no such call is come
  by or what follows is an error as well (`CpsOptimize.FoldProgram`).
* Inlining can do the same: only too few arguments are an error there
  (`src/cps.c:1812`), surplus ones are dropped (`CpsInlineCall.SurplusRepaired`,
  `((lambda () d) e)` for any data). A closed program keeps its errors exactly as far as it
  does not come by a call with surplus arguments (`CpsInlineCall.InlineCall`), and any program
  does on runs that read nothing unbound.
* Doubling the pool once is not enough for a large request (`ScmMutator.GrownFits`,
  `ScmMutator.GrownTooSmall`).
* The count of a string buffer's users is kept in eight bits and is right after a
  collection exactly when it is at most 127 (`ScmCollected.RecountExact`); 128 strings on
  the stack are a heap for which it is wrong (`ScmCollected.CountOverflows`).
* The collector has no case for infinities and not-a-numbers: a collection succeeds
  exactly when none can be reached (`ScmRuntime.Runtime.Collect`,
  `ScmCollected.InfinityReachable`).
* `make-vector` keeps the heap well formed, whatever lay in the pool, exactly when a fill is
  given or the length is 0 (`ScmMutator.MakeVectorKeeps`, `ScmMutator.UnfilledFails`).
* Removing keys can fill a dictionary with tombstones until nothing can be found or
  added (`DictTable.TombstonesFill`); without removals this cannot happen.
* Operands wider than their bytes are cut off (`BcInstr.DecodeEncode`). A jump that is too
  wide stops the compiler by an assertion instead (`src/opcodes.h:100-109`).
* Matching accepts exactly the instances of a pattern only if the pattern is strict
  (`SynMatch.MatchIffInstance`): a literal as the rest of a list is bound like a variable,
  constants are not compared, and a repetition over a list or a literal passes over the
  first element it does not match, so that one such element at the end is lost
  (`SynMatch.NoInstances`).
* `_` inside a list is bound like a variable, because the code tests the whole rest of the
  pattern for it (`SynMatch.UnderscoreBound`). The names bound are the pattern's variables
  exactly if no `_` is in a list and no literal is the rest of one (`SynMatch.BindsVariables`).
* The marks between bindings are ordinary symbols. A list that was matched by `(x ...)` is
  cut off before an element that holds the end mark, and constructing never ends if its
  first element is spelled like the mark of a single binding (`SynConstruct.PluralRoundTrip`).

## Model

| member | source | states |
|---|---|---|
| CpsCorrect.TranslationCorrect | src/cps.c:551-825 | for every form, environment and depth of calls, running the graph from the form's entry with a tail behind it has the outcome direct evaluation has: the same error, the same running out of depth, or a value that stands for the same value |
| CpsMeaning.ConstantsMean | src/cps.c:61-75 | what evaluation, and so the graph, makes of constants: integers, truth values, symbols, the empty list and void evaluate to themselves and a pair to the pair of what its parts evaluate to, in order, quoted or not |
| CpsMeaning.ConstantCode | src/cps.c:718-721 | a constant's entry in the graph hands on what the constant says |
| CpsMeaning.TestsMean | src/cps.c:688-717 | a conditional on the constant `#f` evaluates as its second arm, on any other constant as its first |
| CpsMeaning.TestDelivers | src/cps.c:688-717 | the graph of a conditional on a constant delivers exactly the data that arm computes |
| CpsMeaning.VariablesMean | src/cps.c:784-802 | a variable has the value it is bound to; a free one is the primitive of that name or an error |
| CpsMeaning.PairsMean | src/cps.c:358-384 | `cons`, `car`, `cdr` and `list` build pairs in order and take them apart again; anything but two, one and one operands, or the part of what is no pair, is an error; `void` takes none |
| CpsMeaning.ArithmeticMeans | src/cps.c:169-207 | sums, differences and products of any number of integers, operand by operand; what is no integer is an error |
| CpsMeaning.ComparisonsMean | src/cps.c:259-357 | a comparison is true of operands in order from each to the next and of fewer than two; false where the first pair out of order is one of integers, whatever follows; otherwise an error |
| CpsMeaning.PrimitivesMean | src/cps.c:729-783 | calling a primitive on constants applies it to their values in order, and fails where it has no result; a constant cannot be called |
| CpsMeaning.ParametersMean | src/cps.c:634-681 | a procedure takes as many arguments as it has parameters, or more with a rest parameter; each parameter is bound to its argument, the rest to a proper list of the others in order, and nothing else changes |
| CpsMeaning.SelectionMeans | src/cps.c:634-681 | `((lambda (x ... . r) x_i) d ...)` is the i-th constant, an error with a wrong number of constants, and takes one level of calls |
| CpsMeaning.SurplusMeans | src/cps.c:634-681 | `((lambda (x ... . r) r) d ...)` is the proper list of the constants left over |
| CpsMeaning.LexicalScope | src/cps.c:634-681 | what a call of a procedure computes does not depend on the variables where it is called |
| CpsCorrect.Sim | src/cps.c:551-804 | with any continuation behind it, a form's code either hands that continuation a value standing for the form's, in an environment that only gained temporaries of its own, or ends as evaluation ends |
| CpsCorrect.SimElems | src/cps.c:729-783 | the chain of a call's elements binds each one's value to the temporary the call reads it from, later elements first, and identifiers are read last |
| CpsCorrect.SameDatum | src/cps.c:807-825 | a program computes a datum exactly when its graph delivers that datum |
| CpsCorrect.SimClosure | src/cps.c:634-680 | calling the closure a lambda made binds the same parameters to related values, surplus arguments as a list, and is an arity error on one side when it is on the other |
| CpsTranslate.KeepsCode | src/cps.c:551-804 | a form's code stays its code when the graph grows and when only its entry's variables are rewritten |
| CpsTranslator.Translator.Translate | src/cps.c:551-804 | the method adds exactly the code of the form from the counter on, changes nothing that was there, and leaves the graph closed with distinct temporaries; at a constant, quoted or not, it puts what the constant says |
| CpsTranslator.Translator.TranslateIf | src/cps.c:688-717 | both arms are translated before the test and their entries lose their variables |
| CpsTranslator.Translator.TranslateLambda | src/cps.c:634-681 | a lambda gets a tail, a procedure continuation and a body whose entry takes the parameters |
| CpsTranslator.Translator.TranslateCall | src/cps.c:729-783 | the loop chains the elements before the call and fills in the call's operands from where their values were bound |
| CpsTranslator.TranslateProgram | src/cps.c:807-825 | the graph of a program is closed and acyclic, binds no temporary twice, returns one value from every procedure, and in related environments delivers a datum exactly when the program computes it |
| CpsProgram.ClosedAcyclic | src/cps.c:551-825 | translated graphs are acyclic along continuation and lambda-body edges together, under a measure read off the graph |
| CpsProgram.ProgramWalkable | src/cps.c:551-825 | in a translated program the body of a lambda shares no label with what follows it, receivers take no rest, bodies bind the parameters, and no variable is named like a primitive |
| CpsProgram.SpansCode | src/cps.c:551-804 | everything a form's code leads to was numbered while the form was translated, or is what its continuation leads to |
| CpsTailCall.PassOnExactly | src/cps.c:1455-1476 | the receiver and the continuation after it hand a call's value to the tail exactly when that continuation has one variable |
| CpsTailCall.TargetMeans | src/cps.c:1455-1476 | the pass finds a tail for exactly the calls whose receiver takes one value and whose continuation after it hands its own variables, unchanged, to that tail |
| CpsTranslator.ClosedPassesOne | src/cps.c:551-825 | in a translated graph that continuation always has one variable, so the pass needs no further test |
| CpsTailCall.RedirectSame | src/cps.c:1455-1476 | redirecting one call whose receiver only passes the value on changes no run that starts anywhere in the graph |
| CpsTailCall.RedirectAllSame | src/cps.c:1455-1476 | the whole pass changes no run of a graph whose procedures return one value |
| CpsTailCall.OneValue | src/cps.c:1455-1476 | in such a graph no run delivers anything but one value |
| CpsConst.ConstIsValue | src/cps.c:827-840 | in a state the information describes, a variable reported constant has that value |
| CpsFold.ConstantMeans | src/cps.c:827-840 | a variable is reported constant exactly if its one record binds it to that constant, void excepted |
| CpsReach.ConstantsSound | src/cps.c:827-840 | wherever a run of the program gets to, at any depth of calls, there is information, and a constant it reports for a variable bound there is the variable's value |
| CpsReach.SoundRun | src/cps.c:827-840 | the same from any continuation reached with any values |
| CpsCollect.InfoConsistent | src/cps.c:1042-1132 | what the walk collects describes every step a run can take: arrivals at joins, receivers and procedure bodies included |
| CpsCollect.UnionConsistent | src/cps.c:1000-1040 | joining what the two arms of a branch found keeps the description right for both |
| CpsCollect.UnionMeans | src/cps.c:990-1040 | joined tables hold the records of both, the first ones in front and none twice if none was; what both say alike stays as it is |
| CpsCollect.StartMeans | src/cps.c:1042-1075 | where the walk stands, a variable that gets a value has one record, of that value and this visit, and the others keep theirs |
| CpsCollect.MergeConsistent | src/cps.c:1076-1107 | information found in a lambda's body and in what follows it fits together when they share no label |
| CpsFolding.CollectVarInfo | src/cps.c:1042-1132 | the walk that threads one table of continuations, copying it for the arms of a branch, adds exactly the information of the labels it comes by |
| CpsFolding.Propagate | src/cps.c:1024-1040 | every continuation's table is joined with the other side's, record by record |
| CpsFold.FoldedValue | src/cps.c:1171-1339 | a folded primitive call is the value the call gives, if it gives one |
| CpsFold.FoldTerm | src/cps.c:1364-1406 | from any state the information describes, the folded graph ends as the original does, errors included, unless the run comes by a place where folding supplies a value the original has not; then the original is an error |
| CpsFold.FoldBranch | src/cps.c:1617-1650 | deciding a branch on a constant takes the arm the test would have taken, the values passed to it being dropped |
| CpsFold.FoldPrimcall | src/cps.c:1387-1406 | a folded call goes straight past its receiver with the same value |
| CpsFold.FoldsAll | src/cps.c:1171-1339 | at every continuation: a call of a primitive whose arguments are all reported constant and that has a result becomes the result, `void` always void; a branch on a constant becomes a jump to the arm chosen; every other continuation stays as it is |
| CpsFolding.ConstantFolding | src/cps.c:1364-1406 | the graph built holds the folded continuations of the original and everything each of them leads to: at every label of it a call of a primitive on reported constants that has a result has become that result, sent past its receiver, a branch on one a jump to the arm chosen, and what is neither is as it was |
| CpsLive.ReadsBound | src/cps.c:551-825 | wherever a run gets to, what is read there is bound, if all that is free in the program may be free |
| CpsShape.ProgramFormed | src/cps.c:551-804 | in a translated program arms take nothing, receivers take one value, and the values of expressions go to temporaries |
| CpsBinders.ProgramBinders | src/cps.c:551-804 | all identifiers the graph of a program binds are binders of the program |
| CpsImports.ForeignUnknown | src/cps.c:1042-1132 | a variable bound from outside, which the program does not bind, is on record nowhere |
| CpsImports.BroughtMeans | src/cps.c:807-825 | source and graph are given the same data and primitives under the same names |
| CpsOptimize.BegunInformed | src/cps.c:1042-1132 | started with such variables bound, the program still has sound information throughout: they count as unknown |
| CpsOptimize.LooseIsVoid | src/cps.c:1171-1183 | in a program folding supplies a value the original has not exactly where `void` is called with arguments |
| CpsOptimize.VoidRepaired | src/cps.c:1171-1183 | `(void d)` is an error before folding and delivers void after it, at every depth of calls |
| CpsOptimize.PrimCallFolded | src/cps.c:1171-1339 | in the folded graph of a program that calls a primitive on two constants, void excepted, the call is gone and its value is there, whatever the primitive |
| CpsOptimize.FoldProgram | src/cps.c:1364-1406 | collecting and folding a translated program: nothing that can be folded is left, and at every depth of calls, from any environment of variables the program does not bind, it ends as before, errors included, exactly if it does not come by a call of `void` with arguments or is an error afterwards too; a program without such calls always does |
| CpsOptimize.RedirectCalls | src/cps.c:1455-1476 | redirecting calls in any order changes no outcome, sends exactly the calls that were passed on unchanged straight to where they were passed on to, and ends with none left |
| CpsOptimize.OptimizeProgram | src/cps.c:807-825 | translated, collected, folded and with its tail calls redirected, a program delivers the datum it computes, whatever data and primitives are bound from outside; one without such calls of `void` delivers exactly that, and fails or runs out of depth exactly when evaluation does |
| CpsUsage.OnceOnly | src/cps.c:1157-1169 | an operator whose first record is a procedure and that the whole program uses once has no other record where it is called |
| CpsUsage.InfoSingles | src/cps.c:1042-1132 | alternatives arise at joins only: where the walk comes by once no variable has one |
| CpsUsage.CountUses | src/cps.c:880-950 | the walk that threads the global table counts |
| CpsUsage.UsesCounted | src/cps.c:880-950 | the table ends with what was there and every use and escape the walk has come by |
| CpsUsage.UsageMeans | src/cps.c:910-985 | the count of a variable is how often it is an operand of the continuations the walk comes by, one after the other, and its escapes how often it is passed to a procedure there |
| CpsUsage.WalkReaches | src/cps.c:1042-1132 | the walk comes by every label that is reached and by no other |
| CpsBinders.ProgramBoundOnce | src/cps.c:551-804 | where lambdas bind different identifiers no variable is bound by two continuations of the graph |
| CpsScope.MadeTerm | src/cps.c:2084-2100 | wherever a run gets to, a variable on record with one procedure is bound to it, made in a part of the present environment |
| CpsScope.MadeRun | src/cps.c:2084-2100 | the same from any continuation reached with any values |
| CpsInliner.Inliner.AlphaRename | src/cps.c:1946-2002 | the recursive copier adds a copy of what the label leads to, with new labels and new names for all that is bound, and leaves the original as it was |
| CpsInliner.Inliner.VisitExpr | src/cps.c:1897-1944 | an expression's variables are renamed where they have been met, and the procedures it makes are copied |
| CpsInliner.Inliner.ReplaceKtails | src/cps.c:1766-1805 | every way out of the copy goes to the continuation of the call, and nothing else changes |
| CpsInliner.Inliner.BindArgs | src/cps.c:1807-1871 | a chain of continuations binds one argument after the other, starting at the call |
| CpsInliner.Inliner.InlineKproc | src/cps.c:2004-2035 | afterwards the call is followed by its arguments' bindings and the copied body; the rest of the graph is as it was |
| CpsSplice.SplicedRanked | src/cps.c:2004-2035 | the graph with the copy spliced in still ends within each procedure |
| CpsInlineRun.ChainBinds | src/cps.c:1807-1871 | binding arguments one after the other is binding them all at once, when none of them is among the variables bound |
| CpsInlineRun.SimSite | src/cps.c:2004-2035 | at the inlined call both graphs run alike: deeper by at most one call on one side, errors compared where what is read is bound and the arguments are as many as the parameters |
| CpsInlineRun.SimRun | src/cps.c:2004-2035 | the same from any label, in the original code, in the copied body and in copies of procedures it makes |
| CpsInlineInfo.InlineKeeps | src/cps.c:2037-2131 | what the original delivers the inlined graph delivers at the same depth, and what that delivers the original delivers at twice the depth and one more, unless it is an error |
| CpsInlineInfo.InlineFails | src/cps.c:2037-2131 | errors are kept both ways where what is read is bound and the call has one argument for every parameter |
| CpsInlineInfo.InlineSame | src/cps.c:2037-2131 | at some depth or other: a program without errors delivers a datum exactly if it does inlined, and one whose calls fit is an error exactly if it is one inlined |
| CpsInlineProgram.ProgramInlinable | src/cps.c:2037-2131 | the call of a translated program that the pass chooses meets what copying and splicing rely on |
| CpsInlineProgram.ProgramScoped | src/cps.c:551-825 | no run of a program whose lambdas bind different identifiers binds a variable that is bound |
| CpsInlineCall.MistakenStuck | src/cps.c:1812 | a program that comes by a call with surplus arguments is an error |
| CpsInlineCall.SurplusRepaired | src/cps.c:1812 | the pass inlines the call in `((lambda () d) e)`: the source is an error, the inlined graph delivers `d` |
| CpsInlineProgram.CollectProgram | src/cps.c:2133-2160 | a program translated and collected from its entry, ready for inlining |
| CpsInlineCall.InlineCall | src/cps.c:2037-2131 | from source to inlined graph, under the guard of the code: the graph is the original with the copied body spliced in, and data are kept both ways unless the source is an error; the source is an error whenever it comes by a call with surplus arguments, and otherwise fails exactly when the inlined graph does on runs that read nothing unbound, which in a closed program are all |
| ScmHeap.ReachableClosed | scheme/scm_runtime.c:109-215 | the reachable objects are closed under references and hold all roots |
| ScmHeap.ClosedHoldsReachable | scheme/scm_runtime.c:109-215 | a closed set that holds the roots holds every reachable object |
| ScmHeap.SizeMeans | scheme/scm_runtime.c:126-198 | an object takes its header, its fields and its bytes, rounded up to a multiple of eight and no further |
| ScmCopy.CopyStep | scheme/scm_runtime.c:98-107 | copying an object to the end of the new pool, header set before any field is looked at, keeps what holds of a collection under way |
| ScmCopy.SharingStep | scheme/scm_runtime.c:147-157 | a string whose buffer is already copied shares that copy, whose count goes up by one |
| ScmCopy.StringStep | scheme/scm_runtime.c:157-171 | otherwise the buffer is copied right behind the string and counted once |
| ScmCopy.FieldStep | scheme/scm_runtime.c:120-123 | rewriting a field to where its object went finishes that field and disturbs no other |
| ScmCopy.TotalFits | scheme/scm_runtime.c:217-222 | objects that lie apart in a pool take no more room together than the pool has |
| ScmCopy.CopiesFit | scheme/scm_runtime.c:217-222 | at every moment of a collection the new pool's index is within the old one's, so copying never overruns it |
| ScmRuntime.Runtime.CollectValue | scheme/scm_runtime.c:109-215 | collecting a slot copies its object and everything behind it not copied yet, rewrites just that slot, and ends because the uncopied live objects get fewer; it fails only on an infinity or not-a-number |
| ScmRuntime.Runtime.CopyObject | scheme/scm_runtime.c:98-107 | one object is copied where there is room, the header tells where, and the slot is pointed there |
| ScmRuntime.Runtime.CopyString | scheme/scm_runtime.c:147-171 | a string is copied with its buffer or shares the copied one, and the slot is pointed there; the copy has the same start, length and text |
| ScmRuntime.Runtime.CollectFields | scheme/scm_runtime.c:124-205 | the fields of a copy are collected first to last and none is left pending |
| ScmRuntime.Runtime.Collect | scheme/scm_runtime.c:217-242 | a collection succeeds exactly when no infinity or not-a-number can be reached; then the new heap is the reachable heap moved, packed, never larger than before, and the threshold is its size; every live object keeps its bytes, text, name, hash, code, tag and number of fields, and every field and root its word or, if it is a reference, its tag and the place its object went to |
| ScmCollected.Finished | scheme/scm_runtime.c:217-242 | when all roots are done the forwarding map is one to one from the reachable objects onto the new pool, with tags, scalars, fields and roots moved along, and the new pool's index is 8 plus the sizes of its objects |
| ScmCollected.ResultKept | scheme/scm_runtime.c:98-215 | a collection keeps what every live object and every root holds, field by field and byte by byte |
| ScmCollected.CopiedText | scheme/scm_runtime.c:157-170 | a copied string's buffer holds the bytes the old one held, while the collection is still under way |
| ScmCollected.CopiedReachable | scheme/scm_runtime.c:217-236 | the objects copied are exactly the reachable ones |
| ScmCollected.EdgesKept | scheme/scm_runtime.c:109-215 | one object refers to another after a collection exactly when it did before |
| ScmCollected.AllReachable | scheme/scm_runtime.c:217-242 | everything in the new pool can be reached from the new roots |
| ScmCollected.ResultOk | scheme/scm_runtime.c:217-242 | the new heap is well formed and all its headers are clear |
| ScmCollected.SharersCount | scheme/scm_runtime.c:147-171 | the running count of a buffer's strings is the number of copied strings that use it |
| ScmCollected.RecountExact | scheme/scm_runtime.c:147-171 | a buffer's count after a collection is the number of live strings using it exactly when that is at most 127 |
| ScmCollected.SharedLive | scheme/scm_runtime.c:147-171 | a heap in which any given number of live strings use one buffer |
| ScmCollected.CountOverflows | scheme/scm_runtime.c:147-171 | with 128 of them the count is wrong after every collection |
| ScmCollected.InfinityReachable | scheme/scm_runtime.c:203-214 | an infinity on the stack can be reached, so that no collection succeeds |
| ScmCollected.NoneReachable | scheme/scm_runtime.c:203-214 | a collection that finishes has met no infinity or not-a-number because none is reachable |
| ScmMutator.StepKeeps | scheme/scm_runtime.c:77-96 | every allocation, field or box update, push, pop, interning and heap check takes a well-formed state to a well-formed state |
| ScmMutator.RunsStayGood | scheme/scm_runtime.c:68-96 | from the initial state every state of every run is well formed: references name objects of their own tag, objects do not overlap, offset 0 is none, headers are clear |
| ScmMutator.AllocateKeeps | scheme/scm_runtime.c:77-96 | adding an object keeps the heap well formed exactly when the object is well formed in it |
| ScmMutator.MakeVectorKeeps | scheme/scm_runtime.c:1035-1051 | whatever lay in the pool, a vector made there keeps the heap well formed exactly when a fill is given or its length is 0 |
| ScmMutator.UnfilledFails | scheme/scm_runtime.c:1035-1051 | words that look like a pair at offset 0 break every heap an unfilled vector is added to |
| ScmMutator.StringGood | scheme/scm_runtime.c:550-598 | a string and its buffer together keep the heap well formed though the string alone would not |
| ScmMutator.GrownFits | scheme/scm_runtime.c:83-96 | one doubling makes room exactly for requests up to twice the size less what is used, so for every request up to the pool's size |
| ScmMutator.GrownTooSmall | scheme/scm_runtime.c:83-96 | a request of two pages does not fit a fresh pool after one doubling |
| ScmRuntime.Runtime.HeapAlloc | scheme/scm_runtime.c:83-96 | the room handed out starts at the old index and is aligned; the pool doubles once if the request does not fit below its end |
| ScmRuntime.Runtime.PushArg | scheme/scm_runtime.c:775-783 | an argument goes on the stack unless that is full |
| ScmRuntime.Runtime.PopArg | scheme/scm_runtime.c:794-804 | the last argument comes off and is a value the heap backs |
| ScmRuntime.Runtime.PrimopCons | scheme/scm_runtime.c:830-837 | with two arguments, the last pushed becomes the car of a new pair; otherwise an error and no change |
| ScmRuntime.Runtime.PrimopSetCar | scheme/scm_runtime.c:879-889 | the pair is the argument popped first; its car alone changes; anything else there is an error |
| ScmRuntime.Runtime.MakeBox | scheme/scm_runtime.c:712-721 | a new box holds void, and the heap stays well formed |
| ScmRuntime.Runtime.BoxSet | scheme/scm_runtime.c:723-733 | storing a box stores what it holds; the recursion is one deep because no box ever holds a box |
| ScmRuntime.Runtime.PrimopVector | scheme/scm_runtime.c:1004-1014 | the new vector's elements are the arguments in reverse and the stack is empty |
| ScmRuntime.Runtime.PrimopMakeVector | scheme/scm_runtime.c:1035-1051 | the loop fills the vector with the argument below the length, if there is one; otherwise what lay there stays |
| ScmRuntime.Runtime.InitString | scheme/scm_runtime.c:574-598 | a new string lies before its buffer, which is counted once, and the heap stays well formed |
| ScmRuntime.Runtime.ChkHeap | scheme/scm_runtime.c:244-251 | a collection happens exactly when more than half as much again as survived the last one is in use, and is a step of the model |
| ScmRuntime.ReversedAt | scheme/scm_runtime.c:1004-1014 | popping turns the stack around |
| ScmList.RaceCorrect | scheme/scm_runtime.c:933-951 | after any number of rounds the two walks' answer is whether the chain reaches the empty list |
| ScmList.ListPCorrect | scheme/scm_runtime.c:933-961 | `list?` answers on every heap, cyclic or not, and says yes exactly for proper lists |
| ScmList.ListMeans | scheme/scm_runtime.c:933-951 | the empty list is a proper list, a pair is one exactly if what its second field holds is, and nothing else is |
| ScmList.Meets | scheme/scm_runtime.c:933-951 | on a cyclic chain the walks meet in fewer rounds than there are objects |
| ScmList.CycleNoList | scheme/scm_runtime.c:939-941 | when the walks meet the chain never ends |
| BcInstr.DecodeEncode | src/opcodes.h:79-86 | the machine reads back the operands the compiler wrote exactly when each fits its field |
| BcInstr.WordsAre | src/opcodes.h:4-31 | the lowest byte of a word is the number of its opcode, the next ones its operands |
| BcMachine.Frame.Funcall | src/sly_vm.c:83-117 | a call succeeds exactly if there is an argument vector for which the builtin has a result, and then its own register alone changes, to that result: the vector holds the registers after it, as many as the fixed arguments and in order, and then, if it takes more, one proper list of the remaining ones in order; a wrong count is an error |
| BcLang.ApplyPasses | src/sly_vm.c:83-117 | a builtin is called on exactly that vector, in the evaluator as in the machine |
| BcLang.CallMeans | src/sly_vm.c:83-117 | calling a builtin on constants computes what it gives for them in order |
| BcLang.ConstantsMean | src/sly_compile.c:675-820 | a constant evaluates to itself, and a conditional on one to its second arm exactly for false |
| BcLang.AssignmentMeans | src/sly_compile.c:354-411 | after an assignment the variable has the value and every other what it had; an unknown one is void |
| BcMachine.Frame.Next | src/sly_vm.c:223-330 | one turn of the loop has the effect of the instruction at the program counter, or stops as it demands |
| BcMachine.Frame.VmRun | src/sly_vm.c:215-330 | running some number of turns of the loop is that many steps of the machine |
| BcMachine.StepsAdd | src/sly_vm.c:215-330 | runs can be put end to end |
| BcCorrect.CodeCorrect | src/sly_compile.c:262-528 | code laid out for a form runs from its start to exactly its end with the form's value in the returned register, variables and dictionary as evaluation leaves them and temporaries below untouched; it raises an error when evaluation does |
| BcCorrect.SimForm | src/sly_compile.c:675-820 | the same with the number of steps, by cases on the form |
| BcCorrect.SimChoice | src/sly_compile.c:262-319 | the patched jumps take the arm the test chooses and meet at the end with the value in one register |
| BcCorrect.SimStore | src/sly_compile.c:385-405 | the instructions of an assignment change one variable's register or one dictionary entry |
| BcCorrect.SimArgs | src/sly_compile.c:494-528 | operands are evaluated left to right into consecutive registers, a variable being copied when its turn comes |
| BcCorrect.CallStep | src/sly_compile.c:494-528 | the call replaces the operator's register by the result |
| BcCompiler.EmittedKept | src/sly_compile.c:262-319 | code laid out for a form stays so when code is appended, words outside it are patched and constants are added |
| BcCompiler.MakeCompiledIf | src/sly_compile.c:262-319 | patching the two blank words turns what was emitted around the arms into the code of the conditional |
| BcCompiler.Compiler.constructor | src/sly_compile.c:530-575 | parameters get the first registers in order, the last of a name counting; the names known are those and the ones around |
| BcCompiler.Compiler.CompExpr | src/sly_compile.c:675-820 | compiling fails exactly on a keyword used as a variable or an assignment to an unknown name; otherwise the code added is the form's, the register returned holds its value, and every register used is counted, with at most one more |
| BcCompiler.Compiler.CompIf | src/sly_compile.c:262-319 | a conditional is appended with blank jumps that are patched in place |
| BcCompiler.Compiler.CompSet | src/sly_compile.c:354-411 | an assignment is an error before its value is compiled if the name is unknown |
| BcCompiler.Compiler.CompFuncall | src/sly_compile.c:494-528 | the loop over the operands leaves them in consecutive registers, then the call |
| BcCompiler.Compiler.Intern | src/sly_compile.c:138-149 | a constant equal to one in the table gets the first such entry, another one a new entry at the end |
| BcCompiler.CompileForm | src/sly_compile.c:530-610 | a form compiled as the body of a procedure, with enough registers for all it touches; it fails exactly if some name mentioned is a keyword, or one is assigned that is neither known nor read before |
| BcCompiler.ScanMeans | src/sly_compile.c:354-448 | the names a form mentions decide whether compiling it fails, and which names are known afterwards as globals |
| BcCompiler.ScopeMeans | src/sly_compile.c:530-575 | a name stands for its last parameter, or for what it means around the procedure |
| BcCompiler.FormRuns | src/sly_compile.c:675-820 | from source to result: in a fresh frame the compiled form ends as evaluating it ends, if its code, constants and registers fit the operand fields |
| DictSlots.SlotUnique | src/sly_types.c:1867-1901 | a key has at most one slot that can be its own |
| DictSlots.ContentsMean | src/sly_types.c:1867-1901 | the mapping has a value for a key exactly if some slot holds both |
| DictSlots.HomeSlot | src/sly_types.c:1867-1901 | in an empty table a key's slot is its hash modulo the capacity |
| DictSlots.StoreKeepsProbed | src/sly_types.c:1922-1941 | storing in a key's slot keeps every key findable and updates the mapping at that key only |
| DictSlots.RemoveKeepsProbed | src/sly_types.c:1963-1974 | a tombstone keeps every other key findable |
| DictSlots.LoadLeavesEmpty | src/sly_types.c:1922-1938 | without tombstones the load bound leaves an empty slot |
| DictTable.Dictionary.GetSlot | src/sly_types.c:1867-1901 | probing with wraparound finds the key's slot, and fails exactly when the key is absent and no slot is empty |
| DictTable.Dictionary.Set | src/sly_types.c:1922-1941 | the mapping is updated at the key; it fails exactly when there is no slot; it grows exactly when one more key exceeds the load bound; without removals it never fails |
| DictTable.Dictionary.Resize | src/sly_types.c:1903-1920 | the mapping is kept, tombstones are gone, the capacity is doubled, and setting the entries again never grows a second time |
| DictTable.Dictionary.Ref | src/sly_types.c:1953-1961 | the value last set for the key, or the default |
| DictTable.Dictionary.Remove | src/sly_types.c:1963-1974 | exactly the key's entry goes; an absent key is an error |
| DictTable.Dictionary.Import | src/sly_types.c:1976-1988 | the other dictionary's entries override, and it stays as it was; it stops early only with no empty slot left and one of its keys missing |
| DictTable.Dictionary.ImportSelf | src/sly_types.c:1976-1988 | imported into itself a dictionary stays as it is, slot by slot |
| DictTable.Dictionary.Copy | src/sly_types.c:1796-1809 | a fresh dictionary with the same mapping and no tombstones |
| DictTable.Dictionary.Union | src/sly_types.c:1990-1996 | the right operand's values win and the operation never fails |
| DictTable.TombstonesFill | src/sly_types.c:1867-1901 | setting and removing 32 keys with different homes leaves an empty dictionary nothing can be added to |
| SynMatch.MatchAccepts | src/sly_types.c:2348-2416 | whether a pattern matches depends on pattern and form alone, not on what is bound already |
| SynMatch.MatchMeans | src/sly_types.c:2348-2416 | the empty list matches itself, a literal the identifier of its name, a variable anything, which is bound to it, and a pair a pair whose parts match |
| SynMatch.MatchIffInstance | src/sly_types.c:2348-2416 | a pattern matches exactly its instances if and only if no literal is the rest of a list, it holds no constant, and only variables and `_` are repeated |
| SynMatch.NoInstances | src/sly_types.c:2364-2369 | a literal rest and a repetition over a list match forms that are no instances |
| SynMatch.MatchTakes | src/sly_types.c:2266-2287 | the single names a successful match binds are the same for every form |
| SynMatch.BindsVariables | src/sly_types.c:2311-2340 | they are the pattern's variables if and only if no `_` stands in a list and no literal is the rest of one |
| SynMatch.UnderscoreBound | src/sly_types.c:2378-2379 | `_` in a list is bound to the element; as a whole pattern it is not |
| SynMatch.MatchBinds | src/sly_types.c:2266-2309 | a match of a linear pattern binds every name to its part of the form, those of a repetition to the list of their parts, and nothing else |
| SynMatch.Matcher.MatchSyntax | src/sly_types.c:2348-2416 | the loop along pattern and form succeeds, and leaves bound, exactly what matching is defined to, failures included |
| SynMatch.Matcher.TakeRepeated | src/sly_types.c:2364-2372 | the loop over a repetition binds into a table of its own and passes over the first element that does not match |
| SynConstruct.RepetitionExact | src/sly_types.c:2444-2470 | the loop over a repeated name, asking position by position until the end mark comes up, ends if and only if the name has a list of values, and yields that list |
| SynConstruct.ConstructAgrees | src/sly_types.c:2430-2482 | constructing from the pattern with such bindings gives the form, up to scopes of identifiers |
| SynConstruct.RoundTrip | src/sly_types.c:2348-2482 | matching and then constructing from the pattern gives the form back: `_` in lists, literal rests and repetitions of lists included |
| SynConstruct.PluralRoundTrip | src/sly_types.c:2289-2309 | what `(x ...)` gives back for every list, marks in it or not: it is the list if and only if no end mark is in it and its first element is not spelled like the other mark |
| SynConstruct.ConstructSyntax | src/sly_types.c:2430-2482 | the recursive builder with its loop over a repetition gives what construction is defined to give, whenever that ends; where the template repeats nothing each identifier bound to a form becomes that form, each that is neither bound nor among the names stays as it is, scopes included, and a template of such identifiers alone is given back unchanged |
| SynConstruct.TemplateReplaced | src/sly_types.c:2430-2482 | identifier by identifier, what a template that repeats nothing becomes |
| SynConstruct.TemplateKept | src/sly_types.c:2438-2442 | a template none of whose identifiers is bound or among the names is constructed as itself, scopes included |
| SynConstruct.BoundReplaced | src/sly_types.c:2434-2445 | an identifier bound by matching becomes exactly the form that was matched |
| SynResolve.BestUnique | src/syntax_expander.c:333-343 | at most one candidate has every other candidate's scopes |
| SynResolve.FindAllMatchingBindings | src/syntax_expander.c:315-331 | the candidates are exactly the bindings of the identifier's name whose scopes are all among its own |
| SynResolve.GetMaxId | src/syntax_expander.c:297-313 | a candidate with the most scopes |
| SynResolve.CheckUnambiguous | src/syntax_expander.c:333-343 | passes exactly when all candidates' scopes are among the chosen one's |
| SynResolve.Resolve | src/syntax_expander.c:346-356 | undefined exactly if no binding of the name has its scopes among the identifier's; bound exactly if one of those has the scopes of every other, and then to its binding; ambiguous otherwise |
| SynResolve.ResolvedMeans | src/syntax_expander.c:315-356 | the same of the set of bindings, in whatever order a table holds them |

## Left out

* `set!`, `define`, `fix`, `values` and the form `()` in the translator: variable records are
  shared and rebound in place there, and `()` returns the continuation it was given.
* The branches of constant folding that drop dead bindings or substitute variables used once,
  and alias resolution (`src/cps.c:1407-1454`, `1477-1613`, `1660-1764`). Rounds of the passes
  are composed up to tail calls only; inlining is proved on translated graphs.
* Inlining procedures with a rest parameter (`src/cps.c:1819-1871`).
* Compile-time errors of primitives: a call a primitive rejects is left unfolded in the model.
* Division, bitwise, equality and vector primitives have no result in the graph model.
* Wide strings, copy-on-write, `prim_length`, `exception_handler`, raw buffer pointers, bigints,
  and the extra word `make_closure` asks for; offsets are not cut off at 32 bits.
* `primop_vector_set` (it tests for a bytevector), records, symbols and bytevectors as mutator
  steps of their own: they are allocations like the others.
* Calls in tail position, which get an instruction of their own (`src/sly_compile.c:521-523`).
* Upvalues, lambdas, continuations, `apply`, `call-with-values` and internal definitions in the
  bytecode compiler. An internal definition whose value is another variable emits no code.
* Source positions of instructions, and keywords of the top level as assignment targets.
* Repetitions inside repetitions, and patterns in which something follows a repetition.
* Lexer, parser, ports, printing, the C backend, floats, hash values and `setjmp`.
- ScmRuntime.Runtime.CollectValue: an infinity or not-a-number stops the collection; the code first reads a header at the value's low 32 bits, and only a clear one leads to the error.
- BcCompiler.Compiler.CompFuncall: calls that are not in tail position only.
- CpsOptimize.OptimizeProgram: procedures of other modules bound from outside are not modelled, only data and primitives; alias resolution and inlining are not in the chain.
- CpsFolding.ConstantFolding: the branches for dead bindings and for variables used once are left out.
- CpsInliner.Inliner.BindArgs: procedures without a rest parameter only; so is `InlineKproc`.
- SynMatch.MatchIffInstance: patterns with a repetition last in its list and none inside it, as everywhere in the model of macros.
- SynConstruct.RoundTrip: forms without the marks; with them, `PluralRoundTrip` says what happens to one repeated variable.
- ScmRuntime.Runtime.PrimopMakeVector: the length is a parameter, its type and arity checks are left to the caller.
- BcInstr.DecodeEncode: does not model the assertion that stops a jump wider than 24 bits (`src/opcodes.h:100-109`); there the word is never written.
- CpsFolding.CollectVarInfo: tables are values, so records shared between tables and alternatives chained in place are not modelled; the global table of use counts is `CpsUsage.CountUses`.
- CpsFolding.Propagate: joins values; the code appends to alternatives in place.
- BcMachine.Frame.VmRun: takes the number of turns as an argument, because a jump can make the loop run for ever.
- BcCorrect.CodeCorrect: says nothing where the value of an assignment is used or the empty list is called; the machine then reads an old register, or ends the run.
- DictTable.Dictionary.GetSlot: the hash is a parameter, consistent with equality of keys by being a function of them.
