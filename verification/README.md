# systasis: verified models

systasis is a dependency-injection compiler: procedural macros read a
registration declaration inside a configuring function, schedule it, move its
constructor closures into a generated module, and emit code that builds a
container. A small runtime stores the values and decides what restricted
scopes may do with them. This project models the parts whose correctness
finite tests cannot settle, and proves them with Dafny.

`dafny verify dfyconfig.toml` checks everything.

## What is modelled

**Source-to-source passes.**

- `CaptureSyntax`, `CaptureFree`, `CaptureSemantics`, `CaptureVisitor`,
  `CaptureObstacles`, `CaptureProof`, `CaptureTheorems`: closure conversion. The visitor is a class
  with the macro's scope stack, glob stack and append-only capture list; a
  separate evaluator gives authored and rewritten closures their meaning. It
  has Rust's two namespaces: block items, modules, types and traits, imports
  and globs, paths of one or several segments, struct literals and patterns,
  identifiers in patterns that may be constants, let-else, if-let and while-let
  chains, for, match guards, nested closures, and loops that may diverge. The
  authored closure is evaluated in the configuring function, among its
  parameters, locals, items and imports; the rewritten one in the generated
  module, which has the moved imports and the capture tuple but none of the
  function's items. A simulation between the two shows exactly when every
  outcome is preserved, the captures are proved to be the free variables of the
  closure, and the closures that are reconstructed at all are characterized by
  what occurs in them.
- `BindingModes`: the types recorded for annotated patterns, against a
  semantics of matching with default binding modes, and exactly which names of
  a pattern get a type. `CaptureTypes` composes
  both: each field of the capture tuple holds a value of its recorded type.
- `Configuration`: the two passes that select `cfg` and `cfg_attr`, against
  direct left-to-right evaluation.
- `TypeLookup`: recursive expansion of registered-type queries in a
  registration's type, value and constructor, against lookup chains and plain
  substitution.
- `Rebase`: moving paths and imports one module deeper, against a path
  resolution that falls back to the outer module through the generated
  `use super::*`; and which imports of the configuring function move.

**Scheduling, wiring and the build.**

- `Overrides`: the last declaration of an interface wins.
- `Graph`: the layered scheduler and its cycle extraction. The specification
  knows no layers: the order is sorted by longest dependency chain, then index.
- `Wiring`: the transitive closure, the slots each constructor call receives,
  and all executions of constructor bodies.
- `Build`: the emitted initialization chain with first-error short-circuit and
  cleanup. `Unreachable` outcomes and a `stuck` flag stand for every emitted
  `unreachable!` on an empty slot; they are proved never to occur. Ownership
  of captures and payloads is conserved on every path.
- `Consumption`: which stored values and child operations a resolver reaches
  through the constructors it calls, for values taken once, copied or only lent.

**Runtime slots and scopes.**

- `SlotProtocol`: the synchronized slot as steps of any number of operations,
  interleaved in any way, with leaked guards and guard-free reservations, the
  atomic slot that they linearize to, and progress: every operation can end and
  every guard can be dropped by steps of its own.
- `Slots`: the same slot and the single-threaded one as classes, tied to the
  protocol and to each other.
- `Keys`, `Masks`: the type-level programs over symbol keys and restriction
  masks, and scopes nested to any depth.
- `Scopes`: masks and consumption together, through child calls of any depth.

## Where the code falls short of its purpose

Each of these has lemmas that exhibit it and an exact condition.

- What the configuring function declares is not moved with a constructor that
  mentions it: functions, constants and tuple structs, but also modules, types
  and traits at the head of a path or of an import inside the constructor,
  constants in patterns, and the function's own imports of any of these.
  `|| h()` and `|| helper::make()` then reach the module's `h` and `helper` or
  no longer resolve, and `match n { LIMIT => …, _ => … }` stops comparing and
  always takes its first arm
  (`CaptureTheorems.MovedCallChangesMeaning`, `MovedPathChangesMeaning`,
  `MovedPatternChangesMeaning`, and `MentionIsLost` for all of them; the
  condition is in `NamesKeepMeaning` and `PreservationIsExact`).
- `self::super::…` in a module nested in moved source is not rewritten when it
  leaves the moved modules. It still finds the same item through the generated
  `use super::*` if it climbs exactly to the generated module and that module
  does not define the name; otherwise it is stranded
  (`Rebase.SelfSuperIsStranded`; the condition is in `Rebase.PathIsPreserved`).
- a `super` behind a prefix in an import group is not counted, so such an
  import can stop one module short (`Rebase.HiddenSuperIsStranded`; the
  condition is in `Rebase.TreeIsPreserved`).
- `try_resolve` of a copied value is withheld by a scope that restricts the
  value, though a copy takes nothing (`Consumption.CopiesAreWithheldInVain`),
  and so is every constructor that asks for one
  (`ConstructorsAreWithheldInVain`). A resolver is withheld in vain exactly when
  what its bounds are about is restricted only where it is not taken once
  (`Consumption.WithheldInVain`).

## Model

| member | source | states |
|---|---|---|
| CaptureVisitor.Visitor.CaptureIndex | systasis-macros/src/captures.rs:801-824 | a name bound in an enclosing local scope is left alone; any other recorded name gets its stable index, appended once, or rejects the closure, exactly when its type is unknown or a glob may shadow it |
| CaptureVisitor.Visitor.Bind | systasis-macros/src/captures.rs:789-799 | a pattern adds exactly its names to the innermost scope and rejects only patterns whose names cannot be seen |
| CaptureVisitor.Visitor.VisitBlock | systasis-macros/src/captures.rs:845-902 | a block scans its items first, visits its statements in their scope, restores both stacks, records exactly the admitted sites in order, and substitutes for every later capture list |
| CaptureVisitor.Visitor.VisitClosure | systasis-macros/src/captures.rs:834-843 | parameters shadow only inside a nested closure |
| CaptureVisitor.Visitor.VisitExpr | systasis-macros/src/captures.rs:912-973 | both stacks are restored; the log grows by the expression's sites; the result is the capture substitution for every later state of the list |
| CaptureVisitor.Then | systasis-macros/src/captures.rs:638-672 | two visits in sequence compose: acceptance, capture order and the validity of earlier rewrites against later capture lists |
| CaptureTheorems.ObserveItems | systasis-macros/src/captures.rs:67-126 | functions and constants of the configuring function shadow its parameters; bindings become uncertain exactly if some item is a macro, or an import with a glob, a final `self`, a name that a parameter not shadowed before it has, or a leaf that starts at a local type or module; exactly the other imports move, in order |
| CaptureTheorems.Prepare | systasis-macros/src/captures.rs:605-672 | the closure is reconstructed exactly if the bindings are certain and it meets a condition on what occurs in it, stated without scopes or visiting order; a reconstructed plan holds the collected captures and the substituted closure |
| CaptureObstacles.AcceptedExactly | systasis-macros/src/captures.rs:801-973 | the visitor accepts a closure without macros exactly if nothing in it is opaque, every outer binding that is free in it has a known type and is not used below a block glob, and no block import has the name of an outer binding |
| CaptureTheorems.ReconstructedExactly | systasis-macros/src/captures.rs:605-650 | the same for plans: reconstructed if and only if, in addition, the bindings are certain and no macro is invoked, in nested items and written types either |
| CaptureTheorems.RewrittenWhereCaptured | systasis-macros/src/captures.rs:904-927 | a plan's closure differs from the authored one if and only if it captures something |
| CaptureFree.SubstTouches | systasis-macros/src/captures.rs:904-927 | an expression is rewritten if and only if one of its free names is captured; shorthand fields are spelled out only then |
| CaptureTheorems.PrepareIn | systasis-macros/src/captures.rs:51-127 | from a configuring function to behaviour: in every scope that its parameters, items and `let`s can have in a run, the prepared constructor evaluates as the authored one, unless it is moved and mentions something that stays behind |
| CaptureFree.SitesFree | systasis-macros/src/captures.rs:845-973 | the references that the scope-tracking traversal records outside all local scopes are exactly the free variables, defined without scopes or order |
| CaptureTheorems.CapturesAreFreeVariables | systasis-macros/src/captures.rs:801-824 | captures have no duplicates, are exactly the recorded outer bindings that occur free, and carry their annotated types |
| CaptureTheorems.CollectInVisitOrder | systasis-macros/src/captures.rs:801-824 | captures appear in first-visit order: those of a prefix of the visit form a prefix of the list |
| CaptureProof.LookupKept | systasis-macros/src/captures.rs:812-824 | a path that conversion leaves alone, and that does not start at something left behind, has related meanings on both sides, through block items, types, moved imports and globs |
| CaptureProof.ConstantKept | systasis-macros/src/captures.rs:832 | an identifier in a pattern, which is never rewritten, is the same constant on both sides or a binding on both |
| CaptureProof.RibRel | systasis-macros/src/captures.rs:845-880 | what the items, imports and globs of a block make of a path, which may lead through other imports and the blocks around, is related on both sides |
| CaptureProof.LookupCaptured | systasis-macros/src/captures.rs:801-824 | a converted name means its tuple field: the outer binding's value sits at its index |
| CaptureProof.SimExpr | systasis-macros/src/captures.rs:834-973 | every expression that mentions nothing left behind and its rewriting have related outcomes in related environments, with equal side effects, for every fuel |
| CaptureTheorems.ConversionPreservesEvaluation | systasis-macros/src/captures.rs:638-672 | for every configuring function, items, types, modules and imports included: invoking a prepared constructor where it runs has the outcome of invoking the authored closure where it was written, if the plan is native or mentions nothing left behind |
| CaptureTheorems.ConversionPreservesResults | systasis-macros/src/captures.rs:638-672 | under the same condition, closure-free results, errors and divergence are equal, not only related |
| CaptureTheorems.NamesKeepMeaning | systasis-macros/src/captures.rs:95-123 | every name and path head that a moved closure mentions means the same in the generated module, whatever the module declares, if and only if none of them is left behind |
| CaptureTheorems.PreservationIsExact | systasis-macros/src/captures.rs:638-672 | all moved closures that mention only certain names and path heads evaluate as before, in every module and state, if and only if none of those is left behind |
| CaptureTheorems.MentionIsLost | systasis-macros/src/captures.rs:749-757 | for everything left behind, whether a value, an item seen from a nested item, or the head of a path, a constructor that mentions it is accepted, evaluates where it was written, and does not resolve after the move |
| CaptureTheorems.MovedCallChangesMeaning | systasis-macros/src/captures.rs:97-100 | a constructor that calls a function declared beside it is accepted and moved, and then calls the function of the same name in the module, with a different result |
| CaptureTheorems.MovedPathChangesMeaning | systasis-macros/src/captures.rs:912-920 | the same for `helper::make()`, with a module `helper` declared beside the constructor |
| CaptureTheorems.MovedPatternChangesMeaning | systasis-macros/src/captures.rs:832 | a match against a constant declared beside the constructor becomes a binding, and takes another arm |
| BindingModes.Recorder.ObservePattern | systasis-macros/src/captures.rs:277-296 | the table after a declaration: its names forgotten, then what its annotation determines |
| BindingModes.Recorder.ObserveAnnotated | systasis-macros/src/captures.rs:298-428 | for structural types, the loops over tuple and sequence elements add exactly the observed types, which are proved to be sound and complete |
| BindingModes.TupleAligned | systasis-macros/src/captures.rs:344-364 | the type index of an element around a tuple rest selects the type of the value it matches |
| BindingModes.SliceAligned | systasis-macros/src/captures.rs:365-428 | each element of a sequence pattern matches one element, or binds a remainder of the counted length |
| BindingModes.RecordedTypesAreSound | systasis-macros/src/captures.rs:298-428 | for every accepted pattern, structural type, binding mode and matching value, each recorded name is bound to a value of its recorded type, through repeated references, tuple rests and array remainders |
| BindingModes.DeclarationsShadow | systasis-macros/src/captures.rs:277-296 | after a declaration nothing older survives about its names, and nothing else changes |
| BindingModes.RecordedExactly | systasis-macros/src/captures.rs:298-428 | a type is recorded exactly for the names that the written type determines: identifiers without a subpattern that stand, through references, for an element of the type, and remainders whose length can be written |
| BindingModes.DeclarationsAreExact | systasis-macros/src/captures.rs:277-296 | a declared name has a known type if and only if an annotation determines it |
| BindingModes.FittingDeclarationsAreComplete | systasis-macros/src/captures.rs:298-428 | where the shape of the annotation fits the pattern, every name that the pattern binds has a known type |
| CaptureTypes.CapturesHaveTheirTypes | systasis-macros/src/captures.rs:801-824 | after any sequence of well-typed declarations, each value of the capture tuple is the value of its binding and has the type recorded for that field |
| Configuration.Selection.Attributes | systasis-macros/src/configuration.rs:95-129 | one pass over an attribute list: selector numbers, gated fields and the chosen attributes, with the gates restored |
| Configuration.Selection.VisitStmts | systasis-macros/src/configuration.rs:222-272 | one pass over nested statements emits the gated fields and chooses statements; both passes number selectors alike whatever is active |
| Configuration.SelectAndResume | systasis-macros/src/configuration.rs:14-62 | the two passes with the compiler's filtering of helper fields in between compute the selected source |
| Configuration.ChooseAttrsDirect | systasis-macros/src/configuration.rs:95-129 | when the active numbers are the surviving fields, the chosen attributes are present and expand as direct evaluation says |
| Configuration.StagedSelectionIsDirect | systasis-macros/src/configuration.rs:14-62 | for every nested body and every valuation, the selected source strips to what the authored source strips to, and no statement's presence is left undecided |
| Configuration.SelectedStatementsAreKept | systasis-macros/src/configuration.rs:37-62 | the statements of the selected source are exactly those the compiler keeps, in order |
| Configuration.HelperFieldsAreSuppressed | systasis-macros/src/configuration.rs:83-93 | no helper field evaluates a predicate that direct left-to-right evaluation would not reach |
| Configuration.SelectsExactly | systasis-macros/src/configuration.rs:147-174 | exactly the attributes that contain a `cfg` get helper fields; all others stay as they are |
| TypeLookup.Lookup.VisitType | systasis-macros/src/analysis.rs:138-191 | the stack is restored, dependencies grow by what is reached, and the error is the last failure met, or the earlier one if there is none |
| TypeLookup.SucceedsIsResolvable | systasis-macros/src/analysis.rs:129-191 | expansion succeeds exactly when every reachable query is registered and no lookup chain repeats a registration |
| TypeLookup.ExpandedIsUnfolded | systasis-macros/src/analysis.rs:183-187 | a successful result is the full substitution, independent of unfolding depth, and contains no query |
| TypeLookup.ReachedIsNeeded | systasis-macros/src/analysis.rs:171-184 | recorded dependencies are exactly the registrations reached by chains or by dyn queries at their ends |
| TypeLookup.ReportedIsReal | systasis-macros/src/analysis.rs:150-181 | a reported failure exists: a lookup chain leads to such a query, or to the closed lookup path that a cycle error names |
| TypeLookup.ExpandRegistration | systasis-macros/src/generate.rs:440-474 | one lookup over a registration's type, value and constructor succeeds exactly when all of their queries resolve, then substitutes all of them, and depends on exactly what any of them needs; otherwise it reports the last failure, a real one |
| Rebase.Visitor.VisitPath | systasis-macros/src/rebase.rs:99-118 | counting leading `super` segments rewrites a path as specified |
| Rebase.Visitor.VisitUseTree | systasis-macros/src/rebase.rs:65-89 | each branch of an import tree is rewritten by its own chain of `super` |
| Rebase.Visitor.VisitNodes | systasis-macros/src/rebase.rs:92-125 | nested modules count one level deeper and the counter is restored |
| Rebase.PathIsPreserved | systasis-macros/src/rebase.rs:99-118 | at every depth the rewritten path, read one module deeper, names the same item, directly or through the generated parent glob; for paths that resolve this holds if and only if the path is not stranded: it does not leave the moved modules through `self` in a nested module, to a place above the generated module or a name which that module defines |
| Rebase.TreeIsPreserved | systasis-macros/src/rebase.rs:65-89 | all imports of a tree keep their targets when no unrewritten branch is stranded in that sense; if they all resolve, only then |
| Rebase.RebasingPreservesMeaning | systasis-macros/src/rebase.rs:92-125 | every path and import of supported source keeps its meaning, through any nesting of modules; if the source resolves, of no other source |
| Rebase.MoveImports | systasis-macros/src/captures.rs:101-115 | exactly the imports that need no local item, hide no parameter and write all their names are moved; any other makes the bindings uncertain |
| Rebase.MovesExactly | systasis-macros/src/captures.rs:101-115 | an import moves if and only if every single import in it has a written name that no parameter has, and it is absolute or none of its branches starts at a local item |
| Rebase.MovedIsNoParentGlob | systasis-macros/src/captures.rs:679-694 | no moved import contains a glob, so none is taken for the generated `use super::*` |
| Rebase.ModuleIsPreserved | systasis-macros/src/rebase.rs:15-40 | the same, in both directions, for the generated module: its own `use super::*` is kept and imports the outer module, and moved imports and items are rebased, with the imports inside their bodies |
| Rebase.SelfSuperIsStranded | systasis-macros/src/rebase.rs:104-117 | two members of the stranded family: `self::super::super::x` one module down, and `self::super::y` with `y` defined by the generated module |
| Rebase.HiddenSuperIsStranded | systasis-macros/src/rebase.rs:72-83 | `super::{super::super::x}` two modules down imports from one module too deep |
| Overrides.Winners | systasis-macros/src/generate.rs:318-332 | exactly the last registration of each key is kept, in declaration order |
| Overrides.OneWinnerEach | systasis-macros/src/generate.rs:318-332 | every declared key keeps exactly one registration |
| Graph.Schedule | systasis-macros/src/graph.rs:6-42 | both loops terminate; the result is an order if and only if the graph is acyclic, sorted by longest dependency chain then index, and otherwise a simple closed path of real edges |
| Graph.ScheduleUnique | systasis-macros/src/graph.rs:6-42 | the graph determines the order |
| Graph.ScheduledIsTopological | systasis-macros/src/graph.rs:6-42 | an order lists every node once, after all its dependencies, and exists only for acyclic graphs |
| Wiring.Transitive | systasis-macros/src/wiring.rs:15-27 | the sets are exactly reachability by at least one edge |
| Wiring.ArgumentsDistinct | systasis-macros/src/wiring.rs:29-33 | a call passes each slot once |
| Wiring.CalleeArguments | systasis-macros/src/wiring.rs:44-78 | a callee's arguments are among the caller's and never include the caller's own slot |
| Wiring.ContextSuffices | systasis-macros/src/generate.rs:994-1001 | every slot named in any execution of a constructor, at any nesting, is a field of its context, also for native closures that lack their own slot |
| Wiring.ContextIsExact | systasis-macros/src/generate.rs:994-1001 | a context has exactly what its constructor reaches, and the constructor's own slot unless that holds a native closure |
| Wiring.NativeTypesAreFinite | systasis-macros/src/generate.rs:994-1001 | no opaque closure type occurs in its own argument, directly or through those of other native closures |
| Wiring.NestingIsBounded | systasis-macros/src/wiring.rs:44-78 | constructor calls nest less deeply than there are registrations |
| Build.PerformEffect | systasis-macros/src/generate.rs:1419-1453 | with its reachable slots filled, a body meets no empty slot and only moves payloads out, each once |
| Build.StuckOnEmptySlots | systasis-macros/src/wiring.rs:49-56 | an `unreachable!` is evaluated if and only if an executed query or call names an empty slot |
| Build.StepProgress | systasis-macros/src/generate.rs:1440-1452 | each emitted step extends the run prefix, or after an error only discards its captures |
| Build.Cleanup | systasis-macros/src/generate.rs:1488 | discarding all slots in reverse order drops exactly what the filled ones hold, last first |
| Build.Execute | systasis-macros/src/generate.rs:1478-1492 | no `unreachable!` is evaluated; exactly the prefix up to the first failure runs; the error is that failure's; drops have the stated order; success drops nothing and fills every field |
| Build.OwnershipIsConserved | systasis-macros/src/generate.rs:1478-1492 | each capture and each created payload ends in exactly one of consumer, container or a single drop |
| Build.ExpandAndBuild | systasis-macros/src/generate.rs:480-490 | scheduling, wiring and building composed: every valid acyclic program builds with all of the above, and only cyclic ones are rejected |
| Consumption.ConsumedDependencies | systasis-macros/src/scopegen.rs:279-338 | exactly the stored slots that a taking query names in a constructor reachable by constructor calls |
| Consumption.ConsumesIsLeast | systasis-macros/src/scopegen.rs:324-335 | this family is contained in every family closed under direct takes and calls |
| Consumption.PropagateChildCalls | systasis-macros/src/scopegen.rs:341-400 | as a set, the child calls of exactly the reachable constructors; a constructor's own calls stay in front |
| Consumption.ExecutionsAreCovered | systasis-macros/src/scopegen.rs:324-335 | every execution moves only consumed slots and calls only reachable constructors |
| Consumption.ConsumedCanMove | systasis-macros/src/scopegen.rs:324-335 | every consumed slot is taken once or copied, and some execution of the source moves it if and only if it is taken once |
| Consumption.OfferedNeverTakesBlocked | systasis-macros/src/scopegen.rs:609-615 | a resolver whose bounds hold never takes a blocked slot of its own container |
| Consumption.WithheldOnlyForBlocked | systasis-macros/src/scopegen.rs:609-615 | a resolver is withheld because of a blocked slot that is taken once if and only if some call of it could move a blocked slot |
| Consumption.WithheldInVain | systasis-macros/src/scopegen.rs:609-615 | for every registration and operation: it is withheld though no call of it could move a blocked slot, if and only if its bounds meet blocked slots, none of which is taken once |
| Consumption.CopiesAreWithheldInVain | systasis-macros/src/scopegen.rs:609-612 | `try_resolve` of a copied value is withheld exactly when the value is blocked, though no call of it moves anything |
| Consumption.ConstructorsAreWithheldInVain | systasis-macros/src/scopegen.rs:324-335 | a constructor that consumes a copied value is withheld where that value is blocked, though it moves nothing |
| Consumption.ReadersAreNeverWithheld | systasis-macros/src/scopegen.rs:609-615 | no restriction withholds a resolver if and only if it, and every query of a stored value in a constructor that its calls reach, copies by `resolve` or clones |
| SlotProtocol.RunInv | src/storage/standard.rs:32-109 | every reachable state, under all interleavings, keeps the lock and phase invariant |
| SlotProtocol.AliasingSafety | src/storage/standard.rs:43-109 | an exclusive reference is never alive beside any other, reserved ones included, and every live reference points to a present value |
| SlotProtocol.ValueLeavesAtMostOnce | src/storage/standard.rs:43-53 | stored plus taken is one; a reserved value is present; a consumed error appears only after a completed take |
| SlotProtocol.ReservationIsPermanent | src/storage/standard.rs:91-109 | after a reservation the value never leaves and every later take or exclusive access reports contention |
| SlotProtocol.SlotRefinesAtomicSlot | src/storage/spin.rs:32-109 | the interleaved steps refine an atomic slot, and the run linearizes: each response reports an effect that lies between the acquiring step and the response of its own operation, spans of one actor do not overlap, and no effect explains two responses |
| SlotProtocol.EffectsAreDistinct | src/storage/spin.rs:32-109 | in a linearized run, different responses report different effects |
| SlotProtocol.RefusalHasConflict | src/storage/standard.rs:32-40 | an acquisition is refused only beside a conflicting holder |
| SlotProtocol.NothingWaits | src/storage/standard.rs:32-40 | which steps an actor can take depends on its own phase alone |
| SlotProtocol.EveryoneCanLeave | src/storage/standard.rs:43-109 | from every reachable state, at most three steps of its own end an operation or drop a guard; then the actor holds nothing, and nobody else has moved |
| SlotProtocol.GuardCanBeDropped | src/storage/standard.rs:55-82 | a shared or exclusive guard can be dropped at any time; its lock is released and nothing else changes |
| SlotProtocol.ReferenceOutlivesReservation | src/storage/standard.rs:91-109 | a reserved reference is in use after its operation without any lock, and its last use leaves the slot reserved |
| Slots.TakeSlot.TryResolve | src/storage/standard.rs:43-53 | one uninterrupted take answers and changes the slot as specified |
| Slots.TakeSlot.TryReserveRef | src/storage/standard.rs:91-109 | one uninterrupted reservation sets the flag only on a present value |
| Slots.UninterruptedOperationIsACall | src/storage/standard.rs:43-109 | in any reachable protocol state, an operation that runs alone is one call of the class |
| Slots.UsingAGuardIsACall | src/storage/standard.rs:55-82 | dropping a guard, and writing through an exclusive one, are calls of the class's specification |
| Slots.DroppedGuardFreesTheSlot | src/storage/standard.rs:43-109 | once the only guard is dropped, an uninterrupted operation of any idle actor answers as a call on the unlocked slot: a take gets the value unless the slot is reserved |
| Slots.GuardsRoundTrip | src/storage/local.rs:19-52 | a guard that is taken and dropped leaves both kinds of slot as they were, but for what was written through it |
| Slots.LocalTakeSlot.TryResolveRefMut | src/storage/local.rs:38-44 | a single-threaded exclusive access borrows the cell or reports why not |
| Slots.LocalStorageSimulatesSynchronized | src/storage/local.rs:19-52 | for every history without reservations, local and synchronized storage give the same values and errors |
| Keys.Encode | systasis-macros/src/scopegen.rs:17-52 | the key is the least perfect tree whose leaves are the text's bits, low bit first, then padding |
| Keys.EqualIsIdentity | src/scoped/key.rs:46-86 | the type-level comparison answers yes exactly for identical trees |
| Keys.KeysAreExact | systasis-macros/src/scopegen.rs:16-52 | keys are equal if and only if their texts are, across lengths and for the empty text |
| Keys.RestrictionKeysAreExact | systasis-macros/src/scopegen.rs:54-71 | restriction keys are equal if and only if namespace and group both are |
| Masks.BlockedDecides | src/scoped/mask.rs:42-64 | `Blocked` decides membership of a local key |
| Masks.ForChildProjects | src/scoped/mask.rs:65-96 | `ForChild` is projection on the child's name, through indirections |
| Masks.BorrowedRestricts | src/scoped/mask.rs:17-40 | an indirect mask restricts exactly the registration that it names |
| Masks.BorrowedIsRegistered | src/scoped/mask.rs:17-40 | a registration can be borrowed if and only if the container at its address has it |
| Masks.FindIsFirst | systasis-macros/src/scopegen.rs:136-144 | a child accessor finds the first child of its name, and nothing only where there is none |
| Masks.DescentReaches | systasis-macros/src/scopegen.rs:129-179 | a scope has a child at exactly the addresses at which its container has one, whatever is restricted, and the child is a scope of that container |
| Masks.RestrictedAgainReaches | systasis-macros/src/scopegen.rs:170-175 | the same for a scope that is restricted again |
| Masks.DescentIsExact | systasis-macros/src/scopegen.rs:145-179 | at every address at which the container has a child a scope is reached, and it restricts exactly what the root mask or a mask stored on the way names there |
| Masks.DescentDecidesBlocking | systasis-macros/src/scopegen.rs:166-175 | the same for the answers that bounds ask for |
| Masks.RestrictingIsMonotone | systasis-macros/src/scopegen.rs:170-175 | restricting again adds exactly the new restrictions at every depth and restores nothing |
| Masks.ChildMaskExact | systasis-macros/src/generate.rs:727-739 | a child is stored under exactly the restrictions borrowed from it |
| Scopes.ReachedScopeNeverTakesRestricted | systasis-macros/src/scopegen.rs:609-615 | a resolver of any reached scope never takes a value of its own container that is restricted by the root or by any mask on the way |
| Scopes.BoundsAreExact | systasis-macros/src/scopegen.rs:609-615 | a resolver's own bounds hold in a reached scope if and only if nothing that it consumes or takes is restricted there, by the root mask or on the way |
| Scopes.GrantedIsExact | systasis-macros/src/scopegen.rs:609-624 | all bounds of a resolver hold if and only if, wherever child calls lead from it, every child call names a registration and the bounds of the resolver there hold in that sense |
| Scopes.GrantedNeverTakesRestricted | systasis-macros/src/scopegen.rs:609-624 | a resolver whose own bounds and child-call bounds hold takes nothing restricted where it is stored, neither from its own container nor, through child calls of any depth, from any container below |

## Left out

- Closure conversion: assignments to captured names, uninitialised `let`, `async` blocks and labels are not in the syntax; bodies of block items see enclosing items only, and modules see none of the names around them; use trees are flattened to their leaves, each with the namespaces that it binds; types are written as ascriptions of the expressions that they annotate; a method of a trait is called by its path; generic parameters of the configuring function count as names of the module; a native plan is taken to be the compiler's own capture.
- CaptureVisitor.Visitor.VisitBlock: foreign items of an `extern` block inside a block, which `item_name` (captures.rs:749-757) does not see, are not represented; a reference to one that shares its name with an outer binding would be captured instead. The same holds for `extern` blocks of the configuring function.
- CaptureTheorems.ConversionPreservesEvaluation: assumes that the reserved capture root cannot be written by a user (it is a constructor of its own), that the parsed closure takes no parameters, that no binding has the name of a constant of the module, which Rust forbids, and that evaluation fuel stands for running time; moved imports of what lies outside the function keep their targets, which is the subject of `Rebase`.
- CaptureTheorems.PreservationIsExact: assumes that imports of the function's own items lead to something, which Rust checks; `CaptureTheorems.NamesKeepMeaning` does too.
- BindingModes.Recorder.ObserveAnnotated: the arms for type aliases (captures.rs:429-515) are not represented.
- BindingModes.RecordedTypesAreSound: is about tuples, references, arrays and slices; projections through type aliases need types that the macro cannot see, and struct and or-patterns only contribute names.
- CaptureTypes.CapturesHaveTheirTypes: the bindings in scope are those that declarations bound; how the evaluator represents a typed value is a parameter.
- Configuration.StagedSelectionIsDirect: takes left-to-right evaluation of attributes as the compiler's rule, and numbers selectors instead of spelling their names; attributes that do not parse are not represented.
- SlotProtocol.AliasingSafety: lock acquisition fails only on conflict; spurious failures inside the lock, its memory ordering and interior mutability of payloads are not part of this model.
- Slots.LocalStorageSimulatesSynchronized: a clone is a shared access and a drop; overflow of the borrow counter is not represented.
- Build.Execute: an initializer ends with a value or an error; panics are not represented, and evaluation inside an initializer is reduced to its queries in order.
- Wiring.ContextSuffices: an execution may repeat and reorder the queries that its source contains; control flow inside the body is not represented.
- Consumption.ConsumedCanMove: an execution exists in the source's queries; whether control flow reaches it is not decided.
- Rebase.RebasingPreservesMeaning: paths that start with a plain name are compared as written; what such names mean after the move is the subject of `CaptureTheorems.NamesKeepMeaning`. Visibilities are not represented: the generated module restores those of its own top-level functions, structs, struct fields, types, traits and constants only, and a `pub(super)` one module down is rewritten to `pub(super::super)` without the `in` that the language asks for.
- Keys.Encode: works on bytes; normalisation of interface spelling before encoding is not represented.
- Scopes.GrantedNeverTakesRestricted: an execution's child calls are those of the registrations it invokes; operations on dyn targets are not represented.
- Bulk emission of child accessors, dyn targets, policy probes, unchecked access and embedded targets: they would add only easy members.
- Token handling, spans, diagnostics, and the compiler's type, lifetime and privacy checks.
