# Verified models of the compiler's analyses, lowering, layout and preprocessing

This project models four connected parts of the compiler and proves what each is for.
Everything is stated over all inputs, all runs or all reachable states; the imperative
parts of the source are classes and methods that update their state in place, each proved
against a function or a declarative specification, and the lemmas are about those.

- **Analyses on the block-argument SSA form.** `Paths`, `DomTree`, `Cfg`, `DepthFirst`,
  `IdomFixpoint`, `Dominators`, `DomFrontier`, `Placement` and `Sorting`: depth-first
  numbering, the Cooper-Harvey-Kennedy dominator fixpoint, Cytron frontiers and parameter
  placement, against dominance and convergence on paths. `Ir`, `AbstractDomain`,
  `SolverSteps`, `SolverSound`, `SolverLeast`, `Equations`, `SolverWidens`, `WidenOrder`,
  `Revisions`, `NeverStops` and `Solver`: the two-worklist sparse solver over any lattice, against the
  least solution of the whole-function equations and against concrete executions, and when it stops.
  `Secret`, `NonInterference`, `SecretCauses`, `RootLimit`, `LostSecret`, `Distances` and
  `SecretOrigins`: the taint analysis with its memory summary, against pairs of executions and
  against chains of causes, and the explanations read off it.
- **Lowering.** `Structured` is the checked statement language with its meaning (a machine
  over continuations, with `switch` fall-through, labels and `goto`), `BlockGraph` the
  target machine, `Lower` the lowering as functions, `FnLower` the same as the mutating
  builder object, and `LowerShape`, `LowerExprs`, `LowerRuns`, `LowerStmts`, `LowerSealed`,
  `LowerPoints`, `LowerMatch` and `LowerCorrect` the proof that nothing is lost or added.
  `AtomicUpdate` is the emitted compare-exchange loop run by any number of threads.
- **Layout, bit-fields and constants.** `Bits`, `BitField`, `Layout`, `LayoutLaws`,
  `LayoutLeast` and `LayoutScalars`: masked read-modify-writes on memory as bits, and the System V
  layout that says where they go, down to the scalars inside arrays and nested records.
  `Residues`, `ConstEval`, `CommonType` and `FoldAgrees`: the constant folder against the
  operations that lowered code performs, and the types of both.
- **Front end.** `MacroExpansion` and `MacroReplacement` (hide sets, replacement lists),
  `ConditionalInclusion` (the `#if` stack), `IfExpr` (the one-pass `#if` evaluator),
  `ExprParser` (the precedence climber and the printer it inverts) and `SameGrouping` (the
  two read the same expressions).

What the models found in the code:

- A conditional constant whose arm not taken does not fold keeps the taken arm's type
  instead of the common one: `1 ? -1 : 1u / 0u` folds to the `int` -1 while the lowered
  expression has the `unsigned` 4294967295 (`FoldAgrees.UnfoldableArm`; the exact condition
  is `FoldAgrees.CondAgreesIff`, over whole trees `FoldAgrees.AgreesIffSettled`).
- The depth limit on resolving memory roots is called conservative at
  `src/analysis/secret.rs:541-543` but is not: cut off, a pointer into a slot has the root
  unknown while the slot keeps its own (`RootLimit.LimitLosesTheSlot`), and a secret comes out
  as a value called public (`LostSecret.LimitBreaksNonInterference`). The roots are right exactly
  when no chain is cut short of a tracked target, as in builder order none is
  (`RootLimit.ConsistentIffNoCut`).
- Widening at loop headers is said to make tall lattices terminate at
  `src/analysis/solver.rs:28-34`. It does exactly where no value feeds itself but through a
  header's parameter (`Revisions.StopsIffNoCycle`): then every run on every domain whose
  widening stops is bounded, and otherwise there is a domain with sound joins and a widening
  that stops on which no run ends. Reducible graphs meet the condition
  (`WidenOrder.ReducibleStops`); a cycle with two ways in has no header, and on one the solver
  never stops, on a lattice of counts with least upper bounds (`NeverStops.NeverDone`).
- `_Pragma`'s four tokens are taken from whatever follows, so expansion distributes over
  concatenation exactly when none can straddle the cut (`MacroExpansion.AppendsIffNoStraddle`).
- The frontier lists are exact exactly when the entry has no reachable predecessor
  (`DomFrontier.ExactIffEntryHasNoPred`).
- A record without content has size 1 whatever its alignment, so the size is a multiple of
  the alignment exactly when it has content or needs none (`LayoutLaws.SizeIsMultiple`).

## Model

| member | source | states |
|---|---|---|
| Cfg.ControlFlowGraph.constructor | src/analysis/cfg.rs:27-48 | the successor lists keep the in-range edges, and each edge is in its target's predecessor list as often as it occurs |
| Cfg.ControlFlowGraph.PredsAreEdges | src/analysis/cfg.rs:41-46 | predecessor lists hold exactly the edges, with multiplicity |
| DepthFirst.PostOrder | src/analysis/cfg.rs:87-106 | the explicit-stack search visits exactly the blocks reachable on a path and finishes each after what it leads to |
| DepthFirst.Number | src/analysis/cfg.rs:108-113 | the reversed finish order is a reverse postorder: every block but the entry has a predecessor before it |
| IdomFixpoint.Intersect | src/analysis/cfg.rs:201-211 | the two-finger walk ends, at the one block whose ancestors are exactly the common ancestors |
| IdomFixpoint.Fixpoint | src/analysis/cfg.rs:115-139 | the passes stop, at links that are the meet of their predecessors and never skip a true dominator |
| Dominators.DominatorTree.constructor | src/analysis/cfg.rs:77-156 | the finished tables are a dominator tree, exact reachability and exact loop headers of the graph |
| Dominators.DominatorTree.Dominates | src/analysis/cfg.rs:181-195 | true exactly when both blocks are reachable and every path from the entry to the second passes through the first |
| Dominators.DominatorTree.IsReachable | src/analysis/cfg.rs:160-162 | true exactly when a path from the entry leads to the block |
| Dominators.DominatesIffAnc | src/analysis/cfg.rs:181-195 | the link chain of a finished tree is path dominance, both ways |
| Dominators.LinkIsImmediateDominator | src/analysis/cfg.rs:164-171 | a block's link strictly dominates it and every other strict dominator dominates the link |
| Dominators.LoopHeaders | src/analysis/cfg.rs:141-155 | a block is a header exactly when it dominates one of its reachable predecessors |
| DomFrontier.Climb | src/analysis/domfrontier.rs:54-68 | the walk from a predecessor ends at the immediate dominator and adds the join to exactly the lists on its way |
| DomFrontier.DominanceFrontiers.constructor | src/analysis/domfrontier.rs:43-75 | every list is sorted, without duplicates, and holds the recorded frontier |
| DomFrontier.WalkedIsFrontier | src/analysis/domfrontier.rs:43-75 | the walks record exactly the frontier by paths, except the entry in its own |
| DomFrontier.ExactIffEntryHasNoPred | src/analysis/domfrontier.rs:43-75 | the lists are the definition for all blocks if and only if the entry has no reachable predecessor |
| DomFrontier.DominanceFrontiers.Iterated | src/analysis/domfrontier.rs:89-109 | a sorted, duplicate-free list: the least set holding the frontiers of the definitions and closed under frontiers |
| Placement.ClosureAbsorbsJoin | src/analysis/domfrontier.rs:82-109 | a block where nonempty paths from two distinct definition blocks first meet is in every such closed set |
| Placement.IteratedIsLeastJoinClosure | src/analysis/domfrontier.rs:82-109 | with the entry among the definitions the result is exactly the least set closed under such meetings |
| Solver.Engine.constructor | src/analysis/solver.rs:175-248 | all tables start from the seeds and, for a constant without one, the domain's value for it, with headers and instruction places right |
| Solver.Engine.Run | src/analysis/solver.rs:250-261 | the loop ends, on a lattice of finite height or where widening stops and every value's changes are paid for, at a solution of the whole-function equations, which under the lattice laws is below every other |
| Solver.Engine.VisitTerminator | src/analysis/solver.rs:302-315 | marks exactly the feasible edges, in order, and merges their arguments into the target parameters; which edges and arguments those are is `Ir.EdgesMean` and, case by case of the terminator, `Equations.SolutionMeans` |
| Solver.Engine.UpdateTargetParams | src/analysis/solver.rs:358-378 | every parameter is joined with its argument, widened at loop headers, and queued if it changed |
| Solver.Engine.ProcessSsa | src/analysis/solver.rs:381-397 | re-evaluates every use in an executable block and no other |
| SolverSound.StepKeepsInv | src/analysis/solver.rs:250-397 | whichever worklist entry is served, every visited instruction stays consistent with the values or has an operand queued |
| SolverSound.SolverIsSound | src/analysis/solver.rs:250-397 | after the solver stops, every concrete execution, which takes a conditional branch's first edge exactly where its condition holds and a switch's case exactly where the value equals its constant, enters only reachable blocks and computes only values in the concretization |
| Ir.EdgesMean | src/analysis/solver.rs:302-356 | the edges of a terminator, their targets and arguments, read off its operands position by position: the condition first, then one slice after the other |
| Equations.SolutionMeans | src/analysis/solver.rs:250-397 | what the solver's solutions are, without its steps: each result holds its transfer, a conditional branch goes to its first target where the condition may be true and to its second where it may be false, a switch to each case it may equal and to the default if it may equal none, and each parameter holds all its arguments |
| SolverLeast.StepDescends | src/analysis/solver.rs:250-397 | every iteration, in any order, lowers a lattice-height measure |
| SolverLeast.AnyOrderIsBounded | src/analysis/solver.rs:250-397 | no order of service is longer than the measure of the start |
| SolverLeast.AnyOrderIsLeast | src/analysis/solver.rs:250-397 | any two orders that stop agree on values, blocks and edges, the least solution |
| SolverWidens.StepSpends | src/analysis/solver.rs:263-397 | with widening at loop headers, on any lattice, every iteration in any order spends a budget that balances each value against its uses |
| SolverWidens.WidenedIsBounded | src/analysis/solver.rs:28-34 | so no order of service is longer than the budget of the start |
| WidenOrder.OrderBalances | src/analysis/solver.rs:356-378 | such budgets exist whenever the values can be ordered so that a use leads forward or into a loop header's parameter |
| WidenOrder.OrderIffNoCycle | src/analysis/solver.rs:356-397 | there is such an order if and only if no value feeds itself through live uses without passing a header's parameter |
| WidenOrder.OrderIsEnough | src/analysis/solver.rs:28-34 | with such an order every run, in every order of service and on every domain whose widening stops, is bounded |
| WidenOrder.ReducibleStops | src/analysis/solver.rs:28-34 | on a graph whose retreating edges all enter loop headers, with definitions dominating uses, every run in every order is bounded |
| Revisions.StepTimed | src/analysis/solver.rs:263-397 | on a domain that numbers its revisions, every iteration in any order keeps that an operand last changed before what its uses store, or is still queued, or the stored result is out of date |
| Revisions.StoppedHasOrder | src/analysis/solver.rs:250-397 | a run that stops there leaves such an order: that of the last changes |
| Revisions.OrderIsNeeded | src/analysis/solver.rs:28-34 | without such an order that domain, with sound joins, monotone transfers and a widening that stops, has runs of every length on the same function and none that stops |
| Revisions.StopsIffNoCycle | src/analysis/solver.rs:28-34 | the exact condition: no value feeds itself but through a header if and only if the runs there are bounded, if and only if one stops; and it bounds the runs on every domain whose widening stops |
| NeverStops.NeverDone | src/analysis/solver.rs:28-34 | on a cycle with two ways in no run in any order ever stops, though the lattice's widening does |
| NeverStops.RunsForGood | src/analysis/solver.rs:28-34 | its runs are of every length, and some of its values feed themselves |
| NeverStops.MakeEngine | src/analysis/solver.rs:175-248 | the engine sets up exactly that problem |
| Secret.SlotEscapes | src/analysis/secret.rs:576-619 | true exactly when no set of pointers closed under derivation, and used only as addresses, holds the slot's address |
| Secret.ComputeRoots | src/analysis/secret.rs:538-570 | the memoized resolution with its depth limit, value by value in index order |
| Secret.TaintLaws | src/analysis/secret.rs:116-154 | the taint lattice with its hooks obeys every law the solver rests on and has finite height |
| Secret.StableSummary | src/analysis/secret.rs:494-534 | at a stable summary no instruction of a reachable block adds anything |
| Secret.Compute | src/analysis/secret.rs:293-323 | the outer loop ends, with the least pair of taints and memory summary that leave each other unchanged |
| NonInterference.LockstepKept | src/analysis/secret.rs:249-323 | of two runs at the same point that agree on what is public, neither can go on or both do, to such points again, with every pointer where its root says |
| NonInterference.NonInterference | src/analysis/secret.rs:293-323 | two runs from inputs equal but for secrets have, after any number of steps, both stopped or reached the same point with the same value for all not called secret |
| RootLimit.ComputedIsNonInterfering | src/analysis/secret.rs:293-323 | the same for whatever the analysis computes, given only that the limit cuts no chain |
| RootLimit.ConsistentIffNoCut | src/analysis/secret.rs:538-570 | every pointer has the root of what it derives from if and only if no value has, 64 derivations below, a tracked pointer that no earlier value's chain passes through |
| RootLimit.BuilderOrderLosesNone | src/analysis/secret.rs:541-547 | where bases come before what is derived from them, the limit cuts nothing |
| RootLimit.LimitLosesTheSlot | src/analysis/secret.rs:541-567 | a 65-bitcast chain, outermost first, loses its slot: the outermost has the root unknown and the slot its own |
| LostSecret.LimitBreaksNonInterference | src/analysis/secret.rs:541-567 | on that chain every other hypothesis of non-interference holds of the finished analysis, whatever it is, and two runs that differ in a secret end with different values of one called public |
| LostSecret.CellExists | src/analysis/secret.rs:541-567 | a machine as the two runs need it, with cells that hold one value each, exists |
| LostSecret.AnalyseLong | src/analysis/secret.rs:293-323 | the analysis does finish there, with that value public |
| SecretCauses.SecretIffCaused | src/analysis/secret.rs:293-323 | a value is called secret, and a place in memory holds a secret, exactly when a finite chain leads back to a declared source: a secret parameter, global or load, a flagged store or a parameter an edge leaves out, through reached stores and fills of secret values, copies from tainted places, loads, arguments and operands but no declassification |
| SecretCauses.NothingComesOut | src/analysis/secret.rs:485-534 | so with nothing declared secret or flagged, and no parameter left out, no value is called secret and no memory is tainted |
| SecretOrigins.ReasonsAre | src/analysis/secret.rs:359-420 | the immediate reasons given for a block parameter are exactly the secret arguments that some edge to its block passes for it, those for a result exactly its secret operands |
| SecretOrigins.Depth | src/analysis/secret.rs:459-483 | the breadth-first search returns the length of the shortest chain back to a source, or that there is none |
| SecretOrigins.OriginOf | src/analysis/secret.rs:366-381 | a source, or a step to a value exactly one nearer a source; nothing exactly when there is no chain |
| SecretOrigins.Explain | src/analysis/secret.rs:384-395 | the walk ends; every link steps one nearer, the last is a source, and the length is the depth plus one |
| SecretOrigins.EverySecretExplained | src/analysis/secret.rs:361-483 | a value is classified secret exactly when it has a depth |
| FnLowering.FnLower.EnsureLiveBlock | lf-cc/src/lower.rs:718-723 | a fresh block is begun exactly when the current one is terminated |
| FnLowering.FnLower.BlockOfLabel | lf-cc/src/lower.rs:872-880 | one block per label, created at its first mention |
| FnLowering.FnLower.LowerStatement | lf-cc/src/lower.rs:725-866 | the builder after a statement is the lowering function's |
| FnLowering.FnLower.LowerIf | lf-cc/src/lower.rs:933-954 | likewise, branch by branch |
| FnLowering.FnLower.LowerWhile | lf-cc/src/lower.rs:956-974 | likewise, with the loop's stacks pushed and popped |
| FnLowering.FnLower.LowerDoWhile | lf-cc/src/lower.rs:976-994 | likewise |
| FnLowering.FnLower.LowerFor | lf-cc/src/lower.rs:996-1033 | likewise, `continue` going to the step |
| FnLowering.FnLower.LowerSwitch | lf-cc/src/lower.rs:887-931 | likewise, one block per mark, the marks of an outer switch restored |
| FnLowering.FnLower.LowerForEffect | lf-cc/src/lower.rs:1039-1077 | likewise, for an expression whose value is dropped |
| FnLowering.FnLower.LowerShortCircuit | lf-cc/src/lower.rs:1729-1748 | likewise, for a short-circuit operator |
| FnLowering.FnLower.TruthOf | lf-cc/src/lower.rs:2290-2299 | likewise, for a condition |
| FnLowering.LowerFunction | lf-cc/src/lower.rs:515-621 | the mutating builder leaves exactly the blocks the lowering function gives |
| LowerRuns.ExprRuns | lf-cc/src/lower.rs:1284-1430 | the code of an expression reaches its end with the value and the effects that evaluation gives, earlier values kept |
| LowerRuns.LogicalRuns | lf-cc/src/lower.rs:1729-1748 | a short-circuit operator evaluates its right operand exactly when it must, and joins on the value |
| LowerRuns.TernaryRuns | lf-cc/src/lower.rs:1750-1768 | a conditional expression evaluates one arm and joins on its value |
| LowerRuns.TruthRuns | lf-cc/src/lower.rs:2290-2299 | a condition's code yields the truth of its value |
| LowerRuns.EffectRuns | lf-cc/src/lower.rs:1039-1077 | code for effect has the effects of the expression, in order |
| LowerSealed.EveryBlockSealed | lf-cc/src/lower.rs:704-1034 | every emitted block ends with exactly one terminator, which nothing follows |
| LowerCorrect.StepMatches | lf-cc/src/lower.rs:704-1034 | each step of any statement, from any matching point, is followed by the blocks to a matching point |
| LowerCorrect.BlocksFollow | lf-cc/src/lower.rs:704-1034 | after any number of statement steps the blocks reach a point standing for the state reached |
| LowerCorrect.SameResult | lf-cc/src/lower.rs:515-1034 | if the function returns, its blocks return the same result with the same store and the same trace of operations |
| LowerCorrect.ResultBack | lf-cc/src/lower.rs:515-1034 | if the blocks return, the function returns the same: lowering neither adds nor removes non-termination |
| LowerCorrect.NeverStuck | lf-cc/src/lower.rs:704-1034 | the blocks never reach a missing value, a missing block or the end of a block without a terminator |
| LowerCorrect.EffectsKept | lf-cc/src/lower.rs:704-1034 | also of endless runs, every trace of the statements is a trace of the blocks |
| LowerCorrect.EffectsAdded | lf-cc/src/lower.rs:704-1034 | and every trace of the blocks begins one of the statements |
| AtomicUpdate.EveryInterleaving | lf-cc/src/lower.rs:1963-1988 | at every moment of every interleaving the cell is the composition of the updates done so far in order of success, each from what the one before left |
| AtomicUpdate.NoUpdateLost | lf-cc/src/lower.rs:1881-1988 | once all threads finish, each thread's returned old and new value is its one step of that order |
| AtomicUpdate.EveryRunEnds | lf-cc/src/lower.rs:1963-1988 | no interleaving, fair or not, takes more steps than a bound seen at the start |
| BitField.ReadIs | lf-cc/src/lower.rs:2127-2155 | shift and mask, or the two shifts, give the field's bits widened by its sign |
| BitField.WriteIs | lf-cc/src/lower.rs:2161-2203 | the read-modify-write replaces the field's bits and no others, and its value is the field's new value |
| BitField.WriteAtIs | lf-cc/src/lower.rs:2161-2203 | in memory, bit by bit |
| BitField.WriteThenRead | lf-cc/src/lower.rs:2127-2203 | reading back gives what the write returned, the value cut to its width and widened again |
| BitField.WrittenNumber | lf-cc/src/lower.rs:2127-2203 | as numbers: the residue modulo two to the width, or the number of that residue in the signed range |
| LayoutScalars.SizeIsLeastHolding | lf-cc/src/layout.rs:35-55 | through arrays, vectors and nested records that are not packed, every scalar and bit-field lies inside the size, and the size is the least: so many alignments are enough for the type exactly when they are for each place in it |
| LayoutScalars.SizeIsWhole | lf-cc/src/layout.rs:35-76 | and it is a whole number of alignments, but that a vector and a record with nothing in it take no more than their places |
| LayoutScalars.PlacesApart | lf-cc/src/layout.rs:35-205 | two scalars or bit-fields at any depth share no bit unless a union lays them over each other |
| LayoutScalars.PlaceSits | lf-cc/src/layout.rs:58-76 | wherever an aligned object lies, every scalar in it is at a multiple of its own alignment and every bit-field inside one unit of its declared type |
| LayoutScalars.AlignIsLeast | lf-cc/src/layout.rs:20-76 | the alignment of a type, packed or not, is the least power of two that is enough for its scalars, its vectors' lengths and what is written out |
| LayoutScalars.LaidField | lf-cc/src/layout.rs:146-190 | a bit-field's placement in a struct or a union names the width and sign of its declared type and its own width |
| LayoutScalars.ResolveIs | lf-cc/src/layout.rs:240-268 | a lookup gives the record's own member of that name, else that of the first anonymous record that has one, its offsets added up, and nothing exactly when no member inside has the name |
| Layout.ComputeLayout | lf-cc/src/layout.rs:119-205 | the loop over the members computes the layout function |
| LayoutLaws.StructInvariant | lf-cc/src/layout.rs:119-205 | in a struct that is not packed, members are aligned, bit-fields fit an aligned unit, members occupy disjoint bit ranges in order, and all of them and their units lie inside |
| LayoutLaws.SizeIsMultiple | lf-cc/src/layout.rs:119-205 | the size is a multiple of the alignment if and only if the record has content or needs no alignment |
| LayoutLaws.UnionFits | lf-cc/src/layout.rs:177-204 | members of a union, packed or not, begin at its start and lie inside its size, and so do bit-field units |
| LayoutLaws.FieldsAreIsolated | lf-cc/src/layout.rs:119-205 | writing one bit-field where the layout puts it and reading it gives the written value, and every other member reads as before |
| LayoutLaws.ResolvedFits | lf-cc/src/layout.rs:240-268 | a member found by name through anonymous records is aligned and inside, and so is its unit |
| LayoutLeast.PackedTightly | lf-cc/src/layout.rs:128-175 | every member of a struct, packed or not, begins at the first bit after the one before it where its alignment or its unit lets it, and a bit-field's placement names its unit, width and sign |
| LayoutLeast.SizeIsLeast | lf-cc/src/layout.rs:172-176 | a struct ends at the first multiple of its alignment after its last member, and an empty one takes a byte |
| LayoutLeast.UnionSizeIsLeast | lf-cc/src/layout.rs:178-203 | a union ends at the first multiple of its alignment that holds its largest member |
| LayoutLeast.AlignIsLargest | lf-cc/src/layout.rs:119-205 | the alignment is the largest that the record or a member asks for |
| CommonType.PromoteIs | lf-cc/src/sema.rs:552-558 | a type becomes `int` exactly when `int` holds all its values and it is not bit-precise, and else keeps itself |
| CommonType.CommonIs | lf-cc/src/sema.rs:592-620 | the common type is that of the two promoted types which holds every value of both if one does; else it is unsigned and as wide as the wider; at equal widths it is bit-precise only if both are |
| CommonType.CommonKeeps | lf-cc/src/sema.rs:592-620 | where one of the two holds every value of both, conversion to the common type changes no value |
| ConstEval.UsualArithSymmetric | lf-cc/src/sema.rs:592-620 | the common type does not depend on the order of the operands |
| ConstEval.QuotRounds | lf-cc/src/consteval.rs:134-138 | division rounds toward zero: what is left over is smaller than the divisor and has the dividend's sign |
| Residues.BitwiseBits | lf-cc/src/consteval.rs:139-141 | each bit of the and, or and exclusive or of two numbers is that of their bits |
| FoldAgrees.ReduceIs | lf-cc/src/consteval.rs:231-243 | reduction gives the one constant of the type congruent to the value, at 128 bits the value itself |
| FoldAgrees.ConvertIs | lf-cc/src/lower.rs:2321-2381 | a converted stored value stands for the reduced number |
| FoldAgrees.ArithAgrees | lf-cc/src/consteval.rs:108-155 | an operation on stored values, normalized, stands for the folded number wherever it is defined |
| FoldAgrees.CompareAgrees | lf-cc/src/lower.rs:2548-2568 | machine comparison at the operand width agrees with comparison of the folded numbers |
| FoldAgrees.AgreesIffSettled | lf-cc/src/consteval.rs:176-225 | over types of 8 to 128 bits, folding agrees with lowered code in every part of an expression if and only if each conditional that is computed folds to its own type |
| FoldAgrees.FoldAgreesWithExec | lf-cc/src/consteval.rs:176-225 | then, wherever lowered code computes a value, the expression folds to a normalized constant of its type whose stored form that value is |
| FoldAgrees.ArmsFoldSettles | lf-cc/src/consteval.rs:194-204 | it is so in particular when the arms of conditionals are constants |
| FoldAgrees.CondAgreesIff | lf-cc/src/consteval.rs:194-204 | a conditional whose parts agree agrees if and only if the taken arm's type, made common with what the other folds to if it does, is the conditional's |
| FoldAgrees.UnfoldableArm | lf-cc/src/consteval.rs:194-204 | a concrete conditional that folds to another type and value than it computes |
| MacroExpansion.StepsBound | lf-cc/src/preprocess.rs:1960-2047 | expansion ends: a bound from the macros not yet in each token's hide set |
| MacroExpansion.NothingLeft | lf-cc/src/preprocess.rs:1960-2047 | no identifier put out is still a macro outside its hide set |
| MacroExpansion.ExpandedStays | lf-cc/src/preprocess.rs:1960-2047 | expanding the output again changes nothing if and only if no live pragma operator stands in it |
| MacroExpansion.PragmaFreeExpands | lf-cc/src/preprocess.rs:1998-2009 | where no input token or macro body names `_Pragma` and none pastes it, no pragma operator is in the output or straddles its end |
| MacroExpansion.ExpandAppends | lf-cc/src/preprocess.rs:1960-2047 | expanding a concatenation is expanding its parts in turn |
| MacroExpansion.AppendsIffNoStraddle | lf-cc/src/preprocess.rs:1960-2047 | for every continuation, if and only if no pragma operator may straddle the cut |
| MacroExpansion.Preprocessor.ExpandAll | lf-cc/src/preprocess.rs:1960-2047 | the queue loop gives that expansion, or after five million iterations gives up with exactly what these put out |
| MacroExpansion.Preprocessor.Substitute | lf-cc/src/preprocess.rs:2120-2268 | pasting and painting in place give the replacement list |
| MacroExpansion.FirstStepsBegin | lf-cc/src/preprocess.rs:1965-1970 | what the first iterations put out begins the whole expansion, and is it when there are no more |
| MacroReplacement.PlainReplacement | lf-cc/src/preprocess.rs:2120-2212 | a body without pasting is its replacement, each token where the call stood and hidden from the call's hide set and the macro |
| MacroReplacement.LeftmostFirst | lf-cc/src/preprocess.rs:2120-2268 | the leftmost `##` is done first, on its two neighbours, a placemarker giving way to the other |
| MacroReplacement.OuterPastes | lf-cc/src/preprocess.rs:2163-2176 | a `##` that begins a body joins nothing and goes, one that ends it stays |
| MacroReplacement.FrontToken | lf-cc/src/preprocess.rs:1965-1997 | what a token at the front comes to: itself if it is no name or hidden from itself, and for the four special names the numeral of its line, of the count so far, of the depth of inclusion, or the file |
| MacroReplacement.FrontName | lf-cc/src/preprocess.rs:1998-2025 | any other name outside its hide set is dropped with the three tokens after it if they make a pragma operator, is replaced if it is a macro, and otherwise comes out as itself |
| MacroReplacement.DecimalIs | lf-cc/src/preprocess.rs:1984-1993 | a numeral put out is the number's: its digits come to it and the first is not a zero |
| MacroReplacement.CallThenRest | lf-cc/src/preprocess.rs:1960-2047 | a macro call expands as its replacement list does, then the rest of the line |
| ConditionalInclusion.EverySequence | lf-cc/src/preprocess.rs:1378-1439 | over any sequence of lines a frame that emits was taken and its parent emits, and each frame's parent flag is the activity of the frame below |
| ConditionalInclusion.OneBranchOnly | lf-cc/src/preprocess.rs:1378-1439 | a group that has had its branch and moved on never emits again, whatever lines follow |
| ConditionalInclusion.NextBranchIsOff | lf-cc/src/preprocess.rs:1403-1439 | the branch after an emitting one does not emit |
| ConditionalInclusion.WellFormedText | lf-cc/src/preprocess.rs:1308-1439 | well-formed text lets through exactly what it means, evaluates exactly the conditions that matter, and ends closed with one error for each `#ifdef` or `#ifndef` without a name, in skipped groups too, and no other |
| ConditionalInclusion.InOrderIffStructured | lf-cc/src/preprocess.rs:1308-1439 | the machine finds nothing wrong but missing names, and every conditional closed, exactly for the lines of a structured text: no stray, repeated or misplaced directive goes unnoticed |
| ConditionalInclusion.NamedGroup | lf-cc/src/preprocess.rs:1385-1401 | where text is emitted an `#ifdef` lets its first branch through exactly when the name is a macro, an `#ifndef` exactly when it is not, and skipped text neither |
| ConditionalInclusion.OneBranchOn | lf-cc/src/preprocess.rs:1378-1439 | over any lines, of the branches of an open conditional at most one was ever on, exactly one past an `#else` if the enclosing text emits, and none if it does not |
| ConditionalInclusion.GroupIsFirstArm | lf-cc/src/preprocess.rs:1385-1439 | a group lets through the text of its first arm that may be taken, and with an `#else` there is one |
| ConditionalInclusion.Conditionals.FirstIdentDefined | lf-cc/src/preprocess.rs:1507-1515 | true exactly when there is a name and it is a macro, with an error exactly when there is none |
| ConditionalInclusion.Conditionals.Handle | lf-cc/src/preprocess.rs:1378-1439 | the frame stack updated in place is the step function's |
| ConditionalInclusion.Conditionals.Process | lf-cc/src/preprocess.rs:1308-1375 | a whole file is the run of its lines, one error more if a conditional is left open |
| IfExpr.RingNumbers | lf-cc/src/preprocess.rs:2811-2813 | the number of a sum, difference or product is the one in the range of the common type congruent to that of the operands' numbers modulo 2^64 |
| IfExpr.BitsApart | lf-cc/src/preprocess.rs:2792-2794 | each bit of an and, or or exclusive or is that Boolean of the operands' bits |
| IfExpr.ApplyAgrees | lf-cc/src/preprocess.rs:2783-2832 | each operator on 64-bit patterns with a signedness is the operator on numbers, and fails exactly on a live zero divisor |
| IfExpr.TernaryAgrees | lf-cc/src/preprocess.rs:2670-2760 | at any skip depth the evaluator takes the tokens of the expression read and agrees with its lazy value |
| IfExpr.EvaluatesLazily | lf-cc/src/preprocess.rs:2665-2760 | the one-pass evaluator returns the lazily evaluated tree's value, and reports division by zero exactly when lazy evaluation reaches one |
| IfExpr.Evaluator.Ternary | lf-cc/src/preprocess.rs:2681-2698 | the evaluator object advances and answers as the function does, its skip count restored |
| SameGrouping.SamePrec | lf-cc/src/preprocess.rs:2762-2776 | the preprocessor's table of precedences is the parser's |
| SameGrouping.GroupsAlike | lf-cc/src/preprocess.rs:2681-2760 | the evaluator reads a tree if and only if the C parser finds an expression of the kind it knows in the same tokens, and then the same one to the same end |
| SameGrouping.ReadsBack | lf-cc/src/preprocess.rs:2681-2760 | every tree written with only the parentheses it needs is read back, to its own end |
| SameGrouping.WrittenEvaluates | lf-cc/src/preprocess.rs:2665-2832 | and evaluates to its own lazy value, or a division by zero exactly when it has none |
| ExprParser.BindsAsInStandard | lf-cc/src/parse.rs:3120-3145 | operators bind in the order of the subsections of section 6.5 of ISO C11 |
| ExprParser.RoundTrip | lf-cc/src/parse.rs:3052-3257 | every printed expression is parsed back, and exactly its tokens are taken |
| ExprParser.BinaryRoundTrip | lf-cc/src/parse.rs:3106-3145 | the precedence climber alone, from any minimum precedence |
| ExprParser.PrintIsShortest | lf-cc/src/parse.rs:3052-3257 | no token list parsed as the expression is shorter: parentheses stand only where needed |
| ExprParser.Parser.BinaryFrom | lf-cc/src/parse.rs:3106-3118 | the parser object advances and answers as the parsing function does |
| ExprParser.Parser.Expression | lf-cc/src/parse.rs:3052-3061 | likewise, for a whole expression |

## Left out

- Revisions.StopsIffNoCycle: exact over domains whose joins are upper bounds, as soundness needs; where joins are least upper bounds the condition is still enough but not needed, since a cycle of parameters alone then stops, and so may one that a header's widened parameter is passed into. That endless runs need no more than least upper bounds is shown on the graph of `NeverStops`.
- WidenOrder.ReducibleStops: goes one way; values may be in order on graphs that are not reducible, and the exact condition is `WidenOrder.OrderIffNoCycle`.
- Solver.Engine.Run: edge guards carry no bit width, so a domain whose feasibility depends on the width of the switched value is not covered.
- NonInterference.NonInterference: calls, syscalls, atomics and inline assembly are not in the language; memory is cells addressed by object and offset, and a pointer carries the object it points into.
- SecretOrigins.EverySecretExplained: assumes what the IR verifier checks, that no edge enters the entry and every edge passes an argument per parameter; inline assembly and calls have no reasons here.
- LowerCorrect.SameResult: statement expressions, computed `goto`, inline assembly, local declarations with initializers as such, and the prelude that stores parameters are not in the statement language; loads, stores, calls and arithmetic are primitive operations performed in order on an abstract store.
- FnLowering.FnLower.LowerSwitch: case values are compared as the integers they are; the source's widening of the switched value is not modelled.
- AtomicUpdate.EveryInterleaving: sequentially consistent memory and no spurious failure, as the emitted orderings and instruction promise; `f` is straight-line code, as the source requires of it.
- LayoutLaws.StructInvariant: packed records, whose bit-fields may straddle their unit, are laid out but not in the bit-field invariants; sizes are unbounded and so do not overflow 64 bits.
- LayoutScalars.SizeIsLeastHolding: not for packed records, which keep the padding inside their members; that their members are tight and inside is `LayoutLeast.PackedTightly` and `LayoutLeast.SizeIsLeast`, measured by the members' sizes.
- BitField.WriteIs: volatile access and byte order play no part; a unit is a sequence of bits.
- FoldAgrees.AgreesIffSettled: floating constants, `sizeof`, `_Alignof` and identifiers are not folded here, and overflow flags that mark undefined results are not modelled.
- MacroExpansion.ExpandAppends: object-like macros only; function-like macros, `#` and spacing flags are left out.
- MacroExpansion.AppendsIffNoStraddle: assumes `_Pragma` is not itself a macro.
- ConditionalInclusion.WellFormedText: what a condition evaluates to, the errors of its own it may report, which names are macros, and other directives inside the text are not part of it.
- IfExpr.EvaluatesLazily: `defined`, `__has_include` and identifiers have been replaced by numbers before; which diagnostic is given is not modelled.
- ExprParser.RoundTrip: casts, postfix expressions, `sizeof`, compound literals and statement expressions are primaries the printer does not print.
- File search, `#include`, `#embed`, driver, linker, code generation, floating point, vectors, variadic calls and aggregate passing are not modelled.
- Declarations, attributes, initializers, spans and diagnostics of the parser and of semantic analysis are not modelled.
