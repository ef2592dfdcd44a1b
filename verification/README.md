# Gophersat in Dafny

A model of Gophersat, a conflict-driven solver for propositional and pseudo-boolean (PB) problems, and proofs
about it. Five parts are covered.

- **The propositional engine** (`Bindings`, `Watches`, `State`, `Learn`, `FirstUip`, `Backjump`, `Progress`,
  `Certificate`, `Refinement`, `Steps`, `LbdStats`, `Ledger`, `Queue`, `Solver`). The class `Solver` has the fields of
  the Go solver (trail, model, reasons, two families of watch lists, clause arena, decision heap, restart statistics,
  counters, certificate) and its methods change them in place. Propagation is shown to be the least fixpoint of naive
  unit propagation (`UnitProp`), learning to give the clause of the first unique implication point, minimised, which
  reverse unit propagation accepts. `Solve` is total: it restarts just when the source does and always answers, since
  every conflict gives a new literal of level 1 or a clause that is not there yet, there are only so many of both, and
  deletions of learned clauses take ever more conflicts.
- **The certificate checker** (`Checker`), and the two together (`Explain`), on one list of clauses: the solver works
  on what simplification leaves of it, the checker reads the clauses as given, and the certificate is accepted unless
  a clause repeats a literal. The clauses the checker tagged are those used, and they are unsatisfiable on their own.
  `Decide` goes from a list of clauses to a verdict through the level-0 simplification: a model if there is one.
- **Pseudo-boolean reasoning** (`Linear`, `PbClause`, `CuttingPlanes`, `Resolution`, `PbSet`, `PbWatch`,
  `PbPropagation`): the arithmetic of weakening, rounding, division and addition; the whole conflict analysis loop;
  watching and propagation. `PbEngine` joins them: what parsing and simplification leave is what propagation loads,
  and a conflict of propagation is what the analysis starts from.
- **Transformations that keep a meaning** (`Simplify`, `SimplifyPb`, `PbConstr`, `BoolFormula`, `Unique`,
  `UniqueSize`, `Cnf`, `CnfModels`, `UniqueCnf`, `ExactFragment`, `MaxSat`).
- **Searches over a decision procedure** (`Optimize`, `Mus`).

Where a promise of the code is false, a lemma gives the input and another says exactly when the promise holds.

- The checker refuses some certificates of the solver: it counts the occurrences of a literal, and the solver merges
  them (`Explain.RefusedInput`). Every certificate is accepted if each clause that repeats a literal also holds a
  literal with its negation (`Explain.CertAccepted`), and any other clause does harm in some problem
  (`Explain.HarmDone`).
- `cuttingPlanes` answers "unsatisfiable" on a satisfiable database when the constraint falsifies a decision and
  nothing of the level above it (`WrongVerdict.WrongVerdict`). A database that can be met gets this answer if and only
  if the branch `reason == nil` is taken with a falsified literal, and a constraint to learn otherwise
  (`Resolution.RunExact`). On some contradictory databases the same loop never ends (`WrongVerdict.NeverEnds`) or
  indexes the trail at -1 (`WrongVerdict.LeavesTrail`).
- `divideBy` keeps the solutions exactly when the degree is not strictly between `-coeff` and 0
  (`CuttingPlanes.DivideImplied`); conflict analysis never divides such a degree (`CuttingPlanes.RoundSlack`).
- PB watching misses propagations, but no conflict. While no watched literal is false, something can be missed if and
  only if a watched weight exceeds what the watches leave above the degree (`PbPropagation.MissedExactly`). `watchPB`
  starts with enough if the first weight is the largest, `updateWatchPB` stops sooner, and `MissedPropagation.MissedRun`
  is a run from loading on that leaves two forced literals free.
- `reduceLearned` reads the list of learned clauses at the middle, which fails on an empty list. That takes at least two
  thousand variables, as so many literals were learned before (`Ledger.DueNonempty`).
- `ParsePBConstrs` makes a unit of every literal when the weights just reach the degree. That is right if and only if
  no weight is 0 (`SimplifyPb.DemandedExact`).
- `and(true)` is normalised to `false` and `or(false)` to `true` (`BoolFormula.EmptiedConnectives`); a connective is
  made right exactly when it does not run out of members (`BoolFormula.MakeAndExact`, `BoolFormula.MakeOrExact`).
- `cnfRec` loses models (`ExactFragment.ModelLost`), so that some formulas with models are answered unsatisfiable
  (`ExactFragment.WrongAnswer`). Which models are found is said exactly for every formula in normal form
  (`CnfModels.ModelsExact`). On formulas in which no variable occurs twice none is lost if and only if each conjunction
  below a disjunction holds only literals and disjunctions of literals (`ExactFragment.FragmentExact`). The formulas of
  `Unique` qualify (`UniqueCnf.UniqueFits`).
- MaxSAT relaxation gives a soft constraint without coefficients a blocking literal of weight 1, too little for a bound
  of 2. A soft constraint over distinct names is relaxed rightly if and only if the lowest sum it can have reaches the
  bound, alone or with the blocking weight (`MaxSat.RelaxableExact`); any other makes some problem unsolvable whose hard
  constraints can be met (`MaxSat.Unrelaxable`).

Conventions. A literal is a variable number and a polarity. A clause pointer is an index in the arena `clauses`; slots
of deleted clauses stay in the arena and leave the set `live`. `multiset(c)` is a clause up to the order in which the
watch scheme permutes it. `hide` in a proof only narrows what the verifier looks at.

## Model

| member | source | states |
|---|---|---|
| UnitProp.StableNotConflicting | explain/problem.go:51-108 | One stable outcome without conflict rules out every other order of unit steps that would end in a conflict. |
| UnitProp.StableContains | explain/problem.go:51-108 | A stable consistent set that holds the starting bindings holds everything any order of unit steps derives. |
| UnitProp.ConflictingSound | explain/problem.go:51-108 | A refutation by unit propagation excludes every model that agrees with the starting bindings. |
| UnitProp.RupEntails | explain/check.go:22-37 | A clause accepted by reverse unit propagation is entailed. |
| Checker.Problem.InitTagged | explain/problem.go:21-27 | Exactly the unit clauses start tagged. |
| Checker.Problem.Scan | explain/problem.go:62-84 | Reading one clause finds a true literal, or counts the free ones up to two and returns the first. |
| Checker.Problem.Visit | explain/problem.go:58-103 | One visit keeps the run a sequence of unit steps from tagged or learned clauses, marks only satisfied clauses as done, and tags only clauses used in the run. |
| Checker.Problem.Unsat | explain/problem.go:51-108 | Returns true exactly when some order of unit steps reaches a falsified clause; every clause tagged meanwhile gave a step of one such run or is falsified at its end. Otherwise the bindings are the stable least fixpoint. It terminates. |
| Checker.Problem.UnsatClause | explain/check.go:22-37 | True exactly when negating the clause leads to a conflict; the bindings are restored, tags only grow, and each new one marks a clause used in that refutation. |
| Checker.Problem.CheckCertificate | explain/check.go:79-107 | Accepts exactly the certificates whose every clause passes; the tagged clauses then entail each of them, and each is a unit or was used in accepting one. The problem is restored. |
| Checker.Problem.CheckCertificateChan | explain/check.go:43-74 | The same up to the first empty clause. |
| Checker.Problem.Restore | explain/problem.go:45-47 | Drops the accepted clauses and nothing else. |
| Checker.Problem.UnsatSubset | explain/check.go:117-149 | The subset returned is the tagged clauses and no others, in order; each has one literal or was used in accepting a clause of the certificate; they are unsatisfiable alone once the certificate holds the empty clause. |
| Checker.UsedNext | explain/problem.go:85-101 | Accepting one more clause keeps every tag accounted for: a unit, or a clause that gave a unit step of a refutation or was falsified at its end. |
| Checker.AcceptedEntailed | explain/problem.go:85-103 | An accepted clause follows from the clauses tagged so far and from the units they contain. |
| Checker.EmptyRefutes | explain/check.go:61-64 | An accepted empty clause makes the tagged clauses unsatisfiable. |
| Queue.Queue.PercolateUp | solver/queue.go:51-62 | The indexed heap keeps its entries and its index table; if only the entry moved was out of order, the heap is ordered. |
| Queue.Queue.PercolateDown | solver/queue.go:64-82 | The same downwards, for the part of the heap from any position on. |
| Queue.Queue.Insert | solver/queue.go:94-101 | Adds one entry for the variable, duplicates included; order is kept. |
| Queue.Queue.RemoveMin | solver/queue.go:103-114 | Removes the first entry and returns it; in an ordered heap no entry is more active, and order is kept. |
| Queue.Queue.Build | solver/queue.go:116-128 | The entries are the given ones, ordered whatever was there before. |
| Queue.Queue.Decrease | solver/queue.go:90-92 | If only the entry the index points at was out of order, the heap is ordered. |
| Queue.BumpRises | solver/queue.go:90-92 | Raising the activity of a variable with a single entry leaves at most that entry out of order. |
| Watches.MoveWatch | solver/watcher.go:357-401 | Swapping an unfalsified literal into the second place and moving the watcher keeps the lists exact and every clause guarded. |
| Watches.GuardNext | solver/watcher.go:289-326 | Once both lists of a literal are visited, each clause watching its negation has a true literal at a level no higher. |
| Bindings.ReasonOnce | solver/solver.go:290-348 | A clause is the reason of one trail position only, but for a literal given twice at level 1; so unlocking it on undoing that literal is right. |
| Refinement.FixpointReached | solver/watcher.go:289-401 | Propagation without conflict derives only unit consequences, ends stable, and no order of unit steps meets a conflict. |
| Refinement.ConflictReached | solver/watcher.go:289-401 | A conflict found through the watches is a conflict of naive unit propagation. |
| Certificate.PropagatedTrue | solver/watcher.go:289-401 | After propagation each live clause has a true literal or both watches free. |
| Solver.Solver.constructor | solver/solver.go:92-135 | Loading binds the units at level 1, also those listed twice, watches every clause and queues every variable. |
| Solver.Solver.WatchClause | solver/watcher.go:90-121 | Adds the two watchers of a clause to the binary or the long lists. |
| Solver.Solver.PropagateUnit | solver/watcher.go:348-355 | Binding a forced literal records its reason, locks the clause and keeps the state sound. |
| Solver.Solver.Rewatch | solver/watcher.go:377-386 | Finds an unfalsified literal from the third on and watches it, or shows that all of them are false. |
| Solver.Solver.VisitWatcher | solver/watcher.go:360-397 | One watcher is kept, moved or found in conflict, and the part of the list already compacted stays right. |
| Solver.Solver.SimplifyPropClauses | solver/watcher.go:357-401 | The compacted list guards every clause left on it, also when a conflict cuts the visit short. |
| Solver.Solver.PropagateBin | solver/watcher.go:293-302 | All binary clauses of the literal hold afterwards, or one of them is in conflict. |
| Solver.Solver.Propagate | solver/watcher.go:289-326 | Returns nil exactly when naive unit propagation of the database from the trail meets no conflict; the new literals are derived by unit steps and the result is stable. |
| Solver.Solver.UnifyLiteral | solver/watcher.go:329-333 | The same for a literal just bound, from a state ready for it. |
| Learn.PassOne | solver/learn.go:54-87 | Popping a marked literal of the conflict level keeps the resolution invariant and lowers the count. |
| Learn.Replay | solver/learn.go:45-130 | Negating the minimised clause replays, in trail order, every reason the analysis used. |
| Learn.LearnedRup | solver/learn.go:45-130 | The minimised learned clause is accepted by reverse unit propagation on every set that holds the known clauses. |
| Learn.CollectedAsserting | solver/learn.go:88-97 | Sorted, the collected clause is false, over distinct variables, with exactly one literal of the conflict level, in front. |
| Learn.SubAsserting | solver/learn.go:112-130 | Dropping literals other than the first keeps that shape. |
| Solver.Solver.AddClauseLits | solver/learn.go:18-41 | Starts the walk: marks the conflict clause and counts its literals of the conflict level. |
| Solver.Solver.ReadReason | solver/learn.go:68-86 | Resolving with a reason keeps the walk invariant one trail position lower. |
| Solver.Solver.MinimizeLearned | solver/learn.go:112-130 | Returns the first literal and, of the others, exactly those without a reason or with a reason that holds an unmarked variable; the clause stays asserting. |
| Solver.Solver.LearnClause | solver/learn.go:45-108 | The clause learned is the negated first unique implication point with the lower literals the conflict rests on, less exactly those the minimisation drops; it is asserting, accepted by reverse unit propagation on any set holding the known clauses, and comes with its number of levels. |
| Solver.Solver.UnmetLiteral | solver/learn.go:118-124 | Whether the reason of a literal holds a variable that was not met. |
| Solver.Solver.ComputeLbd | solver/learn.go:4-14 | The number of distinct levels of the literals of a sorted clause. |
| Learn.NextLevel | solver/learn.go:7-13 | In a clause sorted by level a change of level is a level not seen before. |
| FirstUip.RestsMarked | solver/learn.go:54-87 | The walk misses nothing: a literal that some chain of reasons connects with the conflict is marked if it is of the level, and collected if it is below. |
| FirstUip.UipFound | solver/learn.go:54-92 | The literal at which one mark is left is a unique implication point, and none is closer to the conflict. |
| FirstUip.LowerCollected | solver/learn.go:54-87 | The literals collected are exactly those below the level that the conflict then rests on. |
| FirstUip.RedundantIs | solver/learn.go:112-130 | What the minimisation drops, said without marks: literals whose reason holds only literals the conflict rests on. |
| Backjump.CutGuarded | solver/solver.go:290-348 | Undoing bindings keeps every clause guarded without touching a watch. |
| Backjump.LearnedUnit | solver/solver.go:365-368 | Back at the level of the second literal the first is free and all others are false. |
| Backjump.TopConflict | solver/solver.go:411-424 | A conflict at level 1 is a refutation by unit propagation alone. |
| Backjump.Delete | solver/watcher.go:190-210 | A clause that is not locked is no reason, and the database without it is still sound. |
| Solver.Solver.CleanupBindings | solver/solver.go:290-348 | The state is cut back to the level, the clauses stay guarded, every undone variable is queued, and its sign is kept for the next decision. |
| Solver.Solver.UndoFrom | solver/solver.go:311-325 | Frees the variables of a suffix of the trail, unlocks their reasons, and queues each; returns those that had no entry. |
| Solver.Solver.ChooseLit | solver/solver.go:255-267 | Returns a free literal with the sign kept for its variable, or nothing exactly when every variable is bound. |
| Solver.Solver.RebuildOrderHeap | solver/solver.go:370-377 | The queue holds each free variable once, besides as many entries for variable 0 as there are variables. |
| Solver.Solver.AddLearned | solver/watcher.go:243-254 | The learned clause joins the database, its watches and the certificate; the older clauses stay guarded. |
| Solver.Solver.UnwatchClause | solver/watcher.go:154-168 | Removes the two watchers of a clause and leaves all others. |
| Solver.Solver.ReduceLearned | solver/watcher.go:190-210 | Of the first half of the sorted list deletes exactly the clauses of block distance above 2 that are not locked; none was a reason, problem clauses stay, and the counters move as they should. |
| Solver.Solver.SortLearned | solver/watcher.go:75-87 | The learned clauses by decreasing block distance. |
| Steps.PruningNext | solver/watcher.go:198-206 | Filling the gap of a deleted clause from the end of the list loses no clause and does not disturb those still to be looked at. |
| LbdStats.Push | solver/lbd.go:35-51 | One more value in a circular window: it holds the last values since the last clearing, and the average kept in constant time is theirs. |
| LbdStats.LbdStats.FiresIs | solver/lbd.go:27-32 | It says yes if and only if fifty block distances came since the last clearing and 0.8 times the average of the last fifty exceeds that of all. |
| LbdStats.LbdStats.AddConflict | solver/lbd.go:35-59 | Restarts are put off exactly when both windows are full and the trail is longer than 1.4 times the average of the last five thousand. |
| Solver.Solver.AddLearnedUnit | solver/watcher.go:257-266 | The literal is written to the certificate. |
| Progress.DeeperProgress | solver/solver.go:389-402 | A decision raises the count of literals per level, read lexicographically. |
| Progress.BackjumpProgress | solver/solver.go:426-436 | So does a backjump, with the asserted literal counted at its new level. |
| Progress.UnitProgress | solver/solver.go:411-425 | So does a learned literal at level 1. |
| Progress.ReachedBounded | solver/solver.go:382-438 | The measure never exceeds a bound set by the number of variables. |
| Certificate.TotalSatisfies | solver/solver.go:382-438 | When every variable is bound and all is propagated, the model satisfies every problem clause and unit. |
| Certificate.CertRefutes | solver/solver.go:519-530 | A certificate with the empty clause refutes the problem. |
| Solver.Solver.PropagateAndSearch | solver/solver.go:382-438 | Terminates; Sat only with a total model of the problem, Unsat only with a certificate that refutes it; otherwise back at rest, and only if the recent block distances called for a restart in this call. Without any conflict the answer is a restart exactly when one was due. |
| Solver.Solver.BindNext | solver/solver.go:388-408 | Binding and propagating the next literal ends calm or in a conflict, which is counted with the length of the trail. |
| Solver.Solver.Proceed | solver/solver.go:389-402 | Without conflict: restarts if and only if the recent block distances call for it; otherwise there is a next decision, one level deeper, or every variable is bound. |
| Solver.Solver.Descend | solver/solver.go:395-401 | Learned clauses are deleted exactly when enough conflicts have passed, and the next reduction is put off. |
| Ledger.LearnedNew | solver/solver.go:403-436 | A clause of two literals or more learned from a conflict is none of those in the database, up to the order of literals. |
| Ledger.LearnedFew | solver/solver.go:403-436 | Learned clauses being distinct, there are at most as many as clauses over the variables that mention none twice. |
| Ledger.TallyReduce | solver/solver.go:394-398 | A reduction deletes no more clauses than there can be, and raises both factors of the number of conflicts the next one waits for. |
| Ledger.TallyBound | solver/solver.go:382-438 | The number of conflicts of all searches together is bounded by a number that depends on the variables only. |
| Ledger.DueNonempty | solver/watcher.go:190-194 | When a reduction is due, something has been learned unless there are two thousand variables. |
| Solver.Solver.ResolveConflict | solver/solver.go:403-436 | One conflict: writes the clause of its first unique implication point to the certificate, records its number of levels, backjumps and moves the termination measure up, or refutes the problem. |
| Solver.Solver.CertifyUnit | solver/solver.go:416-418 | Back at level 1 a learned literal is certified, free and ready to be bound, everything else being propagated. |
| Solver.Solver.Search | solver/solver.go:532-539 | The same from a state at rest. |
| Solver.Solver.Solve | solver/solver.go:541-595 | Terminates, over all restarts, with a total model of the problem or with a certificate that refutes it. |
| Explain.CertAccepted | explain/check.go:43-74 | A certificate right for the simplified problem is accepted on the clauses given, unless a clause repeats a literal without being a tautology. |
| Explain.GivenRefutes | explain/check.go:117-130 | A refutation by unit steps from the simplified problem becomes one from the clauses given, the units being derived first. |
| Explain.HarmDone | explain/problem.go:62-84 | Any clause that repeats a literal without being a tautology occurs in an unsatisfiable problem with a right certificate that is refused. |
| Explain.RefusedInput | explain/check.go:117-133 | The smallest such problem, of five clauses, with its certificate. |
| Explain.ReadUnits | explain/parser.go:81-104 | The checker starts from the bindings of the unit clauses, the last of two contrary ones winning. |
| Explain.UnsatSubset | explain/check.go:117-149 | From the clauses as given, simplification, search and check together: unsatisfiable if and only if they are; unless a clause repeats a literal without being a tautology, the certificate is then accepted; a subset returned is unsatisfiable and part of the clauses: the tagged clauses, units and clauses used in accepting a certificate, or all of them where unit steps alone refute them while loading. |
| Simplify.Problem.constructor | solver/parser.go:28-73 | Loading and simplifying keeps exactly the models of the clauses given, and leaves clauses the engine accepts; the units are derived by unit steps in order, and each clause left is a given clause less literals that the units falsify. Unsat only if unit steps refute the clauses given. |
| Simplify.Problem.AddUnit | solver/problem.go:363-378 | Binds the literal unless its negation is bound, which makes the problem unsatisfiable. |
| Simplify.Problem.CleanClause | solver/problem.go:108-141 | The clause left means the same under the bindings, on free distinct variables; otherwise the clause holds. |
| Simplify.Problem.Simplify2 | solver/problem.go:101-165 | Terminates with the same models; what remains has two literals or more, all free, without duplicate or tautology, and comes from the given clauses by unit steps; Unsat only without models. |
| Decide.Decide | solver/solver.go:541-595 | From a list of clauses: always an answer, with a total model of all of them if there is one, and unsatisfiable if there is none. |
| Linear.Forced | solver/problem.go:321-324 | A literal without which the weights cannot reach the degree is true in every solution. |
| Linear.NotForced | solver/problem.go:321-324 | Over distinct variables any other literal is false in some solution. |
| PbClause.NewPBClause | solver/clause.go:65-79 | The terms sorted by weight, with the same solutions. |
| PbClause.SimplifyPB | solver/clause.go:250-280 | The units and the residual constraint together are equivalent to the constraint; the units are the literals the weights force, and the residual forces none. |
| PbClause.UnitsComplete | solver/clause.go:257-263 | Over distinct variables those units are all the literals that every solution makes true. |
| PbClause.SaturateSame | solver/clause.go:274-278 | Lowering the first weight to the degree keeps the solutions. |
| PbClause.WeightedClause.RemoveLit | solver/clause.go:198-205 | The last term takes the place of the removed one. |
| PbClause.WeightedClause.UpdateCardinality | solver/clause.go:186-192 | The degree moves but never falls below 1. |
| PbClause.RemovedSum | solver/clause.go:198-205 | Removing a term takes just its share from any sum over the terms. |
| CuttingPlanes.ClashExact | solver/learn_pb.go:54-63 | For every assignment the sum reached by the resolvent is that of its parents less what cancels. |
| CuttingPlanes.ClashImplied | solver/learn_pb.go:54-63 | The resolvent holds wherever both parents do. |
| CuttingPlanes.ClashRoom | solver/learn_pb.go:54-63 | Slacks add up at most, and exactly when everything that cancels is bound. |
| CuttingPlanes.WeakenValue | solver/learn_pb.go:203-212 | Weakening loses at most what the degree is lowered by. |
| CuttingPlanes.DivideImplied | solver/learn_pb.go:220-238 | Division keeps all solutions if and only if the degree is not strictly between minus the divisor and 0. |
| CuttingPlanes.RoundSlack | solver/learn_pb.go:198-214 | Rounding gives the variable weight 1 with its sign, is implied, and takes a negative slack to a negative one and a slack below the weight to one of at most 0. |
| CuttingPlanes.RoundedExact | solver/learn_pb.go:198-238 | Rounding weight by weight: a multiple of the weight c of the variable becomes exactly its quotient, another one falsified is rounded away from 0, any other becomes 0; the degree is lowered by the weights that became 0 alone, then divided. |
| CuttingPlanes.ResolveSound | solver/learn_pb.go:127-141 | One resolution step: the variable disappears, the slack stays negative, and the result follows from both constraints. |
| Resolution.DenseSums | solver/learn_pb.go:14-29 | The array of signed weights means what the constraint means, for assignments and for bindings. |
| Resolution.SkipKeeps | solver/learn_pb.go:117-126 | Unbinding literals the constraint does not falsify keeps the conflict and the level in step with the trail. |
| Resolution.ResolveKeeps | solver/learn_pb.go:127-141 | Resolving with the reason of a falsified literal keeps the conflict invariant. |
| Resolution.TopRefutes | solver/learn_pb.go:113-116 | A constraint falsified at level 1 leaves no solution. |
| Resolution.RunSound | solver/learn_pb.go:113-142 | On every database whole runs keep the conflict invariant; leaving the trail or not ending happens only without solutions, and so does the verdict at level 1 unless the loop is stuck at a decision. |
| Resolution.RunExact | solver/learn_pb.go:113-142 | On every database that can be met, a run ends with a literal to flip if and only if no turn meets a falsified literal without a reason, and at level 1 if and only if one does. |
| Resolution.DecisionEnds | solver/learn_pb.go:130-134 | From a falsified decision the loop can only lower the level, down to the verdict at level 1. |
| Resolution.FactLoops | solver/learn_pb.go:130-134 | From a falsified fact of level 1 it lowers the level for ever. |
| Resolution.ScanFinds | solver/learn_pb.go:178-195 | Returns a literal exactly when it is the only one of the level that the constraint falsifies. |
| Resolution.FlipAsserts | solver/learn_pb.go:143-145 | The learned constraint follows from the database, and back at the returned level its slack is below the weight of the flipped literal, which is free. |
| WrongVerdict.WrongVerdict | solver/learn_pb.go:113-142 | A trail, reasons and a conflict that meet every condition of the analysis, on a satisfiable database, meet a decision and end in the verdict "unsatisfiable". |
| WrongVerdict.NeverEnds | solver/learn_pb.go:113-142 | On a contradictory database, from a conflict that meets every condition, the loop does not end. |
| WrongVerdict.LeavesTrail | solver/learn_pb.go:117-126 | On another it indexes the trail at -1. |
| PbSet.PbSet.constructor | solver/learn_pb.go:14-29 | The cleaned buffer holds the signed weights. |
| PbSet.PbSet.Clash | solver/learn_pb.go:54-63 | In place: the sums of the weights, and the degree lowered by what cancels. |
| PbSet.PbSet.DivideBy | solver/learn_pb.go:220-238 | In place: weights rounded away from zero, the degree as the code rounds it. |
| PbSet.PbSet.RoundToOne | solver/learn_pb.go:198-214 | In place: weakening, then division by the weight of the variable. |
| PbSet.PbSet.SlackAt | solver/learn_pb.go:69-88 | The slack under the bindings of the level and below. |
| PbSet.PbSet.FalsifiesLit | solver/learn_pb.go:92-99 | Whether the negation of the literal occurs. |
| PbSet.PbSet.OnlyFalsified | solver/learn_pb.go:178-195 | Computes the scan whose result `ScanFinds` characterises. |
| PbSet.PbSet.BacktrackLevel | solver/learn_pb.go:162-175 | No other variable off the conflict level is bound above the level returned, and that level is the least such. |
| PbSet.PbSet.ToClause | solver/learn_pb.go:31-49 | A sorted constraint that means what the weights mean. |
| PbSet.Analysis.CuttingPlanes | solver/learn_pb.go:104-160 | In place, loop and all: learned constraints and units are entailed and the constraint asserts its literal after backtracking; every other outcome means there is no solution, except a verdict reached at a decision, which a database that can be met gets exactly when a turn meets one. |
| PbSet.Analysis.Reduce | solver/learn_pb.go:113-142 | The loop of the code computes the run that `RunSound` and `RunExact` are about. |
| PbWatch.NoConflictMissed | solver/watcher.go:540-597 | With everything propagated, no covered constraint is falsified at any level. |
| PbWatch.BacktrackKeeps | solver/solver.go:290-348 | Backtracking keeps constraints covered without touching a watch. |
| PbWatch.VisitKeeps | solver/watcher.go:540-564 | What a visit establishes at the current level covers the constraint at all levels below. |
| PbWatch.RemoveFrom | solver/watcher.go:278-286 | Removes the one entry of the constraint and keeps all others. |
| PbPropagation.Propagator.WatchPB | solver/watcher.go:123-137 | For terms in any order, the watched literals outweigh the degree, and amply so if the first weight is the largest. |
| PbPropagation.Propagator.SlackSum | solver/watcher.go:511-529 | Whether the true literals reach the degree, and otherwise the slack. |
| PbPropagation.Propagator.PropagateAll | solver/watcher.go:532-538 | With no slack left, binding every free literal makes the constraint hold, each literal being forced. |
| PbPropagation.Propagator.UpdateWatchPB | solver/watcher.go:567-597 | Afterwards no watched literal is false and they outweigh the degree; the lists match the flags. |
| PbPropagation.Propagator.SimplifyPseudoBool | solver/watcher.go:540-564 | False means the constraint is falsified; true leaves it satisfied or watched anew, and no free literal forced by it; each literal bound was forced by it. |
| PbPropagation.Propagator.Propagate | solver/watcher.go:308-318 | Without conflict every constraint stays covered, none is falsified at any level, and those amply watched force nothing; a conflict returned is falsified. |
| PbPropagation.Propagator.UnifyLiteral | solver/watcher.go:329-333 | The same after binding one more literal. |
| PbPropagation.Propagator.constructor | solver/watcher.go:26-42 | Constraints over free variables, terms in any order, start covered, beside the units. |
| PbPropagation.MissedExactly | solver/watcher.go:567-597 | While no watched literal is false, no bindings force a free literal if and only if no watched weight exceeds what the watches leave above the degree. |
| MissedPropagation.MissedRun | solver/watcher.go:289-326 | Loads one constraint and makes two decisions; nothing is propagated although two free literals are forced. |
| PbEngine.LeftLoadable | solver/problem.go:306-361 | A constraint that simplification leaves, in whatever order, is one that propagation can load. |
| PbEngine.Load | solver/watcher.go:26-42 | Parsing, simplification and loading together: Unsat only without solutions, otherwise the constraints and units loaded have the same solutions and start covered. |
| PbEngine.GrewLayered | solver/watcher.go:289-326 | Propagation keeps the trail in layers: one decision a level, all else forced. |
| PbEngine.ConflictReady | solver/solver.go:457-467 | The state at a conflict of propagation meets every condition of conflict analysis. |
| PbEngine.DecideAndAnalyse | solver/solver.go:441-470 | A decision, its propagation and the analysis of its conflict: whatever is learned is justified, and a database that can be met is called unsatisfiable exactly where the analysis meets a decision. |
| SimplifyPb.Problem.AddUnit | solver/problem.go:363-378 | As in `Simplify`, on a PB problem. |
| SimplifyPb.Problem.ReplicateUnits | solver/problem.go:387-396 | The bindings become exactly the units. |
| SimplifyPb.Problem.SimplifyClause | solver/problem.go:313-344 | The constraint left and the units gained mean what the constraint and the units meant; without change nothing is bound or forced. |
| SimplifyPb.Problem.SimplifyPB | solver/problem.go:306-361 | Terminates with the same solutions and no literal bound or forced by the weights; weights stay positive and variables distinct; Unsat only without solutions. |
| SimplifyPb.Problem.ParsePBConstrs | solver/parser_pb.go:77-130 | The same solutions as the constraints given, in simplified form, if all weights are positive; with zero weights, as those constraints with every literal demanded where the weights just reach the degree. |
| SimplifyPb.DemandedExact | solver/parser_pb.go:96-109 | Demanding every literal is right if and only if no weight is 0. |
| PbConstr.GtEq | solver/pb.go:63-80 | In place: positive weights only, and the sum less the bound is the same for every assignment. |
| PbConstr.LtEq | solver/pb.go:85-93 | The sum less the new bound is the old bound less the old sum. |
| PbConstr.Eq | solver/pb.go:98-113 | The inequalities returned hold together exactly when the sum equals the bound. |
| BoolFormula.Nnf | bf/bf.go:154-274 | Terminates in a normal form: constants only alone, connectives alternating with two members or more. |
| BoolFormula.Idempotent | bf/bf.go:154-274 | Normalising twice is normalising once. |
| BoolFormula.NnfPreserves | bf/bf.go:154-274 | Keeps the value under every valuation when no connective runs out of members. |
| BoolFormula.NoConstantsSafe | bf/bf.go:154-274 | Formulas without constants and empty connectives never do, and give no constant. |
| BoolFormula.MakeAndExact | bf/bf.go:201-222 | A conjunction is made right exactly when some member is false or is left. |
| BoolFormula.MakeOrExact | bf/bf.go:253-274 | The same for a disjunction. |
| BoolFormula.EmptiedConnectives | bf/bf.go:218-220 | A conjunction of `true` becomes `false`, a disjunction of `false` becomes `true`. |
| Unique.SmallExact | bf/bf.go:323-336 | The pairwise formula holds exactly when one variable is true. |
| Unique.GridFits | bf/bf.go:343-360 | The rounded times the ceiled root holds all variables, no line or column is empty, both sides shrink from 5 on. |
| Unique.UniqueSound | bf/bf.go:338-378 | Every model of the grid formula makes exactly one variable true. |
| Unique.UniqueComplete | bf/bf.go:338-378 | Exactly one true variable extends to all lines and columns of every depth. |
| Unique.UniqueExact | bf/bf.go:313-319 | An assignment of the user's variables extends to a model exactly when it makes one of them true. |
| Unique.UniqueNoConstants | bf/bf.go:338-378 | The formula has no constant and no empty connective, so normalisation keeps it. |
| UniqueSize.UniqueLinear | bf/bf.go:338-378 | Variables occur in the grid formula at most twelve times as often as there are variables. |
| UniqueSize.SmallSize | bf/bf.go:323-336 | In the pairwise formula they occur as often as the square of their number. |
| UniqueCnf.UniqueFits | bf/bf.go:338-378 | In normal form the grid formula is in the fragment that is translated without loss. |
| UniqueCnf.UniqueTranslated | bf/bf.go:313-319 | Through `nnf` and `asCnf`: the clauses have a model with given values of the user's variables exactly when just one of these is true, even if there are none. |
| Cnf.Vars.LitValue | bf/bf.go:388-399 | The signed number of a variable, numbered on first use without clash. |
| Cnf.Vars.NewDummy | bf/bf.go:402-406 | The next number, for a new variable. |
| Cnf.CnfRec | bf/bf.go:444-482 | Computes, dummies and table in place, the translation whose models `CnfModels.ModelsExact` gives. |
| CnfModels.Translation | bf/bf.go:444-482 | For every formula in normal form the bits that satisfy its clauses, or all of them but the first, read as surviving valuations, and every surviving one extends to such bits over the new dummies. |
| CnfModels.ModelsExact | bf/bf.go:444-482 | In or out of the fragment, the models of the clauses are exactly the valuations that survive: each disjunction needs a member that survives, and each conjunction in it must hold but for the first clause of its first member. |
| CnfModels.SurvivorsHold | bf/bf.go:444-482 | Every surviving valuation is a model of the formula. |
| CnfModels.OrsSurvive | bf/bf.go:461-475 | A model under which every disjunction occurring in the formula is true survives. |
| CnfModels.FragmentSurvives | bf/bf.go:444-482 | Within the fragment every model survives. |
| CnfModels.AsCnf | bf/bf.go:434-438 | The valuations that extend to a model of the clauses are exactly the surviving ones of the normal form; these are models of the formula if no connective runs out of members, and all of them within the fragment. |
| ExactFragment.FragmentExact | bf/bf.go:444-482 | If no variable occurs twice, every model of the formula is found among the models of its clauses if and only if the formula is in the fragment. |
| ExactFragment.DisjunctionForced | bf/bf.go:461-475 | A disjunction with a conjunction in it is enforced even when its first clause is weakened. |
| ExactFragment.ModelLost | bf/bf.go:461-475 | A family of formulas in five variables that lose a model. |
| ExactFragment.WrongAnswer | bf/bf.go:461-475 | A family of formulas in five variables that have models and whose clauses have none. |
| Optimize.Optimizer.AppendClause | solver/solver.go:810-845 | The problem gains exactly the constraint, whichever of the four branches is taken. |
| Optimize.Optimizer.ReadClause | solver/solver.go:810-832 | What is left of the constraint, with the weight already reached, means the constraint under the bindings. |
| Optimize.Optimizer.PropagateUnits | solver/solver.go:756-768 | The units are added and bound, and every solution still follows the bindings. |
| Optimize.Cheaper | solver/solver.go:1036-1041 | The constraint appended means "strictly cheaper". |
| Optimize.Optimizer.Minimize | solver/solver.go:993-1043 | Terminates; -1 exactly when there is no solution, otherwise the least cost with a solution that attains it. |
| Mus.RelaxedMeans | explain/mus.go:163-176 | Solving the relaxed clauses under the assumptions is solving the enforced ones. |
| Mus.MUSDeletion | explain/mus.go:155-202 | From the clauses given, the unsatisfiable subset extracted first: an unsatisfiable sub-multiset that becomes satisfiable when any one clause is dropped; nothing is returned only if the clauses are satisfiable or the certificate is refused. |
| Mus.Deletion | explain/mus.go:163-201 | One call per clause on the relaxed clauses leaves a minimal unsatisfiable part. |
| Mus.ChooseOne | explain/mus.go:124-143 | Choosing the clause that tips the set keeps every chosen clause needed. |
| Mus.MUSInsertion | explain/mus.go:107-145 | The same result by insertion. |
| Mus.Insertion | explain/mus.go:113-144 | Adding clauses until the set tips, round after round, ends with a minimal unsatisfiable part. |
| MaxSat.RelaxedSound | maxsat/problem.go:22-66 | A solution of the relaxed problem meets the hard constraints and costs at least what it violates. |
| MaxSat.RelaxedComplete | maxsat/problem.go:22-66 | Every assignment meeting the hard constraints has a solution of the cost it violates. |
| MaxSat.Problem.Add | maxsat/problem.go:25-56 | One constraint numbered, relaxed and normalised: its gap is the same for every assignment. |
| MaxSat.Problem.constructor | maxsat/problem.go:22-66 | All constraints relaxed, relaxable or not, with the cost function of the blocking literals. |
| MaxSat.Problem.Solve | maxsat/problem.go:87-100 | The assignment returned meets the hard constraints and violates no more than the cost; if every soft constraint is relaxable, the cost is the least possible, and -1 stands for hard constraints that cannot be met. |
| MaxSat.RelaxableExact | maxsat/problem.go:43-54 | A soft constraint over distinct names is relaxable if and only if every assignment meets it with its blocking literal chosen well. |
| MaxSat.Unrelaxable | maxsat/problem.go:43-54 | Any other makes the relaxed problem unsolvable beside some hard constraints that can be met. |

## Left out

- Parsing and printing of files and streams, options, statistics, verbose output, goroutines and channels: a certificate is a sequence of clauses, kept in the field `cert`.
- Floating point: activities and the averages that trigger restarts are reals, so rounding is not modelled. The heap is ordered by each operation on its own; with two entries for one variable a bump moves only one of them, so order over whole runs is not claimed.
- Clause activities are not modelled: learned clauses of the same block distance are sorted in any order. Nor is the change of `varDecay`.
- Aliasing of clause objects: clauses and constraints held by the engine, the checker and the PB propagation are values in an arena. `SimplifyPb` works on clause objects.
- The width of machine integers, and the 30 bits that hold a degree or a block distance.
- Cardinality constraints, PB constraints and assumptions in the propositional engine: the tests for literals that are not false in `addClauseLits` and `learnClause` then never fire.
- Solver.Solver.Solve: called again after a model was found, the source searches on from the bindings it left; here a search starts at rest. `Ledger` bounds the number of conflicts, not tightly.
- Solver.Solver.ReduceLearned: called only when something was learned; on an empty list the source fails (see `Ledger.DueNonempty`).
- Solver.Solver.AddLearnedUnit: the early write to the model belongs to `UnifyLiteral` here.
- Checker.Problem.CheckCertificate: acceptance says nothing about satisfiability unless the certificate holds the empty clause; the source also returns true at the end of any input that passed.
- Checker.Problem.constructor: the number of clauses always equals the length of the list, which the source leaves to the caller.
- Explain.UnsatSubset: the source shares the clauses of a problem that loading already refutes; here they are copied.
- PbSet.Analysis.CuttingPlanes: the verdict reached at a decision is not shown right, because it is not; see `WrongVerdict.WrongVerdict`. Bumping of activities is left out.
- PbPropagation.Propagator.Propagate: only the PB branch of the loop, and only problem constraints. Learned PB constraints are watched without regard to literals already false. `VisitAll` follows the watch list as it was before the visit; the source shortens it meanwhile, only at places it has passed.
- PbPropagation.Propagator.UnifyLiteral: only the PB branch of the loop.
- PbPropagation.Propagator.constructor: the units are over distinct variables, as the simplification leaves them.
- PbEngine.DecideAndAnalyse: one decision and the first conflict after it; binding what was learned is left to the next call.
- Simplify.Problem.constructor: the number of variables is a parameter that bounds the literals.
- SimplifyPb.Problem.ParsePBConstrs: weights are not negative, as `GtEq` leaves them.
- PbConstr.LtEq: weights are given explicitly; without them the source panics.
- Unique.UniqueExact: the made-up variables are named by position and list of names. The source joins the names with dashes, so two lists such as "a-b, c" and "a, b-c" would share variables. Square roots are exact.
- Optimize.Optimizer.PropagateUnits: a conflict met while propagating is found by the next search.
- Optimize.Optimizer.Minimize: weights are positive and explicit, since without weights the source sorts a slice of weights it never filled; the cost function holds no literal beside its negation, which `propagateUnits` would both bind. The search is a parameter, sound and complete on consistent units.
- Mus.Deletion: the search under assumptions is part of the decision procedure.
- MaxSat.Problem.Solve: weights are not negative.
- Not modelled: `simplifyCard`, `DetectAtMostOne`, the at-most-one watching path, exact model counting, `MUSMaxSat`, the Luby sequence, `preprocess.go`.
