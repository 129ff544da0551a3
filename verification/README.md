# Proofs about gini

gini is a SAT solver with a circuit library and a pool that runs several solvers at once.
This project models three parts of it in Dafny and proves what they are for.

**The solver (`internal/xo`).** The parts that share state are classes with the fields of
the original and methods that change them in the same steps: `Vars`, `CDat` (the flat clause
store), `Cdb`, `Guess` (the heap of variables), `Trail`, `Deriver`, `Cgc`, `Luby` and `S`.
The state they hold together is read off as one value (`Search.State`: assignment, clauses,
watch lists, marks, heap), and the invariants are predicates of that value, so that most
proofs are small lemmas about values. In layers:

| layer | files | invariant or result |
|---|---|---|
| literals, valuations | `Lits`, `Counting` | |
| trail | `Assignment`, `Clauses` | values, levels, reasons and trail agree; each reason has its literal first, the others false and earlier |
| watching | `Watching`, `Watch`, `Propagation`, `Trail` | the lists are exact; for added clauses, a false watched literal has a true one beside it, assigned no later |
| storage | `Chd`, `CDat`, `Cdb`, `Relocation`, `Ranking`, `Cgc` | the words of the store are the clauses; every client of the store follows when it is packed; the worst clauses go |
| heap, restarts | `Guess`, `Luby` | |
| conflict analysis | `Resolution`, `Implication`, `Minimization`, `LevelMarks`, `Deriver` | the derived clause is the one of the first unique implication point without its redundant literals; it is entailed and forces its first literal after the jump |
| meaning | `Soundness`, `Cores` | stored clauses mean what was added; failed assumptions are a core |
| search | `Progress`, `Search`, `Growth`, `Solver`, `Session` | `Solve` is a decision procedure: it ends, and its answer is right both ways |

Termination is by a weight of the trail that every assignment and every backjump with its
forced literal increases, bounded for a given number of variables. Restarts lose weight, but
the Luby numbers are unbounded, so that one interval outlasts every possible growth.
A method's `ghost` parameters and the fields `Pos`, `Lv`, `Why`, `Starts`, `Cls`, `Locs`,
`Full`, `Unlinks`, `Inputs`, `G`, `F` and `Asked` only serve the proofs.

**The circuit library (`logic`).** `Circuit` (and-inverter graphs with structural hashing),
`Cnf` (incremental Tseitin encoding), `CardSort` (cardinality constraints by odd-even merge
sort, in place on an array), `Sequential` and `Roll` (latches and unrolling). Circuits are
given a meaning, `Circuits.ValVar` and `Sequentials.Sim`, and each transformation is proved
to preserve it, for all circuits and valuations.

**The assumption exchanger (`ax`).** `Exchange` is a state machine whose steps are the
actions of clients, dispatcher and units on their channels; the results hold for every
interleaving. A response is delivered when a client is ready to receive it, as the code
expects of its clients.

## What the code does otherwise than one may expect

- The comment on `Less` (logic/card.go:65-66) says that the number of true literals does not
  exceed b; the code, and the model, say that it is less than b. The two differ exactly when
  it is b (`Cards.LessIsNotLeq`, `Cards.CountOne`).
- `IsBinary` (internal/xo/cdb.go:212-215) takes a unit clause for binary if the next header is
  zero. `Database.TakenForBinary` says exactly when, `Database.UnitNotBinary` gives a case.
  It is harmless where it is called, since unit clauses are excluded as well
  (`Collector.Cgc.eligible`).
- The heat of a clause header can spill into the flag for derived clauses
  (`Headers.BumpedFields`); nothing but printing reads the flag.
- A packed watch holds literals below 2 to the 31 only (`WatchWords.PackedExactly`).
- `CDat.Forall` divides by zero on an empty store (`FlatStore.CDat.Forall`).
- `Learn` does not choose a literal of the highest level to watch (internal/xo/cdb.go:196-200).
  Propagation is complete for a derived clause exactly if the second literal happens to be at
  the level jumped to (`Search.JumpBlocked`, `Search.JumpFull`; `Search.JumpNotBlocked` is a
  case where it is not). The ghost field `Cdb.Full` collects these clauses and the added ones;
  for all of them completeness is kept by every step of a run. Soundness, models and
  termination do not need more.
- The comment in `minimize` (internal/xo/derive.go:220-221) says that each level of the derived
  clause has a literal among those kept. That is so exactly if every literal above level 0 was
  decided or forced by one of its own level or of level 0 (`LevelMarks.KeptExactly`), which a
  jump to the level of the assumptions, above the target, breaks (`LevelMarks.LeftMarked`). A
  level left marked lowers the rank of later clauses and lets the search for redundant literals
  go further; what it finds redundant is so with any marks.
- A clause begun with `Add` is lost exactly when the collector unlinks clauses without packing
  the store, as it takes the list of its literals for scratch memory (internal/xo/cdb.go:261,
  299; `Collector.Cgc.Compact`, `Solver.S.Solve`).
- After the answer -1 with a clause in conflict the next call resolves the conflict first. If
  that leads to a conflict at level 0, and always if it is one at level 0, the code derives a
  clause where there is none, and what it answers is left open here; it cannot happen when the
  clauses have a model (`Solver.S.Solve`).

## Checking

`dafny verify dfyconfig.toml` checks the whole project.

## Model

| member | source | states |
|---|---|---|
| Solver.S.Solve | internal/xo/s.go:205-305 | Terminates. Unless the search is lost it returns 1 exactly if the clauses ever added have a model in which the assumptions hold; then the values are such a model, every variable in use is assigned, and for every literal in use Value tells whether it holds in that model. Otherwise it returns -1, no model of the clauses satisfies the assumptions, and the state holds the conflict clause or falsified assumption that Why explains. The search is lost only when a clause in conflict is recorded and none is empty, and the clauses alone have no model; it is lost then if the level is 0. The assumptions are consumed; a clause begun is lost exactly if the collector unlinked clauses without packing the store; the next call is possible |
| Solver.S.ValueReads | internal/xo/s.go:307-310 | When the variables in use are assigned, Value is true exactly of the literals that hold in the valuation of the values: of a literal or of its negation |
| Solver.S.search | internal/xo/s.go:226-304 | The loop ends: with all variables assigned, propagation complete and the assumptions true, or with a conflict at or below the level of the assumptions, when all decisions are assumptions |
| Solver.S.advance | internal/xo/s.go:269-303 | A step without conflict keeps the state in order; it restarts exactly if the interval is used up; unless it restarted, the weight of the trail strictly grew; it ends the search only with every variable assigned |
| Solver.S.choose | internal/xo/s.go:278-279 | A hottest of all unassigned variables in use, with the sign noted for it, or null with all assigned |
| Solver.S.decide | internal/xo/s.go:303 | The chosen literal is decided at a new level; weight and invariants |
| Solver.S.maybeCompact | internal/xo/cdb.go:243-249 | The collector runs exactly if its watch has run down, which is then set to the next Luby number times 2048; search state and assumptions are kept |
| Solver.S.learn | internal/xo/s.go:235-250 | The same for a conflict of the search: back to the larger of the level of the derived clause and the level of the assumptions, which still hold; one conflict is counted off and the weight of the trail strictly grew |
| Solver.S.resolve | internal/xo/s.go:235-241 | One conflict, in the search or in cleaning up: the clause stored is the one that walk and minimisation derive; the level is then the largest level of the walked clause after its first literal, or l if that is larger; state and assumptions are kept and the trail weighs more; the set of clauses for which propagation is complete gains the derived one exactly if its second literal is at the level reached |
| Solver.JumpStep | internal/xo/s.go:235-241 | After the jump only the first literal of the derived clause is unassigned, so that the clause may force it, and the trail weighs more than before the conflict |
| Search.JumpUnit | internal/xo/s.go:235-241 | Going back anywhere from the target level to below the conflict level leaves the first literal of the derived clause unassigned and the others false |
| Search.JumpBlocked | internal/xo/cdb.go:196-200 | The second literal of a derived clause, watched whatever its level, has a true literal beside it that was assigned no later exactly if it is at the level jumped to |
| Search.JumpFull | internal/xo/cdb.go:196-200 | Propagation is complete for a derived clause from the jump on, through assigning, propagating, going back and collecting, exactly if its second literal is at the level jumped to |
| Search.JumpNotBlocked | internal/xo/derive.go:127-137 | A derived clause for which it is not: three decisions and the literals of levels 3, 1 and 2 in this order |
| Search.SettledFull | internal/xo/cdb.go:196-200 | What it takes to count a clause among those for which propagation is complete |
| Solver.S.restart | internal/xo/s.go:269-276 | A restart goes back exactly to the level of the assumptions, keeps them, and sets the number of conflicts to the next one to the Luby number times the factor |
| Solver.S.maybeRestart | internal/xo/s.go:269-276 | A restart is made exactly if the interval is used up; then the level is that of the assumptions, otherwise the trail stays |
| Solver.S.setRestarts | internal/xo/s.go:604-612 | The first interval is that of the third Luby number, the first that is long enough |
| Solver.LastCallLate | internal/xo/luby.go:15-24 | Some call of Luby.Next gives an interval longer than the largest weight a trail can have: no search outlasts it |
| Progress.RankJump | internal/xo/s.go:235-241 | Backjump and the assignment of one literal at the target level give a trail that weighs more, whatever was undone |
| Progress.RankAssign | internal/xo/s.go:303 | Every assignment makes the trail weigh more |
| Progress.RankBound | internal/xo/s.go:226-304 | The weight of a trail is bounded by a number that depends on the number of variables only |
| Progress.WeightJump | internal/xo/s.go:235-241 | The counts of literals per level grow lexicographically: one more literal at level l outweighs any number of literals above l |
| Solver.S.solveInit | internal/xo/s.go:601-629 | Resolves what the last call left in conflict, and then gives -1 with a reason to refute the assumptions, or starts the search with all assumptions true, propagated, and nothing else decided; the restart sequence is fresh |
| Solver.S.makeAssumptions | internal/xo/s.go:674-714 | Either every assumption holds at a level up to which only assumptions were decided, or the assumptions made so far already refute: by an empty clause, a conflict, or an assumption that is false |
| Solver.S.makeAssumption | internal/xo/s.go:693-712 | One assumption, by its value: decided and propagated when unassigned, passed over when true, a failure when false |
| Solver.S.FailingRefutes | internal/xo/s.go:228-234 | In the state that -1 leaves, no model of the added clauses satisfies the assumptions |
| Solver.S.checkModel | internal/xo/s.go:279-293 | When every variable is assigned the check of the model finds no error |
| Solver.S.cleanupSolve | internal/xo/s.go:639-665 | Resolves the recorded conflict and those that follow, each at a lower level, and leads back to level 0 with no conflict recorded, or meets a conflict at level 0, when the clauses have no model, at once if the recorded one is there |
| Solver.S.Add | internal/xo/s.go:496-506 | A null literal completes the clause: the set of clauses grows by exactly what was added since the last one, whatever is stored of it; another literal only extends the clause begun |
| Solver.S.complete | internal/xo/s.go:497-505 | Storing the simplified clause, or none, and assigning its literal if one is left, keeps all invariants for the larger set of clauses |
| Solver.S.Assume | internal/xo/s.go:564-570 | The assumptions are extended in order and their variables are in use; a state that was in order stays so |
| Solver.S.ensureLitCap | internal/xo/s.go:760-784 | Afterwards there is room for the variable and it is in use; a state that was in order stays so |
| Solver.S.enlarge | internal/xo/s.go:765-779 | Growing pads every per-variable list, changes no entry, and puts the new variables on the heap |
| Solver.S.ensure0 | internal/xo/s.go:541-551 | Back to level 0 with no result recorded |
| Solver.S.Lit | internal/xo/s.go:751-756 | The positive literal of the variable after the last one in use, which is in use now |
| Solver.S.Why | internal/xo/s.go:586-597 | What is appended are assumptions of the last call, and the added clauses have no model in which these alone hold; they are the false assumption, if one was met, and then exactly the decisions that it or the conflict clause leads to through reasons, each once; nothing is appended if the last call did not fail |
| Solver.S.finalRec | internal/xo/s.go:727-748 | Marks the variable of a false literal and everything it follows from, and nothing else; the literals recorded were decided, are of marked variables, and each is recorded once; every marked variable is explained by a decision recorded or by a reason all of whose variables are marked |
| Solver.S.final | internal/xo/s.go:716-722 | The same for all literals of a clause, with no variable left unexplained |
| Cores.MarkedFalse | internal/xo/s.go:724-748 | In a model of the clauses in which the recorded decisions hold, every marked false literal is false, by induction on the trail |
| Cores.CoreRefutes | internal/xo/s.go:586-597 | If some clause that has to hold has only marked false literals, then the recorded decisions alone refute the added clauses |
| Cores.FoundAsked | internal/xo/s.go:733-738 | Decisions recorded when all decisions are assumptions are assumptions |
| Cores.CoreExact | internal/xo/s.go:716-748 | When the search ends the literals recorded are exactly the decisions that a path of reasons leads to from the literals it began with, each once |
| Cores.LeadsOn | internal/xo/s.go:738-747 | What leads to a literal leads to the literals of its reason |
| Cores.LedMarked | internal/xo/s.go:727-748 | When every marked variable is explained, everything a marked one leads to is marked, by induction on the trail |
| Sessions.solveTwice | internal/xo/s.go:496-597 | A client that adds clauses, assumes, solves, reads the model with Value or asks why, adds and solves again meets every precondition and gets the right answers; the model it reads satisfies the clause and the assumptions |
| Solver.S.constructor | internal/xo/s.go:102-133 | A new solver is in order and made of new parts: no clause, no variable, nothing assigned, no clause begun |
| Soundness.UnsatConflict | internal/xo/s.go:228-234 | A clause all of whose literals are false while every decision is an assumption refutes the assumptions |
| Soundness.UnsatFalse | internal/xo/s.go:705-708 | So does an assumption that is false |
| Soundness.TrailForced | internal/xo/s.go:674-714 | In every model of the added clauses with the assumptions, every false literal is false |
| Soundness.FaithfulAdd | internal/xo/cdb.go:106-136 | A clause stored without its false and repeated literals at level 0 is entailed by what was added and represents it |
| Soundness.FaithfulDrop | internal/xo/cdb.go:114-126 | A clause with a true literal at level 0, or with a literal and its negation, may be dropped |
| Soundness.FaithfulLearn | internal/xo/cdb.go:173-205 | Storing an entailed clause changes nothing about what the stored clauses mean |
| Soundness.FaithfulReloc | internal/xo/cgc.go:121-190 | Nor does removing derived clauses and moving the others |
| Soundness.PropComplete | internal/xo/trail.go:115-238 | When propagation ends without conflict every added clause, and every derived one that was watched at the level jumped to, has a true literal or two unassigned ones that it watches: none is false and none is unit |
| Soundness.AddedTrue | internal/xo/trail.go:115-238 | Then, if all its literals are assigned, an added clause has a true literal |
| Soundness.ModelFound | internal/xo/cdb.go:413-443 | If each stored added clause has a true literal, every clause as it was added holds, dropped and shortened ones included |
| Search.LearnGood | internal/xo/cdb.go:173-205 | A derived clause keeps all that holds of every state |
| Search.CutSettled | internal/xo/trail.go:75-113 | After undoing, propagation is complete again up to the new end of the trail |
| Search.CutHeap | internal/xo/trail.go:92-108 | After undoing, every unassigned variable is on the heap |
| Solver.ChooseGood | internal/xo/guess.go:93-113 | After a guess every unassigned variable but the one chosen is on the heap; with the null literal all are assigned |
| Solver.CollectStep | internal/xo/cgc.go:121-190 | Garbage collection between guess and decision keeps the whole search state |
| Growth.GrownGood | internal/xo/s.go:758-784 | More room changes nothing that holds of a state |
| Trails.Trail.Assign | internal/xo/trail.go:59-73 | The literal is true from now on, at the current level or, without reason, at the next one, and is last on the trail |
| Trails.Trail.Back | internal/xo/trail.go:75-113 | Exactly the assignments above the target level are undone, their variables are on the heap with the signs they had noted, and the rest stays; at or below the target level nothing happens |
| Trails.Trail.Prop | internal/xo/trail.go:115-238 | Only appends to the trail, literals forced by clauses that have them first and are false otherwise, at the same level; reorders clauses only; returns null with the watch and blocking invariants complete for the whole trail, or a clause all of whose literals are false, one of them since the current level |
| Trails.Trail.propLit | internal/xo/trail.go:130-229 | One literal of the queue: all watches of its negation are visited and the list is compacted in place, also when a conflict ends the pass early |
| Trails.Trail.visit | internal/xo/trail.go:134-228 | One watch: it is kept or moves to another literal, the clause becomes a reason or the conflict, and it is accounted for |
| Trails.Trail.scan | internal/xo/trail.go:185-216 | Finds the first literal past the watched ones that is not false, or the end of the clause |
| Assignment.AssignKeeps | internal/xo/trail.go:59-73 | Assigning keeps the trail invariant: no variable twice, levels ascend, each level starts with its decision, values, reasons and levels agree with the trail |
| Assignment.CutKeeps | internal/xo/trail.go:75-113 | Undoing keeps it |
| Assignment.TrailBound | internal/xo/trail.go:59-73 | The trail never holds more literals than there are variables |
| Assignment.CutStays | internal/xo/trail.go:92-108 | What was assigned at or below the target level keeps value and level, everything else is unassigned |
| Clauses.AssignCore | internal/xo/trail.go:59-73 | Reasons stay reasons: each has its literal first and its others false and earlier on the trail |
| Clauses.SwapCore | internal/xo/trail.go:147-149 | Exchanging the first two literals of a clause that is no reason keeps every reason |
| Watching.MoveWatch | internal/xo/trail.go:217-226 | Watching another literal keeps the lists exact: each names just the clauses that have its literal in the first two places, once |
| Watching.AddWatches | internal/xo/cdb.go:154-159 | So does entering a new clause |
| Watching.AssignBlockOk | internal/xo/trail.go:59-73 | Assigning keeps the blocking invariant of the added clauses: a false watched literal whose turn has come has a true literal beside it, assigned no later |
| Propagation.StepAssign | internal/xo/trail.go:150-157 | The clause of a watch forces its first literal: the invariant of propagation holds with the clause dealt with |
| Propagation.StepMove | internal/xo/trail.go:213-226 | The same when the clause finds another literal to watch |
| Propagation.CutProp | internal/xo/trail.go:75-113 | A conflict leaves propagation incomplete, but undoing its level makes it complete for what remains |
| Database.Cdb.Add | internal/xo/cdb.go:90-167 | A completed clause is dropped only if it has a true literal or a literal and its negation; what is stored are its unassigned literals, each once, everything left out being false; header, literals and null are appended to the store; it is watched, listed as added, returned with its literal if it is unit, recorded if it is empty; the scratch marks are clear again |
| Database.Cdb.simplify | internal/xo/cdb.go:106-132 | The filtering in place of the clause being added |
| Database.Cdb.Learn | internal/xo/cdb.go:173-205 | A derived clause is appended to the store with a header of its size and rank and the flag for derived clauses, watched by its first two literals, and listed as derived |
| Database.Cdb.Unlink | internal/xo/cdb.go:259-300 | The watch lists lose exactly the entries of the clauses given, though only the lists of their first two literals, and of those of a clause begun, are filtered; the clause begun is lost |
| Database.UnlinkAll | internal/xo/cdb.go:264-294 | Lists that are not filtered have no entry of these clauses |
| Database.Cdb.CheckModel | internal/xo/cdb.go:413-443 | Reports exactly the added clauses without a true literal |
| Database.Cdb.Lits | internal/xo/cdb.go:325-337 | The literals of the clause, appended |
| Database.Cdb.Bump | internal/xo/cdb.go:225-237 | Only headers change, by the heat of one clause or, when that is as high as can be, of all; every clause stays |
| Database.TakenForBinary | internal/xo/cdb.go:212-215 | IsBinary is right for every clause but one kind: a unit clause is taken for binary exactly if a clause follows whose header is zero |
| Database.UnitNotBinary | internal/xo/cdb.go:212-215 | A store in which that happens: a unit clause before an added clause of 32 literals |
| Database.ZeroHeader | internal/xo/chd.go:25-33 | A new header is zero exactly for an added clause of rank zero whose size is a multiple of 32 |
| Database.LiveNew | internal/xo/cdb.go:133-136 | A new clause keeps every clause in exactly one of the lists of added, derived and removed clauses |
| FlatStore.CDat.AddLits | internal/xo/cdat.go:54-70 | The clause is appended with header and null, at a new place; the others stay |
| FlatStore.CDat.Next | internal/xo/cdat.go:84-99 | Finds the end of a clause of any size although the header holds the size modulo 32 only |
| FlatStore.CDat.Compact | internal/xo/cdat.go:119-158 | Packs in place: for removals in ascending order the store holds exactly the surviving clauses in their order, with headers and literals unchanged; the map sends removed places to null and moved ones to their new places |
| FlatStore.CDat.pack | internal/xo/cdat.go:123-157 | The loop behind it |
| FlatStore.PackOn | internal/xo/cdat.go:131-153 | One clause further: it is removed exactly if it is the next of those to remove, else copied down |
| FlatStore.MovedMove | internal/xo/cdat.go:144-152 | A clause moved beyond the others extends the map to a larger part of the store |
| FlatStore.CDat.Load | internal/xo/cdat.go:174-178 | The literals of the clause, appended |
| FlatStore.CDat.Forall | internal/xo/cdat.go:181-193 | Walking by Next visits each clause once, in order, with its literals; on an empty store the code divides by zero, so the result is a success exactly if there is a clause |
| FlatStore.CDat.Bump | internal/xo/cdat.go:161-166 | Heats one header up and leaves all clauses as they are |
| Headers.BumpedFields | internal/xo/chd.go:51-54 | Heating up keeps size and rank; heat counts modulo 2 to the 22, and what passes that sets the flag for derived clauses |
| Headers.CooledFields | internal/xo/chd.go:56-59 | Cooling down halves the heat and keeps all else |
| Headers.MakeFields | internal/xo/chd.go:25-49 | What the accessors read from a new header |
| Headers.SizeKept | internal/xo/chd.go:51-59 | Neither operation changes the size, whatever the word |
| WatchWords.PackedExactly | internal/xo/watch.go:27-50 | A packed watch is read back as it was made exactly if the literal is below 2 to the 31 |
| WatchWords.RelocatedWord | internal/xo/watch.go:54-59 | Relocating the word changes the place and nothing else |
| Collector.Cgc.Compact | internal/xo/cgc.go:121-173 | Only derived clauses of three or more literals that are no reason are removed: half of the derived clauses, or all that may be, and none that comes before a removable one that is left; afterwards reasons, watches, headers and the lists of added and of derived clauses name the same clauses as before at their places, the list of derived ones being that before without the removed, and no watch names a removed one, on both paths; the store is packed exactly if what waits for removal takes up more than half of it, as the code counts, and a clause begun is lost exactly if it is not |
| Collector.Cgc.pick | internal/xo/cgc.go:131-159 | At most half of the derived clauses, or one, are picked, each removable; fewer than half only if no other is removable; picked and kept ones together are the list as it was |
| Collector.Cgc.sortLearnts | internal/xo/cgc.go:126-129 | The list of derived clauses is permuted and sorted by their worth |
| Ranking.LessIsWorth | internal/xo/cgc.go:262-293 | Comparing two clauses is comparing, number by number, their rank up to 8, negated heat, size and negated place |
| Ranking.LessTotal | internal/xo/cgc.go:262-293 | Of two different clauses exactly one comes before the other |
| Ranking.LessTrans | internal/xo/cgc.go:262-293 | The order is transitive, although ranks are compared only when one of them is below 8 |
| Ranking.SortSorted | internal/xo/cgc.go:295-297 | Sorting leaves no clause after one that should come later |
| Collector.FromEndKept | internal/xo/cgc.go:131-156 | Removable clauses left when the walk down the sorted list stops come before all that it took |
| Collector.Cgc.eligible | internal/xo/cgc.go:139-147 | The three tests together decide exactly whether the clause is removable |
| Collector.Cgc.CompactCDat | internal/xo/cgc.go:176-190 | Packing the store relocates assignment, watches and both lists by one map; what was queued is gone |
| Collector.Cgc.relocate | internal/xo/cgc.go:192-203 | Every list is relocated entry by entry; the list of reasons keeps its length |
| Collector.Cgc.relocateWatches | internal/xo/cgc.go:219-246 | Entries of removed clauses go, the others keep literal, flag and order |
| Collector.relocateSlice | internal/xo/cgc.go:317-333 | The surviving entries in order, at their new places |
| Collector.NotInUse | internal/xo/cdb.go:207-210 | A clause that is not the reason of its first literal is no reason at all |
| Collector.SortedStrictly | internal/xo/cgc.go:180-187 | Sorted, the queued places strictly ascend, as Compact needs |
| Collector.RelocListsOk | internal/xo/cgc.go:192-195 | The relocated lists name exactly the clauses of the packed store |
| Relocation.SliceWhole | internal/xo/cgc.go:317-333 | A list without removed entries keeps its length and is mapped entry by entry |
| Relocation.RelocListOk | internal/xo/cgc.go:219-246 | A relocated watch list is exact for the packed store |
| Relocation.RelocProp | internal/xo/cgc.go:192-203 | Collection keeps the whole invariant of propagation |
| Guesses.Guess.pop | internal/xo/guess.go:182-190 | Removes and returns a hottest variable; heap order and index stay right |
| Guesses.Guess.Push | internal/xo/guess.go:192-201 | The variable is on the heap afterwards and its sign noted; all others are as before |
| Guesses.Guess.Bump | internal/xo/guess.go:116-136 | Exact arithmetic: the heat of the variable grows by the step and, past the limit, all heats and the step shrink by one factor; the heap is in order again and holds the same variables |
| Guesses.Guess.Guess | internal/xo/guess.go:93-113 | A hottest unassigned variable of the heap with the sign noted for it, or null exactly when all on the heap are assigned; no other unassigned variable is lost |
| Guesses.Guess.heapify | internal/xo/guess.go:163-168 | Makes any indexed array a heap of the same variables |
| Guesses.Guess.up | internal/xo/guess.go:241-252 | Repairs a heap in which one place may be hotter than its parent |
| Guesses.Guess.down | internal/xo/guess.go:254-274 | Repairs it downwards from one place, within the first n |
| Guesses.Guess.growToVar | internal/xo/guess.go:284-306 | The new variables are on the heap, heats and signs of the others are kept |
| Guesses.RootMax | internal/xo/guess.go:182-190 | No place of a heap is hotter than the root |
| Guesses.UpStep | internal/xo/guess.go:244-251 | An exchange with the parent moves the only fault of the heap up |
| Guesses.DownStep | internal/xo/guess.go:258-273 | An exchange with the hotter child moves it down |
| Guesses.Heating | internal/xo/guess.go:119-128 | Rescaling changes no heat but by the common factor |
| Lubys.Luby.Next | internal/xo/luby.go:15-24 | The i-th call returns the i-th number of the recursively defined sequence |
| Lubys.EmitsLuby | internal/xo/luby.go:15-24 | What exponent and turn counter emit after n steps is the number n + 1 of the sequence |
| Lubys.RunsBlock | internal/xo/luby.go:15-24 | From the right turn on the machine emits a whole block, two smaller blocks and a power of two |
| Lubys.BlockIsLuby | internal/xo/luby.go:15-24 | The blocks are the recursively defined sequence |
| Lubys.LubyPeak | internal/xo/luby.go:15-24 | The sequence is unbounded |
| Derivers.Deriver.Derive | internal/xo/derive.go:80-186 | The clause walked begins with the negation of the last literal on the trail that alone implies the conflict at its level, and is the resolvent reached there without literals of level 0; the derived clause is that one without exactly its redundant literals; target is the largest level after the first literal of the one walked, or 0; the derived clause follows from the stored ones, is false, and no variable is twice; it is stored at a new place, with its rank in the header, the levels of its literals are unmarked, and the other scratch arrays are clear again |
| Derivers.Deriver.walk | internal/xo/derive.go:80-165 | The backward walk ends at the first unique implication point: CLits are its negation and the other literals, above level 0, of the resolvent of conflict and reasons; target is the largest of their levels; the clause is entailed; the rank returned counts the levels of its literals that were not marked before |
| Implication.OnWayTake | internal/xo/derive.go:145-163 | A literal seen either is the first that alone implies the conflict, when it is the last to come, or is not and is resolved with its reason |
| Implication.WalkedSkip | internal/xo/derive.go:145-149 | A literal not seen is none of the resolvent |
| Implication.WalkedEnd | internal/xo/derive.go:151-155 | With one literal to come the walk has reached the last place of the trail at which one literal of the level is left in the resolvent |
| Implication.FirstUipOnce | internal/xo/derive.go:108-166 | A conflict has one such clause, but for the order of the literals after the first |
| Derivers.Deriver.mark | internal/xo/derive.go:104-145 | Every literal of the clause resolved with is accounted for: seen before, at level 0, noted for the clause, or still to be met on the trail |
| Derivers.Deriver.minimize | internal/xo/derive.go:188-238 | CLits become exactly the old first literal and, in order, the other old literals that are not redundant for the old clause; the clause still follows and keeps its target bound; the caches are clear and the marks of the levels of its literals are taken back, no others |
| Derivers.Deriver.isRdnt | internal/xo/derive.go:240-245 | True exactly if the literal is redundant: its level is marked, it has a reason, and each other literal of the reason is of the clause or redundant |
| Derivers.Deriver.isRdntRec | internal/xo/derive.go:247-282 | True exactly if the literal is of the clause or redundant; what the cache holds is right before and after, both ways; terminates because reasons point back on the trail |
| Minimization.RedundantIs | internal/xo/derive.go:247-275 | A false literal is redundant exactly if its level is marked, it has a reason, and the other literals of the reason are of the clause or redundant |
| Minimization.NeededIs | internal/xo/derive.go:200-208 | The literals kept are those that are not redundant |
| Minimization.ShortenedOk | internal/xo/derive.go:188-218 | The shortened clause is entailed and false, begins with the same literal, and has it alone at the conflict level |
| LevelMarks.KeptExactly | internal/xo/derive.go:220-230 | Each level of each clause keeps a literal, as the comment says, exactly if every literal on the trail above level 0 was decided or forced by one of its own level or of level 0 |
| LevelMarks.AnchoredKept | internal/xo/derive.go:220-230 | If so, the earliest literal of a level is kept |
| LevelMarks.LeftMarked | internal/xo/derive.go:220-230 | A trail under assumptions and a clause one of whose levels stays marked |
| LevelMarks.NoneLeft | internal/xo/derive.go:220-230 | If so, no level stays marked |
| Resolution.Resolve | internal/xo/derive.go:145-163 | Resolving an entailed set of literals with a reason gives an entailed set |
| Resolution.StepTake | internal/xo/derive.go:145-163 | Taking the seen literal at the end keeps the count of those to come exact, and while more come the literal is no decision |
| Resolution.WalkTake | internal/xo/derive.go:145-163 | The walk either ends with a derived clause or goes on with a reason all of whose other literals are false and earlier |
| Resolution.WalkEnd | internal/xo/derive.go:151-155 | With one literal left at the conflict level, it and the noted ones are an entailed clause; those of level 0 may be left out; the largest level of the noted ones is the target |
| Resolution.PendLevel | internal/xo/derive.go:102-163 | While a literal is to come, the walk has not passed the decision of the level |
| Resolution.TrailHolds | internal/xo/trail.go:59-73 | In a model of the clauses in which the decisions hold, the whole trail holds |
| Resolution.RankedNote | internal/xo/derive.go:130-135 | Noting a literal counts its level if it was not marked |
| Resolution.RankIs | internal/xo/derive.go:130-135 | If no level was marked at the start the rank is the number of levels of the literals but the first |
| Resolution.SeenCleared | internal/xo/derive.go:164-176 | Afterwards only variables of level 0 are still marked |
| Minimization.RedundantFalse | internal/xo/derive.go:247-282 | In a model of the clauses in which the kept literals are false, every redundant literal is false, by induction on the trail |
| Minimization.KeptEntailed | internal/xo/derive.go:188-218 | Hence the clause without redundant literals is entailed if the long one is |
| Circuits.C.And | logic/c.go:252-289 | The hashed search, with its chains, gives the same literal and the same nodes as a search through all gates in order |
| Circuits.AndMeans | logic/c.go:252-289 | The literal has the value of the conjunction in every valuation |
| Circuits.AndKeeps | logic/c.go:252-289 | Gates stay after their operands, no two gates have the same operands, and earlier nodes are unchanged |
| Circuits.C.lookup | logic/c.go:265-279 | Walking one chain finds the gate with these operands if there is one at all; it ends as links descend |
| Circuits.FindFirst | logic/c.go:265-279 | The reference search gives the first such gate, or none |
| Circuits.C.newNode | logic/c.go:349-356 | A fresh node at the end; all other nodes as they were |
| Circuits.C.grow | logic/c.go:358-376 | Twice the room, the table rebuilt, the circuit unchanged |
| Circuits.HashInsert | logic/c.go:280-288 | Putting a gate in front of its chain keeps every gate findable |
| Circuits.ValPrefix | logic/c.go:252-289 | Adding nodes changes no value |
| Circuits.C.Or | logic/c.go:302-305 | Means the disjunction |
| Circuits.C.Implies | logic/c.go:318-320 | Means the implication |
| Circuits.C.Xor | logic/c.go:323-325 | Means the exclusive or |
| Circuits.C.Choice | logic/c.go:329-331 | Means if-then-else |
| Circuits.C.Ands | logic/c.go:293-299 | Means that all literals hold; true for none |
| Circuits.C.Ors | logic/c.go:309-315 | Means that some literal holds; false for none |
| Circuits.C.Eval | logic/c.go:206-225 | Fills in the value of every gate and the constant in one pass and touches no other entry |
| Tseitin.CnfSince | logic/c.go:107-152 | Over any sequence of calls that hand on the marks while the circuit grows, whatever else the receiver of the clauses gets in between: what a call emits are the clauses of the nodes it adds to an order in which each marked gate occurs once; marks are closed under operands, all roots are marked, only nodes below the roots are added, and the count is that of the nodes added |
| Tseitin.vis | logic/c.go:128-147 | The recursive visit emits, after what was emitted before, what lies below its literal and is not marked yet, each gate once |
| Tseitin.CnfExact | logic/c.go:107-152 | A valuation satisfies the emitted clauses exactly if the constant is true and each marked gate has the value of the conjunction of its operands |
| Tseitin.CnfDetermines | logic/c.go:107-152 | Such a valuation gives every marked node the value the circuit computes from inputs and latches |
| Tseitin.CnfExtends | logic/c.go:107-152 | Every valuation of inputs and latches extends to one that satisfies the clauses |
| Tseitin.ExactLater | logic/c.go:107-120 | What was emitted stands when the circuit has grown |
| Tseitin.DeltaRest | logic/c.go:107-152 | The clauses of earlier calls and those of one call are together the clauses of all nodes marked |
| Tseitin.EmittedMeans | logic/c.go:82-93 | The clauses of an order of nodes hold exactly if every node in it is respected |
| Tseitin.addAnd | logic/c.go:82-93 | The three clauses of a gate |
| Tseitin.ToCnf | logic/c.go:53-67 | Emits, after what was emitted before, the constant and every gate, in ascending order |
| Tseitin.WholeExact | logic/c.go:53-67 | The clauses of the whole circuit hold exactly if the constant is true and every gate has the value of the conjunction of its operands |
| Cards.CardSort.constructor | logic/card.go:50-63 | For any list of literals, after padding to a power of two with true literals and sorting, literal k is true exactly if k is at least n minus the number of true inputs, in every valuation |
| Cards.CardSort.Leq | logic/card.go:72-80 | True exactly if at most b inputs are true, for every b |
| Cards.CardSort.Less | logic/card.go:67-69 | True exactly if fewer than b inputs are true, for every b |
| Cards.CardSort.Geq | logic/card.go:83-91 | True exactly if at least b inputs are true, for every b |
| Cards.CardSort.Gr | logic/card.go:94-96 | True exactly if more than b inputs are true, for every b |
| Cards.CardSort.sort | logic/card.go:107-115 | What happens to the literals in the array is, on their values, the sorting network |
| Cards.CardSort.merge | logic/card.go:120-139 | What happens to the literals is, on their values, the merge of the network |
| Cards.CardSort.cas | logic/card.go:142-147 | The two literals mean the smaller and the larger of two values |
| Cards.SortSorts | logic/card.go:107-115 | The network sorts every list of bits whose length is a power of two and keeps the number of zeros |
| Cards.MergeSorts | logic/card.go:120-139 | The odd-even merge of two sorted halves is sorted, by induction on the size over interleaved places |
| Cards.Interleave | logic/card.go:134-138 | Sorted even and odd places whose numbers of zeros differ by at most two are sorted as a whole by the final exchanges |
| Cards.PadRanked | logic/card.go:50-63 | Padding with true literals does not change which literal says what |
| Cards.LessIsNotLeq | logic/card.go:65-69 | What the comment on Less says of the number of true literals holds exactly when that number is not b |
| Cards.CountOne | logic/card.go:65-69 | One true literal and b equal to 1 are a case where it does not |
| Cards.RankedLater | logic/card.go:72-96 | Further gates change nothing about what the sorted literals say |
| Sequentials.S.Latch | logic/s.go:56-65 | A new latch that keeps its value until it gets a next state; the rest of the circuit is unchanged |
| Sequentials.S.SetNext | logic/s.go:80-86 | Of the latch only the next state changes: its initial value, read from the circuit before, stays; nor does any other node change |
| Sequentials.S.SetInit | logic/s.go:101-107 | Of the latch only the initial value changes: its next state, read from the circuit before, stays; nor does any other node change |
| Sequentials.S.Type | logic/s.go:136-149 | Tells gates, latches and the constant apart, each exactly |
| Sequentials.SetNode | logic/s.go:56-107 | Writing a node that is no gate keeps circuit and hash table in order |
| Rolls.Roll.At | logic/roll.go:50-104 | For any order of queries: the literal for a node and a time is recorded once, later queries give it again and change nothing, nothing recorded or built is changed, and nothing is recorded for later times |
| Rolls.Roll.build | logic/roll.go:63-104 | Makes the literal for the next time of a node by its kind; the recursion descends in time, then in the variable |
| Rolls.RollSimulates | logic/roll.go:50-104 | The literal for m at time d has, in the unrolled circuit, the value that m has after d steps of the sequential one |
| Rolls.EnvFits | logic/roll.go:50-104 | Every sequence of inputs and choice of initial values is given by some valuation of the inputs of the unrolled circuit: different inputs and times have different variables |
| Rolls.Record | logic/roll.go:63-104 | Recording a suitable literal for the next time keeps the unrolling right |
| Rolls.SuitsAnd | logic/roll.go:63-104 | The conjunction of the operands at the same time is suitable for a gate |
| Rolls.SuitsLatch | logic/roll.go:63-104 | The next state one step before is suitable for a latch |
| Rolls.SuitsNew | logic/roll.go:63-104 | A fresh input is suitable for an input, and for a latch without initial value at time 0 |
| Exchange.AnsweredOnce | ax/ax.go:159-256 | At every point of every run each accepted request has been answered once or is still waiting, running or on its way back, and not both; only accepted requests are answered |
| Exchange.RunInv | ax/ax.go:195-256 | Every state of every run satisfies the invariant: requests are conserved, free and busy units and units with a response under way partition the units, which never exceed the cap; a unit is free as long as there are fewer than the cap |
| Exchange.NextInv | ax/ax.go:195-356 | Every step of client, dispatcher and units keeps it |
| Exchange.StartInv | ax/ax.go:223-251 | A unit is started only when it is idle |
| Exchange.GrownInv | ax/ax.go:224-232 | A solver is copied only from an idle unit, and when fewer than the cap are there one is made unless another is free |
| Exchange.AwaitFull | ax/ax.go:220-231 | The dispatcher waits for a unit only when the cap is reached and every unit is at work or has its response under way |
| Exchange.ReceiveInv | ax/ax.go:204-214 | Taking a response frees its unit |
| Exchange.SendInv | ax/ax.go:328-356 | Sending a response makes the unit idle |
| Exchange.GiveWaits | ax/ax.go:253-256 | With a response to deliver the dispatcher does not move until a client receives it |
| Exchange.Progress | ax/ax.go:195-326 | While a request is open, the dispatcher has a response ready and goes on as soon as a client receives it, or some step of dispatcher or units is possible that takes no client |

## Left out

- Test scopes: Test, Untest, late assignments and a bottom level other than 0 (internal/xo/s.go:347-433, internal/xo/trail.go:240-286).
- Solver.S.Solve: leaves the result open when the search is lost, that is, when cleaning up after the answer -1 meets a conflict at level 0. The code then derives a clause made of the null literal and goes on (internal/xo/derive.go:97-155, internal/xo/s.go:641-660); this clause is not modelled.
- Solver.S.Add: to complete a clause it requires that propagation is in order or the level above 0. After a conflict at level 0, when the clauses have no model, ensure0 forgets the conflict (internal/xo/s.go:541-551); what the solver does from then on is not modelled.
- Solver.S.Solve: does not model the answer 0 of deadlines, Stop, Pause and ticks, nor locks, statistics and tracing.
- Solver.S.Why: promises a core, not one from which nothing can be left out, because the code does not minimise it.
- Activation literals (internal/xo/active.go): the model has no active literals.
- NewGuessCdb's initial heats, phase initialisation and the decay of the heat step are left open: the proofs hold for any.
- Guesses.Guess.Decay: only says that the step stays positive, because the rate is floating-point heuristics; heats are real numbers.
- Collector.Cgc.CompactCDat, Collector.Cgc.sortLearnts: sort.Sort is replaced by insertion sorts written as functions.
- Derivers.Deriver.Derive: does not say which variables and clauses get hotter on the way, as heat only guides the search.
- Derivers.Deriver.Derive: the rank counts levels not marked before; as marks can be left over, it may be smaller than the number of levels of the clause.
- Locations, trail positions, the turn counter of Luby and counters are unbounded numbers; the two packed words, header and watch, are the exception. CInf is -1, as no place is.
- Lists that Go grows or re-slices are sequences held in fields; the clause store's spare capacity, and so grow and estimateLocMapSize, is not modelled; the trail is its live part.
- After growth the level list has as many entries as there are variables, where the code allocates twice as many, and the scratch arrays of Deriver have one entry more than in the code; no index depends on it.
- The queue of clauses to be removed is a field of Cdb in the model and of Cgc in the code; Cgc.Tick is called when the conflict is counted and not in Learn.
- Removal of clauses on request (Cdb.Remove), CheckWatches, Reasons, Copy and I/O of internal/xo.
- Circuits: C.Copy, InPos, Ins, At, Len and Eval64.
- Tseitin.CnfSince: marks are a sequence of which no spare capacity is reused; ToCnfFrom is CnfSince with no marks.
- Rolls.Roll.At: the sequential circuit must not change once the unrolling has begun, as the record would not follow; Len and MaxLen are left out.
- Sequentials.S.Next, Sequentials.S.Init: the panic for a literal that is no latch is the precondition.
- Exchange: Stop and shutdown, time limits, Pending, TryEx, the contents of responses and the disabled score; getunit may take any free unit. Requests are told apart by a number, and none is sent twice.
- The packages aiger, bench, cmd, crisp, dimacs, gen, inter and the rest of z: readers, writers, processes and generators.
