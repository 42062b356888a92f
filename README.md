# MOO system: a verified model of the state-transition system and its search

This project models the MOO system of `Weird_finding.cpp`. A state holds `n`
bounded magnitudes, an active position, the number of moves since the last "+2"
move, a move counter and an injection counter. Each step does four things in order:

1. It applies a +1 or +2 operation to the active slot. After +2, a max/min
   redistribution called the trigger follows.
2. It moves to a neighbouring position.
3. It applies the periodic flip and injection effects, which are keyed on the move
   counter.
4. It keeps the result only if it passes the adjacency-ordering check.

`compute_L` runs a depth-first search over these states with an explicit stack. A
map records the deepest arrival at each structural key (every field except the move
counter and the size `n`). A successor is pushed only when its key is new or it arrives strictly
deeper. The result is the deepest goal state popped.

The model has three modules:

- `MooState` (`moo_state.dfy`). It covers:
  - the state record and its structural key,
  - the state ordering and why a map ordered by it is a map from keys,
  - the goal test and the ordering check,
  - the in-place flip.
- `MooTransitions` (`moo_transitions.dfy`). It covers the trigger, the periodic
  effects, movement, the two operations and successor generation.
- `MooSearch` (`moo_search.dfy`). It covers admission into the stack and the depth
  map, one iteration of the search loop, bounded runs of it, and `compute_L` itself.

Every routine that updates a state in place is a method with the source's loop. Each
method is proved equal to a specification function: `Flipped`, `Triggered`,
`Periodic`, `Movements`, `AfterOp`, `Attempt` and `Successors`, and
`Step`/`Run` for the search. Lemmas then state what those functions guarantee.

The state is copied by value in the source and used as a map key, so it is a
datatype. The `next_states` vector is passed by reference and only appended to, so
it becomes an input sequence plus the returned, extended sequence.

The simulator's `n` and each state's `n` are always the same number; the model uses
the state's. Every routine that indexes the vector up to `n` requires
`|magnitudes| == n`, which the source establishes in the constructor and never
breaks. The search itself, `Start` and `Search` included, requires `n >= 2`.

Admission compares a successor only with the depth recorded for its key, not with
the states already on the stack. So, as in the source, a shallower arrival at a key
can stay on the stack after a deeper one is recorded, and it is expanded when
popped. The search invariant therefore says that every stacked state is recorded
at least as deep as itself, not exactly as deep.

The search layer (`Step`, `Run`, `PoppedGoals` and their lemmas) is written for any
successor generator. The MOO instance is `Expand`, which is `Successors` on states
of the system's shape. The loop methods take the generator as a ghost parameter that
`IsExpand` ties to `Expand`, so their proofs depend only on its contract.

## Model

| member | source | states |
|---|---|---|
| MooState.Initial | Weird_finding.cpp:18-20 | the initial state has `n` zero magnitudes, position 0 and all counters 0 |
| MooState.InitialIsGood | Weird_finding.cpp:18-43 | the initial state is in range, passes the ordering check and is not a goal |
| MooState.LessIsStrictOrder | Weird_finding.cpp:22-27 | the state ordering is irreflexive, asymmetric and transitive, and total on distinct keys |
| MooState.EquivalentIffSameKey | Weird_finding.cpp:22-27 | two states are equivalent under the ordering exactly when all fields but the move counter agree |
| MooState.SeqLessTransitive | Weird_finding.cpp:23 | the lexicographic vector comparison is transitive |
| MooState.SeqLessTotal | Weird_finding.cpp:23 | any two different vectors are comparable |
| MooState.AllReachedMeans | Weird_finding.cpp:29-34 | the goal scan holds exactly when every magnitude is at least `n` |
| MooState.CheckGoal | Weird_finding.cpp:29-34 | the early-exit loop returns the goal test, that is, whether no magnitude is below `n` |
| MooState.OrderedFromMeans | Weird_finding.cpp:36-43 | the ordering scan holds exactly when every positive slot is at most one above its left neighbour |
| MooState.CheckOrdering | Weird_finding.cpp:36-43 | the early-exit loop over slots 1..n-1 returns exactly that ordering condition |
| MooState.ApplyFlip | Weird_finding.cpp:45-49 | the loop sets every slot `m` to `n - m` and changes no other field |
| MooState.FlipInvolutive | Weird_finding.cpp:45-49 | flipping twice restores the vector |
| MooState.FlipInRange | Weird_finding.cpp:45-49 | flipping keeps the length and keeps values of [0, n] in [0, n] |
| MooTransitions.ScanMaxBounds | Weird_finding.cpp:137-141 | the max scan bounds every slot and its start value, and is attained unless it stays at the start value |
| MooTransitions.ScanMinBounds | Weird_finding.cpp:137-141 | the min scan bounds every slot and its start value from below, and is attained unless it stays at the start value |
| MooTransitions.Extremes | Weird_finding.cpp:137-141 | the one-pass loop computes both scans, from -1 and from n + 1 |
| MooTransitions.FirstIndex | Weird_finding.cpp:143-155 | the index found is in bounds, or the length if absent, and holds the value when in bounds |
| MooTransitions.FirstIndexIsFirst | Weird_finding.cpp:143-155 | no earlier slot holds the value |
| MooTransitions.DecrementFirstHit | Weird_finding.cpp:143-148 | the loop with `break` decrements exactly the first slot holding the maximum, floored at 0 |
| MooTransitions.IncrementFirstHit | Weird_finding.cpp:150-155 | the loop with `break` increments exactly the first slot holding the minimum, capped at `n` |
| MooTransitions.ApplyTrigger | Weird_finding.cpp:136-156 | the in-place trigger yields the specified redistribution and changes no other field |
| MooTransitions.TriggerEffect | Weird_finding.cpp:136-156 | both extremes come from the unedited vector, both edits happen, the minimum is sought in the decremented vector, and all other slots are unchanged |
| MooTransitions.TriggerChangesTotal | Weird_finding.cpp:136-156 | the trigger's sum of magnitudes drops by one exactly when the maximum is positive and rises by one exactly when the minimum is below `n`, so it is kept when both hold |
| MooTransitions.TriggerInRange | Weird_finding.cpp:136-156 | the trigger keeps magnitudes in [0, n] |
| MooTransitions.FlipPeriod | Weird_finding.cpp:186-187 | the period lies in [4, 100]; it is 4 before move 50000 and 100 from move 4800000 on |
| MooTransitions.PeriodicSchedule | Weird_finding.cpp:186-194 | the flip fires iff the counter is 1 modulo min(100, 4 + t/50000), which is moves 1, 5, 9, ... early on; the injection fires iff the counter is a positive multiple of 131 |
| MooTransitions.Periodic | Weird_finding.cpp:184-200 | the effects change only the magnitudes and the injection counter, which grows by exactly 1 when the injection fires |
| MooTransitions.PeriodicMagnitudes | Weird_finding.cpp:184-200 | slot by slot, the flip is applied first and then the capped +1; magnitudes stay in [0, n] |
| MooTransitions.ApplyPeriodicEffects | Weird_finding.cpp:184-200 | the in-place routine, with its capped period and its injection loop, computes those effects |
| MooTransitions.NextPositions | Weird_finding.cpp:159-169 | the targets are exactly the in-range neighbours: one at either end, two otherwise, in increasing order |
| MooTransitions.Movements | Weird_finding.cpp:171-181 | at most one successor per target position |
| MooTransitions.MovementsShape | Weird_finding.cpp:171-181 | every kept moved state passes the ordering check, stands on a target, is one move deeper, keeps the moves-since-+2 counter and the size, and counts one more injection exactly when the injection fires at its move |
| MooTransitions.MovementsInRange | Weird_finding.cpp:171-181 | moved states keep magnitudes in [0, n] |
| MooTransitions.GenerateMovements | Weird_finding.cpp:158-182 | the loop appends exactly the moved states that pass the ordering check, in target order |
| MooTransitions.AfterOp | Weird_finding.cpp:120-131 | an operation keeps the position, the move counter and the size; +1 adds one to the moves-since-+2 counter, +2 resets it |
| MooTransitions.Boosted | Weird_finding.cpp:128 | adding 2 to the active slot, saturating at `n`, keeps magnitudes in [0, n] |
| MooTransitions.BoostRedistributes | Weird_finding.cpp:127-131 | after the saturating add, the +2 operation changes at most the two slots the trigger picks |
| MooTransitions.BoostChangesTotal | Weird_finding.cpp:127-131 | the +2 operation moves one unit from the maximum to the minimum of the boosted vector, unless the floor at 0 or the cap at `n` stops it |
| MooTransitions.AfterOpInRange | Weird_finding.cpp:123-131 | either operation keeps magnitudes in [0, n] |
| MooTransitions.BoostInRange | Weird_finding.cpp:127-131 | the +2 operation keeps magnitudes in [0, n] |
| MooTransitions.RaiseOne | Weird_finding.cpp:123-126 | the +1 branch on a copy computes the +1 operation |
| MooTransitions.RaiseTwo | Weird_finding.cpp:127-131 | the +2 branch on a copy, trigger included, computes the +2 operation |
| MooTransitions.TryOperation | Weird_finding.cpp:120-134 | appends exactly the successors of the operation to `next_states` |
| MooTransitions.Successors | Weird_finding.cpp:112-118 | at most 4 successors per state |
| MooTransitions.SuccessorsShape | Weird_finding.cpp:112-118 | every successor has the system's shape, passes the ordering check, is one move deeper and stands at the parent's position plus or minus 1 |
| MooTransitions.SuccessorsInRange | Weird_finding.cpp:112-118 | successors keep magnitudes in [0, n] |
| MooTransitions.BoostCounter | Weird_finding.cpp:112-131 | +1 successors count one more move since +2, +2 successors count zero, and +2 is not tried below 2 |
| MooTransitions.GenerateNextStates | Weird_finding.cpp:112-118 | appends the +1 successors, then the +2 successors when allowed |
| MooTransitions.FirstStepOfSizeTwo | Weird_finding.cpp:112-199 | for n = 2 the only first successor is magnitudes [1, 2] at position 1, where the flip fired at move 1 |
| MooSearch.AdmitExactly | Weird_finding.cpp:98-104 | a successor is pushed and recorded at its depth iff its key is new or it is strictly deeper; otherwise nothing changes |
| MooSearch.AdmitAllRecords | Weird_finding.cpp:96-104 | offering successors never lowers a recorded depth, and every successor ends up recorded at least as deep as itself |
| MooSearch.AdmitAllPushes | Weird_finding.cpp:96-104 | offering successors keeps the stack below them and pushes only successors |
| MooSearch.AdmitAllDominated | Weird_finding.cpp:96-104 | successors all recorded at least as deep change nothing |
| MooSearch.AdmitAllKeepsMax | Weird_finding.cpp:96-104 | offering successors leaves the running maximum alone |
| MooSearch.PushAdmitted | Weird_finding.cpp:96-104 | the admission loop performs exactly that offering |
| MooSearch.GoalNotExpanded | Weird_finding.cpp:84-88 | a popped goal state pushes nothing and changes no recorded depth; it only raises the maximum |
| MooSearch.StartInv | Weird_finding.cpp:70-77 | the start configuration satisfies the search invariant |
| MooSearch.AdmitAllInv | Weird_finding.cpp:96-104 | offering good successors keeps the invariant |
| MooSearch.StepInv | Weird_finding.cpp:79-104 | one iteration keeps the invariant (stacked states good and recorded at least as deep), and depths only grow |
| MooSearch.RunInv | Weird_finding.cpp:79-105 | any number of iterations keeps the invariant, and depths only grow |
| MooSearch.DeepestGoal | Weird_finding.cpp:73-85 | the deepest depth is never negative |
| MooSearch.DeepestGoalIsMax | Weird_finding.cpp:73-85 | no popped goal state is deeper, and unless it is 0 some popped goal state is that deep |
| MooSearch.RunMax | Weird_finding.cpp:73-105 | after the iterations, the running maximum is the larger of the old one and the deepest goal state popped |
| MooSearch.PoppedGoalsAreGoals | Weird_finding.cpp:79-105 | every popped goal state is a goal, passes the ordering check and has magnitudes in [0, n] |
| MooSearch.ExpandKeepsGood | Weird_finding.cpp:112-118 | the MOO generator maps good states (shape, range, ordering) to good states |
| MooSearch.SearchFacts | Weird_finding.cpp:69-109 | the search result is the deepest popped goal state or 0; popped goal states are goals in range and ordered; the invariant holds; the initial key stays recorded |
| MooSearch.ExploreTop | Weird_finding.cpp:80-104 | one pass of the loop body performs exactly one search iteration |
| MooSearch.SearchLoop | Weird_finding.cpp:79-105 | the loop performs exactly the bounded run of search iterations |
| MooSearch.RunStable | Weird_finding.cpp:79-105 | once the stack has run empty, further iterations change neither the configuration nor the goal states popped, so the bounded run is the complete one |
| MooSearch.SearchComplete | Weird_finding.cpp:79-108 | a search whose stack has run empty gives the same result for any larger fuel |
| MooSearch.ComputeL | Weird_finding.cpp:69-109 | returns the deepest goal state popped in at most `fuel` iterations, or 0, and reports whether the stack ran empty |

## Left out

- `main` and all console input and output are not modelled. This includes result
  printing, `State::to_string`, and the progress and goal logging, which do not
  affect results.
- The `states_explored` counter is not modelled. It only drives the progress
  logging.
- ComputeL: performs at most `fuel` iterations of the loop instead of running until
  the stack is empty. It reports through `exhausted` whether the stack ran empty;
  when it did, the result is the source's, because `RunStable` and `SearchComplete`
  show that more iterations then change nothing. The source gives no termination
  argument, and its closing comment expects size 3 to run forever.
- The empirical claims in the closing comment (`L(2) = 628`, unbounded growth for
  size 3) are not proved.
- The banner that lists flip moves 2, 5, 7, 10, ... is not modelled. The model
  follows the code's rule instead; `PeriodicSchedule` states the moves that rule
  gives.
- Size 1 is excluded by `n >= 2`. There position 0 moves to position 1, and the next
  operation then indexes past the end of the vector.
- The counters are unbounded integers. The 32-bit overflow of `total_moves` in very
  long runs is not modelled.
- The performance of `std::map` and `std::vector` is not modelled.
- The stray closing brace after the closing comment is not modelled. It has no
  behaviour.
- In-place updates of a state are modelled as updates of a copy that is then
  returned. The source copies states by value, so no aliasing is lost.
