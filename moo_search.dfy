/** The dominance-pruned depth-first search of the MOO system. A configuration of
    the search is its stack of states, the map from key to the deepest recorded
    arrival, and the running maximum depth over the goal states popped so far.
    `Step` is one iteration of the search loop, `Run` a bounded number of them;
    `ComputeL` is the loop itself, proved to compute what `Run` does. */
module MooSearch {
  import opened MooState
  import opened MooTransitions

  datatype Config = Config(stack: seq<State>, best: map<Key, int>, maxMoves: int)

  /** The search starts with the initial state on the stack, recorded at depth 0. */
  function Start(n: int): Config
    requires n >= 2
  {
    Config([Initial(n)], map[KeyOf(Initial(n)) := 0], 0)
  }

  /** A state is admitted when its key is new or it arrives strictly deeper than the
      recorded depth. */
  predicate Admits(best: map<Key, int>, x: State)
  {
    KeyOf(x) !in best || best[KeyOf(x)] < x.totalMoves
  }

  /** Offer one candidate: if admitted, record its depth and push it. */
  function Admit(c: Config, x: State): Config
  {
    if Admits(c.best, x)
    then c.(stack := c.stack + [x], best := c.best[KeyOf(x) := x.totalMoves])
    else c
  }

  /** Offer the candidates in order. */
  function AdmitAll(c: Config, xs: seq<State>): Config
  {
    if xs == [] then c else Admit(AdmitAll(c, xs[..|xs| - 1]), xs[|xs| - 1])
  }

  /** Offering candidates never touches the running maximum. */
  lemma {:induction false} AdmitAllKeepsMax(c: Config, xs: seq<State>)
    ensures AdmitAll(c, xs).maxMoves == c.maxMoves
    decreases |xs|
  {
    if xs != [] {
      AdmitAllKeepsMax(c, xs[..|xs| - 1]);
    }
  }

  /** Offering candidates only raises recorded depths, and every candidate's key ends
      up recorded at least as deep as the candidate. */
  lemma {:induction false} AdmitAllRecords(c: Config, xs: seq<State>)
    ensures forall k | k in c.best :: k in AdmitAll(c, xs).best && c.best[k] <= AdmitAll(c, xs).best[k]
    ensures forall x | x in xs :: KeyOf(x) in AdmitAll(c, xs).best && x.totalMoves <= AdmitAll(c, xs).best[KeyOf(x)]
    decreases |xs|
  {
    if xs != [] {
      AdmitAllRecords(c, xs[..|xs| - 1]);
      assert xs == xs[..|xs| - 1] + [xs[|xs| - 1]];
    }
  }

  /** Offering candidates keeps the stack below and only pushes candidates. */
  lemma {:induction false} AdmitAllPushes(c: Config, xs: seq<State>)
    ensures |c.stack| <= |AdmitAll(c, xs).stack| && AdmitAll(c, xs).stack[..|c.stack|] == c.stack
    ensures forall x | x in AdmitAll(c, xs).stack[|c.stack|..] :: x in xs
    decreases |xs|
  {
    if xs != [] {
      AdmitAllPushes(c, xs[..|xs| - 1]);
      assert forall x | x in xs[..|xs| - 1] :: x in xs;
    }
  }

  /** Candidates that are all recorded at least as deep already change nothing: a
      candidate already recorded at least as deep is not pushed. */
  lemma {:induction false} AdmitAllDominated(c: Config, xs: seq<State>)
    requires forall x | x in xs :: !Admits(c.best, x)
    ensures AdmitAll(c, xs) == c
    decreases |xs|
  {
    if xs != [] {
      assert forall x | x in xs[..|xs| - 1] :: x in xs;
      AdmitAllDominated(c, xs[..|xs| - 1]);
    }
  }

  /** A candidate with a new key, or deeper than the recorded depth, is pushed and
      its key is then recorded at exactly its depth; any other candidate changes
      nothing. */
  lemma AdmitExactly(c: Config, x: State)
    ensures Admits(c.best, x) ==> Admit(c, x).stack == c.stack + [x]
    ensures Admits(c.best, x) ==> Admit(c, x).best == c.best[KeyOf(x) := x.totalMoves]
    ensures Admits(c.best, x) && KeyOf(x) in c.best ==> c.best[KeyOf(x)] < Admit(c, x).best[KeyOf(x)]
    ensures !Admits(c.best, x) ==> Admit(c, x) == c
  {
  }

  function Top(c: Config): State
    requires c.stack != []
  {
    c.stack[|c.stack| - 1]
  }

  /** One iteration of the search loop, for successor generator `next`: pop the top
      state; a goal state only updates the running maximum and is not expanded; any
      other state offers its successors in order. */
  function Step(c: Config, next: State -> seq<State>): Config
    requires c.stack != []
  {
    var top := Top(c);
    var rest := c.stack[..|c.stack| - 1];
    if IsGoal(top) then c.(stack := rest, maxMoves := Max(c.maxMoves, top.totalMoves))
    else AdmitAll(c.(stack := rest), next(top))
  }

  /** A goal state is popped without being expanded: nothing is pushed and no
      recorded depth changes. */
  lemma GoalNotExpanded(c: Config, next: State -> seq<State>)
    requires c.stack != [] && IsGoal(Top(c))
    ensures Step(c, next).stack == c.stack[..|c.stack| - 1] && Step(c, next).best == c.best
    ensures Step(c, next).maxMoves == Max(c.maxMoves, Top(c).totalMoves)
  {
  }

  /** At most `fuel` iterations of the search loop, stopping early when the stack is
      empty. */
  function Run(c: Config, next: State -> seq<State>, fuel: nat): Config
    decreases fuel
  {
    if fuel == 0 || c.stack == [] then c else Run(Step(c, next), next, fuel - 1)
  }

  /** Once a run has emptied the stack, more fuel changes neither its result nor the
      goal states it popped. */
  lemma {:induction false} RunStable(c: Config, next: State -> seq<State>, fuel: nat, more: nat)
    requires Run(c, next, fuel).stack == [] && fuel <= more
    ensures Run(c, next, more) == Run(c, next, fuel)
    ensures PoppedGoals(c, next, more) == PoppedGoals(c, next, fuel)
    decreases fuel
  {
    if c.stack != [] {
      RunStable(Step(c, next), next, fuel - 1, more - 1);
    }
  }

  /** The goal states popped during those iterations, in order. */
  function PoppedGoals(c: Config, next: State -> seq<State>, fuel: nat): seq<State>
    decreases fuel
  {
    if fuel == 0 || c.stack == [] then []
    else (if IsGoal(Top(c)) then [Top(c)] else []) + PoppedGoals(Step(c, next), next, fuel - 1)
  }

  /** The largest depth among `gs`, or 0 when there is none. */
  function DeepestGoal(gs: seq<State>): (r: int)
    ensures r >= 0
  {
    if gs == [] then 0 else Max(gs[0].totalMoves, DeepestGoal(gs[1..]))
  }

  /** `DeepestGoal` is the maximum depth of the states given: no state is deeper,
      and unless it is 0 some state has exactly that depth. */
  lemma {:induction false} DeepestGoalIsMax(gs: seq<State>)
    ensures forall g | g in gs :: g.totalMoves <= DeepestGoal(gs)
    ensures DeepestGoal(gs) == 0 || exists g | g in gs :: g.totalMoves == DeepestGoal(gs)
  {
    if gs != [] {
      DeepestGoalIsMax(gs[1..]);
      assert forall g | g in gs :: g == gs[0] || g in gs[1..];
      if DeepestGoal(gs[1..]) != 0 && DeepestGoal(gs) == DeepestGoal(gs[1..]) {
        var g :| g in gs[1..] && g.totalMoves == DeepestGoal(gs[1..]);
        assert g in gs;
      }
    }
  }

  /** What every state admitted to the stack satisfies: the system's shape and size,
      magnitudes in [0, n], and the ordering check. */
  predicate Good(x: State, n: int)
  {
    Wf(x) && x.n == n && InRange(x.magnitudes, n) && ValidOrdering(x)
  }

  /** A successor generator that only produces good states from good states. */
  ghost predicate KeepsGood(next: State -> seq<State>, n: int)
  {
    forall s, x | Good(s, n) && x in next(s) :: Good(x, n)
  }

  /** What every configuration of the search satisfies: each state on the stack is
      good and its key is recorded at least as deep as it is; the maximum is not
      negative. */
  predicate Inv(n: int, c: Config)
  {
    && n >= 2 && c.maxMoves >= 0
    && forall x | x in c.stack :: Good(x, n) && KeyOf(x) in c.best && x.totalMoves <= c.best[KeyOf(x)]
  }

  lemma StartInv(n: int)
    requires n >= 2
    ensures Inv(n, Start(n))
  {
    InitialIsGood(n);
  }

  /** Offering good candidates keeps the invariant. */
  lemma AdmitAllInv(n: int, c: Config, xs: seq<State>)
    requires Inv(n, c)
    requires forall x | x in xs :: Good(x, n)
    ensures Inv(n, AdmitAll(c, xs))
  {
    var r := AdmitAll(c, xs);
    AdmitAllRecords(c, xs);
    AdmitAllPushes(c, xs);
    forall x | x in r.stack
      ensures Good(x, n) && KeyOf(x) in r.best && x.totalMoves <= r.best[KeyOf(x)]
    {
      var i :| 0 <= i < |r.stack| && r.stack[i] == x;
      if i < |c.stack| {
        assert x == r.stack[..|c.stack|][i] && x in c.stack;
      } else {
        assert x == r.stack[|c.stack|..][i - |c.stack|];
      }
    }
  }

  /** One iteration keeps the invariant, and recorded depths only grow. */
  lemma StepInv(n: int, c: Config, next: State -> seq<State>)
    requires Inv(n, c) && c.stack != [] && KeepsGood(next, n)
    ensures Inv(n, Step(c, next))
    ensures forall k | k in c.best :: k in Step(c, next).best && c.best[k] <= Step(c, next).best[k]
  {
    var top := Top(c);
    var rest := c.stack[..|c.stack| - 1];
    assert forall x | x in rest :: x in c.stack;
    if !IsGoal(top) {
      AdmitAllInv(n, c.(stack := rest), next(top));
      AdmitAllRecords(c.(stack := rest), next(top));
    }
  }

  /** Any number of iterations keeps the invariant, and recorded depths only grow. */
  lemma {:induction false} RunInv(n: int, c: Config, next: State -> seq<State>, fuel: nat)
    requires Inv(n, c) && KeepsGood(next, n)
    ensures Inv(n, Run(c, next, fuel))
    ensures forall k | k in c.best :: k in Run(c, next, fuel).best && c.best[k] <= Run(c, next, fuel).best[k]
    decreases fuel
  {
    if fuel > 0 && c.stack != [] {
      StepInv(n, c, next);
      RunInv(n, Step(c, next), next, fuel - 1);
    }
  }

  lemma DeepestGoalCons(g: State, gs: seq<State>)
    ensures DeepestGoal([g] + gs) == Max(g.totalMoves, DeepestGoal(gs))
  {
    assert ([g] + gs)[1..] == gs;
  }

  /** One more iteration of a run that has not stopped. */
  lemma RunUnfold(c: Config, next: State -> seq<State>, fuel: nat)
    requires fuel > 0 && c.stack != []
    ensures Run(c, next, fuel) == Run(Step(c, next), next, fuel - 1)
  {
  }

  /** The goal states popped from a non-empty stack: the top, if it is a goal, then
      those popped after one iteration. */
  lemma PoppedGoalsUnfold(c: Config, next: State -> seq<State>, fuel: nat)
    requires fuel > 0 && c.stack != []
    ensures PoppedGoals(c, next, fuel)
      == (if IsGoal(Top(c)) then [Top(c)] else []) + PoppedGoals(Step(c, next), next, fuel - 1)
  {
  }

  /** The running maximum after the iterations is the larger of the maximum before
      them and the deepest goal state popped during them. */
  lemma {:induction false} RunMax(c: Config, next: State -> seq<State>, fuel: nat)
    requires c.maxMoves >= 0
    ensures Run(c, next, fuel).maxMoves == Max(c.maxMoves, DeepestGoal(PoppedGoals(c, next, fuel)))
    decreases fuel
  {
    if fuel == 0 || c.stack == [] {
      assert PoppedGoals(c, next, fuel) == [];
    } else {
      var d := Step(c, next);
      var top := Top(c);
      if !IsGoal(top) {
        AdmitAllKeepsMax(c.(stack := c.stack[..|c.stack| - 1]), next(top));
      }
      assert d.maxMoves == if IsGoal(top) then Max(c.maxMoves, top.totalMoves) else c.maxMoves;
      RunUnfold(c, next, fuel);
      RunMax(d, next, fuel - 1);
      var later := PoppedGoals(d, next, fuel - 1);
      PoppedGoalsUnfold(c, next, fuel);
      if IsGoal(top) {
        DeepestGoalCons(top, later);
        assert DeepestGoal(PoppedGoals(c, next, fuel)) == Max(top.totalMoves, DeepestGoal(later));
        assert Run(c, next, fuel).maxMoves == Run(d, next, fuel - 1).maxMoves;
        assert Run(d, next, fuel - 1).maxMoves == Max(Max(c.maxMoves, top.totalMoves), DeepestGoal(later));
      } else {
        assert [] + later == later;
        assert DeepestGoal(PoppedGoals(c, next, fuel)) == DeepestGoal(later);
        assert Run(c, next, fuel).maxMoves == Run(d, next, fuel - 1).maxMoves;
        assert Run(d, next, fuel - 1).maxMoves == Max(c.maxMoves, DeepestGoal(later));
      }
    }
  }

  /** Every popped goal state satisfies the goal test, passes the ordering check and
      has magnitudes in [0, n]. */
  lemma {:induction false} PoppedGoalsAreGoals(n: int, c: Config, next: State -> seq<State>, fuel: nat)
    requires Inv(n, c) && KeepsGood(next, n)
    ensures forall g | g in PoppedGoals(c, next, fuel) ::
      IsGoal(g) && ValidOrdering(g) && InRange(g.magnitudes, n)
    decreases fuel
  {
    if fuel > 0 && c.stack != [] {
      StepInv(n, c, next);
      PoppedGoalsAreGoals(n, Step(c, next), next, fuel - 1);
    }
  }

  // ---------------------------------------------------------------------------
  // The search of the MOO system

  /** The successor generator of the MOO system, on every state of the system's shape. */
  function Expand(s: State): seq<State>
  {
    if Wf(s) then Successors(s) else []
  }

  /** The MOO successor generator keeps states good. */
  lemma ExpandKeepsGood(n: int)
    ensures KeepsGood(Expand, n)
  {
    forall s, x | Good(s, n) && x in Expand(s)
      ensures Good(x, n)
    {
      SuccessorsShape(s);
      SuccessorsInRange(s);
    }
  }

  /** The search for system size `n`, for at most `fuel` iterations. */
  function Search(n: int, fuel: nat): Config
    requires n >= 2
  {
    Run(Start(n), Expand, fuel)
  }

  /** A search that has emptied its stack is the complete search: any larger
      fuel gives the same result. */
  lemma SearchComplete(n: int, fuel: nat, more: nat)
    requires n >= 2 && Search(n, fuel).stack == [] && fuel <= more
    ensures Search(n, more) == Search(n, fuel)
  {
    RunStable(Start(n), Expand, fuel, more);
  }

  /** What the search guarantees: its running maximum is the deepest goal state it
      popped (0 if none), every popped goal state is a goal with magnitudes in [0, n]
      that passes the ordering check, every state left on the stack is good, and the
      initial key stays recorded. */
  lemma SearchFacts(n: int, fuel: nat)
    requires n >= 2
    ensures Search(n, fuel).maxMoves == DeepestGoal(PoppedGoals(Start(n), Expand, fuel))
    ensures forall g | g in PoppedGoals(Start(n), Expand, fuel) ::
      IsGoal(g) && ValidOrdering(g) && InRange(g.magnitudes, n)
    ensures Inv(n, Search(n, fuel))
    ensures KeyOf(Initial(n)) in Search(n, fuel).best
  {
    StartInv(n);
    ExpandKeepsGood(n);
    RunMax(Start(n), Expand, fuel);
    RunInv(n, Start(n), Expand, fuel);
    PoppedGoalsAreGoals(n, Start(n), Expand, fuel);
  }

  /** The loop that offers the generated successors: push each one that is new or
      deeper than its recorded depth, recording its depth. */
  method PushAdmitted(stack: seq<State>, best: map<Key, int>, nextStates: seq<State>)
    returns (stack': seq<State>, best': map<Key, int>)
    ensures forall m :: Config(stack', best', m) == AdmitAll(Config(stack, best, m), nextStates)
  {
    stack', best' := stack, best;
    for i := 0 to |nextStates|
      invariant forall m :: Config(stack', best', m) == AdmitAll(Config(stack, best, m), nextStates[..i])
    {
      assert nextStates[..i + 1][..i] == nextStates[..i];
      var next := nextStates[i];
      if KeyOf(next) !in best' || best'[KeyOf(next)] < next.totalMoves {
        best' := best'[KeyOf(next) := next.totalMoves];
        stack' := stack' + [next];
      }
    }
    assert nextStates[..|nextStates|] == nextStates;
  }

  /** `next` is the MOO successor generator. The search loop is proved against a
      generator it only knows through this predicate, so that its proof does not
      unfold the successor computation. */
  ghost predicate IsExpand(next: State -> seq<State>)
  {
    forall s {:trigger Expand(s)} :: next(s) == Expand(s)
  }

  /** One pass of the loop body: pop the top state; a goal only updates the maximum;
      otherwise generate its successors and push the admitted ones. */
  method ExploreTop(ghost next: State -> seq<State>, stack: seq<State>, best: map<Key, int>, maxMoves: int)
    returns (stack': seq<State>, best': map<Key, int>, maxMoves': int)
    requires IsExpand(next) && stack != [] && Wf(stack[|stack| - 1])
    ensures Config(stack', best', maxMoves') == Step(Config(stack, best, maxMoves), next)
  {
    var current := stack[|stack| - 1];
    stack', best', maxMoves' := stack[..|stack| - 1], best, maxMoves;

    var goal := CheckGoal(current);
    if goal {
      maxMoves' := Max(maxMoves', current.totalMoves);
    } else {
      var nextStates := GenerateNextStates(current, []);
      assert nextStates == Expand(current);
      stack', best' := PushAdmitted(stack', best', nextStates);
    }
  }

  /** The search loop from a given configuration, for at most `fuel` iterations. */
  method SearchLoop(ghost next: State -> seq<State>, n: int,
                    stack0: seq<State>, best0: map<Key, int>, maxMoves0: int, fuel: nat)
    returns (stack: seq<State>, best: map<Key, int>, maxMoves: int)
    requires IsExpand(next) && KeepsGood(next, n) && Inv(n, Config(stack0, best0, maxMoves0))
    ensures Config(stack, best, maxMoves) == Run(Config(stack0, best0, maxMoves0), next, fuel)
  {
    stack, best, maxMoves := stack0, best0, maxMoves0;
    var steps := fuel;
    while stack != [] && steps > 0
      invariant Inv(n, Config(stack, best, maxMoves))
      invariant Run(Config(stack, best, maxMoves), next, steps) == Run(Config(stack0, best0, maxMoves0), next, fuel)
      decreases steps
    {
      ghost var before := Config(stack, best, maxMoves);
      RunUnfold(before, next, steps);
      StepInv(n, before, next);
      stack, best, maxMoves := ExploreTop(next, stack, best, maxMoves);
      steps := steps - 1;
    }
  }

  /** The search loop, for at most `fuel` iterations. The result is the deepest goal
      state popped (0 if none), and `exhausted` says whether the stack ran empty. */
  method ComputeL(n: int, fuel: nat) returns (maxMoves: int, exhausted: bool)
    requires n >= 2
    ensures maxMoves == Search(n, fuel).maxMoves
    ensures maxMoves == DeepestGoal(PoppedGoals(Start(n), Expand, fuel))
    ensures exhausted <==> Search(n, fuel).stack == []
  {
    var initial := Initial(n);
    var best: map<Key, int> := map[];
    var stack: seq<State> := [];
    maxMoves := 0;

    stack := stack + [initial];
    best := best[KeyOf(initial) := 0];
    assert stack == [Initial(n)];
    assert best == map[KeyOf(Initial(n)) := 0];
    StartInv(n);
    ExpandKeepsGood(n);
    stack, best, maxMoves := SearchLoop(Expand, n, stack, best, maxMoves, fuel);
    exhausted := stack == [];
    SearchFacts(n, fuel);
  }
}
