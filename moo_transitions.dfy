/** Successor generation of the MOO system: the +1 and +2 operations, the trigger
    redistribution after +2, movement to the neighbouring positions, and the
    periodic flip and injection effects keyed on the move counter. Each in-place
    routine is a method proved equal to a specification function; the lemmas state
    what those functions guarantee. */
module MooTransitions {
  import opened MooState

  // ---------------------------------------------------------------------------
  // Trigger: the max/min redistribution applied after a +2 operation

  /** The running maximum of a scan that starts at `acc`. */
  function ScanMax(acc: int, m: seq<int>): int
  {
    if |m| == 0 then acc else Max(ScanMax(acc, m[..|m| - 1]), m[|m| - 1])
  }

  /** The scan's result bounds `acc` and every slot from above, and is `acc` or some
      slot's value. */
  lemma {:induction false} ScanMaxBounds(acc: int, m: seq<int>)
    ensures acc <= ScanMax(acc, m) && forall i :: 0 <= i < |m| ==> m[i] <= ScanMax(acc, m)
    ensures ScanMax(acc, m) == acc || exists i :: 0 <= i < |m| && m[i] == ScanMax(acc, m)
  {
    if |m| > 0 {
      var p := m[..|m| - 1];
      ScanMaxBounds(acc, p);
      assert forall i :: 0 <= i < |p| ==> p[i] == m[i];
    }
  }

  /** The running minimum of a scan that starts at `acc`. */
  function ScanMin(acc: int, m: seq<int>): int
  {
    if |m| == 0 then acc else Min(ScanMin(acc, m[..|m| - 1]), m[|m| - 1])
  }

  /** The scan's result bounds `acc` and every slot from below, and is `acc` or some
      slot's value. */
  lemma {:induction false} ScanMinBounds(acc: int, m: seq<int>)
    ensures ScanMin(acc, m) <= acc && forall i :: 0 <= i < |m| ==> ScanMin(acc, m) <= m[i]
    ensures ScanMin(acc, m) == acc || exists i :: 0 <= i < |m| && m[i] == ScanMin(acc, m)
  {
    if |m| > 0 {
      var p := m[..|m| - 1];
      ScanMinBounds(acc, p);
      assert forall i :: 0 <= i < |p| ==> p[i] == m[i];
    }
  }

  /** The first slot holding `v`, or `|m|` when there is none. */
  function FirstIndex(m: seq<int>, v: int): (r: nat)
    ensures r <= |m|
    ensures r < |m| ==> m[r] == v
  {
    if |m| == 0 then 0 else if m[0] == v then 0 else 1 + FirstIndex(m[1..], v)
  }

  /** No slot before the first occurrence holds `v`. */
  lemma {:induction false} FirstIndexIsFirst(m: seq<int>, v: int)
    ensures forall k :: 0 <= k < FirstIndex(m, v) ==> m[k] != v
  {
    if |m| > 0 && m[0] != v {
      FirstIndexIsFirst(m[1..], v);
      assert forall k :: 1 <= k < |m| ==> m[k] == m[1..][k - 1];
    }
  }

  /** Decrement the first slot equal to `v`, floored at 0. */
  function DecrementFirst(m: seq<int>, v: int): seq<int>
  {
    var i := FirstIndex(m, v);
    if i < |m| then m[i := Max(0, m[i] - 1)] else m
  }

  /** Increment the first slot equal to `v`, capped at `n`. */
  function IncrementFirst(m: seq<int>, v: int, n: int): seq<int>
  {
    var j := FirstIndex(m, v);
    if j < |m| then m[j := Min(n, m[j] + 1)] else m
  }

  /** The trigger: maximum and minimum are taken from the vector before either edit;
      the first maximum is decremented, and then the first slot of the decremented
      vector holding the old minimum is incremented. */
  function Triggered(m: seq<int>, n: int): (r: seq<int>)
    ensures |r| == |m|
  {
    IncrementFirst(DecrementFirst(m, ScanMax(-1, m)), ScanMin(n + 1, m), n)
  }

  /** The in-place trigger: one scan for the extremes, then two first-occurrence
      scans that each stop at their first hit. */
  method ApplyTrigger(s: State) returns (t: State)
    requires |s.magnitudes| == s.n
    ensures t == s.(magnitudes := Triggered(s.magnitudes, s.n))
  {
    var maxVal, minVal := Extremes(s.magnitudes, s.n);
    var m := DecrementFirstHit(s.magnitudes, maxVal);
    m := IncrementFirstHit(m, minVal, s.n);
    t := s.(magnitudes := m);
  }

  /** The scan for the extremes of the trigger, from -1 and n + 1. */
  method Extremes(m: seq<int>, n: int) returns (maxVal: int, minVal: int)
    ensures maxVal == ScanMax(-1, m) && minVal == ScanMin(n + 1, m)
  {
    maxVal, minVal := -1, n + 1;
    for i := 0 to |m|
      invariant maxVal == ScanMax(-1, m[..i]) && minVal == ScanMin(n + 1, m[..i])
    {
      assert m[..i + 1][..i] == m[..i];
      maxVal := Max(maxVal, m[i]);
      minVal := Min(minVal, m[i]);
    }
    assert m[..|m|] == m;
  }

  /** The loop that decrements the first slot equal to `v` and stops. */
  method DecrementFirstHit(m: seq<int>, v: int) returns (r: seq<int>)
    ensures r == DecrementFirst(m, v)
  {
    r := m;
    var i := 0;
    while i < |m|
      invariant 0 <= i <= |m| && r == m
      invariant forall k :: 0 <= k < i ==> m[k] != v
    {
      if m[i] == v {
        r := m[i := Max(0, m[i] - 1)];
        FirstIndexIsFirst(m, v);
        assert i == FirstIndex(m, v);
        return;
      }
      i := i + 1;
    }
  }

  /** The loop that increments the first slot equal to `v`, capped at `n`, and stops. */
  method IncrementFirstHit(m: seq<int>, v: int, n: int) returns (r: seq<int>)
    ensures r == IncrementFirst(m, v, n)
  {
    r := m;
    var j := 0;
    while j < |m|
      invariant 0 <= j <= |m| && r == m
      invariant forall k :: 0 <= k < j ==> m[k] != v
    {
      if m[j] == v {
        r := m[j := Min(n, m[j] + 1)];
        FirstIndexIsFirst(m, v);
        assert j == FirstIndex(m, v);
        return;
      }
      j := j + 1;
    }
  }

  /** The slot the trigger decrements: the first holding the maximum. */
  function MaxSlot(m: seq<int>): nat
  {
    FirstIndex(m, ScanMax(-1, m))
  }

  /** The slot the trigger increments: the first holding the old minimum once the
      decrement has been made. */
  function MinSlot(m: seq<int>, n: int): nat
  {
    FirstIndex(DecrementFirst(m, ScanMax(-1, m)), ScanMin(n + 1, m))
  }

  /** With magnitudes in [0, n] and at least two slots, the scans find the true
      maximum and minimum, both edits take place, and every slot other than the two
      edited ones keeps its value. */
  lemma {:induction false} TriggerEffect(m: seq<int>, n: int)
    requires |m| >= 2 && InRange(m, n)
    ensures forall k :: 0 <= k < |m| ==> ScanMin(n + 1, m) <= m[k] <= ScanMax(-1, m)
    ensures MaxSlot(m) < |m| && m[MaxSlot(m)] == ScanMax(-1, m)
    ensures MinSlot(m, n) < |m| && DecrementFirst(m, ScanMax(-1, m))[MinSlot(m, n)] == ScanMin(n + 1, m)
    ensures Triggered(m, n)
      == m[MaxSlot(m) := Max(0, ScanMax(-1, m) - 1)][MinSlot(m, n) := Min(n, ScanMin(n + 1, m) + 1)]
    ensures forall k :: 0 <= k < |m| && k != MaxSlot(m) && k != MinSlot(m, n) ==> Triggered(m, n)[k] == m[k]
  {
    var hi := ScanMax(-1, m);
    var lo := ScanMin(n + 1, m);
    ScanMaxBounds(-1, m);
    ScanMinBounds(n + 1, m);
    assert m[0] >= 0 && m[0] <= n;
    var i := MaxSlot(m);
    FirstIndexIsFirst(m, hi);
    var d := DecrementFirst(m, hi);
    FirstIndexIsFirst(d, lo);
    // the minimum occurs in m, and it survives the decrement somewhere
    var w :| 0 <= w < |m| && m[w] == lo;
    if w != i {
      assert d[w] == lo;
    } else {
      // the only slot that may lose the minimum is the maximum's slot; then all
      // slots are equal and the other slot still holds it
      var o := if i == 0 then 1 else 0;
      assert lo <= m[o] <= hi == m[i] == lo;
      assert d[o] == lo;
    }
    assert i < |m| && d == m[i := Max(0, hi - 1)];
    var j := MinSlot(m, n);
    assert j < |m| && d[j] == lo;
    assert IncrementFirst(d, lo, n) == d[j := Min(n, lo + 1)];
    assert Triggered(m, n) == IncrementFirst(d, lo, n);
  }

  /** The trigger keeps magnitudes in [0, n]. */
  lemma TriggerInRange(m: seq<int>, n: int)
    requires |m| >= 2 && InRange(m, n)
    ensures InRange(Triggered(m, n), n)
  {
    TriggerEffect(m, n);
  }

  /** The sum of all magnitudes. */
  function Total(m: seq<int>): int
  {
    if |m| == 0 then 0 else m[0] + Total(m[1..])
  }

  lemma {:induction false} TotalUpdate(m: seq<int>, i: int, v: int)
    requires 0 <= i < |m|
    ensures Total(m[i := v]) == Total(m) - m[i] + v
  {
    if i == 0 {
      assert m[i := v][1..] == m[1..];
    } else {
      assert m[i := v][1..] == m[1..][i - 1 := v];
      TotalUpdate(m[1..], i - 1, v);
    }
  }

  /** The trigger moves one unit from the maximum to the minimum: the sum of the
      magnitudes loses one exactly when the maximum is positive (the decrement is
      not floored) and gains one exactly when the minimum is below `n` (the
      increment is not capped); so it is kept when both hold. */
  lemma TriggerChangesTotal(m: seq<int>, n: int)
    requires |m| >= 2 && InRange(m, n)
    ensures Total(Triggered(m, n))
      == Total(m) - (if ScanMax(-1, m) > 0 then 1 else 0) + (if ScanMin(n + 1, m) < n then 1 else 0)
  {
    TriggerEffect(m, n);
    var hi := ScanMax(-1, m);
    var lo := ScanMin(n + 1, m);
    var i := MaxSlot(m);
    var j := MinSlot(m, n);
    var d := m[i := Max(0, hi - 1)];
    assert DecrementFirst(m, hi) == d;
    TotalUpdate(m, i, Max(0, hi - 1));
    TotalUpdate(d, j, Min(n, lo + 1));
  }

  // ---------------------------------------------------------------------------
  // Periodic effects

  /** The flip period: 4, one longer every 50000 moves, at most 100. */
  function FlipPeriod(t: nat): (p: nat)
    ensures 4 <= p <= 100
    ensures t < 50000 ==> p == 4
    ensures t >= 4800000 ==> p == 100
  {
    if 4 + t / 50000 > 100 then 100 else 4 + t / 50000
  }

  predicate FlipFires(t: nat)
  {
    t % FlipPeriod(t) == 1
  }

  predicate InjectionFires(t: nat)
  {
    t > 0 && t % 131 == 0
  }

  /** Every magnitude raised by one, capped at `n`. */
  function Injected(m: seq<int>, n: int): seq<int>
  {
    seq(|m|, i requires 0 <= i < |m| => Min(n, m[i] + 1))
  }

  /** The periodic effects for the state's (already incremented) move counter: first
      the flip, then the injection, independently of each other. Only the magnitudes
      and the injection counter change. */
  function Periodic(s: State): (r: State)
    ensures r.pos == s.pos && r.sincePlus2 == s.sincePlus2 && r.totalMoves == s.totalMoves
    ensures r.n == s.n && |r.magnitudes| == |s.magnitudes|
    ensures r.injectionCycle == s.injectionCycle + (if InjectionFires(s.totalMoves) then 1 else 0)
  {
    var f := if FlipFires(s.totalMoves) then s.(magnitudes := Flipped(s.magnitudes, s.n)) else s;
    if InjectionFires(f.totalMoves)
    then f.(magnitudes := Injected(f.magnitudes, f.n), injectionCycle := f.injectionCycle + 1)
    else f
  }

  method ApplyPeriodicEffects(s: State) returns (t: State)
    requires |s.magnitudes| == s.n
    ensures t == Periodic(s)
  {
    var flipPeriod := 4 + s.totalMoves / 50000;
    if flipPeriod > 100 {
      flipPeriod := 100;
    }
    t := s;
    if t.totalMoves % flipPeriod == 1 {
      t := ApplyFlip(t);
    }
    var cycleLength := 131;
    if t.totalMoves > 0 && t.totalMoves % cycleLength == 0 {
      var m := t.magnitudes;
      for i := 0 to t.n
        invariant |m| == t.n
        invariant forall k :: 0 <= k < i ==> m[k] == Min(t.n, t.magnitudes[k] + 1)
        invariant forall k :: i <= k < t.n ==> m[k] == t.magnitudes[k]
      {
        m := m[i := Min(t.n, m[i] + 1)];
      }
      t := t.(magnitudes := m, injectionCycle := t.injectionCycle + 1);
    }
  }

  /** Slot by slot, the periodic effects flip (when the flip fires) and then add one
      capped at `n` (when the injection fires); magnitudes stay in [0, n]. */
  lemma PeriodicMagnitudes(s: State)
    requires InRange(s.magnitudes, s.n)
    ensures InRange(Periodic(s).magnitudes, s.n)
    ensures forall k :: 0 <= k < |s.magnitudes| ==>
      var f := if FlipFires(s.totalMoves) then s.n - s.magnitudes[k] else s.magnitudes[k];
      Periodic(s).magnitudes[k] == if InjectionFires(s.totalMoves) then Min(s.n, f + 1) else f
  {
    FlipInRange(s.magnitudes, s.n);
  }

  /** The flip fires when the move counter leaves remainder 1 modulo the period
      min(100, 4 + t / 50000); so while the counter is below 50000 it fires exactly at
      moves 1, 5, 9, ...; the injection fires exactly at the positive multiples of 131. */
  lemma PeriodicSchedule(t: nat)
    ensures FlipFires(t) <==> t % Min(100, 4 + t / 50000) == 1
    ensures t < 50000 ==> (FlipFires(t) <==> t % 4 == 1)
    ensures InjectionFires(t) <==> exists k: nat :: k >= 1 && t == 131 * k
  {
    if InjectionFires(t) {
      var k := t / 131;
      assert t == 131 * k;
    }
  }

  // ---------------------------------------------------------------------------
  // Movement

  /** The positions the active slot may move to: the lawful neighbours, in
      increasing order. */
  function NextPositions(pos: int, n: int): (ps: seq<int>)
    requires n >= 2 && 0 <= pos < n
    ensures forall p :: p in ps <==> 0 <= p < n && (p == pos - 1 || p == pos + 1)
    ensures |ps| == (if pos == 0 || pos == n - 1 then 1 else 2)
    ensures forall k :: 0 < k < |ps| ==> ps[k - 1] < ps[k]
  {
    if pos == 0 then [1]
    else if pos == n - 1 then [n - 2]
    else [pos - 1, pos + 1]
  }

  /** The state after moving to `p`: one more move, then the periodic effects. */
  function Moved(s: State, p: int): State
  {
    Periodic(s.(pos := p, totalMoves := s.totalMoves + 1))
  }

  /** The moved states, position by position, that pass the ordering check. */
  function Movements(s: State, ps: seq<int>): (r: seq<State>)
    ensures |r| <= |ps|
  {
    if ps == [] then []
    else
      var x := Moved(s, ps[|ps| - 1]);
      Movements(s, ps[..|ps| - 1]) + (if ValidOrdering(x) then [x] else [])
  }

  /** Every moved state passes the ordering check, stands on one of the positions
      offered, is one move deeper, keeps the moves-since-+2 counter and the size, and
      counts one more injection exactly when the injection fires at its move. */
  lemma {:induction false} MovementsShape(s: State, ps: seq<int>)
    ensures forall x | x in Movements(s, ps) ::
      && ValidOrdering(x) && x.pos in ps && x.totalMoves == s.totalMoves + 1
      && x.sincePlus2 == s.sincePlus2 && x.n == s.n && |x.magnitudes| == |s.magnitudes|
      && x.injectionCycle == s.injectionCycle + (if InjectionFires(s.totalMoves + 1) then 1 else 0)
  {
    if ps != [] {
      MovementsShape(s, ps[..|ps| - 1]);
      assert forall p | p in ps[..|ps| - 1] :: p in ps;
    }
  }

  /** Every moved state keeps magnitudes in [0, n] when its parent does. */
  lemma {:induction false} MovementsInRange(s: State, ps: seq<int>)
    requires InRange(s.magnitudes, s.n)
    ensures forall x | x in Movements(s, ps) :: InRange(x.magnitudes, x.n)
  {
    if ps != [] {
      MovementsInRange(s, ps[..|ps| - 1]);
      PeriodicMagnitudes(s.(pos := ps[|ps| - 1], totalMoves := s.totalMoves + 1));
    }
  }

  /** The in-place movement step: appends the admissible moved states to `next`. */
  method GenerateMovements(s: State, next: seq<State>) returns (out: seq<State>)
    requires Wf(s)
    ensures out == next + Movements(s, NextPositions(s.pos, s.n))
  {
    var nextPositions := NextPositions(s.pos, s.n);
    out := next;
    for i := 0 to |nextPositions|
      invariant out == next + Movements(s, nextPositions[..i])
    {
      assert nextPositions[..i + 1][..i] == nextPositions[..i];
      var moved := s.(pos := nextPositions[i], totalMoves := s.totalMoves + 1);
      moved := ApplyPeriodicEffects(moved);
      var ordered := CheckOrdering(moved);
      if ordered {
        out := out + [moved];
      }
    }
    assert nextPositions[..|nextPositions|] == nextPositions;
  }

  // ---------------------------------------------------------------------------
  // Operations and successors

  /** The state after operation `op` on the active slot, before it moves: +1
      (saturating at `n`) counts one more move since the last +2; any other
      operation adds 2 (saturating), applies the trigger and resets that count. */
  function AfterOp(s: State, op: int): (r: State)
    requires 0 <= s.pos < |s.magnitudes|
    ensures r.pos == s.pos && r.totalMoves == s.totalMoves && r.n == s.n
    ensures r.injectionCycle == s.injectionCycle && |r.magnitudes| == |s.magnitudes|
    ensures r.sincePlus2 == if op == 1 then s.sincePlus2 + 1 else 0
  {
    var m := s.magnitudes;
    if op == 1 then
      s.(magnitudes := m[s.pos := Min(s.n, m[s.pos] + 1)], sincePlus2 := s.sincePlus2 + 1)
    else
      s.(magnitudes := Triggered(m[s.pos := Min(s.n, m[s.pos] + 2)], s.n), sincePlus2 := 0)
  }

  /** All successors of operation `op`. */
  function Attempt(s: State, op: int): seq<State>
    requires Wf(s)
  {
    Movements(AfterOp(s, op), NextPositions(s.pos, s.n))
  }

  /** All successors of a state: those of +1, then, when at least two moves have
      passed since the last +2, those of +2. */
  function Successors(s: State): (r: seq<State>)
    requires Wf(s)
    ensures |r| <= 4
  {
    Attempt(s, 1) + (if s.sincePlus2 >= 2 then Attempt(s, 2) else [])
  }

  /** Every successor has the system's shape and size, passes the ordering check, is
      one move deeper and stands next to the parent's active position. */
  lemma SuccessorsShape(s: State)
    requires Wf(s)
    ensures forall x | x in Successors(s) ::
      && Wf(x) && x.n == s.n && ValidOrdering(x) && x.totalMoves == s.totalMoves + 1
      && (x.pos == s.pos - 1 || x.pos == s.pos + 1)
  {
    MovementsShape(AfterOp(s, 1), NextPositions(s.pos, s.n));
    MovementsShape(AfterOp(s, 2), NextPositions(s.pos, s.n));
  }

  /** The +1 successors count one more move since the last +2; the +2 successors
      count none. */
  lemma BoostCounter(s: State)
    requires Wf(s)
    ensures forall x | x in Attempt(s, 1) :: x.sincePlus2 == s.sincePlus2 + 1
    ensures forall x | x in Attempt(s, 2) :: x.sincePlus2 == 0
    ensures s.sincePlus2 < 2 ==> Successors(s) == Attempt(s, 1)
  {
    MovementsShape(AfterOp(s, 1), NextPositions(s.pos, s.n));
    MovementsShape(AfterOp(s, 2), NextPositions(s.pos, s.n));
  }

  /** Either operation keeps magnitudes in [0, n]. */
  lemma AfterOpInRange(s: State, op: int)
    requires Wf(s) && InRange(s.magnitudes, s.n)
    ensures InRange(AfterOp(s, op).magnitudes, s.n)
  {
    if op != 1 {
      BoostInRange(s);
      assert AfterOp(s, op) == AfterOp(s, 2);
    }
  }

  /** The +2 operation keeps magnitudes in [0, n]: the saturating add does, and so
      does the trigger after it. */
  lemma BoostInRange(s: State)
    requires Wf(s) && InRange(s.magnitudes, s.n)
    ensures InRange(AfterOp(s, 2).magnitudes, s.n)
  {
    BoostShape(s);
    TriggerInRange(Boosted(s), s.n);
  }

  /** The +2 operation is the saturating add of 2 on the active slot followed by
      the trigger. */
  lemma BoostShape(s: State)
    requires Wf(s)
    ensures AfterOp(s, 2).magnitudes == Triggered(Boosted(s), s.n)
  {
  }

  /** The vector the +2 operation hands to the trigger: 2 added, saturating at `n`,
      on the active slot; it stays in [0, n]. */
  function Boosted(s: State): (p: seq<int>)
    requires Wf(s)
    ensures InRange(s.magnitudes, s.n) ==> InRange(p, s.n)
  {
    s.magnitudes[s.pos := Min(s.n, s.magnitudes[s.pos] + 2)]
  }

  /** The +2 operation changes at most the two trigger slots of the boosted vector. */
  lemma BoostRedistributes(s: State)
    requires Wf(s) && InRange(s.magnitudes, s.n)
    ensures forall k :: 0 <= k < s.n && k != MaxSlot(Boosted(s)) && k != MinSlot(Boosted(s), s.n) ==>
      AfterOp(s, 2).magnitudes[k] == Boosted(s)[k]
  {
    BoostShape(s);
    TriggerEffect(Boosted(s), s.n);
  }

  /** The +2 operation then moves one unit from the maximum to the minimum of the
      boosted vector, unless the floor at 0 or the cap at `n` stops it. */
  lemma BoostChangesTotal(s: State)
    requires Wf(s) && InRange(s.magnitudes, s.n)
    ensures Total(AfterOp(s, 2).magnitudes)
      == Total(Boosted(s)) - (if ScanMax(-1, Boosted(s)) > 0 then 1 else 0)
         + (if ScanMin(s.n + 1, Boosted(s)) < s.n then 1 else 0)
  {
    BoostShape(s);
    TriggerChangesTotal(Boosted(s), s.n);
  }

  /** Successors keep magnitudes in [0, n] when the parent does. */
  lemma SuccessorsInRange(s: State)
    requires Wf(s) && InRange(s.magnitudes, s.n)
    ensures forall x | x in Successors(s) :: InRange(x.magnitudes, x.n)
  {
    AfterOpInRange(s, 1);
    MovementsInRange(AfterOp(s, 1), NextPositions(s.pos, s.n));
    AfterOpInRange(s, 2);
    MovementsInRange(AfterOp(s, 2), NextPositions(s.pos, s.n));
  }

  /** The +1 operation on a copy of the state. */
  method RaiseOne(s: State) returns (t: State)
    requires Wf(s)
    ensures t == AfterOp(s, 1)
  {
    t := s;
    t := t.(magnitudes := t.magnitudes[t.pos := Min(t.n, t.magnitudes[t.pos] + 1)]);
    t := t.(sincePlus2 := t.sincePlus2 + 1);
  }

  /** The +2 operation on a copy of the state, followed by the trigger. */
  method RaiseTwo(s: State) returns (t: State)
    requires Wf(s)
    ensures t == AfterOp(s, 2)
  {
    t := s;
    t := t.(magnitudes := t.magnitudes[t.pos := Min(t.n, t.magnitudes[t.pos] + 2)]);
    assert t.magnitudes == Boosted(s);
    t := ApplyTrigger(t);
    assert t.magnitudes == Triggered(Boosted(s), s.n);
    t := t.(sincePlus2 := 0);
    BoostShape(s);
  }

  /** Apply operation `op` to a copy of the state and append its moved successors. */
  method TryOperation(s: State, next: seq<State>, op: int) returns (out: seq<State>)
    requires Wf(s)
    ensures out == next + Attempt(s, op)
  {
    var t;
    if op == 1 {
      t := RaiseOne(s);
    } else {
      t := RaiseTwo(s);
      assert t == AfterOp(s, op);
    }
    out := GenerateMovements(t, next);
  }

  /** Append the +1 successors, then, when at least two moves have passed since the
      last +2, the +2 successors. */
  method GenerateNextStates(s: State, next: seq<State>) returns (out: seq<State>)
    requires Wf(s)
    ensures out == next + Successors(s)
  {
    out := TryOperation(s, next, 1);
    if s.sincePlus2 >= 2 {
      out := TryOperation(s, out, 2);
      assert out == next + (Attempt(s, 1) + Attempt(s, 2));
    } else {
      assert Successors(s) == Attempt(s, 1) + [];
    }
  }

  /** The first step from the initial state of size 2: the +1 operation raises slot 0,
      the move to slot 1 is move 1, where the flip fires; +2 is not yet allowed. */
  lemma FirstStepOfSizeTwo()
    ensures Successors(Initial(2)) == [State([1, 2], 1, 1, 1, 0, 2)]
  {
    var s := Initial(2);
    assert s.magnitudes == [0, 0];
    var a := AfterOp(s, 1);
    assert a.magnitudes == [1, 0];
    assert NextPositions(0, 2) == [1];
    var x := Moved(a, 1);
    assert FlipFires(1) && !InjectionFires(1);
    assert x.magnitudes == [1, 2];
    assert ValidOrdering(x);
  }
}
