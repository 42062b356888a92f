/** The state of the MOO system: one configuration of the search, its structural
    ordering (the key of the depth map), the goal test, the adjacency-ordering check
    and the flip. */
module MooState {

  function Min(a: int, b: int): int { if a <= b then a else b }

  function Max(a: int, b: int): int { if a >= b then a else b }

  /** One configuration: `n` bounded magnitudes, the active position, the number of
      moves since the last "+2" move, the move counter (depth) and the number of
      injections so far. `n` is the system's size, the same in every state. */
  datatype State = State(
    magnitudes: seq<int>,
    pos: int,
    sincePlus2: nat,
    totalMoves: nat,
    injectionCycle: nat,
    n: int)

  /** The fields the structural ordering compares: everything except the move
      counter (and the constant size). */
  datatype Key = Key(magnitudes: seq<int>, pos: int, sincePlus2: nat, injectionCycle: nat)

  function KeyOf(s: State): Key
  {
    Key(s.magnitudes, s.pos, s.sincePlus2, s.injectionCycle)
  }

  /** The shape every state of the search has: at least two slots, one magnitude
      per slot, the active position on a slot. */
  predicate Wf(s: State)
  {
    s.n >= 2 && |s.magnitudes| == s.n && 0 <= s.pos < s.n
  }

  /** Every magnitude lies in [0, n]. */
  predicate InRange(m: seq<int>, n: int)
  {
    forall i :: 0 <= i < |m| ==> 0 <= m[i] <= n
  }

  /** The state the search starts from: all magnitudes zero, every counter zero. */
  function Initial(n: int): (s: State)
    requires n >= 1
    ensures |s.magnitudes| == n && s.n == n && s.pos == 0
    ensures s.sincePlus2 == 0 && s.totalMoves == 0 && s.injectionCycle == 0
    ensures forall i :: 0 <= i < n ==> s.magnitudes[i] == 0
    ensures n >= 2 ==> Wf(s)
  {
    State(seq(n, _ => 0), 0, 0, 0, 0, n)
  }

  // ---------------------------------------------------------------------------
  // Structural ordering

  /** Lexicographic comparison of two magnitude vectors (a proper prefix is smaller). */
  function SeqLess(a: seq<int>, b: seq<int>): bool
    decreases |a|
  {
    if |a| == 0 then |b| > 0
    else if |b| == 0 then false
    else if a[0] != b[0] then a[0] < b[0]
    else SeqLess(a[1..], b[1..])
  }

  /** The state ordering: magnitudes, then position, then the "+2" counter, then the
      injection counter; the move counter takes no part. */
  function Less(a: State, b: State): bool
  {
    if a.magnitudes != b.magnitudes then SeqLess(a.magnitudes, b.magnitudes)
    else if a.pos != b.pos then a.pos < b.pos
    else if a.sincePlus2 != b.sincePlus2 then a.sincePlus2 < b.sincePlus2
    else a.injectionCycle < b.injectionCycle
  }

  lemma {:induction false} SeqLessIrreflexive(a: seq<int>)
    ensures !SeqLess(a, a)
    decreases |a|
  {
    if |a| > 0 {
      SeqLessIrreflexive(a[1..]);
    }
  }

  lemma {:induction false} SeqLessTotal(a: seq<int>, b: seq<int>)
    requires a != b
    ensures SeqLess(a, b) || SeqLess(b, a)
    decreases |a|
  {
    if |a| > 0 && |b| > 0 && a[0] == b[0] {
      assert a == [a[0]] + a[1..] && b == [b[0]] + b[1..];
      SeqLessTotal(a[1..], b[1..]);
    }
  }

  lemma {:induction false} SeqLessAsymmetric(a: seq<int>, b: seq<int>)
    requires SeqLess(a, b)
    ensures !SeqLess(b, a)
    decreases |a|
  {
    if |a| > 0 && |b| > 0 && a[0] == b[0] {
      SeqLessAsymmetric(a[1..], b[1..]);
    }
  }

  lemma {:induction false} SeqLessTransitive(a: seq<int>, b: seq<int>, c: seq<int>)
    requires SeqLess(a, b) && SeqLess(b, c)
    ensures SeqLess(a, c)
    decreases |a|
  {
    if |a| > 0 && |b| > 0 && |c| > 0 && a[0] == b[0] && b[0] == c[0] {
      SeqLessTransitive(a[1..], b[1..], c[1..]);
    }
  }

  /** The state ordering is a strict total order on keys: irreflexive, asymmetric,
      transitive, and any two states with different keys are comparable. */
  lemma LessIsStrictOrder(a: State, b: State, c: State)
    ensures !Less(a, a)
    ensures Less(a, b) ==> !Less(b, a)
    ensures Less(a, b) && Less(b, c) ==> Less(a, c)
    ensures KeyOf(a) != KeyOf(b) ==> Less(a, b) || Less(b, a)
  {
    SeqLessIrreflexive(a.magnitudes);
    if a.magnitudes != b.magnitudes {
      SeqLessTotal(a.magnitudes, b.magnitudes);
      if SeqLess(a.magnitudes, b.magnitudes) {
        SeqLessAsymmetric(a.magnitudes, b.magnitudes);
      }
    }
    if Less(a, b) && Less(b, c) {
      if a.magnitudes != b.magnitudes && b.magnitudes != c.magnitudes {
        SeqLessTransitive(a.magnitudes, b.magnitudes, c.magnitudes);
        if a.magnitudes == c.magnitudes {
          SeqLessAsymmetric(a.magnitudes, b.magnitudes);
        }
      }
    }
  }

  /** Two states are equivalent under the ordering (neither is less than the other)
      exactly when their keys agree, whatever their move counters: this is what lets
      a map ordered by `Less` be modelled as a map from `Key`. */
  lemma EquivalentIffSameKey(a: State, b: State)
    ensures (!Less(a, b) && !Less(b, a)) <==> KeyOf(a) == KeyOf(b)
  {
    LessIsStrictOrder(a, b, a);
  }

  // ---------------------------------------------------------------------------
  // Goal test and ordering check

  /** The scan of the goal test: no magnitude below `n`. */
  function AllReached(m: seq<int>, n: int): bool
  {
    |m| == 0 || (m[0] >= n && AllReached(m[1..], n))
  }

  lemma {:induction false} AllReachedMeans(m: seq<int>, n: int)
    ensures AllReached(m, n) <==> forall i :: 0 <= i < |m| ==> m[i] >= n
  {
    if |m| > 0 {
      AllReachedMeans(m[1..], n);
      assert forall i :: 1 <= i < |m| ==> m[i] == m[1..][i - 1];
    }
  }

  /** A goal state has every magnitude at least `n`. */
  predicate IsGoal(s: State)
  {
    AllReached(s.magnitudes, s.n)
  }

  /** The scan of the ordering check from slot `i` on. */
  function OrderedFrom(m: seq<int>, i: int): bool
    requires i >= 1
    decreases |m| - i
  {
    if i >= |m| then true
    else (m[i] <= 0 || m[i - 1] >= m[i] - 1) && OrderedFrom(m, i + 1)
  }

  /** The ordering check passes from slot `i` on exactly when every positive slot
      there is at most one above its left neighbour. */
  lemma {:induction false} OrderedFromMeans(m: seq<int>, i: int)
    requires i >= 1
    ensures OrderedFrom(m, i) <==> forall k :: i <= k < |m| ==> m[k] <= 0 || m[k - 1] >= m[k] - 1
    decreases |m| - i
  {
    if i < |m| {
      OrderedFromMeans(m, i + 1);
    }
  }

  predicate ValidOrdering(s: State)
  {
    OrderedFrom(s.magnitudes, 1)
  }

  /** The initial state has magnitudes in [0, n], passes the ordering check and is
      not a goal. */
  lemma InitialIsGood(n: int)
    requires n >= 1
    ensures InRange(Initial(n).magnitudes, n) && ValidOrdering(Initial(n)) && !IsGoal(Initial(n))
  {
    OrderedFromMeans(Initial(n).magnitudes, 1);
  }

  /** The goal test's loop: stops at the first magnitude below `n`. */
  method CheckGoal(s: State) returns (b: bool)
    ensures b == IsGoal(s)
    ensures b <==> forall i :: 0 <= i < |s.magnitudes| ==> s.magnitudes[i] >= s.n
  {
    AllReachedMeans(s.magnitudes, s.n);
    for i := 0 to |s.magnitudes|
      invariant forall k :: 0 <= k < i ==> s.magnitudes[k] >= s.n
    {
      if s.magnitudes[i] < s.n {
        return false;
      }
    }
    return true;
  }

  /** The ordering check's loop over slots 1 to n - 1: stops at the first positive
      slot more than one above its left neighbour. */
  method CheckOrdering(s: State) returns (b: bool)
    requires |s.magnitudes| == s.n
    ensures b == ValidOrdering(s)
    ensures b <==> forall k :: 1 <= k < s.n ==>
      s.magnitudes[k] <= 0 || s.magnitudes[k - 1] >= s.magnitudes[k] - 1
  {
    OrderedFromMeans(s.magnitudes, 1);
    var i := 1;
    while i < s.n
      invariant 1 <= i <= s.n || (i == 1 && s.n == 0)
      invariant forall k :: 1 <= k < i ==> s.magnitudes[k] <= 0 || s.magnitudes[k - 1] >= s.magnitudes[k] - 1
    {
      if s.magnitudes[i] > 0 && s.magnitudes[i - 1] < s.magnitudes[i] - 1 {
        return false;
      }
      i := i + 1;
    }
    return true;
  }

  // ---------------------------------------------------------------------------
  // Flip

  /** The flipped vector: every magnitude `m` becomes `n - m`. */
  function Flipped(m: seq<int>, n: int): seq<int>
  {
    seq(|m|, i requires 0 <= i < |m| => n - m[i])
  }

  /** The in-place flip, slot by slot. */
  method ApplyFlip(s: State) returns (t: State)
    requires |s.magnitudes| == s.n
    ensures t == s.(magnitudes := Flipped(s.magnitudes, s.n))
  {
    var m := s.magnitudes;
    for i := 0 to s.n
      invariant |m| == s.n
      invariant forall k :: 0 <= k < i ==> m[k] == s.n - s.magnitudes[k]
      invariant forall k :: i <= k < s.n ==> m[k] == s.magnitudes[k]
    {
      m := m[i := s.n - m[i]];
    }
    t := s.(magnitudes := m);
  }

  /** Flipping twice restores the vector. */
  lemma FlipInvolutive(m: seq<int>, n: int)
    ensures Flipped(Flipped(m, n), n) == m
  {
    var f := Flipped(Flipped(m, n), n);
    assert forall i :: 0 <= i < |m| ==> f[i] == m[i];
  }

  /** Flipping keeps magnitudes of [0, n] in [0, n], and keeps the length. */
  lemma FlipInRange(m: seq<int>, n: int)
    requires InRange(m, n)
    ensures |Flipped(m, n)| == |m| && InRange(Flipped(m, n), n)
  {
  }
}
