/**
  A value-level model of the state of the permutation generator and of the
  three steps that change it: construction, the advance step (the iterative,
  unrolled form of Heap's algorithm) and the production step `Next`.

  The counters `c` are read as a number in the factorial number system:
  digit `k` ranges over `0..k` and weighs `k!`.  Each successful advance adds
  exactly one to that number, and its largest value is `n! - 1`; this is what
  makes the generator produce exactly `n!` permutations.
*/
module HeapSpec {
  import opened Wrappers

  /** n!, with 0! = 1. */
  function Factorial(n: nat): (r: nat)
    ensures 1 <= r
  {
    if n == 0 then 1 else n * Factorial(n - 1)
  }

  /** Every counter stays at or below its own index. */
  ghost predicate Bounded(c: seq<nat>) {
    forall k :: 0 <= k < |c| ==> c[k] <= k
  }

  /** The counters as a factorial-base number: the sum of c[k] * k!. */
  function Value(c: seq<nat>): (v: nat)
  {
    if c == [] then 0 else Value(c[..|c| - 1]) + c[|c| - 1] * Factorial(|c| - 1)
  }

  /** The sequence with the elements at positions a and b exchanged. */
  function Swap<T>(s: seq<T>, a: nat, b: nat): (r: seq<T>)
    requires a < |s| && b < |s|
    ensures |r| == |s| && r[a] == s[b] && r[b] == s[a]
    ensures forall k :: 0 <= k < |s| && k != a && k != b ==> r[k] == s[k]
  {
    s[a := s[b]][b := s[a]]
  }

  /** q arises from p by exchanging two distinct positions. */
  ghost predicate IsTransposition<T>(p: seq<T>, q: seq<T>) {
    |p| == |q| && exists a: nat, b: nat :: a < b < |p| && q == Swap(p, a, b)
  }

  /**
    The pair of positions Heap's algorithm exchanges at level i:
    0 and i when i is even, c[i] and i when i is odd.
  */
  function SwapIndices(c: seq<nat>, i: nat): (ab: (nat, nat))
    requires i < |c| && c[i] < i
    ensures ab.0 < ab.1 == i
  {
    if i % 2 == 0 then (0, i) else (c[i], i)
  }

  /** The generator's fields: buffer, counters, cursor, emitted and total count. */
  datatype Gen<T> = Gen(arr: seq<T>, c: seq<nat>, i: nat, numPerm: nat, totalPerm: nat)

  /** The shape every state has: one counter per buffer slot, cursor within the buffer. */
  ghost predicate WellFormed<T>(g: Gen<T>) {
    |g.c| == |g.arr| && g.i <= |g.arr|
  }

  /** The state right after construction from the collection col. */
  function New<T>(col: seq<T>): (g: Gen<T>)
    ensures WellFormed(g)
  {
    Gen(col, seq(|col|, _ => 0), 0, 0, Factorial(|col|))
  }

  /**
    The advance loop, from the current cursor on: at the first level whose
    counter is below the level, exchange two positions, bump that counter,
    rewind the cursor and count one more permutation; at every level passed
    over, reset the counter.  Falling off the end changes nothing else.
  */
  function Loop<T>(g: Gen<T>): (r: Gen<T>)
    requires WellFormed(g)
    ensures WellFormed(r) && |r.arr| == |g.arr| && r.totalPerm == g.totalPerm
    decreases |g.arr| - g.i
  {
    if g.i >= |g.arr| then g
    else if g.c[g.i] < g.i then
      var ab := SwapIndices(g.c, g.i);
      Gen(Swap(g.arr, ab.0, ab.1), g.c[g.i := g.c[g.i] + 1], 0, g.numPerm + 1, g.totalPerm)
    else
      Loop(g.(c := g.c[g.i := 0], i := g.i + 1))
  }

  /** One pass of the loop body at a level whose counter is below the level. */
  lemma LoopSwaps<T>(g: Gen<T>)
    requires WellFormed(g) && g.i < |g.arr| && g.c[g.i] < g.i
    ensures var ab := SwapIndices(g.c, g.i);
      Loop(g) == Gen(Swap(g.arr, ab.0, ab.1), g.c[g.i := g.c[g.i] + 1], 0, g.numPerm + 1, g.totalPerm)
  {
  }

  /** One pass of the loop body at a level whose counter has reached the level. */
  lemma LoopResets<T>(g: Gen<T>)
    requires WellFormed(g) && g.i < |g.arr| && g.c[g.i] >= g.i
    ensures Loop(g) == Loop(g.(c := g.c[g.i := 0], i := g.i + 1))
  {
  }

  /** The advance step: the first call only counts the initial order. */
  function Generate<T>(g: Gen<T>): (r: Gen<T>)
    requires WellFormed(g)
    ensures WellFormed(r) && |r.arr| == |g.arr| && r.totalPerm == g.totalPerm
  {
    if g.numPerm == 0 then g.(numPerm := 1) else Loop(g)
  }

  /**
    The production step: None once every permutation has been counted,
    otherwise advance and hand out a copy of the buffer.
  */
  function Next<T>(g: Gen<T>): (r: (Option<seq<T>>, Gen<T>))
    requires WellFormed(g)
    ensures WellFormed(r.1) && |r.1.arr| == |g.arr| && r.1.totalPerm == g.totalPerm
    ensures r.0.Some? ==> r.0.value == r.1.arr
  {
    if g.numPerm == g.totalPerm then (None, g)
    else
      var s := Generate(g);
      (Some(s.arr), s)
  }

  /** The state after k calls of Next. */
  function Iterate<T>(g: Gen<T>, k: nat): (r: Gen<T>)
    requires WellFormed(g)
    ensures WellFormed(r) && |r.arr| == |g.arr|
    decreases k
  {
    if k == 0 then g else Iterate(Next(g).1, k - 1)
  }

  /** The values returned by k successive calls of Next. */
  function Outputs<T>(g: Gen<T>, k: nat): (o: seq<Option<seq<T>>>)
    requires WellFormed(g)
    ensures |o| == k
    decreases k
  {
    if k == 0 then [] else [Next(g).0] + Outputs(Next(g).1, k - 1)
  }

  /**
    The invariant between calls: bounded counters, cursor at 0, total = n!,
    and the counters spell the number of permutations emitted after the first.
  */
  ghost predicate Inv<T>(g: Gen<T>) {
    && |g.c| == |g.arr|
    && Bounded(g.c)
    && g.i == 0
    && g.totalPerm == Factorial(|g.arr|)
    && g.numPerm <= g.totalPerm
    && Value(g.c) + 1 == (if g.numPerm == 0 then 1 else g.numPerm)
  }

  // ---------------------------------------------------------------------
  // Counter arithmetic

  /** Changing one counter changes the value by the difference times its weight. */
  lemma {:induction false} ValueUpdate(c: seq<nat>, k: nat, v: nat)
    requires k < |c|
    ensures Value(c[k := v]) + c[k] * Factorial(k) == Value(c) + v * Factorial(k)
  {
    var n := |c| - 1;
    var d := c[k := v];
    if k == n {
      assert d[..n] == c[..n];
    } else {
      assert d[..n] == c[..n][k := v];
      ValueUpdate(c[..n], k, v);
    }
  }

  /** (i + 1)! written as i * i! + i!. */
  lemma FactorialSucc(i: nat)
    ensures Factorial(i + 1) == i * Factorial(i) + Factorial(i)
  {
    MulSucc(i, Factorial(i));
  }

  lemma MulSucc(a: nat, f: nat)
    ensures (a + 1) * f == a * f + f
  {
  }

  /** All-zero counters are worth nothing. */
  lemma {:induction false} ValueZeros(n: nat)
    ensures Value(seq(n, _ => 0)) == 0
  {
    if n > 0 {
      assert seq(n, _ => 0)[..n - 1] == seq(n - 1, _ => 0);
      ValueZeros(n - 1);
    }
  }

  /**
    From a cursor i with all lower counters at zero, the loop either adds i!
    to the counters' value (a swap was found) or the value lacked exactly i!
    of its maximum n! - 1 + 1 (every counter from i on was at its maximum).
  */
  lemma {:induction false} LoopValue<T>(g: Gen<T>)
    requires WellFormed(g) && Bounded(g.c)
    requires forall j :: 0 <= j < g.i ==> g.c[j] == 0
    ensures Bounded(Loop(g).c)
    ensures Loop(g).numPerm == g.numPerm + 1 ==> Value(Loop(g).c) == Value(g.c) + Factorial(g.i)
    ensures Loop(g).numPerm == g.numPerm ==> Value(g.c) + Factorial(g.i) == Factorial(|g.arr|)
    decreases |g.arr| - g.i
  {
    var n, i, c := |g.arr|, g.i, g.c;
    if i >= n {
      assert c == seq(n, _ => 0);
      ValueZeros(n);
    } else if c[i] < i {
      LoopSwaps(g);
      BumpValue(c, i);
    } else {
      var h := g.(c := c[i := 0], i := i + 1);
      LoopResets(g);
      LoopValue(h);
      ResetValue(c, i);
    }
  }

  /** Bounded counters are worth less than n!: the factorial base has n! numerals. */
  lemma {:induction false} ValueBelow(c: seq<nat>)
    requires Bounded(c)
    ensures Value(c) < Factorial(|c|)
  {
    if c != [] {
      var n := |c| - 1;
      assert Bounded(c[..n]);
      ValueBelow(c[..n]);
      MulMono(c[n], n, Factorial(n));
      FactorialSucc(n);
    }
  }

  lemma MulMono(a: nat, b: nat, f: nat)
    requires a <= b
    ensures a * f <= b * f
  {
  }

  /** Bumping counter i by one raises the value by i!. */
  lemma BumpValue(c: seq<nat>, i: nat)
    requires i < |c|
    ensures Value(c[i := c[i] + 1]) == Value(c) + Factorial(i)
  {
    ValueUpdate(c, i, c[i] + 1);
    MulSucc(c[i], Factorial(i));
  }

  /** Resetting a counter at its maximum i lowers the value by (i + 1)! - i!. */
  lemma ResetValue(c: seq<nat>, i: nat)
    requires i < |c| && c[i] == i
    ensures Value(c[i := 0]) + Factorial(i + 1) == Value(c) + Factorial(i)
  {
    ValueUpdate(c, i, 0);
    FactorialSucc(i);
  }

  // ---------------------------------------------------------------------
  // What one advance does to the buffer

  /** Exchanging two positions rearranges the buffer and nothing more. */
  lemma SwapPermutes<T>(s: seq<T>, a: nat, b: nat)
    requires a < |s| && b < |s|
    ensures multiset(Swap(s, a, b)) == multiset(s)
  {
  }

  /**
    The loop either performs exactly one transposition of two distinct
    positions, counts one more permutation and rewinds the cursor, or leaves
    the buffer and the count alone with the cursor at the end.
  */
  lemma {:induction false} LoopOutcome<T>(g: Gen<T>)
    requires WellFormed(g)
    ensures multiset(Loop(g).arr) == multiset(g.arr)
    ensures || (Loop(g).numPerm == g.numPerm + 1 && Loop(g).i == 0 && IsTransposition(g.arr, Loop(g).arr))
            || (Loop(g).numPerm == g.numPerm && Loop(g).i == |g.arr| && Loop(g).arr == g.arr)
    decreases |g.arr| - g.i
  {
    if g.i < |g.arr| {
      if g.c[g.i] < g.i {
        var ab := SwapIndices(g.c, g.i);
        LoopSwaps(g);
        SwapPermutes(g.arr, ab.0, ab.1);
        assert Loop(g).arr == Swap(g.arr, ab.0, ab.1);
      } else {
        LoopResets(g);
        LoopOutcome(g.(c := g.c[g.i := 0], i := g.i + 1));
      }
    }
  }

  /** Next only ever rearranges the buffer. */
  lemma NextPermutes<T>(g: Gen<T>)
    requires WellFormed(g)
    ensures multiset(Next(g).1.arr) == multiset(g.arr)
  {
    if g.numPerm != 0 && g.numPerm != g.totalPerm {
      LoopOutcome(g);
    }
  }

  // ---------------------------------------------------------------------
  // Properties of construction and of Next

  /** Construction establishes the invariant. */
  lemma NewInv<T>(col: seq<T>)
    ensures Inv(New(col))
  {
    ValueZeros(|col|);
  }

  /**
    Next keeps the invariant, and while permutations remain it always
    produces one: the loop finds a swap before the cursor reaches the end,
    so the emitted count grows by exactly one and never passes the total.
  */
  lemma NextInv<T>(g: Gen<T>)
    requires Inv(g)
    ensures Inv(Next(g).1)
    ensures g.numPerm < g.totalPerm ==> Next(g).0.Some? && Next(g).1.numPerm == g.numPerm + 1
    ensures g.numPerm == g.totalPerm ==> Next(g) == (None, g)
  {
    if 0 < g.numPerm < g.totalPerm {
      LoopOutcome(g);
      LoopValue(g);
      ValueBelow(Loop(g).c);
    }
  }

  /** Every value after the first differs from its predecessor by one transposition. */
  lemma NextTransposes<T>(g: Gen<T>)
    requires Inv(g) && 1 <= g.numPerm < g.totalPerm
    ensures Next(g).0.Some? && IsTransposition(g.arr, Next(g).0.value)
  {
    NextInv(g);
    LoopOutcome(g);
  }

  // ---------------------------------------------------------------------
  // Repeated calls

  /** k calls keep the invariant and count min(numPerm + k, total) permutations. */
  lemma {:induction false} IterateInv<T>(g: Gen<T>, k: nat)
    requires Inv(g)
    ensures Inv(Iterate(g, k))
    ensures Iterate(g, k).numPerm == if g.numPerm + k <= g.totalPerm then g.numPerm + k else g.totalPerm
    decreases k
  {
    if k > 0 {
      var h := Next(g).1;
      NextInv(g);
      IterateInv(h, k - 1);
      assert Iterate(g, k) == Iterate(h, k - 1);
      assert h.totalPerm == g.totalPerm;
      if g.numPerm < g.totalPerm {
        assert h.numPerm == g.numPerm + 1;
      } else {
        assert h == g;
      }
    }
  }

  /** k calls only ever rearrange the buffer. */
  lemma {:induction false} IteratePermutes<T>(g: Gen<T>, k: nat)
    requires WellFormed(g)
    ensures multiset(Iterate(g, k).arr) == multiset(g.arr)
    decreases k
  {
    if k > 0 {
      NextPermutes(g);
      IteratePermutes(Next(g).1, k - 1);
    }
  }

  /** The j-th of k returned values is what Next returns after j earlier calls. */
  lemma {:induction false} OutputsAt<T>(g: Gen<T>, k: nat, j: nat)
    requires WellFormed(g) && j < k
    ensures Outputs(g, k)[j] == Next(Iterate(g, j)).0
    decreases k
  {
    if j > 0 {
      OutputsAt(Next(g).1, k - 1, j - 1);
    }
  }

  /** Once the emitted count has reached the total, every further call returns None. */
  lemma {:induction false} ExhaustedForever<T>(g: Gen<T>, k: nat)
    requires WellFormed(g) && g.numPerm == g.totalPerm
    ensures Iterate(g, k) == g
    ensures forall j :: 0 <= j < k ==> Outputs(g, k)[j] == None
    decreases k
  {
    if k > 0 {
      ExhaustedForever(g, k - 1);
      assert Outputs(g, k) == [None] + Outputs(g, k - 1);
    }
  }

  /**
    The j-th call on a fresh generator over col (counting from 0) returns a
    value exactly when j < |col|!, that value is a rearrangement of col, and
    the first one is col itself.
  */
  lemma NthOutput<T>(col: seq<T>, j: nat)
    ensures Next(Iterate(New(col), j)).0.Some? <==> j < Factorial(|col|)
    ensures Next(Iterate(New(col), j)).0.Some? ==>
      |Next(Iterate(New(col), j)).0.value| == |col| &&
      multiset(Next(Iterate(New(col), j)).0.value) == multiset(col)
    ensures j == 0 ==> Next(New(col)).0 == Some(col)
  {
    var g := New(col);
    NewInv(col);
    IterateInv(g, j);
    IteratePermutes(g, j);
    NextInv(Iterate(g, j));
    NextPermutes(Iterate(g, j));
  }

  /**
    Count law: from a fresh generator over col, the j-th call returns a value
    exactly when j < |col|!; the first value is col itself, and every value is
    a rearrangement of col.
  */
  lemma CountLaw<T>(col: seq<T>, k: nat)
    ensures forall j :: 0 <= j < k ==> (Outputs(New(col), k)[j].Some? <==> j < Factorial(|col|))
    ensures forall j :: 0 <= j < k && Outputs(New(col), k)[j].Some? ==>
      |Outputs(New(col), k)[j].value| == |col| && multiset(Outputs(New(col), k)[j].value) == multiset(col)
    ensures 0 < k ==> Outputs(New(col), k)[0] == Some(col)
  {
    var g := New(col);
    NewInv(col);
    forall j | 0 <= j < k
      ensures Outputs(g, k)[j].Some? <==> j < Factorial(|col|)
      ensures Outputs(g, k)[j].Some? ==>
        |Outputs(g, k)[j].value| == |col| && multiset(Outputs(g, k)[j].value) == multiset(col)
    {
      OutputsAt(g, k, j);
      NthOutput(col, j);
    }
  }

  /**
    Single-step adjacency: for j + 1 < |col|!, the (j + 1)-th value returned
    by a fresh generator over col is one transposition away from the j-th.
  */
  lemma Adjacent<T>(col: seq<T>, j: nat)
    requires j + 1 < Factorial(|col|)
    ensures Outputs(New(col), j + 2)[j].Some? && Outputs(New(col), j + 2)[j + 1].Some?
    ensures IsTransposition(Outputs(New(col), j + 2)[j].value, Outputs(New(col), j + 2)[j + 1].value)
  {
    var g := New(col);
    NewInv(col);
    OutputsAt(g, j + 2, j);
    OutputsAt(g, j + 2, j + 1);
    IterateInv(g, j);
    IterateInv(g, j + 1);
    var h := Iterate(g, j);
    NextInv(h);
    assert Iterate(g, j + 1) == Iterate(Next(g).1, j);
    IterateStep(g, j);
    NextTransposes(Iterate(g, j + 1));
  }

  /** Running a + b calls is running a calls, then b more from where they left off. */
  lemma {:induction false} OutputsSplit<T>(g: Gen<T>, a: nat, b: nat)
    requires WellFormed(g)
    ensures Outputs(g, a + b) == Outputs(g, a) + Outputs(Iterate(g, a), b)
    ensures Iterate(g, a + b) == Iterate(Iterate(g, a), b)
    decreases a
  {
    if a > 0 {
      OutputsSplit(Next(g).1, a - 1, b);
      assert a + b - 1 == (a - 1) + b;
    }
  }

  /** The first a of a + b results are the results of a calls. */
  lemma OutputsPrefix<T>(g: Gen<T>, a: nat, b: nat)
    requires WellFormed(g)
    ensures Outputs(g, a + b)[..a] == Outputs(g, a)
  {
    OutputsSplit(g, a, b);
  }

  /** OutputsSplit, with both halves and the state between them already known. */
  lemma OutputsJoin<T>(g: Gen<T>, a: nat, h: Gen<T>, b: nat, p: seq<Option<seq<T>>>, q: seq<Option<seq<T>>>)
    requires WellFormed(g) && Outputs(g, a) == p && Iterate(g, a) == h && Outputs(h, b) == q
    ensures Outputs(g, a + b) == p + q
  {
    OutputsSplit(g, a, b);
  }

  /** One more call after k calls is k + 1 calls. */
  lemma {:induction false} IterateStep<T>(g: Gen<T>, k: nat)
    requires WellFormed(g)
    ensures Iterate(g, k + 1) == Next(Iterate(g, k)).1
    decreases k
  {
    if k > 0 {
      IterateStep(Next(g).1, k - 1);
    }
  }
}
