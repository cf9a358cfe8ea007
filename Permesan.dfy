/**
  The lazy permutation generator itself: a buffer and a counter array updated
  in place, exactly as the iterator's `next` and its private `generate` step
  do, each method proved against the value-level model in HeapSpec.
*/
module Permesan {
  import opened Wrappers
  import opened HeapSpec

  /** (1..=n).product(), the total number of permutations of n elements. */
  method RangeProduct(n: nat) returns (p: nat)
    ensures p == Factorial(n)
  {
    p := 1;
    for k := 1 to n + 1
      invariant p == Factorial(k - 1)
    {
      p := p * k;
    }
  }

  class Permesan<T> {
    var numPerm: nat
    var totalPerm: nat
    const c: array<nat>
    const arr: array<T>
    var i: nat
    /** The collection the generator was built from. */
    ghost const input: seq<T>

    /** The generator's fields as a value of the model. */
    ghost function State(): Gen<T>
      reads this, arr, c
    {
      Gen(arr[..], c[..], i, numPerm, totalPerm)
    }

    /**
      The object invariant: the model's invariant between calls, and the
      buffer holds a rearrangement of the input.
    */
    ghost predicate Valid()
      reads this, arr, c
    {
      && (arr as object) != (c as object)
      && Inv(State())
      && multiset(arr[..]) == multiset(input)
    }

    /** Permesan::new: buffer = the collection in order, zero counters, total = n!. */
    constructor (col: seq<T>)
      ensures Valid() && fresh(arr) && fresh(c)
      ensures State() == New(col) && input == col
    {
      var n := |col|;
      var p := RangeProduct(n);
      arr := new T[n](k requires 0 <= k < n => col[k]);
      c := new nat[n](_ => 0);
      numPerm, totalPerm, i := 0, p, 0;
      input := col;
      new;
      assert arr[..] == col;
      assert c[..] == seq(n, _ => 0);
      NewInv(col);
    }

    /**
      Permesan::generate, the advance step.  The first call only counts the
      initial order; later calls run Heap's loop until it swaps.  It is only
      ever called while permutations remain.
    */
    method Generate()
      requires Valid() && numPerm < totalPerm
      modifies this, arr, c
      ensures Valid()
      ensures State() == HeapSpec.Generate(old(State()))
      ensures numPerm == old(numPerm) + 1 && i == 0
    {
      if numPerm == 0 {
        numPerm := numPerm + 1;
        return;
      }
      ghost var start := State();
      while i < arr.Length
        invariant i <= arr.Length
        invariant WellFormed(State()) && Loop(State()) == Loop(start)
        invariant numPerm == start.numPerm && totalPerm == start.totalPerm
        decreases arr.Length - i
      {
        ghost var before := State();
        if c[i] < i {
          ghost var ab := SwapIndices(before.c, before.i);
          if i % 2 == 0 {
            SwapBuffer(0, i);
          } else {
            SwapBuffer(c[i], i);
          }
          assert arr[..] == Swap(before.arr, ab.0, ab.1) by {
            assert ab == (if i % 2 == 0 then 0 else c[i], i);
          }
          c[i] := c[i] + 1;
          i := 0;
          numPerm := numPerm + 1;
          assert State() == Loop(start) by {
            assert c[..] == before.c[before.i := before.c[before.i] + 1];
            LoopSwaps(before);
          }
          assert Valid() by {
            NextInv(start);
            NextPermutes(start);
          }
          return;
        } else {
          c[i] := 0;
          i := i + 1;
          assert Loop(State()) == Loop(before) by {
            assert State() == before.(c := before.c[before.i := 0], i := before.i + 1);
            LoopResets(before);
          }
        }
      }
      NextInv(start);
      assert false;
    }

    /** Vec::swap on the buffer: exchange two positions, touch nothing else. */
    method SwapBuffer(a: nat, b: nat)
      requires a < arr.Length && b < arr.Length
      modifies arr
      ensures arr[..] == Swap(old(arr[..]), a, b)
    {
      arr[a], arr[b] := arr[b], arr[a];
    }

    /**
      Iterator::next: None, with nothing changed, once every permutation has
      been produced; otherwise advance and return a copy of the buffer.
    */
    method Next() returns (r: Option<seq<T>>)
      requires Valid()
      modifies this, arr, c
      ensures Valid()
      ensures (r, State()) == HeapSpec.Next(old(State()))
      ensures r.None? <==> old(numPerm) == old(totalPerm)
      ensures r.None? ==> State() == old(State())
      ensures r.Some? ==> r.value == arr[..] && numPerm == old(numPerm) + 1
    {
      if numPerm == totalPerm {
        r := None;
      } else {
        Generate();
        r := Some(arr[..]);
      }
    }
  }

  /**
    Draining a fresh generator, as collecting `Permesan::new(col)` into a
    vector does: the values come in the order of the model's Next, there are
    exactly |col|! of them, the first is col itself and each one is a
    rearrangement of col.
  */
  method Collect<T>(col: seq<T>) returns (perms: seq<seq<T>>)
    ensures |perms| == Factorial(|col|)
    ensures forall j :: 0 <= j < |perms| ==> Outputs(New(col), |perms|)[j] == Some(perms[j])
    ensures forall j :: 0 <= j < |perms| ==> multiset(perms[j]) == multiset(col)
    ensures perms[0] == col
  {
    var v := new Permesan(col);
    ghost var g := v.State();
    perms := [];
    var r := v.Next();
    while r.Some?
      invariant v.Valid()
      invariant v.State() == Iterate(g, |perms| + 1)
      invariant r == Next(Iterate(g, |perms|)).0
      invariant forall j :: 0 <= j < |perms| ==> Next(Iterate(g, j)).0 == Some(perms[j])
      invariant |perms| <= Factorial(|col|)
      decreases Factorial(|col|) - |perms|
    {
      NthOutput(col, |perms|);
      perms := perms + [r.value];
      IterateStep(g, |perms|);
      r := v.Next();
    }
    NthOutput(col, |perms|);
    if |perms| > 0 {
      NthOutput(col, |perms| - 1);
    }
    forall j | 0 <= j < |perms|
      ensures Outputs(g, |perms|)[j] == Some(perms[j])
      ensures multiset(perms[j]) == multiset(col)
    {
      OutputsAt(g, |perms|, j);
      NthOutput(col, j);
    }
    NthOutput(col, 0);
  }
}
