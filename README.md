# Permesan: a lazy permutation generator, modelled and verified

The crate provides `Permesan<T>`, an iterator over every permutation of a
collection. It is built from the collection (`Permesan::new`). Each call of
`next` hands out a copy of its buffer, rearranged by one step of the
iterative form of Heap's algorithm. After `n!` values it returns `None`
for good.

The model has three modules:

- `HeapSpec` (HeapSpec.dfy) describes the generator's state as a value:
  - `Gen` holds the buffer, the counter vector `c`, the cursor `i`, and the
    counts of emitted and total permutations;
  - `New`, `Generate` (the advance step), its inner `Loop`, and `Next` are
    functions over `Gen`;
  - it proves the properties below.

  The key idea reads the counters as a number in the factorial number
  system: `Value(c)` is the sum of `c[k] * k!`. Between calls it equals the
  number of permutations emitted after the first. Every successful advance
  adds exactly one to it, and it cannot reach `n!`. This is why the loop
  always finds a swap while permutations remain, and why exactly `n!`
  values are produced.
- `Permesan` (Permesan.dfy) is the generator as the source writes it:
  - a class whose buffer and counter vector are arrays updated in place;
  - `Generate` runs the same `while` loop;
  - `Next` returns `None` or a copy of the buffer.

  Each method is proved, through `State()`, to produce the state its
  `HeapSpec` partner computes, and keeps the object invariant `Valid()`:
  - the constructor is paired with `New`;
  - `Generate` with `HeapSpec.Generate`;
  - `SwapBuffer` with `Swap`;
  - `Next` with `HeapSpec.Next`. `Collect`
  drains a fresh generator into a sequence, as `.collect()` does.
- `Traces` (Traces.dfy) holds the call-by-call results the crate's tests
  check. They are stated for arbitrary element values, so they cover the
  integer vectors of the tests:
  - the empty input;
  - three elements, and collecting them;
  - four elements, with both trailing `None`s.

  For three and four distinct elements, it also proves that no value is
  produced twice and that every rearrangement of the input is produced.

## Model

| member | source | states |
|---|---|---|
| HeapSpec.Factorial | src/lib.rs:26 | `(1..=n).product()` is at least 1, including the empty product for n = 0 |
| HeapSpec.SwapIndices | src/lib.rs:41-46 | the two positions exchanged at level i are in bounds and distinct: the lower one is 0 (i even) or c[i] (i odd), the upper one is i |
| HeapSpec.Swap | src/lib.rs:43-45 | `Vec::swap`: the result has the same length, the two positions hold each other's elements, and every other position is unchanged |
| HeapSpec.New | src/lib.rs:23-30 | the state built from the collection is well formed: one counter per element, the cursor within the buffer (NewInv states the rest) |
| HeapSpec.NewInv | src/lib.rs:23-30 | the state after construction satisfies the between-calls invariant |
| HeapSpec.Loop | src/lib.rs:40-57 | the advance loop keeps the state well formed, the buffer length and the total; what it does to the buffer, the count and the counters is stated by LoopOutcome and LoopValue |
| HeapSpec.LoopOutcome | src/lib.rs:40-57 | the loop either performs exactly one transposition of two distinct positions, with count + 1 and cursor 0, or leaves buffer and count unchanged with the cursor at the end; either way the buffer keeps its elements |
| HeapSpec.LoopValue | src/lib.rs:40-57 | with the lower counters zero, a swapping pass raises the factorial-base value of the counters by i! and keeps them bounded (c[k] <= k); a pass that finds no swap means the value was already n! - i! |
| HeapSpec.ValueBelow | src/lib.rs:40-57 | bounded counters (c[k] <= k) spell a number below n! |
| HeapSpec.Generate | src/lib.rs:34-58 | the advance step (first-call shortcut, else the loop) keeps the state well formed, the buffer length and the total; NextInv states its effect on the count and the counters |
| HeapSpec.Next | src/lib.rs:64-70 | keeps the state well formed, the buffer length and the total, and a returned value is the new buffer (the copy handed out) |
| HeapSpec.NextInv | src/lib.rs:64-70 | Next keeps the invariant; while count < total it returns a value and the count grows by exactly one (the loop never falls off the end); at count == total it returns None and changes nothing |
| HeapSpec.NextPermutes | src/lib.rs:64-70 | Next only rearranges the buffer |
| HeapSpec.NextTransposes | src/lib.rs:40-52 | every value after the first differs from the previous buffer by one transposition |
| HeapSpec.IterateInv | src/lib.rs:64-70 | after k calls the invariant holds and the count is min(count + k, total) |
| HeapSpec.IteratePermutes | src/lib.rs:64-70 | any number of calls only rearranges the buffer |
| HeapSpec.ExhaustedForever | src/lib.rs:65-66 | once the count reaches the total, the state never changes again and every further call returns None |
| HeapSpec.NthOutput | src/lib.rs:19-70 | the j-th call on a fresh generator returns a value exactly when j < n!; that value has n elements and is a rearrangement of the input; the first value is the input itself |
| HeapSpec.CountLaw | src/lib.rs:19-70 | among the first k results of a fresh generator, position j holds a value exactly when j < n!; every value is a rearrangement of the input; the first value is the input |
| HeapSpec.Adjacent | src/lib.rs:40-52 | consecutive values of a fresh generator differ by exactly one transposition |
| HeapSpec.OutputsAt | src/lib.rs:64-70 | the j-th of k results is what Next returns after j earlier calls |
| HeapSpec.OutputsSplit | src/lib.rs:64-70 | a + b calls give the results of a calls followed by those of b more calls, and end in the same state |
| Permesan.RangeProduct | src/lib.rs:26 | the product 1 * 2 * ... * n computed by the loop is n! |
| Permesan.Permesan.constructor | src/lib.rs:19-31 | the buffer holds the collection in order, the counters are zero, cursor and count are 0 and the total is n!; the object invariant holds |
| Permesan.Permesan.Generate | src/lib.rs:34-58 | the in-place method (first-call shortcut, then the while loop with its swaps and resets) leaves exactly the state HeapSpec.Generate computes, with count + 1, cursor 0 and the invariant kept |
| Permesan.Permesan.SwapBuffer | src/lib.rs:43-45 | `Vec::swap` exchanges the two positions of the buffer and touches nothing else |
| Permesan.Permesan.Next | src/lib.rs:64-71 | returns None, with the state unchanged, exactly when count == total; otherwise returns a copy of the advanced buffer with count + 1; its result and new state are those of HeapSpec.Next |
| Permesan.Collect | src/lib.rs:61-71 | draining a fresh generator yields exactly n! values: the results of HeapSpec.Next in order, each a rearrangement of the input, the first being the input |
| Traces.EmptyInput | src/lib.rs:80-86 | an empty collection yields one empty vector, then None |
| Traces.ThreeElements | src/lib.rs:89-95 | [a, b, c] yields [a, b, c], [b, a, c], [c, a, b], [a, c, b], [b, c, a], [c, b, a], then None |
| Traces.FourElements | src/lib.rs:98-127 | [a, b, c, d] yields the 24 orders the test lists, in that order, then None twice |
| Traces.ThreeElementsDistinct | src/lib.rs:89-95 | for distinct a, b, c, the first six results are pairwise different |
| Traces.ThreeElementsCover | src/lib.rs:89-95 | for distinct a, b, c, every rearrangement of [a, b, c] is among the first six results |
| Traces.FourElementsDistinct | src/lib.rs:98-127 | for distinct a, b, c, d, the first 24 results are pairwise different |
| Traces.FourElementsCover | src/lib.rs:98-127 | for distinct a, b, c, d, every rearrangement of [a, b, c, d] is among the first 24 results |
| Traces.CollectedThree | src/lib.rs:130-144 | the six values collected from [a, b, c] are exactly the six orders the test lists |
| Traces.CollectThree | src/lib.rs:130-144 | collecting a generator over [a, b, c] gives exactly the six orders the test expects |

## Left out

- `usize` overflow: counts, counters and the total are unbounded `nat`s. `(1..=n).product()` overflows `usize` for n >= 21 on 64-bit targets (it panics in debug builds and wraps in release builds), and the model does not capture that.
- The `IntoIterator` / `FromIterator` plumbing of `Permesan::new`: the constructor takes the collection as a sequence.
- The `Iterator` trait and its `collect` machinery: `Collect` is a plain loop over `Next`, which is what `collect` does for this iterator.
- `Clone` and aliasing: a returned value is a copy (`seq`) of the buffer. Later calls cannot change earlier values, as with `arr.clone()`.
- The unused `HashMap` import of the test module: it has no behaviour.
- HeapSpec.CountLaw: it does not state that the n! values are pairwise distinct, nor that every rearrangement of the input appears. Both are proved only for three and four distinct elements (Traces.ThreeElementsDistinct, Traces.ThreeElementsCover, Traces.FourElementsDistinct, Traces.FourElementsCover), not for every n.
- Permesan.Permesan.Generate: it requires count < total. The source calls it only from `next` when count != total, and the invariant gives count <= total, so the two conditions agree.
