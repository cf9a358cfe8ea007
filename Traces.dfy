/**
  The call-by-call traces the crate's own tests check, stated for arbitrary
  element values (so they cover the integer lists of those tests).  Each
  non-trivial call gets a step lemma that walks Heap's loop by hand; the
  steps are grouped into chunks, and the chunks are joined with OutputsJoin.

  Reading a step lemma: a state is written Gen(buffer, counters, cursor,
  emitted, total).  The hints first walk the cursor up from 0, zeroing each
  counter that has reached its level (c[i] == i); at the first level i with
  c[i] < i they exchange positions 0 and i (i even) or c[i] and i (i odd),
  bump c[i] and rewind the cursor.  Between calls the counters, read as
  factorial-base digits, spell the number of values produced after the
  first.
*/
module Traces {
  import opened Wrappers
  import opened HeapSpec
  import Permesan

  /** An empty collection yields one empty permutation, then None. */
  lemma EmptyInput<T>()
    ensures Outputs(New<T>([]), 2) == [Some([]), None]
  {
  }

  lemma ThreeElementsStep1<T>(a: T, b: T, c: T)
    ensures Next(Gen([a, b, c], [0, 0, 0], 0, 1, 6)) == (Some([b, a, c]), Gen([b, a, c], [0, 1, 0], 0, 2, 6))
  {
    assert [0, 0, 0][0 := 0] == [0, 0, 0];
    assert Loop(Gen([a, b, c], [0, 0, 0], 0, 1, 6)) == Loop(Gen([a, b, c], [0, 0, 0], 1, 1, 6));
    assert Swap([a, b, c], 0, 1) == [b, a, c];
    assert [0, 0, 0][1 := 1] == [0, 1, 0];
    assert Loop(Gen([a, b, c], [0, 0, 0], 1, 1, 6)) == Gen([b, a, c], [0, 1, 0], 0, 2, 6);
  }

  lemma ThreeElementsStep2<T>(a: T, b: T, c: T)
    ensures Next(Gen([b, a, c], [0, 1, 0], 0, 2, 6)) == (Some([c, a, b]), Gen([c, a, b], [0, 0, 1], 0, 3, 6))
  {
    assert [0, 1, 0][0 := 0] == [0, 1, 0];
    assert Loop(Gen([b, a, c], [0, 1, 0], 0, 2, 6)) == Loop(Gen([b, a, c], [0, 1, 0], 1, 2, 6));
    assert [0, 1, 0][1 := 0] == [0, 0, 0];
    assert Loop(Gen([b, a, c], [0, 1, 0], 1, 2, 6)) == Loop(Gen([b, a, c], [0, 0, 0], 2, 2, 6));
    assert Swap([b, a, c], 0, 2) == [c, a, b];
    assert [0, 0, 0][2 := 1] == [0, 0, 1];
    assert Loop(Gen([b, a, c], [0, 0, 0], 2, 2, 6)) == Gen([c, a, b], [0, 0, 1], 0, 3, 6);
  }

  lemma ThreeElementsStep3<T>(a: T, b: T, c: T)
    ensures Next(Gen([c, a, b], [0, 0, 1], 0, 3, 6)) == (Some([a, c, b]), Gen([a, c, b], [0, 1, 1], 0, 4, 6))
  {
    assert [0, 0, 1][0 := 0] == [0, 0, 1];
    assert Loop(Gen([c, a, b], [0, 0, 1], 0, 3, 6)) == Loop(Gen([c, a, b], [0, 0, 1], 1, 3, 6));
    assert Swap([c, a, b], 0, 1) == [a, c, b];
    assert [0, 0, 1][1 := 1] == [0, 1, 1];
    assert Loop(Gen([c, a, b], [0, 0, 1], 1, 3, 6)) == Gen([a, c, b], [0, 1, 1], 0, 4, 6);
  }

  lemma ThreeElementsStep4<T>(a: T, b: T, c: T)
    ensures Next(Gen([a, c, b], [0, 1, 1], 0, 4, 6)) == (Some([b, c, a]), Gen([b, c, a], [0, 0, 2], 0, 5, 6))
  {
    assert [0, 1, 1][0 := 0] == [0, 1, 1];
    assert Loop(Gen([a, c, b], [0, 1, 1], 0, 4, 6)) == Loop(Gen([a, c, b], [0, 1, 1], 1, 4, 6));
    assert [0, 1, 1][1 := 0] == [0, 0, 1];
    assert Loop(Gen([a, c, b], [0, 1, 1], 1, 4, 6)) == Loop(Gen([a, c, b], [0, 0, 1], 2, 4, 6));
    assert Swap([a, c, b], 0, 2) == [b, c, a];
    assert [0, 0, 1][2 := 2] == [0, 0, 2];
    assert Loop(Gen([a, c, b], [0, 0, 1], 2, 4, 6)) == Gen([b, c, a], [0, 0, 2], 0, 5, 6);
  }

  lemma ThreeElementsStep5<T>(a: T, b: T, c: T)
    ensures Next(Gen([b, c, a], [0, 0, 2], 0, 5, 6)) == (Some([c, b, a]), Gen([c, b, a], [0, 1, 2], 0, 6, 6))
  {
    assert [0, 0, 2][0 := 0] == [0, 0, 2];
    assert Loop(Gen([b, c, a], [0, 0, 2], 0, 5, 6)) == Loop(Gen([b, c, a], [0, 0, 2], 1, 5, 6));
    assert Swap([b, c, a], 0, 1) == [c, b, a];
    assert [0, 0, 2][1 := 1] == [0, 1, 2];
    assert Loop(Gen([b, c, a], [0, 0, 2], 1, 5, 6)) == Gen([c, b, a], [0, 1, 2], 0, 6, 6);
  }

  lemma ThreeElementsPart0<T>(a: T, b: T, c: T)
    ensures Outputs(Gen([a, b, c], [0, 0, 0], 0, 0, 6), 6) == [Some([a, b, c]), Some([b, a, c]), Some([c, a, b]), Some([a, c, b]), Some([b, c, a]), Some([c, b, a])]
    ensures Iterate(Gen([a, b, c], [0, 0, 0], 0, 0, 6), 6) == Gen([c, b, a], [0, 1, 2], 0, 6, 6)
  {
    assert Next(Gen([a, b, c], [0, 0, 0], 0, 0, 6)) == (Some([a, b, c]), Gen([a, b, c], [0, 0, 0], 0, 1, 6));
    ThreeElementsStep1(a, b, c);
    ThreeElementsStep2(a, b, c);
    ThreeElementsStep3(a, b, c);
    ThreeElementsStep4(a, b, c);
    ThreeElementsStep5(a, b, c);
    assert Outputs(Gen([b, c, a], [0, 0, 2], 0, 5, 6), 1) == [Some([c, b, a])] + Outputs(Gen([c, b, a], [0, 1, 2], 0, 6, 6), 0);
    assert Iterate(Gen([b, c, a], [0, 0, 2], 0, 5, 6), 1) == Iterate(Gen([c, b, a], [0, 1, 2], 0, 6, 6), 0);
    assert Outputs(Gen([a, c, b], [0, 1, 1], 0, 4, 6), 2) == [Some([b, c, a])] + Outputs(Gen([b, c, a], [0, 0, 2], 0, 5, 6), 1);
    assert Iterate(Gen([a, c, b], [0, 1, 1], 0, 4, 6), 2) == Iterate(Gen([b, c, a], [0, 0, 2], 0, 5, 6), 1);
    assert Outputs(Gen([c, a, b], [0, 0, 1], 0, 3, 6), 3) == [Some([a, c, b])] + Outputs(Gen([a, c, b], [0, 1, 1], 0, 4, 6), 2);
    assert Iterate(Gen([c, a, b], [0, 0, 1], 0, 3, 6), 3) == Iterate(Gen([a, c, b], [0, 1, 1], 0, 4, 6), 2);
    assert Outputs(Gen([b, a, c], [0, 1, 0], 0, 2, 6), 4) == [Some([c, a, b])] + Outputs(Gen([c, a, b], [0, 0, 1], 0, 3, 6), 3);
    assert Iterate(Gen([b, a, c], [0, 1, 0], 0, 2, 6), 4) == Iterate(Gen([c, a, b], [0, 0, 1], 0, 3, 6), 3);
    assert Outputs(Gen([a, b, c], [0, 0, 0], 0, 1, 6), 5) == [Some([b, a, c])] + Outputs(Gen([b, a, c], [0, 1, 0], 0, 2, 6), 4);
    assert Iterate(Gen([a, b, c], [0, 0, 0], 0, 1, 6), 5) == Iterate(Gen([b, a, c], [0, 1, 0], 0, 2, 6), 4);
    assert Outputs(Gen([a, b, c], [0, 0, 0], 0, 0, 6), 6) == [Some([a, b, c])] + Outputs(Gen([a, b, c], [0, 0, 0], 0, 1, 6), 5);
    assert Iterate(Gen([a, b, c], [0, 0, 0], 0, 0, 6), 6) == Iterate(Gen([a, b, c], [0, 0, 0], 0, 1, 6), 5);
  }

  lemma ThreeElementsPart1<T>(a: T, b: T, c: T)
    ensures Outputs(Gen([c, b, a], [0, 1, 2], 0, 6, 6), 1) == [None]
    ensures Iterate(Gen([c, b, a], [0, 1, 2], 0, 6, 6), 1) == Gen([c, b, a], [0, 1, 2], 0, 6, 6)
  {
    assert Next(Gen([c, b, a], [0, 1, 2], 0, 6, 6)) == (None, Gen([c, b, a], [0, 1, 2], 0, 6, 6));
    assert Outputs(Gen([c, b, a], [0, 1, 2], 0, 6, 6), 1) == [None] + Outputs(Gen([c, b, a], [0, 1, 2], 0, 6, 6), 0);
    assert Iterate(Gen([c, b, a], [0, 1, 2], 0, 6, 6), 1) == Iterate(Gen([c, b, a], [0, 1, 2], 0, 6, 6), 0);
  }

  /**
    Three elements: the six orders of Heap's algorithm, the first three being
    [a, b, c], [b, a, c], [c, a, b], then None.
  */
  lemma ThreeElements<T>(a: T, b: T, c: T)
    ensures Outputs(New([a, b, c]), 7) ==
      [Some([a, b, c]), Some([b, a, c]), Some([c, a, b]), Some([a, c, b]), Some([b, c, a]), Some([c, b, a]), None]
  {
    assert seq(3, _ => 0) == [0, 0, 0];
    assert Factorial(3) == 6;
    assert New([a, b, c]) == Gen([a, b, c], [0, 0, 0], 0, 0, 6);
    ThreeElementsPart0(a, b, c);
    ThreeElementsPart1(a, b, c);
    OutputsJoin(Gen([a, b, c], [0, 0, 0], 0, 0, 6), 6, Gen([c, b, a], [0, 1, 2], 0, 6, 6), 1,
      [Some([a, b, c]), Some([b, a, c]), Some([c, a, b]), Some([a, c, b]), Some([b, c, a]), Some([c, b, a])],
      [None]);
    ThreeElementsFlatten(a, b, c);
  }

  /** The chunks of ThreeElements's list, flattened. */
  lemma ThreeElementsFlatten<T>(a: T, b: T, c: T)
    ensures [Some([a, b, c]), Some([b, a, c]), Some([c, a, b]), Some([a, c, b]), Some([b, c, a]), Some([c, b, a])] + ([None]) ==
      [Some([a, b, c]), Some([b, a, c]), Some([c, a, b]), Some([a, c, b]), Some([b, c, a]), Some([c, b, a]), None]
  {
  }

  lemma FourElementsStep1<T>(a: T, b: T, c: T, d: T)
    ensures Next(Gen([a, b, c, d], [0, 0, 0, 0], 0, 1, 24)) == (Some([b, a, c, d]), Gen([b, a, c, d], [0, 1, 0, 0], 0, 2, 24))
  {
    assert [0, 0, 0, 0][0 := 0] == [0, 0, 0, 0];
    assert Loop(Gen([a, b, c, d], [0, 0, 0, 0], 0, 1, 24)) == Loop(Gen([a, b, c, d], [0, 0, 0, 0], 1, 1, 24));
    assert Swap([a, b, c, d], 0, 1) == [b, a, c, d];
    assert [0, 0, 0, 0][1 := 1] == [0, 1, 0, 0];
    assert Loop(Gen([a, b, c, d], [0, 0, 0, 0], 1, 1, 24)) == Gen([b, a, c, d], [0, 1, 0, 0], 0, 2, 24);
  }

  lemma FourElementsStep2<T>(a: T, b: T, c: T, d: T)
    ensures Next(Gen([b, a, c, d], [0, 1, 0, 0], 0, 2, 24)) == (Some([c, a, b, d]), Gen([c, a, b, d], [0, 0, 1, 0], 0, 3, 24))
  {
    assert [0, 1, 0, 0][0 := 0] == [0, 1, 0, 0];
    assert Loop(Gen([b, a, c, d], [0, 1, 0, 0], 0, 2, 24)) == Loop(Gen([b, a, c, d], [0, 1, 0, 0], 1, 2, 24));
    assert [0, 1, 0, 0][1 := 0] == [0, 0, 0, 0];
    assert Loop(Gen([b, a, c, d], [0, 1, 0, 0], 1, 2, 24)) == Loop(Gen([b, a, c, d], [0, 0, 0, 0], 2, 2, 24));
    assert Swap([b, a, c, d], 0, 2) == [c, a, b, d];
    assert [0, 0, 0, 0][2 := 1] == [0, 0, 1, 0];
    assert Loop(Gen([b, a, c, d], [0, 0, 0, 0], 2, 2, 24)) == Gen([c, a, b, d], [0, 0, 1, 0], 0, 3, 24);
  }

  lemma FourElementsStep3<T>(a: T, b: T, c: T, d: T)
    ensures Next(Gen([c, a, b, d], [0, 0, 1, 0], 0, 3, 24)) == (Some([a, c, b, d]), Gen([a, c, b, d], [0, 1, 1, 0], 0, 4, 24))
  {
    assert [0, 0, 1, 0][0 := 0] == [0, 0, 1, 0];
    assert Loop(Gen([c, a, b, d], [0, 0, 1, 0], 0, 3, 24)) == Loop(Gen([c, a, b, d], [0, 0, 1, 0], 1, 3, 24));
    assert Swap([c, a, b, d], 0, 1) == [a, c, b, d];
    assert [0, 0, 1, 0][1 := 1] == [0, 1, 1, 0];
    assert Loop(Gen([c, a, b, d], [0, 0, 1, 0], 1, 3, 24)) == Gen([a, c, b, d], [0, 1, 1, 0], 0, 4, 24);
  }

  lemma FourElementsStep4<T>(a: T, b: T, c: T, d: T)
    ensures Next(Gen([a, c, b, d], [0, 1, 1, 0], 0, 4, 24)) == (Some([b, c, a, d]), Gen([b, c, a, d], [0, 0, 2, 0], 0, 5, 24))
  {
    assert [0, 1, 1, 0][0 := 0] == [0, 1, 1, 0];
    assert Loop(Gen([a, c, b, d], [0, 1, 1, 0], 0, 4, 24)) == Loop(Gen([a, c, b, d], [0, 1, 1, 0], 1, 4, 24));
    assert [0, 1, 1, 0][1 := 0] == [0, 0, 1, 0];
    assert Loop(Gen([a, c, b, d], [0, 1, 1, 0], 1, 4, 24)) == Loop(Gen([a, c, b, d], [0, 0, 1, 0], 2, 4, 24));
    assert Swap([a, c, b, d], 0, 2) == [b, c, a, d];
    assert [0, 0, 1, 0][2 := 2] == [0, 0, 2, 0];
    assert Loop(Gen([a, c, b, d], [0, 0, 1, 0], 2, 4, 24)) == Gen([b, c, a, d], [0, 0, 2, 0], 0, 5, 24);
  }

  lemma FourElementsStep5<T>(a: T, b: T, c: T, d: T)
    ensures Next(Gen([b, c, a, d], [0, 0, 2, 0], 0, 5, 24)) == (Some([c, b, a, d]), Gen([c, b, a, d], [0, 1, 2, 0], 0, 6, 24))
  {
    assert [0, 0, 2, 0][0 := 0] == [0, 0, 2, 0];
    assert Loop(Gen([b, c, a, d], [0, 0, 2, 0], 0, 5, 24)) == Loop(Gen([b, c, a, d], [0, 0, 2, 0], 1, 5, 24));
    assert Swap([b, c, a, d], 0, 1) == [c, b, a, d];
    assert [0, 0, 2, 0][1 := 1] == [0, 1, 2, 0];
    assert Loop(Gen([b, c, a, d], [0, 0, 2, 0], 1, 5, 24)) == Gen([c, b, a, d], [0, 1, 2, 0], 0, 6, 24);
  }

  lemma FourElementsStep6<T>(a: T, b: T, c: T, d: T)
    ensures Next(Gen([c, b, a, d], [0, 1, 2, 0], 0, 6, 24)) == (Some([d, b, a, c]), Gen([d, b, a, c], [0, 0, 0, 1], 0, 7, 24))
  {
    assert [0, 1, 2, 0][0 := 0] == [0, 1, 2, 0];
    assert Loop(Gen([c, b, a, d], [0, 1, 2, 0], 0, 6, 24)) == Loop(Gen([c, b, a, d], [0, 1, 2, 0], 1, 6, 24));
    assert [0, 1, 2, 0][1 := 0] == [0, 0, 2, 0];
    assert Loop(Gen([c, b, a, d], [0, 1, 2, 0], 1, 6, 24)) == Loop(Gen([c, b, a, d], [0, 0, 2, 0], 2, 6, 24));
    assert [0, 0, 2, 0][2 := 0] == [0, 0, 0, 0];
    assert Loop(Gen([c, b, a, d], [0, 0, 2, 0], 2, 6, 24)) == Loop(Gen([c, b, a, d], [0, 0, 0, 0], 3, 6, 24));
    assert Swap([c, b, a, d], 0, 3) == [d, b, a, c];
    assert [0, 0, 0, 0][3 := 1] == [0, 0, 0, 1];
    assert Loop(Gen([c, b, a, d], [0, 0, 0, 0], 3, 6, 24)) == Gen([d, b, a, c], [0, 0, 0, 1], 0, 7, 24);
  }

  lemma FourElementsStep7<T>(a: T, b: T, c: T, d: T)
    ensures Next(Gen([d, b, a, c], [0, 0, 0, 1], 0, 7, 24)) == (Some([b, d, a, c]), Gen([b, d, a, c], [0, 1, 0, 1], 0, 8, 24))
  {
    assert [0, 0, 0, 1][0 := 0] == [0, 0, 0, 1];
    assert Loop(Gen([d, b, a, c], [0, 0, 0, 1], 0, 7, 24)) == Loop(Gen([d, b, a, c], [0, 0, 0, 1], 1, 7, 24));
    assert Swap([d, b, a, c], 0, 1) == [b, d, a, c];
    assert [0, 0, 0, 1][1 := 1] == [0, 1, 0, 1];
    assert Loop(Gen([d, b, a, c], [0, 0, 0, 1], 1, 7, 24)) == Gen([b, d, a, c], [0, 1, 0, 1], 0, 8, 24);
  }

  lemma FourElementsStep8<T>(a: T, b: T, c: T, d: T)
    ensures Next(Gen([b, d, a, c], [0, 1, 0, 1], 0, 8, 24)) == (Some([a, d, b, c]), Gen([a, d, b, c], [0, 0, 1, 1], 0, 9, 24))
  {
    assert [0, 1, 0, 1][0 := 0] == [0, 1, 0, 1];
    assert Loop(Gen([b, d, a, c], [0, 1, 0, 1], 0, 8, 24)) == Loop(Gen([b, d, a, c], [0, 1, 0, 1], 1, 8, 24));
    assert [0, 1, 0, 1][1 := 0] == [0, 0, 0, 1];
    assert Loop(Gen([b, d, a, c], [0, 1, 0, 1], 1, 8, 24)) == Loop(Gen([b, d, a, c], [0, 0, 0, 1], 2, 8, 24));
    assert Swap([b, d, a, c], 0, 2) == [a, d, b, c];
    assert [0, 0, 0, 1][2 := 1] == [0, 0, 1, 1];
    assert Loop(Gen([b, d, a, c], [0, 0, 0, 1], 2, 8, 24)) == Gen([a, d, b, c], [0, 0, 1, 1], 0, 9, 24);
  }

  lemma FourElementsStep9<T>(a: T, b: T, c: T, d: T)
    ensures Next(Gen([a, d, b, c], [0, 0, 1, 1], 0, 9, 24)) == (Some([d, a, b, c]), Gen([d, a, b, c], [0, 1, 1, 1], 0, 10, 24))
  {
    assert [0, 0, 1, 1][0 := 0] == [0, 0, 1, 1];
    assert Loop(Gen([a, d, b, c], [0, 0, 1, 1], 0, 9, 24)) == Loop(Gen([a, d, b, c], [0, 0, 1, 1], 1, 9, 24));
    assert Swap([a, d, b, c], 0, 1) == [d, a, b, c];
    assert [0, 0, 1, 1][1 := 1] == [0, 1, 1, 1];
    assert Loop(Gen([a, d, b, c], [0, 0, 1, 1], 1, 9, 24)) == Gen([d, a, b, c], [0, 1, 1, 1], 0, 10, 24);
  }

  lemma FourElementsStep10<T>(a: T, b: T, c: T, d: T)
    ensures Next(Gen([d, a, b, c], [0, 1, 1, 1], 0, 10, 24)) == (Some([b, a, d, c]), Gen([b, a, d, c], [0, 0, 2, 1], 0, 11, 24))
  {
    assert [0, 1, 1, 1][0 := 0] == [0, 1, 1, 1];
    assert Loop(Gen([d, a, b, c], [0, 1, 1, 1], 0, 10, 24)) == Loop(Gen([d, a, b, c], [0, 1, 1, 1], 1, 10, 24));
    assert [0, 1, 1, 1][1 := 0] == [0, 0, 1, 1];
    assert Loop(Gen([d, a, b, c], [0, 1, 1, 1], 1, 10, 24)) == Loop(Gen([d, a, b, c], [0, 0, 1, 1], 2, 10, 24));
    assert Swap([d, a, b, c], 0, 2) == [b, a, d, c];
    assert [0, 0, 1, 1][2 := 2] == [0, 0, 2, 1];
    assert Loop(Gen([d, a, b, c], [0, 0, 1, 1], 2, 10, 24)) == Gen([b, a, d, c], [0, 0, 2, 1], 0, 11, 24);
  }

  lemma FourElementsStep11<T>(a: T, b: T, c: T, d: T)
    ensures Next(Gen([b, a, d, c], [0, 0, 2, 1], 0, 11, 24)) == (Some([a, b, d, c]), Gen([a, b, d, c], [0, 1, 2, 1], 0, 12, 24))
  {
    assert [0, 0, 2, 1][0 := 0] == [0, 0, 2, 1];
    assert Loop(Gen([b, a, d, c], [0, 0, 2, 1], 0, 11, 24)) == Loop(Gen([b, a, d, c], [0, 0, 2, 1], 1, 11, 24));
    assert Swap([b, a, d, c], 0, 1) == [a, b, d, c];
    assert [0, 0, 2, 1][1 := 1] == [0, 1, 2, 1];
    assert Loop(Gen([b, a, d, c], [0, 0, 2, 1], 1, 11, 24)) == Gen([a, b, d, c], [0, 1, 2, 1], 0, 12, 24);
  }

  lemma FourElementsStep12<T>(a: T, b: T, c: T, d: T)
    ensures Next(Gen([a, b, d, c], [0, 1, 2, 1], 0, 12, 24)) == (Some([a, c, d, b]), Gen([a, c, d, b], [0, 0, 0, 2], 0, 13, 24))
  {
    assert [0, 1, 2, 1][0 := 0] == [0, 1, 2, 1];
    assert Loop(Gen([a, b, d, c], [0, 1, 2, 1], 0, 12, 24)) == Loop(Gen([a, b, d, c], [0, 1, 2, 1], 1, 12, 24));
    assert [0, 1, 2, 1][1 := 0] == [0, 0, 2, 1];
    assert Loop(Gen([a, b, d, c], [0, 1, 2, 1], 1, 12, 24)) == Loop(Gen([a, b, d, c], [0, 0, 2, 1], 2, 12, 24));
    assert [0, 0, 2, 1][2 := 0] == [0, 0, 0, 1];
    assert Loop(Gen([a, b, d, c], [0, 0, 2, 1], 2, 12, 24)) == Loop(Gen([a, b, d, c], [0, 0, 0, 1], 3, 12, 24));
    assert Swap([a, b, d, c], 1, 3) == [a, c, d, b];
    assert [0, 0, 0, 1][3 := 2] == [0, 0, 0, 2];
    assert Loop(Gen([a, b, d, c], [0, 0, 0, 1], 3, 12, 24)) == Gen([a, c, d, b], [0, 0, 0, 2], 0, 13, 24);
  }

  lemma FourElementsStep13<T>(a: T, b: T, c: T, d: T)
    ensures Next(Gen([a, c, d, b], [0, 0, 0, 2], 0, 13, 24)) == (Some([c, a, d, b]), Gen([c, a, d, b], [0, 1, 0, 2], 0, 14, 24))
  {
    assert [0, 0, 0, 2][0 := 0] == [0, 0, 0, 2];
    assert Loop(Gen([a, c, d, b], [0, 0, 0, 2], 0, 13, 24)) == Loop(Gen([a, c, d, b], [0, 0, 0, 2], 1, 13, 24));
    assert Swap([a, c, d, b], 0, 1) == [c, a, d, b];
    assert [0, 0, 0, 2][1 := 1] == [0, 1, 0, 2];
    assert Loop(Gen([a, c, d, b], [0, 0, 0, 2], 1, 13, 24)) == Gen([c, a, d, b], [0, 1, 0, 2], 0, 14, 24);
  }

  lemma FourElementsStep14<T>(a: T, b: T, c: T, d: T)
    ensures Next(Gen([c, a, d, b], [0, 1, 0, 2], 0, 14, 24)) == (Some([d, a, c, b]), Gen([d, a, c, b], [0, 0, 1, 2], 0, 15, 24))
  {
    assert [0, 1, 0, 2][0 := 0] == [0, 1, 0, 2];
    assert Loop(Gen([c, a, d, b], [0, 1, 0, 2], 0, 14, 24)) == Loop(Gen([c, a, d, b], [0, 1, 0, 2], 1, 14, 24));
    assert [0, 1, 0, 2][1 := 0] == [0, 0, 0, 2];
    assert Loop(Gen([c, a, d, b], [0, 1, 0, 2], 1, 14, 24)) == Loop(Gen([c, a, d, b], [0, 0, 0, 2], 2, 14, 24));
    assert Swap([c, a, d, b], 0, 2) == [d, a, c, b];
    assert [0, 0, 0, 2][2 := 1] == [0, 0, 1, 2];
    assert Loop(Gen([c, a, d, b], [0, 0, 0, 2], 2, 14, 24)) == Gen([d, a, c, b], [0, 0, 1, 2], 0, 15, 24);
  }

  lemma FourElementsStep15<T>(a: T, b: T, c: T, d: T)
    ensures Next(Gen([d, a, c, b], [0, 0, 1, 2], 0, 15, 24)) == (Some([a, d, c, b]), Gen([a, d, c, b], [0, 1, 1, 2], 0, 16, 24))
  {
    assert [0, 0, 1, 2][0 := 0] == [0, 0, 1, 2];
    assert Loop(Gen([d, a, c, b], [0, 0, 1, 2], 0, 15, 24)) == Loop(Gen([d, a, c, b], [0, 0, 1, 2], 1, 15, 24));
    assert Swap([d, a, c, b], 0, 1) == [a, d, c, b];
    assert [0, 0, 1, 2][1 := 1] == [0, 1, 1, 2];
    assert Loop(Gen([d, a, c, b], [0, 0, 1, 2], 1, 15, 24)) == Gen([a, d, c, b], [0, 1, 1, 2], 0, 16, 24);
  }

  lemma FourElementsStep16<T>(a: T, b: T, c: T, d: T)
    ensures Next(Gen([a, d, c, b], [0, 1, 1, 2], 0, 16, 24)) == (Some([c, d, a, b]), Gen([c, d, a, b], [0, 0, 2, 2], 0, 17, 24))
  {
    assert [0, 1, 1, 2][0 := 0] == [0, 1, 1, 2];
    assert Loop(Gen([a, d, c, b], [0, 1, 1, 2], 0, 16, 24)) == Loop(Gen([a, d, c, b], [0, 1, 1, 2], 1, 16, 24));
    assert [0, 1, 1, 2][1 := 0] == [0, 0, 1, 2];
    assert Loop(Gen([a, d, c, b], [0, 1, 1, 2], 1, 16, 24)) == Loop(Gen([a, d, c, b], [0, 0, 1, 2], 2, 16, 24));
    assert Swap([a, d, c, b], 0, 2) == [c, d, a, b];
    assert [0, 0, 1, 2][2 := 2] == [0, 0, 2, 2];
    assert Loop(Gen([a, d, c, b], [0, 0, 1, 2], 2, 16, 24)) == Gen([c, d, a, b], [0, 0, 2, 2], 0, 17, 24);
  }

  lemma FourElementsStep17<T>(a: T, b: T, c: T, d: T)
    ensures Next(Gen([c, d, a, b], [0, 0, 2, 2], 0, 17, 24)) == (Some([d, c, a, b]), Gen([d, c, a, b], [0, 1, 2, 2], 0, 18, 24))
  {
    assert [0, 0, 2, 2][0 := 0] == [0, 0, 2, 2];
    assert Loop(Gen([c, d, a, b], [0, 0, 2, 2], 0, 17, 24)) == Loop(Gen([c, d, a, b], [0, 0, 2, 2], 1, 17, 24));
    assert Swap([c, d, a, b], 0, 1) == [d, c, a, b];
    assert [0, 0, 2, 2][1 := 1] == [0, 1, 2, 2];
    assert Loop(Gen([c, d, a, b], [0, 0, 2, 2], 1, 17, 24)) == Gen([d, c, a, b], [0, 1, 2, 2], 0, 18, 24);
  }

  lemma FourElementsStep18<T>(a: T, b: T, c: T, d: T)
    ensures Next(Gen([d, c, a, b], [0, 1, 2, 2], 0, 18, 24)) == (Some([d, c, b, a]), Gen([d, c, b, a], [0, 0, 0, 3], 0, 19, 24))
  {
    assert [0, 1, 2, 2][0 := 0] == [0, 1, 2, 2];
    assert Loop(Gen([d, c, a, b], [0, 1, 2, 2], 0, 18, 24)) == Loop(Gen([d, c, a, b], [0, 1, 2, 2], 1, 18, 24));
    assert [0, 1, 2, 2][1 := 0] == [0, 0, 2, 2];
    assert Loop(Gen([d, c, a, b], [0, 1, 2, 2], 1, 18, 24)) == Loop(Gen([d, c, a, b], [0, 0, 2, 2], 2, 18, 24));
    assert [0, 0, 2, 2][2 := 0] == [0, 0, 0, 2];
    assert Loop(Gen([d, c, a, b], [0, 0, 2, 2], 2, 18, 24)) == Loop(Gen([d, c, a, b], [0, 0, 0, 2], 3, 18, 24));
    assert Swap([d, c, a, b], 2, 3) == [d, c, b, a];
    assert [0, 0, 0, 2][3 := 3] == [0, 0, 0, 3];
    assert Loop(Gen([d, c, a, b], [0, 0, 0, 2], 3, 18, 24)) == Gen([d, c, b, a], [0, 0, 0, 3], 0, 19, 24);
  }

  lemma FourElementsStep19<T>(a: T, b: T, c: T, d: T)
    ensures Next(Gen([d, c, b, a], [0, 0, 0, 3], 0, 19, 24)) == (Some([c, d, b, a]), Gen([c, d, b, a], [0, 1, 0, 3], 0, 20, 24))
  {
    assert [0, 0, 0, 3][0 := 0] == [0, 0, 0, 3];
    assert Loop(Gen([d, c, b, a], [0, 0, 0, 3], 0, 19, 24)) == Loop(Gen([d, c, b, a], [0, 0, 0, 3], 1, 19, 24));
    assert Swap([d, c, b, a], 0, 1) == [c, d, b, a];
    assert [0, 0, 0, 3][1 := 1] == [0, 1, 0, 3];
    assert Loop(Gen([d, c, b, a], [0, 0, 0, 3], 1, 19, 24)) == Gen([c, d, b, a], [0, 1, 0, 3], 0, 20, 24);
  }

  lemma FourElementsStep20<T>(a: T, b: T, c: T, d: T)
    ensures Next(Gen([c, d, b, a], [0, 1, 0, 3], 0, 20, 24)) == (Some([b, d, c, a]), Gen([b, d, c, a], [0, 0, 1, 3], 0, 21, 24))
  {
    assert [0, 1, 0, 3][0 := 0] == [0, 1, 0, 3];
    assert Loop(Gen([c, d, b, a], [0, 1, 0, 3], 0, 20, 24)) == Loop(Gen([c, d, b, a], [0, 1, 0, 3], 1, 20, 24));
    assert [0, 1, 0, 3][1 := 0] == [0, 0, 0, 3];
    assert Loop(Gen([c, d, b, a], [0, 1, 0, 3], 1, 20, 24)) == Loop(Gen([c, d, b, a], [0, 0, 0, 3], 2, 20, 24));
    assert Swap([c, d, b, a], 0, 2) == [b, d, c, a];
    assert [0, 0, 0, 3][2 := 1] == [0, 0, 1, 3];
    assert Loop(Gen([c, d, b, a], [0, 0, 0, 3], 2, 20, 24)) == Gen([b, d, c, a], [0, 0, 1, 3], 0, 21, 24);
  }

  lemma FourElementsStep21<T>(a: T, b: T, c: T, d: T)
    ensures Next(Gen([b, d, c, a], [0, 0, 1, 3], 0, 21, 24)) == (Some([d, b, c, a]), Gen([d, b, c, a], [0, 1, 1, 3], 0, 22, 24))
  {
    assert [0, 0, 1, 3][0 := 0] == [0, 0, 1, 3];
    assert Loop(Gen([b, d, c, a], [0, 0, 1, 3], 0, 21, 24)) == Loop(Gen([b, d, c, a], [0, 0, 1, 3], 1, 21, 24));
    assert Swap([b, d, c, a], 0, 1) == [d, b, c, a];
    assert [0, 0, 1, 3][1 := 1] == [0, 1, 1, 3];
    assert Loop(Gen([b, d, c, a], [0, 0, 1, 3], 1, 21, 24)) == Gen([d, b, c, a], [0, 1, 1, 3], 0, 22, 24);
  }

  lemma FourElementsStep22<T>(a: T, b: T, c: T, d: T)
    ensures Next(Gen([d, b, c, a], [0, 1, 1, 3], 0, 22, 24)) == (Some([c, b, d, a]), Gen([c, b, d, a], [0, 0, 2, 3], 0, 23, 24))
  {
    assert [0, 1, 1, 3][0 := 0] == [0, 1, 1, 3];
    assert Loop(Gen([d, b, c, a], [0, 1, 1, 3], 0, 22, 24)) == Loop(Gen([d, b, c, a], [0, 1, 1, 3], 1, 22, 24));
    assert [0, 1, 1, 3][1 := 0] == [0, 0, 1, 3];
    assert Loop(Gen([d, b, c, a], [0, 1, 1, 3], 1, 22, 24)) == Loop(Gen([d, b, c, a], [0, 0, 1, 3], 2, 22, 24));
    assert Swap([d, b, c, a], 0, 2) == [c, b, d, a];
    assert [0, 0, 1, 3][2 := 2] == [0, 0, 2, 3];
    assert Loop(Gen([d, b, c, a], [0, 0, 1, 3], 2, 22, 24)) == Gen([c, b, d, a], [0, 0, 2, 3], 0, 23, 24);
  }

  lemma FourElementsStep23<T>(a: T, b: T, c: T, d: T)
    ensures Next(Gen([c, b, d, a], [0, 0, 2, 3], 0, 23, 24)) == (Some([b, c, d, a]), Gen([b, c, d, a], [0, 1, 2, 3], 0, 24, 24))
  {
    assert [0, 0, 2, 3][0 := 0] == [0, 0, 2, 3];
    assert Loop(Gen([c, b, d, a], [0, 0, 2, 3], 0, 23, 24)) == Loop(Gen([c, b, d, a], [0, 0, 2, 3], 1, 23, 24));
    assert Swap([c, b, d, a], 0, 1) == [b, c, d, a];
    assert [0, 0, 2, 3][1 := 1] == [0, 1, 2, 3];
    assert Loop(Gen([c, b, d, a], [0, 0, 2, 3], 1, 23, 24)) == Gen([b, c, d, a], [0, 1, 2, 3], 0, 24, 24);
  }

  lemma FourElementsPart0<T>(a: T, b: T, c: T, d: T)
    ensures Outputs(Gen([a, b, c, d], [0, 0, 0, 0], 0, 0, 24), 7) == [Some([a, b, c, d]), Some([b, a, c, d]), Some([c, a, b, d]), Some([a, c, b, d]), Some([b, c, a, d]), Some([c, b, a, d]), Some([d, b, a, c])]
    ensures Iterate(Gen([a, b, c, d], [0, 0, 0, 0], 0, 0, 24), 7) == Gen([d, b, a, c], [0, 0, 0, 1], 0, 7, 24)
  {
    assert Next(Gen([a, b, c, d], [0, 0, 0, 0], 0, 0, 24)) == (Some([a, b, c, d]), Gen([a, b, c, d], [0, 0, 0, 0], 0, 1, 24));
    FourElementsStep1(a, b, c, d);
    FourElementsStep2(a, b, c, d);
    FourElementsStep3(a, b, c, d);
    FourElementsStep4(a, b, c, d);
    FourElementsStep5(a, b, c, d);
    FourElementsStep6(a, b, c, d);
    assert Outputs(Gen([c, b, a, d], [0, 1, 2, 0], 0, 6, 24), 1) == [Some([d, b, a, c])] + Outputs(Gen([d, b, a, c], [0, 0, 0, 1], 0, 7, 24), 0);
    assert Iterate(Gen([c, b, a, d], [0, 1, 2, 0], 0, 6, 24), 1) == Iterate(Gen([d, b, a, c], [0, 0, 0, 1], 0, 7, 24), 0);
    assert Outputs(Gen([b, c, a, d], [0, 0, 2, 0], 0, 5, 24), 2) == [Some([c, b, a, d])] + Outputs(Gen([c, b, a, d], [0, 1, 2, 0], 0, 6, 24), 1);
    assert Iterate(Gen([b, c, a, d], [0, 0, 2, 0], 0, 5, 24), 2) == Iterate(Gen([c, b, a, d], [0, 1, 2, 0], 0, 6, 24), 1);
    assert Outputs(Gen([a, c, b, d], [0, 1, 1, 0], 0, 4, 24), 3) == [Some([b, c, a, d])] + Outputs(Gen([b, c, a, d], [0, 0, 2, 0], 0, 5, 24), 2);
    assert Iterate(Gen([a, c, b, d], [0, 1, 1, 0], 0, 4, 24), 3) == Iterate(Gen([b, c, a, d], [0, 0, 2, 0], 0, 5, 24), 2);
    assert Outputs(Gen([c, a, b, d], [0, 0, 1, 0], 0, 3, 24), 4) == [Some([a, c, b, d])] + Outputs(Gen([a, c, b, d], [0, 1, 1, 0], 0, 4, 24), 3);
    assert Iterate(Gen([c, a, b, d], [0, 0, 1, 0], 0, 3, 24), 4) == Iterate(Gen([a, c, b, d], [0, 1, 1, 0], 0, 4, 24), 3);
    assert Outputs(Gen([b, a, c, d], [0, 1, 0, 0], 0, 2, 24), 5) == [Some([c, a, b, d])] + Outputs(Gen([c, a, b, d], [0, 0, 1, 0], 0, 3, 24), 4);
    assert Iterate(Gen([b, a, c, d], [0, 1, 0, 0], 0, 2, 24), 5) == Iterate(Gen([c, a, b, d], [0, 0, 1, 0], 0, 3, 24), 4);
    assert Outputs(Gen([a, b, c, d], [0, 0, 0, 0], 0, 1, 24), 6) == [Some([b, a, c, d])] + Outputs(Gen([b, a, c, d], [0, 1, 0, 0], 0, 2, 24), 5);
    assert Iterate(Gen([a, b, c, d], [0, 0, 0, 0], 0, 1, 24), 6) == Iterate(Gen([b, a, c, d], [0, 1, 0, 0], 0, 2, 24), 5);
    assert Outputs(Gen([a, b, c, d], [0, 0, 0, 0], 0, 0, 24), 7) == [Some([a, b, c, d])] + Outputs(Gen([a, b, c, d], [0, 0, 0, 0], 0, 1, 24), 6);
    assert Iterate(Gen([a, b, c, d], [0, 0, 0, 0], 0, 0, 24), 7) == Iterate(Gen([a, b, c, d], [0, 0, 0, 0], 0, 1, 24), 6);
  }

  lemma FourElementsPart1<T>(a: T, b: T, c: T, d: T)
    ensures Outputs(Gen([d, b, a, c], [0, 0, 0, 1], 0, 7, 24), 7) == [Some([b, d, a, c]), Some([a, d, b, c]), Some([d, a, b, c]), Some([b, a, d, c]), Some([a, b, d, c]), Some([a, c, d, b]), Some([c, a, d, b])]
    ensures Iterate(Gen([d, b, a, c], [0, 0, 0, 1], 0, 7, 24), 7) == Gen([c, a, d, b], [0, 1, 0, 2], 0, 14, 24)
  {
    FourElementsStep7(a, b, c, d);
    FourElementsStep8(a, b, c, d);
    FourElementsStep9(a, b, c, d);
    FourElementsStep10(a, b, c, d);
    FourElementsStep11(a, b, c, d);
    FourElementsStep12(a, b, c, d);
    FourElementsStep13(a, b, c, d);
    assert Outputs(Gen([a, c, d, b], [0, 0, 0, 2], 0, 13, 24), 1) == [Some([c, a, d, b])] + Outputs(Gen([c, a, d, b], [0, 1, 0, 2], 0, 14, 24), 0);
    assert Iterate(Gen([a, c, d, b], [0, 0, 0, 2], 0, 13, 24), 1) == Iterate(Gen([c, a, d, b], [0, 1, 0, 2], 0, 14, 24), 0);
    assert Outputs(Gen([a, b, d, c], [0, 1, 2, 1], 0, 12, 24), 2) == [Some([a, c, d, b])] + Outputs(Gen([a, c, d, b], [0, 0, 0, 2], 0, 13, 24), 1);
    assert Iterate(Gen([a, b, d, c], [0, 1, 2, 1], 0, 12, 24), 2) == Iterate(Gen([a, c, d, b], [0, 0, 0, 2], 0, 13, 24), 1);
    assert Outputs(Gen([b, a, d, c], [0, 0, 2, 1], 0, 11, 24), 3) == [Some([a, b, d, c])] + Outputs(Gen([a, b, d, c], [0, 1, 2, 1], 0, 12, 24), 2);
    assert Iterate(Gen([b, a, d, c], [0, 0, 2, 1], 0, 11, 24), 3) == Iterate(Gen([a, b, d, c], [0, 1, 2, 1], 0, 12, 24), 2);
    assert Outputs(Gen([d, a, b, c], [0, 1, 1, 1], 0, 10, 24), 4) == [Some([b, a, d, c])] + Outputs(Gen([b, a, d, c], [0, 0, 2, 1], 0, 11, 24), 3);
    assert Iterate(Gen([d, a, b, c], [0, 1, 1, 1], 0, 10, 24), 4) == Iterate(Gen([b, a, d, c], [0, 0, 2, 1], 0, 11, 24), 3);
    assert Outputs(Gen([a, d, b, c], [0, 0, 1, 1], 0, 9, 24), 5) == [Some([d, a, b, c])] + Outputs(Gen([d, a, b, c], [0, 1, 1, 1], 0, 10, 24), 4);
    assert Iterate(Gen([a, d, b, c], [0, 0, 1, 1], 0, 9, 24), 5) == Iterate(Gen([d, a, b, c], [0, 1, 1, 1], 0, 10, 24), 4);
    assert Outputs(Gen([b, d, a, c], [0, 1, 0, 1], 0, 8, 24), 6) == [Some([a, d, b, c])] + Outputs(Gen([a, d, b, c], [0, 0, 1, 1], 0, 9, 24), 5);
    assert Iterate(Gen([b, d, a, c], [0, 1, 0, 1], 0, 8, 24), 6) == Iterate(Gen([a, d, b, c], [0, 0, 1, 1], 0, 9, 24), 5);
    assert Outputs(Gen([d, b, a, c], [0, 0, 0, 1], 0, 7, 24), 7) == [Some([b, d, a, c])] + Outputs(Gen([b, d, a, c], [0, 1, 0, 1], 0, 8, 24), 6);
    assert Iterate(Gen([d, b, a, c], [0, 0, 0, 1], 0, 7, 24), 7) == Iterate(Gen([b, d, a, c], [0, 1, 0, 1], 0, 8, 24), 6);
  }

  lemma FourElementsPart2<T>(a: T, b: T, c: T, d: T)
    ensures Outputs(Gen([c, a, d, b], [0, 1, 0, 2], 0, 14, 24), 6) == [Some([d, a, c, b]), Some([a, d, c, b]), Some([c, d, a, b]), Some([d, c, a, b]), Some([d, c, b, a]), Some([c, d, b, a])]
    ensures Iterate(Gen([c, a, d, b], [0, 1, 0, 2], 0, 14, 24), 6) == Gen([c, d, b, a], [0, 1, 0, 3], 0, 20, 24)
  {
    FourElementsStep14(a, b, c, d);
    FourElementsStep15(a, b, c, d);
    FourElementsStep16(a, b, c, d);
    FourElementsStep17(a, b, c, d);
    FourElementsStep18(a, b, c, d);
    FourElementsStep19(a, b, c, d);
    assert Outputs(Gen([d, c, b, a], [0, 0, 0, 3], 0, 19, 24), 1) == [Some([c, d, b, a])] + Outputs(Gen([c, d, b, a], [0, 1, 0, 3], 0, 20, 24), 0);
    assert Iterate(Gen([d, c, b, a], [0, 0, 0, 3], 0, 19, 24), 1) == Iterate(Gen([c, d, b, a], [0, 1, 0, 3], 0, 20, 24), 0);
    assert Outputs(Gen([d, c, a, b], [0, 1, 2, 2], 0, 18, 24), 2) == [Some([d, c, b, a])] + Outputs(Gen([d, c, b, a], [0, 0, 0, 3], 0, 19, 24), 1);
    assert Iterate(Gen([d, c, a, b], [0, 1, 2, 2], 0, 18, 24), 2) == Iterate(Gen([d, c, b, a], [0, 0, 0, 3], 0, 19, 24), 1);
    assert Outputs(Gen([c, d, a, b], [0, 0, 2, 2], 0, 17, 24), 3) == [Some([d, c, a, b])] + Outputs(Gen([d, c, a, b], [0, 1, 2, 2], 0, 18, 24), 2);
    assert Iterate(Gen([c, d, a, b], [0, 0, 2, 2], 0, 17, 24), 3) == Iterate(Gen([d, c, a, b], [0, 1, 2, 2], 0, 18, 24), 2);
    assert Outputs(Gen([a, d, c, b], [0, 1, 1, 2], 0, 16, 24), 4) == [Some([c, d, a, b])] + Outputs(Gen([c, d, a, b], [0, 0, 2, 2], 0, 17, 24), 3);
    assert Iterate(Gen([a, d, c, b], [0, 1, 1, 2], 0, 16, 24), 4) == Iterate(Gen([c, d, a, b], [0, 0, 2, 2], 0, 17, 24), 3);
    assert Outputs(Gen([d, a, c, b], [0, 0, 1, 2], 0, 15, 24), 5) == [Some([a, d, c, b])] + Outputs(Gen([a, d, c, b], [0, 1, 1, 2], 0, 16, 24), 4);
    assert Iterate(Gen([d, a, c, b], [0, 0, 1, 2], 0, 15, 24), 5) == Iterate(Gen([a, d, c, b], [0, 1, 1, 2], 0, 16, 24), 4);
    assert Outputs(Gen([c, a, d, b], [0, 1, 0, 2], 0, 14, 24), 6) == [Some([d, a, c, b])] + Outputs(Gen([d, a, c, b], [0, 0, 1, 2], 0, 15, 24), 5);
    assert Iterate(Gen([c, a, d, b], [0, 1, 0, 2], 0, 14, 24), 6) == Iterate(Gen([d, a, c, b], [0, 0, 1, 2], 0, 15, 24), 5);
  }

  lemma FourElementsPart3<T>(a: T, b: T, c: T, d: T)
    ensures Outputs(Gen([c, d, b, a], [0, 1, 0, 3], 0, 20, 24), 6) == [Some([b, d, c, a]), Some([d, b, c, a]), Some([c, b, d, a]), Some([b, c, d, a]), None, None]
    ensures Iterate(Gen([c, d, b, a], [0, 1, 0, 3], 0, 20, 24), 6) == Gen([b, c, d, a], [0, 1, 2, 3], 0, 24, 24)
  {
    FourElementsStep20(a, b, c, d);
    FourElementsStep21(a, b, c, d);
    FourElementsStep22(a, b, c, d);
    FourElementsStep23(a, b, c, d);
    assert Next(Gen([b, c, d, a], [0, 1, 2, 3], 0, 24, 24)) == (None, Gen([b, c, d, a], [0, 1, 2, 3], 0, 24, 24));
    assert Next(Gen([b, c, d, a], [0, 1, 2, 3], 0, 24, 24)) == (None, Gen([b, c, d, a], [0, 1, 2, 3], 0, 24, 24));
    assert Outputs(Gen([b, c, d, a], [0, 1, 2, 3], 0, 24, 24), 1) == [None] + Outputs(Gen([b, c, d, a], [0, 1, 2, 3], 0, 24, 24), 0);
    assert Iterate(Gen([b, c, d, a], [0, 1, 2, 3], 0, 24, 24), 1) == Iterate(Gen([b, c, d, a], [0, 1, 2, 3], 0, 24, 24), 0);
    assert Outputs(Gen([b, c, d, a], [0, 1, 2, 3], 0, 24, 24), 2) == [None] + Outputs(Gen([b, c, d, a], [0, 1, 2, 3], 0, 24, 24), 1);
    assert Iterate(Gen([b, c, d, a], [0, 1, 2, 3], 0, 24, 24), 2) == Iterate(Gen([b, c, d, a], [0, 1, 2, 3], 0, 24, 24), 1);
    assert Outputs(Gen([c, b, d, a], [0, 0, 2, 3], 0, 23, 24), 3) == [Some([b, c, d, a])] + Outputs(Gen([b, c, d, a], [0, 1, 2, 3], 0, 24, 24), 2);
    assert Iterate(Gen([c, b, d, a], [0, 0, 2, 3], 0, 23, 24), 3) == Iterate(Gen([b, c, d, a], [0, 1, 2, 3], 0, 24, 24), 2);
    assert Outputs(Gen([d, b, c, a], [0, 1, 1, 3], 0, 22, 24), 4) == [Some([c, b, d, a])] + Outputs(Gen([c, b, d, a], [0, 0, 2, 3], 0, 23, 24), 3);
    assert Iterate(Gen([d, b, c, a], [0, 1, 1, 3], 0, 22, 24), 4) == Iterate(Gen([c, b, d, a], [0, 0, 2, 3], 0, 23, 24), 3);
    assert Outputs(Gen([b, d, c, a], [0, 0, 1, 3], 0, 21, 24), 5) == [Some([d, b, c, a])] + Outputs(Gen([d, b, c, a], [0, 1, 1, 3], 0, 22, 24), 4);
    assert Iterate(Gen([b, d, c, a], [0, 0, 1, 3], 0, 21, 24), 5) == Iterate(Gen([d, b, c, a], [0, 1, 1, 3], 0, 22, 24), 4);
    assert Outputs(Gen([c, d, b, a], [0, 1, 0, 3], 0, 20, 24), 6) == [Some([b, d, c, a])] + Outputs(Gen([b, d, c, a], [0, 0, 1, 3], 0, 21, 24), 5);
    assert Iterate(Gen([c, d, b, a], [0, 1, 0, 3], 0, 20, 24), 6) == Iterate(Gen([b, d, c, a], [0, 0, 1, 3], 0, 21, 24), 5);
  }

  /** Four elements: all 24 orders in Heap's sequence, then None twice. */
  lemma FourElements<T>(a: T, b: T, c: T, d: T)
    ensures Outputs(New([a, b, c, d]), 26) ==
      [Some([a, b, c, d]), Some([b, a, c, d]), Some([c, a, b, d]), Some([a, c, b, d]), Some([b, c, a, d]), Some([c, b, a, d]), Some([d, b, a, c]), Some([b, d, a, c]), Some([a, d, b, c]), Some([d, a, b, c]), Some([b, a, d, c]), Some([a, b, d, c]), Some([a, c, d, b]), Some([c, a, d, b]), Some([d, a, c, b]), Some([a, d, c, b]), Some([c, d, a, b]), Some([d, c, a, b]), Some([d, c, b, a]), Some([c, d, b, a]), Some([b, d, c, a]), Some([d, b, c, a]), Some([c, b, d, a]), Some([b, c, d, a]), None, None]
  {
    assert seq(4, _ => 0) == [0, 0, 0, 0];
    assert Factorial(4) == 24;
    assert New([a, b, c, d]) == Gen([a, b, c, d], [0, 0, 0, 0], 0, 0, 24);
    FourElementsPart0(a, b, c, d);
    FourElementsPart1(a, b, c, d);
    FourElementsPart2(a, b, c, d);
    FourElementsPart3(a, b, c, d);
    OutputsJoin(Gen([c, a, d, b], [0, 1, 0, 2], 0, 14, 24), 6, Gen([c, d, b, a], [0, 1, 0, 3], 0, 20, 24), 6,
      [Some([d, a, c, b]), Some([a, d, c, b]), Some([c, d, a, b]), Some([d, c, a, b]), Some([d, c, b, a]), Some([c, d, b, a])],
      [Some([b, d, c, a]), Some([d, b, c, a]), Some([c, b, d, a]), Some([b, c, d, a]), None, None]);
    OutputsJoin(Gen([d, b, a, c], [0, 0, 0, 1], 0, 7, 24), 7, Gen([c, a, d, b], [0, 1, 0, 2], 0, 14, 24), 12,
      [Some([b, d, a, c]), Some([a, d, b, c]), Some([d, a, b, c]), Some([b, a, d, c]), Some([a, b, d, c]), Some([a, c, d, b]), Some([c, a, d, b])],
      [Some([d, a, c, b]), Some([a, d, c, b]), Some([c, d, a, b]), Some([d, c, a, b]), Some([d, c, b, a]), Some([c, d, b, a])] + ([Some([b, d, c, a]), Some([d, b, c, a]), Some([c, b, d, a]), Some([b, c, d, a]), None, None]));
    OutputsJoin(Gen([a, b, c, d], [0, 0, 0, 0], 0, 0, 24), 7, Gen([d, b, a, c], [0, 0, 0, 1], 0, 7, 24), 19,
      [Some([a, b, c, d]), Some([b, a, c, d]), Some([c, a, b, d]), Some([a, c, b, d]), Some([b, c, a, d]), Some([c, b, a, d]), Some([d, b, a, c])],
      [Some([b, d, a, c]), Some([a, d, b, c]), Some([d, a, b, c]), Some([b, a, d, c]), Some([a, b, d, c]), Some([a, c, d, b]), Some([c, a, d, b])] + ([Some([d, a, c, b]), Some([a, d, c, b]), Some([c, d, a, b]), Some([d, c, a, b]), Some([d, c, b, a]), Some([c, d, b, a])] + ([Some([b, d, c, a]), Some([d, b, c, a]), Some([c, b, d, a]), Some([b, c, d, a]), None, None])));
    FourElementsFlatten(a, b, c, d);
  }

  /** The chunks of FourElements's list, flattened. */
  lemma FourElementsFlatten<T>(a: T, b: T, c: T, d: T)
    ensures [Some([a, b, c, d]), Some([b, a, c, d]), Some([c, a, b, d]), Some([a, c, b, d]), Some([b, c, a, d]), Some([c, b, a, d]), Some([d, b, a, c])] + ([Some([b, d, a, c]), Some([a, d, b, c]), Some([d, a, b, c]), Some([b, a, d, c]), Some([a, b, d, c]), Some([a, c, d, b]), Some([c, a, d, b])] + ([Some([d, a, c, b]), Some([a, d, c, b]), Some([c, d, a, b]), Some([d, c, a, b]), Some([d, c, b, a]), Some([c, d, b, a])] + ([Some([b, d, c, a]), Some([d, b, c, a]), Some([c, b, d, a]), Some([b, c, d, a]), None, None]))) ==
      [Some([a, b, c, d]), Some([b, a, c, d]), Some([c, a, b, d]), Some([a, c, b, d]), Some([b, c, a, d]), Some([c, b, a, d]), Some([d, b, a, c]), Some([b, d, a, c]), Some([a, d, b, c]), Some([d, a, b, c]), Some([b, a, d, c]), Some([a, b, d, c]), Some([a, c, d, b]), Some([c, a, d, b]), Some([d, a, c, b]), Some([a, d, c, b]), Some([c, d, a, b]), Some([d, c, a, b]), Some([d, c, b, a]), Some([c, d, b, a]), Some([b, d, c, a]), Some([d, b, c, a]), Some([c, b, d, a]), Some([b, c, d, a]), None, None]
  {
  }
  /** With distinct a, b, c, every rearrangement of [a, b, c] is one of the six values of ThreeElements. */
  lemma Orders3<T>(a: T, b: T, c: T, p: seq<T>)
    requires a != b && a != c && b != c
    requires multiset(p) == multiset([a, b, c])
    ensures Some(p) in [Some([a, b, c]), Some([b, a, c]), Some([c, a, b]), Some([a, c, b]), Some([b, c, a]), Some([c, b, a])]
  {
    assert |p| == 3 by {
      assert |multiset(p)| == |p|;
    }
    assert p == [p[0], p[1], p[2]];
    assert p[0] in multiset(p) && p[1] in multiset(p) && p[2] in multiset(p);
    assert multiset(p)[p[0]] == 1 && multiset(p)[p[1]] == 1 && multiset(p)[p[2]] == 1;
  }

  /** With distinct a, b, c, the six values of ThreeElements are pairwise different. */
  lemma ThreeDistinct<T>(a: T, b: T, c: T)
    requires a != b && a != c && b != c
    ensures var os := [Some([a, b, c]), Some([b, a, c]), Some([c, a, b]), Some([a, c, b]), Some([b, c, a]), Some([c, b, a])];
      forall j, k :: 0 <= j < k < 6 ==> os[j] != os[k]
  {
    var os := [Some([a, b, c]), Some([b, a, c]), Some([c, a, b]), Some([a, c, b]), Some([b, c, a]), Some([c, b, a])];
    forall j, k | 0 <= j < k < 6
      ensures os[j] != os[k]
    {
      assert os[j].value[0] != os[k].value[0] || os[j].value[1] != os[k].value[1];
    }
  }

  /** The first six results of ThreeElements, before the None. */
  lemma ThreeFirstSix<T>(a: T, b: T, c: T)
    ensures Outputs(New([a, b, c]), 6) == [Some([a, b, c]), Some([b, a, c]), Some([c, a, b]), Some([a, c, b]), Some([b, c, a]), Some([c, b, a])]
  {
    assert New([a, b, c]) == Gen([a, b, c], [0, 0, 0], 0, 0, 6) by {
      assert seq(3, _ => 0) == [0, 0, 0];
    }
    ThreeElementsPart0(a, b, c);
  }

  /** Three distinct elements: no value is produced twice. */
  lemma ThreeElementsDistinct<T>(a: T, b: T, c: T)
    requires a != b && a != c && b != c
    ensures forall j, k :: 0 <= j < k < 6 ==> Outputs(New([a, b, c]), 6)[j] != Outputs(New([a, b, c]), 6)[k]
  {
    ThreeFirstSix(a, b, c);
    ThreeDistinct(a, b, c);
  }

  /** Three distinct elements: every rearrangement of the input is produced. */
  lemma ThreeElementsCover<T>(a: T, b: T, c: T)
    requires a != b && a != c && b != c
    ensures forall p :: multiset(p) == multiset([a, b, c]) ==> Some(p) in Outputs(New([a, b, c]), 6)
  {
    ThreeFirstSix(a, b, c);
    forall p | multiset(p) == multiset([a, b, c])
      ensures Some(p) in Outputs(New([a, b, c]), 6)
    {
      Orders3(a, b, c, p);
    }
  }

  /** The first 24 results of FourElements, before the two Nones. */
  lemma FourFirst24<T>(a: T, b: T, c: T, d: T)
    ensures Outputs(New([a, b, c, d]), 24) == [Some([a, b, c, d]), Some([b, a, c, d]), Some([c, a, b, d]), Some([a, c, b, d]), Some([b, c, a, d]), Some([c, b, a, d]), Some([d, b, a, c]), Some([b, d, a, c]), Some([a, d, b, c]), Some([d, a, b, c]), Some([b, a, d, c]), Some([a, b, d, c]), Some([a, c, d, b]), Some([c, a, d, b]), Some([d, a, c, b]), Some([a, d, c, b]), Some([c, d, a, b]), Some([d, c, a, b]), Some([d, c, b, a]), Some([c, d, b, a]), Some([b, d, c, a]), Some([d, b, c, a]), Some([c, b, d, a]), Some([b, c, d, a])]
  {
    FourElements(a, b, c, d);
    OutputsPrefix(New([a, b, c, d]), 24, 2);
  }

  /** With distinct a, b, c, d, the 24 values of FourElements are pairwise different. */
  lemma FourDistinct<T>(a: T, b: T, c: T, d: T)
    requires a != b && a != c && a != d && b != c && b != d && c != d
    ensures var os := [Some([a, b, c, d]), Some([b, a, c, d]), Some([c, a, b, d]), Some([a, c, b, d]), Some([b, c, a, d]), Some([c, b, a, d]), Some([d, b, a, c]), Some([b, d, a, c]), Some([a, d, b, c]), Some([d, a, b, c]), Some([b, a, d, c]), Some([a, b, d, c]), Some([a, c, d, b]), Some([c, a, d, b]), Some([d, a, c, b]), Some([a, d, c, b]), Some([c, d, a, b]), Some([d, c, a, b]), Some([d, c, b, a]), Some([c, d, b, a]), Some([b, d, c, a]), Some([d, b, c, a]), Some([c, b, d, a]), Some([b, c, d, a])];
      forall j, k :: 0 <= j < k < 24 ==> os[j] != os[k]
  {
    var os := [Some([a, b, c, d]), Some([b, a, c, d]), Some([c, a, b, d]), Some([a, c, b, d]), Some([b, c, a, d]), Some([c, b, a, d]), Some([d, b, a, c]), Some([b, d, a, c]), Some([a, d, b, c]), Some([d, a, b, c]), Some([b, a, d, c]), Some([a, b, d, c]), Some([a, c, d, b]), Some([c, a, d, b]), Some([d, a, c, b]), Some([a, d, c, b]), Some([c, d, a, b]), Some([d, c, a, b]), Some([d, c, b, a]), Some([c, d, b, a]), Some([b, d, c, a]), Some([d, b, c, a]), Some([c, b, d, a]), Some([b, c, d, a])];
    forall j, k | 0 <= j < k < 24
      ensures os[j] != os[k]
    {
      assert os[j].value[0] != os[k].value[0] || os[j].value[1] != os[k].value[1] || os[j].value[2] != os[k].value[2];
    }
  }

  /** With distinct a, b, c, d, every rearrangement of [a, b, c, d] is one of the 24 values of FourElements. */
  lemma Orders4<T>(a: T, b: T, c: T, d: T, p: seq<T>)
    requires a != b && a != c && a != d && b != c && b != d && c != d
    requires multiset(p) == multiset([a, b, c, d])
    ensures Some(p) in [Some([a, b, c, d]), Some([b, a, c, d]), Some([c, a, b, d]), Some([a, c, b, d]), Some([b, c, a, d]), Some([c, b, a, d]), Some([d, b, a, c]), Some([b, d, a, c]), Some([a, d, b, c]), Some([d, a, b, c]), Some([b, a, d, c]), Some([a, b, d, c]), Some([a, c, d, b]), Some([c, a, d, b]), Some([d, a, c, b]), Some([a, d, c, b]), Some([c, d, a, b]), Some([d, c, a, b]), Some([d, c, b, a]), Some([c, d, b, a]), Some([b, d, c, a]), Some([d, b, c, a]), Some([c, b, d, a]), Some([b, c, d, a])]
  {
    assert |p| == 4 by {
      assert |multiset(p)| == |p|;
    }
    assert p == [p[0], p[1], p[2], p[3]];
    assert p[0] in multiset(p) && p[1] in multiset(p) && p[2] in multiset(p) && p[3] in multiset(p);
    assert multiset(p)[p[0]] == 1 && multiset(p)[p[1]] == 1 && multiset(p)[p[2]] == 1 && multiset(p)[p[3]] == 1;
  }

  /** Four distinct elements: no value is produced twice. */
  lemma FourElementsDistinct<T>(a: T, b: T, c: T, d: T)
    requires a != b && a != c && a != d && b != c && b != d && c != d
    ensures forall j, k :: 0 <= j < k < 24 ==> Outputs(New([a, b, c, d]), 24)[j] != Outputs(New([a, b, c, d]), 24)[k]
  {
    FourFirst24(a, b, c, d);
    FourDistinct(a, b, c, d);
  }

  /** Four distinct elements: every rearrangement of the input is produced. */
  lemma FourElementsCover<T>(a: T, b: T, c: T, d: T)
    requires a != b && a != c && a != d && b != c && b != d && c != d
    ensures forall p :: multiset(p) == multiset([a, b, c, d]) ==> Some(p) in Outputs(New([a, b, c, d]), 24)
  {
    FourFirst24(a, b, c, d);
    forall p | multiset(p) == multiset([a, b, c, d])
      ensures Some(p) in Outputs(New([a, b, c, d]), 24)
    {
      Orders4(a, b, c, d, p);
    }
  }

  /** The six values of a three-element collection, read off ThreeElements. */
  lemma CollectedThree<T>(a: T, b: T, c: T, perms: seq<seq<T>>)
    requires |perms| == 6
    requires forall j :: 0 <= j < 6 ==> Outputs(New([a, b, c]), 6)[j] == Some(perms[j])
    ensures perms == [[a, b, c], [b, a, c], [c, a, b], [a, c, b], [b, c, a], [c, b, a]]
  {
    ThreeFirstSix(a, b, c);
    var os: seq<Option<seq<T>>> := [Some([a, b, c]), Some([b, a, c]), Some([c, a, b]), Some([a, c, b]), Some([b, c, a]), Some([c, b, a])];
    assert forall j :: 0 <= j < 6 ==> Some(perms[j]) == os[j];
  }

  /**
    Collecting a fresh generator over three elements gives exactly the six
    orders of ThreeElements, in that order.
  */
  method CollectThree<T>(a: T, b: T, c: T) returns (perms: seq<seq<T>>)
    ensures perms == [[a, b, c], [b, a, c], [c, a, b], [a, c, b], [b, c, a], [c, b, a]]
  {
    perms := Permesan.Collect([a, b, c]);
    assert Factorial(3) == 6;
    CollectedThree(a, b, c, perms);
  }
}
