/**
 The slicing test of the metrics suite, stated about both readings of
 `sortDescendingAndSlice`: the map `{1: 1, 2: 2, 3: 3, 4: 4}`, in that
 iteration order, cut to two entries.
 */
module SliceTests {
  import opened Slicing

  lemma FourIncreasing(k1: string, k2: string, k3: string, k4: string)
    ensures Increasing([(k1, 1), (k2, 2), (k3, 3), (k4, 4)])
  {
  }

  /** As written, the slice keeps the SMALLEST two, not the `{3: 3, 4: 4}` the test expects, whatever the keys. */
  lemma AscendingSliceKeepsSmallest(k1: string, k2: string, k3: string, k4: string)
    ensures SliceAscending([(k1, 1), (k2, 2), (k3, 3), (k4, 4)], 2) == [(k1, 1), (k2, 2)]
  {
    FourIncreasing(k1, k2, k3, k4);
    BottomTwoOfIncreasing([(k1, 1), (k2, 2), (k3, 3), (k4, 4)]);
  }

  /** The intended descending slice gives exactly what the test expects. */
  lemma DescendingSliceMatchesTest(k1: string, k2: string, k3: string, k4: string)
    ensures SliceDescending([(k1, 1), (k2, 2), (k3, 3), (k4, 4)], 2) == [(k4, 4), (k3, 3)]
  {
    FourIncreasing(k1, k2, k3, k4);
    TopTwoOfIncreasing([(k1, 1), (k2, 2), (k3, 3), (k4, 4)]);
  }
}
