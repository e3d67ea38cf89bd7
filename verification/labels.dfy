/** Label volumes and the binary masks derived from them.

    A volume is flattened into a sequence of voxel labels: 0 is
    background, 1 the left hippocampus, 2 the right one. The scorer reads
    every file through a Float32 cast; the labels it meets are whole
    numbers, so they are `int` here. */
module Labels {

  type Grid = seq<int>
  type Mask = seq<bool>

  const LeftLabel := 1
  const RightLabel := 2

  /** `array == target`: true exactly at the voxels carrying `target`. */
  function MaskOf(g: Grid, target: int): (m: Mask)
    ensures |m| == |g|
    ensures forall i :: 0 <= i < |g| ==> (m[i] <==> g[i] == target)
  {
    seq(|g|, i requires 0 <= i < |g| => g[i] == target)
  }

  /** `np.sum` of a boolean mask: the number of voxels set in it. It is
      zero exactly when no voxel is set. */
  function Count(m: Mask): (n: nat)
    ensures n <= |m|
    ensures n == 0 <==> forall i :: 0 <= i < |m| ==> !m[i]
  {
    if |m| == 0 then 0 else (if m[0] then 1 else 0) + Count(m[1..])
  }

  /** `np.sum` of the whole volume: the sum of its voxel labels. */
  function Sum(g: Grid): int {
    if |g| == 0 then 0 else g[0] + Sum(g[1..])
  }

  /** Number of voxels labelled `target`. */
  function VoxelCount(g: Grid, target: int): nat {
    Count(MaskOf(g, target))
  }

  /** Every voxel is background, left or right. */
  predicate IsLabelGrid(g: Grid) {
    forall i :: 0 <= i < |g| ==> 0 <= g[i] <= 2
  }

  lemma VoxelCountCons(g: Grid, target: int)
    requires |g| > 0
    ensures VoxelCount(g, target) == (if g[0] == target then 1 else 0) + VoxelCount(g[1..], target)
  {
    assert MaskOf(g, target)[1..] == MaskOf(g[1..], target);
  }

  /** The left and right masks never share a voxel, so their counts add up
      to at most the size of the volume. */
  lemma {:induction false} MasksDisjoint(g: Grid)
    ensures forall i :: 0 <= i < |g| ==> !(MaskOf(g, LeftLabel)[i] && MaskOf(g, RightLabel)[i])
    ensures VoxelCount(g, LeftLabel) + VoxelCount(g, RightLabel) <= |g|
  {
    if |g| > 0 {
      MasksDisjoint(g[1..]);
      VoxelCountCons(g, LeftLabel);
      VoxelCountCons(g, RightLabel);
    }
  }

  /** On a volume of labels 0, 1 and 2 the sum of all labels counts every
      left voxel once and every right voxel twice. */
  lemma {:induction false} SumOfLabelGrid(g: Grid)
    requires IsLabelGrid(g)
    ensures Sum(g) == VoxelCount(g, LeftLabel) + 2 * VoxelCount(g, RightLabel)
  {
    if |g| > 0 {
      assert IsLabelGrid(g[1..]) by {
        forall i | 0 <= i < |g[1..]| ensures 0 <= g[1..][i] <= 2 {
          assert g[1..][i] == g[i + 1];
        }
      }
      SumOfLabelGrid(g[1..]);
      VoxelCountCons(g, LeftLabel);
      VoxelCountCons(g, RightLabel);
    }
  }
}
