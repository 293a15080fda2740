/**
 * The disk-space preflight (Forge.Utilities/DiskSpaceChecker.cs): the
 * destination volume must have at least twice the total size of the input
 * files free. The file sizes and the free space are inputs of the model.
 */
module DiskSpaceChecker {
  import opened Paths

  /** files.Sum(file => new FileInfo(file).Length) */
  function Sum(sizes: seq<nat>): nat
    decreases |sizes|
  {
    if sizes == [] then 0 else sizes[0] + Sum(sizes[1..])
  }

  /** The sizes of the given files, in order. */
  function Sizes(files: seq<Path>, sizeOf: Path -> nat): (r: seq<nat>)
    ensures |r| == |files|
    ensures forall i :: 0 <= i < |files| ==> r[i] == sizeOf(files[i])
  {
    seq(|files|, i requires 0 <= i < |files| => sizeOf(files[i]))
  }

  predicate HasSufficientDiskSpace(sizes: seq<nat>, availableSpace: int) {
    availableSpace >= Sum(sizes) * 2
  }

  /** The sum of a concatenation is the sum of its parts. */
  lemma {:induction false} SumAppend(a: seq<nat>, b: seq<nat>)
    ensures Sum(a + b) == Sum(a) + Sum(b)
    decreases |a|
  {
    if a == [] {
      assert a + b == b;
    } else {
      assert (a + b)[0] == a[0];
      assert (a + b)[1..] == a[1..] + b;
      SumAppend(a[1..], b);
    }
  }

  /** The required space is exactly twice the total, and the boundary is sufficient. */
  lemma Boundary(sizes: seq<nat>)
    ensures HasSufficientDiskSpace(sizes, 2 * Sum(sizes))
    ensures !HasSufficientDiskSpace(sizes, 2 * Sum(sizes) - 1)
  {
  }

  /** No input needs no space. */
  lemma EmptyIsSufficient(availableSpace: int)
    requires availableSpace >= 0
    ensures HasSufficientDiskSpace([], availableSpace)
  {
  }

  /** More free space never turns a pass into a failure. */
  lemma MonotoneInSpace(sizes: seq<nat>, a: int, b: int)
    requires a <= b && HasSufficientDiskSpace(sizes, a)
    ensures HasSufficientDiskSpace(sizes, b)
  {
  }

  /** One more file, wherever it goes in the list, never turns a failure into a pass. */
  lemma MonotoneInFiles(before: seq<nat>, size: nat, after: seq<nat>, availableSpace: int)
    requires !HasSufficientDiskSpace(before + after, availableSpace)
    ensures !HasSufficientDiskSpace(before + [size] + after, availableSpace)
  {
    SumAppend(before, after);
    SumAppend(before + [size], after);
    SumAppend(before, [size]);
    assert Sum([size]) == size;
  }

  /** Taking one file out of the list takes its size off the total. */
  lemma SumRemove(b: seq<nat>, i: int)
    requires 0 <= i < |b|
    ensures Sum(b) == b[i] + Sum(b[..i] + b[i+1..])
  {
    var before, x, after := b[..i], b[i], b[i+1..];
    assert b == (before + [x]) + after;
    SumAppend(before + [x], after);
    SumAppend(before, [x]);
    assert Sum([x]) == x;
    SumAppend(before, after);
  }

  /** Reordering the files does not change their total size. */
  lemma {:induction false} SumPermutation(a: seq<nat>, b: seq<nat>)
    requires multiset(a) == multiset(b)
    ensures Sum(a) == Sum(b)
    decreases |a|
  {
    if a == [] {
      assert |b| == |multiset(b)| == 0;
    } else {
      assert a[0] in multiset(b);
      var i :| 0 <= i < |b| && b[i] == a[0];
      var rest := b[..i] + b[i+1..];
      assert multiset(a[1..]) == multiset(a) - multiset{a[0]} by {
        assert a == [a[0]] + a[1..];
      }
      assert multiset(rest) == multiset(b) - multiset{b[i]} by {
        assert b == b[..i] + [b[i]] + b[i+1..];
      }
      SumPermutation(a[1..], rest);
      SumRemove(b, i);
    }
  }

  /** The verdict depends only on which files are given, not on their order: any permutation gives the same answer. */
  lemma OrderIrrelevant(a: seq<nat>, b: seq<nat>, availableSpace: int)
    requires multiset(a) == multiset(b)
    ensures HasSufficientDiskSpace(a, availableSpace) == HasSufficientDiskSpace(b, availableSpace)
  {
    SumPermutation(a, b);
  }
}
