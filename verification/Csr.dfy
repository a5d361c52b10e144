/** Row tables in start/count form: the rows of all groups in one sequence, group j at
    [start_j .. start_j + count_j). */
module Csr {

  function Flat<T>(groups: seq<seq<T>>): seq<T> {
    if groups == [] then [] else Flat(groups[..|groups| - 1]) + groups[|groups| - 1]
  }

  /** Where group j starts: the number of rows of the groups before it. */
  function Start<T>(groups: seq<seq<T>>, j: nat): nat
    requires j <= |groups|
  {
    |Flat(groups[..j])|
  }

  lemma FlatStep<T>(groups: seq<seq<T>>, g: seq<T>)
    ensures Flat(groups + [g]) == Flat(groups) + g
  {
    assert (groups + [g])[..|groups|] == groups;
  }

  lemma {:induction false} FlatPrefix<T>(groups: seq<seq<T>>, j: nat)
    requires j <= |groups|
    ensures Flat(groups[..j]) <= Flat(groups)
  {
    if j < |groups| {
      FlatPrefix(groups[..|groups| - 1], j);
      assert groups[..|groups| - 1][..j] == groups[..j];
    } else {
      assert groups[..j] == groups;
    }
  }

  /** Reading a group back by its start and count gives exactly that group. */
  lemma SliceIsGroup<T>(groups: seq<seq<T>>, j: nat)
    requires j < |groups|
    ensures Start(groups, j) + |groups[j]| <= |Flat(groups)|
    ensures Flat(groups)[Start(groups, j)..Start(groups, j) + |groups[j]|] == groups[j]
  {
    assert groups[..j + 1] == groups[..j] + [groups[j]];
    FlatStep(groups[..j], groups[j]);
    FlatPrefix(groups, j + 1);
    var all := Flat(groups);
    var pre := Flat(groups[..j + 1]);
    assert all[..|pre|] == pre;
    assert all[Start(groups, j)..|pre|] == pre[Start(groups, j)..];
  }

  /** Row k of group j. */
  lemma RowOfGroup<T>(groups: seq<seq<T>>, j: nat, k: nat)
    requires j < |groups| && k < |groups[j]|
    ensures Start(groups, j) + k < |Flat(groups)| && Flat(groups)[Start(groups, j) + k] == groups[j][k]
  {
    SliceIsGroup(groups, j);
    var s := Start(groups, j);
    assert Flat(groups)[s..s + |groups[j]|][k] == Flat(groups)[s + k];
  }
}
