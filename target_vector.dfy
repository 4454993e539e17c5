/**
  The target vector `target_f`: the live network's prediction for the batch's
  previous states, held in a 2-D array, with one slot per row overwritten in
  place by that row's TD target.
 */
module TargetVector {
  import opened QTargets

  /** The contents of a 2-D array, row by row. */
  function Rows(a: array2<real>): (m: Matrix)
    reads a
    ensures |m| == a.Length0 && Rectangular(m, a.Length1)
    ensures forall i, j :: 0 <= i < a.Length0 && 0 <= j < a.Length1 ==> m[i][j] == a[i, j]
  {
    seq(a.Length0, i requires 0 <= i < a.Length0 reads a =>
      seq(a.Length1, j requires 0 <= j < a.Length1 reads a => a[i, j]))
  }

  /**
    `target_f[range(len(actions)), actions] = target`.  An action index outside
    the table makes numpy raise before anything is written: `ok` is false and
    the array is unchanged.  Otherwise exactly the slot `[i, actions[i]]` of
    each row i changes, to `targets[i]`.
   */
  method WriteTargets(a: array2<real>, actions: seq<nat>, targets: seq<real>) returns (ok: bool)
    requires |actions| == a.Length0 && |targets| == a.Length0
    modifies a
    ensures ok == SlotsInRange(actions, a.Length1)
    ensures ok ==> Rows(a) == SetSlots(old(Rows(a)), actions, targets)
    ensures !ok ==> Rows(a) == old(Rows(a))
  {
    ok := SlotsInRange(actions, a.Length1);
    if !ok {
      return;
    }
    var i := 0;
    while i < a.Length0
      invariant 0 <= i <= a.Length0
      invariant forall r, c :: 0 <= r < a.Length0 && 0 <= c < a.Length1 ==>
                  a[r, c] == if r < i && c == actions[r] then targets[r] else old(a[r, c])
    {
      a[i, actions[i]] := targets[i];
      i := i + 1;
    }
    ghost var before := old(Rows(a));
    ghost var expected := SetSlots(before, actions, targets);
    forall r | 0 <= r < a.Length0
      ensures Rows(a)[r] == expected[r]
    {
      forall c | 0 <= c < a.Length1
        ensures Rows(a)[r][c] == expected[r][c]
      {
        assert before[r][c] == old(a[r, c]);
      }
    }
  }
}
