/**
  The temporal-difference targets of one learning step, on Q-value tables.

  The two networks are abstracted by the tables they predict: `oldNext` is the
  target (old) network's prediction for the batch's next states, `liveNext` the
  live network's.  Rows are indexed by batch sample, columns by action.
 */
module QTargets {

  type Row = seq<real>
  type Matrix = seq<Row>

  /** The additive floor that keeps every refreshed replay priority positive. */
  const PRIORITY_EPS: real := 0.000001

  /** Every row of `m` has `cols` entries. */
  predicate Rectangular(m: Matrix, cols: nat)
  {
    forall i :: 0 <= i < |m| ==> |m[i]| == cols
  }

  /** `np.amax(row)`: the largest entry of a non-empty row. */
  function RowMax(row: Row): (m: real)
    requires |row| > 0
    ensures forall j :: 0 <= j < |row| ==> row[j] <= m
    ensures exists j :: 0 <= j < |row| && row[j] == m
  {
    if |row| == 1 then row[0]
    else
      var rest := RowMax(row[1..]);
      assert forall j :: 1 <= j < |row| ==> row[j] == row[1..][j - 1];
      if row[0] >= rest then row[0] else rest
  }

  /** `np.argmax(row)`: the FIRST index holding the largest entry. */
  function ArgMax(row: Row): (k: nat)
    requires |row| > 0
    ensures k < |row|
    ensures forall j :: 0 <= j < |row| ==> row[j] <= row[k]
    ensures forall j :: 0 <= j < k ==> row[j] < row[k]
  {
    if |row| == 1 then 0
    else
      var front := row[..|row| - 1];
      var k := ArgMax(front);
      assert forall j :: 0 <= j < |row| - 1 ==> row[j] == front[j];
      if row[|row| - 1] > row[k] then |row| - 1 else k
  }

  /** The entry at the argmax is the row maximum. */
  lemma ArgMaxHoldsRowMax(row: Row)
    requires |row| > 0
    ensures row[ArgMax(row)] == RowMax(row)
  {
  }

  /** `reward + gamma * value`: a reward plus the discounted value of the next state. */
  function Discounted(reward: real, gamma: real, value: real): real
  {
    reward + gamma * value
  }

  /** With a non-negative discount, a larger next-state value gives a larger target. */
  lemma DiscountedMonotone(reward: real, gamma: real, a: real, b: real)
    requires gamma >= 0.0 && a <= b
    ensures Discounted(reward, gamma, a) <= Discounted(reward, gamma, b)
  {
    assert gamma * b - gamma * a == gamma * (b - a);
  }

  /**
    The TD target of one sample: `reward + gamma * max_a old(next, a)` for
    standard DQN, `reward + gamma * old(next, argmax_a live(next, a))` for
    double DQN.  The live row is only consulted in the double-DQN branch.
   */
  function TdTarget(reward: real, gamma: real, oldRow: Row, liveRow: Row, doubleDQN: bool): (t: real)
    requires |oldRow| > 0
    requires doubleDQN ==> |liveRow| == |oldRow|
    ensures exists j :: 0 <= j < |oldRow| && t == Discounted(reward, gamma, oldRow[j])
  {
    if doubleDQN then Discounted(reward, gamma, oldRow[ArgMax(liveRow)])
    else Discounted(reward, gamma, RowMax(oldRow))
  }

  /** With a non-negative discount, double DQN never targets above standard DQN. */
  lemma DoubleNeverAboveStandard(reward: real, gamma: real, oldRow: Row, liveRow: Row)
    requires |oldRow| > 0 && |liveRow| == |oldRow|
    requires gamma >= 0.0
    ensures TdTarget(reward, gamma, oldRow, liveRow, true) <= TdTarget(reward, gamma, oldRow, liveRow, false)
  {
    DiscountedMonotone(reward, gamma, oldRow[ArgMax(liveRow)], RowMax(oldRow));
  }

  /** When both networks predict the same row (just after a sync), the two variants agree. */
  lemma DoubleEqualsStandardWhenSynced(reward: real, gamma: real, row: Row)
    requires |row| > 0
    ensures TdTarget(reward, gamma, row, row, true) == TdTarget(reward, gamma, row, row, false)
  {
    ArgMaxHoldsRowMax(row);
  }

  /** A sampled batch: rewards, action indices and the two next-state predictions. */
  datatype Batch = Batch(rewards: seq<real>, actions: seq<nat>, oldNext: Matrix, liveNext: Matrix)

  /** The shapes numpy needs at lines 116-124 for a network with `cols` outputs. */
  predicate WellFormedBatch(b: Batch, cols: nat, doubleDQN: bool)
  {
    && cols > 0
    && |b.actions| == |b.rewards|
    && |b.oldNext| == |b.rewards|
    && Rectangular(b.oldNext, cols)
    && (doubleDQN ==> |b.liveNext| == |b.rewards| && Rectangular(b.liveNext, cols))
  }

  /** The vector `target` of the whole batch, one TD target per sample. */
  function TdTargets(b: Batch, gamma: real, doubleDQN: bool, cols: nat): (ts: seq<real>)
    requires WellFormedBatch(b, cols, doubleDQN)
    ensures |ts| == |b.rewards|
    ensures forall i :: 0 <= i < |ts| ==>
              ts[i] == TdTarget(b.rewards[i], gamma, b.oldNext[i], if doubleDQN then b.liveNext[i] else [], doubleDQN)
  {
    seq(|b.rewards|, i requires 0 <= i < |b.rewards| =>
      TdTarget(b.rewards[i], gamma, b.oldNext[i], if doubleDQN then b.liveNext[i] else [], doubleDQN))
  }

  /** Every action index of the batch addresses a column of a `cols`-wide table. */
  predicate SlotsInRange(actions: seq<nat>, cols: nat)
  {
    forall i :: 0 <= i < |actions| ==> actions[i] < cols
  }

  /**
    `target_f[range(n), actions] = target`: row i gets `targets[i]` in column
    `actions[i]` and keeps every other entry.
   */
  function SetSlots(m: Matrix, actions: seq<nat>, targets: seq<real>): (r: Matrix)
    requires |actions| == |m| && |targets| == |m|
    requires forall i :: 0 <= i < |m| ==> actions[i] < |m[i]|
    ensures |r| == |m|
    ensures forall i :: 0 <= i < |m| ==> |r[i]| == |m[i]| && r[i][actions[i]] == targets[i]
    ensures forall i, j :: 0 <= i < |m| && 0 <= j < |m[i]| && j != actions[i] ==> r[i][j] == m[i][j]
  {
    seq(|m|, i requires 0 <= i < |m| => m[i][actions[i] := targets[i]])
  }

  function Abs(x: real): real
  {
    if x < 0.0 then -x else x
  }

  /** `np.sum(np.abs(a - b))` for one row: the absolute prediction error of a sample. */
  function AbsErrorSum(a: Row, b: Row): (s: real)
    requires |a| == |b|
    ensures s >= 0.0
    ensures s == 0.0 <==> a == b
  {
    if |a| == 0 then 0.0
    else
      var rest := AbsErrorSum(a[1..], b[1..]);
      assert a == [a[0]] + a[1..] && b == [b[0]] + b[1..];
      Abs(a[0] - b[0]) + rest
  }

  /**
    The new replay priorities `mae + 1e-6`: row i's absolute error between the
    target vector and the post-fit prediction, plus the floor.
   */
  function Priorities(targetF: Matrix, post: Matrix): (ps: seq<real>)
    requires |post| == |targetF|
    requires forall i :: 0 <= i < |targetF| ==> |post[i]| == |targetF[i]|
    ensures |ps| == |targetF|
    ensures forall i :: 0 <= i < |ps| ==> ps[i] >= PRIORITY_EPS > 0.0
    ensures forall i :: 0 <= i < |ps| ==> (ps[i] == PRIORITY_EPS <==> post[i] == targetF[i])
  {
    seq(|targetF|, i requires 0 <= i < |targetF| => AbsErrorSum(targetF[i], post[i]) + PRIORITY_EPS)
  }

  /** The worked example: reward 1.0, gamma 0.75, old-network maximum 2.0 give 2.5. */
  lemma StandardTargetExample()
    ensures TdTarget(1.0, 0.75, [0.5, 2.0, -1.0], [], false) == 2.5
  {
    assert RowMax([2.0, -1.0]) == 2.0 by {
      assert [2.0, -1.0][1..] == [-1.0];
    }
    assert [0.5, 2.0, -1.0][1..] == [2.0, -1.0];
  }
}
