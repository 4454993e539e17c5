/**
  The parts of `act` that do not depend on randomness: recording the completed
  transition and the greedy choice.  State encodings are values of an abstract
  type `R` (the encoder is not part of this model); actions are values of `A`
  taken from the ordered action list.
 */
module ActionSelection {
  import opened Wrappers
  import opened QTargets

  /** A replay-buffer entry: (state, action index, reward, next state, terminal flag). */
  datatype Transition<R> = Transition(prev: R, action: nat, reward: real, next: R, terminal: int)

  /** `actions.index(a)`: the first position of `a` in the action list. */
  function IndexOf<A(==)>(actions: seq<A>, a: A): (k: nat)
    requires a in actions
    ensures k < |actions| && actions[k] == a
    ensures forall j :: 0 <= j < k ==> actions[j] != a
  {
    if actions[0] == a then 0 else 1 + IndexOf(actions[1..], a)
  }

  /** With distinct actions, the index of the action at position k is k. */
  lemma IndexOfPosition<A>(actions: seq<A>, k: nat)
    requires k < |actions|
    requires forall i, j :: 0 <= i < j < |actions| ==> actions[i] != actions[j]
    ensures IndexOf(actions, actions[k]) == k
  {
  }

  /**
    The transition `act` hands to the replay buffer: one exists exactly when
    there is a previous state; it stores the previous action as its index in
    the action list and is always marked non-terminal.
   */
  function Record<R, A(==)>(actions: seq<A>, prevRepr: Option<R>, prevAction: A, reward: real, newRepr: R)
    : (t: Option<Transition<R>>)
    requires prevRepr.Some? ==> prevAction in actions
    ensures t.Some? <==> prevRepr.Some?
    ensures t.Some? ==>
              && t.value.prev == prevRepr.value
              && t.value.next == newRepr
              && t.value.reward == reward
              && t.value.terminal == 0
              && t.value.action < |actions|
              && actions[t.value.action] == prevAction
  {
    match prevRepr
    case None => None
    case Some(p) => Some(Transition(p, IndexOf(actions, prevAction), reward, newRepr, 0))
  }

  /** `ACTIONS[np.argmax(prediction)]`: the first action of highest predicted value. */
  function GreedyAction<A>(actions: seq<A>, prediction: Row): (a: A)
    requires |prediction| == |actions| > 0
    ensures exists k :: 0 <= k < |actions| && actions[k] == a && prediction[k] == RowMax(prediction)
  {
    var k := ArgMax(prediction);
    ArgMaxHoldsRowMax(prediction);
    actions[k]
  }

  /** What `act` returns: a softmax draw, a uniform draw, or the greedy action. */
  datatype Decision<A> = SoftmaxSample | UniformExplore | Greedy(action: A)

  /**
    The branch `act` takes, given the uniform draw `coin` of `np.random.rand()`.
    The two random draws are named, not performed.
   */
  function Choose<A>(useSoftmaxSampling: bool, epsilon: real, coin: real, actions: seq<A>, prediction: Row)
    : (d: Decision<A>)
    requires |prediction| == |actions| > 0
    ensures d.UniformExplore? <==> !useSoftmaxSampling && coin < epsilon
    ensures d.SoftmaxSample? <==> useSoftmaxSampling
    ensures d.Greedy? ==> d.action == GreedyAction(actions, prediction)
  {
    if useSoftmaxSampling then SoftmaxSample
    else if coin < epsilon then UniformExplore
    else Greedy(GreedyAction(actions, prediction))
  }

  /** With sampling off and epsilon 0, every draw in [0, 1) yields the greedy action. */
  lemma NoExplorationWhenLatched<A>(coin: real, actions: seq<A>, prediction: Row)
    requires |prediction| == |actions| > 0
    requires 0.0 <= coin < 1.0
    ensures Choose(false, 0.0, coin, actions, prediction) == Greedy(GreedyAction(actions, prediction))
  {
  }
}
