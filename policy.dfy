/**
  The DQN policy with prioritized replay, as an object whose fields `learn`
  and `act` update in place.  Network inference and training, the replay
  buffer and the state encoder are outside the model: their results arrive as
  parameters (Q-value tables, the fit's outcome, encoded states).
 */
module Policy {
  import opened Wrappers
  import opened QTargets
  import opened TargetVector
  import opened ActionSelection
  import opened Bookkeeping

  /**
    The rest of the guarded training block once the targets are written:
    `fit` raised (nothing changes); `fit` returned its loss and new weights but
    the prediction after it or `update_priorities` raised (the weights and loss
    counters are kept, no priority is updated); or all of it ran and `post` is
    the post-fit prediction.
   */
  datatype FitResult =
    | FitRaised
    | FittedThenRaised(loss: real, weights: Weights)
    | Fitted(loss: real, weights: Weights, post: Matrix)

  class PriorBaseDQN {
    const gameDuration: int
    const scoreScope: int
    const gamma: real
    const doubleDQN: bool
    const epsilonDecay: real
    const minEpsilon: real
    const saveModelRound: int

    var rSum: real
    var sumOfLoss: real
    var numOfSamples: nat
    var epsilon: real
    var useSoftmaxSampling: bool
    /** Weights of the live network. */
    var model: Weights
    /** Weights of the target (old) network. */
    var oldModel: Weights

    function Cfg(): Config
    {
      Config(gameDuration, scoreScope, gamma, epsilonDecay, minEpsilon, saveModelRound, doubleDQN)
    }

    function State(): PolicyState
      reads this
    {
      PolicyState(Window(rSum, sumOfLoss, numOfSamples), epsilon, useSoftmaxSampling, model, oldModel)
    }

    /** The fixed hyperparameters are sane, and sampling is only off together with a zero epsilon. */
    ghost predicate Valid()
      reads this
    {
      ValidConfig(Cfg()) && (!useSoftmaxSampling ==> epsilon == 0.0)
    }

    /**
      `cast_string_args` followed by `init_run`: epsilon and gamma come from the
      arguments or their defaults, the other hyperparameters are fixed, the
      window is empty and the target network is synced from the new live one.
     */
    constructor (epsilonArg: Option<real>, gammaArg: Option<real>, gameDuration: int, scoreScope: int,
                 doubleDQN: bool, initialWeights: Weights)
      ensures Valid()
      ensures Cfg() == Config(gameDuration, scoreScope, ArgOrDefault(gammaArg, GAMMA_DEFAULT),
                              EPSILON_DECAY, MIN_EPSILON, SAVE_MODEL_ROUND, doubleDQN)
      ensures State() == InitialState(ArgOrDefault(epsilonArg, EPSILON_DEFAULT), initialWeights)
    {
      this.gameDuration := gameDuration;
      this.scoreScope := scoreScope;
      this.gamma := ArgOrDefault(gammaArg, GAMMA_DEFAULT);
      this.doubleDQN := doubleDQN;
      this.epsilonDecay := EPSILON_DECAY;
      this.minEpsilon := MIN_EPSILON;
      this.saveModelRound := SAVE_MODEL_ROUND;
      epsilon := ArgOrDefault(epsilonArg, EPSILON_DEFAULT);
      useSoftmaxSampling := true;
      rSum := 0.0;
      model := initialWeights;
      oldModel := [];
      numOfSamples := 0;
      sumOfLoss := 0.0;
      new;
      SaveModel();
    }

    /** `_save_model`: the target network becomes a copy of the live one. */
    method SaveModel()
      modifies this
      ensures oldModel == model
      ensures State() == old(State()).(oldModel := old(model))
    {
      oldModel := model;
    }

    /**
      One `learn` call.  `targetF` holds the live network's prediction for the
      batch's previous states and is overwritten in place; `fit` is what
      training would produce.  The returned priorities are those handed to
      `update_priorities`, absent when the guarded training step raised.
     */
    method Learn(round: int, reward: real, batch: Batch, targetF: array2<real>, fit: FitResult)
      returns (synced: bool, priorities: Option<seq<real>>)
      requires Valid()
      requires WellFormedBatch(batch, targetF.Length1, doubleDQN) && targetF.Length0 == |batch.rewards|
      requires fit.Fitted? ==> |fit.post| == targetF.Length0 && Rectangular(fit.post, targetF.Length1)
      modifies this, targetF
      ensures Valid()
      ensures var trained := SlotsInRange(batch.actions, targetF.Length1) && !fit.FitRaised?;
              State() == LearnStep(Cfg(), old(State()), round, reward,
                                   if trained then Trained(fit.loss, fit.weights) else TrainFailed)
      ensures synced == SyncDue(round, saveModelRound)
      ensures var targets := TdTargets(batch, gamma, doubleDQN, targetF.Length1);
              Rows(targetF) == if SlotsInRange(batch.actions, targetF.Length1)
                               then SetSlots(old(Rows(targetF)), batch.actions, targets)
                               else old(Rows(targetF))
      ensures priorities == if SlotsInRange(batch.actions, targetF.Length1) && fit.Fitted?
                            then Some(Priorities(Rows(targetF), fit.post))
                            else None
    {
      UpdateWindow(round, reward);
      priorities := TrainStep(batch, targetF, fit);
      synced := round % saveModelRound == 0 && round > 0;
      if synced {
        SaveModel();
      }
      DecayEpsilon(round);
    }

    /** Lines 97-112: the reward/loss window, with its division error caught. */
    method UpdateWindow(round: int, reward: real)
      modifies this
      ensures State() == old(State()).(window := WindowOrUnchanged(old(State()).window, round, reward,
                                                                   InMoneyTime(Cfg(), round)))
    {
      if round % WINDOW_LENGTH == 0 {
        if round > gameDuration - scoreScope {
          rSum := 0.0;
        } else if numOfSamples == 0 {
          // sum_of_loss / num_of_samples raises; the handler leaves every field as it was
        } else {
          numOfSamples, sumOfLoss := 0, 0.0;
          rSum := 0.0;
        }
      } else {
        rSum := rSum + reward;
      }
    }

    /**
      Lines 116-132: TD targets, the slot overwrite, the fit and the new
      priorities; a raise anywhere in the guarded block skips the rest of it.
     */
    method TrainStep(batch: Batch, targetF: array2<real>, fit: FitResult) returns (priorities: Option<seq<real>>)
      requires WellFormedBatch(batch, targetF.Length1, doubleDQN) && targetF.Length0 == |batch.rewards|
      requires fit.Fitted? ==> |fit.post| == targetF.Length0 && Rectangular(fit.post, targetF.Length1)
      modifies this, targetF
      ensures var trained := SlotsInRange(batch.actions, targetF.Length1) && !fit.FitRaised?;
              State() == if trained
                         then old(State()).(window := old(State()).window.(sumOfLoss := old(sumOfLoss) + fit.loss,
                                                                          numOfSamples := old(numOfSamples) + 1),
                                            model := fit.weights)
                         else old(State())
      ensures var targets := TdTargets(batch, gamma, doubleDQN, targetF.Length1);
              Rows(targetF) == if SlotsInRange(batch.actions, targetF.Length1)
                               then SetSlots(old(Rows(targetF)), batch.actions, targets)
                               else old(Rows(targetF))
      ensures priorities == if SlotsInRange(batch.actions, targetF.Length1) && fit.Fitted?
                            then Some(Priorities(Rows(targetF), fit.post))
                            else None
    {
      var targets := TdTargets(batch, gamma, doubleDQN, targetF.Length1);
      var written := WriteTargets(targetF, batch.actions, targets);
      priorities := None;
      if written && !fit.FitRaised? {
        model := fit.weights;
        sumOfLoss := sumOfLoss + fit.loss;
        numOfSamples := numOfSamples + 1;
        if fit.Fitted? {
          priorities := Some(Priorities(Rows(targetF), fit.post));
        }
      }
    }

    /** Lines 138-139: epsilon decay every 200 rounds, floored at the minimum. */
    method DecayEpsilon(round: int)
      modifies this
      ensures State() == old(State()).(epsilon := DecayedEpsilon(round, old(epsilon), epsilonDecay, minEpsilon))
    {
      if round % DECAY_PERIOD == 0 && round > 0 && epsilon > 0.0 {
        epsilon := Max(epsilon * epsilonDecay, minEpsilon);
      }
    }

    /** The start of `act`: in money time sampling is switched off and epsilon zeroed. */
    method ActPrologue(round: int)
      requires Valid()
      modifies this
      ensures Valid()
      ensures State() == ActPrologueStep(Cfg(), old(State()), round)
    {
      if round > gameDuration - scoreScope {
        useSoftmaxSampling := false;
        epsilon := 0.0;
      }
    }

    /**
      One `act` call: the prologue, the transition handed to the replay
      buffer, and the decision.  `coin` is the draw of `np.random.rand()` and
      `prediction` the live network's Q-values for the new state.
     */
    method Act<R, A(==)>(round: int, prevRepr: Option<R>, prevAction: A, reward: real, newRepr: R,
                         actions: seq<A>, coin: real, prediction: Row)
      returns (decision: Decision<A>, recorded: Option<Transition<R>>)
      requires Valid()
      requires prevRepr.Some? ==> prevAction in actions
      requires |prediction| == |actions| > 0
      modifies this
      ensures Valid()
      ensures State() == ActPrologueStep(Cfg(), old(State()), round)
      ensures recorded == Record(actions, prevRepr, prevAction, reward, newRepr)
      ensures decision == Choose(useSoftmaxSampling, epsilon, coin, actions, prediction)
      ensures InMoneyTime(Cfg(), round) && 0.0 <= coin ==> decision == Greedy(GreedyAction(actions, prediction))
    {
      ActPrologue(round);
      recorded := Record(actions, prevRepr, prevAction, reward, newRepr);
      decision := Choose(useSoftmaxSampling, epsilon, coin, actions, prediction);
    }
  }
}
