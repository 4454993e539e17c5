# PriorBaseDQN: the bookkeeping and target construction of a prioritized-replay DQN policy

This project models the core of `PriorBaseDQN`, the base class of the SnakeRL agent's Deep-Q-Network
policies with a prioritized replay buffer. The model covers:

- **The per-round state machine of `learn` and of the start of `act`.** This is the 100-round reward/loss
  window, including the caught division by zero; the hard sync of the target network every
  `save_model_round` rounds; epsilon decay every 200 rounds, floored at `min_epsilon`; and the one-way
  "money-time" latch that switches exploration off in the last `score_scope` rounds.
- **The TD targets of a sampled batch.** Standard DQN uses the target network's row maximum. Double DQN
  uses the target network's value at the live network's first argmax. The targets are written into a copy
  of the live prediction, one slot per row, in place on a 2-D array. The new replay priorities are
  `mae + 1e-6`.
- **The deterministic part of acting.** A transition is recorded only when there is a previous state. It
  always has terminal flag 0 and stores the action's index in the action list. The greedy action is the
  action at the argmax of the prediction.

The neural networks are abstracted as the Q-value tables they predict. Their weights are an abstract
`seq<real>`. Epsilon, gamma, rewards, losses and Q-values are Dafny `real`s, an exact abstraction of the
floats.

Module layout:

- `Wrappers` holds `Option` and `Result`.
- `QTargets` holds the pure TD-target and priority functions.
- `TargetVector` holds the in-place slot overwrite on an `array2<real>`.
- `ActionSelection` holds transition recording, the greedy pick and the branch `act` takes.
- `Bookkeeping` holds the per-round state as pure step functions, plus lemmas over arbitrary runs of
  `learn`/`act` calls.
- `Policy` holds the class `PriorBaseDQN`, whose methods update its fields in place and are proved to do
  exactly what the `Bookkeeping` step functions say.

Modelling notes:

- Python's `%` floors and Dafny's is Euclidean. Every divisor here (100, 200, `save_model_round` = 250)
  is positive, so both agree for every round.
- At line 103, `sum_of_loss` is still the Python integer 0 whenever `num_of_samples` is 0. The two are
  reset together (line 104) and grown together (lines 127-128). So the division raises
  `ZeroDivisionError` rather than giving a numpy infinity. The handler runs before line 107, so
  `r_sum` is then **not** reset either. The next window's sum therefore also holds the rewards of the
  window before it.
- Epsilon is neither floored at `min_epsilon` for the whole run nor non-increasing in general:
  - money time sets epsilon to 0 (line 145);
  - an initial epsilon below `min_epsilon` is *raised* to the floor by the first decay (line 139; see
    `BelowFloorIsRaised`).

  What does hold is `EpsilonNeverRises`: from a state whose epsilon is 0 or at least the floor, no run
  raises it.
- At a 100-round boundary, that round's reward is discarded. Line 107 resets the sum instead of adding
  to it.
- `fit` is called with `epochs=1`, so `len(hist.history['loss'])` is 1. A successful fit adds its loss
  to `sum_of_loss` and 1 to `num_of_samples`.
- Inputs the model receives as parameters:
  - `Batch` is what `memory.sample` returned, together with the two networks' predictions for the next
    states;
  - `targetF` is `model.predict(prev)`;
  - `FitResult` says how far the guarded block got: `fit` raised (`FitRaised`), `fit` returned but the
    post-fit `predict` or `update_priorities` raised (`FittedThenRaised`, whose weights and loss are still
    kept, lines 127-128), or the block ran to the end (`Fitted`, with the post-fit prediction);
  - `coin` is the draw of `np.random.rand()`;
  - `prediction` is `model.predict(new_state_repr)[0]`;
  - encoded states are values of an abstract type.

## Model

| member | source | states |
|---|---|---|
| QTargets.RowMax | policies/policy_PriorityBaseDQN.py:120 | the result is at least every entry of the row and equals one of them |
| QTargets.ArgMax | policies/policy_PriorityBaseDQN.py:117-118 | the result is an index of a maximal entry and every earlier entry is strictly smaller (numpy's first argmax) |
| QTargets.ArgMaxHoldsRowMax | policies/policy_PriorityBaseDQN.py:117-120 | the entry at the argmax is the row maximum |
| QTargets.TdTarget | policies/policy_PriorityBaseDQN.py:116-120 | in both variants the target is the reward plus gamma times the target network's value of some action |
| QTargets.DiscountedMonotone | policies/policy_PriorityBaseDQN.py:117-120 | with gamma >= 0, a larger next-state value gives a larger target |
| QTargets.DoubleNeverAboveStandard | policies/policy_PriorityBaseDQN.py:116-120 | with gamma >= 0, the double-DQN target never exceeds the standard one (the overestimation double DQN avoids) |
| QTargets.DoubleEqualsStandardWhenSynced | policies/policy_PriorityBaseDQN.py:116-120 | when live and target network predict the same row, both variants give the same target |
| QTargets.TdTargets | policies/policy_PriorityBaseDQN.py:116-120 | the target vector has one entry per sample, each that sample's TD target |
| QTargets.SetSlots | policies/policy_PriorityBaseDQN.py:121-124 | row i gets targets[i] at column actions[i] and keeps every other entry and its length |
| QTargets.AbsErrorSum | policies/policy_PriorityBaseDQN.py:130 | the summed absolute error is non-negative, and zero exactly when the rows are equal |
| QTargets.Priorities | policies/policy_PriorityBaseDQN.py:130-132 | one priority per sample, each at least 1e-6 and so strictly positive, and equal to 1e-6 exactly when the post-fit prediction matches the target vector |
| QTargets.StandardTargetExample | policies/policy_PriorityBaseDQN.py:120 | reward 1.0, gamma 0.75 and a target-network maximum of 2.0 give the target 2.5 |
| TargetVector.WriteTargets | policies/policy_PriorityBaseDQN.py:121-124 | an action index outside the table leaves the array unchanged and reports failure; otherwise the array becomes SetSlots of its old contents, so exactly one slot per row changes |
| ActionSelection.IndexOf | policies/policy_PriorityBaseDQN.py:151 | the result is the first position holding the action |
| ActionSelection.IndexOfPosition | policies/policy_PriorityBaseDQN.py:151 | with distinct actions, the index of the action at position k is k (index and lookup are inverse) |
| ActionSelection.Record | policies/policy_PriorityBaseDQN.py:149-151 | a transition is recorded iff there is a previous state; it holds both states and the reward, terminal flag 0, and an action index that looks up to the previous action |
| ActionSelection.GreedyAction | policies/policy_PriorityBaseDQN.py:160-161 | the greedy action sits at a position whose prediction is the row maximum |
| ActionSelection.Choose | policies/policy_PriorityBaseDQN.py:153-162 | softmax sampling iff sampling is on; uniform exploration iff sampling is off and the draw is below epsilon; otherwise the greedy action |
| ActionSelection.NoExplorationWhenLatched | policies/policy_PriorityBaseDQN.py:142-145 | with sampling off and epsilon 0, every draw in [0, 1) gives the greedy action |
| Bookkeeping.WindowAfter | policies/policy_PriorityBaseDQN.py:97-109 | raises iff at a non-money-time 100-round boundary with no samples; off a boundary r_sum grows by exactly the reward and nothing else changes; at a boundary that does not raise r_sum becomes 0; the loss counters change only at a non-money-time boundary, where they become 0 |
| Bookkeeping.WindowOrUnchanged | policies/policy_PriorityBaseDQN.py:110-112 | a raised division leaves r_sum, sum_of_loss and num_of_samples all as they were |
| Bookkeeping.DecayedEpsilon | policies/policy_PriorityBaseDQN.py:138-139 | epsilon changes only when round % 200 == 0, round > 0 and epsilon > 0, and then becomes max(epsilon * decay, min_epsilon); starting at or above the floor it stays between the floor and its old value |
| Bookkeeping.LearnStep | policies/policy_PriorityBaseDQN.py:96-139 | a learn call leaves the sampling flag alone, replaces the live weights only after a successful fit, syncs the target network from the live one exactly when round % save_model_round == 0 and round > 0 and otherwise keeps it, decays epsilon as DecayedEpsilon, and adds a successful fit's loss and one sample to the window after the caught window update |
| Bookkeeping.ActPrologueStep | policies/policy_PriorityBaseDQN.py:142-145 | in money time sampling is off and epsilon is 0; otherwise nothing changes; nothing else ever changes; the flag never goes from false to true |
| Bookkeeping.InitialState | policies/policy_PriorityBaseDQN.py:61-94 | after init the window is empty, sampling is on, and the target network equals the live one; its runs are described by InitialEpsilonBounded and InitialTargetUntilSync |
| Bookkeeping.InitialEpsilonBounded | policies/policy_PriorityBaseDQN.py:33-39 | for any epsilon at or above the floor (the default 2.0 among them), every run from the initial state keeps epsilon 0 or at least 0.33 and never above its starting value |
| Bookkeeping.InitialTargetUntilSync | policies/policy_PriorityBaseDQN.py:87-88 | from the initial state, the target network stays the initial weights through any run that has no learn call on a sync round |
| Bookkeeping.LatchIsPermanent | policies/policy_PriorityBaseDQN.py:138-145 | once sampling is off and epsilon is 0, every later sequence of learn and act calls keeps it so |
| Bookkeeping.MoneyTimeLatchesForGood | policies/policy_PriorityBaseDQN.py:142-145 | an act call in money time switches exploration off whatever calls follow |
| Bookkeeping.EpsilonNeverRises | policies/policy_PriorityBaseDQN.py:138-145 | from a state with epsilon 0 or at least min_epsilon, every run keeps that and never raises epsilon |
| Bookkeeping.TargetChangesOnlyAtSync | policies/policy_PriorityBaseDQN.py:136-137 | if a run changes the target network, one of its learn calls fell on a sync round |
| Bookkeeping.MoneyTimeKeepsLossWindow | policies/policy_PriorityBaseDQN.py:99-104 | if every learn call of a run is in money time, num_of_samples never shrinks (the loss counters are never reset) |
| Bookkeeping.DecayClosedForm | policies/policy_PriorityBaseDQN.py:138-139 | after n >= 1 decay rounds, epsilon is max(epsilon0 * decay^n, min_epsilon) |
| Bookkeeping.TenDecaysExample | policies/policy_PriorityBaseDQN.py:138-139 | epsilon 2.0, decay 0.9 and floor 0.33 give exactly 0.6973568802 after ten decay rounds |
| Bookkeeping.BelowFloorIsRaised | policies/policy_PriorityBaseDQN.py:139 | a positive epsilon below min_epsilon is raised to min_epsilon by a decay round |
| Policy.PriorBaseDQN.constructor | policies/policy_PriorityBaseDQN.py:32-94 | epsilon and gamma come from the arguments or the defaults 2.0 and 0.75; decay 0.90, floor 0.33 and sync period 250 are fixed; the state is InitialState, with the target network synced from the live one |
| Policy.PriorBaseDQN.SaveModel | policies/policy_PriorityBaseDQN.py:58-59 | the target network's weights become the live network's, and nothing else changes |
| Policy.PriorBaseDQN.Learn | policies/policy_PriorityBaseDQN.py:96-139 | the new state is LearnStep of the old one, counting the fit whenever the slot overwrite succeeded and `fit` returned, even if the post-fit prediction or the priority update then raised; sync is reported exactly on sync rounds; the target array is overwritten as WriteTargets; the priorities handed back are Priorities of the target vector and the post-fit prediction, or none when any step of the guarded block raised |
| Policy.PriorBaseDQN.UpdateWindow | policies/policy_PriorityBaseDQN.py:97-112 | the window fields become WindowOrUnchanged of their old values, and nothing else changes |
| Policy.PriorBaseDQN.TrainStep | policies/policy_PriorityBaseDQN.py:114-134 | a raise in the slot overwrite or in `fit` leaves every field unchanged; once `fit` has returned, its weights become the live model and its loss and one sample enter the window even if the post-fit prediction or the priority update then raises; priorities are handed back only when the whole block ran |
| Policy.PriorBaseDQN.DecayEpsilon | policies/policy_PriorityBaseDQN.py:138-139 | epsilon becomes DecayedEpsilon of its old value, and nothing else changes |
| Policy.PriorBaseDQN.ActPrologue | policies/policy_PriorityBaseDQN.py:141-145 | the new state is ActPrologueStep of the old one, and the invariant "sampling off implies epsilon 0" is kept |
| Policy.PriorBaseDQN.Act | policies/policy_PriorityBaseDQN.py:141-162 | the prologue, then the recorded transition is Record and the decision is Choose on the new state; in money time every draw in [0, 1) gives the greedy action |

## Left out

- Keras: model creation, `summary`, `compile`, `fit`, `predict`, `clone_model`, the Adam optimizer and
  the huber/mse loss (lines 76-88, 125-130). These are foreign library calls. Their results are
  parameters: Q tables, `FitResult`, and weights as an abstract `seq<real>`. A `fit` that raises is
  assumed to leave the live weights unchanged.
- The `PrioritizedReplayBuffer` internals (lines 90, 114, 132, 151): ring eviction, priority^alpha
  sampling and importance weights. `utils/replay_buffer.py` is not part of this model. `sample`
  becomes the `Batch` parameter. `add` and `update_priorities` become the returned transition and
  priorities. The `done` flags that `sample` returns are ignored by the source, and so by the model.
- The state encoders `SquareAroundHeadState`, `DiamondAroundHeadState` and `RadarState` (lines 65-74).
  These are external modules. Encoded states are values of an abstract type.
- Softmax sampling and the uniform random choice (lines 153-158). These are randomised and use floats.
  `Choose` names which draw is made but does not perform it.
- Logging and `print(e)` (lines 62, 91, 100-106, 111-112, 134), including the logged mean loss
  `total_loss`. This is I/O.
- `_additional_args` overrides by subclasses (line 54): decay, floor and sync period are the constants of
  lines 38-51. `doubleDQN` is a constructor parameter. The other fixed settings (learning rate, batch
  size, radius, representation, `huber_loss`, `step_forward`, `flatten`) only feed the left-out parts.
- The abstract `_build_model` and `_additional_args` (lines 164-170). These have no body in the source.
  The live network's initial weights are a constructor parameter.
- IEEE float rounding. Reals are exact, so `TenDecaysExample` gives 0.6973568802 exactly.
- Uncaught failures (lines 114-121, 151) are excluded by preconditions rather than modelled. These are
  shape mismatches outside the guarded block, and a previous action missing from the action list, which
  raises `ValueError` in `index`. The source does not handle them: they end the run.
- Policy.PriorBaseDQN.Learn: its batch-shape preconditions (`|actions| == |rewards| == targetF.Length0`,
  one next-state row per sample, rows of the targets' width) also exclude a length mismatch between
  `actions` and `target` at line 124. The source would catch that one inside the guarded block. Numpy's
  broadcasting and fancy-index rules for mismatched lengths are not modelled.
