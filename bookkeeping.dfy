/**
  The per-round bookkeeping of the policy as pure functions of its state:
  the 100-round reward/loss window, the target-network sync cadence, epsilon
  decay and the money-time latch.  The policy class in module Policy is proved
  to update its fields exactly as these functions say.
 */
module Bookkeeping {
  import opened Wrappers

  /** Network weights, abstracted as a sequence of parameters. */
  type Weights = seq<real>

  const EPSILON_DEFAULT: real := 2.0
  const GAMMA_DEFAULT: real := 0.75
  const EPSILON_DECAY: real := 0.90
  const MIN_EPSILON: real := 0.33
  const SAVE_MODEL_ROUND: int := 250
  /** Length of the reward/loss logging window, in rounds. */
  const WINDOW_LENGTH: int := 100
  /** Epsilon decays once every this many rounds. */
  const DECAY_PERIOD: int := 200

  /** The hyperparameters fixed when the run starts. */
  datatype Config = Config(
    gameDuration: int,
    scoreScope: int,
    gamma: real,
    epsilonDecay: real,
    minEpsilon: real,
    saveModelRound: int,
    doubleDQN: bool)

  predicate ValidConfig(c: Config)
  {
    c.saveModelRound > 0 && 0.0 < c.minEpsilon && 0.0 <= c.epsilonDecay <= 1.0
  }

  /** The running statistics `r_sum`, `sum_of_loss` and `num_of_samples`. */
  datatype Window = Window(rSum: real, sumOfLoss: real, numOfSamples: nat)

  /** The mutable part of the policy. */
  datatype PolicyState = PolicyState(
    window: Window,
    epsilon: real,
    useSoftmaxSampling: bool,
    model: Weights,
    oldModel: Weights)

  /** What the training step of one `learn` call produced. */
  datatype TrainOutcome = TrainFailed | Trained(loss: real, weights: Weights)

  /** The exception the window update can raise (and `learn` catches). */
  datatype WindowError = ZeroDivision

  /** The final `score_scope` rounds of the game count towards the score. */
  predicate InMoneyTime(c: Config, round: int)
  {
    round > c.gameDuration - c.scoreScope
  }

  /**
    The window update at the start of `learn`.  At a 100-round boundary the
    reward of that round is not added: the sum is logged and reset.  Outside
    money time the mean loss `sum_of_loss / num_of_samples` is also computed
    and the loss counters reset; with no samples that division raises, and
    since the exception is caught before any field is written, nothing changes.
   */
  function WindowAfter(w: Window, round: int, reward: real, moneyTime: bool): (r: Result<Window, WindowError>)
    ensures r.Err? <==> round % WINDOW_LENGTH == 0 && !moneyTime && w.numOfSamples == 0
    ensures round % WINDOW_LENGTH != 0 ==> r == Ok(w.(rSum := w.rSum + reward))
    ensures round % WINDOW_LENGTH == 0 && r.Ok? ==> r.value.rSum == 0.0
    ensures r.Ok? && (r.value.sumOfLoss != w.sumOfLoss || r.value.numOfSamples != w.numOfSamples) ==>
              round % WINDOW_LENGTH == 0 && !moneyTime
    ensures round % WINDOW_LENGTH == 0 && !moneyTime && r.Ok? ==>
              r.value.sumOfLoss == 0.0 && r.value.numOfSamples == 0
  {
    if round % WINDOW_LENGTH != 0 then Ok(w.(rSum := w.rSum + reward))
    else if moneyTime then Ok(w.(rSum := 0.0))
    else if w.numOfSamples == 0 then Err(ZeroDivision)
    else Ok(Window(0.0, 0.0, 0))
  }

  /** The window after `learn` catches any exception of the update. */
  function WindowOrUnchanged(w: Window, round: int, reward: real, moneyTime: bool): (r: Window)
    ensures WindowAfter(w, round, reward, moneyTime).Err? ==> r == w
    ensures WindowAfter(w, round, reward, moneyTime).Ok? ==> r == WindowAfter(w, round, reward, moneyTime).value
  {
    match WindowAfter(w, round, reward, moneyTime)
    case Ok(w') => w'
    case Err(_) => w
  }

  /** The target network is overwritten from the live one at these rounds. */
  predicate SyncDue(round: int, saveModelRound: int)
    requires saveModelRound > 0
  {
    round % saveModelRound == 0 && round > 0
  }

  function Max(a: real, b: real): (m: real)
    ensures m >= a && m >= b && (m == a || m == b)
  {
    if a >= b then a else b
  }

  /** `max(value * factor, floor)`. */
  function Floored(value: real, factor: real, floor: real): real
  {
    Max(value * factor, floor)
  }

  /**
    Epsilon after the decay step of `learn`: every 200 rounds after round 0,
    while epsilon is positive, it is multiplied by the decay and floored at the
    minimum; otherwise it is left alone.
   */
  function DecayedEpsilon(round: int, epsilon: real, decay: real, minEpsilon: real): (e: real)
    ensures e != epsilon ==> round % DECAY_PERIOD == 0 && round > 0 && epsilon > 0.0
    ensures round % DECAY_PERIOD == 0 && round > 0 && epsilon > 0.0 ==> e == Floored(epsilon, decay, minEpsilon)
    ensures 0.0 <= decay <= 1.0 && minEpsilon <= epsilon ==> minEpsilon <= e <= epsilon
  {
    if round % DECAY_PERIOD == 0 && round > 0 && epsilon > 0.0 then
      // the split only supplies the bound of the third postcondition
      if 0.0 <= decay <= 1.0 then
        ScaleAtMost(epsilon, decay);
        Floored(epsilon, decay, minEpsilon)
      else Floored(epsilon, decay, minEpsilon)
    else epsilon
  }

  /** Scaling a non-negative value by a factor of at most 1 does not enlarge it. */
  lemma ScaleAtMost(a: real, d: real)
    requires a >= 0.0 && 0.0 <= d <= 1.0
    ensures 0.0 <= a * d <= a
  {
    assert a - a * d == a * (1.0 - d);
  }

  /**
    A whole `learn` call: window update, training outcome (the loss enters the
    window and the fitted weights become the live model), target sync, decay.
   */
  function LearnStep(c: Config, s: PolicyState, round: int, reward: real, train: TrainOutcome): (r: PolicyState)
    requires c.saveModelRound > 0
    ensures r.useSoftmaxSampling == s.useSoftmaxSampling
    ensures r.model == (if train.Trained? then train.weights else s.model)
    ensures SyncDue(round, c.saveModelRound) ==> r.oldModel == r.model
    ensures !SyncDue(round, c.saveModelRound) ==> r.oldModel == s.oldModel
    ensures r.epsilon == DecayedEpsilon(round, s.epsilon, c.epsilonDecay, c.minEpsilon)
    ensures var w := WindowOrUnchanged(s.window, round, reward, InMoneyTime(c, round));
            r.window == if train.Trained? then w.(sumOfLoss := w.sumOfLoss + train.loss, numOfSamples := w.numOfSamples + 1)
                        else w
  {
    var w := WindowOrUnchanged(s.window, round, reward, InMoneyTime(c, round));
    var (w', m) := match train
      case Trained(loss, weights) => (w.(sumOfLoss := w.sumOfLoss + loss, numOfSamples := w.numOfSamples + 1), weights)
      case TrainFailed => (w, s.model);
    PolicyState(
      w',
      DecayedEpsilon(round, s.epsilon, c.epsilonDecay, c.minEpsilon),
      s.useSoftmaxSampling,
      m,
      if SyncDue(round, c.saveModelRound) then m else s.oldModel)
  }

  /**
    The start of `act`: in money time exploration is switched off for good,
    sampling disabled and epsilon set to 0; otherwise nothing changes.
   */
  function ActPrologueStep(c: Config, s: PolicyState, round: int): (r: PolicyState)
    ensures InMoneyTime(c, round) ==> !r.useSoftmaxSampling && r.epsilon == 0.0
    ensures !InMoneyTime(c, round) ==> r == s
    ensures r.window == s.window && r.model == s.model && r.oldModel == s.oldModel
    ensures r.useSoftmaxSampling ==> s.useSoftmaxSampling
  {
    if InMoneyTime(c, round) then s.(useSoftmaxSampling := false, epsilon := 0.0) else s
  }

  /** The state right after `init_run`: empty window, target synced from the live network. */
  function InitialState(epsilon: real, weights: Weights): (s: PolicyState)
    ensures s.window == Window(0.0, 0.0, 0) && s.useSoftmaxSampling && s.epsilon == epsilon
    ensures s.oldModel == s.model == weights
  {
    PolicyState(Window(0.0, 0.0, 0), epsilon, true, weights, weights)
  }

  /** A command-line argument, or its default when absent. */
  function ArgOrDefault(arg: Option<real>, default: real): real
  {
    match arg
    case Some(x) => x
    case None => default
  }

  // ---------------------------------------------------------------------
  // Runs: what holds over any sequence of `learn` and `act` calls.
  // ---------------------------------------------------------------------

  /** One call into the policy. */
  datatype Event = LearnEvent(round: int, reward: real, train: TrainOutcome) | ActEvent(round: int)

  function Apply(c: Config, s: PolicyState, e: Event): PolicyState
    requires c.saveModelRound > 0
  {
    match e
    case LearnEvent(round, reward, train) => LearnStep(c, s, round, reward, train)
    case ActEvent(round) => ActPrologueStep(c, s, round)
  }

  function Run(c: Config, s: PolicyState, events: seq<Event>): PolicyState
    requires c.saveModelRound > 0
    decreases |events|
  {
    if events == [] then s else Run(c, Apply(c, s, events[0]), events[1..])
  }

  /** Exploration is off: sampling disabled and epsilon zero. */
  predicate Latched(s: PolicyState)
  {
    !s.useSoftmaxSampling && s.epsilon == 0.0
  }

  /** Once money time has switched exploration off, no later call switches it back on. */
  lemma {:induction false} LatchIsPermanent(c: Config, s: PolicyState, events: seq<Event>)
    requires c.saveModelRound > 0
    requires Latched(s)
    ensures Latched(Run(c, s, events))
    decreases |events|
  {
    if events != [] {
      var s' := Apply(c, s, events[0]);
      assert Latched(s');
      LatchIsPermanent(c, s', events[1..]);
    }
  }

  /** Any act call in money time latches, whatever happens afterwards. */
  lemma MoneyTimeLatchesForGood(c: Config, s: PolicyState, round: int, later: seq<Event>)
    requires c.saveModelRound > 0
    requires InMoneyTime(c, round)
    ensures Latched(Run(c, s, [ActEvent(round)] + later))
  {
    var s' := ActPrologueStep(c, s, round);
    assert ([ActEvent(round)] + later)[1..] == later;
    LatchIsPermanent(c, s', later);
  }

  /** Epsilon is zero (money time) or at least the floor. */
  predicate EpsilonFloored(c: Config, s: PolicyState)
  {
    s.epsilon == 0.0 || c.minEpsilon <= s.epsilon
  }

  /**
    From a state whose epsilon is zero or at least the floor, every run keeps
    it so and never raises epsilon.
   */
  lemma {:induction false} EpsilonNeverRises(c: Config, s: PolicyState, events: seq<Event>)
    requires ValidConfig(c)
    requires EpsilonFloored(c, s)
    ensures EpsilonFloored(c, Run(c, s, events))
    ensures Run(c, s, events).epsilon <= s.epsilon
    decreases |events|
  {
    if events != [] {
      var s' := Apply(c, s, events[0]);
      assert EpsilonFloored(c, s') && s'.epsilon <= s.epsilon;
      EpsilonNeverRises(c, s', events[1..]);
    }
  }

  /** Some `learn` call of the run falls on a sync round. */
  predicate SyncsIn(c: Config, events: seq<Event>)
    requires c.saveModelRound > 0
  {
    exists i :: 0 <= i < |events| && events[i].LearnEvent? && SyncDue(events[i].round, c.saveModelRound)
  }

  /** The target network changes only through a `learn` call at a sync round. */
  lemma {:induction false} TargetChangesOnlyAtSync(c: Config, s: PolicyState, events: seq<Event>)
    requires c.saveModelRound > 0
    ensures Run(c, s, events).oldModel != s.oldModel ==> SyncsIn(c, events)
    decreases |events|
  {
    if events != [] {
      var s' := Apply(c, s, events[0]);
      TargetChangesOnlyAtSync(c, s', events[1..]);
      if Run(c, s, events).oldModel != s.oldModel && !(events[0].LearnEvent? && SyncDue(events[0].round, c.saveModelRound)) {
        assert s'.oldModel == s.oldModel;
        var i :| 0 <= i < |events[1..]| && events[1..][i].LearnEvent? && SyncDue(events[1..][i].round, c.saveModelRound);
        assert events[i + 1] == events[1..][i];
      }
    }
  }

  /**
    From the state `init_run` leaves, with a starting epsilon at or above the
    floor (the default 2.0 is), every run keeps epsilon zero or floored and
    never above its starting value.
   */
  lemma InitialEpsilonBounded(c: Config, epsilon: real, weights: Weights, events: seq<Event>)
    requires ValidConfig(c) && c.minEpsilon <= epsilon
    ensures EpsilonFloored(c, Run(c, InitialState(epsilon, weights), events))
    ensures Run(c, InitialState(epsilon, weights), events).epsilon <= epsilon
  {
    EpsilonNeverRises(c, InitialState(epsilon, weights), events);
  }

  /** Until a `learn` call falls on a sync round, the target network keeps the initial weights. */
  lemma InitialTargetUntilSync(c: Config, epsilon: real, weights: Weights, events: seq<Event>)
    requires c.saveModelRound > 0
    requires !SyncsIn(c, events)
    ensures Run(c, InitialState(epsilon, weights), events).oldModel == weights
  {
    TargetChangesOnlyAtSync(c, InitialState(epsilon, weights), events);
  }

  /** Every `learn` call of the run is in money time. */
  predicate AllInMoneyTime(c: Config, events: seq<Event>)
  {
    forall i :: 0 <= i < |events| && events[i].LearnEvent? ==> InMoneyTime(c, events[i].round)
  }

  /** In money time the loss counters are never reset: the sample count only grows. */
  lemma {:induction false} MoneyTimeKeepsLossWindow(c: Config, s: PolicyState, events: seq<Event>)
    requires c.saveModelRound > 0
    requires AllInMoneyTime(c, events)
    ensures Run(c, s, events).window.numOfSamples >= s.window.numOfSamples
    decreases |events|
  {
    if events != [] {
      var s' := Apply(c, s, events[0]);
      assert s'.window.numOfSamples >= s.window.numOfSamples;
      assert AllInMoneyTime(c, events[1..]) by {
        forall i | 0 <= i < |events[1..]| && events[1..][i].LearnEvent?
          ensures InMoneyTime(c, events[1..][i].round)
        {
          assert events[1..][i] == events[i + 1];
        }
      }
      MoneyTimeKeepsLossWindow(c, s', events[1..]);
    }
  }

  // ---------------------------------------------------------------------
  // Epsilon after n decay events.
  // ---------------------------------------------------------------------

  function Pow(x: real, n: nat): real
  {
    if n == 0 then 1.0 else x * Pow(x, n - 1)
  }

  /** Epsilon after the `learn` calls at rounds 200, 400, ..., 200 n (no other round changes it). */
  function DecayEvents(epsilon: real, decay: real, minEpsilon: real, n: nat): real
  {
    if n == 0 then epsilon
    else DecayedEpsilon(DECAY_PERIOD * n, DecayEvents(epsilon, decay, minEpsilon, n - 1), decay, minEpsilon)
  }

  lemma {:induction false} PowBounds(x: real, n: nat)
    requires 0.0 <= x <= 1.0
    ensures 0.0 <= Pow(x, n) <= 1.0
  {
    if n > 0 {
      PowBounds(x, n - 1);
      var p := Pow(x, n - 1);
      ScaleAtMost(p, x);
      assert Pow(x, n) == p * x;
    }
  }

  /** One decay applied to the closed form after k events gives the closed form after k + 1. */
  lemma DecayOnce(epsilon: real, p: real, q: real, decay: real, minEpsilon: real)
    requires epsilon > 0.0 && 0.0 <= p <= 1.0 && 0.0 <= decay <= 1.0 && minEpsilon > 0.0
    requires q == decay * p
    ensures Floored(Floored(epsilon, p, minEpsilon), decay, minEpsilon) == Floored(epsilon, q, minEpsilon)
  {
    var a := epsilon * p;
    assert epsilon * q == (epsilon * p) * decay;
    assert a >= 0.0;
    if a >= minEpsilon {
      assert Max(a, minEpsilon) == a;
    } else {
      FlooredDecayStaysAtFloor(a, decay, minEpsilon);
    }
  }

  /** Below the floor, decaying either the floored value or the value itself leaves the floor. */
  lemma FlooredDecayStaysAtFloor(a: real, decay: real, minEpsilon: real)
    requires 0.0 <= a < minEpsilon && 0.0 <= decay <= 1.0
    ensures Max(Max(a, minEpsilon) * decay, minEpsilon) == minEpsilon
    ensures Max(a * decay, minEpsilon) == minEpsilon
  {
    ScaleAtMost(minEpsilon, decay);
    ScaleAtMost(a, decay);
  }

  /** A decay event on a positive epsilon multiplies it by the decay and floors it. */
  lemma DecayEventStep(epsilon: real, decay: real, minEpsilon: real, n: nat)
    requires n >= 1
    requires DecayEvents(epsilon, decay, minEpsilon, n - 1) > 0.0
    ensures DecayEvents(epsilon, decay, minEpsilon, n) ==
              Floored(DecayEvents(epsilon, decay, minEpsilon, n - 1), decay, minEpsilon)
  {
    assert (DECAY_PERIOD * n) % DECAY_PERIOD == 0;
  }

  /** After n >= 1 decay events epsilon is `max(epsilon * decay^n, min_epsilon)`. */
  lemma {:induction false} DecayClosedForm(epsilon: real, decay: real, minEpsilon: real, n: nat)
    requires epsilon > 0.0 && 0.0 <= decay <= 1.0 && minEpsilon > 0.0 && n >= 1
    ensures DecayEvents(epsilon, decay, minEpsilon, n) == Floored(epsilon, Pow(decay, n), minEpsilon)
  {
    var k: nat := n - 1;
    if k == 0 {
      DecayEventStep(epsilon, decay, minEpsilon, n);
      assert Pow(decay, 1) == decay;
    } else {
      DecayClosedForm(epsilon, decay, minEpsilon, k);
      PowBounds(decay, k);
      DecayEventStep(epsilon, decay, minEpsilon, n);
      assert Pow(decay, n) == decay * Pow(decay, k);
      DecayOnce(epsilon, Pow(decay, k), Pow(decay, n), decay, minEpsilon);
    }
  }

  /** The worked example: 2.0, 0.9 and 0.33 give 2.0 * 0.9^10 after ten decays. */
  lemma TenDecaysExample()
    ensures DecayEvents(2.0, 0.9, 0.33, 10) == 0.6973568802
  {
    DecayClosedForm(2.0, 0.9, 0.33, 10);
    assert Pow(0.9, 10) == 0.3486784401;
  }

  /** Starting below the floor, the first decay raises epsilon to the floor. */
  lemma BelowFloorIsRaised(round: int, epsilon: real, decay: real, minEpsilon: real)
    requires round % DECAY_PERIOD == 0 && round > 0
    requires 0.0 < epsilon < minEpsilon && 0.0 <= decay <= 1.0
    ensures DecayedEpsilon(round, epsilon, decay, minEpsilon) == minEpsilon > epsilon
  {
    ScaleAtMost(epsilon, decay);
  }
}
