/**
 * The discrete-action (Q-learning) environment: the agent picks action 0,
 * 1 or 2 (short, flat, long); each step charges the fee for the change,
 * accrues the raw rate on the old position, and shows the bucket of the
 * next rolling-mean rate.
 */
module DiscreteEnv {
  import opened Common
  import opened Ledger
  import opened Buckets
  import opened Preprocess

  /** The environment: its series and the episode state, which construction already initialises. */
  datatype Env = Env(series: seq<AvgRow>, step: nat, position: int, value: real)

  datatype EnvError = IndexOutOfRange   // a read past the end of the series

  /** What a step reports besides observation, reward and termination. */
  datatype Info = Info(timestamp: int, value: real, position: int, rate: real)

  datatype StepResult = StepResult(observation: int, reward: real, done: bool, info: Info)

  /** The state right after construction: step 0, position 0, value 1. */
  function Init(series: seq<AvgRow>): (env: Env)
    ensures env.step == 0 && env.position == 0 && env.value == 1.0
  {
    Env(series, 0, 0, 1.0)
  }

  /**
   * Starts an episode (the same state as construction) and returns the bucket
   * of a zero normalised rate.
   */
  function Reset(env: Env): (r: (Env, int))
    ensures r.0 == Init(env.series)
    ensures r.1 == 20 && 0 <= r.1 < NumStates
  {
    ZeroRateState();
    NumStatesValue();
    (Init(env.series), StateForRate(0.0))
  }

  /**
   * Construction already sets the reset state: a reset changes nothing, and
   * a step works without one whenever the series has a second point.
   */
  lemma InitIsReset(series: seq<AvgRow>, action: int, log: real -> real)
    ensures Reset(Init(series)).0 == Init(series)
    ensures Step(Init(series), action, log).1.Ok? <==> |series| >= 2
  {
  }

  /** The episode has reached the last point of the series. */
  predicate Done(env: Env) {
    env.step >= |env.series| - 1
  }

  /**
   * One step with action `action`. The fee is charged first; then the raw
   * rate at `step` is accrued on the old position, the position becomes
   * `action - 1`, the step advances, and the reward is the log return of the
   * value. The info and the observation read the point at the new step.
   * Reads past the end fail after the state has partly or fully changed.
   */
  function Step(env: Env, action: int, log: real -> real): (r: (Env, Result<StepResult, EnvError>))
    // every read stays inside the series exactly when the episode is not done
    ensures r.1.Ok? <==> !Done(env)
    ensures r.0.series == env.series
    ensures r.1.Ok? ==>
      var res := r.1.value;
      var pos' := PositionForAction(action);
      && r.0.step == env.step + 1
      && r.0.position == pos'
      && r.0.value == ChargeThenAccrue(env.value, env.position as real, pos' as real, env.series[env.step].rate)
      && res.reward == log(r.0.value) - log(env.value)
      && (res.done <==> Done(r.0))
      && res.observation == StateForRate(env.series[r.0.step].avg)
      && res.info == Info(env.series[r.0.step].timestamp, r.0.value, pos', env.series[env.step].rate)
    // past the end, only the fee has been charged when the rate read fails
    ensures env.step >= |env.series| ==>
      r.0 == env.(value := env.value * (1.0 - Fee(PositionForAction(action) as real, env.position as real)))
  {
    var pos0, value0 := env.position, env.value;
    var pos' := PositionForAction(action);
    var fees := Fee(pos' as real, pos0 as real);
    var charged := value0 * (1.0 - fees);
    if env.step >= |env.series| then (env.(value := charged), Err(IndexOutOfRange))
    else
      var rate := env.series[env.step].rate;
      var value := charged * (1.0 + rate * pos0 as real);
      var reward := log(value) - log(value0);
      var env' := Env(env.series, env.step + 1, pos', value);
      var done := env'.step >= |env.series| - 1;
      if env'.step >= |env.series| then (env', Err(IndexOutOfRange))
      else
        var info := Info(env.series[env'.step].timestamp, value, pos', rate);
        (env', Ok(StepResult(StateForRate(env.series[env'.step].avg), reward, done, info)))
  }

  /**
   * A successful step reports done exactly when the step after it fails:
   * done marks the last step whose reads fit the series.
   */
  lemma DoneIffNextStepFails(env: Env, action: int, next: int, log: real -> real)
    requires Step(env, action, log).1.Ok?
    ensures Step(env, action, log).1.value.done <==> Step(Step(env, action, log).0, next, log).1.Err?
  {
  }

  /** Applies the actions in turn, stopping at the first failing step. */
  function Play(env: Env, actions: seq<int>, log: real -> real): Result<(Env, seq<StepResult>), EnvError>
    decreases |actions|
  {
    if |actions| == 0 then Ok((env, []))
    else
      var (env1, res) := Step(env, actions[0], log);
      if res.Err? then Err(res.error)
      else
        match Play(env1, actions[1..], log)
        case Err(e) => Err(e)
        case Ok((envN, rs)) => Ok((envN, [res.value] + rs))
  }

  /** The sum of the rewards of a sequence of steps. */
  function SumRewards(rs: seq<StepResult>): real {
    if |rs| == 0 then 0.0 else rs[0].reward + SumRewards(rs[1..])
  }

  /**
   * With `n` steps left before the last point, exactly `n` steps succeed,
   * only the last of them reports done, and the environment is done afterwards.
   */
  lemma {:induction false} PlayToEnd(env: Env, actions: seq<int>, log: real -> real)
    requires |actions| >= 1
    requires env.step + |actions| == |env.series| - 1
    decreases |actions|
    ensures Play(env, actions, log).Ok?
    ensures var (envN, rs) := Play(env, actions, log).value;
      && |rs| == |actions|
      && envN.series == env.series
      && envN.step == env.step + |actions|
      && Done(envN)
      && forall i :: 0 <= i < |rs| ==> (rs[i].done <==> i == |rs| - 1)
  {
    var (env1, res) := Step(env, actions[0], log);
    assert res.Ok?;
    if |actions| == 1 {
      assert Play(env1, actions[1..], log) == Ok((env1, []));
    } else {
      PlayToEnd(env1, actions[1..], log);
      assert !Done(env1);
    }
  }

  /**
   * A series of `L >= 2` rolling-mean points gives episodes of exactly
   * `L - 1` steps from a reset: only the last one reports done and the next
   * step fails. A shorter series fails on the very first step.
   */
  lemma EpisodeLength(env: Env, actions: seq<int>, next: int, log: real -> real)
    requires |env.series| >= 2 ==> |actions| == |env.series| - 1
    ensures |env.series| < 2 ==> Step(Reset(env).0, next, log).1.Err?
    ensures |env.series| >= 2 ==>
      var env0 := Reset(env).0;
      && Play(env0, actions, log).Ok?
      && var (envN, rs) := Play(env0, actions, log).value;
      && |rs| == |env.series| - 1
      && (forall i :: 0 <= i < |rs| ==> (rs[i].done <==> i == |rs| - 1))
      && Step(envN, next, log).1.Err?
  {
    if |env.series| >= 2 {
      PlayToEnd(Reset(env).0, actions, log);
    }
  }

  /** The rewards of a run telescope: they sum to the log of the final value minus the log of the first. */
  lemma {:induction false} RewardsTelescope(env: Env, actions: seq<int>, log: real -> real)
    requires Play(env, actions, log).Ok?
    decreases |actions|
    ensures var (envN, rs) := Play(env, actions, log).value;
      SumRewards(rs) == log(envN.value) - log(env.value)
  {
    if |actions| > 0 {
      var (env1, res) := Step(env, actions[0], log);
      var (envN, rs) := Play(env1, actions[1..], log).value;
      RewardsTelescope(env1, actions[1..], log);
      assert ([res.value] + rs)[1..] == rs;
    }
  }

  /** Every action is one of the three the action space offers. */
  predicate ValidActions(actions: seq<int>) {
    forall i :: 0 <= i < |actions| ==> 0 <= actions[i] < NumActions
  }

  /** Every raw rate of the series is below 100% in magnitude. */
  predicate ModestRates(series: seq<AvgRow>) {
    forall i :: 0 <= i < |series| ==> -1.0 < series[i].rate < 1.0
  }

  /**
   * With valid actions and rates below 100% in magnitude, a positive value
   * stays positive and the position stays in {-1, 0, 1}, so every reward is
   * a log of positive values.
   */
  lemma {:induction false} ValueStaysPositive(env: Env, actions: seq<int>, log: real -> real)
    requires env.value > 0.0 && -1 <= env.position <= 1
    requires ValidActions(actions) && ModestRates(env.series)
    requires Play(env, actions, log).Ok?
    decreases |actions|
    ensures var (envN, rs) := Play(env, actions, log).value;
      && envN.value > 0.0 && -1 <= envN.position <= 1
      && forall i :: 0 <= i < |rs| ==> rs[i].info.value > 0.0
  {
    if |actions| > 0 {
      var (env1, res) := Step(env, actions[0], log);
      var pos' := PositionForAction(actions[0]);
      UpdateKeepsPositive(env.value, env.position as real, pos' as real, env.series[env.step].rate);
      assert env1.value > 0.0 && -1 <= env1.position <= 1;
      assert ValidActions(actions[1..]) by {
        assert forall i :: 0 <= i < |actions[1..]| ==> actions[1..][i] == actions[i + 1];
      }
      ValueStaysPositive(env1, actions[1..], log);
      var (envN, rs) := Play(env1, actions[1..], log).value;
      assert forall i :: 1 <= i < |rs| + 1 ==> ([res.value] + rs)[i] == rs[i - 1];
    }
  }

  /** When the rolling means lie in [-1, 1], every observation is a valid bucket. */
  lemma ObservationInRange(env: Env, action: int, log: real -> real)
    requires forall i :: 0 <= i < |env.series| ==> -1.0 <= env.series[i].avg <= 1.0
    requires !Done(env)
    ensures var res := Step(env, action, log).1.value;
      0 <= res.observation < NumStates
  {
  }
}
