/**
 * The continuous-action environment: the agent picks a position in
 * [-1, 1]; each step accrues the realised rate on the old position, charges
 * the fee for the change, and shows the next window of normalised rates.
 */
module ContinuousEnv {
  import opened Common
  import opened Rates
  import opened Ledger
  import opened Preprocess

  /** The part of the environment a step changes. */
  datatype EpisodeState = EpisodeState(step: nat, position: real, value: real)

  /**
   * The environment: its series, the number of rates an observation shows,
   * and the episode state, which only `Reset` creates.
   */
  datatype Env = Env(series: seq<Observed>, window: nat, episode: Option<EpisodeState>)

  datatype EnvError =
    | NotReset          // a step before the first reset: the position is not yet an array
    | IndexOutOfRange   // a read past the end of the series
    | BroadcastError    // too few rates to fill the reset observation

  /** What a step reports besides observation, reward and termination. */
  datatype Info = Info(timestamp: int, value: real, rate: real, position: real)

  datatype StepResult = StepResult(observation: seq<real>, reward: real, done: bool, info: Info)

  /** The state right after construction: the series is built, but no episode exists yet. */
  function Init(series: seq<Observed>, window: nat): (env: Env)
    ensures env.episode.None?
  {
    Env(series, window, None)
  }

  /**
   * Before the first reset there is no episode: a step fails and leaves the
   * environment as it is, and a reset starts the episode from `Start`.
   */
  lemma StepBeforeReset(series: seq<Observed>, window: nat, action: real, log: real -> real)
    ensures Step(Init(series, window), action, log) == (Init(series, window), Err(NotReset))
    ensures Reset(Init(series, window)).0 == Env(series, window, Some(Start))
  {
  }

  /** The state every episode starts from. */
  const Start: EpisodeState := EpisodeState(0, 0.0, 1.0)

  /** The normalised rates of the `w` points starting at `from`. */
  function Window(series: seq<Observed>, from: nat, w: nat): (obs: seq<real>)
    requires from + w <= |series|
    ensures |obs| == w
    ensures forall k :: 0 <= k < w ==> obs[k] == series[from + k].normalized
  {
    seq(w, k requires 0 <= k < w => series[from + k].normalized)
  }

  /**
   * Starts an episode at step 0 with position 0 and value 1 and returns the
   * first `window` normalised rates. A one-point series is broadcast into
   * every slot of the observation; any other series shorter than the window
   * cannot fill it. The episode is reset in every case.
   */
  function Reset(env: Env): (r: (Env, Result<seq<real>, EnvError>))
    ensures r.0 == env.(episode := Some(Start))
    ensures r.1.Ok? <==> |env.series| >= env.window || |env.series| == 1
    ensures r.1.Ok? ==> |r.1.value| == env.window
    ensures |env.series| >= env.window ==> r.1 == Ok(Window(env.series, 0, env.window))
    ensures |env.series| == 1 ==> r.1 == Ok(seq(env.window, k => env.series[0].normalized))
  {
    var env' := env.(episode := Some(Start));
    var w := env.window;
    if |env.series| >= w then
      assert |env.series| == 1 ==> Window(env.series, 0, w) == seq(w, k => env.series[0].normalized);
      (env', Ok(Window(env.series, 0, w)))
    else if |env.series| == 1 then (env', Ok(seq(w, k => env.series[0].normalized)))
    else (env', Err(BroadcastError))
  }

  /** The episode has reached the last point whose successor window still fits the series. */
  predicate Done(env: Env)
    requires env.episode.Some?
  {
    env.episode.value.step + env.window >= |env.series| - 1
  }

  /**
   * One step with target position `action`. Reads the rate at
   * `step + window`, updates the ledger (accrual on the old position, then
   * the fee), advances the step, and computes the reward with `log`. A
   * negative value is ruin: the episode is done and the reward is the log of
   * the value before the step. The info and the new observation read the
   * point at the new `step + window`; when that is past the end the step
   * fails after the state has already changed.
   */
  function Step(env: Env, action: real, log: real -> real): (r: (Env, Result<StepResult, EnvError>))
    ensures env.episode.None? ==> r == (env, Err(NotReset))
    // every read stays inside the series exactly when the episode is not done
    ensures env.episode.Some? ==> (r.1.Ok? <==> !Done(env))
    ensures r.1.Ok? ==> env.episode.Some? && r.0.episode.Some?
    ensures r.1.Ok? ==>
      var st, st' := env.episode.value, r.0.episode.value;
      var res := r.1.value;
      var w := env.window;
      && r.0.series == env.series && r.0.window == w
      && st'.step == st.step + 1
      && st'.position == action
      && st'.value == AccrueThenCharge(st.value, st.position, action, Unscale(env.series[st.step + w].normalized))
      && (st'.value < 0.0 ==> res.done && res.reward == log(st.value))
      && (st'.value >= 0.0 ==> (res.done <==> Done(r.0)) && res.reward == log(st'.value) - log(st.value))
      // the observation is the window after the step; its last rate is the one just accrued
      && res.observation == Window(env.series, st'.step, w)
      && (w > 0 ==> res.observation[w - 1] == env.series[st.step + w].normalized)
      && res.info == Info(env.series[st'.step + w].timestamp, st'.value, env.series[st'.step + w].rate, action)
  {
    match env.episode
    case None => (env, Err(NotReset))
    case Some(st) =>
      var w := env.window;
      if st.step + w >= |env.series| then (env, Err(IndexOutOfRange))
      else
        var rate := Unscale(env.series[st.step + w].normalized);
        var value := AccrueThenCharge(st.value, st.position, action, rate);
        var st' := EpisodeState(st.step + 1, action, value);
        var env' := env.(episode := Some(st'));
        var ruined := value < 0.0;
        var reward := if ruined then log(st.value) else log(value) - log(st.value);
        var done := ruined || st'.step + w >= |env.series| - 1;
        if st'.step + w >= |env.series| then (env', Err(IndexOutOfRange))
        else
          var info := Info(env.series[st'.step + w].timestamp, value, env.series[st'.step + w].rate, action);
          (env', Ok(StepResult(Window(env.series, st'.step, w), reward, done, info)))
  }

  /** Applies the actions in turn, stopping at the first failing step. */
  function Play(env: Env, actions: seq<real>, log: real -> real): Result<(Env, seq<StepResult>), EnvError>
    decreases |actions|
  {
    if |actions| == 0 then Ok((env, []))
    else
      var (env1, res) := Step(env, actions[0], log);
      if res.Err? then Err(res.error)
      else
        match Play(env1, actions[1..], log)
        case Err(e) => Err(e)
        case Ok((envN, rs)) => Ok((envN, [res.value] + rs))
  }

  /** The sum of the rewards of a sequence of steps. */
  function SumRewards(rs: seq<StepResult>): real {
    if |rs| == 0 then 0.0 else rs[0].reward + SumRewards(rs[1..])
  }

  /**
   * Each step's observation is the previous one shifted by one point: the
   * oldest rate leaves and the rate at `from + w` enters.
   */
  lemma WindowSlides(series: seq<Observed>, from: nat, w: nat)
    requires w >= 1 && from + w + 1 <= |series|
    ensures Window(series, from + 1, w) == Window(series, from, w)[1..] + [series[from + w].normalized]
  {
  }

  /**
   * Without ruin, a successful step reports done exactly when the step after
   * it fails: done marks the last step whose reads fit the series.
   */
  lemma DoneIffNextStepFails(env: Env, action: real, next: real, log: real -> real)
    requires Step(env, action, log).1.Ok?
    requires Step(env, action, log).0.episode.value.value >= 0.0
    ensures Step(env, action, log).1.value.done <==> Step(Step(env, action, log).0, next, log).1.Err?
  {
  }

  /** A step that is not ruin earns the log return of the value. */
  predicate NoRuin(rs: seq<StepResult>) {
    forall i :: 0 <= i < |rs| ==> rs[i].info.value >= 0.0
  }

  /**
   * With `n` steps left before the end of the series, exactly `n` steps
   * succeed: each one is done exactly when it is ruin or the last, and the
   * environment is done afterwards.
   */
  lemma {:induction false} PlayToEnd(env: Env, actions: seq<real>, log: real -> real)
    requires env.episode.Some?
    requires |actions| >= 1
    requires env.episode.value.step + env.window + |actions| == |env.series| - 1
    decreases |actions|
    ensures Play(env, actions, log).Ok?
    ensures var (envN, rs) := Play(env, actions, log).value;
      && |rs| == |actions|
      && envN.episode.Some? && envN.series == env.series && envN.window == env.window
      && envN.episode.value.step == env.episode.value.step + |actions|
      && Done(envN)
      && forall i :: 0 <= i < |rs| ==> (rs[i].done <==> rs[i].info.value < 0.0 || i == |rs| - 1)
  {
    var (env1, res) := Step(env, actions[0], log);
    assert res.Ok?;
    if |actions| == 1 {
      assert Play(env1, actions[1..], log) == Ok((env1, []));
    } else {
      PlayToEnd(env1, actions[1..], log);
      assert !Done(env1);
    }
  }

  /**
   * A series of `L >= window + 2` points gives episodes of exactly
   * `L - window - 1` steps from a reset: no step before the last reports
   * done except on ruin, the last one does, and the next step fails.
   */
  lemma EpisodeLength(env: Env, actions: seq<real>, next: real, log: real -> real)
    requires |env.series| >= env.window + 2
    requires |actions| == |env.series| - env.window - 1
    ensures var env0 := Reset(env).0;
      && Play(env0, actions, log).Ok?
      && var (envN, rs) := Play(env0, actions, log).value;
      && |rs| == |env.series| - env.window - 1
      && (forall i :: 0 <= i < |rs| ==> (rs[i].done <==> rs[i].info.value < 0.0 || i == |rs| - 1))
      && Step(envN, next, log).1 == Err(IndexOutOfRange)
  {
    PlayToEnd(Reset(env).0, actions, log);
  }

  /**
   * Without ruin, the rewards of a run telescope: they sum to the log of the
   * final value minus the log of the starting value.
   */
  lemma {:induction false} RewardsTelescope(env: Env, actions: seq<real>, log: real -> real)
    requires env.episode.Some?
    requires Play(env, actions, log).Ok?
    requires NoRuin(Play(env, actions, log).value.1)
    decreases |actions|
    ensures var (envN, rs) := Play(env, actions, log).value;
      envN.episode.Some? && SumRewards(rs) == log(envN.episode.value.value) - log(env.episode.value.value)
  {
    if |actions| > 0 {
      var (env1, res) := Step(env, actions[0], log);
      var (envN, rs) := Play(env1, actions[1..], log).value;
      assert Play(env, actions, log).value.1 == [res.value] + rs;
      assert NoRuin(rs) by {
        assert forall i :: 0 <= i < |rs| ==> rs[i] == ([res.value] + rs)[i + 1];
      }
      RewardsTelescope(env1, actions[1..], log);
      assert ([res.value] + rs)[1..] == rs;
    }
  }

  /**
   * An episode from a reset without ruin earns, in total, the log of the
   * final value minus the log of 1.
   */
  lemma EpisodeReturn(env: Env, actions: seq<real>, log: real -> real)
    requires Play(Reset(env).0, actions, log).Ok?
    requires NoRuin(Play(Reset(env).0, actions, log).value.1)
    ensures var (envN, rs) := Play(Reset(env).0, actions, log).value;
      envN.episode.Some? && SumRewards(rs) == log(envN.episode.value.value) - log(1.0)
  {
    RewardsTelescope(Reset(env).0, actions, log);
  }

  /**
   * On a series built by the preprocessing, the rate accrued is the raw rate
   * of the point at `step + window`.
   */
  lemma StepAccruesRawRate(rows: seq<Series.Row>, start: Option<int>, end: Option<int>,
                           st: EpisodeState, window: nat, action: real, log: real -> real)
    requires st.step + window + 1 < |CreateObservations(rows, start, end)|
    ensures var series := CreateObservations(rows, start, end);
      var r := Step(Env(series, window, Some(st)), action, log);
      r.1.Ok? && r.0.episode.value.value
        == AccrueThenCharge(st.value, st.position, action, series[st.step + window].rate)
  {
    ObservationsPointwise(rows, start, end, st.step + window);
  }
}
