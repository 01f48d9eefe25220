/** The weather state machine of `WeatherSystem`: a list of presets, a transition
    from the current preset to a target preset driven by a progress ratio, the
    blending of the two presets, the mapping of a preset onto the scene's fog,
    light, water, rain and wind outputs, and the lightning countdown.

    Engine sinks (RenderSettings, the directional light, the water material, the
    rain particle system, the wind audio source and the water system's wave
    height) are one `Scene` value; a missing component is `None`. Random numbers
    are parameters whose ranges are the engine's. */
module Weather {
  import opened Engine

  /** One weather preset (the serialised `WeatherState` record). */
  datatype WeatherState = WeatherState(
    name: string,
    wavesMultiplier: real,
    windStrength: real,
    skyColor: Color,
    waterColor: Color,
    fogDensity: real,
    rainIntensity: real,
    lightningFrequency: real)

  /** The seven preset parameters agree; the name is a label, not a parameter. */
  predicate SameSettings(x: WeatherState, y: WeatherState) {
    && x.wavesMultiplier == y.wavesMultiplier
    && x.windStrength == y.windStrength
    && x.skyColor == y.skyColor
    && x.waterColor == y.waterColor
    && x.fogDensity == y.fogDensity
    && x.rainIntensity == y.rainIntensity
    && x.lightningFrequency == y.lightningFrequency
  }

  /** Field-by-field blend of two presets at progress `t` (clamped to [0, 1]).
      The blended record is a fresh one whose name the code leaves unset
      (`null`); the model gives it the name `""`. */
  function LerpState(from: WeatherState, to: WeatherState, t: real): (s: WeatherState)
    ensures s.name == ""
    ensures t <= 0.0 ==> SameSettings(s, from)
    ensures t >= 1.0 ==> SameSettings(s, to)
    ensures SameSettings(from, to) ==> SameSettings(s, to)
    ensures Between(s.wavesMultiplier, from.wavesMultiplier, to.wavesMultiplier)
    ensures Between(s.windStrength, from.windStrength, to.windStrength)
    ensures Between(s.fogDensity, from.fogDensity, to.fogDensity)
    ensures Between(s.rainIntensity, from.rainIntensity, to.rainIntensity)
    ensures Between(s.lightningFrequency, from.lightningFrequency, to.lightningFrequency)
  {
    WeatherState(
      "",
      Lerp(from.wavesMultiplier, to.wavesMultiplier, t),
      Lerp(from.windStrength, to.windStrength, t),
      ColorLerp(from.skyColor, to.skyColor, t),
      ColorLerp(from.waterColor, to.waterColor, t),
      Lerp(from.fogDensity, to.fogDensity, t),
      Lerp(from.rainIntensity, to.rainIntensity, t),
      Lerp(from.lightningFrequency, to.lightningFrequency, t))
  }

  /** The directional light's colour and intensity. */
  datatype Light = Light(color: Color, intensity: real)

  /** The wind audio source's volume and pitch. */
  datatype WindAudio = WindAudio(volume: real, pitch: real)

  /** Everything a weather preset is applied to. `waveHeight` is the water
      system's wave height; `waterColor` is the water material's colour;
      `rainRate` is the rain emission rate. `None` marks a missing component. */
  datatype Scene = Scene(
    waveHeight: Option<real>,
    fogColor: Color,
    fogDensity: real,
    light: Option<Light>,
    waterColor: Option<Color>,
    rainRate: Option<real>,
    wind: Option<WindAudio>)

  /** Both scenes have the same components present. */
  predicate SameComponents(x: Scene, y: Scene) {
    && x.waveHeight.Some? == y.waveHeight.Some?
    && x.light.Some? == y.light.Some?
    && x.waterColor.Some? == y.waterColor.Some?
    && x.rainRate.Some? == y.rainRate.Some?
    && x.wind.Some? == y.wind.Some?
  }

  /** Light intensity for a fog density: `Lerp(0.5, 1, 1 - 2 * fogDensity)`. */
  function LightIntensity(fogDensity: real): (i: real)
    ensures 0.5 <= i <= 1.0
    ensures fogDensity <= 0.0 ==> i == 1.0
    ensures fogDensity >= 0.5 ==> i == 0.5
  {
    Lerp(0.5, 1.0, 1.0 - fogDensity * 2.0)
  }

  /** Denser fog never brightens the light. */
  lemma LightDimsWithFog(thin: real, thick: real)
    requires thin <= thick
    ensures LightIntensity(thick) <= LightIntensity(thin)
  {
    var c1, c2 := Clamp01(1.0 - thin * 2.0), Clamp01(1.0 - thick * 2.0);
    assert c2 <= c1;
  }

  /** The water system's wave height after `waveHeight = multiplier * waveHeight`,
      when there is a water system. */
  function ScaleWaves(waveHeight: Option<real>, multiplier: real): (r: Option<real>)
    ensures r.Some? == waveHeight.Some?
    ensures r.Some? ==> r.value == multiplier * waveHeight.value
  {
    if waveHeight.Some? then Some(multiplier * waveHeight.value) else None
  }

  /** Applying a preset to the scene (`ApplyWeatherState`): only components that
      are present are written, and the water system's wave height is multiplied
      by the preset's multiplier (it is not reset to a base value). */
  function ApplyWeatherState(state: WeatherState, scene: Scene): (r: Scene)
    ensures SameComponents(r, scene)
    ensures r.fogColor == state.skyColor && r.fogDensity == state.fogDensity
    ensures r.waveHeight.Some? ==> r.waveHeight.value == state.wavesMultiplier * scene.waveHeight.value
    ensures r.light.Some? ==> r.light.value.color == state.skyColor
    ensures r.light.Some? ==> 0.5 <= r.light.value.intensity <= 1.0
    ensures r.light.Some? && state.fogDensity <= 0.0 ==> r.light.value.intensity == 1.0
    ensures r.light.Some? && state.fogDensity >= 0.5 ==> r.light.value.intensity == 0.5
    ensures r.waterColor.Some? ==> r.waterColor.value == state.waterColor
    ensures r.rainRate.Some? ==> r.rainRate.value == state.rainIntensity * 1000.0
    ensures r.rainRate.Some? && state.rainIntensity >= 0.0 ==> r.rainRate.value >= 0.0
    ensures r.wind.Some? ==> r.wind.value.volume == state.windStrength * 0.5
    ensures r.wind.Some? ==> r.wind.value.pitch == r.wind.value.volume + 0.5
  {
    Scene(
      ScaleWaves(scene.waveHeight, state.wavesMultiplier),
      state.skyColor,
      state.fogDensity,
      if scene.light.Some? then Some(Light(state.skyColor, LightIntensity(state.fogDensity))) else None,
      if scene.waterColor.Some? then Some(state.waterColor) else None,
      if scene.rainRate.Some? then Some(state.rainIntensity * 1000.0) else None,
      if scene.wind.Some? then Some(WindAudio(state.windStrength * 0.5, state.windStrength * 0.5 + 0.5)) else None)
  }

  /** The scene a preset produces depends on its seven parameters only. */
  lemma ApplyIgnoresName(x: WeatherState, y: WeatherState, scene: Scene)
    requires SameSettings(x, y)
    ensures ApplyWeatherState(x, scene) == ApplyWeatherState(y, scene)
  {
  }

  /** `k` applications of one preset in a row. */
  function ApplyTimes(state: WeatherState, scene: Scene, k: nat): Scene
    decreases k
  {
    if k == 0 then scene else ApplyWeatherState(state, ApplyTimes(state, scene, k - 1))
  }

  /** `x` to the power `k`. */
  function Power(x: real, k: nat): real
    decreases k
  {
    if k == 0 then 1.0 else x * Power(x, k - 1)
  }

  /** The wave height compounds: applying a preset `k` times scales the water
      system's wave height by the multiplier to the power `k`. */
  lemma {:induction false} WaveHeightCompounds(state: WeatherState, scene: Scene, k: nat)
    requires scene.waveHeight.Some?
    ensures ApplyTimes(state, scene, k).waveHeight.Some?
    ensures ApplyTimes(state, scene, k).waveHeight.value
         == Power(state.wavesMultiplier, k) * scene.waveHeight.value
  {
    if k > 0 {
      WaveHeightCompounds(state, scene, k - 1);
      var m, h := state.wavesMultiplier, scene.waveHeight.value;
      assert m * (Power(m, k - 1) * h) == (m * Power(m, k - 1)) * h;
    }
  }

  /** The transition phase: the current and target preset indices and the progress. */
  datatype Transition = Transition(current: int, target: int, progress: real)

  /** What every operation keeps about the phase over `n` presets: both indices
      are in range (with no presets nothing ever moves them off 0 and no
      transition starts), progress never exceeds 1, and a finished transition
      has current == target. */
  predicate WellFormed(t: Transition, n: nat) {
    && 0 <= t.current && 0 <= t.target
    && (n > 0 ==> t.current < n && t.target < n)
    && (n == 0 ==> t.progress == 1.0)
    && t.progress <= 1.0
    && (t.progress == 1.0 ==> t.current == t.target)
  }

  /** `ChangeWeather(index)`: a range-checked retarget that restarts the transition. */
  function Retarget(t: Transition, n: nat, index: int): (r: Transition)
    ensures !(0 <= index < n) ==> r == t
    ensures 0 <= index < n ==> r.current == t.current && r.target == index && r.progress == 0.0
    ensures WellFormed(t, n) ==> WellFormed(r, n)
  {
    if 0 <= index < n then t.(target := index, progress := 0.0) else t
  }

  /** One tick of `UpdateWeatherTransition`: while unfinished, progress grows by
      `speed * dt`; on reaching 1 it is clamped and the target becomes current. */
  function Advance(t: Transition, speed: real, dt: real): (r: Transition)
    ensures t.progress >= 1.0 ==> r == t
    ensures r.target == t.target
    ensures r.current == t.current || r.current == t.target
    ensures t.progress <= 1.0 ==> r.progress <= 1.0
    ensures speed * dt >= 0.0 ==> r.progress >= t.progress
    ensures t.progress < 1.0 <= t.progress + speed * dt ==> r.progress == 1.0 && r.current == t.target
    ensures t.progress < 1.0 && t.progress + speed * dt < 1.0 ==> r.progress == t.progress + speed * dt && r.current == t.current
  {
    if t.progress < 1.0 then
      var p := t.progress + speed * dt;
      if p >= 1.0 then Transition(t.target, t.target, 1.0) else t.(progress := p)
    else
      t
  }

  /** A tick keeps the phase well formed, and with a non-negative step keeps
      the progress non-negative. */
  lemma AdvanceKeepsWellFormed(t: Transition, n: nat, speed: real, dt: real)
    requires WellFormed(t, n)
    ensures WellFormed(Advance(t, speed, dt), n)
    ensures 0.0 <= t.progress && speed * dt >= 0.0 ==> 0.0 <= Advance(t, speed, dt).progress
  {
  }

  /** The preset shown at phase `t`: current blended towards target. */
  function Blend(states: seq<WeatherState>, t: Transition): WeatherState
    requires 0 <= t.current < |states| && 0 <= t.target < |states|
  {
    LerpState(states[t.current], states[t.target], t.progress)
  }

  /** On the tick where progress reaches 1 the target has already become
      current, so the blend is the target preset exactly and so is what is
      applied to the scene. */
  lemma CompletionShowsTarget(states: seq<WeatherState>, t: Transition, speed: real, dt: real, scene: Scene)
    requires WellFormed(t, |states|) && |states| > 0
    requires t.progress < 1.0 && Advance(t, speed, dt).progress == 1.0
    ensures SameSettings(Blend(states, Advance(t, speed, dt)), states[t.target])
    ensures ApplyWeatherState(Blend(states, Advance(t, speed, dt)), scene)
         == ApplyWeatherState(states[t.target], scene)
  {
    var b := Blend(states, Advance(t, speed, dt));
    ApplyIgnoresName(b, states[t.target], scene);
  }

  /** `k` ticks with the same `dt`. */
  function Run(t: Transition, speed: real, dt: real, k: nat): Transition
    decreases k
  {
    if k == 0 then t else Run(Advance(t, speed, dt), speed, dt, k - 1)
  }

  /** A transition whose current and target presets agree keeps them both on
      that preset, whatever the number of ticks. */
  lemma {:induction false} RunKeepsPreset(t: Transition, speed: real, dt: real, k: nat)
    requires t.current == t.target
    ensures Run(t, speed, dt, k).current == Run(t, speed, dt, k).target == t.target
    decreases k
  {
    if k > 0 {
      RunKeepsPreset(Advance(t, speed, dt), speed, dt, k - 1);
    }
  }

  /** Requesting the preset that is already shown, while stable, is not a
      no-op: the transition restarts at 0, and although every tick of it blends
      that preset with itself (so the shown parameters stay put), each tick
      applies the preset again, which multiplies the wave height once more. */
  lemma RetargetToShownPreset(states: seq<WeatherState>, t: Transition, speed: real, dt: real, k: nat, scene: Scene)
    requires WellFormed(t, |states|) && |states| > 0 && t.progress == 1.0
    ensures Retarget(t, |states|, t.target) == Transition(t.target, t.target, 0.0)
    ensures var u := Run(Retarget(t, |states|, t.target), speed, dt, k);
      && u.current == u.target == t.target
      && SameSettings(Blend(states, u), states[t.target])
      && ApplyWeatherState(Blend(states, u), scene) == ApplyWeatherState(states[t.target], scene)
  {
    RunKeepsPreset(Retarget(t, |states|, t.target), speed, dt, k);
    var u := Run(Retarget(t, |states|, t.target), speed, dt, k);
    ApplyIgnoresName(Blend(states, u), states[t.target], scene);
  }

  /** A finished transition stays finished: ticks change nothing. */
  lemma {:induction false} RunStaysFinished(t: Transition, speed: real, dt: real, k: nat)
    requires t.progress >= 1.0
    ensures Run(t, speed, dt, k) == t
    decreases k
  {
    if k > 0 {
      RunStaysFinished(Advance(t, speed, dt), speed, dt, k - 1);
    }
  }

  /** Over any number of ticks with `speed * dt >= 0` progress stays in [0, 1],
      never decreases, and the target does not move. */
  lemma {:induction false} RunMonotone(t: Transition, n: nat, speed: real, dt: real, k: nat)
    requires WellFormed(t, n) && 0.0 <= t.progress && speed * dt >= 0.0
    ensures WellFormed(Run(t, speed, dt, k), n)
    ensures t.progress <= Run(t, speed, dt, k).progress <= 1.0
    ensures Run(t, speed, dt, k).target == t.target
    decreases k
  {
    if k > 0 {
      AdvanceKeepsWellFormed(t, n, speed, dt);
      RunMonotone(Advance(t, speed, dt), n, speed, dt, k - 1);
    }
  }

  /** With a positive step `speed * dt`, `k` ticks whose total step covers the
      remaining progress finish the transition: progress is 1 and the target
      is current. */
  lemma {:induction false} TransitionCompletes(t: Transition, speed: real, dt: real, k: nat)
    requires t.progress <= 1.0 && (t.progress == 1.0 ==> t.current == t.target)
    requires speed * dt > 0.0
    requires (k as real) * (speed * dt) >= 1.0 - t.progress
    ensures Run(t, speed, dt, k).progress == 1.0
    ensures Run(t, speed, dt, k).current == Run(t, speed, dt, k).target == t.target
    decreases k
  {
    var c := speed * dt;
    if t.progress >= 1.0 {
      RunStaysFinished(t, speed, dt, k);
    } else {
      assert k > 0;
      var u := Advance(t, speed, dt);
      if u.progress >= 1.0 {
        RunStaysFinished(u, speed, dt, k - 1);
      } else {
        assert ((k - 1) as real) * c == (k as real) * c - c;
        TransitionCompletes(u, speed, dt, k - 1);
      }
    }
  }

  /** The draws `Random.Range(0, n)` returns to the retry loop: each in range
      (0 when there are no presets), and, when more than one preset exists, some
      draw other than `avoid` eventually comes. */
  predicate FairDraws(draws: seq<int>, n: nat, avoid: int) {
    && |draws| > 0
    && (forall j :: 0 <= j < |draws| ==> if n == 0 then draws[j] == 0 else 0 <= draws[j] < n)
    && (n > 1 ==> exists j :: 0 <= j < |draws| && draws[j] != avoid)
  }

  /** The position of the first draw other than `avoid`. */
  function FirstOther(draws: seq<int>, avoid: int): (k: nat)
    requires exists j :: 0 <= j < |draws| && draws[j] != avoid
    ensures k < |draws| && draws[k] != avoid
    ensures forall j :: 0 <= j < k ==> draws[j] == avoid
  {
    if draws[0] != avoid then 0
    else
      assert exists j :: 0 <= j < |draws[1..]| && draws[1..][j] != avoid by {
        var j :| 0 <= j < |draws| && draws[j] != avoid;
        assert draws[1..][j - 1] == draws[j];
      }
      1 + FirstOther(draws[1..], avoid)
  }

  /** The index the retry loop of `ChangeWeatherRandom` settles on: the first
      draw when there is at most one preset, otherwise the first draw that
      differs from the current target. */
  function RetryPick(draws: seq<int>, avoid: int, n: nat): (k: int)
    requires FairDraws(draws, n, avoid)
    ensures k in draws
    ensures n <= 1 ==> k == 0
    ensures n > 1 ==> k != avoid && 0 <= k < n
  {
    if n <= 1 then draws[0] else draws[FirstOther(draws, avoid)]
  }

  /** The outcome of one lightning countdown tick. */
  datatype LightningStep = LightningStep(timer: real, struck: bool)

  /** Dividing a roll in [1, 10] by a positive frequency gives a value in
      [1/f, 10/f], hence a positive one. */
  lemma RollOverFrequency(roll: real, frequency: real)
    requires 1.0 <= roll <= 10.0 && frequency > 0.0
    ensures 0.0 < 1.0 / frequency <= roll / frequency <= 10.0 / frequency
  {
    var q, lo, hi := roll / frequency, 1.0 / frequency, 10.0 / frequency;
    assert q * frequency == roll && lo * frequency == 1.0 && hi * frequency == 10.0;
    assert (q - lo) * frequency == roll - 1.0;
    assert (hi - q) * frequency == 10.0 - roll;
  }

  /** One tick of the lightning countdown (`UpdateWeatherEffects`) for a preset
      with lightning frequency `frequency`; `roll` is `Random.Range(1f, 10f)`. */
  function LightningTick(timer: real, frequency: real, dt: real, roll: real): (r: LightningStep)
    requires 1.0 <= roll <= 10.0
    ensures frequency <= 0.0 ==> r == LightningStep(timer, false)
    ensures frequency > 0.0 ==> r.struck == (timer - dt <= 0.0)
    ensures frequency > 0.0 && !r.struck ==> r.timer == timer - dt
    ensures frequency > 0.0 ==> r.timer > 0.0
    ensures r.struck ==> r.timer == roll / frequency && 1.0 / frequency <= r.timer <= 10.0 / frequency
  {
    if frequency > 0.0 then
      var left := timer - dt;
      if left <= 0.0 then
        RollOverFrequency(roll, frequency);
        LightningStep(roll / frequency, true)
      else
        LightningStep(left, false)
    else
      LightningStep(timer, false)
  }

  /** The `WeatherSystem` component: the presets and change speed are its
      configuration; the phase, the lightning timer and the scene it writes
      to change as it runs. */
  class WeatherSystem {
    const weatherStates: seq<WeatherState>
    const weatherChangeSpeed: real
    var currentWeatherIndex: int
    var targetWeatherIndex: int
    var transitionProgress: real
    var lightningTimer: real
    var scene: Scene

    /** The transition phase held in the three fields. */
    function Phase(): Transition
      reads this
    {
      Transition(currentWeatherIndex, targetWeatherIndex, transitionProgress)
    }

    ghost predicate Valid()
      reads this
    {
      && WellFormed(Phase(), |weatherStates|)
      && (weatherChangeSpeed >= 0.0 ==> 0.0 <= transitionProgress)
    }

    /** The field initialisers: both indices 0, progress 1, timer 0. */
    constructor (states: seq<WeatherState>, changeSpeed: real, initial: Scene)
      ensures Valid()
      ensures weatherStates == states && weatherChangeSpeed == changeSpeed
      ensures Phase() == Transition(0, 0, 1.0) && lightningTimer == 0.0 && scene == initial
    {
      weatherStates := states;
      weatherChangeSpeed := changeSpeed;
      currentWeatherIndex := 0;
      targetWeatherIndex := 0;
      transitionProgress := 1.0;
      lightningTimer := 0.0;
      scene := initial;
    }

    /** Start-up: with no presets nothing happens; otherwise the preset `pick`
        (`Random.Range(0, n)`) becomes both current and target and is applied. */
    method InitializeWeather(pick: int)
      requires Valid()
      requires |weatherStates| > 0 ==> 0 <= pick < |weatherStates|
      modifies this
      ensures Valid()
      ensures |weatherStates| == 0 ==> Phase() == old(Phase()) && scene == old(scene)
      ensures |weatherStates| > 0 ==> currentWeatherIndex == targetWeatherIndex == pick
      ensures |weatherStates| > 0 ==> scene == ApplyWeatherState(weatherStates[pick], old(scene))
      ensures transitionProgress == old(transitionProgress) && lightningTimer == old(lightningTimer)
    {
      if |weatherStates| == 0 {
        return;
      }
      currentWeatherIndex := pick;
      targetWeatherIndex := currentWeatherIndex;
      scene := ApplyWeatherState(weatherStates[currentWeatherIndex], scene);
    }

    /** A range-checked retarget; an out-of-range index changes nothing. */
    method ChangeWeather(index: int)
      requires Valid()
      modifies this
      ensures Valid()
      ensures Phase() == Retarget(old(Phase()), |weatherStates|, index)
      ensures scene == old(scene) && lightningTimer == old(lightningTimer)
    {
      if index >= 0 && index < |weatherStates| {
        targetWeatherIndex := index;
        transitionProgress := 0.0;
      }
    }

    /** Draws indices until one differs from the current target (or there is
        at most one preset), then retargets to it. */
    method ChangeWeatherRandom(draws: seq<int>)
      requires Valid()
      requires FairDraws(draws, |weatherStates|, targetWeatherIndex)
      modifies this
      ensures Valid()
      ensures Phase() == Retarget(old(Phase()), |weatherStates|,
                                  RetryPick(draws, old(targetWeatherIndex), |weatherStates|))
      ensures |weatherStates| > 1 ==> targetWeatherIndex != old(targetWeatherIndex) && transitionProgress == 0.0
      ensures |weatherStates| == 1 ==> targetWeatherIndex == 0 && transitionProgress == 0.0
      ensures scene == old(scene) && lightningTimer == old(lightningTimer)
    {
      var i := 0;
      var newIndex := draws[i];
      while newIndex == targetWeatherIndex && |weatherStates| > 1
        invariant 0 <= i < |draws| && newIndex == draws[i]
        invariant forall j :: 0 <= j < i ==> draws[j] == targetWeatherIndex
        invariant |weatherStates| > 1 ==> exists j :: i <= j < |draws| && draws[j] != targetWeatherIndex
        decreases |draws| - i
      {
        i := i + 1;
        newIndex := draws[i];
      }
      assert |weatherStates| > 1 ==> i == FirstOther(draws, targetWeatherIndex);
      ChangeWeather(newIndex);
    }

    /** One tick of the transition. While it is unfinished the blend of current
        and target at the new progress is applied to the scene. */
    method UpdateWeatherTransition(dt: real)
      requires Valid() && dt >= 0.0
      modifies this
      ensures Valid()
      ensures Phase() == Advance(old(Phase()), weatherChangeSpeed, dt)
      ensures old(transitionProgress) < 1.0 ==> |weatherStates| > 0
      ensures old(transitionProgress) < 1.0 ==> scene == ApplyWeatherState(Blend(weatherStates, Phase()), old(scene))
      ensures old(transitionProgress) >= 1.0 ==> scene == old(scene)
      ensures lightningTimer == old(lightningTimer)
    {
      if transitionProgress < 1.0 {
        transitionProgress := transitionProgress + weatherChangeSpeed * dt;
        if transitionProgress >= 1.0 {
          transitionProgress := 1.0;
          currentWeatherIndex := targetWeatherIndex;
        }
        var currentState := weatherStates[currentWeatherIndex];
        var targetState := weatherStates[targetWeatherIndex];
        var lerpedState := LerpState(currentState, targetState, transitionProgress);
        scene := ApplyWeatherState(lerpedState, scene);
      }
    }

    /** The lightning countdown, driven by the TARGET preset's frequency;
        `struck` reports that a lightning effect was created. */
    method UpdateWeatherEffects(dt: real, roll: real) returns (struck: bool)
      requires 0 <= targetWeatherIndex < |weatherStates|
      requires 1.0 <= roll <= 10.0
      modifies this
      ensures Phase() == old(Phase()) && scene == old(scene)
      ensures LightningStep(lightningTimer, struck)
           == LightningTick(old(lightningTimer), weatherStates[targetWeatherIndex].lightningFrequency, dt, roll)
    {
      var currentState := weatherStates[targetWeatherIndex];
      struck := false;
      if currentState.lightningFrequency > 0.0 {
        lightningTimer := lightningTimer - dt;
        if lightningTimer <= 0.0 {
          lightningTimer := roll / currentState.lightningFrequency;
          struck := true;
        }
      }
    }

    /** The per-frame update: transition, then lightning. */
    method Update(dt: real, roll: real) returns (struck: bool)
      requires Valid() && |weatherStates| > 0 && dt >= 0.0
      requires 1.0 <= roll <= 10.0
      modifies this
      ensures Valid()
      ensures Phase() == Advance(old(Phase()), weatherChangeSpeed, dt)
      ensures old(transitionProgress) < 1.0 ==> scene == ApplyWeatherState(Blend(weatherStates, Phase()), old(scene))
      ensures old(transitionProgress) >= 1.0 ==> scene == old(scene)
      ensures targetWeatherIndex == old(targetWeatherIndex) < |weatherStates|
      ensures LightningStep(lightningTimer, struck)
           == LightningTick(old(lightningTimer), weatherStates[targetWeatherIndex].lightningFrequency, dt, roll)
    {
      UpdateWeatherTransition(dt);
      struck := UpdateWeatherEffects(dt, roll);
    }
  }
}
