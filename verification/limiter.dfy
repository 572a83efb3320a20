/**
  The limiter plugin node: construction, and the reaction to settings writes
  and loudness updates.

  Everything is set up only when the limiter element could be created: the
  binding table, the `post-messages` handler and the loudness handler. At the
  end of construction the plugin reads key `state` and writes the same value
  back; key `post-messages` is not touched, so the metering handler does not
  run during construction.
 */
module LimiterNode {
  import opened Wrappers
  import opened Bindings
  import AutoVolume
  import Metering

  /** The signal handlers the plugin connects. */
  datatype Handler = PostMessagesHandler | LoudnessHandler

  datatype Node = Node(
    installed: bool,
    rules: seq<Rule>,
    handlers: set<Handler>,
    settings: Settings,
    params: Params,
    meters: Metering.Meters)

  /** What reaches the node: a write to the settings store, or a new loudness estimate. */
  datatype Event = Write(key: Key, value: Value) | LoudnessUpdate(loudness: real)

  const BypassParam: Param := Param(LimiterElement, Prop.Bypass)

  /** The values a loudness update reads: the integer target and the current input gain. */
  predicate Readable(s: Settings, ps: Params) {
    && Key.AutovolumeTarget in s && s[Key.AutovolumeTarget].Int?
    && LevelInParam in ps && ps[LevelInParam].Double?
  }

  /** The states construction produces and events keep. */
  predicate Valid(n: Node) {
    && DistinctTargets(n.rules)
    && (n.installed ==> GainSafe(n.rules) && n.handlers == {PostMessagesHandler, LoudnessHandler})
    && (!n.installed ==> n.rules == [] && n.handlers == {})
    && Metering.AllSound(n.meters)
    && (LoudnessHandler in n.handlers ==> Readable(n.settings, n.params))
  }

  /**
    Builds the node from the stored settings. `created` says whether the
    limiter element could be made; `builtin` holds the elements' own default
    property values.
   */
  function Create(created: bool, s: Settings, builtin: Params, u: Units): (n: Node)
    ensures n.installed == created
    ensures n.settings == s && n.meters == Metering.Idle
    // without the element nothing is bound and no handler is connected
    ensures !created ==> n.rules == [] && n.handlers == {} && n.params == map[]
    ensures created ==> n.rules == Table && n.handlers == {PostMessagesHandler, LoudnessHandler}
    // the limiter is forced out of bypass, and every bound property starts at its stored value
    ensures created ==> BypassParam in n.params && n.params[BypassParam] == Bool(false)
    ensures created ==> forall i :: 0 <= i < |Table| && Forward(u, Table[i], s).Some? ==>
      Target(Table[i]) in n.params && n.params[Target(Table[i])] == Forward(u, Table[i], s).value
    ensures !created || Readable(s, builtin) ==> Valid(n)
  {
    if !created then
      Metering.IdleIsSound();
      Node(false, [], {}, s, map[], Metering.Idle)
    else
      var ps := Setup(u, s, builtin);
      TableIsGainSafe();
      TableTargetsDistinct();
      Metering.IdleIsSound();
      Node(true, Table, {PostMessagesHandler, LoudnessHandler}, s, ps, Metering.Idle)
  }

  /** Leaving bypass and registering the table keep the input gain a double, so a loudness update can read it. */
  lemma BootstrapKeepsReadable(u: Units, s: Settings, builtin: Params)
    ensures Readable(s, builtin) ==> Readable(s, ApplyConfig(u, Table, s, builtin[BypassParam := Bool(false)]))
  {
    if Readable(s, builtin) {
      var ps := builtin[BypassParam := Bool(false)];
      assert Readable(s, ps);
      LevelInIsBoundOnlyToInputGain();
      ApplyConfigKeepsDouble(u, Table, s, ps, LevelInParam);
    }
  }

  /** No rule of the table sets the bypass switch, so registering the table keeps it. */
  lemma BootstrapKeepsBypass(u: Units, s: Settings, ps: Params)
    requires BypassParam in ps
    ensures BypassParam in ApplyConfig(u, Table, s, ps)
    ensures ApplyConfig(u, Table, s, ps)[BypassParam] == ps[BypassParam]
  {
    TableLeavesBypassAlone();
    ApplyConfigKeepsUntargeted(u, Table, s, ps, BypassParam);
  }

  /**
    Takes the limiter out of bypass and binds the table from the stored
    settings: every bound property gets its stored value, the bypass switch
    stays off, and the input gain stays readable.
   */
  function Setup(u: Units, s: Settings, builtin: Params): (r: Params)
    ensures forall i :: 0 <= i < |Table| && Forward(u, Table[i], s).Some? ==>
      Target(Table[i]) in r && r[Target(Table[i])] == Forward(u, Table[i], s).value
    ensures BypassParam in r && r[BypassParam] == Bool(false)
    ensures Readable(s, builtin) ==> Readable(s, r)
  {
    var ps := builtin[BypassParam := Bool(false)];
    TableTargetsDistinct();
    ApplyConfigSetsEveryTarget(u, Table, s, ps);
    BootstrapKeepsBypass(u, s, ps);
    BootstrapKeepsReadable(u, s, builtin);
    ApplyConfig(u, Table, s, ps)
  }

  /** The settings store refuses a write whose value has another type than the key's. */
  predicate SameKind(a: Value, b: Value) {
    (a.Double? && b.Double?) || (a.Int? && b.Int?) || (a.Bool? && b.Bool?)
  }

  /** A write to the store: bound properties follow, and `post-messages` drives the meters. */
  function OnWrite(n: Node, key: Key, v: Value, u: Units): (r: Node)
    requires Valid(n)
    ensures Valid(r)
    ensures r.installed == n.installed && r.rules == n.rules && r.handlers == n.handlers
    ensures key !in n.settings || !SameKind(n.settings[key], v) ==> r == n
    ensures key in n.settings && SameKind(n.settings[key], v) ==> r.settings == n.settings[key := v]
    // every property bound to the key takes the key's converted new value
    ensures key in n.settings && SameKind(n.settings[key], v) ==>
      forall rl :: rl in n.rules && rl.key == key && Forward(u, rl, n.settings[key := v]).Some? ==>
        Target(rl) in r.params && r.params[Target(rl)] == Forward(u, rl, n.settings[key := v]).value
    // every other property keeps its value
    ensures forall p :: (forall rl :: rl in n.rules && rl.key == key ==> Target(rl) != p) ==>
      (p in r.params <==> p in n.params) && (p in n.params ==> r.params[p] == n.params[p])
    ensures key != Key.PostMessages ==> r.meters == n.meters
  {
    if key !in n.settings || !SameKind(n.settings[key], v) then n
    else
      var s := n.settings[key := v];
      var ps := SettingChanged(u, n.rules, key, s, n.params);
      SettingChangedSetsBound(u, n.rules, key, s, n.params);
      SettingChangedKeepsUnbound(u, n.rules, key, s, n.params);
      var ms :=
        if key == Key.PostMessages && PostMessagesHandler in n.handlers && v.Bool?
        then Metering.OnPostMessagesChanged(n.meters, v.b)
        else n.meters;
      if LoudnessHandler in n.handlers then
        SettingChangedKeepsDouble(u, n.rules, key, s, n.params, LevelInParam);
        Node(n.installed, n.rules, n.handlers, s, ps, ms)
      else
        Node(n.installed, n.rules, n.handlers, s, ps, ms)
  }

  /**
    A loudness update: one auto-volume step on the input gain, read fresh in
    dB and written back as a linear gain; the two-way binding then stores the
    new gain in `input-gain`.
   */
  function OnLoudness(n: Node, peak: real, u: Units): (r: Node)
    requires Valid(n)
    ensures Valid(r)
    ensures r.installed == n.installed && r.rules == n.rules && r.handlers == n.handlers
    ensures r.meters == n.meters
    ensures LoudnessHandler !in n.handlers ==> r == n
  {
    if LoudnessHandler !in n.handlers then n
    else
      var target := n.settings[Key.AutovolumeTarget].i;
      var gainDb := u.linearToDb(n.params[LevelInParam].d);
      var level := Double(u.dbToLinear(AutoVolume.Step(gainDb, peak, target)));
      var s := ParamChanged(u, n.rules, LevelInParam, level, n.settings);
      ParamChangedKeepsUnboundKey(u, n.rules, LevelInParam, level, n.settings, Key.AutovolumeTarget);
      Node(n.installed, n.rules, n.handlers, s, n.params[LevelInParam := level], n.meters)
  }

  function Dispatch(n: Node, ev: Event, u: Units): (r: Node)
    requires Valid(n)
    ensures Valid(r)
    ensures r.installed == n.installed && r.rules == n.rules && r.handlers == n.handlers
  {
    match ev
    case Write(key, v) => OnWrite(n, key, v, u)
    case LoudnessUpdate(peak) => OnLoudness(n, peak, u)
  }

  /** The node after a sequence of events, in arrival order. */
  function Replay(n: Node, evs: seq<Event>, u: Units): (r: Node)
    requires Valid(n)
    ensures Valid(r)
    decreases |evs|
  {
    if |evs| == 0 then n else Replay(Dispatch(n, evs[0], u), evs[1..], u)
  }

  /**
    Without the limiter element the node stays inert: whatever is written or
    measured, no property is set and no meter timer is ever started.
   */
  lemma {:induction false} NotInstalledIsInert(n: Node, evs: seq<Event>, u: Units)
    requires Valid(n) && !n.installed
    ensures Replay(n, evs, u).params == n.params
    ensures Replay(n, evs, u).meters == n.meters
    ensures Replay(n, evs, u).handlers == {}
    decreases |evs|
  {
    if |evs| > 0 {
      var next := Dispatch(n, evs[0], u);
      assert next.params == n.params && next.meters == n.meters;
      NotInstalledIsInert(next, evs[1..], u);
    }
  }

  /** A node built without the limiter element never arms a meter timer and never has a property. */
  lemma FailedCreateStaysInert(s: Settings, builtin: Params, u: Units, evs: seq<Event>)
    ensures Replay(Create(false, s, builtin, u), evs, u).params == map[]
    ensures Metering.NoneArmed(Replay(Create(false, s, builtin, u), evs, u).meters)
  {
    NotInstalledIsInert(Create(false, s, builtin, u), evs, u);
  }

  /** Whatever happens to a node, no meter ever has two live timers. */
  lemma NeverTwoLiveTimers(n: Node, evs: seq<Event>, u: Units)
    requires Valid(n)
    ensures Metering.Live(Replay(n, evs, u).meters.input) <= 1
    ensures Metering.Live(Replay(n, evs, u).meters.output) <= 1
    ensures Metering.Live(Replay(n, evs, u).meters.attenuation) <= 1
  {
    var r := Replay(n, evs, u);
    Metering.SoundHasAtMostOneLive(r.meters.input);
    Metering.SoundHasAtMostOneLive(r.meters.output);
    Metering.SoundHasAtMostOneLive(r.meters.attenuation);
  }

  /** On an installed node, writing `post-messages` true connects all three meters, and false disarms them all. */
  lemma PostMessagesDrivesMeters(n: Node, b: bool, u: Units)
    requires Valid(n) && n.installed
    requires Key.PostMessages in n.settings && n.settings[Key.PostMessages].Bool?
    ensures b ==> Metering.AllConnected(OnWrite(n, Key.PostMessages, Bool(b), u).meters)
    ensures !b ==> Metering.NoneArmed(OnWrite(n, Key.PostMessages, Bool(b), u).meters)
  {
  }

  /**
    On an installed node whose rules include the table's two GET rules of
    `limit` (the table does, by `Bindings.LimitRulesInTable`), a write of a
    double to `limit` sets both the limiter's `limit` and its `level-out` to
    the same linear gain, and leaves its input gain alone.
   */
  lemma LimitWriteSetsLimitAndLevelOut(n: Node, d: real, u: Units)
    requires Valid(n) && n.installed
    requires Rule(Key.Limit, LimiterElement, Prop.Limit, BindGet, Db20GainToLinear, None) in n.rules
    requires Rule(Key.Limit, LimiterElement, Prop.LevelOut, BindGet, Db20GainToLinear, None) in n.rules
    requires Key.Limit in n.settings && n.settings[Key.Limit].Double?
    ensures var r := OnWrite(n, Key.Limit, Double(d), u);
      && Param(LimiterElement, Prop.Limit) in r.params
      && r.params[Param(LimiterElement, Prop.Limit)] == Double(u.db20GainToLinear(d))
      && Param(LimiterElement, Prop.LevelOut) in r.params
      && r.params[Param(LimiterElement, Prop.LevelOut)] == Double(u.db20GainToLinear(d))
      && (LevelInParam in r.params <==> LevelInParam in n.params)
      && (LevelInParam in n.params ==> r.params[LevelInParam] == n.params[LevelInParam])
  {
    var s := n.settings[Key.Limit := Double(d)];
    var toLimit := Rule(Key.Limit, LimiterElement, Prop.Limit, BindGet, Db20GainToLinear, None);
    var toLevelOut := Rule(Key.Limit, LimiterElement, Prop.LevelOut, BindGet, Db20GainToLinear, None);
    assert Forward(u, toLimit, s) == Some(Double(u.db20GainToLinear(d)));
    assert Forward(u, toLevelOut, s) == Some(Double(u.db20GainToLinear(d)));
    assert forall rl :: rl in n.rules && rl.key == Key.Limit ==> Target(rl) != LevelInParam;
  }

  /**
    The bootstrap write at construction stores key `state` with the value it
    just read; this changes no setting, no property and no meter.
   */
  lemma StateRewriteChangesNothing(n: Node, u: Units)
    requires Valid(n) && (n.rules == Table || n.rules == [])
    requires Key.State in n.settings
    ensures OnWrite(n, Key.State, n.settings[Key.State], u) == n
  {
    var v := n.settings[Key.State];
    assert n.settings[Key.State := v] == n.settings;
    assert forall r :: r in n.rules ==> r.key != Key.State by {
      TableLeavesReadKeysUnbound();
    }
    UnboundKeyMovesNothing(u, n.rules, Key.State, n.settings, n.params);
  }

  /**
    The tolerance is never read: a loudness update sets the same properties
    whatever `autovolume-tolerance` holds.
   */
  lemma ToleranceIsIgnored(n: Node, peak: real, u: Units, tolerance: int)
    requires Valid(n)
    ensures Valid(n.(settings := n.settings[Key.AutovolumeTolerance := Int(tolerance)]))
    ensures OnLoudness(n.(settings := n.settings[Key.AutovolumeTolerance := Int(tolerance)]), peak, u).params
         == OnLoudness(n, peak, u).params
  {
  }

  /**
    A loudness update on an installed node changes the input gain by one
    auto-volume step, read in dB and written back as a linear gain, stores
    the new gain in `input-gain` through the two-way binding, and touches no
    other property, setting or meter.
   */
  lemma LoudnessAdjustsOnlyInputGain(n: Node, peak: real, u: Units)
    requires Valid(n) && n.installed && n.rules == Table
    ensures var r := OnLoudness(n, peak, u);
      var gainDb := u.linearToDb(n.params[LevelInParam].d);
      var stepped := AutoVolume.Step(gainDb, peak, n.settings[Key.AutovolumeTarget].i);
      && r.params == n.params[LevelInParam := Double(u.dbToLinear(stepped))]
      && r.settings == n.settings[Key.InputGain := Double(u.linearGainToDb20(u.dbToLinear(stepped)))]
      && r.meters == n.meters
  {
    var gainDb := u.linearToDb(n.params[LevelInParam].d);
    var stepped := AutoVolume.Step(gainDb, peak, n.settings[Key.AutovolumeTarget].i);
    LevelInWritesBackInputGain(u, Double(u.dbToLinear(stepped)), n.settings);
  }
}
