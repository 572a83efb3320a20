/**
  The limiter plugin's settings bindings.

  Each rule ties one settings key to one property of the limiter element or
  of the loudness-measurement element. A rule with the DEFAULT flags works
  both ways: settings values go to the property, and property changes come
  back to the settings. A rule with the GET flag only sends settings values
  to the property. A value is converted on the way by a mapping. The unit
  conversions themselves are not modelled: they are uninterpreted functions
  gathered in `Units`.
 */
module Bindings {
  import opened Wrappers

  /** The two sub-elements whose properties are bound. */
  datatype Element = LimiterElement | LoudnessElement

  /** The settings keys of the limiter's schema that this model reads or binds. */
  datatype Key =
    | InputGain | Limit | Lookahead | Release | Asc | AscLevel | Oversampling
    | AutovolumeState | AutovolumeWindow | AutovolumeTarget | AutovolumeTolerance
    | PostMessages | State

  /** The properties of the two sub-elements that the plugin sets. */
  datatype Prop =
    | LevelIn | Limit | LevelOut | Attack | Release | Asc | AscCoeff | Oversampling
    | PostMessages | Interval | Bypass

  /** A property of a sub-element. */
  datatype Param = Param(element: Element, name: Prop)

  /** A settings or property value; the settings store checks each key's type. */
  datatype Value = Double(d: real) | Int(i: int) | Bool(b: bool)

  /** DEFAULT binds both ways; GET only from settings to property. */
  datatype Flags = BindDefault | BindGet

  /** The conversions a rule may apply. `Identity` is the plain binding without a mapping. */
  datatype Mapping = Identity | Db20GainToLinear | LinearGainToDb20 | DoubleToFloat | MsToNs

  /** The numeric conversions, left uninterpreted. */
  datatype Units = Units(
    db20GainToLinear: real -> real,
    linearGainToDb20: real -> real,
    doubleToFloat: real -> real,
    msToNs: real -> int,
    linearToDb: real -> real,
    dbToLinear: real -> real)

  datatype Rule = Rule(key: Key, element: Element, param: Prop, flags: Flags,
                       toParam: Mapping, toSettings: Option<Mapping>)

  type Params = map<Param, Value>
  type Settings = map<Key, Value>

  function Target(r: Rule): Param {
    Param(r.element, r.param)
  }

  /** The numeric conversion a non-plain mapping stands for. */
  function Convert(u: Units, m: Mapping, x: real): Value
    requires m != Identity
  {
    match m
    case Db20GainToLinear => Double(u.db20GainToLinear(x))
    case LinearGainToDb20 => Double(u.linearGainToDb20(x))
    case DoubleToFloat => Double(u.doubleToFloat(x))
    case MsToNs => Int(u.msToNs(x))
  }

  /**
    Converts a value through a mapping. The plain binding passes any value on;
    the numeric mappings read a double, and given anything else they fail and
    the binding writes nothing.
   */
  function Apply(u: Units, m: Mapping, v: Value): (r: Option<Value>)
    ensures m == Identity ==> r == Some(v)
    ensures m != Identity ==> (r.Some? <==> v.Double?)
    ensures m == MsToNs && r.Some? ==> r.value.Int?
    ensures m != Identity && m != MsToNs && r.Some? ==> r.value.Double?
  {
    if m == Identity then Some(v)
    else if v.Double? then Some(Convert(u, m, v.d))
    else None
  }

  /** The value a rule sends to its property for the given settings, if any. */
  function Forward(u: Units, r: Rule, s: Settings): Option<Value> {
    if r.key in s then Apply(u, r.toParam, s[r.key]) else None
  }

  /** The binding table, in the order the rules are registered. */
  const Table: seq<Rule> := [
    Rule(Key.InputGain, LimiterElement, Prop.LevelIn, BindDefault, Db20GainToLinear, Some(LinearGainToDb20)),
    Rule(Key.Limit, LimiterElement, Prop.Limit, BindGet, Db20GainToLinear, None),
    // the element adds makeup gain equal to the limit, so the output level follows the limit
    Rule(Key.Limit, LimiterElement, Prop.LevelOut, BindGet, Db20GainToLinear, None),
    Rule(Key.Lookahead, LimiterElement, Prop.Attack, BindGet, DoubleToFloat, None),
    Rule(Key.Release, LimiterElement, Prop.Release, BindGet, DoubleToFloat, None),
    Rule(Key.Asc, LimiterElement, Prop.Asc, BindDefault, Identity, Some(Identity)),
    Rule(Key.AscLevel, LimiterElement, Prop.AscCoeff, BindGet, DoubleToFloat, None),
    Rule(Key.Oversampling, LimiterElement, Prop.Oversampling, BindDefault, Identity, Some(Identity)),
    Rule(Key.AutovolumeState, LoudnessElement, Prop.PostMessages, BindDefault, Identity, Some(Identity)),
    Rule(Key.AutovolumeWindow, LoudnessElement, Prop.Interval, BindGet, MsToNs, None)
  ]

  const LevelInParam: Param := Param(LimiterElement, Prop.LevelIn)

  /** The properties the given rules set. */
  function Targets(rules: seq<Rule>): set<Param>
    decreases |rules|
  {
    if |rules| == 0 then {} else {Target(rules[0])} + Targets(rules[1..])
  }

  /** The keys that a change of property `p` writes back: those of the DEFAULT rules on `p`. */
  function WriteBackKeys(rules: seq<Rule>, p: Param): set<Key>
    decreases |rules|
  {
    if |rules| == 0 then {}
    else
      var own := if rules[0].flags == BindDefault && Target(rules[0]) == p then {rules[0].key} else {};
      own + WriteBackKeys(rules[1..], p)
  }

  predicate DistinctTargets(rules: seq<Rule>) {
    forall i, j :: 0 <= i < j < |rules| ==> Target(rules[i]) != Target(rules[j])
  }

  /** Pushes one rule's settings value into its property. */
  function Push(u: Units, r: Rule, s: Settings, ps: Params): (r': Params)
    ensures Forward(u, r, s).Some? ==> Target(r) in r' && r'[Target(r)] == Forward(u, r, s).value
    ensures forall p :: p != Target(r) ==> (p in r' <==> p in ps) && (p in ps ==> r'[p] == ps[p])
    ensures Forward(u, r, s).None? ==> r' == ps
  {
    match Forward(u, r, s)
    case Some(v) => ps[Target(r) := v]
    case None => ps
  }

  /**
    Registers the rules in order; every rule immediately pushes the current
    settings value into its property.
   */
  function ApplyConfig(u: Units, rules: seq<Rule>, s: Settings, ps: Params): (r: Params)
    // no property is dropped, and the only properties added are targets of the rules
    ensures ps.Keys <= r.Keys <= ps.Keys + Targets(rules)
    decreases |rules|
  {
    if |rules| == 0 then ps
    else
      ApplyConfig(u, rules[1..], s, Push(u, rules[0], s, ps))
  }

  /**
    With distinct targets, after registration every rule's property holds its
    converted settings value, and every property no rule sets keeps its value.
   */
  lemma {:induction false} ApplyConfigSetsEveryTarget(u: Units, rules: seq<Rule>, s: Settings, ps: Params)
    requires DistinctTargets(rules)
    ensures forall i :: 0 <= i < |rules| && Forward(u, rules[i], s).Some? ==>
      Target(rules[i]) in ApplyConfig(u, rules, s, ps) &&
      ApplyConfig(u, rules, s, ps)[Target(rules[i])] == Forward(u, rules[i], s).value
    ensures forall p :: (forall i :: 0 <= i < |rules| && Target(rules[i]) == p ==> Forward(u, rules[i], s).None?) ==>
      (p in ApplyConfig(u, rules, s, ps) <==> p in ps) &&
      (p in ps ==> ApplyConfig(u, rules, s, ps)[p] == ps[p])
    decreases |rules|
  {
    if |rules| > 0 {
      var ps' := Push(u, rules[0], s, ps);
      var tail := rules[1..];
      assert DistinctTargets(tail) by {
        forall i, j | 0 <= i < j < |tail|
          ensures Target(tail[i]) != Target(tail[j])
        {
          assert tail[i] == rules[i + 1] && tail[j] == rules[j + 1];
        }
      }
      ApplyConfigSetsEveryTarget(u, tail, s, ps');
      var out := ApplyConfig(u, rules, s, ps);
      assert out == ApplyConfig(u, tail, s, ps');
      forall i | 0 <= i < |rules| && Forward(u, rules[i], s).Some?
        ensures Target(rules[i]) in out && out[Target(rules[i])] == Forward(u, rules[i], s).value
      {
        if i == 0 {
          forall k | 0 <= k < |tail|
            ensures Target(tail[k]) != Target(rules[0])
          {
            assert tail[k] == rules[k + 1];
          }
        } else {
          assert rules[i] == tail[i - 1];
        }
      }
      forall p | (forall i :: 0 <= i < |rules| && Target(rules[i]) == p ==> Forward(u, rules[i], s).None?)
        ensures (p in out <==> p in ps) && (p in ps ==> out[p] == ps[p])
      {
        forall k | 0 <= k < |tail| && Target(tail[k]) == p
          ensures Forward(u, tail[k], s).None?
        {
          assert tail[k] == rules[k + 1];
        }
      }
    }
  }

  /** A property that holds a double keeps holding one when every rule on it maps to a double. */
  lemma {:induction false} ApplyConfigKeepsDouble(u: Units, rules: seq<Rule>, s: Settings, ps: Params, p: Param)
    requires p in ps && ps[p].Double?
    requires forall r :: r in rules && Target(r) == p ==> r.toParam != Identity && r.toParam != MsToNs
    ensures p in ApplyConfig(u, rules, s, ps) && ApplyConfig(u, rules, s, ps)[p].Double?
    decreases |rules|
  {
    if |rules| > 0 {
      assert forall r :: r in rules[1..] ==> r in rules;
      ApplyConfigKeepsDouble(u, rules[1..], s, Push(u, rules[0], s, ps), p);
    }
  }

  /** A property no rule targets keeps its value through registration. */
  lemma {:induction false} ApplyConfigKeepsUntargeted(u: Units, rules: seq<Rule>, s: Settings, ps: Params, p: Param)
    requires forall r :: r in rules ==> Target(r) != p
    ensures p in ApplyConfig(u, rules, s, ps) <==> p in ps
    ensures p in ps ==> ApplyConfig(u, rules, s, ps)[p] == ps[p]
    decreases |rules|
  {
    if |rules| > 0 {
      assert forall r :: r in rules[1..] ==> r in rules;
      ApplyConfigKeepsUntargeted(u, rules[1..], s, Push(u, rules[0], s, ps), p);
    }
  }

  /** The rules that react to a change of `key`. */
  function RulesFor(rules: seq<Rule>, key: Key): (r: seq<Rule>)
    ensures forall x :: x in r <==> x in rules && x.key == key
    decreases |rules|
  {
    if |rules| == 0 then []
    else (if rules[0].key == key then [rules[0]] else []) + RulesFor(rules[1..], key)
  }

  /** A settings change: every rule bound to the changed key pushes the new value into its property. */
  function SettingChanged(u: Units, rules: seq<Rule>, key: Key, s: Settings, ps: Params): (r: Params)
    // no property is dropped, and the only properties added are targets of rules bound to the key
    ensures ps.Keys <= r.Keys <= ps.Keys + Targets(RulesFor(rules, key))
  {
    ApplyConfig(u, RulesFor(rules, key), s, ps)
  }

  /** The rules reacting to one key still set pairwise distinct properties. */
  lemma {:induction false} RulesForKeepsDistinct(rules: seq<Rule>, key: Key)
    requires DistinctTargets(rules)
    ensures DistinctTargets(RulesFor(rules, key))
    decreases |rules|
  {
    if |rules| > 0 {
      var tail := rules[1..];
      assert DistinctTargets(tail) by {
        forall i, j | 0 <= i < j < |tail|
          ensures Target(tail[i]) != Target(tail[j])
        {
          assert tail[i] == rules[i + 1] && tail[j] == rules[j + 1];
        }
      }
      RulesForKeepsDistinct(tail, key);
      var rest := RulesFor(tail, key);
      if rules[0].key == key {
        var out := [rules[0]] + rest;
        assert RulesFor(rules, key) == out;
        forall j | 0 <= j < |rest|
          ensures Target(rest[j]) != Target(rules[0])
        {
          assert rest[j] in tail;
          var k :| 0 <= k < |tail| && tail[k] == rest[j];
          assert tail[k] == rules[k + 1];
        }
        forall i, j | 0 <= i < j < |out|
          ensures Target(out[i]) != Target(out[j])
        {
          assert out[j] == rest[j - 1];
          if i > 0 {
            assert out[i] == rest[i - 1];
          }
        }
      } else {
        assert RulesFor(rules, key) == rest;
      }
    }
  }

  /**
    A settings change sets every property bound to the changed key to the
    key's converted new value, so one write of `limit` moves both `limit` and
    `level-out`.
   */
  lemma SettingChangedSetsBound(u: Units, rules: seq<Rule>, key: Key, s: Settings, ps: Params)
    requires DistinctTargets(rules)
    ensures forall r :: r in rules && r.key == key && Forward(u, r, s).Some? ==>
      Target(r) in SettingChanged(u, rules, key, s, ps) &&
      SettingChanged(u, rules, key, s, ps)[Target(r)] == Forward(u, r, s).value
  {
    var bound := RulesFor(rules, key);
    RulesForKeepsDistinct(rules, key);
    ApplyConfigSetsEveryTarget(u, bound, s, ps);
    forall r | r in rules && r.key == key && Forward(u, r, s).Some?
      ensures Target(r) in SettingChanged(u, rules, key, s, ps) &&
              SettingChanged(u, rules, key, s, ps)[Target(r)] == Forward(u, r, s).value
    {
      assert r in bound;
      var i :| 0 <= i < |bound| && bound[i] == r;
    }
  }

  /** A settings change leaves every property that no rule of the changed key sets as it was. */
  lemma SettingChangedKeepsUnbound(u: Units, rules: seq<Rule>, key: Key, s: Settings, ps: Params)
    ensures forall p :: (forall r :: r in rules && r.key == key ==> Target(r) != p) ==>
      (p in SettingChanged(u, rules, key, s, ps) <==> p in ps) &&
      (p in ps ==> SettingChanged(u, rules, key, s, ps)[p] == ps[p])
  {
    forall p | forall r :: r in rules && r.key == key ==> Target(r) != p
      ensures p in SettingChanged(u, rules, key, s, ps) <==> p in ps
      ensures p in ps ==> SettingChanged(u, rules, key, s, ps)[p] == ps[p]
    {
      ApplyConfigKeepsUntargeted(u, RulesFor(rules, key), s, ps, p);
    }
  }

  /** A settings change keeps a double property a double when every rule on it maps to a double. */
  lemma SettingChangedKeepsDouble(u: Units, rules: seq<Rule>, key: Key, s: Settings, ps: Params, p: Param)
    requires p in ps && ps[p].Double?
    requires forall r :: r in rules && Target(r) == p ==> r.toParam != Identity && r.toParam != MsToNs
    ensures p in SettingChanged(u, rules, key, s, ps) && SettingChanged(u, rules, key, s, ps)[p].Double?
  {
    ApplyConfigKeepsDouble(u, RulesFor(rules, key), s, ps, p);
  }

  /** No rule reacts to a key no rule is bound to. */
  lemma {:induction false} NoRulesForUnboundKey(rules: seq<Rule>, key: Key)
    requires forall r :: r in rules ==> r.key != key
    ensures RulesFor(rules, key) == []
    decreases |rules|
  {
    if |rules| > 0 {
      assert rules[0] in rules;
      assert forall r :: r in rules[1..] ==> r in rules;
      NoRulesForUnboundKey(rules[1..], key);
    }
  }

  /** A write to a key no rule is bound to changes no property. */
  lemma UnboundKeyMovesNothing(u: Units, rules: seq<Rule>, key: Key, s: Settings, ps: Params)
    requires forall r :: r in rules ==> r.key != key
    ensures SettingChanged(u, rules, key, s, ps) == ps
  {
    NoRulesForUnboundKey(rules, key);
  }

  /**
    A property change: every DEFAULT rule on that property converts the new
    value back into its settings key. GET rules never write settings.
   */
  function ParamChanged(u: Units, rules: seq<Rule>, p: Param, v: Value, s: Settings): (r: Settings)
    // no key is dropped, and the only keys added belong to DEFAULT rules on the property
    ensures s.Keys <= r.Keys <= s.Keys + WriteBackKeys(rules, p)
    // with only GET rules on the property, the settings are left untouched
    ensures (forall x :: x in rules && Target(x) == p ==> x.flags == BindGet) ==> r == s
    decreases |rules|
  {
    if |rules| == 0 then s
    else
      var r := rules[0];
      var s' :=
        if Target(r) == p && r.flags == BindDefault && r.toSettings.Some? then
          match Apply(u, r.toSettings.value, v)
          case Some(w) => s[r.key := w]
          case None => s
        else s;
      assert forall x :: x in rules[1..] ==> x in rules;
      ParamChanged(u, rules[1..], p, v, s')
  }

  /** When only the first rule targets the property, a change of it is that rule's write-back alone. */
  lemma ParamChangedSingleWriter(u: Units, rules: seq<Rule>, p: Param, v: Value, s: Settings)
    requires |rules| > 0 && Target(rules[0]) == p && rules[0].flags == BindDefault && rules[0].toSettings.Some?
    requires forall r :: r in rules[1..] ==> Target(r) != p
    ensures ParamChanged(u, rules, p, v, s) ==
      match Apply(u, rules[0].toSettings.value, v)
      case Some(w) => s[rules[0].key := w]
      case None => s
  {
  }

  /** A property change only writes keys of DEFAULT rules on that property; every other key keeps its value. */
  lemma {:induction false} ParamChangedKeepsUnboundKey(u: Units, rules: seq<Rule>, p: Param, v: Value, s: Settings, k: Key)
    requires forall r :: r in rules && r.key == k ==> Target(r) != p || r.flags == BindGet
    ensures k in ParamChanged(u, rules, p, v, s) <==> k in s
    ensures k in s ==> ParamChanged(u, rules, p, v, s)[k] == s[k]
    decreases |rules|
  {
    if |rules| > 0 {
      var r := rules[0];
      var s' :=
        if Target(r) == p && r.flags == BindDefault && r.toSettings.Some? then
          match Apply(u, r.toSettings.value, v)
          case Some(w) => s[r.key := w]
          case None => s
        else s;
      assert forall x :: x in rules[1..] ==> x in rules;
      ParamChangedKeepsUnboundKey(u, rules[1..], p, v, s', k);
    }
  }

  /** Every rule on the limiter's input gain is the dB binding of key `input-gain`. */
  predicate GainSafe(rules: seq<Rule>) {
    forall r :: r in rules && Target(r) == LevelInParam ==> r.key == Key.InputGain && r.toParam == Db20GainToLinear
  }

  /** No two rules of the table set the same property. */
  lemma TableTargetsDistinct()
    ensures DistinctTargets(Table)
  {
  }

  /** Key `limit` drives exactly the `limit` and `level-out` properties, through the same dB-to-linear mapping. */
  lemma LimitDrivesLimitAndLevelOut()
    ensures forall r :: r in Table && r.key == Key.Limit ==> r.toParam == Db20GainToLinear && r.element == LimiterElement
    ensures (set r | r in Table && r.key == Key.Limit :: r.param) == {Prop.Limit, Prop.LevelOut}
  {
  }

  /**
    The keys the plugin reads itself, `post-messages`, `autovolume-target`,
    `autovolume-tolerance` and `state`, are bound to no property.
   */
  lemma TableLeavesReadKeysUnbound()
    ensures forall r :: r in Table ==>
      r.key != Key.PostMessages && r.key != Key.AutovolumeTarget &&
      r.key != Key.AutovolumeTolerance && r.key != Key.State
  {
  }

  /** A rule has a mapping back to the settings exactly when it is not a GET rule. */
  lemma GetRulesAreOneWay()
    ensures forall r :: r in Table ==> (r.flags == BindGet <==> r.toSettings.None?)
  {
  }

  /** Exactly `input-gain`, `asc`, `oversampling` and `autovolume-state` are bound both ways. */
  lemma BidirectionalKeys()
    ensures (set r | r in Table && r.flags == BindDefault :: r.key) ==
      {Key.InputGain, Key.Asc, Key.Oversampling, Key.AutovolumeState}
  {
  }

  /** The only rule on the limiter's input-gain property is the two-way dB binding of `input-gain`. */
  lemma LevelInIsBoundOnlyToInputGain()
    ensures forall r :: r in Table && Target(r) == LevelInParam ==>
      r == Rule(Key.InputGain, LimiterElement, Prop.LevelIn, BindDefault, Db20GainToLinear, Some(LinearGainToDb20))
  {
  }

  /** The two rules of key `limit`, as registered. */
  lemma LimitRulesInTable()
    ensures Rule(Key.Limit, LimiterElement, Prop.Limit, BindGet, Db20GainToLinear, None) in Table
    ensures Rule(Key.Limit, LimiterElement, Prop.LevelOut, BindGet, Db20GainToLinear, None) in Table
  {
    assert Table[1] == Rule(Key.Limit, LimiterElement, Prop.Limit, BindGet, Db20GainToLinear, None);
    assert Table[2] == Rule(Key.Limit, LimiterElement, Prop.LevelOut, BindGet, Db20GainToLinear, None);
  }

  /** No rule of the table sets the limiter's bypass switch. */
  lemma TableLeavesBypassAlone()
    ensures forall r :: r in Table ==> Target(r) != Param(LimiterElement, Prop.Bypass)
  {
  }

  /** The table binds the input gain only to `input-gain`. */
  lemma TableIsGainSafe()
    ensures GainSafe(Table)
  {
    LevelInIsBoundOnlyToInputGain();
  }

  /** After the first rule, no rule of the table sets the limiter's input gain. */
  lemma TableTailLeavesLevelInAlone()
    ensures forall r :: r in Table[1..] ==> Target(r) != LevelInParam
  {
  }

  /**
    A change of the limiter's input-gain property is converted back to dB and
    stored in `input-gain`; no other key is written.
   */
  lemma LevelInWritesBackInputGain(u: Units, v: Value, s: Settings)
    ensures ParamChanged(u, Table, LevelInParam, v, s) ==
      (if v.Double? then s[Key.InputGain := Double(u.linearGainToDb20(v.d))] else s)
  {
    assert Table[0] == Rule(Key.InputGain, LimiterElement, Prop.LevelIn, BindDefault, Db20GainToLinear, Some(LinearGainToDb20));
    TableTailLeavesLevelInAlone();
    ParamChangedSingleWriter(u, Table, LevelInParam, v, s);
  }

  /**
    Setting up the table from stored settings: each bound property starts at
    its converted settings value rather than the element's built-in default,
    without any change notification; `level-out` starts equal to `limit`.
   */
  lemma TableBootstrap(u: Units, s: Settings, ps: Params)
    ensures forall r :: r in Table && Forward(u, r, s).Some? ==>
      Target(r) in ApplyConfig(u, Table, s, ps) &&
      ApplyConfig(u, Table, s, ps)[Target(r)] == Forward(u, r, s).value
    ensures Key.Limit in s && s[Key.Limit].Double? ==>
      ApplyConfig(u, Table, s, ps)[Param(LimiterElement, Prop.Limit)] ==
      ApplyConfig(u, Table, s, ps)[Param(LimiterElement, Prop.LevelOut)]
  {
    TableTargetsDistinct();
    ApplyConfigSetsEveryTarget(u, Table, s, ps);
    forall r | r in Table && Forward(u, r, s).Some?
      ensures Target(r) in ApplyConfig(u, Table, s, ps) &&
              ApplyConfig(u, Table, s, ps)[Target(r)] == Forward(u, r, s).value
    {
      var i :| 0 <= i < |Table| && Table[i] == r;
    }
    if Key.Limit in s && s[Key.Limit].Double? {
      assert Forward(u, Table[1], s).Some? && Forward(u, Table[2], s).Some?;
    }
  }
}
