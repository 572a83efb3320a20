# Limiter plugin: auto-volume, metering and settings bindings

This project models the control logic of the limiter plugin of PulseEffects (`src/limiter.cpp`).
The plugin wraps the Calf limiter element and a loudness-measurement element (`peebur`) in one
pipeline node. The model covers four pieces of it:

- **AutoVolume**: the auto-volume step rule. On each loudness update the plugin reads the
  limiter's input gain in dB and the integer target `autovolume-target`. It moves the gain one
  dB towards the target, but only when the moved gain stays inside [-36, 36] dB; otherwise the
  gain stays where it is. The gain is a `real` in dB, because the source keeps it in a `float`
  that comes from a dB conversion, so it need not be a whole number of dB.
- **Metering**: the `post-messages` handler. There are three timer connections: input level,
  output level and attenuation. On `true`, each meter whose connection is not connected gets a
  fresh 100 ms timer. On `false`, all three are disconnected. Every meter records its handle,
  the set of its timers still armed on the event loop, and how many timers it has ever started.
- **Bindings**: the settings-to-property binding table. A DEFAULT rule binds both ways; a GET
  rule only sends settings to the property. Each rule has a forward mapping and, for DEFAULT
  rules, a backward one. Registering the table pushes every stored value into its property.
- **LimiterNode**: construction and event dispatch. All setup depends on the limiter element
  having been created: the table, the `post-messages` handler and the loudness handler. Events
  are settings writes and loudness updates, handled one at a time in arrival order.

The unit conversions (`db20_gain_to_linear`, `linear_gain_to_db20`, `linear_to_db`,
`db_to_linear`, `double_to_float`, `ms_to_ns`) are uninterpreted function fields of
`Bindings.Units`. Nothing is claimed about them.

Three points of the code's behaviour deserve a note:

- At the end of construction the code reads key `state` and writes it back. It does not touch
  `post-messages`, so the metering handler does not run then. A freshly built node has no meter
  timer, whatever `post-messages` holds (`LimiterNode.Create`,
  `LimiterNode.StateRewriteChangesNothing`).
- The code keeps the gain when a one-dB move would leave [-36, 36] dB; it does not clamp. A
  clamping rule `max(g - 1, -36)` / `min(g + 1, 36)` agrees with the code only on whole-dB gains
  (`AutoVolume.StepIsClampedOnWholeDb`). At -35.5 dB the code keeps the gain
  (`AutoVolume.StepIsNotClampedOffGrid`).
- The destructor only logs; it disconnects no meter timer.

## Model

| member | source | states |
|---|---|---|
| AutoVolume.Step | src/limiter.cpp:173-181 | one event moves the gain by exactly one dB or not at all; it never moves away from the target, never moves on an exact match, and never moves below -36 dB or above 36 dB |
| AutoVolume.OverTargetDecrements | src/limiter.cpp:173-176 | over target, the gain drops by exactly 1 dB if and only if the lowered gain is still at least -36 dB; otherwise it is unchanged |
| AutoVolume.UnderTargetIncrements | src/limiter.cpp:177-180 | under target, the gain rises by exactly 1 dB if and only if the raised gain is still at most 36 dB; otherwise it is unchanged |
| AutoVolume.StepKeepsRange | src/limiter.cpp:173-180 | a gain inside [-36, 36] dB stays inside after one event |
| AutoVolume.StepIsClampedOnWholeDb | src/limiter.cpp:173-181 | on whole-dB gains in range, the step equals the clamped rule max(g-1,-36) / min(g+1,36) / g |
| AutoVolume.StepIsNotClampedOffGrid | src/limiter.cpp:174-176 | at -35.5 dB an over-target event keeps the gain at -35.5 dB, which is not the clamped value -36 dB, so the clamped rule does not describe the code off the grid |
| AutoVolume.Run | src/limiter.cpp:163-186 | a sequence of loudness updates, each with the target read at that moment, yields one gain per update, and each gain is one step from the gain before it towards that update's own target |
| AutoVolume.RunStaysInRange | src/limiter.cpp:166-180 | starting inside [-36, 36] dB, every gain of any run stays inside, however the target changes between updates |
| AutoVolume.RunMovesOneDbAtATime | src/limiter.cpp:166-180 | consecutive gains of any run differ by at most 1 dB, however the target changes between updates |
| AutoVolume.FinalDriftBounded | src/limiter.cpp:166-180 | after n updates the gain is at most n dB from where it started, however the target changes |
| AutoVolume.FloorIsSticky | src/limiter.cpp:166-176 | updates that each lie above their own target keep a gain that starts at -36 dB there |
| AutoVolume.ScenarioTwoDownOneUp | src/limiter.cpp:163-186 | target -23, gain 0 dB, loudness -18, -18, -30 gives gains -1, -2, -1 dB |
| AutoVolume.ScenarioTargetMoves | src/limiter.cpp:166-180 | the target is re-read per update: -18 against -23 lowers 0 dB to -1 dB, then -18 against -10 raises it back to 0 dB |
| AutoVolume.ScenarioCeiling | src/limiter.cpp:177-180 | target -23, gain 36 dB, loudness -30 keeps the gain at 36 dB |
| Metering.Connected | src/limiter.cpp:11 | the handle's `connected()` test: it holds a timer that is still armed; it has no contract of its own, and `Metering.SoundHasAtMostOneLive` ties it to the live-timer count |
| Metering.SoundHasAtMostOneLive | src/limiter.cpp:11-57 | a meter with no leaked timer has at most one live timer, and exactly one when its connection is connected |
| Metering.Connect | src/limiter.cpp:12-25 | connecting arms a timer not armed before, stores its handle and counts one more start |
| Metering.Disconnect | src/limiter.cpp:60-62 | disconnecting disarms exactly the held timer; the handle is then not connected and no start is counted |
| Metering.Ensure | src/limiter.cpp:11-26 | the guarded connect leaves the meter connected; an already connected meter is kept as it was, otherwise exactly one timer is started |
| Metering.OnPostMessagesChanged | src/limiter.cpp:7-64 | true leaves all three meters connected and keeps the connected ones as they were; false leaves none connected and starts nothing; no leaked timer is ever introduced, and false then disarms everything |
| Metering.EnableIsIdempotent | src/limiter.cpp:10-57 | a second true notification changes nothing, so it starts no extra timer |
| Metering.DisableIsIdempotent | src/limiter.cpp:59-63 | a second false notification changes nothing |
| Metering.RestartLeavesOneFreshTimer | src/limiter.cpp:7-64 | false then true on running meters leaves exactly one live timer per meter, each a new one |
| Metering.Replay | src/limiter.cpp:7-64 | any sequence of notifications keeps timer numbering consistent |
| Metering.ReplayKeepsOneLiveTimer | src/limiter.cpp:7-64 | over any sequence of notifications no meter ever has two live timers |
| Metering.ReplayStartsOnRisingEdges | src/limiter.cpp:10-57 | each meter starts exactly one timer per true notification that follows a false one, or comes first on an unconnected meter, and no other |
| Metering.EnableFromIdle | src/limiter.cpp:10-57 | from the initial state, true starts exactly one timer per meter |
| Bindings.Apply | src/limiter.cpp:120-160 | the plain binding passes any value on; a numeric mapping succeeds exactly on doubles and yields a double, except ms-to-ns, which yields an integer |
| Bindings.Push | src/limiter.cpp:120-122 | one rule sets its own property to the converted stored value and changes no other property |
| Bindings.ApplyConfig | src/limiter.cpp:119-161 | registering the rules drops no property and adds only properties the rules target; the values they get are stated by `Bindings.ApplyConfigSetsEveryTarget` |
| Bindings.ApplyConfigSetsEveryTarget | src/limiter.cpp:119-161 | with distinct targets, after registration every rule's property holds its converted stored value and every other property keeps its value |
| Bindings.SettingChanged | src/limiter.cpp:119-161 | a settings change drops no property and adds only properties targeted by rules of the changed key; the values are stated by `Bindings.SettingChangedSetsBound` and the frame by `Bindings.SettingChangedKeepsUnbound` |
| Bindings.SettingChangedSetsBound | src/limiter.cpp:120-160 | after a settings change, every property bound to the changed key holds the key's converted new value |
| Bindings.SettingChangedKeepsUnbound | src/limiter.cpp:120-160 | a settings change leaves every property that no rule of the changed key targets as it was |
| Bindings.ParamChanged | src/limiter.cpp:120-160 | a property change drops no key and adds only keys of DEFAULT rules on that property; with only GET rules on the property the settings are untouched. The written value is stated by `Bindings.LevelInWritesBackInputGain` |
| Bindings.ParamChangedKeepsUnboundKey | src/limiter.cpp:124-160 | a property change writes no key except those of DEFAULT rules on that property, so GET rules never write settings |
| Bindings.TableTargetsDistinct | src/limiter.cpp:119-161 | no two rules of the table set the same property |
| Bindings.LimitRulesInTable | src/limiter.cpp:124-134 | the table holds a GET rule from `limit` to the limiter's `limit` and one to its `level-out`, both through the dB-to-linear mapping |
| Bindings.TableLeavesBypassAlone | src/limiter.cpp:119-161 | no rule of the table sets the limiter's `bypass` switch |
| Bindings.LimitDrivesLimitAndLevelOut | src/limiter.cpp:124-134 | key `limit` drives exactly the limiter's `limit` and `level-out`, both through the dB-to-linear mapping |
| Bindings.GetRulesAreOneWay | src/limiter.cpp:119-161 | a rule has no backward mapping if and only if it is a GET rule |
| Bindings.BidirectionalKeys | src/limiter.cpp:119-161 | the keys bound both ways are exactly `input-gain`, `asc`, `oversampling` and `autovolume-state` |
| Bindings.LevelInIsBoundOnlyToInputGain | src/limiter.cpp:120-122 | the only rule on the limiter's `level-in` is the two-way dB binding of `input-gain` |
| Bindings.LevelInWritesBackInputGain | src/limiter.cpp:120-122 | a change of `level-in` stores its dB value in `input-gain` and writes no other key |
| Bindings.TableLeavesReadKeysUnbound | src/limiter.cpp:119-161 | `post-messages`, `autovolume-target`, `autovolume-tolerance` and `state` are bound to no property |
| Bindings.TableBootstrap | src/limiter.cpp:119-161 | after registration each bound property holds its converted stored value with no change notification, and `level-out` equals `limit` |
| LimiterNode.BootstrapKeepsBypass | src/limiter.cpp:97-99 | no rule sets the bypass switch, so binding keeps it as it was set before |
| LimiterNode.Setup | src/limiter.cpp:97-99 | the limiter leaves bypass, every bound property starts at its stored value, and the input gain stays readable |
| LimiterNode.Create | src/limiter.cpp:76-113 | without the limiter element nothing is bound, no handler is connected and there are no properties; with it the table and both handlers are set up, bypass is off and bound properties hold stored values; no meter timer is started either way |
| LimiterNode.OnWrite | src/limiter.cpp:119-161 | a write of the wrong type or to an unknown key changes nothing; an accepted write stores the value, sets every property bound to the key to the converted new value and keeps every other property; only `post-messages` can change the meters |
| LimiterNode.LimitWriteSetsLimitAndLevelOut | src/limiter.cpp:124-134 | on an installed node whose rules include the table's two `limit` rules, writing a double to `limit` sets both the limiter's `limit` and `level-out` to its dB-to-linear value and leaves the input gain as it was |
| LimiterNode.OnLoudness | src/limiter.cpp:66-72 | a loudness update leaves the meters alone, keeps the node valid, and does nothing without the loudness handler |
| LimiterNode.Dispatch | src/limiter.cpp:101-105 | every event keeps the node valid and leaves its installation, rules and handlers as they were |
| LimiterNode.Replay | src/limiter.cpp:101-105 | the node stays valid over any sequence of events |
| LimiterNode.NotInstalledIsInert | src/limiter.cpp:81-112 | without the limiter element, no sequence of events sets a property, arms a meter or connects a handler |
| LimiterNode.FailedCreateStaysInert | src/limiter.cpp:78-112 | a node built without the element never has a property and never arms a meter timer |
| LimiterNode.NeverTwoLiveTimers | src/limiter.cpp:7-64 | whatever events reach a node, no meter ever has two live timers |
| LimiterNode.PostMessagesDrivesMeters | src/limiter.cpp:101-102 | on an installed node, writing `post-messages` true connects all three meters and writing false disarms them all |
| LimiterNode.StateRewriteChangesNothing | src/limiter.cpp:107-111 | the construction-time rewrite of `state` with its own value changes no setting, property or meter |
| LimiterNode.ToleranceIsIgnored | src/limiter.cpp:166-167 | a loudness update sets the same properties whatever `autovolume-tolerance` holds |
| LimiterNode.LoudnessAdjustsOnlyInputGain | src/limiter.cpp:163-186 | a loudness update changes `level-in` to the stepped gain and stores that gain in `input-gain`; no other property, key or meter changes |

## Left out

- GStreamer plumbing is not modelled because it is foreign-library calls: element creation, bin add and link, ghost pads and unref. Whether the limiter element exists is the `created` parameter of `LimiterNode.Create`.
- The GSettings store is only a map from key to typed value. A write to an unknown key or with a value of another type is refused. Change notifications are not modelled as separate signals: each accepted write takes effect directly.
- GSettings suppresses the echo when a two-way binding writes back to its own key. The model does not re-apply `input-gain` after the write-back.
- The timer tick bodies are I/O to the UI layer: they read float meters and emit them to observers. Only the armed/disarmed state of the timers is kept.
- The loudness element only sends updates while its own `post-messages` property is on. That property is bound to `autovolume-state`. Whether an update arrives is left to the environment: the model accepts a loudness update at any time.
- The 100 ms timer period and the scheduling of ticks are not modelled.
- The unit conversions are floating-point helpers whose code is not part of this model. They are uninterpreted, so no dB/linear round trip is claimed.
- Floating-point rounding of the `float` gain is not modelled. Gains are exact reals.
- The destructor only logs, so there is no teardown to model.
- `src/sink_input_effects_ui.cpp` and `include/crystalizer_ui.hpp` only build GTK widgets and are not part of this model.
- PluginBase, which owns the settings object and reacts to key `state`, is not part of this model. Its response to the `state` rewrite is therefore absent.
- AutoVolume.Run: feeds each update's gain straight into the next. This assumes the next read of `level-in` returns exactly the gain the last update wrote: no dB-to-linear round-trip error and no `input-gain` write in between. `LimiterNode.OnLoudness` makes no such assumption; it reads the property through the uninterpreted conversions.
- Bindings.Apply: a numeric mapping given a value that is not a double fails and writes nothing. The mapping functions are not part of this model, and the schema's key types make this case unreachable for the table; the failure branch is a modelling choice.
- LimiterNode.OnLoudness: requires that `autovolume-target` holds an integer and `level-in` a double. The schema and the element guarantee both; reading a missing key aborts the program.
- LimiterNode.ToleranceIsIgnored: compares only the properties a loudness update sets, not the settings written back.
