/**
  The metering subscription of the limiter plugin.

  Three independent 100 ms timers sample the limiter's input levels, output
  levels and attenuation. The plugin keeps one connection handle per meter.
  When `post-messages` becomes true, each meter whose handle is not connected
  gets a fresh timer. When it becomes false, all three handles are
  disconnected.

  A timer is identified by a number. Each meter keeps the handle it holds,
  the set of its timers still armed on the event loop, and how many timers it
  has ever started. That count is also the next timer's number. A tick
  callback always asks to be called again, so only a disconnect disarms a
  timer.
 */
module Metering {

  /** The plugin's handle to a timer: empty until the first connect. */
  datatype Connection = Empty | Timer(id: nat)

  datatype Meter = Meter(conn: Connection, armed: set<nat>, started: nat)

  datatype Meters = Meters(input: Meter, output: Meter, attenuation: Meter)

  /** The handle's own `connected()` test: it holds a timer that is still armed. */
  predicate Connected(m: Meter) {
    m.conn.Timer? && m.conn.id in m.armed
  }

  /** Number of this meter's timers currently armed on the event loop. */
  function Live(m: Meter): nat {
    |m.armed|
  }

  /** Ids of the timer the handle refers to, if any. */
  function HeldIds(m: Meter): set<nat> {
    if m.conn.Timer? then {m.conn.id} else {}
  }

  /** Timer ids are handed out in order, so every id seen is below the start count. */
  predicate Numbered(m: Meter) {
    && (forall id :: id in m.armed ==> id < m.started)
    && (m.conn.Timer? ==> m.conn.id < m.started)
  }

  /** No timer is armed except the one the handle holds: nothing has leaked. */
  predicate Sound(m: Meter) {
    Numbered(m) && m.armed <= HeldIds(m)
  }

  predicate AllSound(ms: Meters) {
    Sound(ms.input) && Sound(ms.output) && Sound(ms.attenuation)
  }

  /** The state before any `post-messages` notification: empty handles, no timers. */
  const Idle: Meters := Meters(Meter(Empty, {}, 0), Meter(Empty, {}, 0), Meter(Empty, {}, 0))

  /** The idle state is sound. */
  lemma IdleIsSound()
    ensures AllSound(Idle) && AllNumbered(Idle)
  {
  }

  /** A sound meter never has more than one live timer. */
  lemma SoundHasAtMostOneLive(m: Meter)
    requires Sound(m)
    ensures Live(m) <= 1
    ensures Live(m) == 1 <==> Connected(m)
  {
    if m.conn.Timer? {
      assert m.armed == {} || m.armed == {m.conn.id};
    }
  }

  /** Arms a fresh timer and stores its handle, replacing whatever the handle held. */
  function Connect(m: Meter): (r: Meter)
    requires Numbered(m)
    ensures Connected(r) && Numbered(r)
    ensures r.started == m.started + 1
    ensures r.conn.id !in m.armed
    ensures r.armed == m.armed + {r.conn.id}
  {
    Meter(Timer(m.started), m.armed + {m.started}, m.started + 1)
  }

  /** Disarms the timer the handle refers to; an empty or stale handle changes nothing. */
  function Disconnect(m: Meter): (r: Meter)
    ensures !Connected(r)
    ensures r.started == m.started && r.conn == m.conn
    ensures r.armed == m.armed - HeldIds(m)
  {
    if m.conn.Timer? then m.(armed := m.armed - {m.conn.id}) else m
  }

  /** The guarded connect: a meter is only given a timer when its handle is not connected. */
  function Ensure(m: Meter): (r: Meter)
    requires Numbered(m)
    ensures Connected(r) && Numbered(r)
    ensures Connected(m) ==> r == m
    ensures !Connected(m) ==> r.started == m.started + 1 && Live(r) == Live(m) + 1
  {
    if Connected(m) then m else Connect(m)
  }

  predicate AllNumbered(ms: Meters) {
    Numbered(ms.input) && Numbered(ms.output) && Numbered(ms.attenuation)
  }

  predicate AllConnected(ms: Meters) {
    Connected(ms.input) && Connected(ms.output) && Connected(ms.attenuation)
  }

  predicate NoneArmed(ms: Meters) {
    ms.input.armed == {} && ms.output.armed == {} && ms.attenuation.armed == {}
  }

  /** The `changed::post-messages` handler, given the flag's current value. */
  function OnPostMessagesChanged(ms: Meters, post: bool): (r: Meters)
    requires AllNumbered(ms)
    ensures AllNumbered(r)
    // enabling leaves every meter connected, and a connected meter is kept as it was
    ensures post ==> AllConnected(r)
    ensures post && Connected(ms.input) ==> r.input == ms.input
    ensures post && Connected(ms.output) ==> r.output == ms.output
    ensures post && Connected(ms.attenuation) ==> r.attenuation == ms.attenuation
    // disabling leaves no meter connected and starts nothing
    ensures !post ==> !Connected(r.input) && !Connected(r.output) && !Connected(r.attenuation)
    ensures !post ==> r.input.started == ms.input.started && r.output.started == ms.output.started
                      && r.attenuation.started == ms.attenuation.started
    // a sound state stays sound
    ensures AllSound(ms) ==> AllSound(r)
    ensures AllSound(ms) && !post ==> NoneArmed(r)
  {
    if post then
      Meters(Ensure(ms.input), Ensure(ms.output), Ensure(ms.attenuation))
    else
      Meters(Disconnect(ms.input), Disconnect(ms.output), Disconnect(ms.attenuation))
  }

  /** Enabling twice is the same as enabling once: no second timer is started. */
  lemma EnableIsIdempotent(ms: Meters)
    requires AllNumbered(ms)
    ensures OnPostMessagesChanged(OnPostMessagesChanged(ms, true), true) == OnPostMessagesChanged(ms, true)
  {
  }

  /** Disabling twice is the same as disabling once. */
  lemma DisableIsIdempotent(ms: Meters)
    requires AllNumbered(ms)
    ensures OnPostMessagesChanged(OnPostMessagesChanged(ms, false), false) == OnPostMessagesChanged(ms, false)
  {
  }

  /**
    Disabling then enabling a running subscription leaves exactly one live
    timer per meter, a fresh one: the old timer is disarmed, not leaked.
   */
  lemma RestartLeavesOneFreshTimer(ms: Meters)
    requires AllSound(ms) && AllConnected(ms)
    ensures var r := OnPostMessagesChanged(OnPostMessagesChanged(ms, false), true);
      && AllConnected(r)
      && Live(r.input) == 1 && Live(r.output) == 1 && Live(r.attenuation) == 1
      && r.input.conn != ms.input.conn && r.output.conn != ms.output.conn
      && r.attenuation.conn != ms.attenuation.conn
  {
    var off := OnPostMessagesChanged(ms, false);
    var r := OnPostMessagesChanged(off, true);
    SoundHasAtMostOneLive(r.input);
    SoundHasAtMostOneLive(r.output);
    SoundHasAtMostOneLive(r.attenuation);
  }

  /** The meters after a sequence of `post-messages` notifications, in order. */
  function Replay(ms: Meters, flags: seq<bool>): (r: Meters)
    requires AllNumbered(ms)
    ensures AllNumbered(r)
    decreases |flags|
  {
    if |flags| == 0 then ms
    else Replay(OnPostMessagesChanged(ms, flags[0]), flags[1..])
  }

  /** A sound subscription stays sound over any sequence of notifications: never two live timers per meter. */
  lemma {:induction false} ReplayKeepsOneLiveTimer(ms: Meters, flags: seq<bool>)
    requires AllSound(ms)
    ensures AllSound(Replay(ms, flags))
    ensures Live(Replay(ms, flags).input) <= 1
    ensures Live(Replay(ms, flags).output) <= 1
    ensures Live(Replay(ms, flags).attenuation) <= 1
    decreases |flags|
  {
    if |flags| > 0 {
      ReplayKeepsOneLiveTimer(OnPostMessagesChanged(ms, flags[0]), flags[1..]);
    } else {
      SoundHasAtMostOneLive(ms.input);
      SoundHasAtMostOneLive(ms.output);
      SoundHasAtMostOneLive(ms.attenuation);
    }
  }

  /**
    Reference count of timer starts: a notification starts one exactly when it
    carries `true` and the meter was not connected just before, that is on the
    first notification when `connected` is false, and on a `true` that follows
    a `false`.
   */
  function Rises(connected: bool, flags: seq<bool>): nat
    decreases |flags|
  {
    if |flags| == 0 then 0
    else (if flags[0] && !connected then 1 else 0) + Rises(flags[0], flags[1..])
  }

  /** Each meter starts exactly one timer per rising edge of the flag, and no other. */
  lemma {:induction false} ReplayStartsOnRisingEdges(ms: Meters, flags: seq<bool>)
    requires AllNumbered(ms)
    ensures Replay(ms, flags).input.started == ms.input.started + Rises(Connected(ms.input), flags)
    ensures Replay(ms, flags).output.started == ms.output.started + Rises(Connected(ms.output), flags)
    ensures Replay(ms, flags).attenuation.started == ms.attenuation.started + Rises(Connected(ms.attenuation), flags)
    decreases |flags|
  {
    if |flags| > 0 {
      ReplayStartsOnRisingEdges(OnPostMessagesChanged(ms, flags[0]), flags[1..]);
    }
  }

  /** From the idle state, enabling starts exactly one timer per meter. */
  lemma EnableFromIdle()
    ensures var r := OnPostMessagesChanged(Idle, true);
      && r.input.started == 1 && r.output.started == 1 && r.attenuation.started == 1
      && Live(r.input) == 1 && Live(r.output) == 1 && Live(r.attenuation) == 1
  {
  }
}
