/** Restore-on-toggle: the per-accessory level cell shared by the dimmer
    (`_cachedBrightness`) and the GE fan controller (`_cachedSpeed`). The cell
    starts at 100, takes every level in (0, 100] the accessory observes, and
    is what switching on writes back. */
module RestoreLevel {
  import opened JsValues
  import opened HomeKit

  /** The level a fresh accessory restores. */
  const DefaultLevel: Value := Num(100.0)

  /** A level the cell accepts: `v > 0 && v <= 100`. */
  predicate InLevelRange(v: Value) {
    Greater(v, 0.0) && AtMost(v, 100.0)
  }

  /** The cell after the accessory observes `level`: the device's level read
      by `setState`, a level HomeKit sets, or a level the device reports. */
  function Observe(cached: Value, level: Value): (r: Value)
    ensures InLevelRange(cached) ==> InLevelRange(r)
    ensures r == cached || (r == level && InLevelRange(level))
    ensures InLevelRange(level) ==> r == level
  {
    if InLevelRange(level) then level else cached
  }

  /** The level `setState(state)` writes, from the cell as `setState` left it. */
  function LevelToWrite(cached: Value, state: Value): Value {
    if Truthy(state) then cached else Num(0.0)
  }

  /** What the change listener pushes for a reported level on the service's
      On characteristic and its level characteristic `ch`. */
  function LevelReport(service: ServiceKind, ch: CharKind, level: Value): seq<Notification> {
    if LooselyEquals(level, 0.0) then [Notification(service, On, Bool(false))]
    else if InLevelRange(level) then [Notification(service, ch, level), Notification(service, On, Bool(true))]
    else []
  }

  /** Everything that touches the cell: a toggle (which reads the device's
      current level first), a level set from HomeKit, a level the device reports. */
  datatype Event = Toggle(current: Value, state: Value) | Adjust(level: Value) | Report(level: Value)

  function Observed(e: Event): Value {
    match e
    case Toggle(current, _) => current
    case Adjust(level) => level
    case Report(level) => level
  }

  /** The cell after a run of events, oldest first. */
  function Replay(cached: Value, events: seq<Event>): Value
    decreases |events|
  {
    if events == [] then cached else Replay(Observe(cached, Observed(events[0])), events[1..])
  }

  /** The last level in (0, 100] the events observed, or `fallback` when none did. */
  function LastInRange(fallback: Value, events: seq<Event>): (r: Value)
    decreases |events|
  {
    if events == [] then fallback
    else if InLevelRange(Observed(events[|events| - 1])) then Observed(events[|events| - 1])
    else LastInRange(fallback, events[..|events| - 1])
  }

  /** The cell always holds a level in (0, 100]. */
  lemma {:induction false} ReplayInRange(cached: Value, events: seq<Event>)
    requires InLevelRange(cached)
    ensures InLevelRange(Replay(cached, events))
    decreases |events|
  {
    if events != [] {
      ReplayInRange(Observe(cached, Observed(events[0])), events[1..]);
    }
  }

  lemma {:induction false} ReplayAppend(cached: Value, events: seq<Event>, e: Event)
    ensures Replay(cached, events + [e]) == Observe(Replay(cached, events), Observed(e))
    decreases |events|
  {
    if events != [] {
      assert (events + [e])[1..] == events[1..] + [e];
      ReplayAppend(Observe(cached, Observed(events[0])), events[1..], e);
    }
  }

  /** The cell holds exactly the last level in (0, 100] observed, or what it
      started with when there was none. */
  lemma {:induction false} ReplayIsLastInRange(cached: Value, events: seq<Event>)
    ensures Replay(cached, events) == LastInRange(cached, events)
    decreases |events|
  {
    if events != [] {
      var init := events[..|events| - 1];
      var e := events[|events| - 1];
      assert events == init + [e];
      ReplayIsLastInRange(cached, init);
      ReplayAppend(cached, init, e);
    }
  }

  /** Switching on a device that is already on at a level in (0, 100] writes
      that same level back. */
  lemma TurnOnKeepsLevel(cached: Value, current: Value, state: Value)
    requires InLevelRange(current) && Truthy(state)
    ensures LevelToWrite(Observe(cached, current), state) == current
  {
  }

  /** Switching off at a level writes 0; once the device reports 0, switching
      on again writes the level it had before. */
  lemma OffThenOnRestores(cached: Value, level: Value)
    requires InLevelRange(level)
    ensures LevelToWrite(Observe(cached, level), Bool(false)) == Num(0.0)
    ensures var c := Replay(cached, [Toggle(level, Bool(false)), Report(Num(0.0)), Toggle(Num(0.0), Bool(true))]);
            LevelToWrite(c, Bool(true)) == level
  {
    var events := [Toggle(level, Bool(false)), Report(Num(0.0)), Toggle(Num(0.0), Bool(true))];
    ReplayIsLastInRange(cached, events);
    assert !InLevelRange(Num(0.0));
    assert events[..|events| - 1] == events[..2];
    assert events[..2][..1] == [Toggle(level, Bool(false))];
    assert LastInRange(cached, events[..2][..1]) == level;
    assert LastInRange(cached, events[..2]) == level;
  }

  /** With no level in (0, 100] ever observed, switching on writes the default 100. */
  lemma DefaultRestored(events: seq<Event>, state: Value)
    requires forall i :: 0 <= i < |events| ==> !InLevelRange(Observed(events[i]))
    requires Truthy(state)
    ensures LevelToWrite(Replay(DefaultLevel, events), state) == Num(100.0)
  {
    ReplayIsLastInRange(DefaultLevel, events);
    NoneInRange(DefaultLevel, events);
  }

  lemma {:induction false} NoneInRange(fallback: Value, events: seq<Event>)
    requires forall i :: 0 <= i < |events| ==> !InLevelRange(Observed(events[i]))
    ensures LastInRange(fallback, events) == fallback
    decreases |events|
  {
    if events != [] {
      NoneInRange(fallback, events[..|events| - 1]);
    }
  }
}
