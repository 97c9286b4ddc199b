/**
 * The view model under a sequence of events, applied in the order they
 * arrive: the three commands the UI invokes and frustum changes made by
 * code outside the picker.
 */
module PickerTraces {
  import opened Host
  import opened PickerSpec

  datatype Event =
    | ToggleCommand
    | PerspectiveCommand
    | OrthographicCommand
    | ExternalFrustumChange(f: Frustum)

  /** The events that divide by the drawing-buffer height. */
  predicate IsSwitch(e: Event) {
    e == PerspectiveCommand || e == OrthographicCommand
  }

  /** A sequence can run on a buffer of height `h`: any height, unless it holds a switch. */
  predicate Runnable(h: real, events: seq<Event>) {
    h != 0.0 || forall i :: 0 <= i < |events| ==> !IsSwitch(events[i])
  }

  function Step(s: PickerState, e: Event): (r: PickerState)
    requires IsSwitch(e) ==> s.host.bufferHeight != 0.0
    ensures r.host.bufferHeight == s.host.bufferHeight
  {
    match e
    case ToggleCommand => ToggleDropDown(s)
    case PerspectiveCommand => SwitchToPerspective(s)
    case OrthographicCommand => SwitchToOrthographic(s)
    case ExternalFrustumChange(f) => ReplaceFrustum(s, f)
  }

  function Run(s: PickerState, events: seq<Event>): (r: PickerState)
    requires Runnable(s.host.bufferHeight, events)
    ensures r.host.bufferHeight == s.host.bufferHeight
    decreases |events|
  {
    if events == [] then s
    else
      assert forall i :: 0 <= i < |events[1..]| ==> events[1..][i] == events[i + 1];
      Run(Step(s, events[0]), events[1..])
  }

  /** How many toggle commands the sequence holds. */
  function Toggles(events: seq<Event>): nat {
    if events == [] then 0
    else (if events[0] == ToggleCommand then 1 else 0) + Toggles(events[1..])
  }

  /** The flag value set by the last switch command in the sequence, or `initial` if there is none. */
  function LastSwitch(events: seq<Event>, initial: bool): bool {
    if events == [] then initial
    else match events[|events| - 1]
      case PerspectiveCommand => false
      case OrthographicCommand => true
      case _ => LastSwitch(events[..|events| - 1], initial)
  }

  predicate NoExternalChange(events: seq<Event>) {
    forall i :: 0 <= i < |events| ==> !events[i].ExternalFrustumChange?
  }

  /** Running two sequences one after the other is running their concatenation. */
  lemma {:induction false} RunAppend(s: PickerState, a: seq<Event>, b: seq<Event>)
    requires Runnable(s.host.bufferHeight, a) && Runnable(s.host.bufferHeight, b)
    ensures Runnable(s.host.bufferHeight, a + b)
    ensures Run(s, a + b) == Run(Run(s, a), b)
    decreases |a|
  {
    if a == [] {
      assert a + b == b;
    } else {
      assert (a + b)[0] == a[0];
      assert (a + b)[1..] == a[1..] + b;
      RunAppend(Step(s, a[0]), a[1..], b);
    }
  }

  /** The cached flag is set only by the switches: it holds what the last one wrote, or its initial value. */
  lemma {:induction false} CachedFlagIsLastSwitch(s: PickerState, events: seq<Event>)
    requires Runnable(s.host.bufferHeight, events)
    ensures Run(s, events).orthographic == LastSwitch(events, s.orthographic)
    decreases |events|
  {
    if events != [] {
      var n := |events| - 1;
      var init := events[..n];
      assert events == init + [events[n]];
      assert forall i :: 0 <= i < n ==> init[i] == events[i];
      RunAppend(s, init, [events[n]]);
      CachedFlagIsLastSwitch(s, init);
      var mid := Run(s, init);
      assert Run(mid, [events[n]]) == Step(mid, events[n]);
    }
  }

  /** The drop-down is visible after the sequence exactly when it started visible xor an odd number of toggles ran. */
  lemma {:induction false} DropDownParity(s: PickerState, events: seq<Event>)
    requires Runnable(s.host.bufferHeight, events)
    ensures Run(s, events).dropDownVisible == (s.dropDownVisible != (Toggles(events) % 2 == 1))
    decreases |events|
  {
    if events != [] {
      DropDownParity(Step(s, events[0]), events[1..]);
    }
  }

  /** No event changes the tooltips or anything of the host but its frustum. */
  lemma {:induction false} RunKeepsTooltipsAndHost(s: PickerState, events: seq<Event>)
    requires Runnable(s.host.bufferHeight, events)
    ensures Run(s, events).tooltipPerspective == s.tooltipPerspective
    ensures Run(s, events).tooltipOrthographic == s.tooltipOrthographic
    ensures Run(s, events).host == s.host.(frustum := Run(s, events).host.frustum)
    decreases |events|
  {
    if events != [] {
      RunKeepsTooltipsAndHost(Step(s, events[0]), events[1..]);
    }
  }

  /** With no outside frustum change, a cache that starts accurate stays accurate. */
  lemma {:induction false} CacheStaysAccurate(s: PickerState, events: seq<Event>)
    requires s.host.bufferHeight != 0.0
    requires CacheAccurate(s) && NoExternalChange(events)
    ensures CacheAccurate(Run(s, events))
    decreases |events|
  {
    if events != [] {
      assert !events[0].ExternalFrustumChange?;
      assert forall i :: 0 <= i < |events[1..]| ==> events[1..][i] == events[i + 1];
      CacheStaysAccurate(Step(s, events[0]), events[1..]);
    }
  }

  /**
   * After a switch, however stale the cache was before, the cached flag and
   * the live frustum agree until something outside replaces the frustum.
   */
  lemma AccurateAfterSwitch(s: PickerState, before: seq<Event>, switch: Event, after: seq<Event>)
    requires s.host.bufferHeight != 0.0
    requires switch == PerspectiveCommand || switch == OrthographicCommand
    requires NoExternalChange(after)
    ensures CacheAccurate(Run(s, before + [switch] + after))
  {
    RunAppend(s, before + [switch], after);
    RunAppend(s, before, [switch]);
    var mid := Run(s, before);
    assert Run(mid, [switch]) == Step(mid, switch);
    CacheStaysAccurate(Step(mid, switch), after);
  }

  /** A constructed view model's cache is accurate after any sequence of commands alone. */
  lemma InitThenCommandsAccurate(host: HostState, events: seq<Event>)
    requires host.bufferHeight != 0.0
    requires NoExternalChange(events)
    ensures var s := Init(Wrappers.Some(host)).value;
      CacheAccurate(Run(s, events)) && Tooltip(Run(s, events)) == (if Run(s, events).orthographic then s.tooltipOrthographic else s.tooltipPerspective)
  {
    var s := Init(Wrappers.Some(host)).value;
    CacheStaysAccurate(s, events);
    RunKeepsTooltipsAndHost(s, events);
  }
}
