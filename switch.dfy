/**
 * The switch entities (`switch.py`): each turns one boolean device setting on or
 * off through one settings endpoint, and shows the new state only once the device
 * has accepted it.
 */
module Switches {
  import opened Payload
  import opened Api
  import opened Numbers

  /** A switch: its entity key, the setting it sends and the endpoint it goes to. */
  datatype SwitchDescription = SwitchDescription(key: string, apiKey: string, endpoint: string)

  /** The five switches, in the order they are created. */
  const SwitchDescriptions: seq<SwitchDescription> := [
    SwitchDescription("display_clock", "clockOverlayVisibility", "overlay"),
    SwitchDescription("display_notifications", "displayNotifications", "notifications"),
    SwitchDescription("display_fixed_notifications", "displayFixedNotifications", "notifications"),
    SwitchDescription("pixel_shift", "pixelShift", "settings"),
    SwitchDescription("debug_mode", "displayDebug", "settings")
  ]

  /** The value sent for `state`: the clock's visibility goes from 0 to 95, so the
      clock switch sends 95 for on and 0 for off; every other switch sends the state. */
  function SwitchValue(key: string, state: bool): Value {
    if key == "display_clock" then Int(if state then 95 else 0) else Bool(state)
  }

  /** Turning a switch on and turning it off never send the same value. */
  lemma SwitchStatesDiffer(key: string)
    ensures SwitchValue(key, true) != SwitchValue(key, false)
  {
  }

  /** The clock switch is the clock-visibility slider pinned to its ends: it sends
      the same request as that slider set to its maximum (on) or minimum (off). */
  lemma ClockSwitchMatchesSlider(state: bool)
    ensures var slider := NumberDescriptions[0];
            SwitchRequest(SwitchDescriptions[0], state)
              == NumberRequest(slider, if state then slider.maxValue else slider.minValue)
  {
  }

  /** Every switch but the clock sends the state itself as a boolean. */
  lemma OtherSwitchesSendState(i: nat, state: bool)
    requires 1 <= i < |SwitchDescriptions|
    ensures var d := SwitchDescriptions[i];
            SwitchRequest(d, state).data[d.apiKey] == Bool(state)
  {
  }

  /** The endpoint a switch's setting goes to: `notifications` and `overlay` have
      their own, anything else goes to `set_settings`. */
  function SwitchSetter(endpoint: string): (s: Setter)
    ensures s == Notifications <==> endpoint == "notifications"
    ensures s == Overlay <==> endpoint == "overlay"
    ensures s == Settings <==> endpoint != "notifications" && endpoint != "overlay"
  {
    if endpoint == "notifications" then Notifications
    else if endpoint == "overlay" then Overlay
    else Settings
  }

  /** What `_set_state(state)` sends: one key, the switch's setting. */
  function SwitchRequest(d: SwitchDescription, state: bool): (r: Request)
    ensures r.Set? && r.setter == SwitchSetter(d.endpoint)
    ensures r.data.Keys == {d.apiKey} && r.data[d.apiKey] == SwitchValue(d.key, state)
  {
    Set(SwitchSetter(d.endpoint), map[d.apiKey := SwitchValue(d.key, state)])
  }

  /** The clock switch goes to `set_overlay`, the two notification switches to
      `set_notifications`, pixel shift and debug mode to `set_settings`. */
  lemma SwitchEndpoints()
    ensures SwitchSetter(SwitchDescriptions[0].endpoint) == Overlay
    ensures SwitchSetter(SwitchDescriptions[1].endpoint) == Notifications
    ensures SwitchSetter(SwitchDescriptions[2].endpoint) == Notifications
    ensures SwitchSetter(SwitchDescriptions[3].endpoint) == Settings
    ensures SwitchSetter(SwitchDescriptions[4].endpoint) == Settings
  {
  }

  /** The clock switch sends 95 when turned on and 0 when turned off. */
  lemma ClockSwitchSends()
    ensures SwitchRequest(SwitchDescriptions[0], true) == Set(Overlay, map["clockOverlayVisibility" := Int(95)])
    ensures SwitchRequest(SwitchDescriptions[0], false) == Set(Overlay, map["clockOverlayVisibility" := Int(0)])
  {
  }

  class Switch {
    const description: SwitchDescription
    var isOn: bool

    /** A new switch assumes the setting is on. */
    constructor(description: SwitchDescription)
      ensures this.description == description && isOn
    {
      this.description := description;
      isOn := true;
    }

    /** `_set_state`: sends the setting and, if the device accepted it, shows the
        new state; otherwise the state shown stays what it was. */
    method SetState(state: bool, success: bool) returns (sent: Request)
      modifies this
      ensures sent == SwitchRequest(description, state)
      ensures isOn == if success then state else old(isOn)
    {
      var value := if description.key == "display_clock" then Int(if state then 95 else 0) else Bool(state);
      var data := map[description.apiKey := value];
      if description.endpoint == "notifications" {
        sent := Set(Notifications, data);
      } else if description.endpoint == "overlay" {
        sent := Set(Overlay, data);
      } else {
        sent := Set(Settings, data);
      }
      if success {
        isOn := state;
      }
    }

    /** `async_turn_on` */
    method TurnOn(success: bool) returns (sent: Request)
      modifies this
      ensures sent == SwitchRequest(description, true)
      ensures isOn == (success || old(isOn))
    {
      sent := SetState(true, success);
    }

    /** `async_turn_off` */
    method TurnOff(success: bool) returns (sent: Request)
      modifies this
      ensures sent == SwitchRequest(description, false)
      ensures isOn == (!success && old(isOn))
    {
      sent := SetState(false, success);
    }
  }
}
