/**
 * The number entities (`number.py`): sliders for the visibility and duration
 * settings. Each sends its whole-number value to one settings endpoint and shows
 * the new value only once the device has accepted it.
 */
module Numbers {
  import opened Payload
  import opened Api

  /** A slider: its entity key, the setting it sends, its endpoint and its range. */
  datatype NumberDescription =
    NumberDescription(key: string, apiKey: string, endpoint: string, minValue: int, maxValue: int)

  /** The four sliders, in the order they are created. */
  const NumberDescriptions: seq<NumberDescription> := [
    NumberDescription("clock_visibility", "clockOverlayVisibility", "overlay", 0, 95),
    NumberDescription("overlay_visibility", "overlayVisibility", "overlay", 0, 95),
    NumberDescription("fixed_notifications_visibility", "fixedNotificationsVisibility", "notifications", -1, 95),
    NumberDescription("notification_duration", "notificationDuration", "notifications", 1, 60)
  ]

  /** The value a new slider shows before any change. */
  function InitialValue(key: string): int {
    if key == "notification_duration" then 5
    else if key == "fixed_notifications_visibility" then -1
    else 0
  }

  /** Every slider starts inside its own range: the duration at 5 seconds, the fixed
      notifications' visibility at -1 and the other two at 0. */
  lemma InitialValuesInRange()
    ensures forall i :: 0 <= i < |NumberDescriptions| ==>
              var d := NumberDescriptions[i];
              d.minValue <= InitialValue(d.key) <= d.maxValue
    ensures InitialValue(NumberDescriptions[3].key) == 5
    ensures InitialValue(NumberDescriptions[2].key) == -1
    ensures InitialValue(NumberDescriptions[0].key) == 0 && InitialValue(NumberDescriptions[1].key) == 0
  {
    assert "notification_duration" != "fixed_notifications_visibility";
  }

  /** The endpoint a slider's setting goes to: `overlay` has its own, anything else
      goes to `set_notifications`; a slider never uses `set_settings`. */
  function NumberSetter(endpoint: string): (s: Setter)
    ensures s == Overlay <==> endpoint == "overlay"
    ensures s == Notifications <==> endpoint != "overlay"
    ensures s != Settings
  {
    if endpoint == "overlay" then Overlay else Notifications
  }

  /** What `async_set_native_value(value)` sends: exactly the slider's setting, set to
      the value. */
  function NumberRequest(d: NumberDescription, value: int): (r: Request)
    ensures r.Set? && r.setter == NumberSetter(d.endpoint)
    ensures r.data.Keys == {d.apiKey} && r.data[d.apiKey] == Int(value)
  {
    Set(NumberSetter(d.endpoint), map[d.apiKey := Int(value)])
  }

  /** Both clock and overlay visibility go to `set_overlay`, the other two to
      `set_notifications`. */
  lemma NumberEndpoints()
    ensures NumberSetter(NumberDescriptions[0].endpoint) == Overlay
    ensures NumberSetter(NumberDescriptions[1].endpoint) == Overlay
    ensures NumberSetter(NumberDescriptions[2].endpoint) == Notifications
    ensures NumberSetter(NumberDescriptions[3].endpoint) == Notifications
  {
  }

  class Number {
    const description: NumberDescription
    var nativeValue: int

    constructor(description: NumberDescription)
      ensures this.description == description && nativeValue == InitialValue(description.key)
    {
      this.description := description;
      if description.key == "notification_duration" {
        nativeValue := 5;
      } else if description.key == "fixed_notifications_visibility" {
        nativeValue := -1;
      } else {
        nativeValue := 0;
      }
    }

    /** `async_set_native_value`: sends the value and, if the device accepted it,
        shows it; otherwise the value shown stays what it was. */
    method SetNativeValue(value: int, success: bool) returns (sent: Request)
      modifies this
      ensures sent == NumberRequest(description, value)
      ensures nativeValue == if success then value else old(nativeValue)
    {
      var data := map[description.apiKey := Int(value)];
      if description.endpoint == "overlay" {
        sent := Set(Overlay, data);
      } else {
        sent := Set(Notifications, data);
      }
      if success {
        nativeValue := value;
      }
    }
  }
}
