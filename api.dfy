/**
 * What the integration sends to a device (`TvOverlayApiClient` in `api.py`). Every
 * client method posts one JSON body to one endpoint; the HTTP exchange itself is
 * outside the model, and its outcome reaches the callers as a `success` flag.
 */
module Api {
  import opened Payload

  /** The three settings endpoints the entities use: `set_overlay`,
      `set_notifications` and `set_settings`. */
  datatype Setter = Overlay | Notifications | Settings

  /** A settings body: the device's setting name to its new value. */
  type Settings = map<string, Value>

  /** One call of a client method, with the body it posts. */
  datatype Request =
    | SendNotification(body: Body)        // `send_notification`
    | SendFixedNotification(body: Body)   // `send_fixed_notification`, also used to clear one
    | Set(setter: Setter, data: Settings) // `set_overlay`, `set_notifications`, `set_settings`

  /** `clear_fixed_notification(id)`: a fixed notification with that id, made
      invisible, posted to the fixed-notification endpoint. */
  function ClearFixedRequest(id: string): (r: Request)
    ensures r.SendFixedNotification? && r.body.Keys == {Key.Id, Key.Visible}
    ensures r.body[Key.Id] == Str(id) && r.body[Key.Visible] == Bool(false)
  {
    SendFixedNotification(map[Key.Id := Str(id), Key.Visible := Bool(false)])
  }
}
