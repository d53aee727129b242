/**
 * The select entities (`select.py`): the notification layout, which the device
 * stores, and the default corner and shape, which only the integration keeps. The
 * chosen option is remembered in the config entry's data, shared by the three.
 */
module Selects {
  import opened Wrappers
  import opened Payload
  import opened Api

  /** The layouts the device offers. */
  const ValidLayouts: seq<string> := ["Default", "Minimalist", "Icon Only"]

  /** A select: its entity key, its options, where its choice is kept, and the setting
      and endpoint it sends to, if it sends at all. */
  datatype SelectDescription = SelectDescription(
    key: string, options: seq<string>, storageKey: string,
    apiKey: Option<string>, endpoint: Option<string>)

  /** The three selects, in the order they are created; the valid corners and shapes
      are the integration's constants. */
  function SelectDescriptions(corners: seq<string>, shapes: seq<string>): (ds: seq<SelectDescription>)
    ensures |ds| == 3
    ensures forall i :: 0 <= i < 3 ==> ds[i].storageKey == ds[i].key
  {
    [ SelectDescription("notification_layout", ValidLayouts, "notification_layout",
                        Some("notificationLayoutName"), Some("notifications")),
      SelectDescription("default_corner", corners, "default_corner", None, None),
      SelectDescription("default_shape", shapes, "default_shape", None, None) ]
  }

  /** `dict.get(key, fallback)` on the entry's stored options. */
  function GetOr(stored: map<string, string>, key: string, fallback: string): string {
    if key in stored then stored[key] else fallback
  }

  /** The option a new select shows: the stored choice, or the select's fallback
      (`Default`, `top_end`, `rounded`); a select with another key shows none. */
  function InitialOption(key: string, stored: map<string, string>): Option<string> {
    if key == "notification_layout" then Some(GetOr(stored, "notification_layout", "Default"))
    else if key == "default_corner" then Some(GetOr(stored, "default_corner", "top_end"))
    else if key == "default_shape" then Some(GetOr(stored, "default_shape", "rounded"))
    else None
  }

  /** A select sends its choice to the device when it names both a setting and an
      endpoint, each non-empty. */
  predicate Sends(d: SelectDescription) {
    d.apiKey.Some? && d.apiKey.value != [] && d.endpoint.Some? && d.endpoint.value != []
  }

  /** The request `async_select_option(option)` sends: only a select whose endpoint is
      `notifications` sends one, the option under its setting. */
  function SelectRequest(d: SelectDescription, option: string): (r: Option<Request>)
    ensures r.Some? <==> Sends(d) && d.endpoint.value == "notifications"
    ensures r.Some? ==> r.value == Set(Notifications, map[d.apiKey.value := Str(option)])
  {
    if Sends(d) && d.endpoint.value == "notifications" then
      Some(Set(Notifications, map[d.apiKey.value := Str(option)]))
    else None
  }

  /** Whether the choice is taken: always for a select that does not send, otherwise
      only when it went to `notifications` and the device accepted it. */
  predicate Accepted(d: SelectDescription, success: bool) {
    !Sends(d) || (d.endpoint.value == "notifications" && success)
  }

  /** The notification layout goes to `set_notifications` as `notificationLayoutName`
      and is taken exactly when the device accepts it. */
  lemma LayoutSelect(corners: seq<string>, shapes: seq<string>, option: string, success: bool)
    ensures var d := SelectDescriptions(corners, shapes)[0];
            && SelectRequest(d, option) == Some(Set(Notifications, map["notificationLayoutName" := Str(option)]))
            && (Accepted(d, success) <==> success)
  {
  }

  /** The default corner and shape send nothing and always take the choice. */
  lemma DefaultsNeedNoDevice(corners: seq<string>, shapes: seq<string>, option: string, success: bool)
    ensures forall i :: 1 <= i < 3 ==>
              var d := SelectDescriptions(corners, shapes)[i];
              SelectRequest(d, option).None? && Accepted(d, success)
  {
  }

  /** A select that sends to any endpoint but `notifications` sends nothing and never
      takes the choice. */
  lemma OtherEndpointFails(d: SelectDescription, option: string, success: bool)
    requires Sends(d) && d.endpoint.value != "notifications"
    ensures SelectRequest(d, option).None? && !Accepted(d, success)
  {
  }

  /** A choice that was taken is what a select created afterwards on the same entry
      data shows. */
  lemma ChoiceSurvives(corners: seq<string>, shapes: seq<string>, i: nat, stored: map<string, string>, option: string)
    requires i < 3
    ensures var d := SelectDescriptions(corners, shapes)[i];
            InitialOption(d.key, stored[d.storageKey := option]) == Some(option)
  {
  }

  /** The string options of a config entry's data, shared by its selects. */
  class EntryData {
    var options: map<string, string>

    constructor(options: map<string, string>)
      ensures this.options == options
    {
      this.options := options;
    }
  }

  class Select {
    const description: SelectDescription
    const entryData: EntryData
    const options: seq<string>
    var currentOption: Option<string>

    /** The select offers its description's options and shows the initial option. */
    constructor(description: SelectDescription, entryData: EntryData)
      ensures this.description == description && this.entryData == entryData
      ensures options == description.options
      ensures currentOption == InitialOption(description.key, entryData.options)
    {
      this.description := description;
      this.entryData := entryData;
      this.options := description.options;
      var stored := entryData.options;
      if description.key == "notification_layout" {
        currentOption := Some(GetOr(stored, "notification_layout", "Default"));
      } else if description.key == "default_corner" {
        currentOption := Some(GetOr(stored, "default_corner", "top_end"));
      } else if description.key == "default_shape" {
        currentOption := Some(GetOr(stored, "default_shape", "rounded"));
      } else {
        currentOption := None;
      }
    }

    /** `async_select_option`: sends the choice when the select sends at all; a taken
        choice becomes the shown option and is kept in the entry data under the
        select's storage key, every other stored option unchanged; a choice not taken
        changes neither. */
    method SelectOption(option: string, success: bool) returns (sent: Option<Request>)
      modifies this, entryData
      ensures sent == SelectRequest(description, option)
      ensures Accepted(description, success) ==>
                currentOption == Some(option)
                && entryData.options == old(entryData.options)[description.storageKey := option]
      ensures !Accepted(description, success) ==>
                currentOption == old(currentOption) && entryData.options == old(entryData.options)
    {
      sent := None;
      var d := description;
      if d.apiKey.Some? && d.apiKey.value != [] && d.endpoint.Some? && d.endpoint.value != [] {
        var data := map[d.apiKey.value := Str(option)];
        var ok;
        if d.endpoint.value == "notifications" {
          sent := Some(Set(Notifications, data));
          ok := success;
        } else {
          ok := false;
        }
        if !ok {
          return;
        }
      }
      currentOption := Some(option);
      entryData.options := entryData.options[d.storageKey := option];
    }
  }
}
