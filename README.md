# TvOverlay integration for Home Assistant — a Dafny model of its core

The integration drives the TvOverlay app on an Android TV. This model covers the parts
of it that have logic of their own:

- **Colours** (`Colors`, module `ColorExamples` for worked examples):
  - The 27-entry colour-name table.
  - `_normalize_hex_color`, which turns a colour name or a hex string into an upper-case
    `#` colour.
  - `_hex_with_alpha`, which puts an alpha byte in front of a six-digit RGB colour.
- **Host parsing** (`HostPort`): `_parse_host_port`, which splits `host:port` at its last
  colon and falls back to the default port.
- **Request bodies** (`Payload`): `_build_notification_data` and
  `_build_fixed_notification_data`, which copy the set fields of a service call under the
  device's JSON keys, normalise the colours and choose the media key. Both builders are
  methods that fill the body step by step. Each is proved equal to a body function, and
  the lemmas state what that body holds key by key.
- **Shown fixed-notification ids** (`NotificationIds`): a config entry's
  `notification_ids` list, with `_add_notification_id` and `_remove_notification_id` as
  methods of the `Registry` class.
- **Services** (`Services`):
  - Finding the device a service call addresses (`_get_client` and its name, host and
    `host:port` matching).
  - The `notify`, `notify_fixed` and `clear_fixed` services. `notify_fixed` and
    `clear_fixed` change an entry's id list only when the device accepted the call.
- **Entities**:
  - The switch entities (`Switches`).
  - The number sliders (`Numbers`).
  - The select entities (`Selects`).

  Each is a class that holds its shown state. It sends a one-key settings body to one of
  three setter endpoints (`Api.Setter`) and takes the new state only when the device
  accepted it.

Python's string operations appear where the code uses them, restricted to ASCII
(`PyStr`): `strip`, `lower`, `upper`, `lstrip('#')`, `rsplit(':', 1)`, `int`, `str` and
`%02X`.

The HTTP exchange with the device is outside the model. Each client method becomes the
`Api.Request` it would post, and its outcome is the `success: bool` parameter of the
method that calls it.

## Model

| member | source | states |
|---|---|---|
| Colors.LookupColorNameValues | custom_components/tvoverlay_ui/__init__.py:56-84 | only a colour name (lower-case letters) has a table value, and every value is `#` and six hex digits |
| Colors.LookupColorNameListed | custom_components/tvoverlay_ui/__init__.py:56-94 | `COLOR_NAMES.get(name)` is `v` exactly when the table pairs `name` with `v` |
| Colors.LookupInListed | custom_components/tvoverlay_ui/__init__.py:93-94 | the dictionary lookup finds a value exactly when the name is a key of the table, and the value found is one that entry carries |
| Colors.LookupInFinds | custom_components/tvoverlay_ui/__init__.py:93-94 | in a table whose names are distinct, looking up an entry's name gives that entry's value |
| Colors.ColorNamesDistinct | custom_components/tvoverlay_ui/__init__.py:56-84 | no two entries of the table share a name |
| Colors.NameDistinctFromLater | custom_components/tvoverlay_ui/__init__.py:56-84 | each entry's name differs from every later entry's name |
| Colors.LookupColorNameFinds | custom_components/tvoverlay_ui/__init__.py:56-94 | each table name gives the value the table pairs with it |
| Colors.LookupColorName | custom_components/tvoverlay_ui/__init__.py:93-94 | no contract of its own; `LookupColorNameValues`, `LookupColorNameListed` and `LookupColorNameFinds` state what it gives |
| Colors.ColorTableOk | custom_components/tvoverlay_ui/__init__.py:56-84 | every table entry maps a lower-case name to an upper-case `#RRGGBB` value |
| Colors.NormalizeHexColor | custom_components/tvoverlay_ui/__init__.py:87-98 | the result is `None` exactly when the colour is `None` or empty |
| Colors.NormalizeGivesNormalForm | custom_components/tvoverlay_ui/__init__.py:87-98 | every other result starts with `#`, has no lower-case letter and no trailing whitespace, even for whitespace-only input |
| Colors.NameValueIsNormal | custom_components/tvoverlay_ui/__init__.py:56-84 | every table value is in that normal form |
| Colors.NormalizeColorName | custom_components/tvoverlay_ui/__init__.py:87-94 | a colour whose trimmed lower-case form is the name of table entry `i`, in any case and with whitespace around it, gives exactly entry `i`'s value |
| Colors.HashedIsNormal | custom_components/tvoverlay_ui/__init__.py:96-98 | adding a missing `#` and upper-casing gives the normal form |
| Colors.NormalFormIsFixed | custom_components/tvoverlay_ui/__init__.py:87-98 | a colour in normal form is its own normalisation |
| Colors.NormalizeIdempotent | custom_components/tvoverlay_ui/__init__.py:87-98 | normalising a normalised colour changes nothing |
| Colors.NonNameGetsHash | custom_components/tvoverlay_ui/__init__.py:96-98 | trimmed text that is no name and has no `#` becomes `#` plus its upper-case form |
| Colors.HashedGetsUpper | custom_components/tvoverlay_ui/__init__.py:96-98 | text that starts with `#` becomes its upper-case form |
| Colors.HashedNonName | custom_components/tvoverlay_ui/__init__.py:93-98 | trimmed text starting with `#` is never a colour name and is only upper-cased |
| Colors.HashPrefixIrrelevant | custom_components/tvoverlay_ui/__init__.py:96-98 | with or without a leading `#`, text that is no name normalises to the same colour |
| Colors.BlankColorIsHashOnly | custom_components/tvoverlay_ui/__init__.py:87-98 | a whitespace-only colour becomes the bare `"#"` |
| Colors.Alpha | custom_components/tvoverlay_ui/__init__.py:110-111 | the alpha byte is at most 255; it is 102 for no opacity (default 40), 0 at 0 and 255 at 100 |
| Colors.AlphaMonotonic | custom_components/tvoverlay_ui/__init__.py:110-111 | a larger opacity never gives a smaller alpha |
| Colors.HexWithAlpha | custom_components/tvoverlay_ui/__init__.py:101-114 | `None` exactly for an absent or empty colour, otherwise the alpha step applied to the normalised colour |
| Colors.AddAlphaSixDigits | custom_components/tvoverlay_ui/__init__.py:107-113 | a six-character RGB part gives `#AARRGGBB`; the alpha byte reads back as the opacity's alpha, the last six characters are the RGB part, and the result is in normal form |
| Colors.AddAlphaLayout | custom_components/tvoverlay_ui/__init__.py:107-113 | the result is `#`, then the two alpha digits, then the RGB part |
| Colors.AddAlphaOtherLengths | custom_components/tvoverlay_ui/__init__.py:107-114 | any other length returns the normalised colour unchanged |
| Colors.AddAlpha | custom_components/tvoverlay_ui/__init__.py:107-114 | no contract of its own; `AddAlphaSixDigits`, `AddAlphaLayout` and `AddAlphaOtherLengths` state what it gives |
| Colors.HexWithAlphaIsNormal | custom_components/tvoverlay_ui/__init__.py:101-114 | the result of `_hex_with_alpha` is in normal form, so normalising it again changes nothing |
| ColorExamples.PaddedStrip | custom_components/tvoverlay_ui/__init__.py:91 | one blank on each side of a word is stripped |
| ColorExamples.RedTrimmed | custom_components/tvoverlay_ui/__init__.py:91 | `" Red "` trims and lower-cases to `"red"` |
| ColorExamples.RedInTable | custom_components/tvoverlay_ui/__init__.py:57 | `red` is `#FF0000` |
| ColorExamples.NameExample | custom_components/tvoverlay_ui/__init__.py:87-98 | `" Red "` normalises to `"#FF0000"` |
| ColorExamples.HexExampleBare | custom_components/tvoverlay_ui/__init__.py:87-98 | `"ff0000"` normalises to `"#FF0000"` |
| ColorExamples.HexExampleHashed | custom_components/tvoverlay_ui/__init__.py:87-98 | `"#ff0000"` normalises to `"#FF0000"` |
| ColorExamples.HexExampleNormal | custom_components/tvoverlay_ui/__init__.py:87-98 | `"#FF0000"` normalises to itself |
| ColorExamples.RedWithAlpha | custom_components/tvoverlay_ui/__init__.py:107-113 | the alpha step turns `"#FF0000"` into `"#66FF0000"` with no opacity and into `"#7FFF0000"` at 50 |
| ColorExamples.HexWithAlphaExamples | custom_components/tvoverlay_ui/__init__.py:101-114 | `_hex_with_alpha("#FF0000")` is `"#66FF0000"` with no opacity and `"#7FFF0000"` at 50 |
| PyStr.Lower | custom_components/tvoverlay_ui/__init__.py:91 | `lower()` keeps the length and lower-cases each ASCII letter |
| PyStr.Upper | custom_components/tvoverlay_ui/__init__.py:98 | `upper()` keeps the length and upper-cases each ASCII letter |
| PyStr.StripSpec | custom_components/tvoverlay_ui/__init__.py:91 | `strip()` removes a whitespace prefix and a whitespace suffix and nothing else, and leaves no whitespace at either end |
| PyStr.StripOfTrimmed | custom_components/tvoverlay_ui/__init__.py:91 | text with no whitespace at either end strips to itself |
| PyStr.Strip | custom_components/tvoverlay_ui/__init__.py:91 | no contract of its own; `StripSpec` and `StripOfTrimmed` state what it gives |
| PyStr.LStripChar | custom_components/tvoverlay_ui/__init__.py:109 | `lstrip('#')` removes exactly the leading `#`s |
| PyStr.LastIndexOf | custom_components/tvoverlay_ui/__init__.py:228 | `rsplit(':', 1)` splits at the last colon, and `None` means there is no colon |
| PyStr.DecimalRoundTrip | custom_components/tvoverlay_ui/__init__.py:230 | `int(str(n)) == n` |
| PyStr.LeadingZeroIgnored | custom_components/tvoverlay_ui/__init__.py:230 | `int()` ignores leading zeros: `"0" + s` has the value of `s` |
| PyStr.DecimalValue | custom_components/tvoverlay_ui/__init__.py:230 | no contract of its own; `DecimalRoundTrip` and `LeadingZeroIgnored` state what it gives |
| PyStr.Hex2 | custom_components/tvoverlay_ui/__init__.py:113 | `%02X` of a byte is two upper-case hex digits that read back as the byte |
| HostPort.ParseHostPort | custom_components/tvoverlay_ui/__init__.py:225-233 | either the whole string is the host on the default port, or the host is the text before the last colon and the port is the number its digits after that colon spell |
| HostPort.NoColonGivesDefault | custom_components/tvoverlay_ui/__init__.py:227-233 | without a colon the result is the whole string on the default port |
| HostPort.NonNumericSuffixGivesDefault | custom_components/tvoverlay_ui/__init__.py:228-231 | a non-numeric or empty text after the last colon gives the whole string on the default port |
| HostPort.DigitSuffixSplits | custom_components/tvoverlay_ui/__init__.py:228-230 | a run of digits after the last colon gives the text before that colon as the host and the digits' value as the port, leading zeros included |
| HostPort.RoundTrip | custom_components/tvoverlay_ui/__init__.py:225-233 | parsing `host:port` gives back the host, even one that holds colons, and the port |
| HostPort.SplitRebuilds | custom_components/tvoverlay_ui/__init__.py:228-230 | a parsed host, a colon and the port text rebuild the input |
| HostPort.Example | custom_components/tvoverlay_ui/__init__.py:225-233 | `"a:b:80"` is host `"a:b"` on port 80 |
| HostPort.LeadingZerosExample | custom_components/tvoverlay_ui/__init__.py:228-230 | `"tv:0080"` is host `"tv"` on port 80 |
| Payload.Get | custom_components/tvoverlay_ui/__init__.py:415-416 | `data.get(attr)` is `None` for a missing attribute, otherwise its value |
| Payload.WhenTruthy | custom_components/tvoverlay_ui/__init__.py:402-403 | a field is passed on exactly when it is truthy, unchanged |
| Payload.Text | custom_components/tvoverlay_ui/__init__.py:406 | a colour field's text, present exactly when the field is |
| Payload.ColorValue | custom_components/tvoverlay_ui/__init__.py:406-408 | a colour key gets a value exactly when the field is a non-empty text, and then the normalised colour |
| Payload.ColorValueNormal | custom_components/tvoverlay_ui/__init__.py:406-408 | that value is in normal form |
| Payload.Put | custom_components/tvoverlay_ui/__init__.py:402-403 | a conditional insert sets its key when there is a value and changes no other key |
| Payload.PutTruthy | custom_components/tvoverlay_ui/__init__.py:402-403 | the truthy-field insert is `Put` of the truthy value |
| Payload.PutColor | custom_components/tvoverlay_ui/__init__.py:406-408 | the colour insert is `Put` of the colour value |
| Payload.SimpleValueOtherKey | custom_components/tvoverlay_ui/__init__.py:397-399 | the simple-field loop leaves a key that no field uses unset |
| Payload.SimpleValueOfField | custom_components/tvoverlay_ui/__init__.py:397-399 | the loop leaves a field's own value under its key, and nothing when the field is absent or `None` |
| Payload.SimpleBodyHolds | custom_components/tvoverlay_ui/__init__.py:397-399 | key by key, the body the loop builds holds what `SimpleValue` describes |
| Payload.CopySimpleFields | custom_components/tvoverlay_ui/__init__.py:397-399 | the loop builds `SimpleBody` |
| Payload.MediaValue | custom_components/tvoverlay_ui/__init__.py:415-421 | a media key gets the URL exactly when the URL is non-empty and the media type is that kind |
| Payload.MediaPut | custom_components/tvoverlay_ui/__init__.py:417-421 | the media branch sets `image`, then `video`, to their media values |
| Payload.BuildNotificationData | custom_components/tvoverlay_ui/__init__.py:383-423 | the builder returns `NotificationBody`: the simple fields, then the icons, the icon colour and the media keys |
| Payload.NotificationBody | custom_components/tvoverlay_ui/__init__.py:383-423 | no contract of its own; `BuildNotificationData` and the `Notification*`, `MediaKeyOnlyWhen` and `ImageVideoExclusive` lemmas state what it holds |
| Payload.NotificationKeysWithin | custom_components/tvoverlay_ui/__init__.py:383-423 | every key of the body is one of id, title, message, source, corner, duration, smallIcon, smallIconColor, largeIcon, image, video |
| Payload.NotificationSimpleKey | custom_components/tvoverlay_ui/__init__.py:397-399 | the keys set after the loop leave every other key as the loop left it |
| Payload.NotificationSimpleField | custom_components/tvoverlay_ui/__init__.py:397-399 | an absent or `None` simple field is left out of the body, and a set one is copied unchanged |
| Payload.NotifyExtraHolds | custom_components/tvoverlay_ui/__init__.py:401-421 | each key set after the loop holds its own value |
| Payload.NotificationIcons | custom_components/tvoverlay_ui/__init__.py:401-412 | each icon is sent exactly when truthy, unchanged |
| Payload.NotificationColorNormalised | custom_components/tvoverlay_ui/__init__.py:405-408 | `smallIconColor` is present exactly when the colour is non-empty, and then is the normalised colour, in normal form |
| Payload.MediaKeyOnlyWhen | custom_components/tvoverlay_ui/__init__.py:414-421 | `image` (resp. `video`) is present exactly when the URL is non-empty and the type is `image` (resp. `video`), and then holds the URL |
| Payload.ImageVideoExclusive | custom_components/tvoverlay_ui/__init__.py:414-421 | `image` and `video` are never both present |
| Payload.BackgroundValue | custom_components/tvoverlay_ui/__init__.py:460-464 | `backgroundColor` gets a value exactly when the background colour is truthy, and then `_hex_with_alpha` of it and the opacity |
| Payload.PutBackground | custom_components/tvoverlay_ui/__init__.py:460-464 | the background insert is `Put` of that value |
| Payload.BuildFixedNotificationData | custom_components/tvoverlay_ui/__init__.py:426-466 | the builder returns `FixedBody`: the simple fields, then the icon, the three colours and the background colour |
| Payload.FixedBody | custom_components/tvoverlay_ui/__init__.py:426-466 | no contract of its own; `BuildFixedNotificationData` and the `Fixed*`, `VisibleField` and `BackgroundColorRule` lemmas state what it holds |
| Payload.Opacity | custom_components/tvoverlay_ui/__init__.py:463 | no contract of its own; `BackgroundColorRule` states that the background is `_hex_with_alpha` of the colour and this opacity |
| Payload.FixedKeysWithin | custom_components/tvoverlay_ui/__init__.py:426-466 | every key of the body is one of id, visible, message, shape, expiration, icon, messageColor, iconColor, borderColor, backgroundColor |
| Payload.FixedSimpleKey | custom_components/tvoverlay_ui/__init__.py:439-441 | the keys set after the loop leave every other key as the loop left it |
| Payload.FixedSimpleField | custom_components/tvoverlay_ui/__init__.py:439-441 | an absent or `None` simple field is left out of the body, and a set one is copied unchanged |
| Payload.FixedExtraHolds | custom_components/tvoverlay_ui/__init__.py:443-464 | each key set after the loop holds its own value |
| Payload.VisibleField | custom_components/tvoverlay_ui/__init__.py:431-441 | the loop leaves `visible` as the call gives it |
| Payload.VisibleFalseKept | custom_components/tvoverlay_ui/__init__.py:439-441 | `visible: False` is sent, not dropped |
| Payload.FixedIcon | custom_components/tvoverlay_ui/__init__.py:443-445 | the icon is sent exactly when truthy, unchanged |
| Payload.FixedColorsNormalised | custom_components/tvoverlay_ui/__init__.py:447-458 | the message, icon and border colours are present exactly when non-empty, and then are the normalised colours, in normal form |
| Payload.BackgroundColorRule | custom_components/tvoverlay_ui/__init__.py:460-464 | `backgroundColor` is present exactly when the background colour is non-empty, and then equals `_hex_with_alpha(bg, opacity)`, itself in normal form |
| Payload.WithVisibleDefault | custom_components/tvoverlay_ui/__init__.py:145 | the schema fills in `visible: True` when the call leaves it out and changes nothing else |
| Payload.FixedBodyHasVisible | custom_components/tvoverlay_ui/__init__.py:145 | a call that leaves `visible` out sends `visible: true` |
| Api.ClearFixedRequest | custom_components/tvoverlay_ui/api.py:113-118 | clearing posts exactly `{id, visible: false}` to the fixed-notification endpoint |
| NotificationIds.AddId | custom_components/tvoverlay_ui/__init__.py:317-318 | after adding, the list holds the id and exactly the ids it held before |
| NotificationIds.AddKeepsNoDup | custom_components/tvoverlay_ui/__init__.py:317-318 | adding keeps the list free of repeats |
| NotificationIds.AddIdempotent | custom_components/tvoverlay_ui/__init__.py:317-318 | adding an id twice is adding it once |
| NotificationIds.FirstIndex | custom_components/tvoverlay_ui/__init__.py:328 | `list.remove` takes out the id at its first position |
| NotificationIds.RemoveFirst | custom_components/tvoverlay_ui/__init__.py:327-328 | removing a listed id shortens the list by one |
| NotificationIds.RemoveFirstCounts | custom_components/tvoverlay_ui/__init__.py:327-328 | removing takes out exactly one occurrence of the id if there is one, and nothing else |
| NotificationIds.Without | custom_components/tvoverlay_ui/__init__.py:327-328 | the reference list of every other id, in order, does not hold the id |
| NotificationIds.RemoveKeepsOrder | custom_components/tvoverlay_ui/__init__.py:327-328 | in a list without repeats, removing keeps every other id in its order |
| NotificationIds.RemoveBehindHead | custom_components/tvoverlay_ui/__init__.py:327-328 | removing an id found behind the head keeps the head in front |
| NotificationIds.RemoveKeepsNoDup | custom_components/tvoverlay_ui/__init__.py:327-328 | removing keeps the list free of repeats, and the id is gone afterwards |
| NotificationIds.AddThenRemove | custom_components/tvoverlay_ui/__init__.py:314-332 | removing an id just added gives back the list it was added to |
| NotificationIds.Registry.constructor | custom_components/tvoverlay_ui/__init__.py:186 | the list starts as the stored list |
| NotificationIds.Registry.Add | custom_components/tvoverlay_ui/__init__.py:314-322 | `_add_notification_id` leaves `AddId` of the old list |
| NotificationIds.Registry.Remove | custom_components/tvoverlay_ui/__init__.py:324-332 | `_remove_notification_id` leaves `RemoveFirst` of the old list |
| Services.FirstMatch | custom_components/tvoverlay_ui/__init__.py:256-261 | the scan stops at the first entry matching the query, or reports that none does |
| Services.FirstMatchUnique | custom_components/tvoverlay_ui/__init__.py:256-261 | any first match is the one `FirstMatch` finds |
| Services.FindEntry | custom_components/tvoverlay_ui/__init__.py:256-261 | the loop returns the first matching entry, or none when no entry matches |
| Services.GetClient | custom_components/tvoverlay_ui/__init__.py:263-292 | `_get_client` returns the client `ResolveClient` describes |
| Services.ResolveClient | custom_components/tvoverlay_ui/__init__.py:263-292 | no contract of its own; `GetClient`, `ResolvedEntry`, `NoClientWhen`, `UnconfiguredOnlyUnknown` and `EntryOf` state what it resolves |
| Services.ResolvedEntry | custom_components/tvoverlay_ui/__init__.py:263-292 | a configured client belongs to an existing entry, and a device id the registry knows takes precedence |
| Services.NoClientWhen | custom_components/tvoverlay_ui/__init__.py:263-292 | no device is addressed exactly when there is no truthy host and the device id is missing, unknown to the registry and no entry's name or host |
| Services.UnconfiguredOnlyUnknown | custom_components/tvoverlay_ui/__init__.py:280-291 | a new client is made only for a truthy host whose parsed host and port no entry has |
| Services.EntryOf | custom_components/tvoverlay_ui/__init__.py:307-312 | a configured client leads back to its own entry, and a new client to none |
| Services.NotifyFixedGating | custom_components/tvoverlay_ui/__init__.py:347-351 | the id list changes exactly when the call succeeded with a non-empty id not yet listed, and then gains that id at the end; it stays free of repeats |
| Services.AfterNotifyFixed | custom_components/tvoverlay_ui/__init__.py:347-351 | no contract of its own; `NotifyFixedGating` states when and how the list changes |
| Services.ClearFixedGating | custom_components/tvoverlay_ui/__init__.py:366-370 | the id list changes exactly when the call succeeded and the id was listed; it stays free of repeats and then no longer holds the id |
| Services.AfterClearFixed | custom_components/tvoverlay_ui/__init__.py:366-370 | no contract of its own; `ClearFixedGating` states when and how the list changes |
| Services.SentId | custom_components/tvoverlay_ui/__init__.py:348 | `data.get("id")` of the body |
| Services.SentIdIsCallId | custom_components/tvoverlay_ui/__init__.py:439-441 | the body's `id` is the call's `id` |
| Services.Integration.constructor | custom_components/tvoverlay_ui/__init__.py:188-197 | one id list per configured entry |
| Services.Integration.Notify | custom_components/tvoverlay_ui/__init__.py:294-305 | the notification body goes to the addressed client, and nothing is sent when no device is addressed |
| Services.Integration.NotifyFixed | custom_components/tvoverlay_ui/__init__.py:334-351 | the fixed body goes to the addressed client; only that entry's list changes, by `AfterNotifyFixed` |
| Services.Integration.ClearFixed | custom_components/tvoverlay_ui/__init__.py:353-370 | the clear request goes to the addressed client; only that entry's list changes, by `AfterClearFixed` |
| Switches.SwitchValue | custom_components/tvoverlay_ui/switch.py:145-149 | no contract of its own; `SwitchStatesDiffer`, `ClockSwitchMatchesSlider`, `OtherSwitchesSendState` and `ClockSwitchSends` state what it sends |
| Switches.SwitchStatesDiffer | custom_components/tvoverlay_ui/switch.py:145-149 | turning a switch on and turning it off never send the same value |
| Switches.ClockSwitchMatchesSlider | custom_components/tvoverlay_ui/switch.py:145-147 | the clock switch sends what the clock-visibility slider (`number.py:32-43`) sends at its maximum when on and at its minimum when off |
| Switches.OtherSwitchesSendState | custom_components/tvoverlay_ui/switch.py:148-151 | every switch but the clock sends `{api_key: state}` with the state as a boolean |
| Switches.SwitchSetter | custom_components/tvoverlay_ui/switch.py:153-158 | `notifications` goes to `set_notifications`, `overlay` to `set_overlay`, and anything else to `set_settings` |
| Switches.SwitchRequest | custom_components/tvoverlay_ui/switch.py:145-158 | the body has exactly one key, the switch's setting, with the state's value |
| Switches.SwitchEndpoints | custom_components/tvoverlay_ui/switch.py:32-78 | the clock goes to `set_overlay`, both notification switches to `set_notifications`, pixel shift and debug mode to `set_settings` |
| Switches.ClockSwitchSends | custom_components/tvoverlay_ui/switch.py:145-151 | the clock switch sends `{clockOverlayVisibility: 95}` when on and `{clockOverlayVisibility: 0}` when off |
| Switches.Switch.constructor | custom_components/tvoverlay_ui/switch.py:110-123 | a new switch is on |
| Switches.Switch.SetState | custom_components/tvoverlay_ui/switch.py:143-168 | sends `SwitchRequest`; the switch shows the state on success and keeps its old state on failure |
| Switches.Switch.TurnOn | custom_components/tvoverlay_ui/switch.py:135-137 | sets the state `true` |
| Switches.Switch.TurnOff | custom_components/tvoverlay_ui/switch.py:139-141 | sets the state `false` |
| Numbers.InitialValuesInRange | custom_components/tvoverlay_ui/number.py:31-132 | the duration starts at 5, the fixed-notification visibility at -1 and the rest at 0, each inside its slider's range |
| Numbers.InitialValue | custom_components/tvoverlay_ui/number.py:127-132 | no contract of its own; `InitialValuesInRange` and `Number.constructor` state what each slider starts at |
| Numbers.NumberSetter | custom_components/tvoverlay_ui/number.py:149-152 | `overlay` goes to `set_overlay`, anything else to `set_notifications`, and never to `set_settings` |
| Numbers.NumberRequest | custom_components/tvoverlay_ui/number.py:146-152 | the body is exactly `{api_key: value}` |
| Numbers.NumberEndpoints | custom_components/tvoverlay_ui/number.py:31-81 | both visibilities of the clock and the overlay go to `set_overlay`, the other two sliders to `set_notifications` |
| Numbers.Number.constructor | custom_components/tvoverlay_ui/number.py:113-132 | a new slider shows its initial value |
| Numbers.Number.SetNativeValue | custom_components/tvoverlay_ui/number.py:144-162 | sends `NumberRequest`; the slider shows the value on success and keeps its old value on failure |
| Selects.SelectDescriptions | custom_components/tvoverlay_ui/select.py:36-63 | three selects, each storing its choice under its own key |
| Selects.SelectRequest | custom_components/tvoverlay_ui/select.py:134-140 | a request is sent exactly when the select names a setting and the `notifications` endpoint, and it holds only the option |
| Selects.LayoutSelect | custom_components/tvoverlay_ui/select.py:36-148 | the layout sends `{notificationLayoutName: option}` to `set_notifications` and takes the choice exactly when the device accepts it |
| Selects.DefaultsNeedNoDevice | custom_components/tvoverlay_ui/select.py:47-152 | the corner and shape selects send nothing and always take the choice |
| Selects.OtherEndpointFails | custom_components/tvoverlay_ui/select.py:137-148 | a select with any other endpoint sends nothing and never takes the choice |
| Selects.ChoiceSurvives | custom_components/tvoverlay_ui/select.py:113-151 | a taken choice is what a select created afterwards on the same entry data shows |
| Selects.InitialOption | custom_components/tvoverlay_ui/select.py:113-119 | no contract of its own; `Select.constructor` and `ChoiceSurvives` state that a select shows the stored choice or its fallback |
| Selects.EntryData.constructor | custom_components/tvoverlay_ui/__init__.py:189-197 | the entry data starts with the stored options |
| Selects.Select.constructor | custom_components/tvoverlay_ui/select.py:96-119 | the options are the description's, and the initial option is the stored choice or the fallback `Default`, `top_end` or `rounded` |
| Selects.Select.SelectOption | custom_components/tvoverlay_ui/select.py:131-152 | sends `SelectRequest`; a taken choice becomes the shown option and is stored under the storage key, with no other stored option changed; a choice not taken changes neither |

## Left out

- Network I/O. The aiohttp session, timeouts and `TvOverlayConnectionError` are not modelled. A raised connection error leaves every state as a failed call does, so it is covered by `success == false`. `button.py` only sends an empty notification, and the config flow only tests the connection; both are left out.
- Persistence and framework plumbing:
  - `Store` loading and saving.
  - The update listeners, logging and `async_write_ha_state`.
  - `hass.data` setup and unload, and service registration.
  - The entities' `unique_id` and `device_info`.
- The device registry lookup of `_get_client_from_device_id`. It becomes the input `deviceEntry`: the entry a device id belongs to, if any.
- `const.py` is not part of this model:
  - The `ATTR_*` names are the `Attr` datatype.
  - `DEFAULT_PORT` is the `defaultPort` parameter.
  - `VALID_CORNERS` and `VALID_SHAPES` are parameters of `SelectDescriptions`.
  - The endpoint paths are the `Request` variants.
- The voluptuous schemas become preconditions only as far as the modelled code needs them. `NotifyDataOk` asks only that the small icon colour is text or absent. `FixedDataOk` asks that the message, icon, border and background colours are text or absent, and that the opacity is absent or an integer 0..100. `TargetOk` asks that the device id and the host are text or absent, and that a registry entry the device id resolves to exists. The fixed-notification schema's `visible` default is `WithVisibleDefault`.
- The schemas' other checks and coercions are not modelled:
  - the duration's `cv.positive_int`;
  - the `cv.boolean` coercion of `visible` (a given value is copied as it is);
  - the `cv.string` coercion of the other text fields (a given value is copied as it is);
  - the media type, corner and shape choices;
  - the rule that at least one of device id and host is given.
- `async_setup_entry` defaulting an entry's name to its host is not modelled. Entries are given with their names.
- JSON key order in the bodies is not modelled. A body is a map.
- PyStr.Lower: ASCII only; Unicode case mapping is not modelled. The same holds for `PyStr.Upper` and for `PyStr.Strip`, whose whitespace is the ASCII whitespace `str.isspace` accepts.
- HostPort.ParseHostPort: a port is a non-empty run of ASCII digits. `int()` would also accept a sign, surrounding whitespace and underscores; such suffixes fall back to the default port here.
- Numbers.Number.SetNativeValue: the value is an integer. The slider's float and its `int()` truncation are not modelled, because the sliders step by 1.
- Concurrency between service calls (`async`/`await` interleaving) is not modelled. Each call runs to completion.
