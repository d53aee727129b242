/**
 * The request bodies of the `notify` and `notify_fixed` services
 * (`_build_notification_data`, `_build_fixed_notification_data` in `__init__.py`).
 * Service call data maps attribute names to values; the builders copy the fields
 * that are set under the device's API key names, normalise colours and pick
 * the media key.
 */
module Payload {
  import opened Wrappers
  import opened Colors

  /** A JSON scalar as it appears in call data and request bodies. */
  datatype Value = Str(s: string) | Int(i: int) | Bool(b: bool)

  /** Python truthiness of `data.get(attr)`: a missing or `None` value, the empty
      string, `0` and `False` are false. */
  predicate Truthy(v: Option<Value>) {
    match v
    case None => false
    case Some(Str(s)) => s != []
    case Some(Int(i)) => i != 0
    case Some(Bool(b)) => b
  }

  /** The service call attributes the builders read (the `ATTR_*` names). */
  datatype Attr =
    | DeviceId | Host | Id | Title | Message | Source | SmallIcon | SmallIconColor
    | LargeIcon | MediaType | MediaUrl | Corner | Duration | Visible | Icon
    | MessageColor | IconColor | BorderColor | BackgroundColor | BackgroundOpacity
    | Shape | Expiration

  /** The keys of the device's notification API. */
  datatype Key =
    | Id | Title | Message | Source | Corner | Duration | SmallIcon | SmallIconColor
    | LargeIcon | Image | Video | Visible | Shape | Expiration | Icon
    | MessageColor | IconColor | BorderColor | BackgroundColor
  {
    /** The key as it is written in the JSON body. */
    function Name(): string {
      match this
      case Id => "id"
      case Title => "title"
      case Message => "message"
      case Source => "source"
      case Corner => "corner"
      case Duration => "duration"
      case SmallIcon => "smallIcon"
      case SmallIconColor => "smallIconColor"
      case LargeIcon => "largeIcon"
      case Image => "image"
      case Video => "video"
      case Visible => "visible"
      case Shape => "shape"
      case Expiration => "expiration"
      case Icon => "icon"
      case MessageColor => "messageColor"
      case IconColor => "iconColor"
      case BorderColor => "borderColor"
      case BackgroundColor => "backgroundColor"
    }
  }

  /** Call data: an attribute missing from the map is absent, one mapped to `None` was
      given as Python `None`. */
  type CallData = map<Attr, Option<Value>>

  /** A request body: API key to value. */
  type Body = map<Key, Value>

  /** `data.get(attr)` */
  function Get(data: CallData, a: Attr): (v: Option<Value>)
    ensures a !in data ==> v.None?
    ensures a in data ==> v == data[a]
  {
    if a in data then data[a] else None
  }

  /** The value of a field that is passed on only when it is truthy. */
  function WhenTruthy(v: Option<Value>): (r: Option<Value>)
    ensures r.Some? <==> Truthy(v)
    ensures r.Some? ==> r == v
  {
    if Truthy(v) then v else None
  }

  /** A colour field holds text or nothing: the builders call string methods on it. */
  predicate TextOrNone(v: Option<Value>) {
    v.None? || v.value.Str?
  }

  function Text(v: Option<Value>): (r: Option<string>)
    requires TextOrNone(v)
    ensures r.None? <==> v.None?
    ensures r.Some? ==> v == Some(Str(r.value))
  {
    if v.None? then None else Some(v.value.s)
  }

  /** The body value of a colour field: its normalised colour, present exactly when the
      field is a non-empty text. */
  function ColorValue(v: Option<Value>): (r: Option<Value>)
    requires TextOrNone(v)
    ensures r.Some? <==> Truthy(v)
    ensures r.Some? ==> r == Some(Str(NormalizeHexColor(Text(v)).value))
  {
    match NormalizeHexColor(Text(v))
    case None => None
    case Some(c) => Some(Str(c))
  }

  /** `key` is in `body` exactly when `v` holds a value, and then maps to that value. */
  predicate Holds(body: Body, key: Key, v: Option<Value>) {
    (key in body <==> v.Some?) && (key in body ==> body[key] == v.value)
  }

  /** `body` with `key` set to the value in `v`, if there is one. */
  function Put(body: Body, key: Key, v: Option<Value>): (r: Body)
    ensures Holds(r, key, v) || (v.None? && r == body)
    ensures forall k :: k != key ==> (k in r <==> k in body) && (k in r ==> r[k] == body[k])
  {
    if v.Some? then body[key := v.value] else body
  }

  /** A key and the optional value the builder puts under it. */
  type Entry = (Key, Option<Value>)

  /** `body` with the entries put one after the other. */
  function PutAll(body: Body, entries: seq<Entry>): Body {
    if |entries| == 0 then body
    else
      var (key, v) := entries[|entries| - 1];
      Put(PutAll(body, entries[..|entries| - 1]), key, v)
  }

  /** A key no entry names keeps what it had. */
  lemma {:induction false} PutAllOther(body: Body, entries: seq<Entry>, key: Key)
    requires forall i :: 0 <= i < |entries| ==> entries[i].0 != key
    ensures var r := PutAll(body, entries);
            (key in r <==> key in body) && (key in r ==> r[key] == body[key])
  {
    if |entries| > 0 {
      PutAllOther(body, entries[..|entries| - 1], key);
    }
  }

  /** An entry whose key was unset and that no other entry names ends up holding its
      own value. */
  lemma {:induction false} PutAllEntry(body: Body, entries: seq<Entry>, i: nat)
    requires i < |entries| && entries[i].0 !in body
    requires forall j :: 0 <= j < |entries| && j != i ==> entries[j].0 != entries[i].0
    ensures Holds(PutAll(body, entries), entries[i].0, entries[i].1)
  {
    var init := entries[..|entries| - 1];
    if i < |entries| - 1 {
      PutAllEntry(body, init, i);
    } else {
      PutAllOther(body, init, entries[i].0);
    }
  }

  /** Five entries put in turn. */
  lemma PutAllFive(body: Body, entries: seq<Entry>)
    requires |entries| == 5
    ensures PutAll(body, entries)
            == Put(Put(Put(Put(Put(body, entries[0].0, entries[0].1), entries[1].0, entries[1].1),
                   entries[2].0, entries[2].1), entries[3].0, entries[3].1), entries[4].0, entries[4].1)
  {
    var e := entries;
    assert e[..1][..0] == [];
    assert PutAll(body, e[..1]) == Put(body, e[0].0, e[0].1);
    assert e[..2][..1] == e[..1];
    assert PutAll(body, e[..2]) == Put(PutAll(body, e[..1]), e[1].0, e[1].1);
    assert e[..3][..2] == e[..2];
    assert PutAll(body, e[..3]) == Put(PutAll(body, e[..2]), e[2].0, e[2].1);
    assert e[..4][..3] == e[..3];
    assert PutAll(body, e[..4]) == Put(PutAll(body, e[..3]), e[3].0, e[3].1);
    assert e[..4] == e[..|e| - 1];
  }

  /** `if data.get(a): payload[key] = data[a]`: one optional field put when truthy. */
  method PutTruthy(body: Body, key: Key, v: Option<Value>) returns (r: Body)
    ensures r == Put(body, key, WhenTruthy(v))
  {
    r := body;
    if Truthy(v) {
      r := r[key := v.value];
    }
  }

  /** One colour field: normalised, and put only when the normalised colour exists. */
  method PutColor(body: Body, key: Key, v: Option<Value>) returns (r: Body)
    requires TextOrNone(v)
    ensures r == Put(body, key, ColorValue(v))
  {
    var color := NormalizeHexColor(Text(v));
    ColorValueOf(v, color);
    if color.Some? {
      r := body[key := Str(color.value)];
    } else {
      r := body;
    }
  }

  lemma ColorValueOf(v: Option<Value>, color: Option<string>)
    requires TextOrNone(v) && color == NormalizeHexColor(Text(v))
    ensures ColorValue(v) == if color.Some? then Some(Str(color.value)) else None
  {
  }

  /** A colour key of a body: present exactly when the field is a non-empty text, and
      then its normalised colour, in normal form. */
  predicate ColorEntry(body: Body, key: Key, v: Option<Value>)
    requires TextOrNone(v)
  {
    && (key in body <==> Truthy(v))
    && (key in body ==> body[key] == Str(NormalizeHexColor(Text(v)).value) && NormalForm(body[key].s))
  }

  /** A colour value is in normal form. */
  lemma ColorValueNormal(v: Option<Value>)
    requires TextOrNone(v)
    ensures ColorValue(v).Some? ==> ColorValue(v).value.Str? && NormalForm(ColorValue(v).value.s)
  {
    NormalizeGivesNormalForm(Text(v));
  }

  // ---------------------------------------------------------------------------
  // The simple fields: copied under their API key when set and not `None`.

  /** Attribute and API key of each simple field, in the order the builder visits them. */
  type FieldTable = seq<(Attr, Key)>

  /** What a loop over `fields` leaves under `key`: the last field with that key whose
      value is set and not `None`. */
  function SimpleValue(data: CallData, fields: FieldTable, key: Key): Option<Value> {
    if |fields| == 0 then None
    else
      var (a, k) := fields[|fields| - 1];
      if k == key && Get(data, a).Some? then Get(data, a)
      else SimpleValue(data, fields[..|fields| - 1], key)
  }

  /** A key that no field uses gets nothing from the loop. */
  lemma {:induction false} SimpleValueOtherKey(data: CallData, fields: FieldTable, key: Key)
    requires forall j :: 0 <= j < |fields| ==> fields[j].1 != key
    ensures SimpleValue(data, fields, key).None?
  {
    if |fields| > 0 {
      var init := fields[..|fields| - 1];
      assert forall j :: 0 <= j < |init| ==> init[j] == fields[j];
      SimpleValueOtherKey(data, init, key);
    }
  }

  /** With a field's key used by no other field, the loop leaves exactly that field's
      value under its key: nothing when it is absent or `None`. */
  lemma {:induction false} SimpleValueOfField(data: CallData, fields: FieldTable, i: nat)
    requires i < |fields|
    requires forall j :: 0 <= j < |fields| && j != i ==> fields[j].1 != fields[i].1
    ensures SimpleValue(data, fields, fields[i].1) == Get(data, fields[i].0)
  {
    var init := fields[..|fields| - 1];
    assert forall j :: 0 <= j < |init| ==> init[j] == fields[j];
    if i < |fields| - 1 {
      SimpleValueOfField(data, init, i);
    } else {
      SimpleValueOtherKey(data, init, fields[i].1);
    }
  }

  /** The body the loop over `fields` builds: each field that is set and not `None`,
      put under its key in turn. */
  function SimpleBody(data: CallData, fields: FieldTable): Body {
    if |fields| == 0 then map[]
    else
      var (a, key) := fields[|fields| - 1];
      Put(SimpleBody(data, fields[..|fields| - 1]), key, Get(data, a))
  }

  /** Key by key, the loop leaves the value `SimpleValue` describes. */
  lemma {:induction false} SimpleBodyHolds(data: CallData, fields: FieldTable, key: Key)
    ensures Holds(SimpleBody(data, fields), key, SimpleValue(data, fields, key))
  {
    if |fields| > 0 {
      SimpleBodyHolds(data, fields[..|fields| - 1], key);
    }
  }

  /** The loop over `simple_fields`. */
  method CopySimpleFields(data: CallData, fields: FieldTable) returns (body: Body)
    ensures body == SimpleBody(data, fields)
  {
    body := map[];
    var i := 0;
    while i < |fields|
      invariant i <= |fields|
      invariant body == SimpleBody(data, fields[..i])
    {
      var (a, key) := fields[i];
      assert fields[..i + 1][..i] == fields[..i];
      if a in data && data[a].Some? {
        body := body[key := data[a].value];
      }
      i := i + 1;
    }
    assert fields[..i] == fields;
  }

  // ---------------------------------------------------------------------------
  // `_build_notification_data`

  const NotifySimpleFields: FieldTable := [
    (Attr.Id, Key.Id), (Attr.Title, Key.Title), (Attr.Message, Key.Message),
    (Attr.Source, Key.Source), (Attr.Corner, Key.Corner), (Attr.Duration, Key.Duration)
  ]

  /** Every key a notification body can hold. */
  const NotificationKeys: set<Key> := {
    Key.Id, Key.Title, Key.Message, Key.Source, Key.Corner, Key.Duration,
    Key.SmallIcon, Key.SmallIconColor, Key.LargeIcon, Key.Image, Key.Video
  }

  /** What the notification service requires of the fields the builder reads: the
      small icon colour is text. */
  predicate NotifyDataOk(data: CallData) {
    TextOrNone(Get(data, Attr.SmallIconColor))
  }

  /** The media URL under `image` (resp. `video`): set when the URL is non-empty and
      the media type is that kind. */
  function MediaValue(data: CallData, kind: string): (r: Option<Value>)
    ensures r.Some? <==> Truthy(Get(data, Attr.MediaUrl)) && Get(data, Attr.MediaType) == Some(Str(kind))
                         && kind != [] && kind != "none"
    ensures r.Some? ==> r == Get(data, Attr.MediaUrl)
  {
    var mediaType := Get(data, Attr.MediaType);
    var url := Get(data, Attr.MediaUrl);
    if Truthy(url) && Truthy(mediaType) && mediaType != Some(Str("none")) && mediaType == Some(Str(kind))
    then url else None
  }

  /** The keys `_build_notification_data` sets after the simple fields. */
  const NotifyExtraKeys: set<Key> := {Key.SmallIcon, Key.SmallIconColor, Key.LargeIcon, Key.Image, Key.Video}

  /** What `_build_notification_data` puts after the simple fields, in order: the
      icons, the icon colour and the two media keys. */
  function NotifyExtras(data: CallData): seq<Entry>
    requires NotifyDataOk(data)
  {
    [ (Key.SmallIcon, WhenTruthy(Get(data, Attr.SmallIcon))),
      (Key.SmallIconColor, ColorValue(Get(data, Attr.SmallIconColor))),
      (Key.LargeIcon, WhenTruthy(Get(data, Attr.LargeIcon))),
      (Key.Image, MediaValue(data, "image")),
      (Key.Video, MediaValue(data, "video")) ]
  }

  /** The body `_build_notification_data` assembles. */
  function NotificationBody(data: CallData): Body
    requires NotifyDataOk(data)
  {
    PutAll(SimpleBody(data, NotifySimpleFields), NotifyExtras(data))
  }

  /** `_build_notification_data`: fills the body step by step. */
  method BuildNotificationData(data: CallData) returns (body: Body)
    requires NotifyDataOk(data)
    ensures body == NotificationBody(data)
  {
    body := CopySimpleFields(data, NotifySimpleFields);
    body := PutTruthy(body, Key.SmallIcon, Get(data, Attr.SmallIcon));
    body := PutColor(body, Key.SmallIconColor, Get(data, Attr.SmallIconColor));
    body := PutTruthy(body, Key.LargeIcon, Get(data, Attr.LargeIcon));
    ghost var before := body;
    var mediaType := Get(data, Attr.MediaType);
    var mediaUrl := Get(data, Attr.MediaUrl);
    if Truthy(mediaUrl) && Truthy(mediaType) && mediaType != Some(Str("none")) {
      if mediaType == Some(Str("image")) {
        body := body[Key.Image := mediaUrl.value];
      } else if mediaType == Some(Str("video")) {
        body := body[Key.Video := mediaUrl.value];
      }
    }
    MediaPut(data, before, body);
    PutAllFive(SimpleBody(data, NotifySimpleFields), NotifyExtras(data));
  }

  lemma MediaKindsDistinct()
    ensures "image" != "video" && "image" != "none" && "video" != "none"
  {
    assert "image"[0] != "video"[0] && "image"[0] != "none"[0] && "video"[0] != "none"[0];
  }

  /** The media branch of the builder sets the `image` key, then the `video` key, to
      their media values. */
  lemma MediaPut(data: CallData, before: Body, body: Body)
    requires
      var mediaType, url := Get(data, Attr.MediaType), Get(data, Attr.MediaUrl);
      body == if Truthy(url) && Truthy(mediaType) && mediaType != Some(Str("none")) then
                if mediaType == Some(Str("image")) then before[Key.Image := url.value]
                else if mediaType == Some(Str("video")) then before[Key.Video := url.value]
                else before
              else before
    ensures body == Put(Put(before, Key.Image, MediaValue(data, "image")), Key.Video, MediaValue(data, "video"))
  {
    MediaKindsDistinct();
  }

  /** The simple fields of a notification leave the extra keys unset. */
  lemma NotifyExtrasUnset(data: CallData)
    ensures forall k :: k in NotifyExtraKeys ==> k !in SimpleBody(data, NotifySimpleFields)
  {
    forall k | k in NotifyExtraKeys ensures k !in SimpleBody(data, NotifySimpleFields) {
      SimpleBodyHolds(data, NotifySimpleFields, k);
      SimpleValueOtherKey(data, NotifySimpleFields, k);
    }
  }

  /** Extra entry `i` of a notification holds its own value in the body. */
  lemma NotifyExtraHolds(data: CallData, i: nat)
    requires NotifyDataOk(data) && i < 5
    ensures Holds(NotificationBody(data), NotifyExtras(data)[i].0, NotifyExtras(data)[i].1)
  {
    var extras := NotifyExtras(data);
    NotifyExtrasUnset(data);
    assert extras[i].0 in NotifyExtraKeys;
    PutAllEntry(SimpleBody(data, NotifySimpleFields), extras, i);
  }

  /** Every key but the extra ones holds what the loop over the simple fields left. */
  lemma NotificationSimpleKey(data: CallData, key: Key)
    requires NotifyDataOk(data) && key !in NotifyExtraKeys
    ensures Holds(NotificationBody(data), key, SimpleValue(data, NotifySimpleFields, key))
  {
    PutAllOther(SimpleBody(data, NotifySimpleFields), NotifyExtras(data), key);
    SimpleBodyHolds(data, NotifySimpleFields, key);
  }

  /** A notification body only uses the device's notification keys. */
  lemma NotificationKeysWithin(data: CallData, key: Key)
    requires NotifyDataOk(data) && key in NotificationBody(data)
    ensures key in NotificationKeys
  {
    if key !in NotificationKeys {
      NotificationSimpleKey(data, key);
      SimpleValueOtherKey(data, NotifySimpleFields, key);
    }
  }

  /** A simple field that is absent or `None` is left out of the notification body;
      one that is set is copied unchanged. */
  lemma NotificationSimpleField(data: CallData, i: nat)
    requires NotifyDataOk(data) && i < |NotifySimpleFields|
    ensures Holds(NotificationBody(data), NotifySimpleFields[i].1, Get(data, NotifySimpleFields[i].0))
  {
    NotificationSimpleKey(data, NotifySimpleFields[i].1);
    SimpleValueOfField(data, NotifySimpleFields, i);
  }

  /** Each icon is sent exactly when the call gives a truthy one, unchanged. */
  lemma NotificationIcons(data: CallData)
    requires NotifyDataOk(data)
    ensures Holds(NotificationBody(data), Key.SmallIcon, WhenTruthy(Get(data, Attr.SmallIcon)))
    ensures Holds(NotificationBody(data), Key.LargeIcon, WhenTruthy(Get(data, Attr.LargeIcon)))
  {
    NotifyExtraHolds(data, 0);
    NotifyExtraHolds(data, 2);
  }

  /** The small icon colour is present exactly when the call gives a non-empty one, and
      then is its normalised colour, in normal form. */
  lemma NotificationColorNormalised(data: CallData)
    requires NotifyDataOk(data)
    ensures ColorEntry(NotificationBody(data), Key.SmallIconColor, Get(data, Attr.SmallIconColor))
  {
    NotifyExtraHolds(data, 1);
    ColorValueNormal(Get(data, Attr.SmallIconColor));
  }

  /** A media key is present only with a non-empty URL and the matching media type,
      and then holds that URL. */
  lemma MediaKeyOnlyWhen(data: CallData)
    requires NotifyDataOk(data)
    ensures var body, url := NotificationBody(data), Get(data, Attr.MediaUrl);
            && (Key.Image in body <==> Truthy(url) && Get(data, Attr.MediaType) == Some(Str("image")))
            && (Key.Video in body <==> Truthy(url) && Get(data, Attr.MediaType) == Some(Str("video")))
            && (Key.Image in body ==> Some(body[Key.Image]) == url)
            && (Key.Video in body ==> Some(body[Key.Video]) == url)
  {
    NotifyExtraHolds(data, 3);
    NotifyExtraHolds(data, 4);
    MediaKindsDistinct();
  }

  /** A notification never carries both an image and a video. */
  lemma ImageVideoExclusive(data: CallData)
    requires NotifyDataOk(data)
    ensures !(Key.Image in NotificationBody(data) && Key.Video in NotificationBody(data))
  {
    MediaKeyOnlyWhen(data);
    MediaKindsDistinct();
  }

  // ---------------------------------------------------------------------------
  // `_build_fixed_notification_data`

  const FixedSimpleFields: FieldTable := [
    (Attr.Id, Key.Id), (Attr.Visible, Key.Visible), (Attr.Message, Key.Message),
    (Attr.Shape, Key.Shape), (Attr.Expiration, Key.Expiration)
  ]

  /** Every key a fixed notification body can hold. */
  const FixedKeys: set<Key> := {
    Key.Id, Key.Visible, Key.Message, Key.Shape, Key.Expiration,
    Key.Icon, Key.MessageColor, Key.IconColor, Key.BorderColor, Key.BackgroundColor
  }

  /** The background opacity as `_hex_with_alpha` receives it. */
  function Opacity(data: CallData): Option<int> {
    match Get(data, Attr.BackgroundOpacity)
    case Some(Int(n)) => Some(n)
    case _ => None
  }

  /** What the fixed-notification schema guarantees of the fields the builder reads:
      the colours are text and the opacity is absent or an integer percentage. */
  predicate FixedDataOk(data: CallData) {
    && TextOrNone(Get(data, Attr.MessageColor))
    && TextOrNone(Get(data, Attr.IconColor))
    && TextOrNone(Get(data, Attr.BorderColor))
    && TextOrNone(Get(data, Attr.BackgroundColor))
    && (Get(data, Attr.BackgroundOpacity).None? || Get(data, Attr.BackgroundOpacity).value.Int?)
    && OpacityInRange(Opacity(data))
  }

  /** The `backgroundColor` value: the ARGB form of a non-empty background colour. */
  function BackgroundValue(data: CallData): (r: Option<Value>)
    requires FixedDataOk(data)
    ensures r.Some? <==> Truthy(Get(data, Attr.BackgroundColor))
    ensures r.Some? ==>
              r == Some(Str(HexWithAlpha(Text(Get(data, Attr.BackgroundColor)), Opacity(data)).value))
  {
    var bg := Get(data, Attr.BackgroundColor);
    if Truthy(bg) then
      match HexWithAlpha(Text(bg), Opacity(data))
      case None => None
      case Some(c) => Some(Str(c))
    else None
  }

  /** The background colour: when the field is truthy, `_hex_with_alpha` of it and the
      opacity. */
  method PutBackground(body: Body, data: CallData) returns (r: Body)
    requires FixedDataOk(data)
    ensures r == Put(body, Key.BackgroundColor, BackgroundValue(data))
  {
    var bgColor := Get(data, Attr.BackgroundColor);
    r := body;
    if Truthy(bgColor) {
      var argb := HexWithAlpha(Text(bgColor), Opacity(data));
      r := r[Key.BackgroundColor := Str(argb.value)];
    }
  }

  /** The keys `_build_fixed_notification_data` sets after the simple fields. */
  const FixedExtraKeys: set<Key> :=
    {Key.Icon, Key.MessageColor, Key.IconColor, Key.BorderColor, Key.BackgroundColor}

  /** What `_build_fixed_notification_data` puts after the simple fields, in order:
      the icon, the three colours and the background colour. */
  function FixedExtras(data: CallData): seq<Entry>
    requires FixedDataOk(data)
  {
    [ (Key.Icon, WhenTruthy(Get(data, Attr.Icon))),
      (Key.MessageColor, ColorValue(Get(data, Attr.MessageColor))),
      (Key.IconColor, ColorValue(Get(data, Attr.IconColor))),
      (Key.BorderColor, ColorValue(Get(data, Attr.BorderColor))),
      (Key.BackgroundColor, BackgroundValue(data)) ]
  }

  /** The body `_build_fixed_notification_data` assembles. */
  function FixedBody(data: CallData): Body
    requires FixedDataOk(data)
  {
    PutAll(SimpleBody(data, FixedSimpleFields), FixedExtras(data))
  }

  /** `_build_fixed_notification_data`: fills the body step by step. */
  method BuildFixedNotificationData(data: CallData) returns (body: Body)
    requires FixedDataOk(data)
    ensures body == FixedBody(data)
  {
    body := CopySimpleFields(data, FixedSimpleFields);
    body := PutTruthy(body, Key.Icon, Get(data, Attr.Icon));
    body := PutColor(body, Key.MessageColor, Get(data, Attr.MessageColor));
    body := PutColor(body, Key.IconColor, Get(data, Attr.IconColor));
    body := PutColor(body, Key.BorderColor, Get(data, Attr.BorderColor));
    body := PutBackground(body, data);
    PutAllFive(SimpleBody(data, FixedSimpleFields), FixedExtras(data));
  }

  /** The simple fields of a fixed notification leave the extra keys unset. */
  lemma FixedExtrasUnset(data: CallData)
    ensures forall k :: k in FixedExtraKeys ==> k !in SimpleBody(data, FixedSimpleFields)
  {
    forall k | k in FixedExtraKeys ensures k !in SimpleBody(data, FixedSimpleFields) {
      SimpleBodyHolds(data, FixedSimpleFields, k);
      SimpleValueOtherKey(data, FixedSimpleFields, k);
    }
  }

  /** Extra entry `i` of a fixed notification holds its own value in the body. */
  lemma FixedExtraHolds(data: CallData, i: nat)
    requires FixedDataOk(data) && i < 5
    ensures Holds(FixedBody(data), FixedExtras(data)[i].0, FixedExtras(data)[i].1)
  {
    var extras := FixedExtras(data);
    FixedExtrasUnset(data);
    assert extras[i].0 in FixedExtraKeys;
    PutAllEntry(SimpleBody(data, FixedSimpleFields), extras, i);
  }

  /** Every key but the extra ones holds what the loop over the simple fields left. */
  lemma FixedSimpleKey(data: CallData, key: Key)
    requires FixedDataOk(data) && key !in FixedExtraKeys
    ensures Holds(FixedBody(data), key, SimpleValue(data, FixedSimpleFields, key))
  {
    PutAllOther(SimpleBody(data, FixedSimpleFields), FixedExtras(data), key);
    SimpleBodyHolds(data, FixedSimpleFields, key);
  }

  /** A fixed notification body only uses the device's fixed-notification keys. */
  lemma FixedKeysWithin(data: CallData, key: Key)
    requires FixedDataOk(data) && key in FixedBody(data)
    ensures key in FixedKeys
  {
    if key !in FixedKeys {
      FixedSimpleKey(data, key);
      SimpleValueOtherKey(data, FixedSimpleFields, key);
    }
  }

  /** A simple field that is absent or `None` is left out of the fixed body; one that
      is set is copied unchanged. */
  lemma FixedSimpleField(data: CallData, i: nat)
    requires FixedDataOk(data) && i < |FixedSimpleFields|
    ensures Holds(FixedBody(data), FixedSimpleFields[i].1, Get(data, FixedSimpleFields[i].0))
  {
    FixedSimpleKey(data, FixedSimpleFields[i].1);
    SimpleValueOfField(data, FixedSimpleFields, i);
  }

  /** The loop over the fixed simple fields leaves `visible` as the call gives it. */
  lemma VisibleField(data: CallData)
    ensures SimpleValue(data, FixedSimpleFields, Key.Visible) == Get(data, Attr.Visible)
  {
    SimpleValueOfField(data, FixedSimpleFields, 1);
  }

  /** `visible: False` is sent, not dropped: only `None` is. */
  lemma VisibleFalseKept(data: CallData)
    requires FixedDataOk(data) && Get(data, Attr.Visible) == Some(Bool(false))
    ensures var body := FixedBody(data); Key.Visible in body && body[Key.Visible] == Bool(false)
  {
    FixedSimpleKey(data, Key.Visible);
    VisibleField(data);
  }

  /** The icon is sent exactly when the call gives a truthy one, unchanged. */
  lemma FixedIcon(data: CallData)
    requires FixedDataOk(data)
    ensures Holds(FixedBody(data), Key.Icon, WhenTruthy(Get(data, Attr.Icon)))
  {
    FixedExtraHolds(data, 0);
  }

  /** Each of the three plain colours is present exactly when the call gives a non-empty
      one, and then is its normalised colour, in normal form. */
  lemma FixedColorsNormalised(data: CallData)
    requires FixedDataOk(data)
    ensures ColorEntry(FixedBody(data), Key.MessageColor, Get(data, Attr.MessageColor))
    ensures ColorEntry(FixedBody(data), Key.IconColor, Get(data, Attr.IconColor))
    ensures ColorEntry(FixedBody(data), Key.BorderColor, Get(data, Attr.BorderColor))
  {
    FixedExtraHolds(data, 1);
    FixedExtraHolds(data, 2);
    FixedExtraHolds(data, 3);
    ColorValueNormal(Get(data, Attr.MessageColor));
    ColorValueNormal(Get(data, Attr.IconColor));
    ColorValueNormal(Get(data, Attr.BorderColor));
  }

  /** `backgroundColor` is present exactly when the background colour is non-empty,
      and then is `_hex_with_alpha(background_color, background_opacity)`, itself a
      colour in normal form. */
  lemma BackgroundColorRule(data: CallData)
    requires FixedDataOk(data)
    ensures var body, bg := FixedBody(data), Get(data, Attr.BackgroundColor);
            && (Key.BackgroundColor in body <==> Truthy(bg))
            && (Key.BackgroundColor in body ==>
                  body[Key.BackgroundColor] == Str(HexWithAlpha(Text(bg), Opacity(data)).value)
                  && NormalForm(body[Key.BackgroundColor].s))
  {
    FixedExtraHolds(data, 4);
    if Truthy(Get(data, Attr.BackgroundColor)) {
      HexWithAlphaIsNormal(Text(Get(data, Attr.BackgroundColor)), Opacity(data));
    }
  }

  /** The schema's `visible` default: `True` when the call leaves it out. */
  function WithVisibleDefault(data: CallData): (d: CallData)
    ensures Attr.Visible in d
    ensures Attr.Visible !in data ==> Get(d, Attr.Visible) == Some(Bool(true))
    ensures Attr.Visible in data ==> d == data
    ensures forall a :: a != Attr.Visible ==> Get(d, a) == Get(data, a)
  {
    if Attr.Visible in data then data else data[Attr.Visible := Some(Bool(true))]
  }

  /** After the schema has filled in its default, a call that left `visible` out sends
      `visible: true`. */
  lemma FixedBodyHasVisible(data: CallData)
    requires FixedDataOk(data)
    ensures FixedDataOk(WithVisibleDefault(data))
    ensures Attr.Visible !in data ==>
              var body := FixedBody(WithVisibleDefault(data));
              Key.Visible in body && body[Key.Visible] == Bool(true)
  {
    var d := WithVisibleDefault(data);
    assert FixedDataOk(d);
    FixedSimpleKey(d, Key.Visible);
    VisibleField(d);
  }
}
