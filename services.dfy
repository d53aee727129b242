/**
 * The `notify`, `notify_fixed` and `clear_fixed` services of `__init__.py`: find the
 * device a call addresses, send it the request body, and keep the entry's list of
 * shown fixed-notification ids in step with what the device accepted.
 */
module Services {
  import opened Wrappers
  import opened HostPort
  import opened Payload
  import opened Api
  import opened NotificationIds

  /** What a config entry records about its device. */
  datatype EntryInfo = EntryInfo(name: string, host: string, port: int)

  /** What `_get_client` looks an entry up by: a name or a host (the call's device id
      used as text), or a host and a port. */
  datatype Query = NameOrHost(s: string) | AtAddress(address: Address)

  predicate Matches(e: EntryInfo, q: Query) {
    match q
    case NameOrHost(s) => e.name == s || e.host == s
    case AtAddress(a) => e.host == a.host && e.port == a.port
  }

  /** `k` is the position of the first entry matching `q`, or `None` when no entry
      does. */
  predicate IsFirstMatch(entries: seq<EntryInfo>, q: Query, k: Option<nat>) {
    match k
    case Some(i) => i < |entries| && Matches(entries[i], q) && forall j :: 0 <= j < i ==> !Matches(entries[j], q)
    case None => forall j :: 0 <= j < |entries| ==> !Matches(entries[j], q)
  }

  /** The entry a scan of the configured entries, in order, stops at. */
  function FirstMatch(entries: seq<EntryInfo>, q: Query): (k: Option<nat>)
    ensures IsFirstMatch(entries, q, k)
  {
    if |entries| == 0 then None
    else if Matches(entries[0], q) then Some(0)
    else
      match FirstMatch(entries[1..], q)
      case None => None
      case Some(i) => Some(i + 1)
  }

  /** There is only one first match. */
  lemma FirstMatchUnique(entries: seq<EntryInfo>, q: Query, k: Option<nat>)
    requires IsFirstMatch(entries, q, k)
    ensures k == FirstMatch(entries, q)
  {
  }

  /** The loops of `_get_client_from_name_or_host` and of the host:port match in
      `_get_client`: the first configured entry that matches. */
  method FindEntry(entries: seq<EntryInfo>, q: Query) returns (k: Option<nat>)
    ensures IsFirstMatch(entries, q, k)
  {
    var i := 0;
    while i < |entries|
      invariant i <= |entries|
      invariant forall j :: 0 <= j < i ==> !Matches(entries[j], q)
    {
      if Matches(entries[i], q) {
        return Some(i);
      }
      i := i + 1;
    }
    return None;
  }

  /** The client a service call is sent through: the own client of a configured entry,
      or a new one for a host and port no entry has. */
  datatype Client = Configured(entry: nat) | Unconfigured(address: Address)

  /** What the service schemas guarantee of the device fields: text when present. The
      device registry, outside the model, names the entry a device id belongs to, if
      any; that entry exists. */
  predicate TargetOk(entries: seq<EntryInfo>, call: CallData, deviceEntry: Option<nat>) {
    && TextOrNone(Get(call, Attr.DeviceId))
    && TextOrNone(Get(call, Attr.Host))
    && (deviceEntry.Some? ==> deviceEntry.value < |entries|)
  }

  /** `_get_client`: a truthy device id is tried first, as a device registry id and
      then as an entry's name or host; then a truthy `host` (`host` or `host:port`) is
      matched against the entries' host and port, and without a match addresses an
      unconfigured device. */
  function ResolveClient(entries: seq<EntryInfo>, call: CallData, deviceEntry: Option<nat>, defaultPort: int)
    : Option<Client>
    requires TargetOk(entries, call, deviceEntry)
  {
    var deviceId, host := Get(call, Attr.DeviceId), Get(call, Attr.Host);
    var named := if Truthy(deviceId) then FirstMatch(entries, NameOrHost(deviceId.value.s)) else None;
    if Truthy(deviceId) && deviceEntry.Some? then Some(Configured(deviceEntry.value))
    else if named.Some? then Some(Configured(named.value))
    else if Truthy(host) then
      var address := ParseHostPort(host.value.s, defaultPort);
      match FirstMatch(entries, AtAddress(address))
      case Some(k) => Some(Configured(k))
      case None => Some(Unconfigured(address))
    else None
  }

  /** `_get_client` */
  method GetClient(entries: seq<EntryInfo>, call: CallData, deviceEntry: Option<nat>, defaultPort: int)
    returns (client: Option<Client>)
    requires TargetOk(entries, call, deviceEntry)
    ensures client == ResolveClient(entries, call, deviceEntry, defaultPort)
  {
    var deviceId, host := Get(call, Attr.DeviceId), Get(call, Attr.Host);
    if Truthy(deviceId) {
      if deviceEntry.Some? {
        return Some(Configured(deviceEntry.value));
      }
      var named := FindEntry(entries, NameOrHost(deviceId.value.s));
      FirstMatchUnique(entries, NameOrHost(deviceId.value.s), named);
      if named.Some? {
        return Some(Configured(named.value));
      }
    }
    if Truthy(host) {
      var address := ParseHostPort(host.value.s, defaultPort);
      var k := FindEntry(entries, AtAddress(address));
      FirstMatchUnique(entries, AtAddress(address), k);
      if k.Some? {
        return Some(Configured(k.value));
      }
      return Some(Unconfigured(address));
    }
    return None;
  }

  /** A resolved configured client belongs to an existing entry, the one the device
      registry names if there is one, and otherwise the first entry matching the
      device id or the host and port. */
  lemma ResolvedEntry(entries: seq<EntryInfo>, call: CallData, deviceEntry: Option<nat>, defaultPort: int)
    requires TargetOk(entries, call, deviceEntry)
    ensures var c := ResolveClient(entries, call, deviceEntry, defaultPort);
            c.Some? && c.value.Configured? ==> c.value.entry < |entries|
    ensures var c := ResolveClient(entries, call, deviceEntry, defaultPort);
            Truthy(Get(call, Attr.DeviceId)) && deviceEntry.Some? ==> c == Some(Configured(deviceEntry.value))
  {
  }

  /** No device is addressed exactly when there is no usable host and the device id is
      missing or neither known to the device registry nor an entry's name or host. */
  lemma NoClientWhen(entries: seq<EntryInfo>, call: CallData, deviceEntry: Option<nat>, defaultPort: int)
    requires TargetOk(entries, call, deviceEntry)
    ensures var deviceId := Get(call, Attr.DeviceId);
            ResolveClient(entries, call, deviceEntry, defaultPort).None?
            <==> !Truthy(Get(call, Attr.Host))
                 && (!Truthy(deviceId)
                     || (deviceEntry.None?
                         && forall j :: 0 <= j < |entries| ==> !Matches(entries[j], NameOrHost(deviceId.value.s))))
  {
    var deviceId := Get(call, Attr.DeviceId);
    if Truthy(deviceId) {
      var q := NameOrHost(deviceId.value.s);
      assert FirstMatch(entries, q).None? <==> forall j :: 0 <= j < |entries| ==> !Matches(entries[j], q);
    }
  }

  /** A new client is made only for a host and port that no entry has. */
  lemma UnconfiguredOnlyUnknown(entries: seq<EntryInfo>, call: CallData, deviceEntry: Option<nat>, defaultPort: int)
    requires TargetOk(entries, call, deviceEntry)
    requires ResolveClient(entries, call, deviceEntry, defaultPort).Some?
    requires ResolveClient(entries, call, deviceEntry, defaultPort).value.Unconfigured?
    ensures var a := ResolveClient(entries, call, deviceEntry, defaultPort).value.address;
            && Truthy(Get(call, Attr.Host))
            && a == ParseHostPort(Get(call, Attr.Host).value.s, defaultPort)
            && forall j :: 0 <= j < |entries| ==> !(entries[j].host == a.host && entries[j].port == a.port)
  {
  }

  /** `_get_entry_data_from_client`: a configured entry's client leads back to that
      entry; a client made for an unconfigured device belongs to none. */
  function EntryOf(entries: seq<EntryInfo>, client: Client): (k: Option<nat>)
    ensures k.Some? <==> client.Configured? && client.entry < |entries|
    ensures k.Some? ==> k.value == client.entry
  {
    if client.Configured? && client.entry < |entries| then Some(client.entry) else None
  }

  /** The id list after `notify_fixed` sent a body whose `id` is `sentId`: the id is
      added only when the device accepted the notification and the id is non-empty. */
  function AfterNotifyFixed(ids: seq<string>, success: bool, sentId: Option<Value>): seq<string>
    requires TextOrNone(sentId)
  {
    if success && Truthy(sentId) then AddId(ids, sentId.value.s) else ids
  }

  /** The list changes exactly when the call succeeded with a non-empty id that was
      not yet listed, and then gains that id at the end; it stays free of repeats. */
  lemma NotifyFixedGating(ids: seq<string>, success: bool, sentId: Option<Value>)
    requires TextOrNone(sentId)
    ensures var r := AfterNotifyFixed(ids, success, sentId);
            && (r != ids <==> success && Truthy(sentId) && sentId.value.s !in ids)
            && (r != ids ==> r == ids + [sentId.value.s])
            && (NoDup(ids) ==> NoDup(r))
  {
    if success && Truthy(sentId) {
      if NoDup(ids) {
        AddKeepsNoDup(ids, sentId.value.s);
      }
      if sentId.value.s !in ids {
        assert |AddId(ids, sentId.value.s)| == |ids| + 1;
      }
    }
  }

  /** The id list after `clear_fixed` for `id`: the id is removed only when the device
      accepted the call. */
  function AfterClearFixed(ids: seq<string>, success: bool, id: string): seq<string> {
    if success then RemoveFirst(ids, id) else ids
  }

  /** The list changes exactly when the call succeeded and the id was listed; it
      stays free of repeats and then no longer holds the id. */
  lemma ClearFixedGating(ids: seq<string>, success: bool, id: string)
    ensures var r := AfterClearFixed(ids, success, id);
            && (r != ids <==> success && id in ids)
            && (NoDup(ids) ==> NoDup(r) && (success ==> id !in r))
  {
    if success {
      if id in ids {
        assert |RemoveFirst(ids, id)| != |ids|;
      }
      if NoDup(ids) {
        RemoveKeepsNoDup(ids, id);
      }
    }
  }

  /** The `id` a fixed-notification body carries, as `data.get("id")` reads it. */
  function SentId(body: Body): (v: Option<Value>)
    ensures v.Some? <==> Key.Id in body
    ensures v.Some? ==> v.value == body[Key.Id]
  {
    if Key.Id in body then Some(body[Key.Id]) else None
  }

  /** The body's `id` is the call's `id`, and so is text when present. */
  lemma SentIdIsCallId(call: CallData)
    requires FixedDataOk(call)
    ensures SentId(FixedBody(call)) == Get(call, Attr.Id)
  {
    FixedSimpleField(call, 0);
  }

  /** The integration's services over its configured entries. `registries[k]` is the
      `notification_ids` list of entry `k`; every entry has its own. */
  class Integration {
    const entries: seq<EntryInfo>
    const registries: seq<Registry>
    const defaultPort: int

    predicate Valid()
      reads this
    {
      && |registries| == |entries|
      && forall i, j :: 0 <= i < j < |registries| ==> registries[i] != registries[j]
    }

    constructor(entries: seq<EntryInfo>, registries: seq<Registry>, defaultPort: int)
      requires |registries| == |entries|
      requires forall i, j :: 0 <= i < j < |registries| ==> registries[i] != registries[j]
      ensures this.entries == entries && this.registries == registries && this.defaultPort == defaultPort
      ensures Valid()
    {
      this.entries := entries;
      this.registries := registries;
      this.defaultPort := defaultPort;
    }

    /** `async_notify`: the notification body, sent through the addressed client;
        nothing is sent when no device is addressed. */
    method Notify(call: CallData, deviceEntry: Option<nat>) returns (sent: Option<(Client, Request)>)
      requires TargetOk(entries, call, deviceEntry) && NotifyDataOk(call)
      ensures var c := ResolveClient(entries, call, deviceEntry, defaultPort);
              sent == if c.None? then None else Some((c.value, SendNotification(NotificationBody(call))))
    {
      var client := GetClient(entries, call, deviceEntry, defaultPort);
      if client.None? {
        return None;
      }
      var data := BuildNotificationData(call);
      return Some((client.value, SendNotification(data)));
    }

    /** `async_notify_fixed`: the fixed-notification body, sent through the addressed
        client; the addressed entry's list gains the body's id only when the device
        accepted it, and no other list changes. */
    method NotifyFixed(call: CallData, deviceEntry: Option<nat>, success: bool)
      returns (sent: Option<(Client, Request)>)
      requires Valid() && TargetOk(entries, call, deviceEntry) && FixedDataOk(call)
      requires TextOrNone(Get(call, Attr.Id))
      modifies registries
      ensures var c := ResolveClient(entries, call, deviceEntry, defaultPort);
              sent == if c.None? then None else Some((c.value, SendFixedNotification(FixedBody(call))))
      ensures forall i :: 0 <= i < |registries| ==>
                registries[i].ids
                == if sent.Some? && sent.value.0 == Configured(i)
                   then AfterNotifyFixed(old(registries[i].ids), success, Get(call, Attr.Id))
                   else old(registries[i].ids)
    {
      var client := GetClient(entries, call, deviceEntry, defaultPort);
      if client.None? {
        return None;
      }
      var data := BuildFixedNotificationData(call);
      sent := Some((client.value, SendFixedNotification(data)));
      var id := SentId(data);
      SentIdIsCallId(call);
      if success && Truthy(id) {
        var entry := EntryOf(entries, client.value);
        if entry.Some? {
          registries[entry.value].Add(id.value.s);
        }
      }
    }

    /** `async_clear_fixed`: the clear request for the call's id, sent through the
        addressed client; the addressed entry's list loses the id only when the device
        accepted it, and no other list changes. */
    method ClearFixed(call: CallData, deviceEntry: Option<nat>, success: bool)
      returns (sent: Option<(Client, Request)>)
      requires Valid() && TargetOk(entries, call, deviceEntry)
      requires Attr.Id in call && call[Attr.Id].Some? && call[Attr.Id].value.Str?
      modifies registries
      ensures var c := ResolveClient(entries, call, deviceEntry, defaultPort);
              sent == if c.None? then None else Some((c.value, ClearFixedRequest(call[Attr.Id].value.s)))
      ensures forall i :: 0 <= i < |registries| ==>
                registries[i].ids
                == if sent.Some? && sent.value.0 == Configured(i)
                   then AfterClearFixed(old(registries[i].ids), success, call[Attr.Id].value.s)
                   else old(registries[i].ids)
    {
      var client := GetClient(entries, call, deviceEntry, defaultPort);
      if client.None? {
        return None;
      }
      var id := call[Attr.Id].value.s;
      sent := Some((client.value, ClearFixedRequest(id)));
      if success {
        var entry := EntryOf(entries, client.value);
        if entry.Some? {
          registries[entry.value].Remove(id);
        }
      }
    }
  }
}
