/**
 * The ids of the fixed notifications a device currently shows, as the integration
 * remembers them (`notification_ids` of a config entry and `_add_notification_id`,
 * `_remove_notification_id` in `__init__.py`): an ordered list without repeats.
 */
module NotificationIds {

  /** No id occurs twice. */
  predicate NoDup(ids: seq<string>) {
    forall i, j :: 0 <= i < j < |ids| ==> ids[i] != ids[j]
  }

  /** The list after `_add_notification_id`: the id is appended unless it is already
      there. */
  function AddId(ids: seq<string>, id: string): (r: seq<string>)
    ensures id in r
    ensures forall x :: x in r <==> x in ids || x == id
  {
    if id in ids then ids else ids + [id]
  }

  /** The position of the first occurrence of `id`. */
  function FirstIndex(ids: seq<string>, id: string): (i: nat)
    requires id in ids
    ensures i < |ids| && ids[i] == id
    ensures forall j :: 0 <= j < i ==> ids[j] != id
  {
    if ids[0] == id then 0 else 1 + FirstIndex(ids[1..], id)
  }

  /** The list after `list.remove`: the first occurrence of the id is taken out and the
      other ids keep their order; the list is unchanged when the id is not there. */
  function RemoveFirst(ids: seq<string>, id: string): (r: seq<string>)
    ensures id in ids ==> |r| == |ids| - 1
  {
    if id in ids then
      var i := FirstIndex(ids, id);
      ids[..i] + ids[i + 1..]
    else ids
  }

  /** Removing takes exactly one occurrence of the id out of the list, if it has one,
      and nothing else. */
  lemma RemoveFirstCounts(ids: seq<string>, id: string)
    ensures multiset(RemoveFirst(ids, id)) == multiset(ids) - multiset{id}
  {
    if id in ids {
      var i := FirstIndex(ids, id);
      assert ids == ids[..i] + [id] + ids[i + 1..];
    }
  }

  /** Adding keeps the list free of repeats. */
  lemma AddKeepsNoDup(ids: seq<string>, id: string)
    requires NoDup(ids)
    ensures NoDup(AddId(ids, id))
  {
    if id !in ids {
      var r := ids + [id];
      forall i, j | 0 <= i < j < |r| ensures r[i] != r[j] {
        if j == |ids| {
          assert r[i] == ids[i];
        }
      }
    }
  }

  /** Taking one element out of a list without repeats leaves a list without
      repeats that no longer holds that element. */
  lemma RemoveAtKeepsNoDup(ids: seq<string>, i: nat)
    requires NoDup(ids) && i < |ids|
    ensures NoDup(ids[..i] + ids[i + 1..]) && ids[i] !in ids[..i] + ids[i + 1..]
  {
    var r := ids[..i] + ids[i + 1..];
    assert forall k :: 0 <= k < |r| ==> r[k] == ids[if k < i then k else k + 1];
  }

  /** Removing keeps the list free of repeats, and afterwards the id is gone. */
  lemma RemoveKeepsNoDup(ids: seq<string>, id: string)
    requires NoDup(ids)
    ensures NoDup(RemoveFirst(ids, id))
    ensures id !in RemoveFirst(ids, id)
  {
    if id in ids {
      RemoveAtKeepsNoDup(ids, FirstIndex(ids, id));
    }
  }

  /** Every id of the list but `id`, in their order. */
  function Without(ids: seq<string>, id: string): (r: seq<string>)
    ensures id !in r
  {
    if |ids| == 0 then []
    else (if ids[0] == id then [] else [ids[0]]) + Without(ids[1..], id)
  }

  lemma {:induction false} WithoutAbsent(ids: seq<string>, id: string)
    requires id !in ids
    ensures Without(ids, id) == ids
  {
    if |ids| > 0 {
      WithoutAbsent(ids[1..], id);
    }
  }

  /** In a list without repeats, removing an id keeps every other id, in their order. */
  lemma {:induction false} RemoveKeepsOrder(ids: seq<string>, id: string)
    requires NoDup(ids)
    ensures RemoveFirst(ids, id) == Without(ids, id)
  {
    if id !in ids {
      WithoutAbsent(ids, id);
    } else if ids[0] == id {
      assert id !in ids[1..];
      WithoutAbsent(ids[1..], id);
    } else {
      assert NoDup(ids[1..]);
      RemoveKeepsOrder(ids[1..], id);
      RemoveBehindHead(ids, id);
    }
  }

  /** Removing an id found behind the head keeps the head in front. */
  lemma RemoveBehindHead(ids: seq<string>, id: string)
    requires |ids| > 0 && ids[0] != id && id in ids
    ensures RemoveFirst(ids, id) == [ids[0]] + RemoveFirst(ids[1..], id)
  {
    var tail := ids[1..];
    var i := FirstIndex(tail, id);
    assert FirstIndex(ids, id) == i + 1;
    assert ids == [ids[0]] + tail;
    DropBehindHead(ids[0], tail, i);
  }

  lemma DropBehindHead(h: string, tail: seq<string>, i: nat)
    requires i < |tail|
    ensures var s := [h] + tail; s[..i + 1] + s[i + 2..] == [h] + (tail[..i] + tail[i + 1..])
  {
    var s := [h] + tail;
    assert s[..i + 1] == [h] + tail[..i];
    assert s[i + 2..] == tail[i + 1..];
  }

  /** Adding an id twice is the same as adding it once. */
  lemma AddIdempotent(ids: seq<string>, id: string)
    ensures AddId(AddId(ids, id), id) == AddId(ids, id)
  {
  }

  /** Removing an id that was just added gives back the list it was added to. */
  lemma AddThenRemove(ids: seq<string>, id: string)
    requires id !in ids
    ensures RemoveFirst(AddId(ids, id), id) == ids
  {
    var added := ids + [id];
    assert added[|ids|] == id;
    assert forall j :: 0 <= j < |ids| ==> added[j] == ids[j];
    assert FirstIndex(added, id) == |ids|;
    assert added[..|ids|] == ids;
  }

  /** One config entry's list of shown fixed-notification ids. */
  class Registry {
    var ids: seq<string>

    /** The list loaded from storage (empty when nothing was stored). */
    constructor(loaded: seq<string>)
      ensures ids == loaded
    {
      ids := loaded;
    }

    /** `_add_notification_id` */
    method Add(id: string)
      modifies this
      ensures ids == AddId(old(ids), id)
    {
      if id !in ids {
        ids := ids + [id];
      }
    }

    /** `_remove_notification_id` */
    method Remove(id: string)
      modifies this
      ensures ids == RemoveFirst(old(ids), id)
    {
      if id in ids {
        var i := FirstIndex(ids, id);
        ids := ids[..i] + ids[i + 1..];
      }
    }
  }
}
