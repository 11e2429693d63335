/** The notification endpoints of apps/notification/api/version0/views.py:
    the list of the requester's notifications, and the single-notification
    retrieval that marks the notification read as a side effect. The
    Notification table is a class whose `rows` field the handlers reassign. */
module NotificationViews {

  import opened Common

  /** Django's ContentType row for a model: its app label and model name. */
  datatype ContentType = ContentType(appLabel: string, model: string)

  datatype Notification = Notification(
    id: nat,
    user: UserId,
    contentType: ContentType,
    objectId: nat,
    title: string,
    message: string,
    read: bool)

  /** The primary key is unique in the table. */
  predicate UniqueIds(rows: seq<Notification>) {
    forall i, j :: 0 <= i < j < |rows| ==> rows[i].id != rows[j].id
  }

  /** The position of the row with primary key `id`, if there is one. */
  function IndexOf(rows: seq<Notification>, id: nat): (r: Option<nat>)
    ensures r.Some? ==> r.value < |rows| && rows[r.value].id == id
    ensures r.None? <==> forall i :: 0 <= i < |rows| ==> rows[i].id != id
  {
    if rows == [] then None
    else if rows[0].id == id then Some(0)
    else match IndexOf(rows[1..], id)
      case Some(k) => Some(k + 1)
      case None => None
  }

  /** The table after the notification with primary key `id` has been read:
      its `read` field is true, no `read` field has gone back to false, and no
      other field of any row, nor any other row, has changed. */
  function MarkRead(rows: seq<Notification>, id: nat): (r: seq<Notification>)
    ensures |r| == |rows|
    ensures forall i :: 0 <= i < |rows| ==> r[i].read == (rows[i].read || rows[i].id == id)
    ensures forall i :: 0 <= i < |rows| ==> r[i].(read := rows[i].read) == rows[i]
  {
    if rows == [] then []
    else
      var head := if rows[0].id == id then rows[0].(read := true) else rows[0];
      [head] + MarkRead(rows[1..], id)
  }

  /** Reading a notification that is already read changes nothing. */
  lemma MarkReadWhenRead(rows: seq<Notification>, id: nat)
    requires forall i :: 0 <= i < |rows| && rows[i].id == id ==> rows[i].read
    ensures MarkRead(rows, id) == rows
  {
  }

  /** Retrieval is idempotent: a second read of the same notification leaves
      the table as the first one left it. */
  lemma MarkReadIdempotent(rows: seq<Notification>, id: nat)
    ensures MarkRead(MarkRead(rows, id), id) == MarkRead(rows, id)
  {
  }

  /** With unique keys, marking by key is an in-place update of one row. */
  lemma MarkReadAt(rows: seq<Notification>, id: nat, k: nat)
    requires UniqueIds(rows)
    requires k < |rows| && rows[k].id == id
    ensures MarkRead(rows, id) == rows[k := rows[k].(read := true)]
  {
  }

  /** `NotificationListAPIView.get_queryset`: the notifications addressed to
      the requester. */
  function NotificationsFor(rows: seq<Notification>, u: UserId): (r: seq<Notification>)
    ensures forall i :: 0 <= i < |r| ==> r[i].user == u
    ensures forall x :: x in r <==> x in rows && x.user == u
  {
    var keep := (x: Notification) => x.user == u;
    assert forall x :: x in Filter(rows, keep) <==> x in rows && x.user == u by {
      forall x { FilterMembers(rows, keep, x); }
    }
    Filter(rows, keep)
  }

  /** A new notification reaches the list of its addressee, at the end, and
      no other user's list. */
  lemma NotificationsForAppend(rows: seq<Notification>, n: Notification, u: UserId)
    ensures NotificationsFor(rows + [n], u)
         == NotificationsFor(rows, u) + (if n.user == u then [n] else [])
  {
    FilterAppend(rows, [n], (x: Notification) => x.user == u);
  }

  class NotificationTable {
    var rows: seq<Notification>
    /** The primary key the next inserted row receives. */
    var nextId: nat

    ghost predicate Valid()
      reads this
    {
      && UniqueIds(rows)
      && forall i :: 0 <= i < |rows| ==> rows[i].id < nextId
    }

    constructor ()
      ensures Valid() && rows == [] && nextId == 0
    {
      rows := [];
      nextId := 0;
    }

    /** `Notification.objects.create(...)`: insert one unread row with a fresh
        primary key. */
    method Create(user: UserId, contentType: ContentType, objectId: nat, title: string, message: string)
      returns (n: Notification)
      requires Valid()
      modifies this
      ensures Valid()
      ensures n == Notification(old(nextId), user, contentType, objectId, title, message, false)
      ensures rows == old(rows) + [n]
      ensures nextId == old(nextId) + 1
    {
      n := Notification(nextId, user, contentType, objectId, title, message, false);
      rows := rows + [n];
      nextId := nextId + 1;
    }

    /** NotificationRetrieveAPIView.get_object: any authenticated caller may
        retrieve any notification by key (there is no ownership check); an
        unread notification is marked read and saved before it is returned. */
    method Retrieve(caller: Caller, id: nat) returns (out: Outcome<Notification>)
      requires Valid()
      modifies this
      ensures Valid() && nextId == old(nextId)
      ensures caller.Anonymous? ==> out == Fail(NotAuthenticated) && rows == old(rows)
      ensures caller.Authenticated? && IndexOf(old(rows), id).None? ==>
                out == Fail(NotFound) && rows == old(rows)
      ensures caller.Authenticated? && IndexOf(old(rows), id).Some? ==>
                && rows == MarkRead(old(rows), id)
                && out.Ok? && out.status == HTTP_200_OK
                && out.value == old(rows)[IndexOf(old(rows), id).value].(read := true)
                && out.value in rows
      ensures (caller.Authenticated? && IndexOf(old(rows), id).Some? &&
               old(rows)[IndexOf(old(rows), id).value].read) ==> rows == old(rows)
    {
      if caller.Anonymous? {
        return Fail(NotAuthenticated);
      }
      var found := IndexOf(rows, id);
      if found.None? {
        return Fail(NotFound);
      }
      var k := found.value;
      MarkReadAt(rows, id, k);
      var obj := rows[k];
      if !obj.read {
        obj := obj.(read := true);
        rows := rows[k := obj];
      }
      return Ok(HTTP_200_OK, obj);
    }
  }
}
