/** The first Flask notification service: an in-memory manager that hands
    out ids from a class-level counter, and the resource handlers that guard
    every lookup with a 404 answer. */
module NotificationService {
  import opened Wrappers
  import opened HttpStatusCodes
  import opened NotificationModels
  import opened Ids
  import Collections
  import Text

  class NotificationManager {
    /** The class-level `last_id`, shared with every other manager. */
    const counter: IdCounter
    /** The `notifications` dictionary, from id to record. */
    var notifications: map<int, NotificationModel>

    /** Every stored id was handed out by the counter, so it lies in
        1..last_id; in particular it is below every id handed out later. */
    ghost predicate Valid()
      reads this, counter
    {
      forall id :: id in notifications ==> 1 <= id <= counter.lastId
    }

    constructor (counter: IdCounter)
      ensures Valid()
      ensures this.counter == counter && notifications == map[]
    {
      this.counter := counter;
      notifications := map[];
    }

    /** `insert_notification`: bump the shared counter, stamp its value on
        the record and store the record under it. */
    method InsertNotification(notification: NotificationModel)
      requires Valid()
      modifies this, counter, notification`id
      ensures Valid()
      ensures counter.lastId == old(counter.lastId) + 1
      ensures notification.id == counter.lastId
      ensures notification.id !in old(notifications)
      ensures forall id :: id in old(notifications) ==> id < notification.id
      ensures notifications == old(notifications)[notification.id := notification]
    {
      counter.lastId := counter.lastId + 1;
      notification.id := counter.lastId;
      notifications := notifications[counter.lastId := notification];
    }

    /** `get_notification`: the record stored under `id`; a missing id
        raises `KeyError`. */
    method GetNotification(id: int) returns (r: Result<NotificationModel, KeyError>)
      ensures id in notifications ==> r == Success(notifications[id])
      ensures id !in notifications ==> r == Failure(KeyError(id))
    {
      if id in notifications {
        r := Success(notifications[id]);
      } else {
        r := Failure(KeyError(id));
      }
    }

    /** `delete_notification`: remove exactly the entry for `id`; a missing
        id raises `KeyError` and changes nothing. */
    method DeleteNotification(id: int) returns (outcome: Outcome<KeyError>)
      requires Valid()
      modifies this
      ensures Valid()
      ensures id in old(notifications) ==> outcome == Pass && notifications == old(notifications) - {id}
      ensures id !in old(notifications) ==> outcome == Fail(KeyError(id)) && notifications == old(notifications)
    {
      if id in notifications {
        notifications := notifications - {id};
        outcome := Pass;
      } else {
        outcome := Fail(KeyError(id));
      }
    }
  }

  /** How a handler answers: a status with a body, or `abort` with a status
      and a message. */
  datatype Reply<T> = Answer(status: HttpStatus, body: T) | Abort(status: HttpStatus, message: string)

  /** The message of `abort_if_notification_not_found`. */
  function NotFoundMessage(id: int): string
  {
    "Notification " + Text.IntToString(id) + " not found"
  }

  /** `Notification.get`: the stored record, or 404 for an unknown id. */
  method GetHandler(manager: NotificationManager, id: int) returns (reply: Reply<NotificationModel>)
    ensures id in manager.notifications ==> reply == Answer(Ok200, manager.notifications[id])
    ensures id !in manager.notifications ==> reply == Abort(NotFound404, NotFoundMessage(id))
  {
    if id !in manager.notifications {
      return Abort(NotFound404, NotFoundMessage(id));
    }
    var r := manager.GetNotification(id);
    reply := Answer(Ok200, r.value);
  }

  /** `Notification.delete`: 404 for an unknown id, which leaves the store
      alone; otherwise the entry is removed and the answer is 204 with an
      empty body. */
  method DeleteHandler(manager: NotificationManager, id: int) returns (reply: Reply<string>)
    requires manager.Valid()
    modifies manager
    ensures manager.Valid()
    ensures id in old(manager.notifications) ==>
      reply == Answer(NoContent204, "") && manager.notifications == old(manager.notifications) - {id}
    ensures id !in old(manager.notifications) ==>
      reply == Abort(NotFound404, NotFoundMessage(id)) && manager.notifications == old(manager.notifications)
  {
    if id !in manager.notifications {
      return Abort(NotFound404, NotFoundMessage(id));
    }
    var _ := manager.DeleteNotification(id);
    reply := Answer(NoContent204, "");
  }

  /** The arguments of a PATCH request after parsing; `None` where the
      argument is absent or parsed to `None`. */
  datatype PatchArgs = PatchArgs(
    message: Option<string>,
    ttl: Option<int>,
    displayedTimes: Option<int>,
    displayedOnce: Option<bool>)

  /** `Notification.patch`: 404 for an unknown id; otherwise each field
      whose argument is present is overwritten, every other field keeps its
      value, and the record is answered with 200. */
  method PatchHandler(manager: NotificationManager, id: int, args: PatchArgs) returns (reply: Reply<NotificationModel>)
    modifies if id in manager.notifications then {manager.notifications[id]} else {}
    ensures id !in manager.notifications ==> reply == Abort(NotFound404, NotFoundMessage(id))
    ensures id in manager.notifications ==>
      var n := manager.notifications[id];
      && reply == Answer(Ok200, n)
      && (args.message.Some? ==> n.message == args.message.value)
      && (args.message.None? ==> n.message == old(n.message))
      && (args.ttl.Some? ==> n.ttl == args.ttl.value)
      && (args.ttl.None? ==> n.ttl == old(n.ttl))
      && (args.displayedTimes.Some? ==> n.displayedTimes == args.displayedTimes.value)
      && (args.displayedTimes.None? ==> n.displayedTimes == old(n.displayedTimes))
      && (args.displayedOnce.Some? ==> n.displayedOnce == args.displayedOnce.value)
      && (args.displayedOnce.None? ==> n.displayedOnce == old(n.displayedOnce))
      && n.id == old(n.id)
  {
    if id !in manager.notifications {
      return Abort(NotFound404, NotFoundMessage(id));
    }
    var notification := manager.notifications[id];
    if args.message.Some? {
      notification.message := args.message.value;
    }
    if args.ttl.Some? {
      notification.ttl := args.ttl.value;
    }
    if args.displayedTimes.Some? {
      notification.displayedTimes := args.displayedTimes.value;
    }
    if args.displayedOnce.Some? {
      notification.displayedOnce := args.displayedOnce.value;
    }
    reply := Answer(Ok200, notification);
  }

  /** `NotificationList.get`: every stored record, exactly once each. A
      Python dictionary yields its values in insertion order, and ids are
      inserted in increasing order and never reused, so the records come
      out by increasing id. `ids` names the id of each record returned. */
  method ListHandler(manager: NotificationManager) returns (status: HttpStatus, values: seq<NotificationModel>, ghost ids: seq<int>)
    ensures status == Ok200
    ensures |values| == |ids| == |manager.notifications|
    ensures Collections.Increasing(ids)
    ensures forall id :: id in manager.notifications <==> id in ids
    ensures forall i :: 0 <= i < |ids| ==> ids[i] in manager.notifications && values[i] == manager.notifications[ids[i]]
  {
    var stored := manager.notifications;
    var remaining := stored.Keys;
    values, ids := [], [];
    while remaining != {}
      invariant remaining <= stored.Keys
      invariant forall id :: id in stored <==> id in remaining || id in ids
      invariant forall i, id :: 0 <= i < |ids| && id in remaining ==> ids[i] < id
      invariant Collections.Increasing(ids)
      invariant |values| == |ids| && |remaining| + |ids| == |stored|
      invariant forall i :: 0 <= i < |ids| ==> ids[i] in stored && values[i] == stored[ids[i]]
      decreases remaining
    {
      Collections.MinimumExists(remaining);
      var id :| id in remaining && forall j :: j in remaining ==> id <= j;
      values, ids := values + [stored[id]], ids + [id];
      remaining := remaining - {id};
    }
    status := Ok200;
  }

  /** `NotificationList.post`: a new record stamped with the clock reading
      `now`, inserted under a fresh id and answered with 201. Parsing the
      three required arguments (and the 400 for a missing one) is left to
      the request parser and is not modelled. */
  method PostHandler(manager: NotificationManager, message: string, ttl: int, notificationCategory: string, now: Timestamp)
    returns (reply: Reply<NotificationModel>)
    requires manager.Valid()
    modifies manager, manager.counter
    ensures manager.Valid()
    ensures reply.Answer? && reply.status == Created201 && fresh(reply.body)
    ensures reply.body.id == manager.counter.lastId == old(manager.counter.lastId) + 1
    ensures reply.body.message == message && reply.body.ttl == ttl
    ensures reply.body.creationDate == now && reply.body.notificationCategory == notificationCategory
    ensures reply.body.displayedTimes == 0 && !reply.body.displayedOnce
    ensures manager.notifications == old(manager.notifications)[reply.body.id := reply.body]
  {
    var notification := new NotificationModel(message, ttl, now, notificationCategory);
    manager.InsertNotification(notification);
    reply := Answer(Created201, notification);
  }

  /** A record inserted through a manager is what a lookup of its new id
      returns. */
  method InsertedNotificationIsFound(manager: NotificationManager, notification: NotificationModel)
    returns (lookup: Result<NotificationModel, KeyError>)
    requires manager.Valid()
    modifies manager, manager.counter, notification`id
    ensures notification.id == manager.counter.lastId
    ensures lookup == Success(notification)
  {
    manager.InsertNotification(notification);
    lookup := manager.GetNotification(notification.id);
  }

  /** Two managers share the class-level counter: after a record inserted
      through one of them is deleted, an insert through the other gets the
      next id, never the deleted one, and the deleted id stays unknown. */
  method NotificationIdsNeverReused(counter: IdCounter, first: NotificationModel, second: NotificationModel)
    returns (lookup: Result<NotificationModel, KeyError>)
    requires first != second
    modifies counter, first`id, second`id
    ensures second.id == first.id + 1 == counter.lastId
    ensures lookup == Failure(KeyError(first.id))
  {
    var one := new NotificationManager(counter);
    var other := new NotificationManager(counter);
    one.InsertNotification(first);
    var _ := one.DeleteNotification(first.id);
    other.InsertNotification(second);
    lookup := one.GetNotification(first.id);
  }
}
