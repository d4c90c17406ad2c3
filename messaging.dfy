/** `fcm/MyFirebaseMessagingService.kt`: which title and body an incoming push message
    shows, the notification id counter, and the registration of a new FCM token. The
    channel, intent flags and sound are platform plumbing and are not modelled. */
module Messaging {
  import opened Wrappers

  /** Kotlin's `Int`: the notification id wraps around past its largest value. */
  newtype int32 = x: int | -0x8000_0000 <= x < 0x8000_0000

  /** The notification part of a message; either field may be null. */
  datatype NotificationPart = NotificationPart(title: Option<string>, body: Option<string>)

  /** A `RemoteMessage`: an optional notification part and the data map. */
  datatype RemoteMessage = RemoteMessage(notification: Option<NotificationPart>, data: map<string, string>)

  /** A notification handed to the platform. */
  datatype Notification = Notification(id: int32, title: string, body: string)

  const DefaultTitle := "Airsense"
  const DefaultBody := ""

  function Lookup(data: map<string, string>, key: string): Option<string> {
    if key in data then Some(data[key]) else None
  }

  /** The title and body `onMessageReceived` sends, or None when it sends nothing. The
      notification part wins over the data map; data is read under the keys "title" and
      "body"; a missing title becomes "Airsense" and a missing body "". */
  function Content(m: RemoteMessage): (r: Option<(string, string)>)
    ensures r.None? <==> m.notification.None? && |m.data| == 0
    ensures m.notification.Some? ==>
      r == Some((m.notification.value.title.GetOr(DefaultTitle), m.notification.value.body.GetOr(DefaultBody)))
    ensures m.notification.None? && |m.data| > 0 ==>
      r == Some((Lookup(m.data, "title").GetOr(DefaultTitle), Lookup(m.data, "body").GetOr(DefaultBody)))
  {
    match m.notification
    case Some(n) => Some((n.title.GetOr(DefaultTitle), n.body.GetOr(DefaultBody)))
    case None =>
      if |m.data| > 0 then
        Some((Lookup(m.data, "title").GetOr(DefaultTitle), Lookup(m.data, "body").GetOr(DefaultBody)))
      else None
  }

  /** A message with a notification part ignores its data map entirely. */
  lemma NotificationWins(n: NotificationPart, d1: map<string, string>, d2: map<string, string>)
    ensures Content(RemoteMessage(Some(n), d1)) == Content(RemoteMessage(Some(n), d2))
  {
  }

  /** The title shown is "Airsense" exactly when the chosen source has no title or its
      title is literally "Airsense". */
  lemma TitleDefaulting(m: RemoteMessage)
    requires Content(m).Some?
    ensures Content(m).value.0 == DefaultTitle <==>
      (if m.notification.Some? then m.notification.value.title else Lookup(m.data, "title")) in {None, Some(DefaultTitle)}
  {
  }

  /** `notificationId++` as Kotlin evaluates it on an `Int`. */
  function Successor(id: int32): (r: int32)
    ensures id < 0x7fff_ffff ==> r as int == id as int + 1
    ensures id == 0x7fff_ffff ==> r == -0x8000_0000
  {
    if id == 0x7fff_ffff then -0x8000_0000 else id + 1
  }

  /** The ids of `k` consecutive sends that start from `id`. */
  function IdsFrom(id: int32, k: nat): seq<int32>
    decreases k
  {
    if k == 0 then [] else [id] + IdsFrom(Successor(id), k - 1)
  }

  /** As long as the counter does not pass its largest value, the sends from `id` use
      `id`, `id + 1`, … in turn. */
  lemma {:induction false} IdsCount(id: int32, k: nat)
    requires id as int + k <= 0x8000_0000
    ensures |IdsFrom(id, k)| == k
    ensures forall i :: 0 <= i < k ==> IdsFrom(id, k)[i] as int == id as int + i
    decreases k
  {
    if k > 0 {
      if k > 1 {
        IdsCount(Successor(id), k - 1);
      } else {
        assert IdsFrom(Successor(id), 0) == [];
      }
    }
  }

  /** From the initial 0, the first 2^31 notifications get the strictly increasing,
      pairwise distinct ids 0, 1, 2, …; the next send wraps round to -2^31. */
  lemma FirstIdsIncrease(k: nat)
    requires k <= 0x8000_0000
    ensures |IdsFrom(0, k)| == k
    ensures forall i, j :: 0 <= i < j < k ==> IdsFrom(0, k)[i] < IdsFrom(0, k)[j]
    ensures forall i :: 0 <= i < k ==> IdsFrom(0, k)[i] as int == i
  {
    IdsCount(0, k);
  }

  /** A `POST /auth` request: the push token to register. */
  datatype RegisterRequest = RegisterRequest(pushToken: string)

  class MessagingService {
    var notificationId: int32

    constructor ()
      ensures notificationId == 0
    {
      notificationId := 0;
    }

    /** `sendNotification`: the current id is used, then incremented. */
    method SendNotification(title: string, body: string) returns (n: Notification)
      modifies this
      ensures n == Notification(old(notificationId), title, body)
      ensures notificationId == Successor(old(notificationId))
    {
      n := Notification(notificationId, title, body);
      notificationId := Successor(notificationId);
    }

    /** `onMessageReceived`: send what `Content` selects, or nothing. */
    method OnMessageReceived(m: RemoteMessage) returns (sent: Option<Notification>)
      modifies this
      ensures Content(m).None? ==> sent.None? && notificationId == old(notificationId)
      ensures Content(m).Some? ==>
        sent == Some(Notification(old(notificationId), Content(m).value.0, Content(m).value.1))
        && notificationId == Successor(old(notificationId))
    {
      var notification := m.notification;
      if notification.Some? {
        var title := notification.value.title.GetOr(DefaultTitle);
        var body := notification.value.body.GetOr(DefaultBody);
        var n := SendNotification(title, body);
        sent := Some(n);
      } else if |m.data| > 0 {
        var title := Lookup(m.data, "title").GetOr(DefaultTitle);
        var body := Lookup(m.data, "body").GetOr(DefaultBody);
        var n := SendNotification(title, body);
        sent := Some(n);
      } else {
        sent := None;
      }
    }

    /** `onNewToken`: the new token itself is registered with the backend. */
    method OnNewToken(token: string) returns (request: RegisterRequest)
      ensures request.pushToken == token
    {
      request := RegisterRequest(token);
    }
  }
}
