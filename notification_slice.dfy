/**
 * The notifications store slice (src/store/notificationSlice.js): the state
 * record, its six reducers as methods that update it in place, and its
 * selectors.
 */
module NotificationSlice {
  import opened Wrappers
  import opened Records
  import Seqs

  const UNREAD := "Unread"
  const READ := "Read"

  /**
   * The reducer for `updateNotificationStatus` on values: the first notification
   * whose id matches gets the new status; with no match the list is unchanged.
   */
  function UpdateStatus(notifications: seq<Notification>, notificationId: int, status: string): seq<Notification> {
    match Seqs.FindIndex(notifications, (n: Notification) => n.id == notificationId)
    case None => notifications
    case Some(i) => notifications[i := notifications[i].(status := status)]
  }

  /** The update keeps the list's length, and every id and message. */
  lemma UpdateStatusKeepsShape(notifications: seq<Notification>, notificationId: int, status: string)
    ensures var r := UpdateStatus(notifications, notificationId, status);
      |r| == |notifications|
      && forall i :: 0 <= i < |r| ==> r[i].id == notifications[i].id && r[i].message == notifications[i].message
  {
  }

  /**
   * The first notification with the id now has the new status, and every other
   * position, including later ones with the same id, is untouched.
   */
  lemma UpdateStatusChangesFirstMatchOnly(notifications: seq<Notification>, notificationId: int, status: string, k: nat)
    requires k < |notifications| && notifications[k].id == notificationId
    requires forall j :: 0 <= j < k ==> notifications[j].id != notificationId
    ensures var r := UpdateStatus(notifications, notificationId, status);
      r[k] == notifications[k].(status := status)
      && forall j :: 0 <= j < |r| && j != k ==> r[j] == notifications[j]
  {
    var i := Seqs.FindIndex(notifications, (n: Notification) => n.id == notificationId);
    assert i.Some? && i.value == k;
  }

  /** An unknown id leaves the list as it was. */
  lemma UpdateStatusUnknownId(notifications: seq<Notification>, notificationId: int, status: string)
    requires forall j :: 0 <= j < |notifications| ==> notifications[j].id != notificationId
    ensures UpdateStatus(notifications, notificationId, status) == notifications
  {
  }

  /** `selectUnreadNotifications`: the notifications whose status is 'Unread', in order. */
  function Unread(notifications: seq<Notification>): (r: seq<Notification>)
    ensures forall i :: 0 <= i < |r| ==> r[i] in notifications && r[i].status == UNREAD
    ensures forall i :: 0 <= i < |notifications| && notifications[i].status == UNREAD ==> notifications[i] in r
    ensures Seqs.IsSubsequence(r, notifications)
  {
    Seqs.FilterIsSubsequence(notifications, (n: Notification) => n.status == UNREAD);
    Seqs.Filter(notifications, (n: Notification) => n.status == UNREAD)
  }

  /** `selectReadNotifications`: the notifications whose status is 'Read', in order. */
  function Read(notifications: seq<Notification>): (r: seq<Notification>)
    ensures forall i :: 0 <= i < |r| ==> r[i] in notifications && r[i].status == READ
    ensures forall i :: 0 <= i < |notifications| && notifications[i].status == READ ==> notifications[i] in r
    ensures Seqs.IsSubsequence(r, notifications)
  {
    Seqs.FilterIsSubsequence(notifications, (n: Notification) => n.status == READ);
    Seqs.Filter(notifications, (n: Notification) => n.status == READ)
  }

  /** `selectUnreadCount`. */
  function UnreadCount(notifications: seq<Notification>): (r: nat)
    ensures r <= |notifications|
  {
    |Unread(notifications)|
  }

  /** No notification is both read and unread, so the two lists never hold more than the store. */
  lemma ReadAndUnreadFitTheStore(notifications: seq<Notification>)
    ensures |Unread(notifications)| + |Read(notifications)| <= |notifications|
  {
    Seqs.DisjointFilterCounts(notifications, (n: Notification) => n.status == UNREAD, (n: Notification) => n.status == READ);
  }

  /** Prepending an unread notification raises the unread count by one; any other status leaves it. */
  lemma {:induction false} AddChangesUnreadCount(notifications: seq<Notification>, n: Notification)
    ensures UnreadCount([n] + notifications) == UnreadCount(notifications) + (if n.status == UNREAD then 1 else 0)
  {
    assert ([n] + notifications)[1..] == notifications;
  }

  /** The slice state: `{ notifications, loading, error }`; `error == None` is `null`. */
  class NotificationStore {
    var notifications: seq<Notification>
    var loading: bool
    var error: Option<string>

    /** `initialState`. */
    constructor ()
      ensures notifications == [] && !loading && error == None
    {
      notifications := [];
      loading := false;
      error := None;
    }

    method SetLoading(payload: bool)
      modifies this
      ensures loading == payload
      ensures notifications == old(notifications) && error == old(error)
    {
      loading := payload;
    }

    /** Replaces the list and clears the error; `loading` is left as it was. */
    method SetNotifications(payload: seq<Notification>)
      modifies this
      ensures notifications == payload && error == None
      ensures loading == old(loading)
    {
      notifications := payload;
      error := None;
    }

    /** `unshift`: the new notification goes first. */
    method AddNotification(payload: Notification)
      modifies this
      ensures notifications == [payload] + old(notifications)
      ensures loading == old(loading) && error == old(error)
    {
      notifications := [payload] + notifications;
    }

    method UpdateNotificationStatus(notificationId: int, status: string)
      modifies this
      ensures notifications == UpdateStatus(old(notifications), notificationId, status)
      ensures |notifications| == |old(notifications)|
      ensures loading == old(loading) && error == old(error)
    {
      var i := Seqs.FindIndex(notifications, (n: Notification) => n.id == notificationId);
      if i.Some? {
        notifications := notifications[i.value := notifications[i.value].(status := status)];
      }
    }

    /** Records the error and ends loading. */
    method SetError(payload: string)
      modifies this
      ensures error == Some(payload) && !loading
      ensures notifications == old(notifications)
    {
      error := Some(payload);
      loading := false;
    }

    method ClearError()
      modifies this
      ensures error == None
      ensures notifications == old(notifications) && loading == old(loading)
    {
      error := None;
    }
  }
}
