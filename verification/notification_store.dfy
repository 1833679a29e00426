/** The notification store: one global list, newest first, capped at twenty
    entries, with a "mark all read" operation. Not scoped by tenant. */
module NotificationStore {
  import opened Common
  import opened Records
  import opened Storage

  const StorageKey: string := "energyflow_notifications"
  const MaxNotifications: nat := 20

  /** `getNotifications`: absent, corrupt or non-array reads as `[]`. */
  function ReadNotifications(nm: map<string, Slot<NotificationItem>>): seq<NotificationItem>
  {
    ReadList(nm, StorageKey)
  }

  function Notifications(ls: LocalStorage): seq<NotificationItem>
    reads ls
  {
    ReadNotifications(ls.notifications)
  }

  /** `saveNotifications` */
  method SaveNotifications(ls: LocalStorage, items: seq<NotificationItem>)
    modifies ls`notifications
    ensures ls.notifications == old(ls.notifications)[StorageKey := Items(items)]
    ensures Notifications(ls) == items
  {
    ls.notifications := ls.notifications[StorageKey := Items(items)];
  }

  function DigitChar(d: nat): (c: char)
    requires d < 10
    ensures '0' <= c <= '9'
  {
    "0123456789"[d]
  }

  /** The decimal rendering of a non-negative integer, as in a template string. */
  function DecimalString(n: nat): (s: string)
    ensures |s| > 0
    ensures forall i :: 0 <= i < |s| ==> '0' <= s[i] <= '9'
    ensures n >= 10 <==> |s| >= 2
  {
    if n < 10 then [DigitChar(n)] else DecimalString(n / 10) + [DigitChar(n % 10)]
  }

  lemma DigitCharInjective(a: nat, b: nat)
    requires a < 10 && b < 10 && DigitChar(a) == DigitChar(b)
    ensures a == b
  {
  }

  /** Different clock readings render differently. */
  lemma {:induction false} DecimalStringInjective(n: nat, m: nat)
    requires DecimalString(n) == DecimalString(m)
    ensures n == m
    decreases n
  {
    var s := DecimalString(n);
    if n < 10 {
      DigitCharInjective(n, m);
    } else {
      var p, q := DecimalString(n / 10), DecimalString(m / 10);
      assert s == p + [DigitChar(n % 10)];
      assert s == q + [DigitChar(m % 10)];
      assert p == s[..|s| - 1] == q;
      DigitCharInjective(n % 10, m % 10);
      DecimalStringInjective(n / 10, m / 10);
    }
  }

  /** `notif-${Date.now()}` */
  function NotificationId(now: nat): string
  {
    "notif-" + DecimalString(now)
  }

  /** Notifications created at different milliseconds get different ids. */
  lemma NotificationIdInjective(now1: nat, now2: nat)
    requires now1 != now2
    ensures NotificationId(now1) != NotificationId(now2)
  {
    if NotificationId(now1) == NotificationId(now2) {
      assert NotificationId(now1)[6..] == DecimalString(now1);
      assert NotificationId(now2)[6..] == DecimalString(now2);
      DecimalStringInjective(now1, now2);
    }
  }

  /** The item `addNotification` builds at clock reading `now`. */
  function NewItem(title: string, message: string, now: nat): (item: NotificationItem)
    ensures item.id == NotificationId(now) && item.createdAt == now && !item.read
    ensures item.title == title && item.message == message
  {
    NotificationItem(NotificationId(now), title, message, now, false)
  }

  /** Items built at different clock readings never share an id, whatever
      their text; items built at the same reading always do. */
  lemma NewItemIdsDiffer(title1: string, message1: string, now1: nat,
                         title2: string, message2: string, now2: nat)
    ensures NewItem(title1, message1, now1).id == NewItem(title2, message2, now2).id <==> now1 == now2
  {
    if now1 != now2 {
      NotificationIdInjective(now1, now2);
    }
  }

  /** `[item, ...existing].slice(0, 20)`: the item first, then the existing
      entries in their order, the oldest dropped beyond twenty. */
  function PushCapped(existing: seq<NotificationItem>, item: NotificationItem): (r: seq<NotificationItem>)
    ensures |r| == Min(|existing| + 1, MaxNotifications)
    ensures r[0] == item
    ensures forall i :: 1 <= i < |r| ==> r[i] == existing[i - 1]
  {
    ([item] + existing)[..Min(|existing| + 1, MaxNotifications)]
  }

  /** `addNotification`: save the capped list and hand back the new item. */
  method AddNotification(ls: LocalStorage, title: string, message: string, now: nat)
    returns (item: NotificationItem)
    modifies ls`notifications
    ensures item == NewItem(title, message, now)
    ensures ls.notifications == old(ls.notifications)[StorageKey := Items(PushCapped(old(Notifications(ls)), item))]
  {
    var existing := Notifications(ls);
    item := NotificationItem(NotificationId(now), title, message, now, false);
    var updated := ([item] + existing)[..Min(|existing| + 1, MaxNotifications)];
    SaveNotifications(ls, updated);
  }

  /** `existing.map(n => ({ ...n, read: true }))`: every entry read, every
      other field and the order kept. */
  function MarkedRead(xs: seq<NotificationItem>): (r: seq<NotificationItem>)
    ensures |r| == |xs|
    ensures forall i :: 0 <= i < |r| ==> r[i].read
    ensures forall i :: 0 <= i < |r| ==>
      && r[i].id == xs[i].id && r[i].title == xs[i].title
      && r[i].message == xs[i].message && r[i].createdAt == xs[i].createdAt
  {
    seq(|xs|, i requires 0 <= i < |xs| => xs[i].(read := true))
  }

  /** `markAllRead`: save and return the list with every entry read. */
  method MarkAllRead(ls: LocalStorage) returns (updated: seq<NotificationItem>)
    modifies ls`notifications
    ensures updated == MarkedRead(old(Notifications(ls)))
    ensures ls.notifications == old(ls.notifications)[StorageKey := Items(updated)]
  {
    var existing := Notifications(ls);
    updated := MarkedRead(existing);
    SaveNotifications(ls, updated);
  }

  /** Marking everything read twice is marking it read once. */
  lemma MarkAllReadIdempotent(xs: seq<NotificationItem>)
    ensures MarkedRead(MarkedRead(xs)) == MarkedRead(xs)
  {
  }

  /** Marking all read changes an entry exactly when it was unread. */
  lemma MarkedReadChangesOnlyUnread(xs: seq<NotificationItem>)
    ensures forall i :: 0 <= i < |xs| ==> (MarkedRead(xs)[i] == xs[i] <==> xs[i].read)
  {
  }

  /** Marking read leaves an already-read list exactly as it was. */
  lemma MarkAllReadOfReadList(xs: seq<NotificationItem>)
    requires forall i :: 0 <= i < |xs| ==> xs[i].read
    ensures MarkedRead(xs) == xs
  {
  }

  /** No operation lets the stored list grow past twenty entries. */
  lemma StoredCountStaysBounded(nm: map<string, Slot<NotificationItem>>, title: string, message: string, now: nat)
    requires |ReadNotifications(nm)| <= MaxNotifications
    ensures |ReadNotifications(nm[StorageKey := Items(PushCapped(ReadNotifications(nm), NewItem(title, message, now)))])|
         <= MaxNotifications
    ensures |ReadNotifications(nm[StorageKey := Items(MarkedRead(ReadNotifications(nm)))])| <= MaxNotifications
  {
  }

  /** Once the list is full, adding drops exactly the oldest entry. */
  lemma FullListDropsOldest(existing: seq<NotificationItem>, item: NotificationItem)
    requires |existing| >= MaxNotifications
    ensures PushCapped(existing, item) == [item] + existing[..MaxNotifications - 1]
  {
  }

  /** A corrupt or absent store reads as empty, so adding to it stores the
      new item alone. */
  lemma AddToUnreadableStore(nm: map<string, Slot<NotificationItem>>, item: NotificationItem)
    requires StorageKey !in nm || nm[StorageKey].Corrupt?
    ensures ReadNotifications(nm) == []
    ensures PushCapped(ReadNotifications(nm), item) == [item]
  {
  }
}
