/**
 * The settings store of the mobile app: font scale, dark mode, mobility,
 * the notification list with its unread count, and the cooldown of the
 * AI recommendation.
 */
module Settings {
  import opened Seqs
  import opened Strs

  /** The mobile app's means of transport. */
  datatype MobilityType = Car | Pickup | Bike | Walk

  datatype NotificationType = Schedule | System | GpsVerify

  /** A notification; `createdAt` is a time in milliseconds. */
  datatype Notification = Notification(
    id: string, title: string, message: string, kind: NotificationType, isRead: bool, createdAt: int)

  /** What `addNotification` receives: a notification without id, time and read flag. */
  datatype NotificationInput = NotificationInput(title: string, message: string, kind: NotificationType)

  /** Font scale bounds, in tenths: 0.8 and 1.4. */
  const MinScale := 8
  const MaxScale := 14

  /** The font scale, in tenths, from which the large-text mode applies: 1.2. */
  const SeniorScale := 12

  /** Thirty minutes in milliseconds: the AI recommendation cooldown. */
  const CooldownMs := 30 * 60 * 1000

  /** `Math.max(0.8, Math.min(1.4, scale))`, in tenths. */
  function ClampScale(scale: int): (r: int)
    ensures MinScale <= r <= MaxScale
    ensures MinScale <= scale <= MaxScale ==> r == scale
    ensures scale < MinScale ==> r == MinScale
    ensures scale > MaxScale ==> r == MaxScale
  {
    if scale < MinScale then MinScale else if scale > MaxScale then MaxScale else scale
  }

  /** Clamping twice is clamping once. */
  lemma ClampIdempotent(scale: int)
    ensures ClampScale(ClampScale(scale)) == ClampScale(scale)
  {
  }

  /** `isSeniorMode()`: the font scale is at least 1.2. */
  predicate SeniorMode(fontScale: int) {
    fontScale >= SeniorScale
  }

  function UnreadCount(ns: seq<Notification>): nat {
    CountIf(ns, (n: Notification) => !n.isRead)
  }

  /** The notification `addNotification` builds at clock `now`. */
  function NewNotification(input: NotificationInput, now: nat): (n: Notification)
    ensures !n.isRead && n.createdAt == now && n.id == "notif-" + Decimal(now)
    ensures n.title == input.title && n.message == input.message && n.kind == input.kind
  {
    Notification("notif-" + Decimal(now), input.title, input.message, input.kind, false, now)
  }

  /** Putting an unread notification first raises the unread count by one. */
  lemma PrependUnread(n: Notification, ns: seq<Notification>)
    requires !n.isRead
    ensures UnreadCount([n] + ns) == UnreadCount(ns) + 1
  {
    assert ([n] + ns)[1..] == ns;
  }

  /** The notifications of `markAsRead(id)`. */
  function MarkRead(ns: seq<Notification>, id: string): (r: seq<Notification>)
    ensures |r| == |ns|
    ensures forall i :: 0 <= i < |ns| ==> r[i] == if ns[i].id == id then ns[i].(isRead := true) else ns[i]
  {
    UpdateWhere(ns, (n: Notification) => n.id == id, (n: Notification) => n.(isRead := true))
  }

  /** `markAllAsRead`: every notification kept, in order, and marked read. */
  function MarkAllRead(ns: seq<Notification>): (r: seq<Notification>)
    ensures |r| == |ns|
    ensures forall i :: 0 <= i < |ns| ==> r[i] == ns[i].(isRead := true)
    ensures UnreadCount(r) == 0
  {
    var r := Map(ns, (n: Notification) => n.(isRead := true));
    NoneUnread(r);
    r
  }

  lemma NoneUnread(ns: seq<Notification>)
    requires forall i :: 0 <= i < |ns| ==> ns[i].isRead
    ensures UnreadCount(ns) == 0
  {
    FilterNone(ns, (n: Notification) => !n.isRead);
  }

  /** Marking one notification read never raises the unread count. */
  lemma {:induction false} MarkReadLowers(ns: seq<Notification>, id: string)
    ensures UnreadCount(MarkRead(ns, id)) <= UnreadCount(ns)
    ensures (forall i :: 0 <= i < |ns| ==> ns[i].id != id) ==> MarkRead(ns, id) == ns
  {
    if ns != [] {
      assert MarkRead(ns, id)[1..] == MarkRead(ns[1..], id);
      MarkReadLowers(ns[1..], id);
    }
  }

  /** The cooldown state: the start time, if any, and the uses since. */
  datatype Cooldown = Cooldown(start: Option<int>, used: int)

  /**
   * `useAiRecommend()` at clock `now`: a truthy start at least thirty
   * minutes old restarts the window at `now` with one use; otherwise the
   * uses go up by one and the start is kept, or set to `now` when absent.
   * A start of 0 is falsy in JavaScript and never restarts the window.
   */
  function UseAi(c: Cooldown, now: int): (d: Cooldown)
    ensures c.start.Some? && c.start.value != 0 && now - c.start.value >= CooldownMs ==> d == Cooldown(Some(now), 1)
    ensures !(c.start.Some? && c.start.value != 0 && now - c.start.value >= CooldownMs) ==>
      d.used == c.used + 1 && d.start == (if c.start.Some? then c.start else Some(now))
  {
    if c.start.Some? && c.start.value != 0 && now - c.start.value >= CooldownMs then Cooldown(Some(now), 1)
    else Cooldown(if c.start.Some? then c.start else Some(now), c.used + 1)
  }

  /** After any use a start time is set, and the uses are at least one when they were not negative. */
  lemma UseAiStarts(c: Cooldown, now: int)
    ensures UseAi(c, now).start.Some?
    ensures c.used >= 0 ==> UseAi(c, now).used >= 1
  {
  }

  /** The bundled notifications: two unread and one read. */
  predicate MockShape(ns: seq<Notification>) {
    |ns| == 3 && !ns[0].isRead && !ns[1].isRead && ns[2].isRead
  }

  class SettingsStore {
    var fontScale: int
    var darkMode: bool
    var mobility: MobilityType
    var notifications: seq<Notification>
    var unreadCount: int
    var aiCooldownStart: Option<int>
    var aiUsedCount: int

    /** The store invariant: the count is the number of unread notifications, the scale in range. */
    ghost predicate Valid()
      reads this
    {
      unreadCount == UnreadCount(notifications) && MinScale <= fontScale <= MaxScale
    }

    constructor (mock: seq<Notification>)
      requires MockShape(mock)
      ensures Valid()
      ensures fontScale == 10 && !darkMode && mobility == Walk
      ensures notifications == mock && unreadCount == 2
      ensures aiCooldownStart == None && aiUsedCount == 0
    {
      fontScale, darkMode, mobility := 10, false, Walk;
      notifications, unreadCount := mock, 2;
      aiCooldownStart, aiUsedCount := None, 0;
      new;
      assert mock[2..] == [mock[2]] && mock[1..] == [mock[1]] + mock[2..];
      assert UnreadCount(mock[2..]) == 0;
      assert UnreadCount(mock[1..]) == 1;
    }

    /** Whether the large-text mode applies. */
    function IsSeniorMode(): (b: bool)
      reads this
      ensures b <==> fontScale >= 12
    {
      SeniorMode(fontScale)
    }

    /** `setFontScale(scale)`, in tenths. */
    method SetFontScale(scale: int)
      requires Valid()
      modifies this
      ensures Valid()
      ensures fontScale == ClampScale(scale)
      ensures darkMode == old(darkMode) && mobility == old(mobility) && notifications == old(notifications)
      ensures unreadCount == old(unreadCount)
      ensures aiCooldownStart == old(aiCooldownStart) && aiUsedCount == old(aiUsedCount)
    {
      fontScale := ClampScale(scale);
    }

    method SetDarkMode(enabled: bool)
      modifies this
      ensures darkMode == enabled
      ensures fontScale == old(fontScale) && mobility == old(mobility) && notifications == old(notifications)
      ensures unreadCount == old(unreadCount)
      ensures aiCooldownStart == old(aiCooldownStart) && aiUsedCount == old(aiUsedCount)
    {
      darkMode := enabled;
    }

    method SetMobility(m: MobilityType)
      modifies this
      ensures mobility == m
      ensures fontScale == old(fontScale) && darkMode == old(darkMode) && notifications == old(notifications)
      ensures unreadCount == old(unreadCount)
      ensures aiCooldownStart == old(aiCooldownStart) && aiUsedCount == old(aiUsedCount)
    {
      mobility := m;
    }

    /** `addNotification(input)` at clock `now`: an unread notification first, the count up by one. */
    method AddNotification(input: NotificationInput, now: nat)
      requires Valid()
      modifies this
      ensures Valid()
      ensures notifications == [NewNotification(input, now)] + old(notifications)
      ensures unreadCount == old(unreadCount) + 1
      ensures fontScale == old(fontScale) && darkMode == old(darkMode) && mobility == old(mobility)
      ensures aiCooldownStart == old(aiCooldownStart) && aiUsedCount == old(aiUsedCount)
    {
      PrependUnread(NewNotification(input, now), notifications);
      notifications := [NewNotification(input, now)] + notifications;
      unreadCount := unreadCount + 1;
    }

    /** `markAsRead(id)`: the matching notifications read, the count recomputed. */
    method MarkAsRead(id: string)
      requires Valid()
      modifies this
      ensures Valid()
      ensures notifications == MarkRead(old(notifications), id)
      ensures unreadCount <= old(unreadCount)
      ensures fontScale == old(fontScale) && darkMode == old(darkMode) && mobility == old(mobility)
      ensures aiCooldownStart == old(aiCooldownStart) && aiUsedCount == old(aiUsedCount)
    {
      MarkReadLowers(notifications, id);
      notifications := MarkRead(notifications, id);
      unreadCount := UnreadCount(notifications);
    }

    method MarkAllAsRead()
      requires Valid()
      modifies this
      ensures Valid()
      ensures notifications == MarkAllRead(old(notifications)) && unreadCount == 0
      ensures fontScale == old(fontScale) && darkMode == old(darkMode) && mobility == old(mobility)
      ensures aiCooldownStart == old(aiCooldownStart) && aiUsedCount == old(aiUsedCount)
    {
      notifications := MarkAllRead(notifications);
      unreadCount := 0;
    }

    method ClearNotifications()
      requires Valid()
      modifies this
      ensures Valid()
      ensures notifications == [] && unreadCount == 0
      ensures fontScale == old(fontScale) && darkMode == old(darkMode) && mobility == old(mobility)
      ensures aiCooldownStart == old(aiCooldownStart) && aiUsedCount == old(aiUsedCount)
    {
      notifications, unreadCount := [], 0;
    }

    /** `useAiRecommend()` at clock `now`. */
    method UseAiRecommend(now: int)
      modifies this
      ensures Cooldown(aiCooldownStart, aiUsedCount) == UseAi(Cooldown(old(aiCooldownStart), old(aiUsedCount)), now)
      ensures fontScale == old(fontScale) && darkMode == old(darkMode) && mobility == old(mobility)
      ensures notifications == old(notifications) && unreadCount == old(unreadCount)
    {
      var d := UseAi(Cooldown(aiCooldownStart, aiUsedCount), now);
      aiCooldownStart, aiUsedCount := d.start, d.used;
    }

    method ResetAiCooldown()
      modifies this
      ensures aiCooldownStart == None && aiUsedCount == 0
      ensures fontScale == old(fontScale) && darkMode == old(darkMode) && mobility == old(mobility)
      ensures notifications == old(notifications) && unreadCount == old(unreadCount)
    {
      aiCooldownStart, aiUsedCount := None, 0;
    }
  }
}
