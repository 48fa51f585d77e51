/**
 * The permission checks the app runs at launch: for location, motion and
 * notifications, the stored "enabled" flag is brought in line with the
 * system's authorization status, and each actual change is announced with a
 * "permission_change" notification.
 */
module Permissions {
  import opened Wrappers

  /** A permission's authorization status as the permission library reports it. */
  datatype Status = Authorized | Denied | NotDetermined | NotAvailable

  /** The three permissions the app tracks. */
  datatype PermissionKind = Location | Motion | Notifications

  /** A "permission_change" post: its single userInfo key and the new flag. */
  datatype PermissionChange = PermissionChange(key: string, enabled: bool)

  /** The stored flags `locationEnabled`, `motionEnabled` and `notificationsEnabled`. */
  datatype Flags = Flags(location: bool, motion: bool, notifications: bool)

  /** The userInfo key a change of the permission is posted under. */
  function KeyOf(kind: PermissionKind): (key: string)
    ensures kind == Location <==> key == "location"
    ensures kind == Motion <==> key == "motion"
    ensures kind == Notifications <==> key == "notifications"
  {
    match kind
    case Location => "location"
    case Motion => "motion"
    case Notifications => "notifications"
  }

  /** The stored flag of a permission. */
  function Get(flags: Flags, kind: PermissionKind): bool {
    match kind
    case Location => flags.location
    case Motion => flags.motion
    case Notifications => flags.notifications
  }

  /** The flags with one permission's flag replaced. */
  function Set(flags: Flags, kind: PermissionKind, enabled: bool): (r: Flags)
    ensures Get(r, kind) == enabled
    ensures forall other :: other != kind ==> Get(r, other) == Get(flags, other)
  {
    match kind
    case Location => flags.(location := enabled)
    case Motion => flags.(motion := enabled)
    case Notifications => flags.(notifications := enabled)
  }

  /** Whether the launch check calls `Ensure…Permission`: the status is undetermined or disagrees with the flag. */
  function NeedsEnsure(status: Status, enabled: bool): bool {
    status == NotDetermined || enabled != (status == Authorized)
  }

  /**
   * What `Ensure…Permission` does with the status its `manage` call
   * reports: the flags afterwards and the post it makes, if any.
   */
  function Ensured(flags: Flags, kind: PermissionKind, status: Status): (r: (Flags, Option<PermissionChange>))
    ensures Get(r.0, kind) == (status == Authorized)
    ensures forall other :: other != kind ==> Get(r.0, other) == Get(flags, other)
    ensures r.1.Some? <==> Get(flags, kind) != (status == Authorized)
    ensures r.1.Some? ==> r.1.value == PermissionChange(KeyOf(kind), status == Authorized)
  {
    if Get(flags, kind) != (status == Authorized) then
      (Set(flags, kind, status == Authorized), Some(PermissionChange(KeyOf(kind), status == Authorized)))
    else (flags, None)
  }

  /** A second `Ensure…Permission` with the same status changes nothing and posts nothing. */
  lemma EnsureRepeatPostsNothing(flags: Flags, kind: PermissionKind, status: Status)
    ensures var once := Ensured(flags, kind, status).0;
      Ensured(once, kind, status) == (once, None)
  {
    var once := Ensured(flags, kind, status).0;
    assert Get(once, kind) == (status == Authorized);
    assert forall k :: Get(once, k) == Get(Ensured(flags, kind, status).0, k);
  }

  /** When the launch check skips a permission, calling `Ensure…Permission` with that status would change nothing. */
  lemma SkippedEnsureIsNoOp(flags: Flags, kind: PermissionKind, status: Status)
    requires !NeedsEnsure(status, Get(flags, kind))
    ensures status != NotDetermined
    ensures Ensured(flags, kind, status) == (flags, None)
  {
  }

  /** One permission's part of the launch check: the new flags and the posts it makes. */
  function CheckOne(flags: Flags, kind: PermissionKind, checked: Status, managed: Status): (Flags, seq<PermissionChange>) {
    if NeedsEnsure(checked, Get(flags, kind)) then
      var (after, post) := Ensured(flags, kind, managed);
      (after, if post.Some? then [post.value] else [])
    else (flags, [])
  }

  /** The posts of the launch check, in the order location, motion, notifications. */
  function CheckPosts(flags: Flags, checked: PermissionKind -> Status, managed: PermissionKind -> Status): seq<PermissionChange> {
    CheckOne(flags, Location, checked(Location), managed(Location)).1
    + CheckOne(flags, Motion, checked(Motion), managed(Motion)).1
    + CheckOne(flags, Notifications, checked(Notifications), managed(Notifications)).1
  }

  /** Every post of the launch check reports a flag that actually changed, to its new value. */
  lemma CheckPostsOnlyChanges(flags: Flags, checked: PermissionKind -> Status, managed: PermissionKind -> Status,
    kind: PermissionKind)
    ensures |CheckOne(flags, kind, checked(kind), managed(kind)).1| <= 1
    ensures CheckOne(flags, kind, checked(kind), managed(kind)).1 != [] <==>
      NeedsEnsure(checked(kind), Get(flags, kind)) && Get(flags, kind) != (managed(kind) == Authorized)
    ensures CheckOne(flags, kind, checked(kind), managed(kind)).1 != [] ==>
      CheckOne(flags, kind, checked(kind), managed(kind)).1[0] == PermissionChange(KeyOf(kind), managed(kind) == Authorized)
  {
  }

  /** The stored settings. */
  class SettingsStore {
    var locationEnabled: bool
    var motionEnabled: bool
    var notificationsEnabled: bool

    constructor (flags: Flags)
      ensures Current() == flags
    {
      locationEnabled := flags.location;
      motionEnabled := flags.motion;
      notificationsEnabled := flags.notifications;
    }

    /** The three flags. */
    function Current(): Flags
      reads this
    {
      Flags(locationEnabled, motionEnabled, notificationsEnabled)
    }
  }

  /** The notification center, as the list of "permission_change" posts made. */
  class NotificationCenter {
    var posted: seq<PermissionChange>

    constructor ()
      ensures posted == []
    {
      posted := [];
    }

    method Post(change: PermissionChange)
      modifies this
      ensures posted == old(posted) + [change]
    {
      posted := posted + [change];
    }
  }

  /**
   * `EnsureLocationPermission`, `EnsureMotionPermission` and
   * `EnsureNotificationPermission`: `status` is what the permission's
   * `manage` call reports.
   */
  method Ensure(store: SettingsStore, center: NotificationCenter, kind: PermissionKind, status: Status)
    modifies store, center
    ensures store.Current() == Ensured(old(store.Current()), kind, status).0
    ensures var post := Ensured(old(store.Current()), kind, status).1;
      center.posted == old(center.posted) + (if post.Some? then [post.value] else [])
  {
    match kind {
      case Location =>
        if store.locationEnabled != (status == Authorized) {
          store.locationEnabled := status == Authorized;
          center.Post(PermissionChange("location", store.locationEnabled));
        }
      case Motion =>
        if store.motionEnabled != (status == Authorized) {
          store.motionEnabled := status == Authorized;
          center.Post(PermissionChange("motion", store.motionEnabled));
        }
      case Notifications =>
        if store.notificationsEnabled != (status == Authorized) {
          store.notificationsEnabled := status == Authorized;
          center.Post(PermissionChange("notifications", store.notificationsEnabled));
        }
    }
  }

  /** The part of `CheckPermissionsStatus` for one permission. */
  method CheckPermission(store: SettingsStore, center: NotificationCenter, kind: PermissionKind,
    checked: Status, managed: Status)
    modifies store, center
    ensures store.Current() == CheckOne(old(store.Current()), kind, checked, managed).0
    ensures center.posted == old(center.posted) + CheckOne(old(store.Current()), kind, checked, managed).1
  {
    var enabled := match kind
      case Location => store.locationEnabled
      case Motion => store.motionEnabled
      case Notifications => store.notificationsEnabled;
    if checked == NotDetermined || enabled != (checked == Authorized) {
      Ensure(store, center, kind, managed);
    }
  }

  /**
   * `CheckPermissionsStatus`. `checked` gives the status each permission's
   * `status` call reports and `managed` the one its `manage` call reports;
   * the three callbacks are taken to run in the order they are registered.
   */
  method CheckPermissionsStatus(store: SettingsStore, center: NotificationCenter,
    checked: PermissionKind -> Status, managed: PermissionKind -> Status)
    modifies store, center
    ensures forall kind ::
      (Get(store.Current(), kind) ==
        if NeedsEnsure(checked(kind), Get(old(store.Current()), kind)) then managed(kind) == Authorized
        else Get(old(store.Current()), kind))
    ensures center.posted == old(center.posted) + CheckPosts(old(store.Current()), checked, managed)
  {
    CheckPermission(store, center, Location, checked(Location), managed(Location));
    CheckPermission(store, center, Motion, checked(Motion), managed(Motion));
    CheckPermission(store, center, Notifications, checked(Notifications), managed(Notifications));
  }
}
