/** The four state holders of the demo. Each owns fields that its methods
    replace wholesale; the new values are given by the pure functions of
    this module and of `Lists`, about which the lemmas below are proved. */
module ViewModels {
  import opened Lists
  import opened Entities

  /** `toggleQuickSetting`'s new list: every tile named `name` has its
      enabled flag negated (Kotlin's `map` with `copy`). */
  function Toggled(tiles: seq<QuickSettingTile>, name: string): (r: seq<QuickSettingTile>)
    ensures |r| == |tiles|
  {
    if tiles == [] then []
    else
      var t := tiles[0];
      [if t.name == name then t.(isEnabled := !t.isEnabled) else t] + Toggled(tiles[1..], name)
  }

  /** Position by position, toggling keeps the name and icon of each tile and
      negates its enabled flag exactly when its name is `name`. */
  lemma {:induction false} ToggledAt(tiles: seq<QuickSettingTile>, name: string, i: nat)
    requires i < |tiles|
    ensures Toggled(tiles, name)[i].name == tiles[i].name
    ensures Toggled(tiles, name)[i].icon == tiles[i].icon
    ensures Toggled(tiles, name)[i].isEnabled == (tiles[i].isEnabled != (tiles[i].name == name))
  {
    if i > 0 {
      ToggledAt(tiles[1..], name, i - 1);
    }
  }

  /** Toggling the same name twice restores the original list. */
  lemma {:induction false} ToggleTwice(tiles: seq<QuickSettingTile>, name: string)
    ensures Toggled(Toggled(tiles, name), name) == tiles
  {
    var once := Toggled(tiles, name);
    forall i | 0 <= i < |tiles| ensures Toggled(once, name)[i] == tiles[i] {
      ToggledAt(tiles, name, i);
      ToggledAt(once, name, i);
    }
  }

  /** Toggling a name no tile carries leaves the list unchanged. */
  lemma {:induction false} ToggleAbsent(tiles: seq<QuickSettingTile>, name: string)
    requires !HasKey(tiles, TileName, name)
    ensures Toggled(tiles, name) == tiles
  {
    forall i | 0 <= i < |tiles| ensures Toggled(tiles, name)[i] == tiles[i] {
      ToggledAt(tiles, name, i);
      assert TileName(tiles[i]) != name;
    }
  }

  /** Toggling never renames a tile, so distinct names stay distinct. */
  lemma {:induction false} ToggleKeepsDistinctNames(tiles: seq<QuickSettingTile>, name: string)
    requires DistinctKeys(tiles, TileName)
    ensures DistinctKeys(Toggled(tiles, name), TileName)
  {
    var r := Toggled(tiles, name);
    forall i, j | 0 <= i < j < |r| ensures TileName(r[i]) != TileName(r[j]) {
      ToggledAt(tiles, name, i);
      ToggledAt(tiles, name, j);
    }
  }

  /** The Notification Shade's state: Quick Settings tiles and notifications. */
  class ShadeViewModel {
    var quickSettings: seq<QuickSettingTile>
    var notifications: seq<Notification>

    /** Tile names and notification ids are unique, as in the seed data. */
    ghost predicate Valid()
      reads this
    {
      DistinctKeys(quickSettings, TileName) && DistinctKeys(notifications, NotificationId)
    }

    constructor ()
      ensures quickSettings == InitialQuickSettings()
      ensures notifications == InitialNotifications()
      ensures Valid()
    {
      quickSettings := InitialQuickSettings();
      notifications := InitialNotifications();
    }

    /** Flips the tiles named `settingName`; notifications are untouched. */
    method ToggleQuickSetting(settingName: string)
      modifies this
      ensures quickSettings == Toggled(old(quickSettings), settingName)
      ensures notifications == old(notifications)
      ensures old(Valid()) ==> Valid()
    {
      if DistinctKeys(quickSettings, TileName) {
        ToggleKeepsDistinctNames(quickSettings, settingName);
      }
      quickSettings := Toggled(quickSettings, settingName);
    }

    /** Removes the notifications whose id is `notificationId`; tiles are
        untouched. With unique ids, the list shrinks by one exactly when
        the id was present. */
    method DismissNotification(notificationId: int)
      modifies this
      ensures notifications == WithoutKey(old(notifications), NotificationId, notificationId)
      ensures quickSettings == old(quickSettings)
      ensures old(Valid()) ==> Valid()
      ensures old(Valid()) ==>
        |notifications| == if HasKey(old(notifications), NotificationId, notificationId)
                           then |old(notifications)| - 1 else |old(notifications)|
    {
      if DistinctKeys(notifications, NotificationId) {
        WithoutKeyDistinct(notifications, NotificationId, notificationId);
        WithoutKeyLength(notifications, NotificationId, notificationId);
      }
      notifications := WithoutKey(notifications, NotificationId, notificationId);
    }
  }

  /** The Recents screen's state: the list of recent tasks. */
  class RecentsViewModel {
    var tasks: seq<Task>

    /** Task ids are unique, as in the seed data. */
    ghost predicate Valid()
      reads this
    {
      DistinctKeys(tasks, TaskId)
    }

    constructor ()
      ensures tasks == InitialTasks()
      ensures Valid()
    {
      tasks := InitialTasks();
    }

    /** Removes the tasks whose id is `taskId`. With unique ids, the list
        shrinks by one exactly when the id was present. */
    method DismissTask(taskId: int)
      modifies this
      ensures tasks == WithoutKey(old(tasks), TaskId, taskId)
      ensures old(Valid()) ==> Valid()
      ensures old(Valid()) ==>
        |tasks| == if HasKey(old(tasks), TaskId, taskId) then |old(tasks)| - 1 else |old(tasks)|
    {
      if DistinctKeys(tasks, TaskId) {
        WithoutKeyDistinct(tasks, TaskId, taskId);
        WithoutKeyLength(tasks, TaskId, taskId);
      }
      tasks := WithoutKey(tasks, TaskId, taskId);
    }
  }

  /** The Volume dialog's state: one level, stored as given (no clamping). */
  class VolumeViewModel {
    var volumeLevel: real

    constructor ()
      ensures volumeLevel == 0.5
    {
      volumeLevel := 0.5;
    }

    method SetVolume(level: real)
      modifies this
      ensures volumeLevel == level
    {
      volumeLevel := level;
    }
  }

  /** The Keyguard's state: whether the device is locked. It starts locked. */
  class KeyguardViewModel {
    var isLocked: bool

    constructor ()
      ensures isLocked
    {
      isLocked := true;
    }

    method Lock()
      modifies this
      ensures isLocked
    {
      isLocked := true;
    }

    method Unlock()
      modifies this
      ensures !isLocked
    {
      isLocked := false;
    }
  }
}
