/** The value records of the System UI demo and the seed data its state
    holders start from. Icons and colours are opaque payloads: an icon is
    named after the `Icons.Default` member it stands for, a colour is its
    ARGB word. */
module Entities {
  import opened Lists

  datatype Icon = Icon(name: string)

  datatype Color = Color(argb: int)

  /** One Quick Settings tile: its visible name, its icon and whether it is on. */
  datatype QuickSettingTile = QuickSettingTile(name: string, icon: Icon, isEnabled: bool)

  /** One notification; `id` identifies it for dismissal. */
  datatype Notification = Notification(id: int, appName: string, title: string, text: string)

  /** One recent task (app) of the Recents screen; `id` identifies it for dismissal. */
  datatype Task = Task(id: int, name: string, color: Color)

  function TileName(t: QuickSettingTile): string { t.name }

  function NotificationId(n: Notification): int { n.id }

  function TaskId(t: Task): int { t.id }

  /** The six tiles the shade starts with; only Wi-Fi is on. */
  function InitialQuickSettings(): (tiles: seq<QuickSettingTile>)
    ensures |tiles| == 6 && DistinctKeys(tiles, TileName)
    ensures forall i :: 0 <= i < |tiles| ==> (tiles[i].isEnabled <==> tiles[i].name == "Wi-Fi")
  {
    [ QuickSettingTile("Wi-Fi", Icon("Wifi"), true),
      QuickSettingTile("Bluetooth", Icon("Bluetooth"), false),
      QuickSettingTile("Flashlight", Icon("FlashlightOn"), false),
      QuickSettingTile("Auto-rotate", Icon("AutoAwesome"), false),
      QuickSettingTile("Do Not Disturb", Icon("NotificationsOff"), false),
      QuickSettingTile("Airplane Mode", Icon("AirplanemodeActive"), false) ]
  }

  /** The three notifications the shade starts with, ids 1 to 3. */
  function InitialNotifications(): (ns: seq<Notification>)
    ensures |ns| == 3 && DistinctKeys(ns, NotificationId)
    ensures forall i :: 0 <= i < |ns| ==> ns[i].id == i + 1
  {
    [ Notification(1, "Gmail", "New Message", "Check out the new features..."),
      Notification(2, "Slack", "Direct Message", "John Doe sent you a message"),
      Notification(3, "Android Studio", "Build Successful", "app:assembleDebug finished.") ]
  }

  /** The five tasks Recents starts with, ids 1 to 5. */
  function InitialTasks(): (ts: seq<Task>)
    ensures |ts| == 5 && DistinctKeys(ts, TaskId)
    ensures forall i :: 0 <= i < |ts| ==> ts[i].id == i + 1
  {
    [ Task(1, "Chrome", Color(0xFFF44336)),
      Task(2, "Spotify", Color(0xFF4CAF50)),
      Task(3, "Settings", Color(0xFF2196F3)),
      Task(4, "Calculator", Color(0xFFFFC107)),
      Task(5, "Camera", Color(0xFF9C27B0)) ]
  }
}
