# SystemUI Compose Demo: the state layer, in Dafny

The demo app draws a phone's System UI: status bar, notification shade with
Quick Settings, Recents, volume and power dialogs, and a lock screen. All of
its behaviour sits on a small in-memory state layer in `MainActivity.kt`.
This project models that layer and proves what it promises.

- **Entities** (`entities.dfy`): the value records `QuickSettingTile`,
  `Notification` and `Task`, and the seed data the state holders start from.
- **Lists** (`lists.dfy`): the elements of a list whose key differs from a
  given one, i.e. Kotlin's `filterNot { it.id == k }`. Around it sit the
  subsequence relation, the distinct-keys invariant and their lemmas.
- **ViewModels** (`view_models.dfy`): the four state holders as classes.
  `ShadeViewModel` holds tiles and notifications, `RecentsViewModel` holds
  tasks, `VolumeViewModel` holds a level and `KeyguardViewModel` holds the
  lock flag. Each method replaces its field wholesale with a value given by
  a pure function, and the lemmas are proved about those functions.
- **Gestures** (`gestures.dfy`): the decisions the gesture callbacks make.
  These are the shade drag step (clamped to [0, 1]), the shade's animation
  target (0 while locked), the visibility thresholds, the unlock swipe (one
  drag event below -200 px), the notification dismiss rule (|offset| > 300 px
  on release) and the task dismiss rule (one drag event below -150 px).
- **SystemUi** (`system_ui.dfy`): the state the root composable
  `SystemUIComposeDemo` remembers, as a class. It holds the four state
  holders, the shade expansion, the dialog flags, the split-screen task and
  the heads-up text. Each UI callback is a method. The two swipe-to-dismiss
  cards are classes that hold their offsets.

Screen coordinates grow downward, so a positive vertical drag amount moves
the finger down. Floats are modelled as `real`.

`setVolume` stores its argument unchanged (MainActivity.kt:185-187); only
the slider that calls it (MainActivity.kt:712-715, default range 0..1) keeps
values in [0, 1]. The model follows the code, so `SetVolume` stores its
argument unchanged.

## Model

| member | source | states |
|---|---|---|
| `Entities.InitialQuickSettings` | app/src/main/java/com/Francis/systemuicomposedemo/MainActivity.kt:116-125 | six tiles with distinct names; exactly the Wi-Fi tile starts enabled |
| `Entities.InitialNotifications` | app/src/main/java/com/Francis/systemuicomposedemo/MainActivity.kt:130-136 | three notifications with distinct ids 1, 2, 3 |
| `Entities.InitialTasks` | app/src/main/java/com/Francis/systemuicomposedemo/MainActivity.kt:161-169 | five tasks with distinct ids 1 to 5 |
| `Lists.WithoutKey` | app/src/main/java/com/Francis/systemuicomposedemo/MainActivity.kt:152-154 | `filterNot` by id: the result is no longer than the input; everything in it comes from the input and has another id; every input element with another id is kept |
| `Lists.WithoutKeyIsSubsequence` | app/src/main/java/com/Francis/systemuicomposedemo/MainActivity.kt:153 | the result of dismissal is a subsequence of the input, so survivors keep their relative order |
| `Lists.WithoutKeyMultiset` | app/src/main/java/com/Francis/systemuicomposedemo/MainActivity.kt:153 | dismissal keeps each other element exactly as often as before, and no element with the dismissed id |
| `Lists.WithoutKeyUnique` | app/src/main/java/com/Francis/systemuicomposedemo/MainActivity.kt:153 | any order-preserving sublist with no element of that id that keeps all other elements equals the dismissal result: exactly the matching entries are removed |
| `Lists.WithoutKeyAbsent` | app/src/main/java/com/Francis/systemuicomposedemo/MainActivity.kt:174 | dismissing an id that no entry carries leaves the list unchanged |
| `Lists.WithoutKeyIdempotent` | app/src/main/java/com/Francis/systemuicomposedemo/MainActivity.kt:173-175 | dismissing the same id twice is the same as dismissing it once |
| `Lists.SubsequenceKeepsDistinct` | app/src/main/java/com/Francis/systemuicomposedemo/MainActivity.kt:82 | removing entries from a list with unique ids keeps the ids unique |
| `Lists.WithoutKeyDistinct` | app/src/main/java/com/Francis/systemuicomposedemo/MainActivity.kt:173-175 | dismissal keeps unique ids unique |
| `Lists.WithoutKeyLength` | app/src/main/java/com/Francis/systemuicomposedemo/MainActivity.kt:173-175 | with unique ids, dismissal shortens the list by one exactly when the id was present, and by none otherwise |
| `ViewModels.Toggled` | app/src/main/java/com/Francis/systemuicomposedemo/MainActivity.kt:142-148 | the `map`-with-`copy` toggle keeps the list's length |
| `ViewModels.ToggledAt` | app/src/main/java/com/Francis/systemuicomposedemo/MainActivity.kt:142-148 | at every position the tile keeps its name and icon, and its enabled flag is negated exactly when its name equals the toggled name |
| `ViewModels.ToggleTwice` | app/src/main/java/com/Francis/systemuicomposedemo/MainActivity.kt:141-149 | toggling the same name twice restores the original tile list |
| `ViewModels.ToggleAbsent` | app/src/main/java/com/Francis/systemuicomposedemo/MainActivity.kt:142-148 | toggling a name that no tile carries leaves the list unchanged |
| `ViewModels.ToggleKeepsDistinctNames` | app/src/main/java/com/Francis/systemuicomposedemo/MainActivity.kt:144 | toggling never renames a tile, so unique tile names stay unique |
| `ViewModels.ShadeViewModel.constructor` | app/src/main/java/com/Francis/systemuicomposedemo/MainActivity.kt:114-138 | starts with the seed tiles and notifications, with unique names and ids |
| `ViewModels.ShadeViewModel.ToggleQuickSetting` | app/src/main/java/com/Francis/systemuicomposedemo/MainActivity.kt:141-149 | the tiles become the toggled list; the notifications are untouched; the uniqueness invariant is kept |
| `ViewModels.ShadeViewModel.DismissNotification` | app/src/main/java/com/Francis/systemuicomposedemo/MainActivity.kt:152-154 | the notifications become the old list without that id; the tiles are untouched; ids stay unique, and the list shrinks by one exactly when the id was present |
| `ViewModels.RecentsViewModel.constructor` | app/src/main/java/com/Francis/systemuicomposedemo/MainActivity.kt:160-170 | starts with the five seed tasks, with unique ids |
| `ViewModels.RecentsViewModel.DismissTask` | app/src/main/java/com/Francis/systemuicomposedemo/MainActivity.kt:173-175 | the tasks become the old list without that id; ids stay unique, and the list shrinks by one exactly when the id was present |
| `ViewModels.VolumeViewModel.constructor` | app/src/main/java/com/Francis/systemuicomposedemo/MainActivity.kt:182 | the initial volume level is 0.5 |
| `ViewModels.VolumeViewModel.SetVolume` | app/src/main/java/com/Francis/systemuicomposedemo/MainActivity.kt:185-187 | stores the level as given, with no clamping |
| `ViewModels.KeyguardViewModel.constructor` | app/src/main/java/com/Francis/systemuicomposedemo/MainActivity.kt:194 | the keyguard starts locked |
| `ViewModels.KeyguardViewModel.Lock` | app/src/main/java/com/Francis/systemuicomposedemo/MainActivity.kt:197 | afterwards locked, whatever the prior state (so idempotent) |
| `ViewModels.KeyguardViewModel.Unlock` | app/src/main/java/com/Francis/systemuicomposedemo/MainActivity.kt:198 | afterwards unlocked, whatever the prior state (so idempotent) |
| `Gestures.CoerceIn` | app/src/main/java/com/Francis/systemuicomposedemo/MainActivity.kt:285 | `coerceIn` lands in the interval, and returns its argument exactly when the argument is already inside |
| `Gestures.CoerceInIsNearest` | app/src/main/java/com/Francis/systemuicomposedemo/MainActivity.kt:285 | `coerceIn` picks the point of the interval nearest to its argument |
| `Gestures.DraggedExpansionAsWritten` | app/src/main/java/com/Francis/systemuicomposedemo/MainActivity.kt:283-285 | the drag step as written keeps the expansion in [0, 1] |
| `Gestures.DownwardDragClosesShadeAsWritten` | app/src/main/java/com/Francis/systemuicomposedemo/MainActivity.kt:280-285 | as written, a downward drag never raises the expansion: it lowers an open shade, and a closed shade stays closed |
| `Gestures.DraggedExpansion` | app/src/main/java/com/Francis/systemuicomposedemo/MainActivity.kt:280-285 | the intended drag step keeps the expansion in [0, 1] |
| `Gestures.DownwardDragOpensShade` | app/src/main/java/com/Francis/systemuicomposedemo/MainActivity.kt:280-285 | a downward drag never lowers the expansion and raises it below 1; a drag of a full screen height opens the shade fully |
| `Gestures.UpwardDragClosesShade` | app/src/main/java/com/Francis/systemuicomposedemo/MainActivity.kt:283-285 | an upward drag never raises the expansion and lowers it above 0; a drag of a full screen height closes the shade fully |
| `Gestures.DragBackUndoesDrag` | app/src/main/java/com/Francis/systemuicomposedemo/MainActivity.kt:283-285 | away from the bounds, dragging back by the same amount restores the expansion |
| `Gestures.Abs` | app/src/main/java/com/Francis/systemuicomposedemo/MainActivity.kt:513 | `abs` is non-negative and is its argument or its negation |
| `Gestures.ShadeTarget` | app/src/main/java/com/Francis/systemuicomposedemo/MainActivity.kt:250 | the shade's animation target is 0 while locked and the expansion otherwise, so within [0, 1] whenever the expansion is |
| `Gestures.ShadePanelComposed` | app/src/main/java/com/Francis/systemuicomposedemo/MainActivity.kt:415 | a closed shade composes no panel; a shade open past half way composes it |
| `Gestures.ShadeContentVisible` | app/src/main/java/com/Francis/systemuicomposedemo/MainActivity.kt:424 | the shade's content shows only with the panel composed, never at or below half way, and always when fully open |
| `Gestures.ShadeTargetProperties` | app/src/main/java/com/Francis/systemuicomposedemo/MainActivity.kt:250 | once the animation settles, a locked shade composes no panel (`expansion > 0f`, line 415) and no content (`expansion > 0.5`, line 424); an unlocked shade settles at the dragged expansion |
| `Gestures.UnlocksKeyguard` | app/src/main/java/com/Francis/systemuicomposedemo/MainActivity.kt:290 | on the lock screen a drag event unlocks exactly when it moves more than 200 px up; a downward drag never unlocks |
| `Gestures.ReleaseDismissesNotification` | app/src/main/java/com/Francis/systemuicomposedemo/MainActivity.kt:513 | a released card is dismissed exactly when it was dragged more than 300 px to either side |
| `Gestures.SwipeDismissesTask` | app/src/main/java/com/Francis/systemuicomposedemo/MainActivity.kt:610 | a task card drag event dismisses exactly when it moves more than 150 px up; a downward drag never dismisses |
| `SystemUi.NotificationCard.constructor` | app/src/main/java/com/Francis/systemuicomposedemo/MainActivity.kt:498 | a card starts at offset 0 |
| `SystemUi.NotificationCard.OnHorizontalDrag` | app/src/main/java/com/Francis/systemuicomposedemo/MainActivity.kt:505-509 | the offset moves by the drag amount |
| `SystemUi.NotificationCard.OnDragEnd` | app/src/main/java/com/Francis/systemuicomposedemo/MainActivity.kt:510-519 | reports dismissal exactly when the offset is past the threshold; otherwise the offset returns to 0 |
| `SystemUi.TaskCard.constructor` | app/src/main/java/com/Francis/systemuicomposedemo/MainActivity.kt:598 | a card starts at offset 0 |
| `SystemUi.TaskCard.OnVerticalDrag` | app/src/main/java/com/Francis/systemuicomposedemo/MainActivity.kt:605-613 | the offset moves by the drag amount; dismissal is asked exactly when this one event's drag amount is below -150 |
| `SystemUi.SystemUiComposeDemo.constructor` | app/src/main/java/com/Francis/systemuicomposedemo/MainActivity.kt:231-261 | starts locked, with fresh state holders holding the seed data and volume 0.5. The shade is closed, no dialog is shown and there is no split task or heads-up |
| `SystemUi.SystemUiComposeDemo.OnVerticalDrag` | app/src/main/java/com/Francis/systemuicomposedemo/MainActivity.kt:278-295 | while locked, the shade stays put and the device unlocks exactly when the drag amount is below -200. While unlocked, the lock never changes and the expansion takes the drag step. The expansion stays in [0, 1] |
| `SystemUi.SystemUiComposeDemo.OnBiometric` | app/src/main/java/com/Francis/systemuicomposedemo/MainActivity.kt:346 | the biometric button unlocks |
| `SystemUi.SystemUiComposeDemo.OnHome` | app/src/main/java/com/Francis/systemuicomposedemo/MainActivity.kt:337 | the Home button locks |
| `SystemUi.SystemUiComposeDemo.OnRecents` | app/src/main/java/com/Francis/systemuicomposedemo/MainActivity.kt:338 | Recents is shown; nothing else changes |
| `SystemUi.SystemUiComposeDemo.OnCloseRecents` | app/src/main/java/com/Francis/systemuicomposedemo/MainActivity.kt:326 | Recents is hidden; nothing else changes |
| `SystemUi.SystemUiComposeDemo.OnSplit` | app/src/main/java/com/Francis/systemuicomposedemo/MainActivity.kt:327-330 | the chosen task becomes the split task, so the split overlay shows, and Recents is hidden |
| `SystemUi.SystemUiComposeDemo.OnExitSplit` | app/src/main/java/com/Francis/systemuicomposedemo/MainActivity.kt:332 | the split task is cleared, so the split overlay is gone |
| `SystemUi.SystemUiComposeDemo.OnShowVolume` | app/src/main/java/com/Francis/systemuicomposedemo/MainActivity.kt:340 | the volume dialog is shown; nothing else changes |
| `SystemUi.SystemUiComposeDemo.OnDismissVolume` | app/src/main/java/com/Francis/systemuicomposedemo/MainActivity.kt:321 | the volume dialog is hidden; nothing else changes |
| `SystemUi.SystemUiComposeDemo.OnVolumeChange` | app/src/main/java/com/Francis/systemuicomposedemo/MainActivity.kt:321 | the slider's value is stored as the volume level |
| `SystemUi.SystemUiComposeDemo.ShowSplit` | app/src/main/java/com/Francis/systemuicomposedemo/MainActivity.kt:260 | the split-screen overlay is shown exactly while a task is chosen for it |
| `SystemUi.SystemUiComposeDemo.AnimationTarget` | app/src/main/java/com/Francis/systemuicomposedemo/MainActivity.kt:250 | the root's shade animates toward 0 while the keyguard is locked and toward the current expansion otherwise |
| `SystemUi.SystemUiComposeDemo.OnShowPower` | app/src/main/java/com/Francis/systemuicomposedemo/MainActivity.kt:339 | the power menu is shown; nothing else changes |
| `SystemUi.SystemUiComposeDemo.OnDismissPower` | app/src/main/java/com/Francis/systemuicomposedemo/MainActivity.kt:322 | the power menu is hidden; nothing else changes |
| `SystemUi.SystemUiComposeDemo.OnTriggerHeadsUp` | app/src/main/java/com/Francis/systemuicomposedemo/MainActivity.kt:301 | the heads-up banner shows "New Message from Jane!" |
| `SystemUi.SystemUiComposeDemo.OnNotificationDragEnd` | app/src/main/java/com/Francis/systemuicomposedemo/MainActivity.kt:510-518 | releasing a card past 300 px removes its notification's id from the shade; otherwise the list is unchanged and the card returns to 0. The tiles are untouched and the invariants are kept |
| `SystemUi.SystemUiComposeDemo.OnTaskCardDrag` | app/src/main/java/com/Francis/systemuicomposedemo/MainActivity.kt:605-612 | a drag event below -150 removes the card's task id from Recents; otherwise Recents is unchanged. The invariants are kept |

## Left out

- Compose rendering, layout, theming, previews and `MainActivity.onCreate` are not modelled: they are toolkit calls with no state of their own. `ui/theme/Color.kt` holds only colour constants.
- Spring animations (`animateFloatAsState`, `Animatable.snapTo` / `animateTo`) are not modelled. `SystemUiComposeDemo.AnimationTarget` is the value the shade settles at. A low-bouncy spring can overshoot [0, 1] on the way, and the model does not capture that.
- Gesture recognition (`pointerInput`, `detect*DragGestures`) and the coroutines the callbacks launch are left out. Each callback is a method that is given its drag amount. The detector that `pointerInput(isLocked)` restarts is modelled as reading the current lock flag.
- The heads-up banner's 3-second auto-dismiss (`LaunchedEffect` with `delay`) is not modelled, because it is a timer. Only raising the banner is.
- `StateFlow` and `collectAsState` are not modelled. The state holders' fields are read directly.
- Icons and colours are opaque payloads: an icon name and an ARGB number.
- Floats are modelled as `real`. NaN, infinities and rounding are not modelled.
- `SystemUi.SystemUiComposeDemo.OnVerticalDrag` requires a positive screen height. A zero-height box receives no drag events, and in floats the division would give an infinity or NaN.
- `SystemUi.SystemUiComposeDemo.OnVerticalDrag` uses the corrected drag step (`Gestures.DraggedExpansion`), not the step as written. The step as written is `Gestures.DraggedExpansionAsWritten`; see Findings.
- Kotlin `Int` ids are 32-bit, and the model uses unbounded `int`. Ids are only compared, never computed, so this makes no difference.
- PowerMenu's local `showSafeMode` flag, which a long press sets and which only reveals a button with an empty handler, is not modelled.
- The power menu's three buttons have empty handlers, and the navigation bar's Back callback is empty (MainActivity.kt:336); they change no state and are not modelled.
- The task card inside the split overlay has empty callbacks, so dragging it changes nothing in the model. It is not modelled separately.
- The unlock and task-dismiss thresholds apply to a single drag event's amount, not to the distance dragged so far. This is modelled as written.

## Findings

| source | as written | input that shows it | evidently intended | confidence | as-written member | corrected member |
|---|---|---|---|---|---|---|
| app/src/main/java/com/Francis/systemuicomposedemo/MainActivity.kt:283-285 | `expansion = (expansion - dragAmount / size.height).coerceIn(0f, 1f)`: the downward drag is subtracted | closed shade (expansion 0), finger moves down by `dragAmount = 100` on a 1000 px screen: expansion stays 0. From 0.5 the same drag gives 0.4. A downward swipe closes the shade, and only an upward swipe opens it | the comment on line 280 says a downward drag expands the shade. The unlock rule on line 290 treats a negative drag amount as upward. So the step should add the drag: `expansion + dragAmount / height` | high; not executed | `Gestures.DownwardDragClosesShadeAsWritten` | `Gestures.DownwardDragOpensShade` |
