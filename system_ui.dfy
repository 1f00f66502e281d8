/** The state that the root composable `SystemUIComposeDemo` remembers,
    together with the callbacks that update it, and the swipe-to-dismiss
    cards of the shade and of Recents. Each callback is a method; what it
    decides is given by the rules of `Gestures`, what it does to a list by
    the functions of `ViewModels` and `Lists`. */
module SystemUi {
  import opened Lists
  import opened Entities
  import opened ViewModels
  import opened Gestures

  datatype Option<T> = None | Some(value: T)

  /** The text of the heads-up banner the home screen's button raises. */
  const HeadsUpMessage: string := "New Message from Jane!"

  /** A notification in the shade, with its horizontal swipe offset. */
  class NotificationCard {
    const notification: Notification
    var offsetX: real

    constructor (notification: Notification)
      ensures this.notification == notification && offsetX == 0.0
    {
      this.notification := notification;
      offsetX := 0.0;
    }

    /** The card follows the finger. */
    method OnHorizontalDrag(dragAmount: real)
      modifies this
      ensures offsetX == old(offsetX) + dragAmount
    {
      offsetX := offsetX + dragAmount;
    }

    /** On release the card is dismissed past the threshold; otherwise it
        springs back to its place. */
    method OnDragEnd() returns (dismiss: bool)
      modifies this
      ensures dismiss == ReleaseDismissesNotification(old(offsetX))
      ensures offsetX == if dismiss then old(offsetX) else 0.0
    {
      dismiss := ReleaseDismissesNotification(offsetX);
      if !dismiss {
        offsetX := 0.0;
      }
    }
  }

  /** A task in Recents, with its vertical swipe offset. */
  class TaskCard {
    const task: Task
    var offsetY: real

    constructor (task: Task)
      ensures this.task == task && offsetY == 0.0
    {
      this.task := task;
      offsetY := 0.0;
    }

    /** The card follows the finger, and each single drag event that moves
        far enough up asks for the task to be dismissed. */
    method OnVerticalDrag(dragAmount: real) returns (dismiss: bool)
      modifies this
      ensures offsetY == old(offsetY) + dragAmount
      ensures dismiss == SwipeDismissesTask(dragAmount)
    {
      offsetY := offsetY + dragAmount;
      dismiss := SwipeDismissesTask(dragAmount);
    }
  }

  /** The root of the demo: its four state holders and its transient flags. */
  class SystemUiComposeDemo {
    const keyguard: KeyguardViewModel
    const shade: ShadeViewModel
    const recents: RecentsViewModel
    const volume: VolumeViewModel
    var expansion: real
    var showVolume: bool
    var showPower: bool
    var showRecents: bool
    var splitScreenTask: Option<Task>
    var headsUp: Option<string>

    /** The shade's expansion stays within [0, 1]; names and ids stay unique. */
    ghost predicate Valid()
      reads this, shade, recents
    {
      0.0 <= expansion <= 1.0 && shade.Valid() && recents.Valid()
    }

    /** The split-screen overlay is shown exactly while a task is chosen. */
    function ShowSplit(): (shown: bool)
      reads this
      ensures shown <==> splitScreenTask != None
    {
      splitScreenTask.Some?
    }

    /** What the shade animates toward: closed while locked, the expansion
        otherwise. */
    function AnimationTarget(): (target: real)
      reads this, keyguard
      ensures keyguard.isLocked ==> target == 0.0
      ensures !keyguard.isLocked ==> target == expansion
    {
      ShadeTarget(keyguard.isLocked, expansion)
    }

    /** Starts locked, with the seed lists, the shade closed and nothing
        else shown. */
    constructor ()
      ensures fresh(keyguard) && fresh(shade) && fresh(recents) && fresh(volume)
      ensures keyguard.isLocked && volume.volumeLevel == 0.5
      ensures shade.quickSettings == InitialQuickSettings()
      ensures shade.notifications == InitialNotifications()
      ensures recents.tasks == InitialTasks()
      ensures expansion == 0.0 && !showVolume && !showPower && !showRecents
      ensures splitScreenTask == None && headsUp == None
      ensures Valid()
    {
      keyguard := new KeyguardViewModel();
      shade := new ShadeViewModel();
      recents := new RecentsViewModel();
      volume := new VolumeViewModel();
      expansion := 0.0;
      showVolume, showPower, showRecents := false, false, false;
      splitScreenTask, headsUp := None, None;
    }

    /** One vertical drag event on the screen. Unlocked, it moves the shade
        (the intended drag step; see `DraggedExpansionAsWritten` for the
        step as written) and never touches the lock. Locked, it leaves the
        shade alone and unlocks past the swipe threshold. */
    method OnVerticalDrag(dragAmount: real, height: real)
      requires height > 0.0
      modifies this`expansion, keyguard
      ensures old(keyguard.isLocked) ==>
        expansion == old(expansion) && keyguard.isLocked == !UnlocksKeyguard(dragAmount)
      ensures !old(keyguard.isLocked) ==>
        !keyguard.isLocked && expansion == DraggedExpansion(old(expansion), dragAmount, height)
      ensures old(Valid()) ==> Valid()
    {
      if !keyguard.isLocked {
        expansion := DraggedExpansion(expansion, dragAmount, height);
      } else if UnlocksKeyguard(dragAmount) {
        keyguard.Unlock();
      }
    }

    /** The lock screen's simulated biometric unlock. */
    method OnBiometric()
      modifies keyguard
      ensures !keyguard.isLocked
    {
      keyguard.Unlock();
    }

    /** The navigation bar's Home button locks the device. */
    method OnHome()
      modifies keyguard
      ensures keyguard.isLocked
    {
      keyguard.Lock();
    }

    method OnRecents()
      modifies this`showRecents
      ensures showRecents
    {
      showRecents := true;
    }

    method OnCloseRecents()
      modifies this`showRecents
      ensures !showRecents
    {
      showRecents := false;
    }

    /** Choosing split on a task shows it in the split overlay and hides Recents. */
    method OnSplit(task: Task)
      modifies this`splitScreenTask, this`showRecents
      ensures splitScreenTask == Some(task) && ShowSplit()
      ensures !showRecents
    {
      splitScreenTask := Some(task);
      showRecents := false;
    }

    method OnExitSplit()
      modifies this`splitScreenTask
      ensures splitScreenTask == None && !ShowSplit()
    {
      splitScreenTask := None;
    }

    method OnShowVolume()
      modifies this`showVolume
      ensures showVolume
    {
      showVolume := true;
    }

    method OnDismissVolume()
      modifies this`showVolume
      ensures !showVolume
    {
      showVolume := false;
    }

    /** The volume slider passes its value straight to the state holder. */
    method OnVolumeChange(level: real)
      modifies volume
      ensures volume.volumeLevel == level
    {
      volume.SetVolume(level);
    }

    method OnShowPower()
      modifies this`showPower
      ensures showPower
    {
      showPower := true;
    }

    method OnDismissPower()
      modifies this`showPower
      ensures !showPower
    {
      showPower := false;
    }

    method OnTriggerHeadsUp()
      modifies this`headsUp
      ensures headsUp == Some(HeadsUpMessage)
    {
      headsUp := Some(HeadsUpMessage);
    }

    /** Releasing a notification card past the threshold dismisses its
        notification from the shade; otherwise the shade is unchanged. */
    method OnNotificationDragEnd(card: NotificationCard)
      modifies card, shade
      ensures card.offsetX == if ReleaseDismissesNotification(old(card.offsetX)) then old(card.offsetX) else 0.0
      ensures shade.notifications ==
        if ReleaseDismissesNotification(old(card.offsetX))
        then WithoutKey(old(shade.notifications), NotificationId, card.notification.id)
        else old(shade.notifications)
      ensures shade.quickSettings == old(shade.quickSettings)
      ensures old(Valid()) ==> Valid()
    {
      var dismiss := card.OnDragEnd();
      if dismiss {
        shade.DismissNotification(card.notification.id);
      }
    }

    /** A drag event on a task card past the threshold dismisses its task
        from Recents; otherwise Recents is unchanged. */
    method OnTaskCardDrag(card: TaskCard, dragAmount: real)
      modifies card, recents
      ensures card.offsetY == old(card.offsetY) + dragAmount
      ensures recents.tasks ==
        if SwipeDismissesTask(dragAmount)
        then WithoutKey(old(recents.tasks), TaskId, card.task.id)
        else old(recents.tasks)
      ensures old(Valid()) ==> Valid()
    {
      var dismiss := card.OnVerticalDrag(dragAmount);
      if dismiss {
        recents.DismissTask(card.task.id);
      }
    }
  }
}
