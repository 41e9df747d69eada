/** What the lock state shows: the settings panel and the lock button. */
module LockView {
  import opened SettingsStore

  datatype Icon = LockIcon | UnlockIcon

  /** The lock button: its icon and the message key of its tooltip. */
  datatype LockButton = LockButton(icon: Icon, tooltipKey: string)

  /** The settings panel carries the `visible` class exactly when unlocked. */
  function PanelVisible(s: Settings): (visible: bool)
    ensures visible <==> !s.locked
  {
    !s.locked
  }

  /** Locked: the closed padlock, offering to unlock. Unlocked: the open
      padlock, offering to lock. */
  function ButtonFor(s: Settings): (b: LockButton)
    ensures b.icon == LockIcon <==> s.locked
    ensures b.tooltipKey == "unlockTooltip" <==> s.locked
    ensures b.tooltipKey == "lockTooltip" <==> !s.locked
  {
    if s.locked then LockButton(LockIcon, "unlockTooltip")
    else LockButton(UnlockIcon, "lockTooltip")
  }

  /** Toggling the lock flips the panel and the button, and the button always
      offers the action that undoes the current state: the panel is visible
      exactly when the button shows the open padlock. */
  lemma ToggleLockView(s: Settings)
    ensures PanelVisible(ToggleLock(s)) == !PanelVisible(s)
    ensures ButtonFor(ToggleLock(s)) != ButtonFor(s)
    ensures ButtonFor(ToggleLock(ToggleLock(s))) == ButtonFor(s)
    ensures PanelVisible(s) <==> ButtonFor(s).icon == UnlockIcon
  {
  }

  /** The panel and the button read only the lock flag. */
  lemma ViewReadsOnlyLocked(a: Settings, b: Settings)
    ensures a.locked == b.locked <==> PanelVisible(a) == PanelVisible(b)
    ensures a.locked == b.locked <==> ButtonFor(a) == ButtonFor(b)
  {
  }
}
