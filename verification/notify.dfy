/** The indicator's notification level and tray icon, as a state machine.

    The level setter, `Notify` and `NotifyNoConnection` are stated here from the
    behaviour their unit tests require of them: the level setter only accepts one of
    the three declared levels; `Notify` changes the tray icon only when notifications
    are not off and the requested icon is a real one. What `Notify` shows on the desktop
    (title, message, notification icon) is not part of this model. */
module Notify {

  datatype NotifyLevel = NotifyLevelOff | NotifyLevelMin | NotifyLevelMax

  /** A level argument: one of the declared levels, or any other value (such as -1). */
  datatype LevelArg = Level(level: NotifyLevel) | UndeclaredLevel

  /** The tray icons the rule distinguishes; `IconLiqoNil` stands for "no icon". */
  datatype Icon = IconLiqoMain | IconLiqoOrange | IconLiqoNoConn | IconLiqoWarning | IconLiqoNil

  /** An icon argument: one of the declared icons, or any other value (such as -1). */
  datatype IconArg = IconValue(icon: Icon) | UndeclaredIcon

  /** The icon shown inside the desktop notification; it never affects the tray icon. */
  datatype NotifyIcon = NotifyIconNil | NotifyIconDefault | NotifyIconError | NotifyIconWarning | NotifyIconWhite

  datatype Indicator = Indicator(notifyLevel: NotifyLevel, icon: Icon)

  /** An icon argument `Notify` may display. */
  predicate Displayable(arg: IconArg) {
    arg.IconValue? && arg.icon != IconLiqoNil
  }

  /** A fresh indicator shows the main icon; its initial level is a parameter. */
  function NewIndicator(level: NotifyLevel): (i: Indicator)
    ensures i.icon == IconLiqoMain && i.notifyLevel == level
  {
    Indicator(level, IconLiqoMain)
  }

  /** `NotificationSetLevel`: a declared level is stored, anything else is refused. */
  function NotificationSetLevel(ind: Indicator, arg: LevelArg): (r: Indicator)
    ensures arg.Level? ==> r.notifyLevel == arg.level
    ensures arg.UndeclaredLevel? ==> r == ind
    ensures r.icon == ind.icon
  {
    match arg
    case Level(l) => ind.(notifyLevel := l)
    case UndeclaredLevel => ind
  }

  /** `Notify` as far as the tray icon goes. */
  function Notify(ind: Indicator, notifyIcon: NotifyIcon, indicatorIcon: IconArg): (r: Indicator)
    ensures r.notifyLevel == ind.notifyLevel
    ensures ind.notifyLevel == NotifyLevelOff ==> r == ind
    ensures !Displayable(indicatorIcon) ==> r == ind
    ensures ind.notifyLevel != NotifyLevelOff && Displayable(indicatorIcon) ==> r.icon == indicatorIcon.icon
  {
    if ind.notifyLevel != NotifyLevelOff && Displayable(indicatorIcon) then ind.(icon := indicatorIcon.icon)
    else ind
  }

  /** `NotifyNoConnection`: a warning notification that turns the tray icon to the
      warning icon. */
  function NotifyNoConnection(ind: Indicator): (r: Indicator)
    ensures r.notifyLevel == ind.notifyLevel
    ensures ind.notifyLevel != NotifyLevelOff ==> r.icon == IconLiqoWarning
    ensures ind.notifyLevel == NotifyLevelOff ==> r == ind
  {
    Notify(ind, NotifyIconWarning, IconValue(IconLiqoWarning))
  }

  /** Repeating a `Notify` call changes nothing further. */
  lemma NotifyIdempotent(ind: Indicator, notifyIcon: NotifyIcon, indicatorIcon: IconArg)
    ensures Notify(Notify(ind, notifyIcon, indicatorIcon), notifyIcon, indicatorIcon)
         == Notify(ind, notifyIcon, indicatorIcon)
  {
  }

  /** The icon `Notify` leaves does not depend on the notification icon. */
  lemma NotifyIgnoresNotifyIcon(ind: Indicator, a: NotifyIcon, b: NotifyIcon, indicatorIcon: IconArg)
    ensures Notify(ind, a, indicatorIcon) == Notify(ind, b, indicatorIcon)
  {
  }

  /** The sequence of calls of the level-setter test, on any starting indicator. */
  lemma SetLevelScenario(ind: Indicator)
    ensures var i1 := NotificationSetLevel(ind, Level(NotifyLevelOff));
            var i2 := NotificationSetLevel(i1, Level(NotifyLevelMin));
            var i3 := NotificationSetLevel(i2, Level(NotifyLevelMax));
            var i4 := NotificationSetLevel(i3, UndeclaredLevel);
            && i1.notifyLevel == NotifyLevelOff
            && i2.notifyLevel == NotifyLevelMin
            && i3.notifyLevel == NotifyLevelMax
            && i4.notifyLevel == NotifyLevelMax
  {
  }

  /** The sequence of calls of the `Notify` test, from a fresh indicator. */
  lemma NotifyScenario(level: NotifyLevel)
    ensures var i0 := NewIndicator(level).(notifyLevel := NotifyLevelOff);
            var i1 := Notify(i0, NotifyIconNil, IconValue(IconLiqoOrange));
            var i2 := Notify(i1.(notifyLevel := NotifyLevelMin), NotifyIconError, IconValue(IconLiqoOrange));
            var i3 := Notify(i2, NotifyIconWarning, IconValue(IconLiqoNil));
            var i4 := Notify(i3.(notifyLevel := NotifyLevelMax), NotifyIconDefault, IconValue(IconLiqoNoConn));
            var i5 := Notify(i4, NotifyIconWhite, IconValue(IconLiqoNil));
            var i6 := Notify(i5, NotifyIconNil, UndeclaredIcon);
            && i1.icon == IconLiqoMain
            && i2.icon == IconLiqoOrange
            && i3.icon == IconLiqoOrange
            && i4.icon == IconLiqoNoConn
            && i5.icon == IconLiqoNoConn
            && i6.icon == IconLiqoNoConn
  {
  }

  /** The `NotifyNoConnection` test: a fresh indicator whose level is not off turns to
      the warning icon. */
  lemma NotifyNoConnectionScenario(level: NotifyLevel)
    requires level != NotifyLevelOff
    ensures NotifyNoConnection(NewIndicator(level)).icon == IconLiqoWarning
  {
  }

  /** `NotifyNoConnection` is a `Notify` with the warning icon as tray icon. */
  lemma NotifyNoConnectionIsWarningNotify(ind: Indicator, notifyIcon: NotifyIcon)
    ensures NotifyNoConnection(ind) == Notify(ind, notifyIcon, IconValue(IconLiqoWarning))
  {
  }

  /** Once the level is set to Off, no notification changes the indicator. */
  lemma LevelOffSilencesNotify(ind: Indicator, notifyIcon: NotifyIcon, indicatorIcon: IconArg)
    ensures var off := NotificationSetLevel(ind, Level(NotifyLevelOff));
            && Notify(off, notifyIcon, indicatorIcon) == off
            && NotifyNoConnection(off) == off
  {
  }

  /** Once the level is set to Min or Max, a displayable icon is shown and a
      no-connection notification shows the warning icon. */
  lemma LevelOnShowsIcon(ind: Indicator, level: NotifyLevel, notifyIcon: NotifyIcon, indicatorIcon: IconArg)
    requires level != NotifyLevelOff && Displayable(indicatorIcon)
    ensures var on := NotificationSetLevel(ind, Level(level));
            && Notify(on, notifyIcon, indicatorIcon).icon == indicatorIcon.icon
            && NotifyNoConnection(on).icon == IconLiqoWarning
  {
  }

  /** A second no-connection notification changes nothing further. */
  lemma NotifyNoConnectionIdempotent(ind: Indicator)
    ensures NotifyNoConnection(NotifyNoConnection(ind)) == NotifyNoConnection(ind)
  {
  }
}
