/**
 * The settings screen: five notification switches, each flipping one flag
 * of the notification record, two theme buttons, and language and time-zone
 * drop-downs. `Toggled` is the record update; `Settings` is the screen's state.
 */
module SettingsPage {

  /** The five switches, by the key each passes to the change handler. */
  datatype NotificationKey = EmailAlerts | SmsAlerts | PushNotifications | WeeklyReports | SystemUpdates

  datatype Notifications = Notifications(
    emailAlerts: bool,
    smsAlerts: bool,
    pushNotifications: bool,
    weeklyReports: bool,
    systemUpdates: bool)

  /** `notifications[key]`. */
  function Flag(n: Notifications, k: NotificationKey): bool {
    match k
    case EmailAlerts => n.emailAlerts
    case SmsAlerts => n.smsAlerts
    case PushNotifications => n.pushNotifications
    case WeeklyReports => n.weeklyReports
    case SystemUpdates => n.systemUpdates
  }

  /** `{...prev, [key]: !prev[key]}`: flag `k` negated, every other flag as it was. */
  function Toggled(n: Notifications, k: NotificationKey): (r: Notifications)
    ensures Flag(r, k) == !Flag(n, k)
    ensures forall j :: j != k ==> Flag(r, j) == Flag(n, j)
  {
    match k
    case EmailAlerts => n.(emailAlerts := !n.emailAlerts)
    case SmsAlerts => n.(smsAlerts := !n.smsAlerts)
    case PushNotifications => n.(pushNotifications := !n.pushNotifications)
    case WeeklyReports => n.(weeklyReports := !n.weeklyReports)
    case SystemUpdates => n.(systemUpdates := !n.systemUpdates)
  }

  /** Two records with the same five flags are the same record. */
  lemma FlagsDetermineRecord(n: Notifications, m: Notifications)
    requires forall k :: Flag(n, k) == Flag(m, k)
    ensures n == m
  {
    assert Flag(n, EmailAlerts) == Flag(m, EmailAlerts);
    assert Flag(n, SmsAlerts) == Flag(m, SmsAlerts);
    assert Flag(n, PushNotifications) == Flag(m, PushNotifications);
    assert Flag(n, WeeklyReports) == Flag(m, WeeklyReports);
    assert Flag(n, SystemUpdates) == Flag(m, SystemUpdates);
  }

  /** Flipping the same switch twice restores the record. */
  lemma ToggleTwiceRestores(n: Notifications, k: NotificationKey)
    ensures Toggled(Toggled(n, k), k) == n
  {
    FlagsDetermineRecord(Toggled(Toggled(n, k), k), n);
  }

  /** Flipping two switches gives the same record in either order. */
  lemma TogglesCommute(n: Notifications, j: NotificationKey, k: NotificationKey)
    ensures Toggled(Toggled(n, j), k) == Toggled(Toggled(n, k), j)
  {
    FlagsDetermineRecord(Toggled(Toggled(n, j), k), Toggled(Toggled(n, k), j));
  }

  const InitialNotifications: Notifications := Notifications(true, true, false, true, true)

  /** Every switch starts on except push notifications. */
  lemma InitialFlags(k: NotificationKey)
    ensures Flag(InitialNotifications, k) <==> k != PushNotifications
  {
  }

  /** The two theme buttons and the theme value each one sets. */
  datatype ThemeButton = LightButton | DarkButton

  function ThemeValue(b: ThemeButton): string {
    match b
    case LightButton => "light"
    case DarkButton => "dark"
  }

  /** A theme button is highlighted while the theme equals its value. */
  predicate ThemeButtonSelected(theme: string, b: ThemeButton) {
    theme == ThemeValue(b)
  }

  /** After pressing a theme button, that button and only that one is highlighted. */
  lemma PressedThemeButtonAloneSelected(pressed: ThemeButton, b: ThemeButton)
    ensures ThemeButtonSelected(ThemeValue(pressed), b) <==> b == pressed
  {
    assert "light"[0] != "dark"[0];
  }

  const LanguageOptions: seq<string> := ["English", "Hausa", "Yoruba", "Igbo"]
  const TimezoneOptions: seq<string> := ["Africa/Lagos", "UTC"]

  /** The screen's state. */
  class Settings {
    var notifications: Notifications
    var theme: string
    var language: string
    var timezone: string

    /** The theme is one of the two button values, and the drop-downs hold one of their options. */
    ghost predicate Valid()
      reads this
    {
      && (theme == ThemeValue(LightButton) || theme == ThemeValue(DarkButton))
      && language in LanguageOptions
      && timezone in TimezoneOptions
    }

    constructor ()
      ensures Valid()
      ensures notifications == InitialNotifications
      ensures theme == "light" && language == "English" && timezone == "Africa/Lagos"
    {
      notifications := InitialNotifications;
      theme := "light";
      language := "English";
      timezone := "Africa/Lagos";
    }

    /** `handleNotificationChange(key)`: one switch. */
    method HandleNotificationChange(k: NotificationKey)
      requires Valid()
      modifies this
      ensures Valid()
      ensures notifications == Toggled(old(notifications), k)
      ensures theme == old(theme) && language == old(language) && timezone == old(timezone)
    {
      notifications := Toggled(notifications, k);
    }

    /** A theme button. */
    method PressThemeButton(b: ThemeButton)
      requires Valid()
      modifies this
      ensures Valid()
      ensures theme == ThemeValue(b)
      ensures forall other :: ThemeButtonSelected(theme, other) <==> other == b
      ensures notifications == old(notifications) && language == old(language) && timezone == old(timezone)
    {
      theme := ThemeValue(b);
      forall other
        ensures ThemeButtonSelected(theme, other) <==> other == b
      {
        PressedThemeButtonAloneSelected(b, other);
      }
    }

    /** The language drop-down, which offers only its four options. */
    method SetLanguage(l: string)
      requires Valid() && l in LanguageOptions
      modifies this
      ensures Valid()
      ensures language == l
      ensures notifications == old(notifications) && theme == old(theme) && timezone == old(timezone)
    {
      language := l;
    }

    /** The time-zone drop-down, which offers only its two options. */
    method SetTimezone(z: string)
      requires Valid() && z in TimezoneOptions
      modifies this
      ensures Valid()
      ensures timezone == z
      ensures notifications == old(notifications) && theme == old(theme) && language == old(language)
    {
      timezone := z;
    }
  }
}
