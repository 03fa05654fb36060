/**
 * The settings page (`Settings`): the `settings` record of three sections,
 * the three handlers that copy it with one field of one section replaced,
 * the password-visibility flags and the tab. The simulated save is not part
 * of this model.
 */
module SettingsRoute {
  datatype ProfileSettings = ProfileSettings(
    name: string,
    email: string,
    currentPassword: string,
    newPassword: string,
    confirmPassword: string)

  datatype NotificationSettings = NotificationSettings(
    emailNotifications: bool,
    pushNotifications: bool,
    newReleases: bool,
    recommendations: bool,
    watchlistUpdates: bool)

  /** `theme` and `quality` hold whatever the buttons and the select pass. */
  datatype Preferences = Preferences(
    theme: string,
    language: string,
    autoplay: bool,
    quality: string,
    subtitles: bool,
    subtitleLanguage: string)

  datatype UserSettings = UserSettings(
    profile: ProfileSettings,
    notifications: NotificationSettings,
    preferences: Preferences)

  /** The `field` names the profile inputs pass. */
  datatype ProfileField = Name | Email | CurrentPassword | NewPassword | ConfirmPassword

  /** The `field` names the notification toggles pass. */
  datatype NotificationField = EmailNotifications | PushNotifications | NewReleases | Recommendations | WatchlistUpdates

  /** The `field` names the preference controls pass. */
  datatype PreferenceField = Theme | Language | Autoplay | Quality | Subtitles | SubtitleLanguage

  /** A preference value: the text of a select or button, or a switch. */
  datatype PreferenceValue = Text(text: string) | Switch(on: bool)

  datatype Tab = ProfileTab | NotificationsTab | PreferencesTab

  /** The three password-visibility flags. */
  datatype PasswordVisibility = PasswordVisibility(current: bool, newShown: bool, confirm: bool)

  datatype PasswordField = Current | New | Confirm

  const InitialSettings: UserSettings := UserSettings(
    ProfileSettings("John Doe", "john.doe@example.com", "", "", ""),
    NotificationSettings(true, true, true, false, true),
    Preferences("dark", "en", true, "auto", false, "en"))

  function ProfileValue(p: ProfileSettings, f: ProfileField): string {
    match f
    case Name => p.name
    case Email => p.email
    case CurrentPassword => p.currentPassword
    case NewPassword => p.newPassword
    case ConfirmPassword => p.confirmPassword
  }

  function NotificationValue(n: NotificationSettings, f: NotificationField): bool {
    match f
    case EmailNotifications => n.emailNotifications
    case PushNotifications => n.pushNotifications
    case NewReleases => n.newReleases
    case Recommendations => n.recommendations
    case WatchlistUpdates => n.watchlistUpdates
  }

  function PreferenceValueOf(p: Preferences, f: PreferenceField): PreferenceValue {
    match f
    case Theme => Text(p.theme)
    case Language => Text(p.language)
    case Autoplay => Switch(p.autoplay)
    case Quality => Text(p.quality)
    case Subtitles => Switch(p.subtitles)
    case SubtitleLanguage => Text(p.subtitleLanguage)
  }

  /** A value of the kind the field holds. */
  predicate Fits(f: PreferenceField, v: PreferenceValue) {
    if f == Autoplay || f == Subtitles then v.Switch? else v.Text?
  }

  /** `handleProfileChange(field, value)`: a copy with that one profile field replaced. */
  function WithProfileField(s: UserSettings, f: ProfileField, v: string): (r: UserSettings)
    ensures ProfileValue(r.profile, f) == v
    ensures forall g :: g != f ==> ProfileValue(r.profile, g) == ProfileValue(s.profile, g)
    ensures r.notifications == s.notifications && r.preferences == s.preferences
  {
    var p := s.profile;
    var p' := match f
      case Name => p.(name := v)
      case Email => p.(email := v)
      case CurrentPassword => p.(currentPassword := v)
      case NewPassword => p.(newPassword := v)
      case ConfirmPassword => p.(confirmPassword := v);
    s.(profile := p')
  }

  /** `handleNotificationChange(field, value)`: a copy with that one flag replaced. */
  function WithNotification(s: UserSettings, f: NotificationField, v: bool): (r: UserSettings)
    ensures NotificationValue(r.notifications, f) == v
    ensures forall g :: g != f ==> NotificationValue(r.notifications, g) == NotificationValue(s.notifications, g)
    ensures r.profile == s.profile && r.preferences == s.preferences
  {
    var n := s.notifications;
    var n' := match f
      case EmailNotifications => n.(emailNotifications := v)
      case PushNotifications => n.(pushNotifications := v)
      case NewReleases => n.(newReleases := v)
      case Recommendations => n.(recommendations := v)
      case WatchlistUpdates => n.(watchlistUpdates := v);
    s.(notifications := n')
  }

  /** `handlePreferenceChange(field, value)`: a copy with that one preference replaced. */
  function WithPreference(s: UserSettings, f: PreferenceField, v: PreferenceValue): (r: UserSettings)
    requires Fits(f, v)
    ensures PreferenceValueOf(r.preferences, f) == v
    ensures forall g :: g != f ==> PreferenceValueOf(r.preferences, g) == PreferenceValueOf(s.preferences, g)
    ensures r.profile == s.profile && r.notifications == s.notifications
  {
    var p := s.preferences;
    var p' := match f
      case Theme => p.(theme := v.text)
      case Language => p.(language := v.text)
      case Autoplay => p.(autoplay := v.on)
      case Quality => p.(quality := v.text)
      case Subtitles => p.(subtitles := v.on)
      case SubtitleLanguage => p.(subtitleLanguage := v.text);
    s.(preferences := p')
  }

  /** A toggle button passes the negation of the flag it shows. */
  function ToggleNotification(s: UserSettings, f: NotificationField): (r: UserSettings)
    ensures NotificationValue(r.notifications, f) == !NotificationValue(s.notifications, f)
    ensures forall g :: g != f ==> NotificationValue(r.notifications, g) == NotificationValue(s.notifications, g)
    ensures r.profile == s.profile && r.preferences == s.preferences
  {
    WithNotification(s, f, !NotificationValue(s.notifications, f))
  }

  /** Pressing the same notification toggle twice restores the settings. */
  lemma ToggleNotificationTwice(s: UserSettings, f: NotificationField)
    ensures ToggleNotification(ToggleNotification(s, f), f) == s
  {
    var t := ToggleNotification(ToggleNotification(s, f), f);
    assert forall g :: NotificationValue(t.notifications, g) == NotificationValue(s.notifications, g);
    assert NotificationValue(t.notifications, EmailNotifications) == s.notifications.emailNotifications;
    assert NotificationValue(t.notifications, PushNotifications) == s.notifications.pushNotifications;
    assert NotificationValue(t.notifications, NewReleases) == s.notifications.newReleases;
    assert NotificationValue(t.notifications, Recommendations) == s.notifications.recommendations;
    assert NotificationValue(t.notifications, WatchlistUpdates) == s.notifications.watchlistUpdates;
  }

  function Shown(v: PasswordVisibility, f: PasswordField): bool {
    match f
    case Current => v.current
    case New => v.newShown
    case Confirm => v.confirm
  }

  /** An eye button: `{ ...prev, [field]: !prev[field] }`. */
  function FlipShown(v: PasswordVisibility, f: PasswordField): (r: PasswordVisibility)
    ensures Shown(r, f) == !Shown(v, f)
    ensures forall g :: g != f ==> Shown(r, g) == Shown(v, g)
  {
    match f
    case Current => v.(current := !v.current)
    case New => v.(newShown := !v.newShown)
    case Confirm => v.(confirm := !v.confirm)
  }

  /** Pressing the same eye button twice restores the three flags. */
  lemma FlipShownTwice(v: PasswordVisibility, f: PasswordField)
    ensures FlipShown(FlipShown(v, f), f) == v
  {
    var t := FlipShown(FlipShown(v, f), f);
    assert Shown(t, Current) == v.current && Shown(t, New) == v.newShown && Shown(t, Confirm) == v.confirm;
  }

  /** The state of `Settings` apart from the simulated save. */
  class SettingsPage {
    var activeTab: Tab
    var showPasswords: PasswordVisibility
    var settings: UserSettings

    constructor()
      ensures activeTab == ProfileTab
      ensures showPasswords == PasswordVisibility(false, false, false)
      ensures settings == InitialSettings
    {
      activeTab := ProfileTab;
      showPasswords := PasswordVisibility(false, false, false);
      settings := InitialSettings;
    }

    method HandleProfileChange(f: ProfileField, v: string)
      modifies this
      ensures settings == WithProfileField(old(settings), f, v)
      ensures unchanged(this`activeTab, this`showPasswords)
    {
      settings := WithProfileField(settings, f, v);
    }

    method HandleNotificationChange(f: NotificationField, v: bool)
      modifies this
      ensures settings == WithNotification(old(settings), f, v)
      ensures unchanged(this`activeTab, this`showPasswords)
    {
      settings := WithNotification(settings, f, v);
    }

    method HandlePreferenceChange(f: PreferenceField, v: PreferenceValue)
      requires Fits(f, v)
      modifies this
      ensures settings == WithPreference(old(settings), f, v)
      ensures unchanged(this`activeTab, this`showPasswords)
    {
      settings := WithPreference(settings, f, v);
    }

    /** An eye button next to a password input. */
    method TogglePassword(f: PasswordField)
      modifies this
      ensures showPasswords == FlipShown(old(showPasswords), f)
      ensures unchanged(this`activeTab, this`settings)
    {
      showPasswords := FlipShown(showPasswords, f);
    }

    /** The three tab buttons. */
    method SetActiveTab(tab: Tab)
      modifies this
      ensures activeTab == tab
      ensures unchanged(this`showPasswords, this`settings)
    {
      activeTab := tab;
    }
  }
}
