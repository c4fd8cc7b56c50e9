/** The settings page's state records and the handlers that replace them:
    collapsible sections, notification switches and preferences. Each
    handler changes one key and copies the rest. */
module Settings {

  /** `sectionVisibility`, keyed by section name. */
  type Sections = map<string, bool>

  datatype Notifications = Notifications(emailUpdates: bool, courseReminders: bool,
                                         mentorMessages: bool, marketingEmails: bool)

  datatype NotificationKey = EmailUpdates | CourseReminders | MentorMessages | MarketingEmails

  datatype Preferences = Preferences(theme: string, language: string, timezone: string, visibility: string)

  /** The three account-visibility cards. */
  datatype VisibilityOption = Public | ConnectionsOnly | Private

  const SectionNames: seq<string> :=
    ["password", "twoFactor", "visibility", "connectedAccounts", "dangerZone", "appearance", "language", "learning"]

  const InitialSections: Sections := map[
    "password" := true, "twoFactor" := true, "visibility" := true, "connectedAccounts" := true,
    "dangerZone" := true, "appearance" := true, "language" := true, "learning" := true
  ]

  const InitialNotifications: Notifications := Notifications(true, true, true, false)

  const InitialPreferences: Preferences := Preferences("light", "english", "UTC", "public")

  /** `!prev[section]`: a section missing from the record reads as undefined, whose negation is true. */
  function IsOpen(sections: Sections, section: string): bool
  {
    section in sections && sections[section]
  }

  /** The updater of `toggleSection(section)`. */
  function ToggledSection(sections: Sections, section: string): (r: Sections)
    ensures section in r && r[section] == !IsOpen(sections, section)
    ensures forall k :: k != section ==> (k in r <==> k in sections)
    ensures forall k :: k != section && k in sections ==> r[k] == sections[k]
  {
    sections[section := !IsOpen(sections, section)]
  }

  /** Toggling a section that is in the record twice gives back the record. */
  lemma ToggleSectionTwice(sections: Sections, section: string)
    requires section in sections
    ensures ToggledSection(ToggledSection(sections, section), section) == sections
  {
    var twice := ToggledSection(ToggledSection(sections, section), section);
    assert twice.Keys == sections.Keys;
  }

  /** Every section starts open, and the record holds exactly the eight sections. */
  lemma AllSectionsStartOpen()
    ensures forall i :: 0 <= i < |SectionNames| ==> IsOpen(InitialSections, SectionNames[i])
    ensures forall k :: k in InitialSections <==> k in SectionNames
  {
  }

  function Notification(n: Notifications, key: NotificationKey): bool
  {
    match key
    case EmailUpdates => n.emailUpdates
    case CourseReminders => n.courseReminders
    case MentorMessages => n.mentorMessages
    case MarketingEmails => n.marketingEmails
  }

  /** The `onChange` of one notification switch. */
  function ToggledNotification(n: Notifications, key: NotificationKey): (r: Notifications)
    ensures Notification(r, key) == !Notification(n, key)
    ensures forall k :: k != key ==> Notification(r, k) == Notification(n, k)
  {
    match key
    case EmailUpdates => n.(emailUpdates := !n.emailUpdates)
    case CourseReminders => n.(courseReminders := !n.courseReminders)
    case MentorMessages => n.(mentorMessages := !n.mentorMessages)
    case MarketingEmails => n.(marketingEmails := !n.marketingEmails)
  }

  /** Flipping the same switch twice gives back the record. */
  lemma ToggleNotificationTwice(n: Notifications, key: NotificationKey)
    ensures ToggledNotification(ToggledNotification(n, key), key) == n
  {
  }

  /** Only marketing e-mails start switched off. */
  lemma InitialNotificationsState(key: NotificationKey)
    ensures Notification(InitialNotifications, key) <==> key != MarketingEmails
  {
  }

  function VisibilityValue(v: VisibilityOption): (s: string)
  {
    match v
    case Public => "public"
    case ConnectionsOnly => "connections"
    case Private => "private"
  }

  /** A visibility card's `onClick`. */
  function WithVisibility(p: Preferences, v: VisibilityOption): (r: Preferences)
    ensures r.visibility in {"public", "connections", "private"}
    ensures r.visibility == VisibilityValue(v)
    ensures r.theme == p.theme && r.language == p.language && r.timezone == p.timezone
  {
    p.(visibility := VisibilityValue(v))
  }

  /** The language select's `onChange`. */
  function WithLanguage(p: Preferences, language: string): (r: Preferences)
    ensures r.language == language
    ensures r.theme == p.theme && r.timezone == p.timezone && r.visibility == p.visibility
  {
    p.(language := language)
  }

  /** The time-zone select's `onChange`. */
  function WithTimezone(p: Preferences, timezone: string): (r: Preferences)
    ensures r.timezone == timezone
    ensures r.theme == p.theme && r.language == p.language && r.visibility == p.visibility
  {
    p.(timezone := timezone)
  }

  /** The three visibility cards set three different values. */
  lemma VisibilityOptionsDistinct(v: VisibilityOption, w: VisibilityOption)
    ensures VisibilityValue(v) == VisibilityValue(w) ==> v == w
  {
  }

  /** The settings page's state cells. */
  class SettingsPage {
    var activeTab: string
    var sectionVisibility: Sections
    var notifications: Notifications
    var preferences: Preferences

    constructor ()
      ensures activeTab == "account"
      ensures sectionVisibility == InitialSections
      ensures notifications == InitialNotifications
      ensures preferences == InitialPreferences
    {
      activeTab := "account";
      sectionVisibility := InitialSections;
      notifications := InitialNotifications;
      preferences := InitialPreferences;
    }

    /** A tab button's `onClick`. */
    method SelectTab(tab: string)
      modifies this`activeTab
      ensures activeTab == tab
    {
      activeTab := tab;
    }

    /** `toggleSection(section)`, a click on a section header. */
    method ToggleSection(section: string)
      modifies this`sectionVisibility
      ensures sectionVisibility == ToggledSection(old(sectionVisibility), section)
    {
      sectionVisibility := ToggledSection(sectionVisibility, section);
    }

    method ToggleNotification(key: NotificationKey)
      modifies this`notifications
      ensures notifications == ToggledNotification(old(notifications), key)
    {
      notifications := ToggledNotification(notifications, key);
    }

    method ChooseVisibility(v: VisibilityOption)
      modifies this`preferences
      ensures preferences == WithVisibility(old(preferences), v)
    {
      preferences := WithVisibility(preferences, v);
    }

    method SelectLanguage(language: string)
      modifies this`preferences
      ensures preferences == WithLanguage(old(preferences), language)
    {
      preferences := WithLanguage(preferences, language);
    }

    method SelectTimezone(timezone: string)
      modifies this`preferences
      ensures preferences == WithTimezone(old(preferences), timezone)
    {
      preferences := WithTimezone(preferences, timezone);
    }
  }
}
