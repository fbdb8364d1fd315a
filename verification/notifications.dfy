/** The notification settings screen: three on/off flags, each flipped by its switch. */
module Notifications {

  datatype NotificationSettings = NotificationSettings(newEvent: bool, message: bool, payment: bool)

  /** The keys of the settings record. */
  datatype NotificationKey = NewEvent | Message | Payment

  /** Every notification is on when the screen opens. */
  const InitialSettings := NotificationSettings(true, true, true)

  /** `settings[key]`. */
  function Flag(settings: NotificationSettings, key: NotificationKey): bool
  {
    match key
    case NewEvent => settings.newEvent
    case Message => settings.message
    case Payment => settings.payment
  }

  /** `toggleNotification`: a copy of the record with one flag negated. */
  function Toggle(settings: NotificationSettings, key: NotificationKey): (r: NotificationSettings)
    ensures Flag(r, key) == !Flag(settings, key)
    ensures forall k :: k != key ==> Flag(r, k) == Flag(settings, k)
  {
    match key
    case NewEvent => settings.(newEvent := !settings.newEvent)
    case Message => settings.(message := !settings.message)
    case Payment => settings.(payment := !settings.payment)
  }

  /** All three flags start on. */
  lemma InitiallyAllOn()
    ensures forall k :: Flag(InitialSettings, k)
  {
    forall k ensures Flag(InitialSettings, k) {
      match k
      case NewEvent =>
      case Message =>
      case Payment =>
    }
  }

  /** Two records with the same flags are the same record. */
  lemma FlagsDetermineSettings(a: NotificationSettings, b: NotificationSettings)
    requires forall k :: Flag(a, k) == Flag(b, k)
    ensures a == b
  {
    assert Flag(a, NewEvent) == Flag(b, NewEvent);
    assert Flag(a, Message) == Flag(b, Message);
    assert Flag(a, Payment) == Flag(b, Payment);
  }

  /** Flipping the same switch twice restores the original settings. */
  lemma ToggleTwice(settings: NotificationSettings, key: NotificationKey)
    ensures Toggle(Toggle(settings, key), key) == settings
  {
    FlagsDetermineSettings(Toggle(Toggle(settings, key), key), settings);
  }

  /** Flipping two switches gives the same settings in either order. */
  lemma TogglesCommute(settings: NotificationSettings, a: NotificationKey, b: NotificationKey)
    ensures Toggle(Toggle(settings, a), b) == Toggle(Toggle(settings, b), a)
  {
    FlagsDetermineSettings(Toggle(Toggle(settings, a), b), Toggle(Toggle(settings, b), a));
  }
}
