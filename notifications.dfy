/** The values the receiver reads: the Intent that delivers a fired alarm,
    the decoded notification details and the parsed scheduled date-time. */
module Notifications {
  import opened Wrappers

  /** A platform notification that was rendered before the alarm was armed.
      Its content is opaque to the receiver. */
  datatype Notification = Notification(content: string)

  /** A local date-time as `LocalDateTime.parse` yields it (ISO-8601, no zone). */
  datatype LocalDateTime = LocalDateTime(
    year: int, month: int, day: int,
    hour: int, minute: int, second: int, nano: int)

  /** The fields of the decoded notification details that the receiver reads.
      The three recurrence fields are nullable enums of the plugin; the model
      keeps only whether each is set and an opaque ordinal. */
  datatype NotificationDetails = NotificationDetails(
    id: int,
    showNotification: bool,
    scheduledDateTime: Option<string>,
    scheduledNotificationRepeatFrequency: Option<nat>,
    matchDateTimeComponents: Option<nat>,
    repeatInterval: Option<nat>,
    startActivityClassName: Option<string>,
    playSound: bool)

  /** The extras of the Intent that delivers the fired alarm. `detailsJson` is the
      serialized details of the current schema; the other three extras are only
      used by alarms armed before that schema existed. */
  datatype Intent = Intent(
    detailsJson: Option<string>,
    notification: Option<Notification>,
    notificationId: Option<int>,
    repeat: Option<bool>)

  /** `StringUtils.isNullOrEmpty`. */
  predicate IsNullOrEmpty(s: Option<string>)
  {
    s == None || s == Some("")
  }
}
