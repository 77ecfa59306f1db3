# Scheduled notification receiver, modelled in Dafny

A model of `ScheduledNotificationReceiver` of flutter_local_notifications on
Android: the broadcast receiver that runs when a scheduled alarm fires. It
decides which plugin calls to make, and in which order:

- **Legacy alarms** (no details JSON, armed by plugin versions before 0.3.4):
  notify with the notification and id embedded in the Intent, then drop the
  cache entry unless the alarm repeats.
- **Alarms with details**: show the notification if asked; make exactly one
  follow-up (re-arm by repeat frequency, by matched date-time components or by
  repeat interval, whichever is set first in that order, else drop the cache
  entry); launch the alarm activity unless the device is locked at a "first
  alarm" (scheduled date-time whose seconds field is 0, any fraction of a
  second ignored); play the alarm sound from Android P (SDK 28) on when the notification is not shown and sound is asked for.

Each plugin call is an `Effect`; one fire yields the log of effects and an
`Outcome` (returned, or the exception that ended it).

Files:

- `wrappers.dfy`: `Option`, for Java null and absent Intent extras.
- `notifications.dfy`: the Intent extras, the decoded `NotificationDetails`
  fields the receiver reads, `LocalDateTime`, `IsNullOrEmpty`.
- `effects.dfy`: the effect log, its stages (`Phase`), `Ordered`,
  `FollowUps` and the inductive lemmas about them.
- `receiver.dfy`: `FirstAlarm`, the follow-up choice and the two gates, the
  stage-by-stage specification `Fire`, the imperative `OnReceive` proved equal
  to it, and the lemmas stating what every fire does.

Inputs standing for the platform and for foreign code:

- `Device.keyguardLocked` is what `isKeyguardLocked` answers; `Device.sdkInt` is
  `Build.VERSION.SDK_INT` (O = 26, P = 28).
- `fromJson` stands for Gson decoding the details JSON: None when it throws or
  yields null (both end the fire before any call).
- `parseDateTime` stands for ISO-8601 `LocalDateTime.parse`: None when it throws.
  A null `scheduledDateTime` also throws.

Behaviour of the code worth knowing:

- The lock state is read and `firstAlarm` is computed on every fire with
  details (lines 59-60), whether or not an alarm activity is named. So a null
  or malformed `scheduledDateTime` throws after the notification was shown and
  the follow-up made, and before the launch and the sound
  (`UnparsableDateTimeStops`).
- Only details that do not decode end the fire with no call.
- The alarm sound is gated by `SDK_INT >= P`.
- The recurrence is three nullable fields; `FollowUp` resolves several set
  fields by a fixed priority.
- The "first alarm" test reads only the seconds field of the date-time: any
  fraction of a second is ignored, and a re-armed alarm whose seconds field is
  0 is also a "first alarm".

## Model

| member | source | states |
|---|---|---|
| ScheduledNotificationReceiver.OnReceive | flutter_local_notifications/android/src/main/java/com/dexterous/flutterlocalnotifications/ScheduledNotificationReceiver.java:24-72 | the calls made one after the other by the receiver and its outcome equal the specification `Fire` for every Intent, device and library behaviour |
| ScheduledNotificationReceiver.FirstAlarm | flutter_local_notifications/android/src/main/java/com/dexterous/flutterlocalnotifications/ScheduledNotificationReceiver.java:74-81 | None exactly when the scheduled date-time is null or does not parse; true exactly when the parsed date-time's second is 0 |
| ScheduledNotificationReceiver.FollowUp | flutter_local_notifications/android/src/main/java/com/dexterous/flutterlocalnotifications/ScheduledNotificationReceiver.java:46-57 | the follow-up is a re-arm or an eviction about these details; re-arms by frequency iff that field is set, by matched components iff frequency is null and components set, by interval iff only the interval is set, evicts the id iff all three are null |
| ScheduledNotificationReceiver.LegacyFireEffects | flutter_local_notifications/android/src/main/java/com/dexterous/flutterlocalnotifications/ScheduledNotificationReceiver.java:28-38 | without details JSON: a null notification ends the fire with no call; otherwise the first call is Notify(id, notification), Evict(id) is made iff repeat is false, there are 1 or 2 calls, and none is a show, schedule, activity or sound |
| ScheduledNotificationReceiver.LegacyDefaults | flutter_local_notifications/android/src/main/java/com/dexterous/flutterlocalnotifications/ScheduledNotificationReceiver.java:32-37 | a missing notification_id extra notifies with id 0; a missing repeat extra always evicts |
| ScheduledNotificationReceiver.UnreadableDetailsAbort | flutter_local_notifications/android/src/main/java/com/dexterous/flutterlocalnotifications/ScheduledNotificationReceiver.java:40-43 | details JSON that does not decode ends the fire with no call |
| ScheduledNotificationReceiver.PresentationFirst | flutter_local_notifications/android/src/main/java/com/dexterous/flutterlocalnotifications/ScheduledNotificationReceiver.java:43-45 | Show is made iff showNotification, and then it is the first call |
| ScheduledNotificationReceiver.ExactlyOneFollowUp | flutter_local_notifications/android/src/main/java/com/dexterous/flutterlocalnotifications/ScheduledNotificationReceiver.java:46-57 | every fire with details makes exactly one re-arm-or-evict call |
| ScheduledNotificationReceiver.FollowUpByPriority | flutter_local_notifications/android/src/main/java/com/dexterous/flutterlocalnotifications/ScheduledNotificationReceiver.java:46-57 | each kind of follow-up appears iff it is the first set field in the order frequency, components, interval; Evict(id) iff all three are null; every call concerns the decoded details |
| ScheduledNotificationReceiver.UnparsableDateTimeStops | flutter_local_notifications/android/src/main/java/com/dexterous/flutterlocalnotifications/ScheduledNotificationReceiver.java:59-60 | the fire returns iff the date-time parses; otherwise it throws right after the follow-up with no launch and no sound |
| ScheduledNotificationReceiver.ActivityGate | flutter_local_notifications/android/src/main/java/com/dexterous/flutterlocalnotifications/ScheduledNotificationReceiver.java:59-64 | StartActivity is made iff the date-time parses, an activity class is named, and not (locked and first alarm) |
| ScheduledNotificationReceiver.SoundGate | flutter_local_notifications/android/src/main/java/com/dexterous/flutterlocalnotifications/ScheduledNotificationReceiver.java:66-70 | StartSound is made iff the fire returns, SDK >= 28, showNotification is false and playSound is true; Show and StartSound never both |
| ScheduledNotificationReceiver.FireOrdered | flutter_local_notifications/android/src/main/java/com/dexterous/flutterlocalnotifications/ScheduledNotificationReceiver.java:28-70 | every fire's calls come in strictly increasing stage (show or notify, follow-up, activity, sound), so at most four |
| ScheduledNotificationReceiver.LockedFirstAlarmHoldsActivity | flutter_local_notifications/android/src/main/java/com/dexterous/flutterlocalnotifications/ScheduledNotificationReceiver.java:59-64 | on a locked device a zero-second alarm yields Show, Evict and no launch; the same alarm at second 5 also launches |
| ScheduledNotificationReceiver.SilentOneShotPlaysSound | flutter_local_notifications/android/src/main/java/com/dexterous/flutterlocalnotifications/ScheduledNotificationReceiver.java:54-70 | a one-shot alarm not shown but with sound yields Evict then StartSound on SDK 28, and Evict only on SDK 26 |
| ScheduledNotificationReceiver.FractionalSecondIsFirst | flutter_local_notifications/android/src/main/java/com/dexterous/flutterlocalnotifications/ScheduledNotificationReceiver.java:74-81 | a date-time with seconds field 0 and a non-zero fraction of a second is a first alarm |
| Effects.OrderedLength | flutter_local_notifications/android/src/main/java/com/dexterous/flutterlocalnotifications/ScheduledNotificationReceiver.java:43-70 | a log in strictly increasing stage holds at most four effects |

## Left out

- Android plumbing: the Context, the Intent lookups (modelled as the optional
  extras they return) and `NotificationManagerCompat`; the collaborator calls
  are effects only.
- The write `notification.when = System.currentTimeMillis()` (line 31): the wall
  clock is not modelled; Notify carries the notification as received.
- Gson deserialization (lines 40-42), a foreign library: taken as a parameter.
- ISO-8601 parsing by java.time or threeten (lines 75-79): taken as one parameter,
  since both branches parse the same format; the result is therefore the same on
  both SDK branches by construction, and only the seconds component is read.
- The next-occurrence arithmetic of `zonedScheduleNextNotification`,
  `zonedScheduleNextNotificationMatchingDateComponents` and
  `scheduleNextRepeatingNotification`, the cache storage, the activity launch and
  the sound playback: FlutterLocalNotificationsPlugin is not part of this model.
- The enum values of the three recurrence fields: the enums are not part of
  this model, so each field keeps only an opaque ordinal.
- Java's 32-bit `int` for ids: no arithmetic is done on ids, so `int` is unbounded.
