/** `ScheduledNotificationReceiver`: what happens when an armed alarm fires.

    The Android environment is taken as inputs: whether the keyguard is locked
    and the platform's SDK level. The two libraries the receiver calls become
    function parameters: `fromJson` stands for Gson decoding the details
    (None when it throws or yields null) and `parseDateTime` for the ISO-8601
    `LocalDateTime.parse` (None when it throws). */
module ScheduledNotificationReceiver {
  import opened Wrappers
  import opened Notifications
  import opened Effects

  /** `Build.VERSION_CODES.O` and `Build.VERSION_CODES.P`. */
  const SdkO: int := 26
  const SdkP: int := 28

  /** The state of the device when the alarm fires. */
  datatype Device = Device(keyguardLocked: bool, sdkInt: int)

  /** The exception that ends `onReceive` early. */
  datatype Cause =
    | NullNotification      // the legacy Intent carries no notification
    | UnreadableDetails     // the details JSON does not decode to an object
    | UnparsableDateTime    // the scheduled date-time is null or not ISO-8601

  /** How `onReceive` ends. */
  datatype Outcome = Returned | Threw(cause: Cause)

  /** The calls made by one fire, in order, and how it ended. */
  datatype Receipt = Receipt(effects: seq<Effect>, outcome: Outcome)

  /** `firstAlarm`: the fire is taken to be the originally armed one exactly when
      the seconds field of the scheduled date-time is 0; any fraction of a second
      is ignored. None is the exception the parser throws for a null or
      malformed date-time. */
  function FirstAlarm(details: NotificationDetails, parseDateTime: string -> Option<LocalDateTime>): (r: Option<bool>)
    ensures r.None? <==> details.scheduledDateTime.None? || parseDateTime(details.scheduledDateTime.value).None?
    ensures r == Some(true) <==>
      details.scheduledDateTime.Some? &&
      exists t | parseDateTime(details.scheduledDateTime.value) == Some(t) :: t.second == 0
  {
    match details.scheduledDateTime
    case None => None
    case Some(text) =>
      match parseDateTime(text)
      case None => None
      case Some(t) => Some(t.second == 0)
  }

  /** Every modern-path effect is about the decoded details. */
  predicate Concerns(e: Effect, details: NotificationDetails)
  {
    match e
    case Notify(_, _) => false
    case Evict(id) => id == details.id
    case _ => e.details == details
  }

  /** The one follow-up of a modern fire: re-arm by the first recurrence field
      that is set, in the order repeat frequency, matched date-time components,
      repeat interval; drop the cache entry when none is set. */
  function FollowUp(details: NotificationDetails): (e: Effect)
    ensures IsFollowUp(e) && Concerns(e, details)
    ensures e.ScheduleNextFrequency? <==> details.scheduledNotificationRepeatFrequency.Some?
    ensures e.ScheduleNextMatching? <==>
      details.scheduledNotificationRepeatFrequency.None? && details.matchDateTimeComponents.Some?
    ensures e.ScheduleNextRepeating? <==>
      details.scheduledNotificationRepeatFrequency.None? && details.matchDateTimeComponents.None?
      && details.repeatInterval.Some?
    ensures e.Evict? <==>
      details.scheduledNotificationRepeatFrequency.None? && details.matchDateTimeComponents.None?
      && details.repeatInterval.None?
  {
    if details.scheduledNotificationRepeatFrequency.Some? then ScheduleNextFrequency(details)
    else if details.matchDateTimeComponents.Some? then ScheduleNextMatching(details)
    else if details.repeatInterval.Some? then ScheduleNextRepeating(details)
    else Evict(details.id)
  }

  /** The launch gate: an alarm activity is launched unless the device is locked
      at a first alarm. */
  predicate LaunchesActivity(details: NotificationDetails, locked: bool, firstAlarm: bool)
  {
    details.startActivityClassName.Some? && !(locked && firstAlarm)
  }

  /** The sound gate: from Android P on, the alarm sound stands in for a
      notification that is not shown. */
  predicate PlaysSound(details: NotificationDetails, sdkInt: int)
  {
    sdkInt >= SdkP && !details.showNotification && details.playSound
  }

  /** An alarm armed before the details schema existed: notify with the embedded
      notification, then drop the cache entry unless the alarm repeats. */
  function LegacyFire(intent: Intent): Receipt
  {
    match intent.notification
    case None => Receipt([], Threw(NullNotification))
    case Some(n) =>
      var id := intent.notificationId.GetOr(0);
      Receipt([Notify(id, n)] + (if intent.repeat.GetOr(false) then [] else [Evict(id)]), Returned)
  }

  /** A fire with decoded details, stage by stage: present, follow up, then (once
      the date-time parses) launch and sound. */
  function DetailsFire(details: NotificationDetails, device: Device,
                       parseDateTime: string -> Option<LocalDateTime>): Receipt
  {
    var head := (if details.showNotification then [Show(details)] else []) + [FollowUp(details)];
    match FirstAlarm(details, parseDateTime)
    case None => Receipt(head, Threw(UnparsableDateTime))
    case Some(first) =>
      var launch := if LaunchesActivity(details, device.keyguardLocked, first) then [StartActivity(details)] else [];
      var sound := if PlaysSound(details, device.sdkInt) then [StartSound(details)] else [];
      Receipt(head + launch + sound, Returned)
  }

  /** The whole fire: legacy when there is no details JSON, otherwise decode it. */
  function Fire(intent: Intent, device: Device,
                fromJson: string -> Option<NotificationDetails>,
                parseDateTime: string -> Option<LocalDateTime>): Receipt
  {
    if IsNullOrEmpty(intent.detailsJson) then LegacyFire(intent)
    else match fromJson(intent.detailsJson.value)
      case None => Receipt([], Threw(UnreadableDetails))
      case Some(details) => DetailsFire(details, device, parseDateTime)
  }

  /** `onReceive`: makes the collaborator calls of one fired alarm one after the
      other, recording each in `effects`. */
  method OnReceive(intent: Intent, device: Device,
                   fromJson: string -> Option<NotificationDetails>,
                   parseDateTime: string -> Option<LocalDateTime>)
    returns (effects: seq<Effect>, outcome: Outcome)
    ensures Receipt(effects, outcome) == Fire(intent, device, fromJson, parseDateTime)
  {
    effects := [];
    if IsNullOrEmpty(intent.detailsJson) {
      // Alarms armed before the details schema existed.
      if intent.notification.None? {
        return effects, Threw(NullNotification);
      }
      var notification := intent.notification.value;
      var notificationId := intent.notificationId.GetOr(0);
      effects := effects + [Notify(notificationId, notification)];
      var repeat := intent.repeat.GetOr(false);
      if !repeat {
        effects := effects + [Evict(notificationId)];
      }
      outcome := Returned;
    } else {
      var decoded := fromJson(intent.detailsJson.value);
      if decoded.None? {
        return effects, Threw(UnreadableDetails);
      }
      var details := decoded.value;
      if details.showNotification {
        effects := effects + [Show(details)];
      }
      if details.scheduledNotificationRepeatFrequency.Some? {
        effects := effects + [ScheduleNextFrequency(details)];
      } else if details.matchDateTimeComponents.Some? {
        effects := effects + [ScheduleNextMatching(details)];
      } else if details.repeatInterval.Some? {
        effects := effects + [ScheduleNextRepeating(details)];
      } else {
        effects := effects + [Evict(details.id)];
      }

      var locked := device.keyguardLocked;
      var firstAlarm := FirstAlarm(details, parseDateTime);
      if firstAlarm.None? {
        outcome := Threw(UnparsableDateTime);
      } else {
        var hasStartActivity := details.startActivityClassName.Some?;
        if hasStartActivity && (!locked || !firstAlarm.value) {
          effects := effects + [StartActivity(details)];
        }
        if device.sdkInt >= SdkP && !details.showNotification && details.playSound {
          effects := effects + [StartSound(details)];
        }
        outcome := Returned;
      }
    }
  }

  // ---------------------------------------------------------------------------
  // What every fire does.

  /** Every fire makes its calls stage by stage, so at most four of them. */
  lemma FireOrdered(intent: Intent, device: Device,
                    fromJson: string -> Option<NotificationDetails>,
                    parseDateTime: string -> Option<LocalDateTime>)
    ensures Ordered(Fire(intent, device, fromJson, parseDateTime).effects)
    ensures |Fire(intent, device, fromJson, parseDateTime).effects| <= 4
  {
    OrderedLength(Fire(intent, device, fromJson, parseDateTime).effects);
  }

  /** The details JSON is present and decodes to `details`. */
  predicate Decodes(intent: Intent, fromJson: string -> Option<NotificationDetails>, details: NotificationDetails)
  {
    !IsNullOrEmpty(intent.detailsJson) && fromJson(intent.detailsJson.value) == Some(details)
  }

  // ---------------------------------------------------------------------------
  // Legacy alarms.

  /** Without details JSON the fire only notifies with the embedded notification
      and id, then evicts exactly when the alarm does not repeat. A missing
      notification ends the fire before any call. */
  lemma LegacyFireEffects(intent: Intent, device: Device,
                          fromJson: string -> Option<NotificationDetails>,
                          parseDateTime: string -> Option<LocalDateTime>)
    requires IsNullOrEmpty(intent.detailsJson)
    ensures var r := Fire(intent, device, fromJson, parseDateTime);
      intent.notification.None? ==> r == Receipt([], Threw(NullNotification))
    ensures var r := Fire(intent, device, fromJson, parseDateTime);
      var id := intent.notificationId.GetOr(0);
      var repeat := intent.repeat.GetOr(false);
      intent.notification.Some? ==>
        && r.outcome == Returned
        && |r.effects| == (if repeat then 1 else 2)
        && r.effects[0] == Notify(id, intent.notification.value)
        && (Evict(id) in r.effects <==> !repeat)
        && (forall e | e in r.effects :: e.Notify? || e.Evict?)
  {
  }

  /** A missing `notification_id` extra reads as id 0 and a missing `repeat`
      extra as false, so such a fire always evicts. */
  lemma LegacyDefaults(intent: Intent, device: Device,
                       fromJson: string -> Option<NotificationDetails>,
                       parseDateTime: string -> Option<LocalDateTime>)
    requires IsNullOrEmpty(intent.detailsJson) && intent.notification.Some?
    ensures var r := Fire(intent, device, fromJson, parseDateTime);
      intent.notificationId.None? ==> r.effects[0] == Notify(0, intent.notification.value)
    ensures var r := Fire(intent, device, fromJson, parseDateTime);
      intent.repeat.None? ==> Evict(intent.notificationId.GetOr(0)) in r.effects
  {
  }

  // ---------------------------------------------------------------------------
  // Alarms with details.

  /** Details that do not decode end the fire before any call. */
  lemma UnreadableDetailsAbort(intent: Intent, device: Device,
                               fromJson: string -> Option<NotificationDetails>,
                               parseDateTime: string -> Option<LocalDateTime>)
    requires !IsNullOrEmpty(intent.detailsJson) && fromJson(intent.detailsJson.value).None?
    ensures Fire(intent, device, fromJson, parseDateTime) == Receipt([], Threw(UnreadableDetails))
  {
  }

  /** The notification is shown exactly when the details ask for it, and then
      before anything else. */
  lemma PresentationFirst(intent: Intent, device: Device,
                          fromJson: string -> Option<NotificationDetails>,
                          parseDateTime: string -> Option<LocalDateTime>, details: NotificationDetails)
    requires Decodes(intent, fromJson, details)
    ensures var r := Fire(intent, device, fromJson, parseDateTime);
      && (Show(details) in r.effects <==> details.showNotification)
      && (details.showNotification ==> r.effects[0] == Show(details))
  {
  }

  /** Exactly one follow-up is made on every fire with details. */
  lemma ExactlyOneFollowUp(intent: Intent, device: Device,
                           fromJson: string -> Option<NotificationDetails>,
                           parseDateTime: string -> Option<LocalDateTime>, details: NotificationDetails)
    requires Decodes(intent, fromJson, details)
    ensures FollowUps(Fire(intent, device, fromJson, parseDateTime).effects) == 1
  {
    var shown := if details.showNotification then [Show(details)] else [];
    var log := Fire(intent, device, fromJson, parseDateTime).effects;
    FollowUpsSnoc(shown, FollowUp(details));
    var log1 := shown + [FollowUp(details)];
    var first := FirstAlarm(details, parseDateTime);
    if first.Some? {
      var log2 := log1;
      if LaunchesActivity(details, device.keyguardLocked, first.value) {
        FollowUpsSnoc(log1, StartActivity(details));
        log2 := log1 + [StartActivity(details)];
      }
      if PlaysSound(details, device.sdkInt) {
        FollowUpsSnoc(log2, StartSound(details));
        assert log == log2 + [StartSound(details)];
      } else {
        assert log == log2;
      }
    }
  }

  /** The follow-up is chosen by the first recurrence field that is set, so
      details with several set resolve by that priority; the cache entry is
      dropped only when none is set. Every call is about the decoded details. */
  lemma FollowUpByPriority(intent: Intent, device: Device,
                           fromJson: string -> Option<NotificationDetails>,
                           parseDateTime: string -> Option<LocalDateTime>, details: NotificationDetails)
    requires Decodes(intent, fromJson, details)
    ensures var r := Fire(intent, device, fromJson, parseDateTime);
      && (ScheduleNextFrequency(details) in r.effects <==>
            details.scheduledNotificationRepeatFrequency.Some?)
      && (ScheduleNextMatching(details) in r.effects <==>
            details.scheduledNotificationRepeatFrequency.None? && details.matchDateTimeComponents.Some?)
      && (ScheduleNextRepeating(details) in r.effects <==>
            details.scheduledNotificationRepeatFrequency.None? && details.matchDateTimeComponents.None?
            && details.repeatInterval.Some?)
      && (Evict(details.id) in r.effects <==>
            details.scheduledNotificationRepeatFrequency.None? && details.matchDateTimeComponents.None?
            && details.repeatInterval.None?)
      && (forall e | e in r.effects :: Concerns(e, details))
  {
  }

  /** The date-time is parsed on every fire, with or without an alarm activity;
      when it does not parse the fire ends right after the follow-up. */
  lemma UnparsableDateTimeStops(intent: Intent, device: Device,
                                fromJson: string -> Option<NotificationDetails>,
                                parseDateTime: string -> Option<LocalDateTime>, details: NotificationDetails)
    requires Decodes(intent, fromJson, details)
    ensures var r := Fire(intent, device, fromJson, parseDateTime);
      && (r.outcome == Returned <==> FirstAlarm(details, parseDateTime).Some?)
      && (r.outcome != Returned ==>
            && r.outcome == Threw(UnparsableDateTime)
            && r.effects[|r.effects| - 1] == FollowUp(details)
            && StartActivity(details) !in r.effects && StartSound(details) !in r.effects)
  {
  }

  /** The alarm activity is launched exactly when the details name one and the
      device is not locked at a first alarm. */
  lemma ActivityGate(intent: Intent, device: Device,
                     fromJson: string -> Option<NotificationDetails>,
                     parseDateTime: string -> Option<LocalDateTime>, details: NotificationDetails)
    requires Decodes(intent, fromJson, details)
    ensures var r := Fire(intent, device, fromJson, parseDateTime);
      var first := FirstAlarm(details, parseDateTime);
      StartActivity(details) in r.effects <==>
        first.Some? && details.startActivityClassName.Some? && !(device.keyguardLocked && first.value)
  {
  }

  /** The alarm sound plays exactly from Android P on, when the notification is
      not shown and the details ask for sound: never together with Show. */
  lemma SoundGate(intent: Intent, device: Device,
                  fromJson: string -> Option<NotificationDetails>,
                  parseDateTime: string -> Option<LocalDateTime>, details: NotificationDetails)
    requires Decodes(intent, fromJson, details)
    ensures var r := Fire(intent, device, fromJson, parseDateTime);
      && (StartSound(details) in r.effects <==>
            r.outcome == Returned && device.sdkInt >= SdkP && !details.showNotification && details.playSound)
      && !(Show(details) in r.effects && StartSound(details) in r.effects)
  {
  }

  // ---------------------------------------------------------------------------
  // Concrete fires.

  /** Details of a one-shot alarm with an alarm activity. */
  function AlarmDetails(id: int, showNotification: bool, playSound: bool): NotificationDetails
  {
    NotificationDetails(id, showNotification, Some("2024-01-01T09:00:00"),
                        None, None, None, Some("AlarmActivity"), playSound)
  }

  /** A parser that reads every date-time as 2024-01-01 09:00 plus `second` seconds. */
  function ParsesAt(second: int): string -> Option<LocalDateTime>
  {
    text => Some(LocalDateTime(2024, 1, 1, 9, 0, second, 0))
  }

  /** On a locked device a first alarm does not launch its activity; the same
      alarm with a non-zero second does, despite the lock. */
  lemma LockedFirstAlarmHoldsActivity(json: string)
    requires json != ""
    ensures var d := AlarmDetails(5, true, false);
      var intent := Intent(Some(json), None, None, None);
      var device := Device(true, SdkP);
      && Fire(intent, device, _ => Some(d), ParsesAt(0)) == Receipt([Show(d), Evict(5)], Returned)
      && Fire(intent, device, _ => Some(d), ParsesAt(5)) == Receipt([Show(d), Evict(5), StartActivity(d)], Returned)
  {
  }

  /** A one-shot alarm that is not shown but asks for sound, on Android P: the
      cache entry is dropped and the alarm sound stands in for the notification.
      Below Android P nothing stands in. */
  lemma SilentOneShotPlaysSound(json: string)
    requires json != ""
    ensures var d := AlarmDetails(3, false, true).(startActivityClassName := None);
      var intent := Intent(Some(json), None, None, None);
      && Fire(intent, Device(false, SdkP), _ => Some(d), ParsesAt(5)) == Receipt([Evict(3), StartSound(d)], Returned)
      && Fire(intent, Device(false, SdkO), _ => Some(d), ParsesAt(5)) == Receipt([Evict(3)], Returned)
  {
  }

  /** The fraction of a second does not matter: 09:00:00.5 is a first alarm. */
  lemma FractionalSecondIsFirst()
    ensures var d := AlarmDetails(1, true, false);
      FirstAlarm(d, _ => Some(LocalDateTime(2024, 1, 1, 9, 0, 0, 500000000))) == Some(true)
  {
  }
}
