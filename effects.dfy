/** The collaborator calls the receiver makes, one constructor per call, and the
    log they are recorded in, in the order they are made. */
module Effects {
  import opened Notifications

  datatype Effect =
    | Notify(notificationId: int, notification: Notification)   // NotificationManagerCompat.notify
    | Show(details: NotificationDetails)                        // showNotification
    | ScheduleNextFrequency(details: NotificationDetails)       // zonedScheduleNextNotification
    | ScheduleNextMatching(details: NotificationDetails)        // zonedScheduleNextNotificationMatchingDateComponents
    | ScheduleNextRepeating(details: NotificationDetails)       // scheduleNextRepeatingNotification
    | Evict(notificationId: int)                                // removeNotificationFromCache
    | StartActivity(details: NotificationDetails)               // startAlarmActivity
    | StartSound(details: NotificationDetails)                  // startAlarmSound

  /** The effects that re-arm the alarm or drop its cache entry: the receiver's
      "what happens next" decision. */
  predicate IsFollowUp(e: Effect)
  {
    e.ScheduleNextFrequency? || e.ScheduleNextMatching? || e.ScheduleNextRepeating? || e.Evict?
  }

  /** The stage of a fire an effect belongs to: presenting (0), re-arming or
      evicting (1), launching the alarm activity (2), playing the alarm sound (3). */
  function Phase(e: Effect): (p: nat)
    ensures p <= LastPhase
    ensures p == 1 <==> IsFollowUp(e)
  {
    match e
    case Notify(_, _) => 0
    case Show(_) => 0
    case ScheduleNextFrequency(_) => 1
    case ScheduleNextMatching(_) => 1
    case ScheduleNextRepeating(_) => 1
    case Evict(_) => 1
    case StartActivity(_) => 2
    case StartSound(_) => 3
  }

  const LastPhase: nat := 3

  /** Every effect belongs to a strictly later stage than the one before it. */
  ghost predicate Ordered(log: seq<Effect>)
  {
    forall i, j | 0 <= i < j < |log| :: Phase(log[i]) < Phase(log[j])
  }

  /** Number of follow-up effects in the log. */
  function FollowUps(log: seq<Effect>): (n: nat)
    ensures n <= |log|
  {
    if log == [] then 0
    else (if IsFollowUp(log[0]) then 1 else 0) + FollowUps(log[1..])
  }

  /** Appending one effect adds one to the count exactly when it is a follow-up. */
  lemma {:induction false} FollowUpsSnoc(log: seq<Effect>, e: Effect)
    ensures FollowUps(log + [e]) == FollowUps(log) + (if IsFollowUp(e) then 1 else 0)
  {
    if log != [] {
      assert (log + [e])[1..] == log[1..] + [e];
      FollowUpsSnoc(log[1..], e);
    }
  }

  /** An ordered log starting at stage `p` has room for at most the stages from `p` on. */
  lemma {:induction false} OrderedLengthFrom(log: seq<Effect>)
    requires Ordered(log) && log != []
    ensures |log| <= LastPhase + 1 - Phase(log[0])
  {
    if |log| > 1 {
      var rest := log[1..];
      assert Ordered(rest) by {
        forall i, j | 0 <= i < j < |rest| ensures Phase(rest[i]) < Phase(rest[j]) {
          assert rest[i] == log[i + 1] && rest[j] == log[j + 1];
        }
      }
      assert Phase(log[0]) < Phase(log[1]);
      OrderedLengthFrom(rest);
    }
  }

  /** An ordered log holds at most one effect per stage, so at most four effects. */
  lemma OrderedLength(log: seq<Effect>)
    requires Ordered(log)
    ensures |log| <= LastPhase + 1
  {
    if log != [] { OrderedLengthFrom(log); }
  }
}
