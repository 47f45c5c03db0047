/**
 * The SOX 302 due-date notifications of an assessment: five notification types, each
 * sent a fixed number of days from the due date, and the rule that creates a type's
 * notification only when it would still be sent in the future, except the expiration
 * notice, which is always created and repeats.
 *
 * Dates are day numbers; "today" is a parameter.
 */
module SoxNotifications {
  import opened Wrappers

  datatype SoxNotificationType =
    | DueDateBefore1Day
    | DueDateBefore3Day
    | DueDateBefore7Day
    | DueDateToday
    | DueDateExpiration

  /**
   * The members in the order iterating the enumeration yields them. The class declares
   * no `_order_`, so under Python 2 the enumeration backport sorts the members by value:
   * "..._due_expiration" comes before "..._due_today", against declaration order.
   */
  const ALL_TYPES: seq<SoxNotificationType> :=
    [DueDateBefore1Day, DueDateBefore3Day, DueDateBefore7Day, DueDateExpiration, DueDateToday]

  /** The name of the notification type each member stands for. */
  function Value(t: SoxNotificationType): string
  {
    match t
    case DueDateBefore1Day => "sox_302_due_before_1_day"
    case DueDateBefore3Day => "sox_302_due_before_3_day"
    case DueDateBefore7Day => "sox_302_due_before_7_day"
    case DueDateToday => "sox_302_due_today"
    case DueDateExpiration => "sox_302_due_expiration"
  }

  /**
   * The `timedelta` property, in days: one, three and seven days before the due date,
   * the due date itself, and the day after it for the expiration notice.
   */
  function Timedelta(t: SoxNotificationType): (days: int)
    ensures t == DueDateBefore1Day ==> days == -1
    ensures t == DueDateBefore3Day ==> days == -3
    ensures t == DueDateBefore7Day ==> days == -7
    ensures t == DueDateToday ==> days == 0
    ensures t == DueDateExpiration ==> days == 1
  {
    if t == DueDateBefore1Day then -1
    else if t == DueDateBefore3Day then -3
    else if t == DueDateBefore7Day then -7
    else if t == DueDateToday then 0
    else 1
  }

  /** The enumeration lists every member once, and no two members share a value. */
  lemma TypesDistinct()
    ensures |ALL_TYPES| == 5
    ensures forall t: SoxNotificationType :: t in ALL_TYPES
    ensures forall i, j :: 0 <= i < j < |ALL_TYPES| ==> Value(ALL_TYPES[i]) != Value(ALL_TYPES[j])
  {
    forall t: SoxNotificationType
      ensures t in ALL_TYPES
    {
      match t
      case DueDateBefore1Day => assert ALL_TYPES[0] == t;
      case DueDateBefore3Day => assert ALL_TYPES[1] == t;
      case DueDateBefore7Day => assert ALL_TYPES[2] == t;
      case DueDateExpiration => assert ALL_TYPES[3] == t;
      case DueDateToday => assert ALL_TYPES[4] == t;
    }
  }

  /**
   * A notification record added to the session. Its type is the notification type row
   * the name `Value(notificationType)` looks up.
   */
  datatype Notification = Notification(
    objectId: int,
    sendOn: int,
    notificationType: SoxNotificationType,
    modifiedById: Option<int>,
    repeating: bool)

  /**
   * `create_sox_notification`: the record for one notification, repeating when the type
   * is the expiration notice (the names are compared; `ExpirationNameOnly` shows that
   * comparing the names is comparing the types).
   */
  function CreateSoxNotification(objectId: int, notificationType: SoxNotificationType, sendOn: int, userId: Option<int>)
    : (n: Notification)
    ensures n.objectId == objectId && n.sendOn == sendOn && n.notificationType == notificationType
    ensures n.modifiedById == userId
  {
    Notification(objectId, sendOn, notificationType, userId, notificationType == DueDateExpiration)
  }

  /** Only the expiration notice carries the expiration notice's name. */
  lemma ExpirationNameOnly(t: SoxNotificationType)
    ensures Value(t) == Value(DueDateExpiration) <==> t == DueDateExpiration
  {
    assert |Value(t)| != |Value(DueDateExpiration)| || t == DueDateExpiration;
  }

  /** Of the five types' notifications, exactly the expiration notice repeats. */
  lemma OnlyExpirationRepeats(objectId: int, t: SoxNotificationType, sendOn: int, userId: Option<int>)
    ensures CreateSoxNotification(objectId, t, sendOn, userId).repeating <==> Value(t) == Value(DueDateExpiration)
  {
    ExpirationNameOnly(t);
  }

  /** The rule of `create_sox_notifications` for one type. */
  predicate Created(t: SoxNotificationType, dueDate: int, today: int)
  {
    dueDate + Timedelta(t) > today || t == DueDateExpiration
  }

  /** The types among `types` whose notification is created, in order. */
  function CreatedTypes(types: seq<SoxNotificationType>, dueDate: int, today: int): (r: seq<SoxNotificationType>)
    ensures forall t :: t in r <==> t in types && Created(t, dueDate, today)
    ensures |r| <= |types|
  {
    if types == [] then []
    else
      var n := |types| - 1;
      var rest := CreatedTypes(types[..n], dueDate, today);
      assert forall t :: t in types <==> t in types[..n] || t == types[n];
      if Created(types[n], dueDate, today) then rest + [types[n]] else rest
  }

  /** The expiration notice is always created, so every assessment gets at least one. */
  lemma ExpirationAlwaysCreated(dueDate: int, today: int)
    ensures DueDateExpiration in CreatedTypes(ALL_TYPES, dueDate, today)
    ensures |CreatedTypes(ALL_TYPES, dueDate, today)| >= 1
  {
    assert ALL_TYPES[3] == DueDateExpiration;
  }

  /** The type's notification as a list: itself when it is created, nothing otherwise. */
  function KeepCreated(t: SoxNotificationType, dueDate: int, today: int): seq<SoxNotificationType>
  {
    if Created(t, dueDate, today) then [t] else []
  }

  /** The created types among five, one position at a time. */
  lemma CreatedTypesOfFive(a: seq<SoxNotificationType>, dueDate: int, today: int)
    requires |a| == 5
    ensures CreatedTypes(a, dueDate, today) ==
              KeepCreated(a[0], dueDate, today) + KeepCreated(a[1], dueDate, today) + KeepCreated(a[2], dueDate, today)
              + KeepCreated(a[3], dueDate, today) + KeepCreated(a[4], dueDate, today)
  {
    var c1 := KeepCreated(a[0], dueDate, today);
    var c2 := c1 + KeepCreated(a[1], dueDate, today);
    var c3 := c2 + KeepCreated(a[2], dueDate, today);
    var c4 := c3 + KeepCreated(a[3], dueDate, today);
    assert CreatedTypes(a[..1], dueDate, today) == c1 by {
      assert a[..0] == [];
      CreatedTypesStep(a, 0, dueDate, today);
    }
    assert CreatedTypes(a[..2], dueDate, today) == c2 by {
      CreatedTypesStep(a, 1, dueDate, today);
    }
    assert CreatedTypes(a[..3], dueDate, today) == c3 by {
      CreatedTypesStep(a, 2, dueDate, today);
    }
    assert CreatedTypes(a[..4], dueDate, today) == c4 by {
      CreatedTypesStep(a, 3, dueDate, today);
    }
    assert a[..5] == a;
    CreatedTypesStep(a, 4, dueDate, today);
  }

  /** The created types written out, member by member. */
  lemma CreatedTypesUnfolded(dueDate: int, today: int)
    ensures CreatedTypes(ALL_TYPES, dueDate, today) ==
              (if dueDate - 1 > today then [DueDateBefore1Day] else [])
              + (if dueDate - 3 > today then [DueDateBefore3Day] else [])
              + (if dueDate - 7 > today then [DueDateBefore7Day] else [])
              + [DueDateExpiration]
              + (if dueDate > today then [DueDateToday] else [])
  {
    var a := ALL_TYPES;
    assert a[0] == DueDateBefore1Day && a[1] == DueDateBefore3Day && a[2] == DueDateBefore7Day;
    assert a[3] == DueDateExpiration && a[4] == DueDateToday;
    CreatedTypesOfFive(a, dueDate, today);
  }

  /**
   * With the due date 0, 1, 3, 4 and 8 days from today, 1, 2, 3, 4 and 5 notifications
   * are created.
   */
  lemma CountsByDueDateOffset(today: int)
    ensures |CreatedTypes(ALL_TYPES, today, today)| == 1
    ensures |CreatedTypes(ALL_TYPES, today + 1, today)| == 2
    ensures |CreatedTypes(ALL_TYPES, today + 3, today)| == 3
    ensures |CreatedTypes(ALL_TYPES, today + 4, today)| == 4
    ensures |CreatedTypes(ALL_TYPES, today + 8, today)| == 5
  {
    CreatedTypesUnfolded(today, today);
    CreatedTypesUnfolded(today + 1, today);
    CreatedTypesUnfolded(today + 3, today);
    CreatedTypesUnfolded(today + 4, today);
    CreatedTypesUnfolded(today + 8, today);
  }

  /** One more type considered: its notification is appended exactly when it is created. */
  lemma CreatedTypesStep(types: seq<SoxNotificationType>, i: nat, dueDate: int, today: int)
    requires i < |types|
    ensures CreatedTypes(types[..i + 1], dueDate, today) ==
              CreatedTypes(types[..i], dueDate, today)
              + (if Created(types[i], dueDate, today) then [types[i]] else [])
  {
    assert types[..i + 1][..i] == types[..i];
  }

  /** The notifications for the given types, in order. */
  function NotificationsFor(objectId: int, types: seq<SoxNotificationType>, dueDate: int, userId: Option<int>)
    : seq<Notification>
  {
    if types == [] then []
    else
      var n := |types| - 1;
      NotificationsFor(objectId, types[..n], dueDate, userId)
      + [CreateSoxNotification(objectId, types[n], dueDate + Timedelta(types[n]), userId)]
  }

  /** One notification per type, sent `Timedelta` days from the due date. */
  lemma {:induction false} NotificationsForSpec(objectId: int, types: seq<SoxNotificationType>, dueDate: int, userId: Option<int>)
    ensures var r := NotificationsFor(objectId, types, dueDate, userId);
            |r| == |types|
            && forall i :: 0 <= i < |r| ==>
                 r[i] == CreateSoxNotification(objectId, types[i], dueDate + Timedelta(types[i]), userId)
  {
    if types != [] {
      var n := |types| - 1;
      NotificationsForSpec(objectId, types[..n], dueDate, userId);
    }
  }

  lemma NotificationsForSnoc(objectId: int, types: seq<SoxNotificationType>, t: SoxNotificationType, dueDate: int, userId: Option<int>)
    ensures NotificationsFor(objectId, types + [t], dueDate, userId) ==
              NotificationsFor(objectId, types, dueDate, userId)
              + [CreateSoxNotification(objectId, t, dueDate + Timedelta(t), userId)]
  {
    assert (types + [t])[..|types|] == types;
  }

  /** The notifications of one more type: one more notification exactly when the type's is created. */
  lemma AddNotificationStep(objectId: int, types: seq<SoxNotificationType>, i: nat, dueDate: int, today: int, userId: Option<int>)
    requires i < |types|
    ensures var before := NotificationsFor(objectId, CreatedTypes(types[..i], dueDate, today), dueDate, userId);
            var after := NotificationsFor(objectId, CreatedTypes(types[..i + 1], dueDate, today), dueDate, userId);
            var t := types[i];
            (Created(t, dueDate, today) ==>
               after == before + [CreateSoxNotification(objectId, t, dueDate + Timedelta(t), userId)])
            && (!Created(t, dueDate, today) ==> after == before)
  {
    var createdSoFar := CreatedTypes(types[..i], dueDate, today);
    CreatedTypesStep(types, i, dueDate, today);
    if Created(types[i], dueDate, today) {
      NotificationsForSnoc(objectId, createdSoFar, types[i], dueDate, userId);
    } else {
      assert CreatedTypes(types[..i + 1], dueDate, today) == createdSoFar;
    }
  }

  /**
   * `create_sox_notifications`: the notifications added for an object with due date
   * `dueDate`, one per created type in the enumeration's value order.
   */
  method CreateSoxNotifications(objectId: int, dueDate: int, today: int, userId: Option<int>)
    returns (added: seq<Notification>)
    ensures added == NotificationsFor(objectId, CreatedTypes(ALL_TYPES, dueDate, today), dueDate, userId)
  {
    added := AddNotifications(objectId, ALL_TYPES, dueDate, today, userId);
  }

  /** The loop of `create_sox_notifications` over the notification types. */
  method AddNotifications(objectId: int, types: seq<SoxNotificationType>, dueDate: int, today: int, userId: Option<int>)
    returns (added: seq<Notification>)
    ensures added == NotificationsFor(objectId, CreatedTypes(types, dueDate, today), dueDate, userId)
  {
    added := [];
    for i := 0 to |types|
      invariant added == NotificationsFor(objectId, CreatedTypes(types[..i], dueDate, today), dueDate, userId)
    {
      var notifType := types[i];
      AddNotificationStep(objectId, types, i, dueDate, today, userId);
      var sendOn := dueDate + Timedelta(notifType);
      if sendOn > today || notifType == DueDateExpiration {
        added := added + [CreateSoxNotification(objectId, notifType, sendOn, userId)];
      }
    }
    assert types[..|types|] == types;
  }
}
