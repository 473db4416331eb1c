/**
 * The notification websocket server of deadline_/notifications/handlers.py.
 *
 * The post_save hook of a Notification publishes the row's id (see
 * `Squash.Insert`); this server receives it as a string, looks the row up,
 * checks that it is unread and that its recipient holds an authenticated
 * socket, and schedules a NOTIFICATION push, which re-checks the recipient
 * when it runs. `ws_connections` maps a user id to that user's socket.
 */
module NotificationDelivery {
  import opened Wrappers
  import opened Registry
  import opened Squash

  // ---------------------------------------------------------------------
  // The message: a notification id in decimal

  predicate IsDigit(c: char) {
    '0' <= c <= '9'
  }

  predicate AllDigits(s: string) {
    forall i :: 0 <= i < |s| ==> IsDigit(s[i])
  }

  /** The number a string of decimal digits spells, most significant first. */
  function DigitsValue(s: string): nat
    requires AllDigits(s)
  {
    if |s| == 0 then 0 else DigitsValue(s[..|s| - 1]) * 10 + (s[|s| - 1] as int - '0' as int)
  }

  /** `str(n)`: the decimal spelling the post_save hook publishes. */
  function Decimal(n: nat): (s: string)
    ensures |s| > 0 && AllDigits(s)
  {
    if n < 10 then [('0' as int + n) as char]
    else Decimal(n / 10) + [('0' as int + n % 10) as char]
  }

  /**
   * `int(msg)` on an optionally signed string of decimal digits; None stands
   * for the ValueError it raises on anything else.
   */
  function ParseInt(s: string): (r: Option<int>)
    ensures r.Some? <==> |s| > 0 && (AllDigits(s) || (|s| > 1 && (s[0] == '-' || s[0] == '+') && AllDigits(s[1..])))
    ensures AllDigits(s) && |s| > 0 ==> r == Some(DigitsValue(s))
    ensures |s| > 1 && s[0] == '-' && AllDigits(s[1..]) ==> r == Some(-(DigitsValue(s[1..]) as int))
    ensures |s| > 1 && s[0] == '+' && AllDigits(s[1..]) ==> r == Some(DigitsValue(s[1..]))
  {
    if |s| == 0 then None
    else if s[0] == '-' || s[0] == '+' then
      if |s| > 1 && AllDigits(s[1..]) then
        var magnitude: int := DigitsValue(s[1..]);
        Some(if s[0] == '-' then -magnitude else magnitude)
      else None
    else if AllDigits(s) then Some(DigitsValue(s))
    else None
  }

  lemma {:induction false} DigitsOfDecimal(n: nat)
    ensures DigitsValue(Decimal(n)) == n
  {
    if n >= 10 {
      var init := Decimal(n / 10);
      var s := init + [('0' as int + n % 10) as char];
      assert s[..|s| - 1] == init;
      DigitsOfDecimal(n / 10);
    }
  }

  /** What the hook publishes parses back to the id. */
  lemma DecimalRoundTrip(n: nat)
    ensures ParseInt(Decimal(n)) == Some(n)
  {
    DigitsOfDecimal(n);
  }

  // ---------------------------------------------------------------------
  // NotificationsHandler

  /** NotificationAlreadyRead and OfflineRecipientError. */
  datatype DeliveryError = AlreadyRead | OfflineRecipient

  /**
   * validate_notification: a read notification is refused first; then one
   * whose recipient has no socket, or an unauthenticated one.
   */
  function ValidateNotification(n: Notification, conns: map<UserId, Connection>): (r: Option<DeliveryError>)
    ensures r.None? <==> !n.isRead && IsOnline(conns, n.recipient)
    ensures n.isRead ==> r == Some(AlreadyRead)
    ensures !n.isRead && !IsOnline(conns, n.recipient) ==> r == Some(OfflineRecipient)
  {
    if n.isRead then Some(AlreadyRead)
    else if n.recipient !in conns then Some(OfflineRecipient)
    else if !conns[n.recipient].isValid then Some(OfflineRecipient)
    else None
  }

  /** `Notification.objects.get(id=...)`: the row with that id, if any. */
  function FindById(rows: seq<Notification>, id: int): (r: Option<Notification>)
    ensures r.Some? ==> r.value in rows && r.value.id == id
    ensures r.None? ==> forall i :: 0 <= i < |rows| ==> rows[i].id != id
  {
    if |rows| == 0 then None
    else if rows[0].id == id then Some(rows[0])
    else FindById(rows[1..], id)
  }

  /** In a well-formed table the row with id `i` is the `i`th row. */
  lemma FindByIdInTable(t: Table, id: int)
    requires WellFormed(t)
    ensures FindById(t.rows, id) == if 0 <= id < |t.rows| then Some(t.rows[id]) else None
  {
    if 0 <= id < |t.rows| {
      assert t.rows[id].id == id;
      var r := FindById(t.rows, id);
      if r.Some? {
        var i :| 0 <= i < |t.rows| && t.rows[i] == r.value;
        assert t.rows[i].id == i;
      }
    }
  }

  /** What fetch_notification gives: the row, or the exception it raises. */
  datatype Fetch = Fetched(n: Notification) | DoesNotExist | Rejected(reason: DeliveryError)

  /** fetch_notification: look the row up, then validate it. */
  function FetchNotification(rows: seq<Notification>, id: int, conns: map<UserId, Connection>): (r: Fetch)
    ensures r.Fetched? <==> FindById(rows, id).Some? && ValidateNotification(FindById(rows, id).value, conns).None?
    ensures r.Fetched? ==> Some(r.n) == FindById(rows, id)
    ensures r == DoesNotExist <==> FindById(rows, id).None?
    ensures r.Rejected? ==> Some(r.reason) == ValidateNotification(FindById(rows, id).value, conns)
  {
    match FindById(rows, id)
    case None => DoesNotExist
    case Some(n) =>
      match ValidateNotification(n, conns)
      case Some(e) => Rejected(e)
      case None => Fetched(n)
  }

  /**
   * receive_message: (processed, the notification whose push it schedules).
   * A message that is not a number, or a failure of the store (`storeFails`,
   * any other exception), is not processed; a missing, read or undeliverable
   * notification is processed with nothing scheduled.
   */
  function ReceiveOutcome(msg: string, storeFails: bool, rows: seq<Notification>, conns: map<UserId, Connection>)
    : (r: (bool, Option<Notification>))
    ensures !r.0 <==> ParseInt(msg).None? || storeFails
    ensures r.1.Some? <==> r.0 && FetchNotification(rows, ParseInt(msg).value, conns).Fetched?
    ensures r.1.Some? ==> r.1.value == FetchNotification(rows, ParseInt(msg).value, conns).n
    ensures r.1.Some? ==> r.1.value in rows && !r.1.value.isRead && IsOnline(conns, r.1.value.recipient)
  {
    match ParseInt(msg)
    case None => (false, None)
    case Some(id) =>
      if storeFails then (false, None)
      else
        match FetchNotification(rows, id, conns)
        case Fetched(n) => (true, Some(n))
        case _ => (true, None)
  }

  /**
   * A new row's id, as published after its save, is delivered to a
   * recipient who is online, and to nobody otherwise.
   */
  lemma PublishedIdIsScheduledForOnlineRecipient(t: Table, id: nat, conns: map<UserId, Connection>)
    requires WellFormed(t) && id < |t.rows| && !t.rows[id].isRead
    ensures ReceiveOutcome(Decimal(id), false, t.rows, conns)
              == (true, if IsOnline(conns, t.rows[id].recipient) then Some(t.rows[id]) else None)
  {
    DecimalRoundTrip(id);
    FindByIdInTable(t, id);
  }

  /** The frames this server sends. */
  datatype Push =
    | NotificationPush(n: Notification)   // {"type": "NOTIFICATION", "notification": {...}}
    | AuthRejected                        // {"type": "ERROR", ...}
    | AuthAccepted                        // {"type": "OK", ...}

  /** send_notification: one push to the recipient's socket when it is online at that moment. */
  function NotificationSends(n: Notification, conns: map<UserId, Connection>): (r: seq<(Handle, Push)>)
    ensures |r| <= 1
    ensures |r| == 1 <==> IsOnline(conns, n.recipient)
    ensures |r| == 1 ==> r[0] == (conns[n.recipient].handle, NotificationPush(n))
  {
    if n.recipient !in conns || !conns[n.recipient].isValid then []
    else [(conns[n.recipient].handle, NotificationPush(n))]
  }

  /** A notification that passed validation is pushed if its recipient has not gone since. */
  lemma ValidatedNotificationIsPushed(n: Notification, conns: map<UserId, Connection>)
    requires ValidateNotification(n, conns).None?
    ensures NotificationSends(n, conns) == [(conns[n.recipient].handle, NotificationPush(n))]
  {
  }

  // ---------------------------------------------------------------------
  // The server

  class NotificationServer {
    var connections: map<UserId, Connection>
    var outbox: seq<(Handle, Push)>
    /** The send_notification futures scheduled and not yet run, oldest first. */
    var pending: seq<Notification>

    constructor ()
      ensures connections == map[] && outbox == [] && pending == []
    {
      connections := map[];
      outbox := [];
      pending := [];
    }

    /**
     * main_handler up to its read loop: an unknown user is dropped; a user
     * with an authenticated socket refuses the newcomer; otherwise the
     * newcomer takes the user's entry, unauthenticated. Nothing is sent.
     */
    method Connect(userId: UserId, h: Handle, userExists: bool) returns (accepted: bool)
      modifies this
      ensures accepted <==> userExists && Registered(old(connections), userId, h).1
      ensures accepted ==> connections == Registered(old(connections), userId, h).0
      ensures !accepted ==> connections == old(connections)
      ensures outbox == old(outbox) && pending == old(pending)
    {
      if !userExists {
        return false;
      }
      if userId in connections && connections[userId].isValid {
        return false;
      }
      connections := connections[userId := Connection(h, false)];
      accepted := true;
    }

    /**
     * One authentication message: an unknown user id is ignored; a bad token
     * is answered with ERROR; a good one validates the socket and is
     * answered with OK.
     */
    method AuthenticateUser(userId: UserId, tokenValid: bool)
      modifies this
      ensures userId !in old(connections) ==> connections == old(connections) && outbox == old(outbox)
      ensures userId in old(connections) && !tokenValid ==>
                connections == old(connections) && outbox == old(outbox) + [(old(connections)[userId].handle, AuthRejected)]
      ensures userId in old(connections) && tokenValid ==>
                connections == Validated(old(connections), userId)
                && outbox == old(outbox) + [(old(connections)[userId].handle, AuthAccepted)]
      ensures pending == old(pending)
    {
      if userId !in connections {
        return;
      }
      var socket := connections[userId].handle;
      if !tokenValid {
        outbox := outbox + [(socket, AuthRejected)];
        return;
      }
      connections := connections[userId := connections[userId].(isValid := true)];
      outbox := outbox + [(socket, AuthAccepted)];
    }

    /** receive_message: schedules the push of a deliverable notification. */
    method ReceiveMessage(msg: string, storeFails: bool, rows: seq<Notification>) returns (processed: bool)
      modifies this
      ensures processed == ReceiveOutcome(msg, storeFails, rows, connections).0
      ensures var scheduled := ReceiveOutcome(msg, storeFails, rows, connections).1;
              pending == old(pending) + (if scheduled.Some? then [scheduled.value] else [])
      ensures connections == old(connections) && outbox == old(outbox)
    {
      var r := ReceiveOutcome(msg, storeFails, rows, connections);
      processed := r.0;
      if r.1.Some? {
        pending := pending + [r.1.value];
      }
    }

    /** The oldest scheduled send_notification runs, checking the recipient again. */
    method SendNotification()
      requires |pending| > 0
      modifies this
      ensures pending == old(pending)[1..]
      ensures outbox == old(outbox) + NotificationSends(old(pending)[0], connections)
      ensures connections == old(connections)
    {
      var n := pending[0];
      pending := pending[1..];
      if n.recipient in connections && connections[n.recipient].isValid {
        outbox := outbox + [(connections[n.recipient].handle, NotificationPush(n))];
      }
    }

    /**
     * One frame in socket `h`'s read loop. The frame is read from the socket
     * the entry holds at that moment, and only then is the entry compared
     * with `h`: a loop whose entry was taken over consumes one frame of the
     * newer socket before it stops. The router has no effect on this state.
     */
    method ReadFrame(userId: UserId, h: Handle) returns (r: ReadResult, readFrom: Handle)
      requires userId in connections
      ensures readFrom == connections[userId].handle
      ensures r == ReadCheck(connections, userId, h)
      ensures r == Overwritten <==> readFrom != h
    {
      readFrom := connections[userId].handle;
      r := ReadCheck(connections, userId, h);
    }

    /**
     * The `finally` block of a handler that did not see itself overwritten,
     * as written: the user's entry is deleted, whichever socket holds it.
     * When the entry is already gone, `del` raises KeyError and nothing
     * changes.
     */
    method Close(userId: UserId) returns (keyError: bool)
      modifies this
      ensures keyError <==> RemovedAsWritten(old(connections), userId).None?
      ensures keyError ==> connections == old(connections)
      ensures !keyError ==> connections == RemovedAsWritten(old(connections), userId).value
      ensures outbox == old(outbox) && pending == old(pending)
    {
      if userId !in connections {
        return true;
      }
      keyError := false;
      connections := connections - {userId};
    }
  }
}
