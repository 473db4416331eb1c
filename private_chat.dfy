/**
 * The private chat websocket server of deadline_/private_chat/handlers.py.
 *
 * `ws_connections` maps a pair (owner, opponent) to the owner's socket in a
 * conversation with that opponent. The handlers decide, from that map and
 * from what `fetch_and_validate_participants` and the token check answer
 * (inputs here), which frames go to which sockets and whether a Message is
 * stored. Frames sent are appended to `outbox`, stored messages to
 * `messages`; each handler iteration is one atomic step.
 */
module PrivateChat {
  import opened Wrappers
  import opened Registry

  type UserId = nat

  /** A key of ws_connections: the owner of the socket and the user they talk to. */
  datatype Pair = Pair(owner: UserId, opponent: UserId)

  /** The key of the same conversation seen from the other side. */
  function Reciprocal(k: Pair): (r: Pair)
    ensures r.owner == k.opponent && r.opponent == k.owner
  {
    Pair(k.opponent, k.owner)
  }

  /** NOT_FOUND_ERR_TYPE, AUTHORIZATION_ERR_TYPE, VALIDATION_ERR_TYPE, WARNING_ERR_TYPE */
  datatype ErrorType = NotFound | Authorization | Validation | Warning

  /** The JSON frames the server sends. */
  datatype Frame =
    | Connected                                      // {'tank': 'YOU ARE CONNECTED :)'}
    | Error(errorType: ErrorType)                    // {'type': 'error', 'error_type': ..., 'message': ...}
    | Authenticated                                  // {'type': 'OK', 'message': 'AUTHENTICATED'}
    | OnlineCheck(isOnline: bool)                    // {'type': 'online-check', 'is_online': ...}
    | OpponentTyping                                 // {'type': 'opponent-typing'}
    | ReceivedMessage(id: nat, senderName: string, text: string)   // {'type': 'received-message', ...}

  /** What fetch_and_validate_participants gives: the owner's username, or the exception it raises. */
  datatype Participants = Found(ownerName: string) | UserDoesNotExist | PairingError

  /** A stored Message of the owner's dialog with the opponent. */
  datatype Message = Message(id: nat, sender: UserId, recipient: UserId, text: string)

  /** The (to_send, is_err, payload) triple of _new_messages_handler; an empty payload is None. */
  datatype Decision = Decision(toSend: bool, isError: bool, payload: Option<Frame>)

  /** The frames one send step schedules, each to its socket. */
  function Addressed(targets: seq<Handle>, f: Frame): (r: seq<(Handle, Frame)>)
    ensures |r| == |targets|
    ensures forall i :: 0 <= i < |r| ==> r[i] == (targets[i], f)
  {
    if |targets| == 0 then [] else [(targets[0], f)] + Addressed(targets[1..], f)
  }

  // ---------------------------------------------------------------------
  // authenticate

  /**
   * _authenticate: an unknown participant gives NOT_FOUND, a token mismatch
   * AUTHORIZATION; only otherwise does the connection become valid, with
   * the OK reply.
   */
  function AuthenticateReply(participants: Participants, tokenMatches: bool): (r: (bool, Frame))
    requires !participants.PairingError?
    ensures r.0 <==> r.1 == Authenticated
    ensures r.0 <==> participants.Found? && tokenMatches
    ensures participants.UserDoesNotExist? ==> r.1 == Error(NotFound)
    ensures participants.Found? && !tokenMatches ==> r.1 == Error(Authorization)
  {
    match participants
    case UserDoesNotExist => (false, Error(NotFound))
    case Found(_) => if tokenMatches then (true, Authenticated) else (false, Error(Authorization))
  }

  /** The map after _authenticate. */
  function AuthenticatedConnections(conns: map<Pair, Connection>, k: Pair, participants: Participants,
                                    tokenMatches: bool): (r: map<Pair, Connection>)
    requires k in conns && !participants.PairingError?
    ensures r.Keys == conns.Keys && r[k].handle == conns[k].handle
    ensures IsOnline(r, k) <==> IsOnline(conns, k) || (participants.Found? && tokenMatches)
    ensures !(participants.Found? && tokenMatches) ==> r == conns
    ensures forall k' :: k' in conns && k' != k ==> r[k'] == conns[k']
  {
    if AuthenticateReply(participants, tokenMatches).0 then Validated(conns, k) else conns
  }

  /** A second successful authentication leaves the map as the first one left it. */
  lemma RepeatedAuthenticationIsIdempotent(conns: map<Pair, Connection>, k: Pair, participants: Participants,
                                           tokenMatches: bool)
    requires k in conns && participants.Found? && tokenMatches
    ensures var once := AuthenticatedConnections(conns, k, participants, tokenMatches);
            AuthenticatedConnections(once, k, participants, tokenMatches) == once
  {
    ValidatedIsIdempotent(conns, k);
  }

  /**
   * The frames authenticate sends after _authenticate, as written: the
   * reply and an online-check to the owner, and `is_online: True` to the
   * opponent whenever the opponent is online, whatever the reply was.
   */
  function AuthenticationSendsAsWritten(conns: map<Pair, Connection>, k: Pair, reply: Frame): (r: seq<(Handle, Frame)>)
    requires k in conns
    ensures |r| >= 2 && r[0] == (conns[k].handle, reply)
    ensures r[1] == (conns[k].handle, OnlineCheck(IsOnline(conns, Reciprocal(k))))
    ensures |r| == 3 <==> IsOnline(conns, Reciprocal(k))
    ensures |r| == 3 ==> r[2] == (conns[Reciprocal(k)].handle, OnlineCheck(true))
  {
    var online := IsOnline(conns, Reciprocal(k));
    [(conns[k].handle, reply), (conns[k].handle, OnlineCheck(online))]
    + (if online then [(conns[Reciprocal(k)].handle, OnlineCheck(true))] else [])
  }

  /** The same sends with the opponent told only of an owner who did authenticate. */
  function AuthenticationSends(conns: map<Pair, Connection>, k: Pair, reply: Frame): (r: seq<(Handle, Frame)>)
    requires k in conns
    ensures |r| >= 2 && r[0] == (conns[k].handle, reply)
    ensures r[1] == (conns[k].handle, OnlineCheck(IsOnline(conns, Reciprocal(k))))
    ensures |r| == 3 <==> reply == Authenticated && IsOnline(conns, Reciprocal(k))
    ensures |r| == 3 ==> r[2] == (conns[Reciprocal(k)].handle, OnlineCheck(true))
  {
    var online := IsOnline(conns, Reciprocal(k));
    [(conns[k].handle, reply), (conns[k].handle, OnlineCheck(online))]
    + (if online && reply == Authenticated then [(conns[Reciprocal(k)].handle, OnlineCheck(true))] else [])
  }

  /**
   * With the check, the opponent hears `is_online: True` only about an owner
   * who is online afterwards, and then also hears it whenever it is online
   * itself and the owner has just authenticated.
   */
  lemma OpponentToldOnlyOfAuthenticatedOwner(conns: map<Pair, Connection>, k: Pair, participants: Participants,
                                             tokenMatches: bool)
    requires k in conns && !participants.PairingError?
    ensures var after := AuthenticatedConnections(conns, k, participants, tokenMatches);
            var sends := AuthenticationSends(after, k, AuthenticateReply(participants, tokenMatches).1);
            (|sends| == 3 ==> IsOnline(after, k) && IsOnline(after, Reciprocal(k)))
            && (participants.Found? && tokenMatches && IsOnline(after, Reciprocal(k)) ==> |sends| == 3)
  {
  }

  /**
   * As written, a failed authentication still tells a waiting opponent that
   * the owner is online, although the owner's socket is not valid.
   */
  lemma AuthenticationAsWrittenAnnouncesUnauthenticatedOwner()
    ensures var conns := map[Pair(1, 2) := Connection(10, false), Pair(2, 1) := Connection(20, true)];
            var after := AuthenticatedConnections(conns, Pair(1, 2), Found("owner"), false);
            && !IsOnline(after, Pair(1, 2))
            && AuthenticationSendsAsWritten(after, Pair(1, 2), AuthenticateReply(Found("owner"), false).1)[2]
               == (20, OnlineCheck(true))
  {
    var conns := map[Pair(1, 2) := Connection(10, false), Pair(2, 1) := Connection(20, true)];
    assert Reciprocal(Pair(1, 2)) == Pair(2, 1);
    assert IsOnline(conns, Pair(2, 1));
  }

  // ---------------------------------------------------------------------
  // new-message

  /** A falsy `message` value: absent or empty. */
  predicate Blank(message: Option<string>) {
    message.None? || message.value == ""
  }

  /**
   * _new_messages_handler. Its checks come in a fixed order: a pair with no
   * socket is dropped silently; then an empty message is refused before the
   * participants are looked up; then a failed lookup; then an owner who has
   * not authenticated. Only when all pass is a message stored, with the
   * next id, and echoed as received-message.
   */
  function NewMessageDecision(conns: map<Pair, Connection>, k: Pair, message: Option<string>,
                              participants: Participants, nextId: nat): (d: Decision)
    ensures d.toSend <==> k in conns
    ensures k !in conns ==> d == Decision(false, true, None)
    ensures d.toSend ==> d.payload.Some?
    ensures !d.isError <==> k in conns && !Blank(message) && participants.Found? && conns[k].isValid
    ensures k in conns && Blank(message) ==> d.payload == Some(Error(Validation))
    ensures k in conns && !Blank(message) && !participants.Found? ==> d.payload == Some(Error(NotFound))
    ensures k in conns && !Blank(message) && participants.Found? && !conns[k].isValid ==>
              d.payload == Some(Error(Authorization))
    ensures !d.isError ==> d.payload == Some(ReceivedMessage(nextId, participants.ownerName, message.value))
  {
    if k !in conns then Decision(false, true, None)
    else if Blank(message) then Decision(true, true, Some(Error(Validation)))
    else if !participants.Found? then Decision(true, true, Some(Error(NotFound)))
    else if !conns[k].isValid then Decision(true, true, Some(Error(Authorization)))
    else Decision(true, false, Some(ReceivedMessage(nextId, participants.ownerName, message.value)))
  }

  /**
   * The sockets new_messages_handler fans the payload out to: always the
   * owner's; the opponent's too when the payload is not an error and the
   * opponent is online.
   */
  function FanOutTargets(conns: map<Pair, Connection>, k: Pair, isError: bool): (r: seq<Handle>)
    requires k in conns
    ensures 1 <= |r| <= 2 && r[0] == conns[k].handle
    ensures |r| == 2 <==> !isError && IsOnline(conns, Reciprocal(k))
    ensures |r| == 2 ==> r[1] == conns[Reciprocal(k)].handle
  {
    if !isError && IsOnline(conns, Reciprocal(k)) then [conns[k].handle, conns[Reciprocal(k)].handle]
    else [conns[k].handle]
  }

  /** An error decision reaches the sender's socket alone; a stored message reaches an online opponent too. */
  lemma ErrorsReachOnlyTheSender(conns: map<Pair, Connection>, k: Pair, message: Option<string>,
                                 participants: Participants, nextId: nat)
    requires k in conns
    ensures var d := NewMessageDecision(conns, k, message, participants, nextId);
            (d.isError ==> FanOutTargets(conns, k, d.isError) == [conns[k].handle])
            && (!d.isError && IsOnline(conns, Reciprocal(k)) ==>
                  FanOutTargets(conns, k, d.isError) == [conns[k].handle, conns[Reciprocal(k)].handle])
  {
  }

  // ---------------------------------------------------------------------
  // is-typing

  /**
   * _is_typing: (to_send, payload). A pair with no socket and an
   * authenticated owner both give (False, {}); a failed lookup gives
   * NOT_FOUND and an unauthenticated owner AUTHORIZATION.
   */
  function IsTypingCheck(conns: map<Pair, Connection>, k: Pair, participants: Participants): (r: (bool, Option<Frame>))
    ensures r.0 <==> r.1.Some?
    ensures r.0 <==> k in conns && !(participants.Found? && conns[k].isValid)
    ensures k in conns && !participants.Found? ==> r.1 == Some(Error(NotFound))
    ensures k in conns && participants.Found? && !conns[k].isValid ==> r.1 == Some(Error(Authorization))
  {
    if k !in conns then (false, None)
    else if !participants.Found? then (true, Some(Error(NotFound)))
    else if !conns[k].isValid then (true, Some(Error(Authorization)))
    else (false, None)
  }

  /**
   * The one frame is_typing_handler sends: the error to the owner; else
   * opponent-typing to an online opponent; else a WARNING to the owner.
   */
  function IsTypingSends(conns: map<Pair, Connection>, k: Pair, participants: Participants): (r: seq<(Handle, Frame)>)
    requires k in conns
    ensures |r| == 1
    ensures r[0].1 == OpponentTyping <==> IsOnline(conns, k) && participants.Found? && IsOnline(conns, Reciprocal(k))
    ensures r[0].1 == OpponentTyping ==> r[0].0 == conns[Reciprocal(k)].handle
    ensures r[0].1 != OpponentTyping ==> r[0].0 == conns[k].handle
    ensures r[0].1 == Error(Warning) <==>
              IsOnline(conns, k) && participants.Found? && !IsOnline(conns, Reciprocal(k))
    ensures IsTypingCheck(conns, k, participants).0 ==>
              r[0] == (conns[k].handle, IsTypingCheck(conns, k, participants).1.value)
  {
    var check := IsTypingCheck(conns, k, participants);
    if check.0 then [(conns[k].handle, check.1.value)]
    else if IsOnline(conns, Reciprocal(k)) then [(conns[Reciprocal(k)].handle, OpponentTyping)]
    else [(conns[k].handle, Error(Warning))]
  }

  // ---------------------------------------------------------------------
  // The server

  class ChatServer {
    var connections: map<Pair, Connection>
    var outbox: seq<(Handle, Frame)>
    var messages: seq<Message>

    constructor ()
      ensures connections == map[] && outbox == [] && messages == []
    {
      connections := map[];
      outbox := [];
      messages := [];
    }

    /** fan_out_message: the payload goes to each socket in turn. */
    method FanOut(targets: seq<Handle>, payload: Frame)
      modifies this
      ensures outbox == old(outbox) + Addressed(targets, payload)
      ensures connections == old(connections) && messages == old(messages)
    {
      var i := 0;
      while i < |targets|
        invariant 0 <= i <= |targets|
        invariant outbox == old(outbox) + Addressed(targets[..i], payload)
        invariant connections == old(connections) && messages == old(messages)
      {
        assert Addressed(targets[..i + 1], payload) == Addressed(targets[..i], payload) + [(targets[i], payload)];
        outbox := outbox + [(targets[i], payload)];
        i := i + 1;
      }
      assert targets[..i] == targets;
    }

    /**
     * main_handler up to its read loop: a pair whose participants fail the
     * lookup is dropped; a pair held by an authenticated socket refuses the
     * newcomer; otherwise the newcomer takes the pair, unauthenticated, and
     * is greeted.
     */
    method Connect(k: Pair, h: Handle, participants: Participants) returns (accepted: bool)
      modifies this
      ensures accepted <==> participants.Found? && Registered(old(connections), k, h).1
      ensures accepted ==> connections == Registered(old(connections), k, h).0 && outbox == old(outbox) + [(h, Connected)]
      ensures !accepted ==> connections == old(connections) && outbox == old(outbox)
      ensures messages == old(messages)
    {
      if !participants.Found? {
        return false;
      }
      if k in connections && connections[k].isValid {
        return false;
      }
      connections := connections[k := Connection(h, false)];
      outbox := outbox + [(h, Connected)];
      accepted := true;
    }

    /**
     * One authenticate packet, as written: the opponent, when online, is
     * told `is_online: True` whether or not the owner authenticated.
     */
    method Authenticate(k: Pair, participants: Participants, tokenMatches: bool)
      requires k in connections && !participants.PairingError?
      modifies this
      ensures connections == AuthenticatedConnections(old(connections), k, participants, tokenMatches)
      ensures outbox == old(outbox) + AuthenticationSendsAsWritten(connections, k, AuthenticateReply(participants, tokenMatches).1)
      ensures messages == old(messages)
    {
      var valid, reply := AuthenticateReply(participants, tokenMatches).0, AuthenticateReply(participants, tokenMatches).1;
      if valid {
        connections := connections[k := connections[k].(isValid := true)];
      }
      var owner := connections[k].handle;
      var online := Reciprocal(k) in connections && connections[Reciprocal(k)].isValid;
      outbox := outbox + [(owner, reply), (owner, OnlineCheck(online))];
      if online {
        outbox := outbox + [(connections[Reciprocal(k)].handle, OnlineCheck(true))];
      }
    }

    /** One new-message packet: decide, store on success, fan out. */
    method NewMessage(k: Pair, message: Option<string>, participants: Participants) returns (d: Decision)
      modifies this
      ensures d == NewMessageDecision(old(connections), k, message, participants, |old(messages)|)
      ensures connections == old(connections)
      ensures !d.isError ==>
                messages == old(messages) + [Message(|old(messages)|, k.owner, k.opponent, message.value)]
      ensures d.isError ==> messages == old(messages)
      ensures !d.toSend ==> outbox == old(outbox)
      ensures d.toSend ==> (k in connections &&
                outbox == old(outbox) + Addressed(FanOutTargets(connections, k, d.isError), d.payload.value))
    {
      d := NewMessageDecision(connections, k, message, participants, |messages|);
      if !d.isError {
        messages := messages + [Message(|messages|, k.owner, k.opponent, message.value)];
      }
      if d.toSend {
        FanOut(FanOutTargets(connections, k, d.isError), d.payload.value);
      }
    }

    /** One is-typing packet; nothing is stored. */
    method IsTyping(k: Pair, participants: Participants)
      requires k in connections
      modifies this
      ensures connections == old(connections) && messages == old(messages)
      ensures outbox == old(outbox) + IsTypingSends(connections, k, participants)
    {
      var check := IsTypingCheck(connections, k, participants);
      var ownerSocket := connections[k].handle;
      if check.0 {
        outbox := outbox + [(ownerSocket, check.1.value)];
        return;
      }
      if Reciprocal(k) in connections && connections[Reciprocal(k)].isValid {
        outbox := outbox + [(connections[Reciprocal(k)].handle, OpponentTyping)];
      } else {
        outbox := outbox + [(ownerSocket, Error(Warning))];
      }
    }

    /**
     * One frame received by socket `h`'s read loop: the loop stops when
     * another socket has taken its pair. The frame is then handed to the
     * router, which has no effect on this state.
     */
    method ReadFrame(k: Pair, h: Handle) returns (r: ReadResult)
      requires k in connections
      ensures r == ReadCheck(connections, k, h)
      ensures r == Overwritten <==> connections[k].handle != h
    {
      r := ReadCheck(connections, k, h);
    }

    /**
     * The `finally` block of a handler that did not see itself overwritten,
     * as written: the pair's entry is deleted, whichever socket holds it,
     * and an online opponent is told `is_online: False`. When the entry is
     * already gone, `del` raises KeyError and nothing changes.
     */
    method Close(k: Pair) returns (keyError: bool)
      modifies this
      ensures keyError <==> RemovedAsWritten(old(connections), k).None?
      ensures keyError ==> connections == old(connections) && outbox == old(outbox)
      ensures !keyError ==> connections == RemovedAsWritten(old(connections), k).value
      ensures !keyError ==> (outbox == old(outbox) +
                if IsOnline(connections, Reciprocal(k))
                then [(connections[Reciprocal(k)].handle, OnlineCheck(false))]
                else [])
      ensures messages == old(messages)
    {
      if k !in connections {
        return true;
      }
      keyError := false;
      connections := connections - {k};
      if Reciprocal(k) in connections && connections[Reciprocal(k)].isValid {
        outbox := outbox + [(connections[Reciprocal(k)].handle, OnlineCheck(false))];
      }
    }
  }
}
