/**
 * The connection registry both websocket servers keep: `ws_connections`,
 * a map from a key (a chat pair in deadline_/private_chat/handlers.py, a
 * user id in deadline_/notifications/handlers.py) to the connection that
 * holds it. A socket is a `Handle`; a connection starts unauthenticated
 * and becomes valid when its user authenticates.
 *
 * Each server's main_handler registers a socket, reads frames while
 * checking that it still holds its key, and clears its key when it stops.
 * The clearing step is given twice: as written (`RemovedAsWritten`), which
 * is what the servers' `Close` methods do, and with the ownership check the
 * read loop makes (`Removed`), the behaviour the code evidently intends.
 */
module Registry {
  import opened Wrappers

  /** The identity of a websocket. */
  type Handle = nat

  /** A WebSocketConnection / UserConnection: its socket and whether it has authenticated. */
  datatype Connection = Connection(handle: Handle, isValid: bool)

  /** The key is held by an authenticated connection. */
  predicate IsOnline<K>(conns: map<K, Connection>, k: K) {
    k in conns && conns[k].isValid
  }

  /**
   * Registration in main_handler: refused, leaving the map alone, when the
   * key is held by a valid connection; otherwise the key maps to the new,
   * not yet valid, connection, replacing any unauthenticated one.
   */
  function Registered<K>(conns: map<K, Connection>, k: K, h: Handle): (r: (map<K, Connection>, bool))
    ensures r.1 <==> !IsOnline(conns, k)
    ensures !r.1 ==> r.0 == conns
    ensures r.1 ==> k in r.0 && r.0[k] == Connection(h, false)
    ensures r.0.Keys - {k} == conns.Keys - {k}
    ensures forall k' :: k' != k && k' in conns ==> k' in r.0 && r.0[k'] == conns[k']
  {
    if IsOnline(conns, k) then (conns, false)
    else (conns[k := Connection(h, false)], true)
  }

  /** Successful authentication: the connection at the key becomes valid, its socket unchanged. */
  function Validated<K>(conns: map<K, Connection>, k: K): (r: map<K, Connection>)
    requires k in conns
    ensures IsOnline(r, k) && r[k].handle == conns[k].handle
    ensures r.Keys == conns.Keys
    ensures forall k' :: k' in conns && k' != k ==> r[k'] == conns[k']
  {
    conns[k := conns[k].(isValid := true)]
  }

  /** Authenticating again changes nothing: an authenticated key is left as it is. */
  lemma ValidatedIsIdempotent<K>(conns: map<K, Connection>, k: K)
    requires k in conns
    ensures Validated(Validated(conns, k), k) == Validated(conns, k)
    ensures IsOnline(conns, k) ==> Validated(conns, k) == conns
  {
  }

  /** What the read loop does with a frame: carry on, or stop because its key was taken over. */
  datatype ReadResult = Proceed | Overwritten

  /** The check after each received frame: the key must still hold this socket. */
  function ReadCheck<K>(conns: map<K, Connection>, k: K, h: Handle): (r: ReadResult)
    requires k in conns
    ensures r == Proceed <==> conns[k].handle == h
  {
    if conns[k].handle != h then Overwritten else Proceed
  }

  /**
   * The `finally` block as written, for a loop that did not see its key
   * taken over: the key is deleted whichever socket holds it, and `del`
   * raises KeyError (None) when the key is already gone.
   */
  function RemovedAsWritten<K>(conns: map<K, Connection>, k: K): (r: Option<map<K, Connection>>)
    ensures r.None? <==> k !in conns
    ensures r.Some? ==> k !in r.value && r.value.Keys == conns.Keys - {k}
    ensures r.Some? ==> forall k' :: k' in conns && k' != k ==> r.value[k'] == conns[k']
  {
    if k in conns then Some(conns - {k}) else None
  }

  /** The `finally` block with the ownership check: only the socket that holds the key clears it. */
  function Removed<K>(conns: map<K, Connection>, k: K, h: Handle): (r: map<K, Connection>)
    ensures k in conns && conns[k].handle == h ==> k !in r
    ensures forall k' :: k' in conns && (k' != k || conns[k'].handle != h) ==> k' in r && r[k'] == conns[k']
    ensures r.Keys <= conns.Keys
  {
    if k in conns && conns[k].handle == h then conns - {k} else conns
  }

  // ---------------------------------------------------------------------
  // Runs of registry steps

  /** One step on the registry, by some socket's handler. */
  datatype Action<K> =
    | Register(key: K, handle: Handle)
    | Authenticate(key: K)
    | Close(key: K, handle: Handle)

  /** A step with the ownership check on close; authenticating an absent key changes nothing. */
  function Step<K>(conns: map<K, Connection>, a: Action<K>): map<K, Connection> {
    match a
    case Register(k, h) => Registered(conns, k, h).0
    case Authenticate(k) => if k in conns then Validated(conns, k) else conns
    case Close(k, h) => Removed(conns, k, h)
  }

  /**
   * The same step with the close as written; a close that raises KeyError
   * ends its handler and leaves the map alone.
   */
  function StepAsWritten<K>(conns: map<K, Connection>, a: Action<K>): map<K, Connection> {
    match a
    case Register(k, h) => Registered(conns, k, h).0
    case Authenticate(k) => if k in conns then Validated(conns, k) else conns
    case Close(k, _) =>
      match RemovedAsWritten(conns, k)
      case Some(after) => after
      case None => conns
  }

  function Run<K>(conns: map<K, Connection>, actions: seq<Action<K>>): map<K, Connection>
    decreases |actions|
  {
    if |actions| == 0 then conns else Run(Step(conns, actions[0]), actions[1..])
  }

  function RunAsWritten<K>(conns: map<K, Connection>, actions: seq<Action<K>>): map<K, Connection>
    decreases |actions|
  {
    if |actions| == 0 then conns else RunAsWritten(StepAsWritten(conns, actions[0]), actions[1..])
  }

  /**
   * An authenticated socket keeps its key, and stays valid, through any
   * steps of other sockets: registrations are refused, authentications
   * keep it valid, and others' closes leave it alone. Only its own close
   * removes it.
   */
  lemma {:induction false} OnlineUntilOwnClose<K>(conns: map<K, Connection>, actions: seq<Action<K>>, k: K, h: Handle)
    requires k in conns && conns[k] == Connection(h, true)
    requires forall i :: 0 <= i < |actions| ==> actions[i] != Close(k, h)
    ensures k in Run(conns, actions) && Run(conns, actions)[k] == Connection(h, true)
    decreases |actions|
  {
    if |actions| > 0 {
      var next := Step(conns, actions[0]);
      assert k in next && next[k] == Connection(h, true);
      OnlineUntilOwnClose(next, actions[1..], k, h);
    }
  }

  /**
   * The close as written loses a newer, authenticated connection: socket 1
   * registers, socket 2 replaces it before it authenticates and then
   * authenticates, and socket 1's handler stops without having read a frame
   * after the takeover. Its `finally` deletes the key socket 2 holds, so
   * socket 2's own close later raises KeyError. With the ownership check the
   * key stays with socket 2.
   */
  lemma StaleCloseDeletesNewerEntry()
    ensures var actions := [Register(0, 1), Register(0, 2), Authenticate(0), Close(0, 1)];
            && 0 !in RunAsWritten(map[], actions)
            && RemovedAsWritten(RunAsWritten(map[], actions), 0).None?
            && IsOnline(Run(map[], actions), 0) && Run(map[], actions)[0].handle == 2
  {
    var actions: seq<Action<nat>> := [Register(0, 1), Register(0, 2), Authenticate(0), Close(0, 1)];
    var c2 := map[0 := Connection(2, false)];
    var c3 := map[0 := Connection(2, true)];
    assert Step(Step(map[], actions[0]), actions[1]) == c2;
    assert StepAsWritten(StepAsWritten(map[], actions[0]), actions[1]) == c2;
    assert actions[2..][1..] == [Close(0, 1)];
    assert Run(map[], actions) == Run(c3, [Close(0, 1)]);
    assert RunAsWritten(map[], actions) == RunAsWritten(c3, [Close(0, 1)]);
  }
}
