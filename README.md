# Deadline notifications and chat, in Dafny

A verified model of three parts of the Deadline coding-challenge site:

- **Notification squashing** (`deadline_/social/models.py`). Notifications are created through
  `NotificationManager`. The four "receive" families fold repeated events into one unread
  row, and the `*_SQUASHED` types keep a list of actors. These families are follows,
  submission upvotes, newsfeed-item likes and newsfeed-item comments.
  - The `pre_save` validators check each row's content shape.
  - The `post_save` hook hands every newly created row's id to delivery.
  - Likes, comments and replies of newsfeed items trigger the creators.
- **The private chat websocket server** (`deadline_/private_chat/handlers.py`).
  - It has a registry of sockets keyed by (owner, opponent) and an authentication handshake.
  - It handles new messages with a fan-out to the opponent and typing notices.
  - When a socket's handler ends without having seen itself replaced, it deletes its pair's
    entry, whichever socket holds it (see "## Findings").
- **The notification websocket server** (`deadline_/notifications/handlers.py`). It receives a
  published notification id, validates the row, pushes it to the recipient's authenticated
  socket, and authenticates sockets.

Files, one module each:

| file | module | contents |
|---|---|---|
| `wrappers.dfy` | `Wrappers` | `Option` |
| `shape.dfy` | `Shape` | content fields and values, the validators, the type-to-fields tables |
| `squash.dfy` | `Squash` | the Notification table on values; the squash engine; its invariants and transitions |
| `social.dfy` | `Social` | the plain creators, likes, and the `Store` class that the model methods update |
| `registry.dfy` | `Registry` | the `ws_connections` registry shared by both servers; the stale-close finding |
| `private_chat.dfy` | `PrivateChat` | the chat handlers and the `ChatServer` class |
| `notifications.dfy` | `NotificationDelivery` | the notification handlers and the `NotificationServer` class |

The squash engine is stated on values: `Squash.Receive(table, event)` returns the new table and
the creator's result.

- The table's `updated_at` is a logical clock, so each save gets a fresh, larger stamp.
- `deliveries` lists the ids the `post_save` hook published.
- `Social.Store` keeps the same state in fields. Its methods are proved equal to the functions.
  The creators, likes and comments preserve `Valid()`: every row passes
  `notification_type_validation`, its actor and accumulator fields have the shapes the engine
  reads, and ids are positions. `SaveNew` and `SaveExisting`, like `_create` and `save()`, can
  store a row that passes validation but is not `WellShaped`, such as a squashed follow whose
  `followers` is a number.

The servers are classes:

- `connections` is `ws_connections`. A socket is a `Handle`.
- Every frame a handler sends is appended to `outbox` as (socket, frame).
- The chat server's stored messages go to `messages`. The notification server's scheduled
  `send_notification` futures go to `pending`.
- Each handler iteration is one atomic step.
- Database lookups and token checks the handlers make are inputs of the step.
  - `Participants` is what `fetch_and_validate_participants` returns or raises.
  - `tokenMatches` and `tokenValid` are the token checks.
  - `userExists` is the user lookup.
  - `storeFails` stands for any other exception while fetching.

Where the code and its tests disagree, the model follows the code.
`deadline_/social/tests/models/test_notification.py:79-80` expects a newsfeed-item-like
notification without `nw_item_id`. The creator at `deadline_/social/models.py:487-490` writes
that field, and `Squash.Singleton` includes it.

The notification server's read loop reads from the connection stored for the user
(`deadline_/notifications/handlers.py:168`), not from its own socket. Only afterwards does it
compare that connection with its socket. A loop whose entry was taken over therefore consumes
one frame of the newer socket before it stops. `NotificationDelivery.NotificationServer.ReadFrame`
states this: the frame comes from `readFrom`, the stored socket.

## Model

| member | source | states |
|---|---|---|
| Shape.FirstMissing | deadline_/social/models.py:667-671 | the first required field absent from the content; none exactly when every required field is present; every earlier field is present |
| Shape.Validate | deadline_/social/models.py:661-679 | the three ordered checks: an unknown type is refused first; a missing field is named and is absent; extra keys are reported only once all required fields are present, and they are exactly the keys that are not required |
| Shape.ValidateAcceptsExactShape | deadline_/social/models.py:661-679 | with a table entry that lists each field once, a row is accepted iff its type is known and its keys are exactly the required fields |
| Shape.ExactShapeIsAccepted | deadline_/social/models.py:667-679 | content whose keys are exactly the required fields is accepted, whatever the table entry |
| Shape.RepeatedFieldLetsExtraKeyThrough | deadline_/social/models.py:674-679 | the extra-key check compares against the length of the required list, so an entry that repeats a field lets an unrequired key through |
| Shape.NotificationFields | deadline_/social/models.py:661-667 | a type has a table entry iff it is listed, and each entry names each field once |
| Shape.NewsfeedItemFields | deadline_/social/models.py:157-163 | the same for newsfeed item types |
| Shape.NotificationTypeValidation | deadline_/social/models.py:660-679 | notification_type_validation accepts iff the type is listed and the content's keys are its fields; it raises the type error iff the type is unlisted |
| Shape.NwItemValidation | deadline_/social/models.py:156-175 | nw_item_validation: the same for newsfeed items |
| Squash.Insert | deadline_/social/models.py:209-214 | `_create`: a rejected shape raises the validator's error and changes nothing; otherwise one unread row is appended with the next id and a fresh stamp, and its id is delivered |
| Squash.Update | deadline_/social/models.py:368 | `save()` of an existing row: only that row changes, taking the new type, the new content and a fresh stamp; nothing is delivered |
| Squash.InsertKeepsWellFormed | deadline_/social/models.py:209-214 | inserting a well-shaped row keeps ids equal to positions and stamps distinct and older than the clock; a valid table stays valid |
| Squash.UpdateKeepsWellFormed | deadline_/social/models.py:360-368 | updating a row to a well-shaped one keeps the table well formed, and a valid table stays valid |
| Squash.BaseFamily | deadline_/social/models.py:306 | the family whose TYPE a notification type is, inverse to BaseType |
| Squash.SquashedFamily | deadline_/social/models.py:307 | the family whose SQUASHED_TYPE a notification type is, inverse to SquashedType |
| Squash.LastSquashable | deadline_/social/models.py:610-620 | `.last()` of the filter under `ordering = ('updated_at',)`: none iff no row is unread, of the family's two types, for the recipient and in the event's scope; otherwise a matching row with the latest stamp among the matches |
| Squash.SingletonIsWellShaped | deadline_/social/models.py:325-329 | the content a family creator writes for a new row passes notification_type_validation and carries the actor's id and name |
| Squash.ConvertedIsWellShaped | deadline_/social/models.py:424-444 | the content convert_to_squashed_type writes passes notification_type_validation and holds a list accumulator |
| Squash.ReceiveKeepsWellFormed | deadline_/social/models.py:314-378 | every write of the squash engine leaves the table well formed |
| Squash.ReceiveKeepsValid | deadline_/social/models.py:314-378 | from a valid table the engine never raises a shape error, only InvalidFollowError; it saves a row iff the actor is not the recipient; the table stays valid |
| Squash.SelfEventChangesNothing | deadline_/social/models.py:319-320 | an actor acting on themselves changes nothing: a self-follow raises InvalidFollowError, the other families return None |
| Squash.CreateWhenNothingSquashable | deadline_/social/models.py:322-329 | with no squashable row, exactly one unread base-type row for the recipient is appended, holding the singleton content, and its id is delivered |
| Squash.ConvertWhenLastIsSingleton | deadline_/social/models.py:346-369 | when the last match has the base type, that row alone changes: it takes the squashed type, its accumulator is [previous entry, new entry], it stays unread for the same recipient, and nothing is delivered |
| Squash.AppendWhenLastIsSquashed | deadline_/social/models.py:371-378 | when the last match is squashed, the new entry is appended to its accumulator, every other row and key is unchanged, and nothing is delivered |
| Squash.UnmatchedRowsAreNeverTouched | deadline_/social/models.py:331-340 | rows the filter does not match, read rows in particular, are never changed and never removed |
| Squash.DeliveredOnlyWhenCreated | deadline_/social/models.py:683-686 | the post_save hook delivers only a created row: either the table grows by one and that id is delivered, or its size and the deliveries are unchanged |
| Squash.FreshSingletonAfterRead | deadline_/social/models.py:331-340 | once every row of the family for the recipient is read, the next event creates a fresh singleton |
| Squash.SingletonCarriesScope | deadline_/social/models.py:401-408 | a created row holds the submission or item id its family filters on |
| Squash.ConvertedCarriesScope | deadline_/social/models.py:430-441 | a converted row still holds that id |
| Squash.FirstEntryIsTheSingletons | deadline_/social/models.py:360-366 | converting a singleton makes its actor the first accumulator entry |
| Squash.SameKeyMatchesSameRows | deadline_/social/models.py:455-465 | events of one family, recipient and scope match the same rows |
| Squash.OnlyMatchIsLast | deadline_/social/models.py:455-465 | the only matching row is the one `.last()` picks |
| Squash.ConvertNewestRow | deadline_/social/models.py:415-444 | a match on the newest row alone converts it in place |
| Squash.AppendToNewestRow | deadline_/social/models.py:446-453 | a match on the newest row alone appends to it |
| Squash.SecondEventConverts | deadline_/social/models.py:314-369 | the second event of a key converts the singleton the first one created, with one delivery in all |
| Squash.ThreeEntriesInOrder | deadline_/social/models.py:505-531 | convert then append leaves the three actors in arrival order |
| Squash.ThreeEventsSquashIntoOneRow | deadline_/social/models.py:480-531 | three events of one key against a fresh recipient leave one squashed row, delivered once, holding the three actors in arrival order |
| Social.PlainNotice | deadline_/social/models.py:233-299 | the five non-squashing creators: none iff the comment's author is the user to be notified; otherwise the row goes to that user |
| Social.PlainNoticeIsAccepted | deadline_/social/models.py:233-299 | each plain creator writes exactly its type's fields, of a type the squash engine never matches |
| Social.PlainCreationKeepsValid | deadline_/social/models.py:245-255 | a declined creation changes nothing and returns None; otherwise one unread row for the recipient is appended and delivered; validity is kept |
| Social.ValidUpvoteIsSaved | deadline_/social/models.py:646-647 | an upvote that passes is_valid_submission_upvote_notification always saves a notification |
| Social.FirstLike | deadline_/social/models.py:144 | `.filter(...).first()`: none iff the pair is not liked; otherwise the first position holding it |
| Social.LikeThenUnlikeRestores | deadline_/social/models.py:132-148 | remove_like undoes like: liking a fresh pair and then removing it restores the likes |
| Social.UnlikeRemovesThePair | deadline_/social/models.py:143-148 | with unique likes, removing leaves the pair unliked, keeps the likes unique and shrinks them by one exactly when the pair was liked |
| Social.Store.constructor | deadline_/social/models.py:623-636 | an empty, valid store |
| Social.Store.Create | deadline_/social/models.py:205-207 | NotificationManager.create always raises ForbiddenMethodError |
| Social.Store.SaveNew | deadline_/social/models.py:209-214 | the state after `_create` is Squash.Insert of the state before |
| Social.Store.SaveExisting | deadline_/social/models.py:368 | the state after a save is Squash.Update of the state before |
| Social.Store.ConvertToSquashedType | deadline_/social/models.py:505-523 | the state after is Squash.ConvertToSquashedType of the state before |
| Social.Store.AddToSquashedType | deadline_/social/models.py:525-531 | the state after is Squash.AddToSquashedType of the state before |
| Social.Store.SquashInto | deadline_/social/models.py:496-503 | the state after is Squash.SquashInto of the state before |
| Social.Store.CreateSquashable | deadline_/social/models.py:558-567 | a family creator: the table after is Squash.Receive of the table before; likes and comments are untouched; the store stays valid |
| Social.Store.CreatePlain | deadline_/social/models.py:257-270 | a plain creator: the table after is Social.PlainCreation of the table before; the store stays valid |
| Social.Store.Like | deadline_/social/models.py:132-141 | an existing like raises LikeAlreadyExistsError and changes nothing; otherwise the like is appended and, unless notifications are off or the liker is the author, the item's author is notified through the like family |
| Social.Store.RemoveLike | deadline_/social/models.py:143-148 | raises NonExistentLikeError iff the pair is not liked; the likes become Unliked, still unique; nothing else changes |
| Social.Store.AddComment | deadline_/social/models.py:150-153 | the author of the item is notified first, unless off or commenting on their own item; then the comment is stored with the next id |
| Social.Store.AddReply | deadline_/social/models.py:186-190 | the reply is stored under the parent's item with the parent link; then the parent's author is notified, unless off or the replier is that author |
| Registry.Registered | deadline_/private_chat/handlers.py:251-258 | registration is refused iff the key is held by an authenticated connection; otherwise the key maps to the new, unauthenticated connection; other keys are unchanged |
| Registry.Validated | deadline_/private_chat/handlers.py:100 | authentication makes the key's connection valid, keeping its socket and every other entry |
| Registry.ValidatedIsIdempotent | deadline_/notifications/handlers.py:137-141 | authenticating an authenticated key again changes nothing, so repeating a successful authentication is idempotent in both servers |
| Registry.ReadCheck | deadline_/private_chat/handlers.py:267-270 | the loop proceeds iff the key still holds its own socket |
| Registry.RemovedAsWritten | deadline_/private_chat/handlers.py:284-285 | the close as written: KeyError iff the key is already absent; otherwise the key is gone, whichever socket held it, and every other entry keeps its connection |
| Registry.Removed | deadline_/private_chat/handlers.py:263-290 | the close with the ownership check: a socket clears the key only while it holds it; every other entry is unchanged |
| Registry.OnlineUntilOwnClose | deadline_/private_chat/handlers.py:251-290 | an authenticated socket keeps its key and stays valid through any steps of others; only its own close removes it |
| Registry.StaleCloseDeletesNewerEntry | deadline_/private_chat/handlers.py:263-290 | as written, the close of a socket that was replaced deletes the newer, authenticated entry, and the newer socket's own close then raises KeyError; with the check the entry stays |
| PrivateChat.AuthenticateReply | deadline_/private_chat/handlers.py:84-101 | the socket becomes valid iff the participants exist and the token matches; an unknown user gives NOT_FOUND and a bad token AUTHORIZATION |
| PrivateChat.AuthenticatedConnections | deadline_/private_chat/handlers.py:91-101 | after _authenticate the owner's entry is online iff it was online or it has just authenticated; a failed authentication leaves the map as it was; other entries are unchanged |
| PrivateChat.RepeatedAuthenticationIsIdempotent | deadline_/private_chat/handlers.py:91-101 | a second successful authentication leaves the map as the first one left it |
| PrivateChat.AuthenticationSendsAsWritten | deadline_/private_chat/handlers.py:71-81 | the reply and an online-check go to the owner; a third frame, `is_online: True` to the opponent's socket, is sent iff the opponent is online, whatever the reply |
| PrivateChat.AuthenticationSends | deadline_/private_chat/handlers.py:71-81 | the same, with the opponent told only when the owner did authenticate |
| PrivateChat.OpponentToldOnlyOfAuthenticatedOwner | deadline_/private_chat/handlers.py:74-81 | the opponent hears `is_online: True` only about an owner who is online, and always does when the owner just authenticated and the opponent is online |
| PrivateChat.AuthenticationAsWrittenAnnouncesUnauthenticatedOwner | deadline_/private_chat/handlers.py:70-81 | as written, a bad token still announces the unauthenticated owner to the opponent as online |
| PrivateChat.NewMessageDecision | deadline_/private_chat/handlers.py:135-173 | the ordered checks: a pair with no socket is dropped silently; an empty message gives VALIDATION before any lookup; a failed lookup gives NOT_FOUND; an unauthenticated owner gives AUTHORIZATION; success echoes the message with the next id |
| PrivateChat.FanOutTargets | deadline_/private_chat/handlers.py:123-130 | the owner's socket always, first; the opponent's too iff no error and the opponent is online |
| PrivateChat.ErrorsReachOnlyTheSender | deadline_/private_chat/handlers.py:120-132 | an error reaches the sender alone; a stored message also reaches an online opponent |
| PrivateChat.IsTypingCheck | deadline_/private_chat/handlers.py:208-226 | something is sent back iff the pair has a socket and is not an authenticated owner with known participants; NOT_FOUND and AUTHORIZATION in that order |
| PrivateChat.IsTypingSends | deadline_/private_chat/handlers.py:192-205 | exactly one frame: when IsTypingCheck asks for a reply, its error goes to the owner; otherwise opponent-typing goes to the opponent iff the owner and the opponent are both online and the participants exist; an offline opponent gives a WARNING to the owner |
| PrivateChat.ChatServer.constructor | deadline_/private_chat/handlers.py:30 | no connections, no frames sent, no messages |
| PrivateChat.ChatServer.FanOut | deadline_/private_chat/handlers.py:43-51 | the payload is sent to each target in order |
| PrivateChat.ChatServer.Connect | deadline_/private_chat/handlers.py:244-260 | unknown participants are dropped; the socket is accepted iff Registered accepts it; an accepted socket takes the pair and is greeted |
| PrivateChat.ChatServer.Authenticate | deadline_/private_chat/handlers.py:66-101 | the map becomes AuthenticatedConnections; the frames sent are AuthenticationSendsAsWritten, so an online opponent hears `is_online: True` also after a failed authentication |
| PrivateChat.ChatServer.NewMessage | deadline_/private_chat/handlers.py:117-173 | the decision is NewMessageDecision; exactly one message is stored iff it is not an error; the payload is fanned out to FanOutTargets iff the pair has a socket |
| PrivateChat.ChatServer.IsTyping | deadline_/private_chat/handlers.py:187-205 | the frames sent are IsTypingSends; nothing else changes |
| PrivateChat.ChatServer.ReadFrame | deadline_/private_chat/handlers.py:265-270 | the verdict of Registry.ReadCheck: the loop stops as overwritten iff the pair holds another socket |
| PrivateChat.ChatServer.Close | deadline_/private_chat/handlers.py:283-290 | the close as written: KeyError, changing nothing, iff the pair has no entry; otherwise the map becomes RemovedAsWritten, whichever socket held the pair, and an online opponent is told `is_online: False` |
| NotificationDelivery.Decimal | deadline_/notifications/handlers.py:25-27 | the message the handler expects, a notification id in decimal: non-empty, digits only |
| NotificationDelivery.ParseInt | deadline_/notifications/handlers.py:62 | on a message of ASCII digits with an optional sign, `int(msg)` gives their signed value; every other message counts as the ValueError, which covers the inputs `int()` rejects and, beyond those, the forms listed under "## Left out" |
| NotificationDelivery.DigitsOfDecimal | deadline_/notifications/handlers.py:62 | the digits of a published id spell that id |
| NotificationDelivery.DecimalRoundTrip | deadline_/notifications/handlers.py:62 | parsing the published id gives back the id |
| NotificationDelivery.ValidateNotification | deadline_/notifications/handlers.py:44-53 | no error iff the row is unread and its recipient is online; a read row is AlreadyRead before any socket check |
| NotificationDelivery.FindById | deadline_/notifications/handlers.py:35 | the row with the id, or none iff no row has it |
| NotificationDelivery.FindByIdInTable | deadline_/notifications/handlers.py:35 | in a well-formed table the row with id `i` is the `i`th row, and ids outside the table find nothing |
| NotificationDelivery.FetchNotification | deadline_/notifications/handlers.py:31-41 | DoesNotExist iff no row has the id; otherwise the row, or the validation error it raised |
| NotificationDelivery.ReceiveOutcome | deadline_/notifications/handlers.py:56-77 | not processed iff the message does not parse or the store fails; a push is scheduled iff the row was fetched and validated, and then it is the row fetch_notification returned for the parsed id, unread, with its recipient online |
| NotificationDelivery.PublishedIdIsScheduledForOnlineRecipient | deadline_/notifications/handlers.py:56-77 | the id of a new unread row, as published, is processed and scheduled exactly when its recipient is online |
| NotificationDelivery.NotificationSends | deadline_/notifications/handlers.py:80-96 | one NOTIFICATION frame to the recipient's socket iff the recipient is online when the push runs |
| NotificationDelivery.ValidatedNotificationIsPushed | deadline_/notifications/handlers.py:44-96 | a notification that passed validation is pushed if nothing has changed since |
| NotificationDelivery.NotificationServer.constructor | deadline_/notifications/handlers.py:20 | no connections, no frames, nothing pending |
| NotificationDelivery.NotificationServer.Connect | deadline_/notifications/handlers.py:145-159 | an unknown user is dropped; the socket is accepted iff Registered accepts it; nothing is sent |
| NotificationDelivery.NotificationServer.AuthenticateUser | deadline_/notifications/handlers.py:121-141 | an unknown user id is ignored; a bad token gets ERROR; a good one validates the socket and gets OK |
| NotificationDelivery.NotificationServer.ReceiveMessage | deadline_/notifications/handlers.py:56-77 | returns ReceiveOutcome's verdict and schedules its push, if any |
| NotificationDelivery.NotificationServer.SendNotification | deadline_/notifications/handlers.py:80-96 | the oldest scheduled push runs: NotificationSends against the connections at that moment |
| NotificationDelivery.NotificationServer.ReadFrame | deadline_/notifications/handlers.py:167-172 | the frame is read from the socket the entry holds; the verdict is Registry.ReadCheck: the loop stops as overwritten iff that is not its own |
| NotificationDelivery.NotificationServer.Close | deadline_/notifications/handlers.py:187-191 | the close as written: KeyError, changing nothing, iff the user has no entry; otherwise the map becomes RemovedAsWritten, whichever socket held it; nothing is sent |

## Left out

- Sockets, asyncio tasks and queues, and Celery/RabbitMQ transport are not modelled. `deadline/celery.py` is not part of this model; the published message is taken to be the id in decimal, as the handler's docstring states. A handler
  iteration is one atomic step, and a frame sent is an entry of `outbox`.
- The handlers' loops are modelled one iteration at a time, because other handlers run between
  iterations and change the registry. The `while True` consumers become one method call per
  packet. `main_handler`'s read loop becomes `ReadFrame` per frame and `Close` for its `finally`.
- Send failures, which `send_message` logs and swallows, are not modelled.
- The database is reduced to what the handlers read.
  - `fetch_and_validate_participants` is an input (`Participants`), and so are the token checks.
  - The dialog that `get_or_create_dialog_with_users` returns is not modelled. A stored message
    records its sender and recipient instead.
  - `created` datetimes and `get_formatted_create_datetime` are not modelled.
  - The serializer output of a pushed notification is the row itself.
- `deadline_/social/constants.py` is not part of this model. Each type's required fields in
  `Shape.NotificationFields` are the keys its creator or convert step writes. The newsfeed item
  fields are those of the NewsfeedItemManager creators.
- NewsfeedItemManager's five creators (`deadline_/social/models.py:28-96`) are not modelled. Only
  their type table is used, through `Shape.NwItemValidation`.
- `Notification.fetch_unread_notifications_for_user` and `Notification.is_recipient` are not
  modelled. They are a query and an id comparison with no state change.
- Shape.Validate: InvalidContentField reports the whole set of extra keys. The source raises on
  the first extra key in the dictionary's order.
- Social.Store.Like: NewsfeedItemLike's `unique_together` sits outside its `Meta`, so the
  database does not enforce it. Uniqueness comes only from the check in `like`, and
  `Social.Store.Valid` states it.
- Social.Store.AddReply: the parent comment is addressed by its position in the store.
- Social.Store.CreateSquashable: requires `Valid()`, so it does not model the AttributeError the
  source raises at `.append` (`deadline_/social/models.py:376`, likewise 451, 529 and 606) when
  the last squashable row's accumulator is not a list. Such a row can only come from a direct
  `SaveNew` or `SaveExisting`. Social.Store.Like and Social.Store.AddComment inherit the same
  precondition.
- Both servers' `MessageRouter` calls are not modelled. Any exception they raise is swallowed,
  so routing leaves the modelled state alone. In the chat server the call passes keyword
  arguments that `MessageRouter.__init__` does not accept.
- Key-type mismatches are not modelled. The chat handlers use `packet.get(...)` values
  unconverted as keys in `_new_messages_handler` and `_is_typing`; ids are numbers throughout.
- The crashes the source would hit are preconditions here:
  - PrivateChat.ChatServer.IsTyping and PrivateChat.ChatServer.Authenticate require the pair to
    hold a socket. The source raises KeyError at `deadline_/private_chat/handlers.py:72` and
    `:193` otherwise.
  - PrivateChat.ChatServer.Authenticate also requires that the lookup did not raise
    ChatPairingError, which `authenticate` does not catch.
  - PrivateChat.ChatServer.ReadFrame and NotificationDelivery.NotificationServer.ReadFrame
    require the entry to exist.
- The KeyError that either server's `Close` raises is returned as `keyError`. The exception ends
  the handler task; nothing after it is modelled.
- NotificationDelivery.ParseInt: `int()` also accepts surrounding whitespace, underscores
  between digits and non-ASCII Unicode decimal digits. Such messages count as unparseable
  here.
- NotificationDelivery.ReceiveOutcome: `storeFails` stands for every exception other than the
  three it names.
- The message text of error frames and log output is not modelled.

## Findings

The server classes follow the code as written: `PrivateChat.ChatServer.Authenticate` sends
`AuthenticationSendsAsWritten`, and both servers' `Close` apply `Registry.RemovedAsWritten`. The
corrected halves are separate functions, and the intended properties are proved about them.


| source | as written | input that shows it | evidently intended | confidence | as-written member | corrected member |
|---|---|---|---|---|---|---|
| deadline_/private_chat/handlers.py:263-290 (also deadline_/notifications/handlers.py:165-191) | the `finally` block deletes the key whenever its own loop did not see the takeover. The loop sees it only after receiving a frame, so a replaced socket that closes, or whose receive raises, deletes whatever connection holds the key | socket 1 registers for a key; socket 2 replaces it and authenticates; socket 1 closes before reading another frame: the authenticated socket 2 loses its entry, and its own later close raises KeyError | only the socket that still holds the key removes it | high, not executed | Registry.RemovedAsWritten, Registry.StaleCloseDeletesNewerEntry | Registry.Removed, Registry.OnlineUntilOwnClose |
| deadline_/private_chat/handlers.py:70-81 | `_authenticate` always asks for a reply, and `authenticate` then tells an online opponent `is_online: True`, also after a failed authentication | owner socket unauthenticated, opponent online, wrong token: the opponent receives `is_online: True` while the owner's socket stays invalid | the opponent is told the owner came online only when authentication succeeded | high, not executed | PrivateChat.AuthenticationSendsAsWritten, PrivateChat.AuthenticationAsWrittenAnnouncesUnauthenticatedOwner | PrivateChat.AuthenticationSends, PrivateChat.OpponentToldOnlyOfAuthenticatedOwner |
