/**
 * The notification squash engine of deadline_/social/models.py, stated on
 * values: the Notification table is a sequence of rows, `updated_at` is a
 * logical clock and the post_save delivery hook (`notif_post_save_send`)
 * records the ids it hands to `send_notification`.
 *
 * The four managers ReceiveFollowNotificationManager,
 * ReceiveSubmissionUpvoteNotificationManager,
 * ReceiveNWItemLikeNotificationManager and
 * ReceiveNWItemCommentNotificationManager share one three-state machine,
 * parametrised here by `Family`:
 *   CREATE         no unread matching row: insert a singleton of the base type;
 *   SQUASH-CONVERT the latest matching row has the base type: rewrite it to
 *                  the squashed type with a two-entry accumulator;
 *   SQUASH-APPEND  the latest matching row is squashed: append to its accumulator.
 */
module Squash {
  import opened Wrappers
  import opened Shape

  type UserId = nat

  datatype User = User(id: UserId, username: string)
  datatype Challenge = Challenge(id: nat, name: string, categoryName: string)
  datatype Submission = Submission(id: nat, author: UserId, challenge: Challenge)
  datatype NewsfeedItem = NewsfeedItem(id: nat, author: UserId, kind: NewsfeedItemType, content: Content)

  datatype Notification = Notification(
    id: nat,
    recipient: UserId,
    kind: NotificationType,
    content: Content,
    isRead: bool,
    updatedAt: nat)

  /**
   * The Notification table, the clock that stamps `updated_at` on every
   * save, and the ids the post_save hook has handed to delivery, in order.
   */
  datatype Table = Table(rows: seq<Notification>, clock: nat, deliveries: seq<nat>)

  datatype SocialError =
    | InvalidFollow
    | ForbiddenMethod
    | LikeAlreadyExists
    | NonExistentLike
    | InvalidShape(verdict: Verdict)

  /** What a creator returns: the saved row's id, None, or the exception it raises. */
  datatype Outcome = Saved(id: nat) | NotCreated | Raised(error: SocialError)

  /** The string stored for a newsfeed item's type (`nw_type`, `nw_item_type`). */
  function TypeName(t: NewsfeedItemType): string {
    match t
    case SubcategoryBadgePost => "NW_ITEM_SUBCATEGORY_BADGE_POST"
    case SharePost => "NW_ITEM_SHARE_POST"
    case SubmissionLinkPost => "NW_ITEM_SUBMISSION_LINK_POST"
    case ChallengeLinkPost => "NW_ITEM_CHALLENGE_LINK_POST"
    case ChallengeCompletionPost => "NW_ITEM_CHALLENGE_COMPLETION_POST"
    case UnlistedNewsfeedItemType(name) => name
  }

  // ---------------------------------------------------------------------
  // Rows and the two kinds of save

  /**
   * What the squash engine reads from a row it matches: a singleton of a
   * family carries the actor's id and name, a squashed row's accumulator is
   * a list.
   */
  predicate WellShaped(n: Notification) {
    && (match BaseFamily(n.kind)
        case None => true
        case Some(f) => ActorIdField(f) in n.content && ActorNameField(f) in n.content)
    && (match SquashedFamily(n.kind)
        case None => true
        case Some(f) => AccumulatorField(f) in n.content && n.content[AccumulatorField(f)].List?)
  }

  /** The row passes notification_type_validation, the pre_save hook of every save. */
  predicate PassesValidation(n: Notification) {
    NotificationTypeValidation(n.kind, n.content) == Accepted
  }

  /**
   * The table as saves leave it: a row's id is its position, every stamp is
   * older than the clock and no two stamps are equal, and each row is
   * well shaped.
   */
  predicate WellFormed(t: Table) {
    && (forall i :: 0 <= i < |t.rows| ==>
          t.rows[i].id == i && t.rows[i].updatedAt < t.clock && WellShaped(t.rows[i]))
    && (forall i, j :: 0 <= i < j < |t.rows| ==> t.rows[i].updatedAt != t.rows[j].updatedAt)
  }

  /** A well-formed table all of whose rows passed validation. */
  predicate Valid(t: Table) {
    WellFormed(t) && forall i :: 0 <= i < |t.rows| ==> PassesValidation(t.rows[i])
  }

  /**
   * `_create`: the pre_save validator runs, then the row is appended with the
   * next id, and post_save (created) hands that id to delivery.
   */
  function Insert(t: Table, recipient: UserId, kind: NotificationType, content: Content)
    : (r: (Table, Outcome))
    ensures NotificationTypeValidation(kind, content) != Accepted ==>
              r == (t, Raised(InvalidShape(NotificationTypeValidation(kind, content))))
    ensures NotificationTypeValidation(kind, content) == Accepted ==>
              && r.1 == Saved(|t.rows|)
              && |r.0.rows| == |t.rows| + 1
              && r.0.rows[..|t.rows|] == t.rows
              && r.0.rows[|t.rows|] == Notification(|t.rows|, recipient, kind, content, false, t.clock)
              && r.0.clock == t.clock + 1
              && r.0.deliveries == t.deliveries + [|t.rows|]
  {
    var v := NotificationTypeValidation(kind, content);
    if v != Accepted then (t, Raised(InvalidShape(v)))
    else
      var id := |t.rows|;
      var row := Notification(id, recipient, kind, content, false, t.clock);
      (Table(t.rows + [row], t.clock + 1, t.deliveries + [id]), Saved(id))
  }

  /**
   * `save()` of an existing row: the pre_save validator runs, the row takes
   * its new type and content and a fresh stamp; post_save sees
   * created == False, so nothing is delivered.
   */
  function Update(t: Table, i: nat, kind: NotificationType, content: Content)
    : (r: (Table, Outcome))
    requires i < |t.rows|
    ensures NotificationTypeValidation(kind, content) != Accepted ==>
              r == (t, Raised(InvalidShape(NotificationTypeValidation(kind, content))))
    ensures NotificationTypeValidation(kind, content) == Accepted ==>
              && r.1 == Saved(t.rows[i].id)
              && |r.0.rows| == |t.rows|
              && (forall j :: 0 <= j < |t.rows| && j != i ==> r.0.rows[j] == t.rows[j])
              && r.0.rows[i] == t.rows[i].(kind := kind, content := content, updatedAt := t.clock)
              && r.0.clock == t.clock + 1
              && r.0.deliveries == t.deliveries
  {
    var v := NotificationTypeValidation(kind, content);
    if v != Accepted then (t, Raised(InvalidShape(v)))
    else
      var row := t.rows[i].(kind := kind, content := content, updatedAt := t.clock);
      (Table(t.rows[i := row], t.clock + 1, t.deliveries), Saved(t.rows[i].id))
  }

  lemma InsertKeepsWellFormed(t: Table, recipient: UserId, kind: NotificationType, content: Content)
    requires WellFormed(t)
    requires WellShaped(Notification(0, recipient, kind, content, false, 0))
    ensures WellFormed(Insert(t, recipient, kind, content).0)
    ensures Valid(t) ==> Valid(Insert(t, recipient, kind, content).0)
  {
  }

  lemma UpdateKeepsWellFormed(t: Table, i: nat, kind: NotificationType, content: Content)
    requires WellFormed(t) && i < |t.rows|
    requires WellShaped(t.rows[i].(kind := kind, content := content))
    ensures WellFormed(Update(t, i, kind, content).0)
    ensures Valid(t) ==> Valid(Update(t, i, kind, content).0)
  {
    var t' := Update(t, i, kind, content).0;
    forall a, b | 0 <= a < b < |t'.rows| ensures t'.rows[a].updatedAt != t'.rows[b].updatedAt {
      if a != i && b != i {
        assert t'.rows[a] == t.rows[a] && t'.rows[b] == t.rows[b];
      }
    }
  }

  // ---------------------------------------------------------------------
  // The squashing families

  datatype Family = Follow | SubmissionUpvote | NwItemLike | NwItemComment

  /** TYPE */
  function BaseType(f: Family): NotificationType {
    match f
    case Follow => ReceiveFollow
    case SubmissionUpvote => ReceiveSubmissionUpvote
    case NwItemLike => ReceiveNwItemLike
    case NwItemComment => ReceiveNwItemComment
  }

  /** SQUASHED_TYPE */
  function SquashedType(f: Family): NotificationType {
    match f
    case Follow => ReceiveFollowSquashed
    case SubmissionUpvote => ReceiveSubmissionUpvoteSquashed
    case NwItemLike => ReceiveNwItemLikeSquashed
    case NwItemComment => ReceiveNwItemCommentSquashed
  }

  /** The family whose base type `t` is, if any. */
  function BaseFamily(t: NotificationType): (r: Option<Family>)
    ensures r.Some? ==> BaseType(r.value) == t
    ensures forall f :: BaseType(f) == t ==> r == Some(f)
  {
    match t
    case ReceiveFollow => Some(Follow)
    case ReceiveSubmissionUpvote => Some(SubmissionUpvote)
    case ReceiveNwItemLike => Some(NwItemLike)
    case ReceiveNwItemComment => Some(NwItemComment)
    case _ => None
  }

  /** The family whose squashed type `t` is, if any. */
  function SquashedFamily(t: NotificationType): (r: Option<Family>)
    ensures r.Some? ==> SquashedType(r.value) == t
    ensures forall f :: SquashedType(f) == t ==> r == Some(f)
  {
    match t
    case ReceiveFollowSquashed => Some(Follow)
    case ReceiveSubmissionUpvoteSquashed => Some(SubmissionUpvote)
    case ReceiveNwItemLikeSquashed => Some(NwItemLike)
    case ReceiveNwItemCommentSquashed => Some(NwItemComment)
    case _ => None
  }

  /** The list a squashed row accumulates: `followers`, `likers` or `commenters`. */
  function AccumulatorField(f: Family): Field {
    match f
    case Follow => Followers
    case SubmissionUpvote => Likers
    case NwItemLike => Likers
    case NwItemComment => Commenters
  }

  function ActorIdField(f: Family): Field {
    match f
    case Follow => FollowerId
    case SubmissionUpvote => LikerId
    case NwItemLike => LikerId
    case NwItemComment => CommenterId
  }

  function ActorNameField(f: Family): Field {
    match f
    case Follow => FollowerName
    case SubmissionUpvote => LikerName
    case NwItemLike => LikerName
    case NwItemComment => CommenterName
  }

  /** One domain event handed to a family's manager. */
  datatype Event =
    | FollowEvent(recipient: UserId, follower: User)
    | UpvoteEvent(submission: Submission, liker: User)
    | NwItemLikeEvent(item: NewsfeedItem, liker: User)
    | NwItemCommentEvent(item: NewsfeedItem, commenter: User)

  function FamilyOf(e: Event): Family {
    match e
    case FollowEvent(_, _) => Follow
    case UpvoteEvent(_, _) => SubmissionUpvote
    case NwItemLikeEvent(_, _) => NwItemLike
    case NwItemCommentEvent(_, _) => NwItemComment
  }

  /** The user who would be notified: the followed user or the author of the liked or commented thing. */
  function RecipientOf(e: Event): UserId {
    match e
    case FollowEvent(recipient, _) => recipient
    case UpvoteEvent(submission, _) => submission.author
    case NwItemLikeEvent(item, _) => item.author
    case NwItemCommentEvent(item, _) => item.author
  }

  function ActorOf(e: Event): User {
    match e
    case FollowEvent(_, follower) => follower
    case UpvoteEvent(_, liker) => liker
    case NwItemLikeEvent(_, liker) => liker
    case NwItemCommentEvent(_, commenter) => commenter
  }

  /** The `content__contains` filter of find_last_squashable_notification, if any. */
  function ScopeOf(e: Event): Option<(Field, Value)> {
    match e
    case FollowEvent(_, _) => None
    case UpvoteEvent(submission, _) => Some((SubmissionId, Int(submission.id)))
    case NwItemLikeEvent(item, _) => Some((NwItemId, Int(item.id)))
    case NwItemCommentEvent(item, _) => Some((NwItemId, Int(item.id)))
  }

  /** The fields a row of the family carries besides the actor (none for follows). */
  function ContextOf(e: Event): Content {
    match e
    case FollowEvent(_, _) => map[]
    case UpvoteEvent(s, _) =>
      map[SubmissionId := Int(s.id), ChallengeId := Int(s.challenge.id),
          ChallengeName := Str(s.challenge.name)]
    case NwItemLikeEvent(item, _) =>
      map[NwContent := Dict(item.content), NwType := Str(TypeName(item.kind)),
          NwItemId := Int(item.id)]
    case NwItemCommentEvent(item, _) =>
      map[NwItemContent := Dict(item.content), NwItemType := Str(TypeName(item.kind)),
          NwItemId := Int(item.id)]
  }

  /** The new entry: `{'<actor>_id': id, '<actor>_name': username}`. */
  function Entry(e: Event): Content {
    var f := FamilyOf(e);
    map[ActorIdField(f) := Int(ActorOf(e).id), ActorNameField(f) := Str(ActorOf(e).username)]
  }

  /** The content of a freshly created row of the base type. */
  function Singleton(e: Event): Content {
    ContextOf(e) + Entry(e)
  }

  /**
   * The first accumulator entry when a singleton is converted: a follow row's
   * whole content, for the other families its actor id and name.
   */
  function PreviousEntry(f: Family, prior: Content): Value
    requires f != Follow ==> ActorIdField(f) in prior && ActorNameField(f) in prior
  {
    if f == Follow then Dict(prior)
    else Dict(map[ActorIdField(f) := prior[ActorIdField(f)], ActorNameField(f) := prior[ActorNameField(f)]])
  }

  /** The content convert_to_squashed_type writes. */
  function Converted(e: Event, prior: Content): Content
    requires FamilyOf(e) != Follow ==>
               ActorIdField(FamilyOf(e)) in prior && ActorNameField(FamilyOf(e)) in prior
  {
    var f := FamilyOf(e);
    ContextOf(e)[AccumulatorField(f) := List([PreviousEntry(f, prior), Dict(Entry(e))])]
  }

  /** The content add_to_squashed_type leaves: the accumulator with the new entry at its end. */
  function Appended(e: Event, c: Content): Content
    requires AccumulatorField(FamilyOf(e)) in c && c[AccumulatorField(FamilyOf(e))].List?
  {
    var acc := AccumulatorField(FamilyOf(e));
    c[acc := List(c[acc].items + [Dict(Entry(e))])]
  }

  // ---------------------------------------------------------------------
  // find_last_squashable_notification

  /** The filter: unread, of the family's base or squashed type, same recipient, same scope. */
  predicate Squashable(e: Event, n: Notification) {
    var f := FamilyOf(e);
    && !n.isRead
    && (n.kind == BaseType(f) || n.kind == SquashedType(f))
    && n.recipient == RecipientOf(e)
    && match ScopeOf(e)
       case None => true
       case Some(scope) => scope.0 in n.content && n.content[scope.0] == scope.1
  }

  /**
   * `.last()` under `ordering = ('updated_at',)`: the matching row touched
   * most recently, or None when no row matches.
   */
  function LastSquashable(rows: seq<Notification>, e: Event): (r: Option<nat>)
    ensures r.None? <==> forall i :: 0 <= i < |rows| ==> !Squashable(e, rows[i])
    ensures r.Some? ==> r.value < |rows| && Squashable(e, rows[r.value])
    ensures r.Some? ==> forall j :: 0 <= j < |rows| && Squashable(e, rows[j]) ==>
                          rows[j].updatedAt <= rows[r.value].updatedAt
  {
    if |rows| == 0 then None
    else
      var k := |rows| - 1;
      var earlier := LastSquashable(rows[..k], e);
      assert forall i :: 0 <= i < k ==> rows[..k][i] == rows[i];
      if Squashable(e, rows[k]) && (earlier.None? || rows[earlier.value].updatedAt <= rows[k].updatedAt)
      then Some(k)
      else earlier
  }

  // ---------------------------------------------------------------------
  // The state machine

  /** convert_to_squashed_type */
  function ConvertToSquashedType(t: Table, e: Event, i: nat): (Table, Outcome)
    requires WellFormed(t) && i < |t.rows| && t.rows[i].kind == BaseType(FamilyOf(e))
  {
    Update(t, i, SquashedType(FamilyOf(e)), Converted(e, t.rows[i].content))
  }

  /** add_to_squashed_type */
  function AddToSquashedType(t: Table, e: Event, i: nat): (Table, Outcome)
    requires WellFormed(t) && i < |t.rows| && t.rows[i].kind == SquashedType(FamilyOf(e))
  {
    Update(t, i, t.rows[i].kind, Appended(e, t.rows[i].content))
  }

  /** squash: convert a singleton, or append to a squashed row. */
  function SquashInto(t: Table, e: Event, i: nat): (Table, Outcome)
    requires WellFormed(t) && i < |t.rows| && Squashable(e, t.rows[i])
  {
    if t.rows[i].kind == BaseType(FamilyOf(e)) then ConvertToSquashedType(t, e, i)
    else AddToSquashedType(t, e, i)
  }

  /**
   * create() of the family's manager: a self-follow raises InvalidFollowError,
   * the other self-events return None; otherwise squash into the last
   * squashable row, or insert a singleton when there is none.
   */
  function Receive(t: Table, e: Event): (Table, Outcome)
    requires WellFormed(t)
  {
    if ActorOf(e).id == RecipientOf(e) then
      (t, if e.FollowEvent? then Raised(InvalidFollow) else NotCreated)
    else
      match LastSquashable(t.rows, e)
      case None => Insert(t, RecipientOf(e), BaseType(FamilyOf(e)), Singleton(e))
      case Some(i) => SquashInto(t, e, i)
  }

  // ---------------------------------------------------------------------
  // Shapes written by the engine

  /**
   * The content a family creator writes for a new row passes validation.
   *
   * `Shape.NotificationFields` is built from the keys the creators and the
   * convert step write, so this holds by construction; what it checks is
   * that the table and the content dictionaries were transcribed alike.
   */
  lemma SingletonIsWellShaped(e: Event)
    ensures NotificationTypeValidation(BaseType(FamilyOf(e)), Singleton(e)) == Accepted
    ensures WellShaped(Notification(0, RecipientOf(e), BaseType(FamilyOf(e)), Singleton(e), false, 0))
  {
    var required := NotificationFields(BaseType(FamilyOf(e))).value;
    assert Singleton(e).Keys == Fields(required) by {
      match e
      case FollowEvent(_, _) =>
        assert Fields(required) == {FollowerId, FollowerName};
      case UpvoteEvent(_, _) =>
        assert Fields(required) == {SubmissionId, ChallengeId, ChallengeName, LikerId, LikerName};
      case NwItemLikeEvent(_, _) =>
        assert Fields(required) == {NwContent, LikerId, LikerName, NwType, NwItemId};
      case NwItemCommentEvent(_, _) =>
        assert Fields(required) == {NwItemContent, CommenterId, CommenterName, NwItemType, NwItemId};
    }
  }

  /**
   * The content convert_to_squashed_type writes passes validation.
   *
   * `Shape.NotificationFields` is built from the keys the creators and the
   * convert step write, so this holds by construction; what it checks is
   * that the table and the content dictionaries were transcribed alike.
   */
  lemma ConvertedIsWellShaped(e: Event, prior: Content)
    requires FamilyOf(e) != Follow ==>
               ActorIdField(FamilyOf(e)) in prior && ActorNameField(FamilyOf(e)) in prior
    ensures NotificationTypeValidation(SquashedType(FamilyOf(e)), Converted(e, prior)) == Accepted
    ensures WellShaped(Notification(0, 0, SquashedType(FamilyOf(e)), Converted(e, prior), false, 0))
  {
    var f := FamilyOf(e);
    var required := NotificationFields(SquashedType(f)).value;
    assert Converted(e, prior).Keys == Fields(required) by {
      match e
      case FollowEvent(_, _) =>
        assert Fields(required) == {Followers};
      case UpvoteEvent(_, _) =>
        assert Fields(required) == {SubmissionId, ChallengeId, ChallengeName, Likers};
      case NwItemLikeEvent(_, _) =>
        assert Fields(required) == {NwContent, NwType, NwItemId, Likers};
      case NwItemCommentEvent(_, _) =>
        assert Fields(required) == {NwItemContent, NwItemType, NwItemId, Commenters};
    }
  }

  /** Every write of the engine leaves a row the engine can read back. */
  lemma ReceiveKeepsWellFormed(t: Table, e: Event)
    requires WellFormed(t)
    ensures WellFormed(Receive(t, e).0)
  {
    ReceiveKeepsInvariants(t, e);
  }

  /**
   * The engine's own writes always pass notification_type_validation: from
   * a valid table it never raises a shape error, only InvalidFollowError,
   * and the table stays valid.
   */
  lemma ReceiveKeepsValid(t: Table, e: Event)
    requires Valid(t)
    ensures Valid(Receive(t, e).0)
    ensures Receive(t, e).1.Raised? ==> Receive(t, e).1.error == InvalidFollow
    ensures Receive(t, e).1.Saved? <==> ActorOf(e).id != RecipientOf(e)
  {
    ReceiveKeepsInvariants(t, e);
  }

  lemma ReceiveKeepsInvariants(t: Table, e: Event)
    requires WellFormed(t)
    ensures WellFormed(Receive(t, e).0)
    ensures Valid(t) ==> Valid(Receive(t, e).0)
    ensures Valid(t) && Receive(t, e).1.Raised? ==> Receive(t, e).1.error == InvalidFollow
    ensures Valid(t) ==> (Receive(t, e).1.Saved? <==> ActorOf(e).id != RecipientOf(e))
  {
    var f := FamilyOf(e);
    if ActorOf(e).id != RecipientOf(e) {
      match LastSquashable(t.rows, e)
      case None =>
        SingletonIsWellShaped(e);
        InsertKeepsWellFormed(t, RecipientOf(e), BaseType(f), Singleton(e));
      case Some(i) =>
        var n := t.rows[i];
        if n.kind == BaseType(f) {
          ConvertedIsWellShaped(e, n.content);
          UpdateKeepsWellFormed(t, i, SquashedType(f), Converted(e, n.content));
        } else {
          var c := Appended(e, n.content);
          assert c.Keys == n.content.Keys;
          UpdateKeepsWellFormed(t, i, n.kind, c);
        }
    }
  }

  // ---------------------------------------------------------------------
  // The three transitions

  /** Self-actor suppression: the table is untouched; a self-follow raises InvalidFollowError. */
  lemma SelfEventChangesNothing(t: Table, e: Event)
    requires WellFormed(t) && ActorOf(e).id == RecipientOf(e)
    ensures Receive(t, e).0 == t
    ensures Receive(t, e).1 == if e.FollowEvent? then Raised(InvalidFollow) else NotCreated
  {
  }

  /**
   * CREATE: with no unread matching row, exactly one row is appended: the
   * base type for the recipient, holding the family's singleton fields, and
   * its id is handed to delivery.
   */
  lemma CreateWhenNothingSquashable(t: Table, e: Event)
    requires WellFormed(t) && ActorOf(e).id != RecipientOf(e)
    requires forall i :: 0 <= i < |t.rows| ==> !Squashable(e, t.rows[i])
    ensures Receive(t, e).1 == Saved(|t.rows|)
    ensures Receive(t, e).0.rows ==
              t.rows + [Notification(|t.rows|, RecipientOf(e), BaseType(FamilyOf(e)), Singleton(e), false, t.clock)]
    ensures Receive(t, e).0.deliveries == t.deliveries + [|t.rows|]
  {
    SingletonIsWellShaped(e);
    var t' := Receive(t, e).0;
    assert t'.rows == t'.rows[..|t.rows|] + [t'.rows[|t.rows|]];
  }

  /**
   * SQUASH-CONVERT: when the last matching row has the base type, no row is
   * added; that row takes the squashed type and its accumulator is
   * [previous entry, new entry], in that order; nothing is delivered.
   */
  lemma ConvertWhenLastIsSingleton(t: Table, e: Event, i: nat)
    requires WellFormed(t) && ActorOf(e).id != RecipientOf(e)
    requires LastSquashable(t.rows, e) == Some(i) && t.rows[i].kind == BaseType(FamilyOf(e))
    ensures ActorIdField(FamilyOf(e)) in t.rows[i].content && ActorNameField(FamilyOf(e)) in t.rows[i].content
    ensures Receive(t, e).1 == Saved(i)
    ensures |Receive(t, e).0.rows| == |t.rows|
    ensures forall j :: 0 <= j < |t.rows| && j != i ==> Receive(t, e).0.rows[j] == t.rows[j]
    ensures Receive(t, e).0.rows[i].kind == SquashedType(FamilyOf(e))
    ensures Receive(t, e).0.rows[i].content[AccumulatorField(FamilyOf(e))] ==
              List([PreviousEntry(FamilyOf(e), t.rows[i].content), Dict(Entry(e))])
    ensures Receive(t, e).0.rows[i].recipient == t.rows[i].recipient
    ensures !Receive(t, e).0.rows[i].isRead
    ensures Receive(t, e).0.deliveries == t.deliveries
  {
    ConvertedIsWellShaped(e, t.rows[i].content);
  }

  /**
   * SQUASH-APPEND: when the last matching row is already squashed, the new
   * entry goes at the end of its accumulator; the row count, its type and
   * its other content keys are unchanged, and nothing is delivered.
   */
  lemma AppendWhenLastIsSquashed(t: Table, e: Event, i: nat)
    requires WellFormed(t) && ActorOf(e).id != RecipientOf(e)
    requires LastSquashable(t.rows, e) == Some(i) && t.rows[i].kind != BaseType(FamilyOf(e))
    requires PassesValidation(t.rows[i])
    ensures t.rows[i].kind == SquashedType(FamilyOf(e))
    ensures AccumulatorField(FamilyOf(e)) in t.rows[i].content
    ensures t.rows[i].content[AccumulatorField(FamilyOf(e))].List?
    ensures Receive(t, e).1 == Saved(i)
    ensures |Receive(t, e).0.rows| == |t.rows|
    ensures forall j :: 0 <= j < |t.rows| && j != i ==> Receive(t, e).0.rows[j] == t.rows[j]
    ensures Receive(t, e).0.rows[i].kind == t.rows[i].kind
    ensures Receive(t, e).0.rows[i].content ==
              t.rows[i].content[AccumulatorField(FamilyOf(e)) :=
                List(t.rows[i].content[AccumulatorField(FamilyOf(e))].items + [Dict(Entry(e))])]
    ensures Receive(t, e).0.deliveries == t.deliveries
  {
    var n := t.rows[i];
    assert SquashedFamily(n.kind) == Some(FamilyOf(e));
    assert Appended(e, n.content).Keys == n.content.Keys;
  }

  /** A row the event cannot match, read rows in particular, is never changed. */
  lemma UnmatchedRowsAreNeverTouched(t: Table, e: Event)
    requires WellFormed(t)
    ensures |Receive(t, e).0.rows| >= |t.rows|
    ensures forall i :: 0 <= i < |t.rows| && !Squashable(e, t.rows[i]) ==> Receive(t, e).0.rows[i] == t.rows[i]
    ensures forall i :: 0 <= i < |t.rows| && t.rows[i].isRead ==> Receive(t, e).0.rows[i] == t.rows[i]
  {
    ReceiveKeepsWellFormed(t, e);
    if ActorOf(e).id != RecipientOf(e) {
      match LastSquashable(t.rows, e)
      case None => CreateWhenNothingSquashable(t, e);
      case Some(i) =>
        if t.rows[i].kind == BaseType(FamilyOf(e)) {
          ConvertWhenLastIsSingleton(t, e, i);
        }
    }
  }

  /**
   * The delivery hook fires only for a created row: the table grows by one
   * and that row's id is delivered, or the table keeps its size and nothing
   * is delivered.
   */
  lemma DeliveredOnlyWhenCreated(t: Table, e: Event)
    requires WellFormed(t)
    ensures |Receive(t, e).0.rows| == |t.rows| + 1 ==>
              Receive(t, e).0.deliveries == t.deliveries + [|t.rows|]
              && Receive(t, e).1 == Saved(|t.rows|)
    ensures |Receive(t, e).0.rows| != |t.rows| + 1 ==>
              |Receive(t, e).0.rows| == |t.rows| && Receive(t, e).0.deliveries == t.deliveries
  {
    if ActorOf(e).id != RecipientOf(e) {
      match LastSquashable(t.rows, e)
      case None => CreateWhenNothingSquashable(t, e);
      case Some(i) =>
        if t.rows[i].kind == BaseType(FamilyOf(e)) {
          ConvertWhenLastIsSingleton(t, e, i);
        }
    }
  }

  /**
   * Once every matching row of the family is read, the next event starts a
   * fresh singleton rather than squashing into a read row.
   */
  lemma FreshSingletonAfterRead(t: Table, e: Event)
    requires WellFormed(t) && ActorOf(e).id != RecipientOf(e)
    requires forall i :: 0 <= i < |t.rows| && t.rows[i].recipient == RecipientOf(e)
                         && (t.rows[i].kind == BaseType(FamilyOf(e)) || t.rows[i].kind == SquashedType(FamilyOf(e)))
                         ==> t.rows[i].isRead
    ensures Receive(t, e).0.rows ==
              t.rows + [Notification(|t.rows|, RecipientOf(e), BaseType(FamilyOf(e)), Singleton(e), false, t.clock)]
  {
    CreateWhenNothingSquashable(t, e);
  }

  // ---------------------------------------------------------------------
  // Three events of one family

  /** Two events that the same rows absorb: same family, recipient and scope. */
  predicate SameKey(e1: Event, e2: Event) {
    FamilyOf(e1) == FamilyOf(e2) && RecipientOf(e1) == RecipientOf(e2) && ScopeOf(e1) == ScopeOf(e2)
  }

  /** A created row holds the scope of the event that created it. */
  lemma SingletonCarriesScope(e: Event)
    ensures ScopeOf(e).Some? ==>
              ScopeOf(e).value.0 in Singleton(e) && Singleton(e)[ScopeOf(e).value.0] == ScopeOf(e).value.1
  {
  }

  /** A converted row holds the scope of the event that converted it. */
  lemma ConvertedCarriesScope(e: Event, prior: Content)
    requires FamilyOf(e) != Follow ==>
               ActorIdField(FamilyOf(e)) in prior && ActorNameField(FamilyOf(e)) in prior
    ensures ScopeOf(e).Some? ==>
              ScopeOf(e).value.0 in Converted(e, prior) && Converted(e, prior)[ScopeOf(e).value.0] == ScopeOf(e).value.1
  {
  }

  lemma FirstEntryIsTheSingletons(e: Event)
    ensures FamilyOf(e) != Follow ==>
              ActorIdField(FamilyOf(e)) in Singleton(e) && ActorNameField(FamilyOf(e)) in Singleton(e)
    ensures PreviousEntry(FamilyOf(e), Singleton(e)) == Dict(Entry(e))
  {
    var f := FamilyOf(e);
    if f == Follow {
      assert Singleton(e) == Entry(e);
    } else {
      var s := Singleton(e);
      assert map[ActorIdField(f) := s[ActorIdField(f)], ActorNameField(f) := s[ActorNameField(f)]] == Entry(e);
    }
  }

  lemma SameKeyMatchesSameRows(e1: Event, e2: Event, n: Notification)
    requires SameKey(e1, e2)
    ensures Squashable(e1, n) == Squashable(e2, n)
  {
  }

  /** A row that matches, with none before it matching, is the one `.last()` picks. */
  lemma {:induction false} OnlyMatchIsLast(rows: seq<Notification>, e: Event, k: nat)
    requires |rows| == k + 1 && Squashable(e, rows[k])
    requires forall i :: 0 <= i < k ==> !Squashable(e, rows[i])
    ensures LastSquashable(rows, e) == Some(k)
  {
    assert LastSquashable(rows[..k], e).None?;
  }

  /** A match on the newest row, and on no earlier row, converts that row in place. */
  lemma ConvertNewestRow(t: Table, e: Event, k: nat)
    requires WellFormed(t) && ActorOf(e).id != RecipientOf(e)
    requires |t.rows| == k + 1 && Squashable(e, t.rows[k]) && t.rows[k].kind == BaseType(FamilyOf(e))
    requires forall i :: 0 <= i < k ==> !Squashable(e, t.rows[i])
    ensures WellFormed(Receive(t, e).0)
    ensures |Receive(t, e).0.rows| == k + 1
    ensures Receive(t, e).0.rows[..k] == t.rows[..k]
    ensures Receive(t, e).0.rows[k] ==
              t.rows[k].(kind := SquashedType(FamilyOf(e)), content := Converted(e, t.rows[k].content),
                         updatedAt := t.clock)
    ensures Receive(t, e).0.deliveries == t.deliveries
  {
    OnlyMatchIsLast(t.rows, e, k);
    ReceiveKeepsWellFormed(t, e);
    ConvertedIsWellShaped(e, t.rows[k].content);
    var t' := Receive(t, e).0;
    assert t'.rows == t.rows[k := t'.rows[k]];
  }

  /** A match on the newest row, and on no earlier row, appends to that row. */
  lemma AppendToNewestRow(t: Table, e: Event, k: nat)
    requires WellFormed(t) && ActorOf(e).id != RecipientOf(e)
    requires |t.rows| == k + 1 && Squashable(e, t.rows[k]) && t.rows[k].kind == SquashedType(FamilyOf(e))
    requires PassesValidation(t.rows[k])
    requires forall i :: 0 <= i < k ==> !Squashable(e, t.rows[i])
    ensures |Receive(t, e).0.rows| == k + 1
    ensures Receive(t, e).0.rows[..k] == t.rows[..k]
    ensures Receive(t, e).0.rows[k] == t.rows[k].(content := Appended(e, t.rows[k].content), updatedAt := t.clock)
    ensures Receive(t, e).0.deliveries == t.deliveries
  {
    OnlyMatchIsLast(t.rows, e, k);
    assert Appended(e, t.rows[k].content).Keys == t.rows[k].content.Keys;
    var t' := Receive(t, e).0;
    assert t'.rows == t.rows[k := t'.rows[k]];
  }

  /** The second event of the key converts the singleton the first one created. */
  lemma SecondEventConverts(t: Table, e1: Event, e2: Event)
    requires WellFormed(t) && SameKey(e1, e2)
    requires ActorOf(e1).id != RecipientOf(e1) && ActorOf(e2).id != RecipientOf(e1)
    requires forall i :: 0 <= i < |t.rows| ==> !Squashable(e1, t.rows[i])
    ensures WellFormed(Receive(t, e1).0)
    ensures var t2 := Receive(Receive(t, e1).0, e2).0;
            && WellFormed(t2)
            && |t2.rows| == |t.rows| + 1
            && t2.rows[..|t.rows|] == t.rows
            && t2.rows[|t.rows|].kind == SquashedType(FamilyOf(e1))
            && t2.rows[|t.rows|].recipient == RecipientOf(e1)
            && !t2.rows[|t.rows|].isRead
            && t2.rows[|t.rows|].content == Converted(e2, Singleton(e1))
            && t2.deliveries == t.deliveries + [|t.rows|]
  {
    var k := |t.rows|;
    ReceiveKeepsWellFormed(t, e1);
    CreateWhenNothingSquashable(t, e1);
    var t1 := Receive(t, e1).0;
    assert t1.rows[..k] == t.rows;
    SingletonCarriesScope(e1);
    SameKeyMatchesSameRows(e1, e2, t1.rows[k]);
    forall i | 0 <= i < k ensures !Squashable(e2, t1.rows[i]) {
      SameKeyMatchesSameRows(e1, e2, t.rows[i]);
    }
    ConvertNewestRow(t1, e2, k);
  }

  /** Converting a singleton and appending once leaves the three entries in arrival order. */
  lemma ThreeEntriesInOrder(e1: Event, e2: Event, e3: Event)
    requires FamilyOf(e1) == FamilyOf(e2) == FamilyOf(e3)
    ensures AccumulatorField(FamilyOf(e3)) in Converted(e2, Singleton(e1))
    ensures Converted(e2, Singleton(e1))[AccumulatorField(FamilyOf(e3))].List?
    ensures Appended(e3, Converted(e2, Singleton(e1)))[AccumulatorField(FamilyOf(e1))]
              == List([Dict(Entry(e1)), Dict(Entry(e2)), Dict(Entry(e3))])
  {
    FirstEntryIsTheSingletons(e1);
    var acc := AccumulatorField(FamilyOf(e1));
    var c := Converted(e2, Singleton(e1));
    assert c[acc] == List([Dict(Entry(e1)), Dict(Entry(e2))]);
    assert [Dict(Entry(e1)), Dict(Entry(e2))] + [Dict(Entry(e3))] == [Dict(Entry(e1)), Dict(Entry(e2)), Dict(Entry(e3))];
  }

  /**
   * Three unread events of one family against one recipient, with no row to
   * absorb the first: one row is created and delivered, squashed, holding
   * the three entries in arrival order.
   */
  lemma ThreeEventsSquashIntoOneRow(t: Table, e1: Event, e2: Event, e3: Event)
    requires WellFormed(t)
    requires SameKey(e1, e2) && SameKey(e1, e3)
    requires ActorOf(e1).id != RecipientOf(e1) && ActorOf(e2).id != RecipientOf(e1)
             && ActorOf(e3).id != RecipientOf(e1)
    requires forall i :: 0 <= i < |t.rows| ==> !Squashable(e1, t.rows[i])
    ensures WellFormed(Receive(t, e1).0)
    ensures WellFormed(Receive(Receive(t, e1).0, e2).0)
    ensures var t3 := Receive(Receive(Receive(t, e1).0, e2).0, e3).0;
            && |t3.rows| == |t.rows| + 1
            && t3.rows[..|t.rows|] == t.rows
            && t3.rows[|t.rows|].kind == SquashedType(FamilyOf(e1))
            && t3.rows[|t.rows|].recipient == RecipientOf(e1)
            && AccumulatorField(FamilyOf(e1)) in t3.rows[|t.rows|].content
            && t3.rows[|t.rows|].content[AccumulatorField(FamilyOf(e1))]
               == List([Dict(Entry(e1)), Dict(Entry(e2)), Dict(Entry(e3))])
            && t3.deliveries == t.deliveries + [|t.rows|]
  {
    var k := |t.rows|;
    SecondEventConverts(t, e1, e2);
    var t2 := Receive(Receive(t, e1).0, e2).0;
    assert PassesValidation(t2.rows[k]) by {
      ConvertedIsWellShaped(e2, Singleton(e1));
    }
    assert Squashable(e3, t2.rows[k]) by {
      ConvertedCarriesScope(e2, Singleton(e1));
      SameKeyMatchesSameRows(e1, e3, t2.rows[k]);
    }
    assert forall i :: 0 <= i < k ==> !Squashable(e3, t2.rows[i]) by {
      forall i | 0 <= i < k ensures !Squashable(e3, t2.rows[i]) {
        assert t2.rows[i] == t2.rows[..k][i];
        SameKeyMatchesSameRows(e1, e3, t.rows[i]);
      }
    }
    AppendToNewestRow(t2, e3, k);
    var t3 := Receive(t2, e3).0;
    assert t2.rows[k].content == Converted(e2, Singleton(e1));
    assert t3.rows[k].content == Appended(e3, Converted(e2, Singleton(e1)));
    ThreeEntriesInOrder(e1, e2, e3);
  }
}
