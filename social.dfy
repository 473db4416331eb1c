/**
 * The social models of deadline_/social/models.py as one store that the
 * managers and model methods update in place: the Notification table (with
 * its clock and the post_save deliveries), the NewsfeedItemLike rows and
 * the NewsfeedItemComment rows.
 *
 * The non-squashing creators of NotificationManager are pure: each picks a
 * recipient, a type and a content, or declines when the actor is the
 * recipient; `PlainNotice` states them.
 */
module Social {
  import opened Wrappers
  import opened Shape
  import opened Squash

  /** A NewsfeedItemComment; `parent` is the id of the comment it replies to. */
  datatype NwComment = NwComment(id: nat, item: nat, author: User, text: string, parent: Option<nat>)

  /** A NewsfeedItemLike: the item's id and the liking user's id. */
  datatype NewsfeedLike = NewsfeedLike(item: nat, author: UserId)

  /** A comment as the reply creators read it: its id, its author and its text. */
  datatype PostedComment = PostedComment(id: nat, author: User, text: string)

  /** A SubmissionVote as is_valid_submission_upvote_notification reads it. */
  datatype SubmissionVote = SubmissionVote(isUpvote: bool, author: UserId, submission: Submission)

  /** The arguments of the creators that write one row without squashing. */
  datatype PlainEvent =
    | NewChallengeEvent(recipient: UserId, challenge: Challenge)
    | NwItemCommentReplyEvent(commentId: nat, commentAuthor: UserId, reply: PostedComment)
    | SubmissionCommentEvent(submission: Submission, comment: PostedComment)
    | SubmissionCommentReplyEvent(submission: Submission, parentAuthor: UserId, comment: PostedComment)
    | ChallengeCommentReplyEvent(challenge: Challenge, parentAuthor: UserId, reply: PostedComment)

  function PlainRecipient(p: PlainEvent): UserId {
    match p
    case NewChallengeEvent(recipient, _) => recipient
    case NwItemCommentReplyEvent(_, commentAuthor, _) => commentAuthor
    case SubmissionCommentEvent(submission, _) => submission.author
    case SubmissionCommentReplyEvent(_, parentAuthor, _) => parentAuthor
    case ChallengeCommentReplyEvent(_, parentAuthor, _) => parentAuthor
  }

  /** The comment whose author the guard compares with the recipient; none for a new challenge. */
  function PlainComment(p: PlainEvent): Option<PostedComment> {
    match p
    case NewChallengeEvent(_, _) => None
    case NwItemCommentReplyEvent(_, _, reply) => Some(reply)
    case SubmissionCommentEvent(_, comment) => Some(comment)
    case SubmissionCommentReplyEvent(_, _, comment) => Some(comment)
    case ChallengeCommentReplyEvent(_, _, reply) => Some(reply)
  }

  /** The content a submission comment or a submission comment reply writes. */
  function SubmissionCommentContent(s: Submission, c: PostedComment): Content {
    map[SubmissionId := Int(s.id), ChallengeId := Int(s.challenge.id), ChallengeName := Str(s.challenge.name),
        CommenterName := Str(c.author.username), CommenterId := Int(c.author.id),
        CommentContent := Str(c.text), CommentId := Int(c.id)]
  }

  /**
   * The row a plain creator writes, as (recipient, type, content); None when
   * the comment's author is the user who would be notified.
   */
  function PlainNotice(p: PlainEvent): (r: Option<(UserId, NotificationType, Content)>)
    ensures r.None? <==> PlainComment(p).Some? && PlainComment(p).value.author.id == PlainRecipient(p)
    ensures r.Some? ==> r.value.0 == PlainRecipient(p)
  {
    match p
    case NewChallengeEvent(recipient, challenge) =>
      Some((recipient, NewChallenge,
            map[ChallengeName := Str(challenge.name), ChallengeId := Int(challenge.id),
                ChallengeSubcategoryName := Str(challenge.categoryName)]))
    case NwItemCommentReplyEvent(commentId, commentAuthor, reply) =>
      if commentAuthor == reply.author.id then None
      else
        Some((commentAuthor, ReceiveNwItemCommentReply,
              map[NwCommentId := Int(commentId), CommenterId := Int(reply.author.id),
                  CommenterName := Str(reply.author.username), CommentContent := Str(reply.text)]))
    case SubmissionCommentEvent(submission, comment) =>
      if comment.author.id == submission.author then None
      else Some((submission.author, ReceiveSubmissionComment, SubmissionCommentContent(submission, comment)))
    case SubmissionCommentReplyEvent(submission, parentAuthor, comment) =>
      if parentAuthor == comment.author.id then None
      else Some((parentAuthor, ReceiveSubmissionCommentReply, SubmissionCommentContent(submission, comment)))
    case ChallengeCommentReplyEvent(challenge, parentAuthor, reply) =>
      if parentAuthor == reply.author.id then None
      else
        Some((parentAuthor, ReceiveChallengeCommentReply,
              map[ChallengeId := Int(challenge.id), ChallengeName := Str(challenge.name),
                  CommentId := Int(reply.id), CommentContent := Str(reply.text),
                  CommenterId := Int(reply.author.id), CommenterName := Str(reply.author.username)]))
  }

  /**
   * Every plain creator writes exactly its type's required fields, of a type the engine never squashes.
   *
   * `Shape.NotificationFields` is built from the keys the creators and the
   * convert step write, so this holds by construction; what it checks is
   * that the table and the content dictionaries were transcribed alike.
   */
  lemma PlainNoticeIsAccepted(p: PlainEvent)
    requires PlainNotice(p).Some?
    ensures NotificationTypeValidation(PlainNotice(p).value.1, PlainNotice(p).value.2) == Accepted
    ensures BaseFamily(PlainNotice(p).value.1).None? && SquashedFamily(PlainNotice(p).value.1).None?
  {
    var n := PlainNotice(p).value;
    var required := NotificationFields(n.1).value;
    match p
    case NewChallengeEvent(_, _) =>
      assert Fields(required) == {ChallengeName, ChallengeId, ChallengeSubcategoryName};
    case NwItemCommentReplyEvent(_, _, _) =>
      assert Fields(required) == {NwCommentId, CommenterId, CommenterName, CommentContent};
    case SubmissionCommentEvent(_, _) =>
      assert Fields(required) == {SubmissionId, ChallengeId, ChallengeName, CommenterName, CommenterId,
                                  CommentContent, CommentId};
    case SubmissionCommentReplyEvent(_, _, _) =>
      assert Fields(required) == {SubmissionId, ChallengeId, ChallengeName, CommenterName, CommenterId,
                                  CommentContent, CommentId};
    case ChallengeCommentReplyEvent(_, _, _) =>
      assert Fields(required) == {ChallengeId, ChallengeName, CommentId, CommentContent, CommenterId,
                                  CommenterName};
  }

  /** A plain creator on the table: decline, or `_create` the row. */
  function PlainCreation(t: Table, p: PlainEvent): (Table, Outcome) {
    match PlainNotice(p)
    case None => (t, NotCreated)
    case Some(n) => Insert(t, n.0, n.1, n.2)
  }

  /**
   * A declined plain creation changes nothing and returns None; any other
   * appends one unread row for the recipient and delivers it; a valid table
   * stays valid.
   */
  lemma PlainCreationKeepsValid(t: Table, p: PlainEvent)
    requires Squash.Valid(t)
    ensures Squash.Valid(PlainCreation(t, p).0)
    ensures PlainNotice(p).None? ==> PlainCreation(t, p) == (t, NotCreated)
    ensures PlainNotice(p).Some? ==>
              && PlainCreation(t, p).1 == Saved(|t.rows|)
              && PlainCreation(t, p).0.rows ==
                 t.rows + [Notification(|t.rows|, PlainRecipient(p), PlainNotice(p).value.1,
                                        PlainNotice(p).value.2, false, t.clock)]
              && PlainCreation(t, p).0.deliveries == t.deliveries + [|t.rows|]
  {
    if PlainNotice(p).Some? {
      var n := PlainNotice(p).value;
      PlainNoticeIsAccepted(p);
      InsertKeepsWellFormed(t, n.0, n.1, n.2);
      var t' := PlainCreation(t, p).0;
      assert t'.rows == t'.rows[..|t.rows|] + [t'.rows[|t.rows|]];
    }
  }

  /** Notification.is_valid_submission_upvote_notification */
  predicate IsValidSubmissionUpvoteNotification(vote: SubmissionVote) {
    vote.isUpvote && vote.author != vote.submission.author
  }

  /** An upvote that passes the check always saves a row: it is never suppressed as a self-upvote. */
  lemma ValidUpvoteIsSaved(t: Table, vote: SubmissionVote, voter: User)
    requires Squash.Valid(t) && voter.id == vote.author
    requires IsValidSubmissionUpvoteNotification(vote)
    ensures Receive(t, UpvoteEvent(vote.submission, voter)).1.Saved?
  {
    ReceiveKeepsValid(t, UpvoteEvent(vote.submission, voter));
  }

  // ---------------------------------------------------------------------
  // Likes

  /** No (item, user) pair is liked twice. */
  predicate UniqueLikes(likes: seq<NewsfeedLike>) {
    forall i, j :: 0 <= i < j < |likes| ==> likes[i] != likes[j]
  }

  /** `.filter(newsfeed_item=item, author=user).first()`: the position of the first such like. */
  function FirstLike(likes: seq<NewsfeedLike>, item: nat, user: UserId): (r: Option<nat>)
    ensures r.None? <==> NewsfeedLike(item, user) !in likes
    ensures r.Some? ==> r.value < |likes| && likes[r.value] == NewsfeedLike(item, user)
    ensures r.Some? ==> forall j :: 0 <= j < r.value ==> likes[j] != NewsfeedLike(item, user)
  {
    if |likes| == 0 then None
    else if likes[0] == NewsfeedLike(item, user) then Some(0)
    else
      match FirstLike(likes[1..], item, user)
      case None => None
      case Some(i) => Some(i + 1)
  }

  /** The likes after remove_like deletes the first matching one (unchanged when there is none). */
  function Unliked(likes: seq<NewsfeedLike>, item: nat, user: UserId): seq<NewsfeedLike> {
    match FirstLike(likes, item, user)
    case None => likes
    case Some(i) => likes[..i] + likes[i + 1..]
  }

  /** remove_like undoes like: liking a fresh pair and removing it restores the likes. */
  lemma LikeThenUnlikeRestores(likes: seq<NewsfeedLike>, item: nat, user: UserId)
    requires NewsfeedLike(item, user) !in likes
    ensures Unliked(likes + [NewsfeedLike(item, user)], item, user) == likes
  {
    var all := likes + [NewsfeedLike(item, user)];
    assert NewsfeedLike(item, user) in all by {
      assert all[|likes|] == NewsfeedLike(item, user);
    }
    assert forall j :: 0 <= j < |likes| ==> all[j] == likes[j];
    assert all[..|likes|] == likes;
  }

  /** With no pair liked twice, removing a like leaves the pair unliked and keeps the likes unique. */
  lemma UnlikeRemovesThePair(likes: seq<NewsfeedLike>, item: nat, user: UserId)
    requires UniqueLikes(likes)
    ensures NewsfeedLike(item, user) !in Unliked(likes, item, user)
    ensures UniqueLikes(Unliked(likes, item, user))
    ensures |Unliked(likes, item, user)| == |likes| - (if NewsfeedLike(item, user) in likes then 1 else 0)
  {
    match FirstLike(likes, item, user)
    case None =>
    case Some(i) =>
      var rest := likes[..i] + likes[i + 1..];
      forall k | 0 <= k < |rest| ensures rest[k] != NewsfeedLike(item, user) {
        if k < i {
          assert rest[k] == likes[k];
        } else {
          assert rest[k] == likes[k + 1];
        }
      }
      forall a, b | 0 <= a < b < |rest| ensures rest[a] != rest[b] {
        var a' := if a < i then a else a + 1;
        var b' := if b < i then b else b + 1;
        assert rest[a] == likes[a'] && rest[b] == likes[b'];
      }
  }

  // ---------------------------------------------------------------------
  // The store

  class Store {
    var rows: seq<Notification>
    var clock: nat
    var deliveries: seq<nat>
    var likes: seq<NewsfeedLike>
    var comments: seq<NwComment>

    /** The Notification table as the squash engine sees it. */
    function Notifications(): Table
      reads this
    {
      Table(rows, clock, deliveries)
    }

    ghost predicate Valid()
      reads this
    {
      && Squash.Valid(Notifications())
      && UniqueLikes(likes)
      && (forall i :: 0 <= i < |comments| ==> comments[i].id == i)
    }

    constructor ()
      ensures Valid()
      ensures rows == [] && deliveries == [] && likes == [] && comments == []
    {
      rows := [];
      clock := 0;
      deliveries := [];
      likes := [];
      comments := [];
    }

    /** NotificationManager.create: always refused. */
    method Create() returns (r: Outcome)
      ensures r == Raised(ForbiddenMethod)
    {
      r := Raised(ForbiddenMethod);
    }

    /** NotificationManager._create: pre_save validation, the insert, and the post_save delivery. */
    method SaveNew(recipient: UserId, kind: NotificationType, content: Content) returns (r: Outcome)
      modifies this
      ensures (Notifications(), r) == Insert(old(Notifications()), recipient, kind, content)
      ensures likes == old(likes) && comments == old(comments)
    {
      var v := NotificationTypeValidation(kind, content);
      if v != Accepted {
        return Raised(InvalidShape(v));
      }
      var id := |rows|;
      rows := rows + [Notification(id, recipient, kind, content, false, clock)];
      clock := clock + 1;
      deliveries := deliveries + [id];
      r := Saved(id);
    }

    /** `save()` of row `i` after its type and content were assigned: no delivery. */
    method SaveExisting(i: nat, kind: NotificationType, content: Content) returns (r: Outcome)
      requires i < |rows|
      modifies this
      ensures (Notifications(), r) == Update(old(Notifications()), i, kind, content)
      ensures likes == old(likes) && comments == old(comments)
    {
      var v := NotificationTypeValidation(kind, content);
      if v != Accepted {
        return Raised(InvalidShape(v));
      }
      r := Saved(rows[i].id);
      rows := rows[i := rows[i].(kind := kind, content := content, updatedAt := clock)];
      clock := clock + 1;
    }

    /** convert_to_squashed_type: the row takes the squashed type and a two-entry accumulator. */
    method ConvertToSquashedType(e: Event, i: nat) returns (r: Outcome)
      requires Squash.WellFormed(Notifications()) && i < |rows| && rows[i].kind == BaseType(FamilyOf(e))
      modifies this
      ensures (Notifications(), r) == Squash.ConvertToSquashedType(old(Notifications()), e, i)
      ensures likes == old(likes) && comments == old(comments)
    {
      var f := FamilyOf(e);
      var previous := PreviousEntry(f, rows[i].content);
      var content := ContextOf(e)[AccumulatorField(f) := List([previous, Dict(Entry(e))])];
      r := SaveExisting(i, SquashedType(f), content);
    }

    /** add_to_squashed_type: the new entry is appended to the row's accumulator. */
    method AddToSquashedType(e: Event, i: nat) returns (r: Outcome)
      requires Squash.WellFormed(Notifications()) && i < |rows| && rows[i].kind == SquashedType(FamilyOf(e))
      modifies this
      ensures (Notifications(), r) == Squash.AddToSquashedType(old(Notifications()), e, i)
      ensures likes == old(likes) && comments == old(comments)
    {
      var accumulator := AccumulatorField(FamilyOf(e));
      var entries := rows[i].content[accumulator].items;
      var content := rows[i].content[accumulator := List(entries + [Dict(Entry(e))])];
      r := SaveExisting(i, rows[i].kind, content);
    }

    /** squash */
    method SquashInto(e: Event, i: nat) returns (r: Outcome)
      requires Squash.WellFormed(Notifications()) && i < |rows| && Squashable(e, rows[i])
      modifies this
      ensures (Notifications(), r) == Squash.SquashInto(old(Notifications()), e, i)
      ensures likes == old(likes) && comments == old(comments)
    {
      if rows[i].kind == BaseType(FamilyOf(e)) {
        r := ConvertToSquashedType(e, i);
      } else {
        r := AddToSquashedType(e, i);
      }
    }

    /**
     * create() of the family managers (create_receive_follow_notification,
     * create_receive_submission_upvote_notification,
     * create_receive_nw_item_like_notification,
     * create_nw_item_comment_notification).
     */
    method CreateSquashable(e: Event) returns (r: Outcome)
      requires Valid()
      modifies this
      ensures Valid()
      ensures (Notifications(), r) == Receive(old(Notifications()), e)
      ensures likes == old(likes) && comments == old(comments)
    {
      ReceiveKeepsValid(Notifications(), e);
      if ActorOf(e).id == RecipientOf(e) {
        if e.FollowEvent? {
          return Raised(InvalidFollow);
        }
        return NotCreated;
      }
      var last := LastSquashable(rows, e);
      if last.Some? {
        r := SquashInto(e, last.value);
      } else {
        r := SaveNew(RecipientOf(e), BaseType(FamilyOf(e)), Singleton(e));
      }
    }

    /**
     * create_new_challenge_notification, create_nw_item_comment_reply_notification,
     * create_submission_comment_notification,
     * create_submission_comment_reply_notification and
     * create_challenge_comment_reply_notification.
     */
    method CreatePlain(p: PlainEvent) returns (r: Outcome)
      requires Valid()
      modifies this
      ensures Valid()
      ensures (Notifications(), r) == PlainCreation(old(Notifications()), p)
      ensures likes == old(likes) && comments == old(comments)
    {
      PlainCreationKeepsValid(Notifications(), p);
      match PlainNotice(p)
      case None =>
        r := NotCreated;
      case Some(n) =>
        r := SaveNew(n.0, n.1, n.2);
    }

    /**
     * NewsfeedItem.like: refused when the user already likes the item;
     * otherwise the like is stored and, unless asked not to or liking their
     * own item, the item's author is notified.
     */
    method Like(item: NewsfeedItem, user: User, createNotif: bool) returns (r: Option<SocialError>)
      requires Valid()
      modifies this
      ensures Valid()
      ensures NewsfeedLike(item.id, user.id) in old(likes) ==>
                r == Some(LikeAlreadyExists) && likes == old(likes)
                && Notifications() == old(Notifications()) && comments == old(comments)
      ensures NewsfeedLike(item.id, user.id) !in old(likes) ==>
                && r == None
                && likes == old(likes) + [NewsfeedLike(item.id, user.id)]
                && comments == old(comments)
                && Notifications() == if createNotif && user.id != item.author
                                      then Receive(old(Notifications()), NwItemLikeEvent(item, user)).0
                                      else old(Notifications())
    {
      if NewsfeedLike(item.id, user.id) in likes {
        return Some(LikeAlreadyExists);
      }
      likes := likes + [NewsfeedLike(item.id, user.id)];
      if createNotif && user.id != item.author {
        var _ := CreateSquashable(NwItemLikeEvent(item, user));
      }
      r := None;
    }

    /** NewsfeedItem.remove_like: refused when there is no such like; otherwise the first one is deleted. */
    method RemoveLike(item: NewsfeedItem, user: User) returns (r: Option<SocialError>)
      requires Valid()
      modifies this
      ensures Valid()
      ensures r == (if NewsfeedLike(item.id, user.id) in old(likes) then None else Some(NonExistentLike))
      ensures likes == Unliked(old(likes), item.id, user.id)
      ensures Notifications() == old(Notifications()) && comments == old(comments)
    {
      UnlikeRemovesThePair(likes, item.id, user.id);
      var first := FirstLike(likes, item.id, user.id);
      if first.None? {
        return Some(NonExistentLike);
      }
      likes := likes[..first.value] + likes[first.value + 1..];
      r := None;
    }

    /**
     * NewsfeedItem.add_comment: the author of the item is notified first
     * (unless asked not to or commenting on their own item), then the
     * comment is stored.
     */
    method AddComment(item: NewsfeedItem, author: User, text: string, toNotify: bool) returns (c: NwComment)
      requires Valid()
      modifies this
      ensures Valid()
      ensures c == NwComment(|old(comments)|, item.id, author, text, None)
      ensures comments == old(comments) + [c] && likes == old(likes)
      ensures Notifications() == if toNotify && item.author != author.id
                                 then Receive(old(Notifications()), NwItemCommentEvent(item, author)).0
                                 else old(Notifications())
    {
      if toNotify && item.author != author.id {
        var _ := CreateSquashable(NwItemCommentEvent(item, author));
      }
      c := NwComment(|comments|, item.id, author, text, None);
      comments := comments + [c];
    }

    /**
     * NewsfeedItemComment.add_reply: the reply is stored first, then the
     * parent's author is notified unless asked not to or replying to
     * themselves.
     */
    method AddReply(parent: nat, author: User, text: string, toNotify: bool) returns (reply: NwComment)
      requires Valid() && parent < |comments|
      modifies this
      ensures Valid()
      ensures reply == NwComment(|old(comments)|, old(comments)[parent].item, author, text, Some(parent))
      ensures comments == old(comments) + [reply] && likes == old(likes)
      ensures Notifications() ==
                if toNotify && author.id != old(comments)[parent].author.id
                then PlainCreation(old(Notifications()),
                                   NwItemCommentReplyEvent(parent, old(comments)[parent].author.id,
                                                           PostedComment(reply.id, author, text))).0
                else old(Notifications())
    {
      var nwComment := comments[parent];
      reply := NwComment(|comments|, nwComment.item, author, text, Some(parent));
      comments := comments + [reply];
      if toNotify && author.id != nwComment.author.id {
        var _ := CreatePlain(NwItemCommentReplyEvent(nwComment.id, nwComment.author.id,
                                                     PostedComment(reply.id, author, text)));
      }
    }
  }
}
