/**
 * Content shapes of Notifications and NewsfeedItems, and the two pre_save
 * validators that guard them (deadline_/social/models.py,
 * `nw_item_validation` and `notification_type_validation`).
 *
 * Both validators run the same three ordered checks against a table from
 * type to required content fields; `Validate` states them once, over any
 * type of field names.
 */
module Shape {
  import opened Wrappers

  /**
   * The keys that occur in content dictionaries; `Other` is any other key.
   * `Other` is meant for names none of the listed constructors spell: the
   * model does not identify `Other("follower_id")` with `FollowerId`, which
   * are one key in a Python dictionary.
   */
  datatype Field =
    // notification content
    | FollowerId | FollowerName | Followers
    | SubmissionId | ChallengeId | ChallengeName
    | LikerId | LikerName | Likers
    | NwContent | NwType | NwItemId
    | ChallengeSubcategoryName
    | NwItemContent | NwItemType
    | CommenterId | CommenterName | Commenters
    | NwCommentId | CommentContent | CommentId
    // newsfeed item content
    | ProficiencyName | SubcategoryName | SubcategoryId
    | NewsfeedItemId
    | SubmissionAuthorId | SubmissionAuthorName | SubmissionCodeSnippet
    | SubmissionLanguageName | SubmissionLanguageLoc
    | ChallengeDifficulty | ChallengeScore | AttemptsCount
    | Other(key: string)

  /** A JSON value as stored in a content field. */
  datatype Value =
    | Int(i: int)
    | Str(s: string)
    | Dict(entries: map<Field, Value>)
    | List(items: seq<Value>)

  type Content = map<Field, Value>

  /** The decision of a pre_save validator: accept the row, or the exception it raises. */
  datatype Verdict =
    | Accepted
    | InvalidType                              // Invalid*Type
    | MissingContentField(field: Field)        // Missing*ContentField
    | InvalidContentField(extra: set<Field>)   // Invalid*ContentField

  function Fields<F(==)>(required: seq<F>): set<F> {
    set f | f in required
  }

  predicate NoDuplicates<F(==)>(s: seq<F>) {
    forall i, j :: 0 <= i < j < |s| ==> s[i] != s[j]
  }

  /** The position of the first required field that the content lacks. */
  function FirstMissing<F(==)>(required: seq<F>, keys: set<F>): (r: Option<nat>)
    ensures r.None? <==> forall f :: f in required ==> f in keys
    ensures r.Some? ==> r.value < |required| && required[r.value] !in keys
    ensures r.Some? ==> forall j :: 0 <= j < r.value ==> required[j] in keys
  {
    if |required| == 0 then None
    else if required[0] !in keys then Some(0)
    else
      match FirstMissing(required[1..], keys)
      case None => None
      case Some(i) => Some(i + 1)
  }

  /**
   * The validator: an unknown type (no entry in the table) is refused first,
   * then the first required field missing from the content, then, when the
   * content has more keys than the required list has entries, the keys that
   * are not required.
   */
  function Validate(required: Option<seq<Field>>, content: Content): (v: Verdict)
    ensures required.None? <==> v == InvalidType
    ensures v.MissingContentField? ==>
              required.Some? && v.field in required.value && v.field !in content
    ensures v.MissingContentField? ==>
              required.Some? && FirstMissing(required.value, content.Keys).Some?
              && v.field == required.value[FirstMissing(required.value, content.Keys).value]
    ensures v.InvalidContentField? ==>
              required.Some? && Fields(required.value) <= content.Keys
              && v.extra == content.Keys - Fields(required.value) && v.extra != {}
    ensures v == Accepted ==> required.Some? && Fields(required.value) <= content.Keys
  {
    match required
    case None => InvalidType
    case Some(fields) =>
      match FirstMissing(fields, content.Keys)
      case Some(i) => MissingContentField(fields[i])
      case None =>
        if |fields| < |content| then
          var extra := content.Keys - Fields(fields);
          if extra != {} then InvalidContentField(extra) else Accepted
        else Accepted
  }

  lemma SubsetOfSameSize<F>(a: set<F>, b: set<F>)
    requires a <= b && |b| <= |a|
    ensures a == b
  {
    assert a + b == b && a * b == a && a - b == {};
    assert |b - a| == 0;
    assert b - a == {};
  }

  lemma {:induction false} FieldsSize<F>(s: seq<F>)
    requires NoDuplicates(s)
    ensures |Fields(s)| == |s|
  {
    if |s| > 0 {
      var tail := s[1..];
      FieldsSize(tail);
      assert Fields(s) == Fields(tail) + {s[0]};
      assert s[0] !in Fields(tail);
    }
  }

  lemma FieldsSizeAtMost<F>(s: seq<F>)
    ensures |Fields(s)| <= |s|
  {
    if |s| > 0 {
      FieldsSizeAtMost(s[1..]);
      assert Fields(s) == Fields(s[1..]) + {s[0]};
    }
  }

  /**
   * A row is accepted exactly when its type is known and its content's key
   * set is the required set (the required list holding each field once).
   */
  lemma ValidateAcceptsExactShape(required: Option<seq<Field>>, content: Content)
    requires required.Some? ==> NoDuplicates(required.value)
    ensures Validate(required, content) == Accepted <==>
              required.Some? && content.Keys == Fields(required.value)
  {
    if required.Some? {
      var fields := required.value;
      FieldsSize(fields);
      if Validate(required, content) == Accepted {
        if |fields| < |content| {
          forall k | k in content.Keys ensures k in Fields(fields) {
            assert k !in content.Keys - Fields(fields);
          }
        } else {
          SubsetOfSameSize(Fields(fields), content.Keys);
        }
      }
    }
  }

  /**
   * Whatever the table holds, content whose keys are exactly the required
   * fields is accepted.
   */
  lemma ExactShapeIsAccepted(required: seq<Field>, content: Content)
    requires content.Keys == Fields(required)
    ensures Validate(Some(required), content) == Accepted
  {
    FieldsSizeAtMost(required);
  }

  /**
   * The comparison of lengths is made against the required LIST: a table
   * entry that repeats a field lets one unrequired key through.
   */
  lemma RepeatedFieldLetsExtraKeyThrough()
    ensures Validate(Some([FollowerId, FollowerId]),
                     map[FollowerId := Int(1), Other("tank") := Str("yo")]) == Accepted
  {
    var content := map[FollowerId := Int(1), Other("tank") := Str("yo")];
    assert content.Keys == {FollowerId, Other("tank")};
    assert |content| == 2;
  }

  // ---------------------------------------------------------------------
  // The tables of social/constants.py (VALID_*_TYPES and *_CONTENT_FIELDS).
  // That file is not part of this model: each type's fields below are the
  // keys its creator writes in social/models.py.

  datatype NotificationType =
    | ReceiveFollow | ReceiveFollowSquashed
    | ReceiveSubmissionUpvote | ReceiveSubmissionUpvoteSquashed
    | ReceiveNwItemLike | ReceiveNwItemLikeSquashed
    | ReceiveNwItemComment | ReceiveNwItemCommentSquashed
    | NewChallenge
    | ReceiveNwItemCommentReply
    | ReceiveSubmissionComment
    | ReceiveSubmissionCommentReply
    | ReceiveChallengeCommentReply
    | UnlistedNotificationType(name: string)

  /** NOTIFICATION_TYPE_CONTENT_FIELDS; None for a type not in VALID_NOTIFICATION_TYPES. */
  function NotificationFields(t: NotificationType): (r: Option<seq<Field>>)
    ensures r.Some? <==> !t.UnlistedNotificationType?
    ensures r.Some? ==> NoDuplicates(r.value)
  {
    match t
    case ReceiveFollow => Some([FollowerId, FollowerName])
    case ReceiveFollowSquashed => Some([Followers])
    case ReceiveSubmissionUpvote =>
      Some([SubmissionId, ChallengeId, ChallengeName, LikerId, LikerName])
    case ReceiveSubmissionUpvoteSquashed =>
      Some([SubmissionId, ChallengeId, ChallengeName, Likers])
    case ReceiveNwItemLike => Some([NwContent, LikerId, LikerName, NwType, NwItemId])
    case ReceiveNwItemLikeSquashed => Some([NwContent, NwType, NwItemId, Likers])
    case NewChallenge => Some([ChallengeName, ChallengeId, ChallengeSubcategoryName])
    case ReceiveNwItemComment =>
      Some([NwItemContent, CommenterId, CommenterName, NwItemType, NwItemId])
    case ReceiveNwItemCommentSquashed => Some([NwItemContent, NwItemType, NwItemId, Commenters])
    case ReceiveNwItemCommentReply =>
      Some([NwCommentId, CommenterId, CommenterName, CommentContent])
    case ReceiveSubmissionComment =>
      Some([SubmissionId, ChallengeId, ChallengeName, CommenterName, CommenterId,
            CommentContent, CommentId])
    case ReceiveSubmissionCommentReply =>
      Some([SubmissionId, ChallengeId, ChallengeName, CommenterName, CommenterId,
            CommentContent, CommentId])
    case ReceiveChallengeCommentReply =>
      Some([ChallengeId, ChallengeName, CommentId, CommentContent, CommenterId, CommenterName])
    case UnlistedNotificationType(_) => None
  }

  datatype NewsfeedItemType =
    | SubcategoryBadgePost
    | SharePost
    | SubmissionLinkPost
    | ChallengeLinkPost
    | ChallengeCompletionPost
    | UnlistedNewsfeedItemType(name: string)

  /** NEWSFEED_ITEM_TYPE_CONTENT_FIELDS; None for a type not in VALID_NEWSFEED_ITEM_TYPES. */
  function NewsfeedItemFields(t: NewsfeedItemType): (r: Option<seq<Field>>)
    ensures r.Some? <==> !t.UnlistedNewsfeedItemType?
    ensures r.Some? ==> NoDuplicates(r.value)
  {
    match t
    case SubcategoryBadgePost => Some([ProficiencyName, SubcategoryName, SubcategoryId])
    case SharePost => Some([NewsfeedItemId])
    case SubmissionLinkPost =>
      Some([SubmissionId, SubmissionAuthorId, SubmissionAuthorName, SubmissionCodeSnippet,
            SubmissionLanguageName, SubmissionLanguageLoc])
    case ChallengeLinkPost =>
      Some([ChallengeId, ChallengeName, ChallengeSubcategoryName, ChallengeDifficulty])
    case ChallengeCompletionPost =>
      Some([ChallengeId, ChallengeName, SubmissionId, ChallengeScore, AttemptsCount])
    case UnlistedNewsfeedItemType(_) => None
  }

  /** notification_type_validation */
  function NotificationTypeValidation(t: NotificationType, content: Content): (v: Verdict)
    ensures v == Accepted <==>
              !t.UnlistedNotificationType? && content.Keys == Fields(NotificationFields(t).value)
    ensures v == InvalidType <==> t.UnlistedNotificationType?
  {
    ValidateAcceptsExactShape(NotificationFields(t), content);
    Validate(NotificationFields(t), content)
  }

  /** nw_item_validation */
  function NwItemValidation(t: NewsfeedItemType, content: Content): (v: Verdict)
    ensures v == Accepted <==>
              !t.UnlistedNewsfeedItemType? && content.Keys == Fields(NewsfeedItemFields(t).value)
    ensures v == InvalidType <==> t.UnlistedNewsfeedItemType?
  {
    ValidateAcceptsExactShape(NewsfeedItemFields(t), content);
    Validate(NewsfeedItemFields(t), content)
  }
}
