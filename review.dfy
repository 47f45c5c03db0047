/**
 * Reviews of reviewable objects: the review state, reviewers and issue link a
 * reviewable exposes, the rules that send an approved review back to "Unreviewed"
 * when the object's attributes or mappings change, and the two checks a review makes
 * on itself (mandatory roles and the reviewable's type).
 */
module Reviews {
  import opened Wrappers

  const REVIEWED := "Reviewed"
  const UNREVIEWED := "Unreviewed"

  const EMAIL_TYPE := "email"
  const ISSUE_TRACKER := "issue_tracker"

  const STATUS_UNREVIEWED := "review_status_unreviewed"

  /** Attributes whose changes never reset a review. */
  const ATTRS_TO_IGNORE: set<string> :=
    {"review", "updated_at", "modified_by", "modified_by_id", "slug", "_access_control_list", "folder", "recipients"}

  /** The one attribute with its own change handler. */
  const RECIPIENTS := "recipients"

  datatype IssueTrackerIssue = IssueTrackerIssue(issueUrl: Option<string>)

  /** What the reset rules read and write on a review: its status, notification type and notifications. */
  datatype ReviewState = ReviewState(status: string, notificationType: string, notifications: seq<string>)

  /**
   * `_set_review_status_unreviewed` on a present review: the status becomes
   * "Unreviewed", and a "status unreviewed" notification is added only for a review by
   * email of an object that is not synchronised from the external app.
   */
  function Unreviewed(s: ReviewState, isSynchronizable: bool): (r: ReviewState)
    ensures r.status == UNREVIEWED && r.notificationType == s.notificationType
    ensures !isSynchronizable && s.notificationType == EMAIL_TYPE ==> r.notifications == s.notifications + [STATUS_UNREVIEWED]
    ensures isSynchronizable || s.notificationType != EMAIL_TYPE ==> r.notifications == s.notifications
  {
    var notifications :=
      if !isSynchronizable && s.notificationType == EMAIL_TYPE then s.notifications + [STATUS_UNREVIEWED]
      else s.notifications;
    ReviewState(UNREVIEWED, s.notificationType, notifications)
  }

  /** One changed attribute: its key and, for the recipients list, whether its ordered text changed. */
  datatype AttrChange = AttrChange(key: string, orderedStringChanged: bool)

  /** A change is recorded unless it is a recipients change that leaves the ordered text alone. */
  predicate Recorded(a: AttrChange)
  {
    a.key != RECIPIENTS || a.orderedStringChanged
  }

  /** The `changed` set the loop of `_update_status_on_attr` builds. */
  function ChangedKeys(attrs: seq<AttrChange>): set<string>
  {
    if attrs == [] then {}
    else
      var a := attrs[|attrs| - 1];
      ChangedKeys(attrs[..|attrs| - 1]) + (if Recorded(a) then {a.key} else {})
  }

  lemma {:induction false} ChangedKeysSpec(attrs: seq<AttrChange>, k: string)
    ensures k in ChangedKeys(attrs) <==> exists i :: 0 <= i < |attrs| && attrs[i].key == k && Recorded(attrs[i])
  {
    if attrs != [] {
      var n := |attrs| - 1;
      ChangedKeysSpec(attrs[..n], k);
      if exists i :: 0 <= i < n && attrs[..n][i].key == k && Recorded(attrs[..n][i]) {
        var i :| 0 <= i < n && attrs[..n][i].key == k && Recorded(attrs[..n][i]);
        assert attrs[i] == attrs[..n][i];
      }
      if exists i :: 0 <= i < |attrs| && attrs[i].key == k && Recorded(attrs[i]) {
        var i :| 0 <= i < |attrs| && attrs[i].key == k && Recorded(attrs[i]);
        if i < n {
          assert attrs[..n][i] == attrs[i];
        }
      }
    }
  }

  /**
   * The review after an attribute edit: it is reset exactly when it was not already
   * "Unreviewed" and some recorded change is to an attribute outside the ignored set.
   */
  function AfterAttrEdit(s: ReviewState, isSynchronizable: bool, attrs: seq<AttrChange>): (r: ReviewState)
    ensures r.status == UNREVIEWED <==>
              s.status == UNREVIEWED
              || exists i :: 0 <= i < |attrs| && Recorded(attrs[i]) && attrs[i].key !in ATTRS_TO_IGNORE
    ensures r.status != UNREVIEWED || s.status == UNREVIEWED ==> r == s
    ensures s.status != UNREVIEWED && (exists i :: 0 <= i < |attrs| && Recorded(attrs[i]) && attrs[i].key !in ATTRS_TO_IGNORE)
            ==> r == Unreviewed(s, isSynchronizable)
  {
    if s.status != UNREVIEWED && ChangedKeys(attrs) - ATTRS_TO_IGNORE != {} then
      var k :| k in ChangedKeys(attrs) - ATTRS_TO_IGNORE;
      ChangedKeysSpec(attrs, k);
      Unreviewed(s, isSynchronizable)
    else
      assert s.status != UNREVIEWED ==>
               forall i :: 0 <= i < |attrs| && Recorded(attrs[i]) ==> attrs[i].key in ATTRS_TO_IGNORE by {
        forall i | 0 <= i < |attrs| && Recorded(attrs[i])
          ensures attrs[i].key in ChangedKeys(attrs)
        {
          ChangedKeysSpec(attrs, attrs[i].key);
        }
      }
      s
  }

  /** Edits of ignored attributes only, such as the slug or the recipients, keep the review. */
  lemma IgnoredEditsKeepReview(s: ReviewState, isSynchronizable: bool, attrs: seq<AttrChange>)
    requires forall i :: 0 <= i < |attrs| ==> attrs[i].key in ATTRS_TO_IGNORE
    ensures AfterAttrEdit(s, isSynchronizable, attrs) == s
  {
  }

  /**
   * The review after a mapping is added or removed: it is reset exactly when it was not
   * "Unreviewed" and the other side is of a snapshottable type.
   */
  function AfterMapping(s: ReviewState, isSynchronizable: bool, counterpartySnapshottable: bool): (r: ReviewState)
    ensures r.status == UNREVIEWED <==> s.status == UNREVIEWED || counterpartySnapshottable
    ensures r.status != UNREVIEWED || s.status == UNREVIEWED ==> r == s
    ensures s.status != UNREVIEWED && counterpartySnapshottable ==> r == Unreviewed(s, isSynchronizable)
  {
    if s.status != UNREVIEWED && counterpartySnapshottable then Unreviewed(s, isSynchronizable) else s
  }

  class Review {
    var status: string
    var notificationType: string
    var issue: Option<IssueTrackerIssue>
    /** The people of each role on the review. */
    var acl: map<string, seq<int>>
    /** The notifications added for this review. */
    var notifications: seq<string>

    function State(): ReviewState
      reads this
    {
      ReviewState(status, notificationType, notifications)
    }

    constructor (status: string, notificationType: string, issue: Option<IssueTrackerIssue>, acl: map<string, seq<int>>)
      ensures State() == ReviewState(status, notificationType, [])
      ensures this.issue == issue && this.acl == acl
    {
      this.status := status;
      this.notificationType := notificationType;
      this.issue := issue;
      this.acl := acl;
      notifications := [];
    }

    /** The people holding `roleName` on the review. */
    function PersonsFor(roleName: string): seq<int>
      reads this
    {
      if roleName in acl then acl[roleName] else []
    }
  }

  /** An object that can be reviewed; `review` is null while nobody asked for a review. */
  class Reviewable {
    const isSynchronizable: bool
    var review: Review?

    constructor (isSynchronizable: bool, review: Review?)
      ensures this.isSynchronizable == isSynchronizable && this.review == review
    {
      this.isSynchronizable := isSynchronizable;
      this.review := review;
    }

    /** `review_status`: the review's status, or "Unreviewed" without a review. */
    function ReviewStatus(): (r: string)
      reads this, review
      ensures review == null ==> r == UNREVIEWED
      ensures review != null ==> r == review.status
    {
      if review != null then review.status else UNREVIEWED
    }

    /** `reviewers`: the review's "Reviewers", and nobody without a review. */
    function Reviewers(): (r: seq<int>)
      reads this, review
      ensures review == null ==> r == []
      ensures review != null ==> r == review.PersonsFor("Reviewers")
    {
      if review != null then review.PersonsFor("Reviewers") else []
    }

    /**
     * `review_issue_link`: the tracker issue's URL, only for a review that has a tracker
     * issue and notifies through the issue tracker.
     */
    function ReviewIssueLink(): (r: Option<string>)
      reads this, review
      ensures r.Some? ==> review != null && review.issue.Some? && review.notificationType == ISSUE_TRACKER
      ensures review != null && review.issue.Some? && review.notificationType == ISSUE_TRACKER ==>
                r == review.issue.value.issueUrl
    {
      if review == null then None
      else if review.issue.None? then None
      else if review.notificationType != ISSUE_TRACKER then None
      else review.issue.value.issueUrl
    }

    /** `add_email_notification`. */
    method AddEmailNotification()
      requires review != null
      modifies review
      ensures review.notifications ==
                old(review.notifications)
                + (if !isSynchronizable && review.notificationType == EMAIL_TYPE then [STATUS_UNREVIEWED] else [])
      ensures review.status == old(review.status) && review.notificationType == old(review.notificationType)
      ensures review.issue == old(review.issue) && review.acl == old(review.acl)
    {
      if isSynchronizable {
        return;
      }
      var reviewNotifType := review.notificationType;
      if reviewNotifType == EMAIL_TYPE {
        review.notifications := review.notifications + [STATUS_UNREVIEWED];
      }
    }

    /** `_set_review_status_unreviewed`. */
    method SetReviewStatusUnreviewed()
      modifies review
      ensures review != null ==> review.State() == Unreviewed(old(review.State()), isSynchronizable)
      ensures review != null ==> review.issue == old(review.issue) && review.acl == old(review.acl)
    {
      if review != null {
        review.status := UNREVIEWED;
        AddEmailNotification();
      }
    }

    /** `_update_status_on_attr`, given the attributes with changes in their history. */
    method UpdateStatusOnAttr(attrs: seq<AttrChange>)
      modifies review
      ensures review != null ==> review.State() == AfterAttrEdit(old(review.State()), isSynchronizable, attrs)
      ensures review != null ==> review.issue == old(review.issue) && review.acl == old(review.acl)
    {
      if review != null && review.status != UNREVIEWED {
        var changed: set<string> := {};
        for i := 0 to |attrs|
          invariant changed == ChangedKeys(attrs[..i])
        {
          var attr := attrs[i];
          assert attrs[..i + 1][..i] == attrs[..i];
          if attr.key == RECIPIENTS {
            if attr.orderedStringChanged {
              changed := changed + {attr.key};
            }
          } else {
            changed := changed + {attr.key};
          }
        }
        assert attrs[..|attrs|] == attrs;
        if changed - ATTRS_TO_IGNORE != {} {
          SetReviewStatusUnreviewed();
        }
      }
    }

    /** `_update_status_on_mapping`, given whether the other side's type is snapshottable. */
    method UpdateStatusOnMapping(counterpartyType: string, snapshottable: set<string>)
      modifies review
      ensures review != null ==>
                review.State() == AfterMapping(old(review.State()), isSynchronizable, counterpartyType in snapshottable)
      ensures review != null ==> review.issue == old(review.issue) && review.acl == old(review.acl)
    {
      if ReviewStatus() != UNREVIEWED {
        if counterpartyType in snapshottable {
          SetReviewStatusUnreviewed();
        }
      }
    }
  }

  // ---------------------------------------------------------------------------
  // Review.validate_acl / Review.validate_reviewable_type

  /** A global role of reviews: its id and whether it is mandatory. */
  datatype RoleData = RoleData(id: int, mandatory: bool)

  /** The mandatory review roles that no access-control entry of the review assigns. */
  function MissedMandatoryRoles(roles: seq<RoleData>, passedRoleIds: set<int>): (missed: set<int>)
    ensures forall id :: id in missed <==>
              id !in passedRoleIds && exists i :: 0 <= i < |roles| && roles[i].id == id && roles[i].mandatory
  {
    set i | 0 <= i < |roles| && roles[i].mandatory && roles[i].id !in passedRoleIds :: roles[i].id
  }

  /** `validate_acl`: an error exactly when a mandatory role is missing. */
  function ValidateAcl(roles: seq<RoleData>, passedRoleIds: set<int>): (err: Option<string>)
    ensures err.None? <==> forall i :: 0 <= i < |roles| && roles[i].mandatory ==> roles[i].id in passedRoleIds
  {
    var missed := MissedMandatoryRoles(roles, passedRoleIds);
    if missed != {} then Some("roles are mandatory")
    else
      None
  }

  /**
   * `validate_reviewable_type`: `synchronizable` maps each known model name to whether
   * it is synchronised from the external app; an unknown name fails in `issubclass`.
   */
  function ValidateReviewableType(reviewableType: string, synchronizable: map<string, bool>): (r: Result<string>)
    ensures r.Success? <==> reviewableType in synchronizable && !synchronizable[reviewableType]
    ensures r.Success? ==> r.value == reviewableType
  {
    if reviewableType !in synchronizable then Failure("TypeError: issubclass() arg 1 must be a class")
    else if synchronizable[reviewableType] then Failure("Trying to create review for external model.")
    else Success(reviewableType)
  }
}
