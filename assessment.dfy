/**
 * The rules an assessment applies to its own fields: the guard on leaving
 * "Rework Needed", the normalisation of the design and operational conclusions,
 * the snapshotable assessment type, the SOX 302 auto-completion and the creation of
 * numbered review levels for the multi-level verification flow.
 */
module AssessmentRules {
  import opened Wrappers
  import opened ReviewLevels

  // The status names and workflow names the assessment model uses.
  const START_STATE := "Not Started"
  const DONE_STATE := "In Review"
  const FINAL_STATE := "Completed"
  const DEPRECATED := "Deprecated"
  const REWORK_NEEDED := "Rework Needed"

  const STANDARD := "STANDARD"
  const SOX302 := "SOX302"
  const MLV := "MLV"

  const VALID_CONCLUSIONS: seq<string> := ["Effective", "Ineffective", "Needs improvement", "Not Applicable"]

  /** The only states an assessment in "Rework Needed" may move to. */
  const REWORK_TARGETS: seq<string> := [DONE_STATE, FINAL_STATE, DEPRECATED]

  const REWORK_MESSAGE := "Assessment in `Rework Needed` state can be only moved to: [In Review,Completed,Deprecated]"

  // ---------------------------------------------------------------------------
  // validate_status

  /**
   * `validate_status`: `superResult` is the verdict of the status mixin's own check on
   * the new value. A status set to its current value passes; from "Rework Needed" only
   * the three targets pass unless the rework check is skipped; otherwise the mixin's
   * verdict stands. The value itself is never rewritten.
   */
  function ValidateStatus(current: string, superResult: Result<string>, skipReworkValidation: bool): (r: Result<string>)
    ensures superResult.Failure? ==> r == superResult
    ensures r.Success? ==> r == superResult
    ensures superResult.Success? && current == superResult.value ==> r == superResult
    ensures superResult.Success? ==>
              (r.Failure? <==> current == REWORK_NEEDED && current != superResult.value
                               && superResult.value !in REWORK_TARGETS && !skipReworkValidation)
  {
    match superResult
    case Failure(_) => superResult
    case Success(value) =>
      if current == value then Success(value)
      else if current == REWORK_NEEDED && value !in REWORK_TARGETS && !skipReworkValidation then Failure(REWORK_MESSAGE)
      else Success(value)
  }

  /** The skip flag only matters when leaving "Rework Needed". */
  lemma SkipFlagOnlyForRework(current: string, superResult: Result<string>)
    requires current != REWORK_NEEDED
    ensures ValidateStatus(current, superResult, true) == ValidateStatus(current, superResult, false) == superResult
  {
  }

  /** Leaving "Rework Needed" for "In Progress" is refused unless the check is skipped. */
  lemma ReworkToInProgressRefused()
    ensures ValidateStatus(REWORK_NEEDED, Success("In Progress"), false).Failure?
    ensures ValidateStatus(REWORK_NEEDED, Success("In Progress"), true) == Success("In Progress")
  {
    assert "In Progress" != REWORK_TARGETS[0] && "In Progress" != REWORK_TARGETS[1] && "In Progress" != REWORK_TARGETS[2];
  }

  // ---------------------------------------------------------------------------
  // validate_design / validate_opperationally

  /** A conclusion is kept when it is one of the valid ones, and becomes "" otherwise. */
  function ValidateConclusion(value: Option<string>): (r: string)
    ensures r in VALID_CONCLUSIONS || r == ""
    ensures value.Some? && value.value in VALID_CONCLUSIONS ==> r == value.value
    ensures value.None? || value.value !in VALID_CONCLUSIONS ==> r == ""
  {
    if value.Some? && value.value in VALID_CONCLUSIONS then value.value else ""
  }

  /** Validating a stored conclusion again leaves it as it is. */
  lemma ConclusionIdempotent(value: Option<string>)
    ensures ValidateConclusion(Some(ValidateConclusion(value))) == ValidateConclusion(value)
  {
  }

  // ---------------------------------------------------------------------------
  // validate_assessment_type

  /**
   * An absent or empty assessment type is accepted; any other must be the name of a
   * snapshotable model (`snapshotable`, the snapshotter's type list).
   */
  function ValidateAssessmentType(value: Option<string>, snapshotable: set<string>): (r: Result<Option<string>>)
    ensures r.Success? <==> value.None? || value.value == "" || value.value in snapshotable
    ensures r.Success? ==> r.value == value
  {
    if value.Some? && value.value != "" && value.value !in snapshotable then
      Failure("Assessment type '" + value.value + "' is not snapshotable")
    else Success(value)
  }

  // ---------------------------------------------------------------------------
  // sox_302_enabled / exec_sox_302_status_flow

  predicate Sox302Enabled(verificationWorkflow: string)
  {
    verificationWorkflow == SOX302
  }

  /**
   * The status after the SOX 302 flow: it moves to the final state exactly when the
   * flow is enabled, the status was just changed, the new status is "In Review" and no
   * local value is negative; otherwise it stays.
   */
  function Sox302Status(status: string, initialStatus: string, verificationWorkflow: string, hasNegativeCavs: bool): (r: string)
    ensures r == status || r == FINAL_STATE
    ensures r != status <==>
              Sox302Enabled(verificationWorkflow) && initialStatus != status && status == DONE_STATE && !hasNegativeCavs
  {
    if Sox302Enabled(verificationWorkflow) && initialStatus != status && status == DONE_STATE && !hasNegativeCavs then
      FINAL_STATE
    else status
  }

  /** Running the flow again in the same commit changes nothing more. */
  lemma Sox302StatusStable(status: string, initialStatus: string, verificationWorkflow: string, hasNegativeCavs: bool)
    ensures var s := Sox302Status(status, initialStatus, verificationWorkflow, hasNegativeCavs);
            Sox302Status(s, initialStatus, verificationWorkflow, hasNegativeCavs) == s
  {
  }

  // ---------------------------------------------------------------------------
  // create_review_levels

  /** The level numbers 1..n (none for n <= 0), as `range(1, n + 1)`. */
  function LevelRange(n: int): (r: seq<int>)
    ensures |r| == (if n < 0 then 0 else n)
    ensures forall i :: 0 <= i < |r| ==> r[i] == i + 1
  {
    if n <= 0 then [] else LevelRange(n - 1) + [n]
  }

  /**
   * The numbers of the levels `create_review_levels` adds: none when levels exist or the
   * workflow is not MLV; 1..count otherwise, where a missing count makes `range` fail.
   */
  function NewLevelNumbers(hasLevels: bool, verificationWorkflow: string, reviewLevelsCount: Option<int>): (r: Result<seq<int>>)
    ensures hasLevels || verificationWorkflow != MLV ==> r == Success([])
    ensures !hasLevels && verificationWorkflow == MLV ==>
              (r.Failure? <==> reviewLevelsCount.None?)
              && (r.Success? ==>
                    |r.value| == (if reviewLevelsCount.value < 0 then 0 else reviewLevelsCount.value)
                    && forall i :: 0 <= i < |r.value| ==> r.value[i] == i + 1)
  {
    if hasLevels || verificationWorkflow != MLV then Success([])
    else if reviewLevelsCount.None? then Failure("TypeError: unsupported operand type(s) for +: 'NoneType' and 'int'")
    else Success(LevelRange(reviewLevelsCount.value))
  }

  class Assessment {
    var id: int
    var contextId: Option<int>
    var status: string
    var verificationWorkflow: string
    var reviewLevelsCount: Option<int>
    var reviewLevels: seq<ReviewLevel>

    constructor (id: int, contextId: Option<int>, verificationWorkflow: string, reviewLevelsCount: Option<int>)
      ensures this.id == id && this.contextId == contextId
      ensures this.verificationWorkflow == verificationWorkflow && this.reviewLevelsCount == reviewLevelsCount
      ensures status == START_STATE && reviewLevels == []
    {
      this.id := id;
      this.contextId := contextId;
      status := START_STATE;
      this.verificationWorkflow := verificationWorkflow;
      this.reviewLevelsCount := reviewLevelsCount;
      reviewLevels := [];
    }

    /**
     * `exec_sox_302_status_flow`: `initialStatus` is the status before the request and
     * `hasNegativeCavs` whether a local value is marked negative.
     */
    method ExecSox302StatusFlow(initialStatus: string, hasNegativeCavs: bool)
      modifies this
      ensures status == Sox302Status(old(status), initialStatus, verificationWorkflow, hasNegativeCavs)
      ensures verificationWorkflow == old(verificationWorkflow) && reviewLevels == old(reviewLevels)
      ensures id == old(id) && contextId == old(contextId) && reviewLevelsCount == old(reviewLevelsCount)
    {
      var followSox302Flow := Sox302Enabled(verificationWorkflow);
      var movedInReview := initialStatus != status && status == DONE_STATE;
      if followSox302Flow && movedInReview && !hasNegativeCavs {
        status := FINAL_STATE;
      }
    }

    /**
     * `create_review_levels`: one new "Not Started" level per number of
     * `NewLevelNumbers`, in order, for this assessment and context.
     */
    method CreateReviewLevels() returns (r: Result<seq<ReviewLevel>>)
      modifies this
      ensures var numbers := NewLevelNumbers(old(reviewLevels) != [], verificationWorkflow, reviewLevelsCount);
              (r.Success? <==> numbers.Success?)
              && (r.Success? ==>
                    |r.value| == |numbers.value|
                    && reviewLevels == old(reviewLevels) + r.value
                    && forall i :: 0 <= i < |r.value| ==>
                         fresh(r.value[i])
                         && r.value[i].levelNumber == numbers.value[i]
                         && r.value[i].assessmentId == Some(id) && r.value[i].contextId == contextId
                         && r.value[i].status == Str(NOT_STARTED) && r.value[i].completedAt == Null)
      ensures r.Failure? ==> reviewLevels == old(reviewLevels)
      ensures status == old(status) && verificationWorkflow == old(verificationWorkflow)
      ensures id == old(id) && contextId == old(contextId) && reviewLevelsCount == old(reviewLevelsCount)
    {
      if reviewLevels != [] {
        return Success([]);
      }
      if verificationWorkflow != MLV {
        return Success([]);
      }
      if reviewLevelsCount.None? {
        return Failure("TypeError: unsupported operand type(s) for +: 'NoneType' and 'int'");
      }
      var count := reviewLevelsCount.value;
      var created: seq<ReviewLevel> := [];
      var levelNumber := 1;
      while levelNumber < count + 1
        invariant 1 <= levelNumber && (count >= 0 ==> levelNumber <= count + 1) && (count < 0 ==> levelNumber == 1)
        invariant |created| == levelNumber - 1
        invariant reviewLevels == old(reviewLevels) + created
        invariant status == old(status) && verificationWorkflow == old(verificationWorkflow)
        invariant id == old(id) && contextId == old(contextId) && reviewLevelsCount == old(reviewLevelsCount)
        invariant forall i :: 0 <= i < |created| ==>
                    fresh(created[i])
                    && created[i].levelNumber == i + 1
                    && created[i].assessmentId == Some(id) && created[i].contextId == contextId
                    && created[i].status == Str(NOT_STARTED) && created[i].completedAt == Null
      {
        var level := new ReviewLevel(levelNumber, Some(id), contextId);
        created := created + [level];
        reviewLevels := reviewLevels + [level];
        levelNumber := levelNumber + 1;
      }
      r := Success(created);
    }
  }
}
