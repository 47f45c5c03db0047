/**
 * The client's view of an assessment's verification flow: the three flow names, the
 * predicates that tell which flow an assessment follows, and the lookups into its
 * review levels.
 */
module VerificationFlow {
  import opened Wrappers

  /** A person as the client lists them. */
  datatype Person = Person(id: int, email: string)

  /** A review level as the client receives it with its assessment. */
  datatype ClientReviewLevel = ClientReviewLevel(
    levelNumber: int,
    status: string,
    users: seq<Person>,
    verifiedBy: Option<int>,
    completedAt: Option<string>)

  const IN_REVIEW := "In Review"

  /** The flow table: its keys and values, in declaration order. */
  const VERIFICATION_FLOWS: seq<(string, string)> := [("STANDARD", "STANDARD"), ("SOX_302", "SOX302"), ("MULTI_LEVEL", "MLV")]

  const STANDARD := VERIFICATION_FLOWS[0].1
  const SOX_302 := VERIFICATION_FLOWS[1].1
  const MULTI_LEVEL := VERIFICATION_FLOWS[2].1

  /** `getAssessmentFlows`: the values of the flow table, in key order. */
  function GetAssessmentFlows(): (r: seq<string>)
    ensures |r| == |VERIFICATION_FLOWS|
    ensures forall i :: 0 <= i < |r| ==> r[i] == VERIFICATION_FLOWS[i].1
  {
    seq(|VERIFICATION_FLOWS|, i requires 0 <= i < |VERIFICATION_FLOWS| => VERIFICATION_FLOWS[i].1)
  }

  predicate IsStandardFlow(verificationWorkflow: string)
  {
    verificationWorkflow == STANDARD
  }

  predicate IsSox302Flow(verificationWorkflow: string)
  {
    verificationWorkflow == SOX_302
  }

  predicate IsMultiLevelFlow(verificationWorkflow: string)
  {
    verificationWorkflow == MULTI_LEVEL
  }

  /** How many of the three flow predicates hold. */
  function FlowsHolding(verificationWorkflow: string): nat
  {
    (if IsStandardFlow(verificationWorkflow) then 1 else 0)
    + (if IsSox302Flow(verificationWorkflow) then 1 else 0)
    + (if IsMultiLevelFlow(verificationWorkflow) then 1 else 0)
  }

  /**
   * The flows are exactly "STANDARD", "SOX302" and "MLV"; an assessment follows at
   * most one of them, and exactly one when its workflow is one of the listed flows.
   */
  lemma FlowsPartition(verificationWorkflow: string)
    ensures GetAssessmentFlows() == ["STANDARD", "SOX302", "MLV"]
    ensures FlowsHolding(verificationWorkflow) <= 1
    ensures FlowsHolding(verificationWorkflow) == 1 <==> verificationWorkflow in GetAssessmentFlows()
  {
    var flows := GetAssessmentFlows();
    assert flows[0] == "STANDARD" && flows[1] == "SOX302" && flows[2] == "MLV";
    assert flows == ["STANDARD", "SOX302", "MLV"];
  }

  // ---------------------------------------------------------------------------
  // getInReviewLevel / getReviewLevelByNumber

  /**
   * lodash `find`: the first level satisfying `p`, or undefined when none does. Every
   * level before the one found fails `p`.
   */
  function FindLevel(levels: seq<ClientReviewLevel>, p: ClientReviewLevel -> bool): (r: Option<ClientReviewLevel>)
    ensures r.None? <==> forall i :: 0 <= i < |levels| ==> !p(levels[i])
    ensures r.Some? ==>
              exists k :: 0 <= k < |levels| && levels[k] == r.value && p(r.value)
                          && forall i :: 0 <= i < k ==> !p(levels[i])
  {
    if levels == [] then None
    else if p(levels[0]) then Some(levels[0])
    else
      var r := FindLevel(levels[1..], p);
      assert forall i :: 1 <= i < |levels| ==> levels[i] == levels[1..][i - 1];
      assert r.Some? ==> exists k :: 0 <= k < |levels| && levels[k] == r.value && p(r.value)
                                     && forall i :: 0 <= i < k ==> !p(levels[i])
      by {
        if r.Some? {
          var k :| 0 <= k < |levels[1..]| && levels[1..][k] == r.value && p(r.value)
                   && forall i :: 0 <= i < k ==> !p(levels[1..][i]);
          assert levels[k + 1] == r.value;
        }
      }
      r
  }

  predicate InReview(level: ClientReviewLevel)
  {
    level.status == IN_REVIEW
  }

  /** The levels in review, in order: the `filter` of `getInReviewLevel`. */
  function InReviewLevels(levels: seq<ClientReviewLevel>): (r: seq<ClientReviewLevel>)
    ensures forall l :: l in r <==> l in levels && InReview(l)
  {
    if levels == [] then []
    else (if InReview(levels[0]) then [levels[0]] else []) + InReviewLevels(levels[1..])
  }

  /** `getInReviewLevel`: the head of the levels in review, or undefined. */
  function GetInReviewLevel(levels: seq<ClientReviewLevel>): Option<ClientReviewLevel>
  {
    var inReview := InReviewLevels(levels);
    if inReview == [] then None else Some(inReview[0])
  }

  /**
   * Taking the head of the filtered levels finds the first level in review: the result
   * is that of `find`, so it is undefined exactly when no level is in review and every
   * level before the one found is in another state.
   */
  lemma {:induction false} InReviewLevelIsFirst(levels: seq<ClientReviewLevel>)
    ensures GetInReviewLevel(levels) == FindLevel(levels, InReview)
  {
    if levels != [] && !InReview(levels[0]) {
      InReviewLevelIsFirst(levels[1..]);
    }
  }

  /** `getReviewLevelByNumber`: the first level with the given number, found by `find`. */
  function GetReviewLevelByNumber(levels: seq<ClientReviewLevel>, levelNumber: int): (r: Option<ClientReviewLevel>)
    ensures r.None? <==> forall i :: 0 <= i < |levels| ==> levels[i].levelNumber != levelNumber
    ensures r.Some? ==>
              exists k :: 0 <= k < |levels| && levels[k] == r.value && r.value.levelNumber == levelNumber
                          && forall i :: 0 <= i < k ==> levels[i].levelNumber != levelNumber
  {
    FindLevel(levels, (level: ClientReviewLevel) => level.levelNumber == levelNumber)
  }
}
