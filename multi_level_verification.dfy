/**
 * The multi-level verification mixin of the client's assessment model: the columns it
 * adds to the tree view (one verifiers column and one state column per possible level)
 * and the clean-up of cached review levels after the verifiers change.
 */
module MultiLevelVerification {
  import opened Wrappers
  import opened Strings
  import opened VerificationFlow

  const MAX_LEVELS_COUNT := 10

  /** A static tree-view column. */
  datatype StaticField = StaticField(
    attrTitle: string,
    attrName: string,
    attrDataLevel: int,
    attrType: string,
    attrDataType: string,
    disableSorting: bool)

  const VERIFIERS_TITLE := "Verifiers level "
  const VERIFIERS_NAME := "verifiers_level_"
  const REVIEW_TITLE := "Review level "
  const REVIEW_NAME := "review_level_"

  /**
   * `getVerifiersStaticFields`: one unsortable people column per level 1..10, titled
   * "Verifiers level <n>" and named "verifiers_level_<n>".
   */
  function GetVerifiersStaticFields(): (r: seq<StaticField>)
    ensures |r| == MAX_LEVELS_COUNT
    ensures forall i :: 0 <= i < |r| ==>
              r[i].attrDataLevel == i + 1
              && r[i].attrTitle == VERIFIERS_TITLE + NatToString(i + 1)
              && r[i].attrName == VERIFIERS_NAME + NatToString(i + 1)
              && r[i].attrType == "multiVerificationFlow" && r[i].attrDataType == "Person" && r[i].disableSorting
  {
    seq(MAX_LEVELS_COUNT, (i: int) =>
      var index := if i < 0 then 1 else i + 1;
      StaticField(VERIFIERS_TITLE + NatToString(index), VERIFIERS_NAME + NatToString(index), index,
                  "multiVerificationFlow", "Person", true))
  }

  /**
   * `getReviewLevelsStaticFields`: one unsortable text column per level 1..10, titled
   * "Review level <n> state" and named "review_level_<n>".
   */
  function GetReviewLevelsStaticFields(): (r: seq<StaticField>)
    ensures |r| == MAX_LEVELS_COUNT
    ensures forall i :: 0 <= i < |r| ==>
              r[i].attrDataLevel == i + 1
              && r[i].attrTitle == REVIEW_TITLE + NatToString(i + 1) + " state"
              && r[i].attrName == REVIEW_NAME + NatToString(i + 1)
              && r[i].attrType == "multiVerificationFlow" && r[i].attrDataType == "String" && r[i].disableSorting
  {
    seq(MAX_LEVELS_COUNT, (i: int) =>
      var index := if i < 0 then 1 else i + 1;
      StaticField(REVIEW_TITLE + NatToString(index) + " state", REVIEW_NAME + NatToString(index), index,
                  "multiVerificationFlow", "String", true))
  }

  /** Two names with the same prefix and different level numbers differ. */
  lemma NumberedNamesDiffer(prefix: string, a: nat, b: nat)
    requires a != b
    ensures prefix + NatToString(a) != prefix + NatToString(b)
  {
    if prefix + NatToString(a) == prefix + NatToString(b) {
      assert (prefix + NatToString(a))[|prefix|..] == NatToString(a);
      assert (prefix + NatToString(b))[|prefix|..] == NatToString(b);
      NatToStringInjective(a, b);
    }
  }

  /**
   * Every column the mixin adds has its own name: no two levels share a column name,
   * and no verifiers column is named like a state column.
   */
  lemma StaticFieldNamesDistinct()
    ensures var v, s := GetVerifiersStaticFields(), GetReviewLevelsStaticFields();
            (forall i, j :: 0 <= i < j < |v| ==> v[i].attrName != v[j].attrName)
            && (forall i, j :: 0 <= i < j < |s| ==> s[i].attrName != s[j].attrName)
            && (forall i, j :: 0 <= i < |v| && 0 <= j < |s| ==> v[i].attrName != s[j].attrName)
  {
    var v, s := GetVerifiersStaticFields(), GetReviewLevelsStaticFields();
    forall i, j | 0 <= i < j < |v|
      ensures v[i].attrName != v[j].attrName
    {
      NumberedNamesDiffer(VERIFIERS_NAME, i + 1, j + 1);
    }
    forall i, j | 0 <= i < j < |s|
      ensures s[i].attrName != s[j].attrName
    {
      NumberedNamesDiffer(REVIEW_NAME, i + 1, j + 1);
    }
    forall i, j | 0 <= i < |v| && 0 <= j < |s|
      ensures v[i].attrName != s[j].attrName
    {
      assert v[i].attrName[0] == 'v' && s[j].attrName[0] == 'r';
    }
  }

  // ---------------------------------------------------------------------------
  // cleanUpVerifiers

  /** A client-side assessment as the model cache holds it. */
  class ClientAssessment {
    var id: int
    var verificationWorkflow: string
    var reviewLevels: seq<ClientReviewLevel>

    constructor (id: int, verificationWorkflow: string, reviewLevels: seq<ClientReviewLevel>)
      ensures this.id == id && this.verificationWorkflow == verificationWorkflow && this.reviewLevels == reviewLevels
    {
      this.id := id;
      this.verificationWorkflow := verificationWorkflow;
      this.reviewLevels := reviewLevels;
    }

    /**
     * `cleanUpVerifiers`, run on the response to a verifiers update. Outside the MLV flow
     * the response passes through and nothing changes. Without a response (or without a
     * model class, `hasModelClass`) this assessment's levels are emptied and nothing is
     * returned. Otherwise the response passes through, and when it names an object
     * (`objectFromResource`) that the model cache (`cache`) holds, that cached object's
     * levels are emptied.
     */
    method CleanUpVerifiers<R>(resource: Option<R>, hasModelClass: bool, objectFromResource: R -> Option<int>,
                               cache: map<int, ClientAssessment>)
      returns (r: Option<R>)
      modifies this, cache.Values
      ensures !IsMultiLevelFlow(old(verificationWorkflow)) ==>
                r == resource && unchanged(this) && forall id :: id in cache ==> unchanged(cache[id])
      ensures IsMultiLevelFlow(old(verificationWorkflow)) && (resource.None? || !hasModelClass) ==>
                r.None? && reviewLevels == [] && id == old(id) && verificationWorkflow == old(verificationWorkflow)
                && forall id :: id in cache && cache[id] != this ==> unchanged(cache[id])
      ensures IsMultiLevelFlow(old(verificationWorkflow)) && resource.Some? && hasModelClass ==>
                r == resource
                && var target := objectFromResource(resource.value);
                   (forall id :: id in cache && cache[id] != this
                                 && (target.None? || target.value !in cache || cache[id] != cache[target.value])
                                 ==> unchanged(cache[id]))
                   && (target.Some? && target.value in cache ==>
                         cache[target.value].reviewLevels == []
                         && cache[target.value].id == old(cache[target.value].id)
                         && cache[target.value].verificationWorkflow == old(cache[target.value].verificationWorkflow))
                   && ((target.None? || target.value !in cache || cache[target.value] != this) ==> unchanged(this))
    {
      if !IsMultiLevelFlow(verificationWorkflow) {
        return resource;
      }
      if resource.None? || !hasModelClass {
        reviewLevels := [];
        return None;
      }
      var modelParams := objectFromResource(resource.value);
      if modelParams.None? {
        return resource;
      }
      if modelParams.value in cache {
        var model := cache[modelParams.value];
        model.reviewLevels := [];
      }
      return resource;
    }
  }
}
