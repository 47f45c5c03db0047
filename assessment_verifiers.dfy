/**
 * The verifiers panel of a multi-level assessment: one group per review level, ordered
 * by level number, each carrying the level's people, state and completion.
 *
 * The ordinal rendering of a level number ("1st", "2nd", ...) comes from a shared helper
 * outside this model and is a parameter here.
 */
module AssessmentVerifiers {
  import opened Wrappers
  import opened VerificationFlow

  /** The data of one verifiers group. */
  datatype VerifiersGroupData = VerifiersGroupData(
    levelNumber: int,
    people: seq<Person>,
    verifiedBy: Option<int>,
    completedAt: Option<string>,
    groupTitle: string,
    reviewState: string)

  predicate SortedByLevel(levels: seq<ClientReviewLevel>)
  {
    forall i, j :: 0 <= i < j < |levels| ==> levels[i].levelNumber <= levels[j].levelNumber
  }

  /** Insert a level after every level whose number is not greater than its own. */
  function InsertByLevel(sorted: seq<ClientReviewLevel>, x: ClientReviewLevel): (r: seq<ClientReviewLevel>)
    ensures |r| == |sorted| + 1
    ensures multiset(r) == multiset(sorted) + multiset{x}
    ensures r[0] == x || (sorted != [] && r[0] == sorted[0])
  {
    if sorted == [] then [x]
    else if x.levelNumber < sorted[0].levelNumber then [x] + sorted
    else
      assert sorted == [sorted[0]] + sorted[1..];
      [sorted[0]] + InsertByLevel(sorted[1..], x)
  }

  /** A level whose number is below every number of a sorted list can head it. */
  lemma SortedCons(head: ClientReviewLevel, rest: seq<ClientReviewLevel>)
    requires SortedByLevel(rest)
    requires rest != [] ==> head.levelNumber <= rest[0].levelNumber
    ensures SortedByLevel([head] + rest)
  {
    var s := [head] + rest;
    forall i, j | 0 <= i < j < |s|
      ensures s[i].levelNumber <= s[j].levelNumber
    {
      if i == 0 {
        assert rest[0].levelNumber <= rest[j - 1].levelNumber || j == 1;
      }
    }
  }

  /** Insertion keeps a list sorted. */
  lemma {:induction false} InsertKeepsSorted(sorted: seq<ClientReviewLevel>, x: ClientReviewLevel)
    requires SortedByLevel(sorted)
    ensures SortedByLevel(InsertByLevel(sorted, x))
  {
    if sorted == [] {
    } else if x.levelNumber < sorted[0].levelNumber {
      SortedCons(x, sorted);
    } else {
      var tail := sorted[1..];
      assert SortedByLevel(tail);
      InsertKeepsSorted(tail, x);
      var rest := InsertByLevel(tail, x);
      assert rest[0] == x || rest[0] == tail[0];
      SortedCons(sorted[0], rest);
    }
  }

  /** lodash `sortBy(levels, 'level_number')`, as an insertion of each level in turn. */
  function SortByLevel(levels: seq<ClientReviewLevel>): (r: seq<ClientReviewLevel>)
    ensures SortedByLevel(r)
    ensures multiset(r) == multiset(levels)
    ensures |r| == |levels|
  {
    if levels == [] then []
    else
      var n := |levels| - 1;
      assert levels == levels[..n] + [levels[n]];
      InsertKeepsSorted(SortByLevel(levels[..n]), levels[n]);
      InsertByLevel(SortByLevel(levels[..n]), levels[n])
  }

  /** The group shown for one level, titled "Verifiers <ordinal> level". */
  function GroupOf(level: ClientReviewLevel, ordinal: int -> string): (g: VerifiersGroupData)
    ensures g.levelNumber == level.levelNumber && g.people == level.users && g.reviewState == level.status
    ensures g.verifiedBy == level.verifiedBy && g.completedAt == level.completedAt
    ensures g.groupTitle == "Verifiers " + ordinal(level.levelNumber) + " level"
  {
    VerifiersGroupData(level.levelNumber, level.users, level.verifiedBy, level.completedAt,
                       "Verifiers " + ordinal(level.levelNumber) + " level", level.status)
  }

  /** The group of each level, in the order given. */
  function GroupsOf(levels: seq<ClientReviewLevel>, ordinal: int -> string): (r: seq<VerifiersGroupData>)
    ensures |r| == |levels|
    ensures forall i :: 0 <= i < |r| ==> r[i] == GroupOf(levels[i], ordinal)
  {
    seq(|levels|, i requires 0 <= i < |levels| => GroupOf(levels[i], ordinal))
  }

  /**
   * `buildVerifiersGroups`: the groups of the sorted levels, as many as levels and in
   * ascending level order.
   */
  function BuildVerifiersGroups(levels: seq<ClientReviewLevel>, ordinal: int -> string): (r: seq<VerifiersGroupData>)
    ensures |r| == |levels|
    ensures forall i :: 0 <= i < |r| ==> r[i] == GroupOf(SortByLevel(levels)[i], ordinal)
    ensures forall i, j :: 0 <= i < j < |r| ==> r[i].levelNumber <= r[j].levelNumber
  {
    GroupsOf(SortByLevel(levels), ordinal)
  }

  /** Every level has its group among the groups shown. */
  lemma GroupsCoverLevels(levels: seq<ClientReviewLevel>, ordinal: int -> string)
    ensures var r := BuildVerifiersGroups(levels, ordinal);
            forall k :: 0 <= k < |levels| ==> exists i :: 0 <= i < |r| && r[i] == GroupOf(levels[k], ordinal)
  {
    var r := BuildVerifiersGroups(levels, ordinal);
    var sorted := SortByLevel(levels);
    forall k | 0 <= k < |levels|
      ensures exists i :: 0 <= i < |r| && r[i] == GroupOf(levels[k], ordinal)
    {
      assert levels[k] in multiset(levels);
      assert levels[k] in sorted;
      var i :| 0 <= i < |sorted| && sorted[i] == levels[k];
      assert r[i] == GroupOf(levels[k], ordinal);
    }
  }

  /** The panel's view model: the groups it shows. */
  class AssessmentVerifiersViewModel {
    var instanceLevels: seq<ClientReviewLevel>
    var verifiersGroups: seq<VerifiersGroupData>

    constructor (instanceLevels: seq<ClientReviewLevel>)
      ensures this.instanceLevels == instanceLevels && verifiersGroups == []
    {
      this.instanceLevels := instanceLevels;
      verifiersGroups := [];
    }

    /**
     * The `buildVerifiersGroups` event, run when the panel is inserted and whenever its
     * assessment changes or is updated: the groups shown become those of its levels.
     */
    method BuildVerifiersGroupsEvent(ordinal: int -> string)
      modifies this
      ensures verifiersGroups == BuildVerifiersGroups(instanceLevels, ordinal)
      ensures instanceLevels == old(instanceLevels)
    {
      var groups := BuildVerifiersGroups(instanceLevels, ordinal);
      verifiersGroups := groups;
    }
  }
}
