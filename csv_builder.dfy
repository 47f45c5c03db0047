/**
 * The write path of the bulk assessment update: the request is turned into one
 * `AssessmentStub` per `attributes` entry, and the stubs into the row-oriented
 * blocks the import engine consumes (attribute update, LCA comments, completion
 * and verification).
 *
 * The store is an input: `stored` is the result of the assessment query in the
 * store's order, `people` the person table (id to email).
 */
module CsvBuilder {
  import opened Wrappers
  import opened Strings

  type Row = seq<string>
  type Csv = seq<Row>

  /** A JSON value of a custom attribute: `null`, a string or a number. */
  datatype RawValue = Null | Str(s: string) | Int(i: int)

  /** Python truthiness of a value. */
  predicate Truthy(v: RawValue)
  {
    match v
    case Null => false
    case Str(s) => s != ""
    case Int(i) => i != 0
  }

  /** `unicode(v)`. */
  function Render(v: RawValue): string
  {
    match v
    case Null => "None"
    case Str(s) => s
    case Int(i) => IntToString(i)
  }

  datatype FileRef = FileRef(sourceGdriveId: string)

  /**
   * The `extra` object of one value (`comment` is the comment object's keys). A
   * key missing from `extra` is its empty value here, and so is a `null` comment,
   * which the source skips like an empty one.
   */
  datatype Extra = Extra(comment: map<string, string>, urls: seq<string>, files: seq<FileRef>)

  datatype CavInput = CavInput(
    value: RawValue,
    title: string,
    cavType: string,
    definitionId: int,
    id: int,
    extra: Option<Extra>)

  datatype AssessmentRef = AssessmentRef(id: int, slug: string)

  datatype AttributesEntry = AttributesEntry(assessment: AssessmentRef, values: seq<CavInput>)

  datatype Request = Request(assessmentsIds: seq<int>, attributes: seq<AttributesEntry>)

  /** An assessment as the store returns it, with whether any Verifier is assigned. */
  datatype StoredAssessment = StoredAssessment(id: int, slug: string, hasVerifiers: bool)

  /** A copy of `extra.comment` with `cad_id` added. */
  datatype StubComment = StubComment(fields: map<string, string>, cadId: int)

  datatype AssessmentStub = AssessmentStub(
    id: int,
    slug: string,
    needsVerification: bool,
    cavs: map<string, RawValue>,
    urls: seq<string>,
    files: seq<string>,
    comments: seq<StubComment>)

  const CHECKBOX := "Checkbox"
  const MAP_PERSON := "Map:Person"
  const OBJECT_TYPE_ROW: Row := ["Object type"]
  const LCA_HEADER: Row := ["LCA Comment", "description", "custom_attribute_definition"]
  const COMPLETE_HEADER: Row := ["Assessment", "Code", "State"]
  const VERIFY_HEADER: Row := ["Assessment", "Code", "State", "Verified Date"]

  /** What `_build_lca_block` raises on a comment without a `description`. */
  const DESCRIPTION_KEY_ERROR := "KeyError: 'description'"

  function AttributesHeader(keys: seq<string>): Row
  {
    ["Assessment", "Code", "Evidence URL", "Evidence File"] + keys
  }

  // ---------------------------------------------------------------------------
  // Value normalisation and the person cache

  /** `_populate_value`: the textual form the import expects for one value. */
  function PopulateValue(raw: RawValue, cavType: string, cache: map<int, string>): (r: RawValue)
    ensures r != Null
    ensures cavType == CHECKBOX ==> (r == Str("yes") || r == Str("no")) && (r == Str("yes") <==> raw == Str("1"))
    ensures cavType == MAP_PERSON && raw.Int? && raw.i in cache ==> r == Str(cache[raw.i])
    ensures cavType == MAP_PERSON && !(raw.Int? && raw.i in cache) ==> r == Str("")
    ensures cavType != CHECKBOX && cavType != MAP_PERSON && Truthy(raw) ==> r == raw
    ensures cavType != CHECKBOX && cavType != MAP_PERSON && !Truthy(raw) ==> r == Str("")
  {
    if cavType == CHECKBOX then
      (if raw == Str("1") then Str("yes") else Str("no"))
    else if cavType == MAP_PERSON then
      (if raw.Int? && raw.i in cache then Str(cache[raw.i]) else Str(""))
    else if Truthy(raw) then raw
    else Str("")
  }

  /** Every `Map:Person` value of the request, in request order. */
  function PersonValues(attrs: seq<AttributesEntry>): seq<RawValue>
  {
    if attrs == [] then []
    else PersonValues(attrs[..|attrs| - 1]) + PersonValuesOf(attrs[|attrs| - 1].values)
  }

  function PersonValuesOf(values: seq<CavInput>): seq<RawValue>
  {
    if values == [] then []
    else
      var last := values[|values| - 1];
      PersonValuesOf(values[..|values| - 1]) + (if last.cavType == MAP_PERSON then [last.value] else [])
  }

  /** The person query of `_calculate_people_cache`: the people whose id is among the values. */
  function PeopleCache(attrs: seq<AttributesEntry>, people: map<int, string>): map<int, string>
  {
    var values := PersonValues(attrs);
    map id | id in people && Int(id) in values :: people[id]
  }

  // ---------------------------------------------------------------------------
  // Stub collection

  function ExtraOf(c: CavInput): Extra
  {
    if c.extra.Some? then c.extra.value else Extra(map[], [], [])
  }

  /** The `source_gdrive_id` of each file, in order. */
  function FileIds(files: seq<FileRef>): seq<string>
  {
    if files == [] then [] else [files[0].sourceGdriveId] + FileIds(files[1..])
  }

  lemma {:induction false} FileIdsSpec(files: seq<FileRef>)
    ensures |FileIds(files)| == |files|
    ensures forall i :: 0 <= i < |files| ==> FileIds(files)[i] == files[i].sourceGdriveId
  {
    if files != [] {
      FileIdsSpec(files[1..]);
    }
  }

  /** What one value entry adds to its stub (one pass of the inner loop of `_collect_attributes`). */
  function AddValue(stub: AssessmentStub, c: CavInput, cache: map<int, string>): AssessmentStub
  {
    var e := ExtraOf(c);
    stub.(cavs := stub.cavs[c.title := PopulateValue(c.value, c.cavType, cache)],
          urls := stub.urls + e.urls,
          files := stub.files + FileIds(e.files),
          comments := if e.comment != map[] then stub.comments + [StubComment(e.comment, c.id)] else stub.comments)
  }

  function AddValues(stub: AssessmentStub, values: seq<CavInput>, cache: map<int, string>): AssessmentStub
  {
    if values == [] then stub
    else AddValue(AddValues(stub, values[..|values| - 1], cache), values[|values| - 1], cache)
  }

  lemma AddValuesSnoc(stub: AssessmentStub, values: seq<CavInput>, j: int, cache: map<int, string>)
    requires 0 <= j < |values|
    ensures AddValues(stub, values[..j + 1], cache) == AddValue(AddValues(stub, values[..j], cache), values[j], cache)
  {
    assert values[..j + 1][..j] == values[..j];
  }

  /** Ids among `assessments_ids` whose stored assessment has Verifiers, in store order. */
  function NeedsVerifications(ids: seq<int>, stored: seq<StoredAssessment>): seq<int>
  {
    if ids == [] then [] else VerifiedAmong(ids, stored)
  }

  function VerifiedAmong(ids: seq<int>, stored: seq<StoredAssessment>): seq<int>
  {
    if stored == [] then []
    else
      var last := stored[|stored| - 1];
      VerifiedAmong(ids, stored[..|stored| - 1]) + (if last.id in ids && last.hasVerifiers then [last.id] else [])
  }

  function NewStub(entry: AttributesEntry, needs: seq<int>): AssessmentStub
  {
    AssessmentStub(entry.assessment.id, entry.assessment.slug, entry.assessment.id in needs, map[], [], [], [])
  }

  function BuildStub(entry: AttributesEntry, needs: seq<int>, cache: map<int, string>): AssessmentStub
  {
    AddValues(NewStub(entry, needs), entry.values, cache)
  }

  function CollectStubs(attrs: seq<AttributesEntry>, needs: seq<int>, cache: map<int, string>): seq<AssessmentStub>
  {
    if attrs == [] then []
    else CollectStubs(attrs[..|attrs| - 1], needs, cache) + [BuildStub(attrs[|attrs| - 1], needs, cache)]
  }

  // ---------------------------------------------------------------------------
  // Independent reference definitions used to state what collection computes

  function Concat(parts: seq<seq<string>>): seq<string>
  {
    if parts == [] then [] else parts[0] + Concat(parts[1..])
  }

  function UrlParts(values: seq<CavInput>): seq<seq<string>>
  {
    seq(|values|, i requires 0 <= i < |values| => ExtraOf(values[i]).urls)
  }

  function FileParts(values: seq<CavInput>): seq<seq<string>>
  {
    seq(|values|, i requires 0 <= i < |values| => FileIds(ExtraOf(values[i]).files))
  }

  /** The comments of the value entries whose `extra.comment` is non-empty, in order. */
  function CommentsOf(values: seq<CavInput>): seq<StubComment>
  {
    if values == [] then [] else CommentOf(values[0]) + CommentsOf(values[1..])
  }

  function CommentOf(c: CavInput): seq<StubComment>
  {
    if ExtraOf(c).comment != map[] then [StubComment(ExtraOf(c).comment, c.id)] else []
  }

  function TitlesOf(values: seq<CavInput>): set<string>
  {
    set i | 0 <= i < |values| :: values[i].title
  }

  /** Index of the last value entry with title `t`. */
  function LastWithTitle(values: seq<CavInput>, t: string): (k: nat)
    requires t in TitlesOf(values)
    ensures k < |values| && values[k].title == t
    ensures forall j :: k < j < |values| ==> values[j].title != t
  {
    var last := |values| - 1;
    if values[last].title == t then last
    else
      assert forall i :: 0 <= i < |values| && values[i].title == t ==> i < last;
      assert t in TitlesOf(values[..last]) by {
        var i :| 0 <= i < |values| && values[i].title == t;
        assert values[..last][i] == values[i];
      }
      LastWithTitle(values[..last], t)
  }

  // ---------------------------------------------------------------------------
  // The CSV blocks

  /** Every title used by any stub. */
  function AllTitles(stubs: seq<AssessmentStub>): set<string>
  {
    if stubs == [] then {} else AllTitles(stubs[..|stubs| - 1]) + stubs[|stubs| - 1].cavs.Keys
  }

  predicate Distinct(keys: seq<string>)
  {
    forall i, j :: 0 <= i < j < |keys| ==> keys[i] != keys[j]
  }

  /** `cav_keys`: every title of every stub exactly once, in an unspecified order. */
  predicate IsKeyOrder(keys: seq<string>, stubs: seq<AssessmentStub>)
  {
    Distinct(keys)
    && (forall k :: k in keys ==> k in AllTitles(stubs))
    && (forall k :: k in AllTitles(stubs) ==> k in keys)
  }

  function CavCells(cavs: map<string, RawValue>, keys: seq<string>): seq<string>
  {
    seq(|keys|, j requires 0 <= j < |keys| => if keys[j] in cavs then Render(cavs[keys[j]]) else "")
  }

  /** `_prepare_attributes_row`. */
  function AttributesRow(stub: AssessmentStub, keys: seq<string>): Row
  {
    ["", stub.slug, Join("\n", stub.urls), Join("\n", stub.files)] + CavCells(stub.cavs, keys)
  }

  function AttributesRows(stubs: seq<AssessmentStub>, keys: seq<string>): Csv
  {
    if stubs == [] then []
    else
      var last := stubs[|stubs| - 1];
      AttributesRows(stubs[..|stubs| - 1], keys) + (if last.cavs != map[] then [AttributesRow(last, keys)] else [])
  }

  /** The block `_build_assessment_block` appends. */
  function AssessmentBlock(stubs: seq<AssessmentStub>, keys: seq<string>): Csv
  {
    var rows := AttributesRows(stubs, keys);
    if rows == [] then [] else [OBJECT_TYPE_ROW, AttributesHeader(keys)] + rows
  }

  predicate Described(comments: seq<StubComment>)
  {
    forall c :: c in comments ==> "description" in c.fields
  }

  /** Every collected comment has the `description` the LCA block reads. */
  predicate CommentsDescribed(stubs: seq<AssessmentStub>)
  {
    forall i :: 0 <= i < |stubs| ==> Described(stubs[i].comments)
  }

  function CommentRows(comments: seq<StubComment>): Csv
    requires Described(comments)
  {
    if comments == [] then []
    else
      var last := comments[|comments| - 1];
      CommentRows(comments[..|comments| - 1]) + [["", last.fields["description"], IntToString(last.cadId)]]
  }

  function LcaRows(stubs: seq<AssessmentStub>): Csv
    requires CommentsDescribed(stubs)
  {
    if stubs == [] then []
    else LcaRows(stubs[..|stubs| - 1]) + CommentRows(stubs[|stubs| - 1].comments)
  }

  predicate HasComments(stubs: seq<AssessmentStub>)
  {
    exists i :: 0 <= i < |stubs| && stubs[i].comments != []
  }

  /** The block `_build_lca_block` appends. */
  function LcaBlock(stubs: seq<AssessmentStub>): Csv
    requires CommentsDescribed(stubs)
  {
    if !HasComments(stubs) then [] else [OBJECT_TYPE_ROW, LCA_HEADER] + LcaRows(stubs)
  }

  /**
   * `attributes_update_to_csv` for a given `cav_keys`: the attribute block, then
   * the LCA block, whose loop raises on the first comment without a `description`.
   */
  function AttributesUpdateCsv(stubs: seq<AssessmentStub>, keys: seq<string>): Result<Csv>
  {
    if CommentsDescribed(stubs) then Success(AssessmentBlock(stubs, keys) + LcaBlock(stubs))
    else Failure(DESCRIPTION_KEY_ERROR)
  }

  function CompleteState(stub: AssessmentStub): string
  {
    if stub.needsVerification then "In Review" else "Completed"
  }

  function CompleteRows(stubs: seq<AssessmentStub>, errors: set<string>): Csv
  {
    if stubs == [] then []
    else
      var last := stubs[|stubs| - 1];
      CompleteRows(stubs[..|stubs| - 1], errors)
      + (if last.slug !in errors then [["", last.slug, CompleteState(last)]] else [])
  }

  /** `assessments_complete_to_csv(errors)`. */
  function CompleteCsv(stubs: seq<AssessmentStub>, errors: set<string>): Csv
  {
    var rows := CompleteRows(stubs, errors);
    if rows == [] then [] else [OBJECT_TYPE_ROW, COMPLETE_HEADER] + rows
  }

  /** The stubs of `VerifyCsvBuilder._convert_data`: stored assessments among the ids, in store order. */
  function VerifyStubs(ids: seq<int>, stored: seq<StoredAssessment>): seq<AssessmentStub>
  {
    if ids == [] then [] else StoredStubs(ids, stored)
  }

  function StoredStubs(ids: seq<int>, stored: seq<StoredAssessment>): seq<AssessmentStub>
  {
    if stored == [] then []
    else
      var last := stored[|stored| - 1];
      StoredStubs(ids, stored[..|stored| - 1])
      + (if last.id in ids then [AssessmentStub(last.id, last.slug, last.hasVerifiers, map[], [], [], [])] else [])
  }

  function VerifyRows(stubs: seq<AssessmentStub>, verifyDate: string): Csv
  {
    if stubs == [] then []
    else VerifyRows(stubs[..|stubs| - 1], verifyDate) + [["", stubs[|stubs| - 1].slug, "Completed", verifyDate]]
  }

  /** `assessments_verify_to_csv`, with the date already formatted as month/day/year. */
  function VerifyCsv(stubs: seq<AssessmentStub>, verifyDate: string): Csv
  {
    var rows := VerifyRows(stubs, verifyDate);
    if rows == [] then [] else [OBJECT_TYPE_ROW, VERIFY_HEADER] + rows
  }

  // ---------------------------------------------------------------------------
  // The builders

  /** `MatrixCsvBuilder`: the fields are filled by the constructor's collection passes. */
  class MatrixCsvBuilder {
    var assessments: seq<AssessmentStub>
    var assessmentIds: seq<int>
    var attrData: seq<AttributesEntry>
    var peopleCache: map<int, string>
    var cavKeys: seq<string>

    constructor (data: Request, stored: seq<StoredAssessment>, people: map<int, string>)
      ensures assessmentIds == data.assessmentsIds && attrData == data.attributes
      ensures peopleCache == PeopleCache(data.attributes, people)
      ensures assessments == CollectStubs(data.attributes, NeedsVerifications(data.assessmentsIds, stored), peopleCache)
      ensures IsKeyOrder(cavKeys, assessments)
    {
      assessments := [];
      assessmentIds := data.assessmentsIds;
      attrData := data.attributes;
      peopleCache := map[];
      cavKeys := [];
      new;
      CalculatePeopleCache(people);
      CollectAttributes(stored);
      CollectRequiredData();
    }

    /** `_calculate_people_cache`. */
    method CalculatePeopleCache(people: map<int, string>)
      modifies this`peopleCache
      ensures peopleCache == PeopleCache(attrData, people)
    {
      var peopleIds: seq<RawValue> := [];
      var i := 0;
      while i < |attrData|
        invariant 0 <= i <= |attrData|
        invariant peopleIds == PersonValues(attrData[..i])
      {
        var values := attrData[i].values;
        var j := 0;
        while j < |values|
          invariant 0 <= j <= |values|
          invariant peopleIds == PersonValues(attrData[..i]) + PersonValuesOf(values[..j])
        {
          if values[j].cavType == MAP_PERSON {
            peopleIds := peopleIds + [values[j].value];
          }
          assert values[..j + 1][..j] == values[..j];
          j := j + 1;
        }
        assert values[..j] == values;
        assert attrData[..i + 1][..i] == attrData[..i];
        i := i + 1;
      }
      assert attrData[..i] == attrData;
      peopleCache := map id | id in people && Int(id) in peopleIds :: people[id];
    }

    /** The assessment query of `_collect_attributes`: ids among `assessments_ids` that have Verifiers. */
    method NeedsVerificationIds(stored: seq<StoredAssessment>) returns (needs: seq<int>)
      ensures needs == NeedsVerifications(assessmentIds, stored)
    {
      needs := [];
      if assessmentIds == [] {
        return;
      }
      var k := 0;
      while k < |stored|
        invariant 0 <= k <= |stored|
        invariant needs == VerifiedAmong(assessmentIds, stored[..k])
      {
        if stored[k].id in assessmentIds && stored[k].hasVerifiers {
          needs := needs + [stored[k].id];
        }
        assert stored[..k + 1][..k] == stored[..k];
        k := k + 1;
      }
      assert stored[..k] == stored;
    }

    /** `_collect_attributes`: one stub per `attributes` entry, in input order. */
    method CollectAttributes(stored: seq<StoredAssessment>)
      modifies this`assessments
      ensures assessments == old(assessments)
                             + CollectStubs(attrData, NeedsVerifications(assessmentIds, stored), peopleCache)
    {
      var needs := NeedsVerificationIds(stored);
      var data, cache := attrData, peopleCache;

      var i := 0;
      while i < |data|
        invariant 0 <= i <= |data|
        invariant assessments == old(assessments) + CollectStubs(data[..i], needs, cache)
      {
        var stub := CollectValues(data[i], needs);
        assessments := assessments + [stub];
        assert data[..i + 1][..i] == data[..i];
        assert CollectStubs(data[..i + 1], needs, cache) == CollectStubs(data[..i], needs, cache) + [stub];
        assert assessments == old(assessments) + (CollectStubs(data[..i], needs, cache) + [stub]);
        i := i + 1;
      }
      assert data[..i] == data;
    }

    /** The inner loop of `_collect_attributes`: the stub of one `attributes` entry. */
    method CollectValues(entry: AttributesEntry, needs: seq<int>) returns (stub: AssessmentStub)
      ensures stub == BuildStub(entry, needs, peopleCache)
    {
      stub := NewStub(entry, needs);
      var values, cache := entry.values, peopleCache;
      var j := 0;
      while j < |values|
        invariant 0 <= j <= |values|
        invariant stub == AddValues(NewStub(entry, needs), values[..j], cache)
      {
        var cav := values[j];
        ghost var before := stub;
        var cavValue := PopulateValue(cav.value, cav.cavType, cache);
        var extraData := ExtraOf(cav);
        stub := stub.(cavs := stub.cavs[cav.title := cavValue]);
        stub := stub.(urls := stub.urls + extraData.urls);
        stub := stub.(files := stub.files + FileIds(extraData.files));
        if extraData.comment != map[] {
          stub := stub.(comments := stub.comments + [StubComment(extraData.comment, cav.id)]);
        }
        assert stub == AddValue(before, cav, cache);
        AddValuesSnoc(NewStub(entry, needs), values, j, cache);
        j := j + 1;
      }
      assert values[..j] == values;
    }

    /** `_collect_required_data`: the set of titles, listed in set-iteration order. */
    method CollectRequiredData()
      modifies this`cavKeys
      ensures IsKeyOrder(cavKeys, assessments)
    {
      var keySet: set<string> := {};
      var i := 0;
      while i < |assessments|
        invariant 0 <= i <= |assessments|
        invariant keySet == AllTitles(assessments[..i])
      {
        keySet := keySet + assessments[i].cavs.Keys;
        assert assessments[..i + 1][..i] == assessments[..i];
        i := i + 1;
      }
      assert assessments[..i] == assessments;
      var keys: seq<string> := [];
      var rest := keySet;
      while rest != {}
        invariant rest <= keySet
        invariant Distinct(keys)
        invariant forall k :: k in keys <==> k in keySet && k !in rest
        decreases |rest|
      {
        var k :| k in rest;
        keys := keys + [k];
        rest := rest - {k};
      }
      cavKeys := keys;
    }

    /** `attributes_update_to_csv`. */
    method AttributesUpdateToCsv() returns (r: Result<Csv>)
      ensures r == AttributesUpdateCsv(assessments, cavKeys)
    {
      var csv := [];
      csv := BuildAssessmentBlock(csv);
      assert csv == AssessmentBlock(assessments, cavKeys);
      r := BuildLcaBlock(csv);
    }

    /** `_build_assessment_block`, appending to the list it is given. */
    method BuildAssessmentBlock(prepared: Csv) returns (result: Csv)
      ensures result == prepared + AssessmentBlock(assessments, cavKeys)
    {
      var rows: Csv := [];
      var i := 0;
      while i < |assessments|
        invariant 0 <= i <= |assessments|
        invariant rows == AttributesRows(assessments[..i], cavKeys)
      {
        if assessments[i].cavs != map[] {
          rows := rows + [AttributesRow(assessments[i], cavKeys)];
        }
        assert assessments[..i + 1][..i] == assessments[..i];
        i := i + 1;
      }
      assert assessments[..i] == assessments;
      result := prepared;
      if rows != [] {
        result := result + [OBJECT_TYPE_ROW, AttributesHeader(cavKeys)] + rows;
      }
    }

    /** `_build_lca_block`, appending to the list it is given; it raises on a comment without `description`. */
    method BuildLcaBlock(prepared: Csv) returns (r: Result<Csv>)
      ensures CommentsDescribed(assessments) ==> r == Success(prepared + LcaBlock(assessments))
      ensures !CommentsDescribed(assessments) ==> r == Failure(DESCRIPTION_KEY_ERROR)
    {
      if !HasComments(assessments) {
        assert CommentsDescribed(assessments);
        assert prepared + LcaBlock(assessments) == prepared;
        return Success(prepared);
      }
      r := AppendLcaRows(prepared + [OBJECT_TYPE_ROW, LCA_HEADER], assessments);
      if CommentsDescribed(assessments) {
        assert prepared + [OBJECT_TYPE_ROW, LCA_HEADER] + LcaRows(assessments) == prepared + LcaBlock(assessments);
      }
    }

    /** The outer loop of `_build_lca_block`: the comment rows of each stub in turn. */
    method AppendLcaRows(prepared: Csv, stubs: seq<AssessmentStub>) returns (r: Result<Csv>)
      ensures CommentsDescribed(stubs) ==> r == Success(prepared + LcaRows(stubs))
      ensures !CommentsDescribed(stubs) ==> r == Failure(DESCRIPTION_KEY_ERROR)
    {
      var result := prepared;
      var i := 0;
      while i < |stubs|
        invariant 0 <= i <= |stubs|
        invariant CommentsDescribed(stubs[..i])
        invariant result == prepared + LcaRows(stubs[..i])
      {
        var step := AppendCommentRows(result, stubs[i].comments);
        if step.Failure? {
          return step;
        }
        assert CommentsDescribed(stubs[..i + 1]) by {
          assert forall k :: 0 <= k < i ==> stubs[..i + 1][k] == stubs[..i][k];
        }
        result := step.value;
        assert LcaRows(stubs[..i + 1]) == LcaRows(stubs[..i]) + CommentRows(stubs[i].comments) by {
          assert stubs[..i + 1][..i] == stubs[..i];
        }
        i := i + 1;
      }
      assert stubs[..i] == stubs;
      r := Success(result);
    }

    /** The inner loop of `_build_lca_block`: one row per comment of a stub. */
    method AppendCommentRows(prepared: Csv, comments: seq<StubComment>) returns (r: Result<Csv>)
      ensures Described(comments) ==> r == Success(prepared + CommentRows(comments))
      ensures !Described(comments) ==> r == Failure(DESCRIPTION_KEY_ERROR)
    {
      var result := prepared;
      var j := 0;
      while j < |comments|
        invariant 0 <= j <= |comments|
        invariant Described(comments[..j])
        invariant result == prepared + CommentRows(comments[..j])
      {
        if "description" !in comments[j].fields {
          return Failure(DESCRIPTION_KEY_ERROR);
        }
        result := result + [["", comments[j].fields["description"], IntToString(comments[j].cadId)]];
        assert comments[..j + 1][..j] == comments[..j];
        assert comments[..j + 1] == comments[..j] + [comments[j]];
        j := j + 1;
      }
      assert comments[..j] == comments;
      r := Success(result);
    }

    /** `assessments_complete_to_csv`. */
    method AssessmentsCompleteToCsv(errors: set<string>) returns (csv: Csv)
      ensures csv == CompleteCsv(assessments, errors)
    {
      var rows: Csv := [];
      var i := 0;
      while i < |assessments|
        invariant 0 <= i <= |assessments|
        invariant rows == CompleteRows(assessments[..i], errors)
      {
        var stub := assessments[i];
        if stub.slug !in errors {
          rows := rows + [["", stub.slug, if stub.needsVerification then "In Review" else "Completed"]];
        }
        assert assessments[..i + 1][..i] == assessments[..i];
        i := i + 1;
      }
      assert assessments[..i] == assessments;
      csv := [];
      if rows != [] {
        csv := [OBJECT_TYPE_ROW, COMPLETE_HEADER] + rows;
      }
    }
  }

  /** `VerifyCsvBuilder`. */
  class VerifyCsvBuilder {
    var assessments: seq<AssessmentStub>
    var assessmentIds: seq<int>

    constructor (data: Request, stored: seq<StoredAssessment>)
      ensures assessmentIds == data.assessmentsIds
      ensures assessments == VerifyStubs(data.assessmentsIds, stored)
    {
      assessments := [];
      assessmentIds := data.assessmentsIds;
      new;
      ConvertData(stored);
    }

    /** `_convert_data`: one stub per stored assessment among the ids. */
    method ConvertData(stored: seq<StoredAssessment>)
      requires assessments == []
      modifies this`assessments
      ensures assessments == VerifyStubs(assessmentIds, stored)
    {
      if assessmentIds == [] {
        return;
      }
      var k := 0;
      while k < |stored|
        invariant 0 <= k <= |stored|
        invariant assessments == StoredStubs(assessmentIds, stored[..k])
      {
        var a := stored[k];
        if a.id in assessmentIds {
          assessments := assessments + [AssessmentStub(a.id, a.slug, a.hasVerifiers, map[], [], [], [])];
        }
        assert stored[..k + 1][..k] == stored[..k];
        k := k + 1;
      }
      assert stored[..k] == stored;
    }

    /** `assessments_verify_to_csv` with the run's date, formatted month/day/year. */
    method AssessmentsVerifyToCsv(verifyDate: string) returns (csv: Csv)
      ensures csv == VerifyCsv(assessments, verifyDate)
    {
      var rows: Csv := [];
      var i := 0;
      while i < |assessments|
        invariant 0 <= i <= |assessments|
        invariant rows == VerifyRows(assessments[..i], verifyDate)
      {
        rows := rows + [["", assessments[i].slug, "Completed", verifyDate]];
        assert assessments[..i + 1][..i] == assessments[..i];
        i := i + 1;
      }
      assert assessments[..i] == assessments;
      csv := [];
      if rows != [] {
        csv := [OBJECT_TYPE_ROW, VERIFY_HEADER] + rows;
      }
    }
  }
}
