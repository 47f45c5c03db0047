/**
 * The read side of the bulk update (`/cavs/search`): the rows of the join of local
 * custom attribute definitions, assessments and values are grouped into one
 * attribute entry per `(title, attribute_type, mandatory, default_value)` key, with
 * one cell per assessment, next to one summary per row.
 *
 * The join is an input: `joined` holds its rows before the id and definition-type
 * filter, in the store's order.
 */
module BulkMatrix {
  import opened Wrappers

  datatype Cad = Cad(
    id: int,
    title: string,
    attributeType: string,
    mandatory: bool,
    defaultValue: Option<string>,
    multiChoiceOptions: Option<string>,
    multiChoiceMandatory: Option<string>,
    definitionType: string)

  /** One row of the join: the definition, its assessment's columns and the value's columns. */
  datatype QueryRow = QueryRow(
    cad: Cad,
    asmtId: int,
    asmtTitle: string,
    asmtType: string,
    asmtStatus: string,
    cavValue: Option<string>,
    cavPersonId: Option<int>)

  datatype CadKey = CadKey(title: string, attributeType: string, mandatory: bool, defaultValue: Option<string>)

  datatype Cell = Cell(
    value: Option<string>,
    attributePersonId: Option<int>,
    definitionId: int,
    attributeDefinitionId: int,
    multiChoiceOptions: Option<string>,
    multiChoiceMandatory: Option<string>)

  datatype AttributeStub = AttributeStub(
    title: string,
    mandatory: bool,
    attributeType: string,
    defaultValue: Option<string>,
    values: map<int, Cell>)

  datatype AssessmentSummary = AssessmentSummary(assessmentType: string, id: int, title: string, status: string)

  /** The state of `_prepare_attributes_and_assessments`: the OrderedDict as keys in order plus a map. */
  datatype Matrix = Matrix(keys: seq<CadKey>, stubs: map<CadKey, AttributeStub>, assessments: seq<AssessmentSummary>)

  /** `_generate_unique_cad_key`: the CAD id is not part of the key. */
  function UniqueCadKey(cad: Cad): CadKey
  {
    CadKey(cad.title, cad.attributeType, cad.mandatory, cad.defaultValue)
  }

  function CellOf(cad: Cad, cavValue: Option<string>, cavPersonId: Option<int>, assessmentId: int): Cell
  {
    Cell(cavValue, cavPersonId, assessmentId, cad.id, cad.multiChoiceOptions, cad.multiChoiceMandatory)
  }

  /** `_get_or_generate_cad_stub`: the stored stub, or a fresh one from `cad`, with the cell of `assessmentId` set. */
  function GetOrGenerateCadStub(
    cad: Cad,
    cavValue: Option<string>,
    cavPersonId: Option<int>,
    assessmentId: int,
    attributes: map<CadKey, AttributeStub>,
    uniqueKey: CadKey): AttributeStub
  {
    var stub :=
      if uniqueKey in attributes then attributes[uniqueKey]
      else AttributeStub(cad.title, cad.mandatory, cad.attributeType, cad.defaultValue, map[]);
    stub.(values := stub.values[assessmentId := CellOf(cad, cavValue, cavPersonId, assessmentId)])
  }

  function Summary(row: QueryRow): AssessmentSummary
  {
    AssessmentSummary(row.asmtType, row.asmtId, row.asmtTitle, row.asmtStatus)
  }

  /** One pass of the loop of `_prepare_attributes_and_assessments`. */
  function Step(m: Matrix, row: QueryRow): Matrix
  {
    var k := UniqueCadKey(row.cad);
    var stub := GetOrGenerateCadStub(row.cad, row.cavValue, row.cavPersonId, row.asmtId, m.stubs, k);
    Matrix(if k in m.stubs then m.keys else m.keys + [k], m.stubs[k := stub], m.assessments + [Summary(row)])
  }

  function Prepare(rows: seq<QueryRow>): Matrix
  {
    if rows == [] then Matrix([], map[], [])
    else Step(Prepare(rows[..|rows| - 1]), rows[|rows| - 1])
  }

  /** `attributes.values()` of the OrderedDict. */
  function AttributeList(m: Matrix): seq<AttributeStub>
    requires forall k :: k in m.keys ==> k in m.stubs
  {
    seq(|m.keys|, i requires 0 <= i < |m.keys| => m.stubs[m.keys[i]])
  }

  predicate Distinct<T(==)>(s: seq<T>)
  {
    forall i, j :: 0 <= i < j < |s| ==> s[i] != s[j]
  }

  /** The OrderedDict invariant: each key once, and exactly the keys of the map. */
  predicate WellFormed(m: Matrix)
  {
    Distinct(m.keys) && (forall k :: k in m.keys ==> k in m.stubs) && (forall k :: k in m.stubs ==> k in m.keys)
  }

  lemma {:induction false} PrepareWellFormed(rows: seq<QueryRow>)
    ensures WellFormed(Prepare(rows))
  {
    if rows != [] {
      PrepareWellFormed(rows[..|rows| - 1]);
    }
  }

  /** The query's filter: a row of one of the requested assessments, for an assessment-level definition. */
  predicate Matches(asmtIds: seq<int>, r: QueryRow)
  {
    r.asmtId in asmtIds && r.cad.definitionType == "assessment"
  }

  /**
   * `_query_all_cads_asmt_matches`: no rows for no ids, else the joined rows that pass
   * the filter, each as often as it is joined.
   */
  function QueryMatches(asmtIds: seq<int>, joined: seq<QueryRow>): (rows: seq<QueryRow>)
    ensures asmtIds == [] ==> rows == []
    ensures forall i :: 0 <= i < |rows| ==> rows[i] in joined && Matches(asmtIds, rows[i])
    ensures forall r :: r in joined && Matches(asmtIds, r) ==> r in rows
  {
    if asmtIds == [] || joined == [] then []
    else
      var rest := QueryMatches(asmtIds, joined[1..]);
      if Matches(asmtIds, joined[0]) then [joined[0]] + rest else rest
  }

  /** Each matching row is returned as often as it is joined, and no other row is returned. */
  lemma {:induction false} QueryMatchesCounts(asmtIds: seq<int>, joined: seq<QueryRow>)
    ensures var rows := QueryMatches(asmtIds, joined);
            forall r :: multiset(rows)[r] == if Matches(asmtIds, r) then multiset(joined)[r] else 0
  {
    if asmtIds != [] && joined != [] {
      QueryMatchesCounts(asmtIds, joined[1..]);
      assert joined == [joined[0]] + joined[1..];
    }
  }

  lemma AppendAssociative<T>(s: seq<T>, t: seq<T>, u: seq<T>)
    ensures s + (t + u) == (s + t) + u
  {
  }

  /** The matches of a row followed by more rows. */
  lemma QueryMatchesCons(asmtIds: seq<int>, x: QueryRow, rest: seq<QueryRow>)
    requires asmtIds != []
    ensures QueryMatches(asmtIds, [x] + rest) ==
              (if Matches(asmtIds, x) then [x] else []) + QueryMatches(asmtIds, rest)
  {
    assert ([x] + rest)[1..] == rest;
  }

  /**
   * The query keeps the order of the joined rows: the matches of two runs of rows are
   * the matches of the first followed by those of the second.
   */
  lemma {:induction false} QueryMatchesAppend(asmtIds: seq<int>, a: seq<QueryRow>, b: seq<QueryRow>)
    ensures QueryMatches(asmtIds, a + b) == QueryMatches(asmtIds, a) + QueryMatches(asmtIds, b)
  {
    if a == [] {
      assert a + b == b;
    } else if asmtIds != [] {
      var x, tail := a[0], a[1..];
      assert a == [x] + tail;
      assert a + b == [x] + (tail + b);
      QueryMatchesCons(asmtIds, x, tail + b);
      QueryMatchesCons(asmtIds, x, tail);
      QueryMatchesAppend(asmtIds, tail, b);
      AppendAssociative(if Matches(asmtIds, x) then [x] else [], QueryMatches(asmtIds, tail), QueryMatches(asmtIds, b));
    }
  }

  datatype Response = Response(attributes: seq<AttributeStub>, assessments: seq<AssessmentSummary>)

  /** `_prepare_attributes_and_assessments`. */
  method PrepareAttributesAndAssessments(allCads: seq<QueryRow>)
    returns (attributes: seq<AttributeStub>, assessments: seq<AssessmentSummary>)
    ensures WellFormed(Prepare(allCads))
    ensures attributes == AttributeList(Prepare(allCads))
    ensures assessments == Prepare(allCads).assessments
  {
    var keys: seq<CadKey> := [];
    var stubs: map<CadKey, AttributeStub> := map[];
    assessments := [];
    var i := 0;
    while i < |allCads|
      invariant 0 <= i <= |allCads|
      invariant Matrix(keys, stubs, assessments) == Prepare(allCads[..i])
    {
      var row := allCads[i];
      var uniqueKey := UniqueCadKey(row.cad);
      var stub := GetOrGenerateCadStub(row.cad, row.cavValue, row.cavPersonId, row.asmtId, stubs, uniqueKey);
      if uniqueKey !in stubs {
        keys := keys + [uniqueKey];
      }
      stubs := stubs[uniqueKey := stub];
      assessments := assessments + [AssessmentSummary(row.asmtType, row.asmtId, row.asmtTitle, row.asmtStatus)];
      assert allCads[..i + 1][..i] == allCads[..i];
      i := i + 1;
    }
    assert allCads[..i] == allCads;
    PrepareWellFormed(allCads);
    attributes := seq(|keys|, j requires 0 <= j < |keys| => stubs[keys[j]]);
  }

  /** `get_data`. */
  method GetData(asmtIds: seq<int>, joined: seq<QueryRow>) returns (response: Response)
    ensures WellFormed(Prepare(QueryMatches(asmtIds, joined)))
    ensures response == Response(AttributeList(Prepare(QueryMatches(asmtIds, joined))),
                                 Prepare(QueryMatches(asmtIds, joined)).assessments)
  {
    var allCads := QueryMatches(asmtIds, joined);
    var attributes, assessments := PrepareAttributesAndAssessments(allCads);
    response := Response(attributes, assessments);
  }
}
