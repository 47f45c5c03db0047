/**
 * The review levels of assessments on the "Multiple Levels Of Verification" flow:
 * a level starts "Not Started" with no completion time, and an update request sets
 * the status, the completion time and the verifier for exactly the keys it carries.
 */
module ReviewLevels {
  import opened Wrappers

  /** A value of the update request, as decoded from JSON. */
  datatype DictValue = Null | Str(s: string) | Int(i: int)

  const NOT_STARTED := "Not Started"

  /** The only keys `update_from_dict` copies, in the order it copies them. */
  const UPDATABLE_FIELDS: seq<string> := ["status", "completed_at", "verified_by"]

  /** The columns of a review level that an update could touch or must keep. */
  datatype LevelFields = LevelFields(
    assessmentId: Option<int>,
    levelNumber: int,
    status: DictValue,
    completedAt: DictValue,
    verifiedBy: DictValue)

  /** `setattr` for one of the updatable columns; other names change nothing. */
  function SetField(f: LevelFields, name: string, v: DictValue): LevelFields
  {
    if name == "status" then f.(status := v)
    else if name == "completed_at" then f.(completedAt := v)
    else if name == "verified_by" then f.(verifiedBy := v)
    else f
  }

  /** The loop of `update_from_dict` over `names`, copying each name present in `d`. */
  function SetFields(f: LevelFields, d: map<string, DictValue>, names: seq<string>): LevelFields
  {
    if names == [] then f
    else
      var g := SetFields(f, d, names[..|names| - 1]);
      var name := names[|names| - 1];
      if name in d then SetField(g, name, d[name]) else g
  }

  /**
   * The level after `update_from_dict(d)`: each updatable column takes `d`'s value when
   * its key is present and keeps its value otherwise; the assessment and the level
   * number never change.
   */
  function UpdatedFromDict(f: LevelFields, d: map<string, DictValue>): (r: LevelFields)
    ensures r.assessmentId == f.assessmentId && r.levelNumber == f.levelNumber
    ensures r.status == (if "status" in d then d["status"] else f.status)
    ensures r.completedAt == (if "completed_at" in d then d["completed_at"] else f.completedAt)
    ensures r.verifiedBy == (if "verified_by" in d then d["verified_by"] else f.verifiedBy)
  {
    var names := UPDATABLE_FIELDS;
    assert names[..2][..1] == names[..1] && names[..1][..0] == [];
    var g1 := if "status" in d then SetField(f, "status", d["status"]) else f;
    var g2 := if "completed_at" in d then SetField(g1, "completed_at", d["completed_at"]) else g1;
    assert SetFields(f, d, names[..1]) == g1;
    assert SetFields(f, d, names[..2]) == g2;
    assert names[..3] == names;
    SetFields(f, d, names)
  }

  /** Applying the same request twice leaves the level as applying it once. */
  lemma UpdateIdempotent(f: LevelFields, d: map<string, DictValue>)
    ensures UpdatedFromDict(UpdatedFromDict(f, d), d) == UpdatedFromDict(f, d)
  {
  }

  /** Only the three updatable keys matter: requests that agree on them update alike. */
  lemma UpdateIgnoresOtherKeys(f: LevelFields, d: map<string, DictValue>, e: map<string, DictValue>)
    requires forall k :: k in UPDATABLE_FIELDS ==> (k in d <==> k in e) && (k in d ==> d[k] == e[k])
    ensures UpdatedFromDict(f, d) == UpdatedFromDict(f, e)
  {
    assert "status" in UPDATABLE_FIELDS && "completed_at" in UPDATABLE_FIELDS && "verified_by" in UPDATABLE_FIELDS;
  }

  class ReviewLevel {
    var id: Option<int>
    var assessmentId: Option<int>
    var contextId: Option<int>
    var levelNumber: int
    var status: DictValue
    var completedAt: DictValue
    var verifiedBy: DictValue

    function Fields(): LevelFields
      reads this
    {
      LevelFields(assessmentId, levelNumber, status, completedAt, verifiedBy)
    }

    /** A new level: status "Not Started", no completion time, no verifier, no id until stored. */
    constructor (levelNumber: int, assessmentId: Option<int>, contextId: Option<int>)
      ensures this.levelNumber == levelNumber && this.assessmentId == assessmentId && this.contextId == contextId
      ensures id == None && status == Str(NOT_STARTED) && completedAt == Null && verifiedBy == Null
    {
      id := None;
      this.assessmentId := assessmentId;
      this.contextId := contextId;
      this.levelNumber := levelNumber;
      status := Str(NOT_STARTED);
      completedAt := Null;
      verifiedBy := Null;
    }

    /** `setattr(self, name, v)` for an updatable column. */
    method SetAttribute(name: string, v: DictValue)
      modifies this
      ensures Fields() == SetField(old(Fields()), name, v)
      ensures id == old(id) && contextId == old(contextId)
    {
      if name == "status" {
        status := v;
      } else if name == "completed_at" {
        completedAt := v;
      } else if name == "verified_by" {
        verifiedBy := v;
      }
    }

    /** `update_from_dict`. */
    method UpdateFromDict(d: map<string, DictValue>)
      modifies this
      ensures Fields() == UpdatedFromDict(old(Fields()), d)
      ensures id == old(id) && contextId == old(contextId)
    {
      var i := 0;
      while i < |UPDATABLE_FIELDS|
        invariant 0 <= i <= |UPDATABLE_FIELDS|
        invariant Fields() == SetFields(old(Fields()), d, UPDATABLE_FIELDS[..i])
        invariant id == old(id) && contextId == old(contextId)
      {
        var attribute := UPDATABLE_FIELDS[i];
        assert UPDATABLE_FIELDS[..i + 1][..i] == UPDATABLE_FIELDS[..i];
        if attribute in d {
          SetAttribute(attribute, d[attribute]);
        }
        i := i + 1;
      }
      assert UPDATABLE_FIELDS[..i] == UPDATABLE_FIELDS;
    }
  }

  /**
   * `find_and_update`: the level stored under `d["id"]` is updated from `d`. A request
   * without an id fails on the key, and an id with no stored level fails on the
   * missing object; no level changes then.
   */
  method FindAndUpdate(store: map<int, ReviewLevel>, d: map<string, DictValue>) returns (r: Result<ReviewLevel>)
    modifies set id | id in store :: store[id]
    ensures r.Success? <==> "id" in d && d["id"].Int? && d["id"].i in store
    ensures r.Success? ==> r.value == store[d["id"].i] && r.value.Fields() == UpdatedFromDict(old(r.value.Fields()), d)
    ensures forall id :: id in store && (r.Failure? || store[id] != r.value) ==> unchanged(store[id])
  {
    if "id" !in d {
      return Failure("KeyError: 'id'");
    }
    if !d["id"].Int? || d["id"].i !in store {
      return Failure("'NoneType' object has no attribute 'update_from_dict'");
    }
    var level := store[d["id"].i];
    level.UpdateFromDict(d);
    r := Success(level);
  }
}
