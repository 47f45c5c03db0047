/**
 * The bulk endpoints and background tasks: the two-phase complete (attributes,
 * then state), verify and attribute save, and the start of a complete run.
 *
 * The import engine is the function `importer`: the set of slugs an import of a
 * given CSV reports as failed. The notification is returned as a record; task
 * queueing, sessions and logging are not modelled.
 */
module BulkOperations {
  import opened Wrappers
  import opened Strings
  import opened CsvBuilder
  import opened CsvBuilderProperties

  /** One call of the import engine: the CSV and whether the bulk-verify messages are passed. */
  datatype ImportCall = ImportCall(csv: Csv, customMessages: bool)

  /** The arguments of `send_notification`. */
  datatype Notification = Notification(updateErrors: set<string>, partialErrors: set<string>, asmntIds: seq<int>)

  /** What a background task did: its imports, in order, and the notification it sent. */
  datatype TaskRun = TaskRun(imports: seq<ImportCall>, notification: Notification)

  /**
   * `bulk_complete` for given stubs and `cav_keys`. When building the update CSV
   * raises, the task ends with that error before any import or notification.
   */
  function CompleteRun(
    stubs: seq<AssessmentStub>,
    keys: seq<string>,
    assessmentIds: seq<int>,
    importer: ImportCall -> set<string>): Result<TaskRun>
  {
    match AttributesUpdateCsv(stubs, keys)
    case Failure(e) => Failure(e)
    case Success(updateData) =>
      var update := ImportCall(updateData, false);
      var updErrors := importer(update);
      var completeData := CompleteCsv(stubs, updErrors);
      if completeData != [] then
        var complete := ImportCall(completeData, false);
        Success(TaskRun([update, complete], Notification(updErrors, importer(complete), assessmentIds)))
      else
        Success(TaskRun([update], Notification(updErrors, {}, assessmentIds)))
  }

  /** `bulk_complete`. */
  method BulkComplete(
    data: Request,
    stored: seq<StoredAssessment>,
    people: map<int, string>,
    importer: ImportCall -> set<string>) returns (run: Result<TaskRun>)
    ensures var stubs := CollectStubs(data.attributes, NeedsVerifications(data.assessmentsIds, stored),
                                      PeopleCache(data.attributes, people));
            exists keys :: IsKeyOrder(keys, stubs) && run == CompleteRun(stubs, keys, data.assessmentsIds, importer)
    ensures run.Failure? <==> !RequestDescribed(data.attributes)
  {
    var builder := new MatrixCsvBuilder(data, stored, people);
    CollectedCommentsDescribed(data.attributes, NeedsVerifications(data.assessmentsIds, stored), builder.peopleCache);
    var built := builder.AttributesUpdateToCsv();
    if built.Failure? {
      return Failure(built.error);
    }
    var updateData := built.value;
    var update := ImportCall(updateData, false);
    var updErrors := importer(update);
    var completeData := builder.AssessmentsCompleteToCsv(updErrors);
    var completeErrors: set<string> := {};
    var imports := [update];
    if completeData != [] {
      var complete := ImportCall(completeData, false);
      imports := imports + [complete];
      completeErrors := importer(complete);
    }
    run := Success(TaskRun(imports, Notification(updErrors, completeErrors, builder.assessmentIds)));
    assert AttributesUpdateCsv(builder.assessments, builder.cavKeys) == Success(updateData);
    assert completeData == CompleteCsv(builder.assessments, updErrors);
    assert builder.assessmentIds == data.assessmentsIds;
    assert run == CompleteRun(builder.assessments, builder.cavKeys, data.assessmentsIds, importer) by {
      if completeData != [] {
        assert imports == [update, ImportCall(completeData, false)];
      }
    }
  }

  /** `bulk_verify` for given stubs, date and task name. */
  function VerifyRun(
    stubs: seq<AssessmentStub>,
    verifyDate: string,
    taskName: string,
    assessmentIds: seq<int>,
    importer: ImportCall -> set<string>): TaskRun
  {
    var call := ImportCall(VerifyCsv(stubs, verifyDate), Contains(taskName, "bulk_verify"));
    TaskRun([call], Notification(importer(call), {}, assessmentIds))
  }

  /** `bulk_verify`; the date is the run's date formatted month/day/year. */
  method BulkVerify(
    data: Request,
    stored: seq<StoredAssessment>,
    verifyDate: string,
    taskName: string,
    importer: ImportCall -> set<string>) returns (run: TaskRun)
    ensures run == VerifyRun(VerifyStubs(data.assessmentsIds, stored), verifyDate, taskName, data.assessmentsIds, importer)
  {
    var builder := new VerifyCsvBuilder(data, stored);
    var updateData := builder.AssessmentsVerifyToCsv(verifyDate);
    var call := ImportCall(updateData, false);
    if Contains(taskName, "bulk_verify") {
      call := call.(customMessages := true);
    }
    var verifyErrors := importer(call);
    run := TaskRun([call], Notification(verifyErrors, {}, builder.assessmentIds));
  }

  function StubIds(stubs: seq<AssessmentStub>): seq<int>
  {
    seq(|stubs|, i requires 0 <= i < |stubs| => stubs[i].id)
  }

  /** `bulk_cavs_save` for given stubs and `cav_keys`; a raising update CSV ends the task. */
  function CavsSaveRun(stubs: seq<AssessmentStub>, keys: seq<string>, importer: ImportCall -> set<string>): Result<TaskRun>
  {
    match AttributesUpdateCsv(stubs, keys)
    case Failure(e) => Failure(e)
    case Success(updateData) =>
      var call := ImportCall(updateData, false);
      Success(TaskRun([call], Notification(importer(call), {}, StubIds(stubs))))
  }

  /** `bulk_cavs_save`. */
  method BulkCavsSave(
    data: Request,
    stored: seq<StoredAssessment>,
    people: map<int, string>,
    importer: ImportCall -> set<string>) returns (run: Result<TaskRun>)
    ensures var stubs := CollectStubs(data.attributes, NeedsVerifications(data.assessmentsIds, stored),
                                      PeopleCache(data.attributes, people));
            exists keys :: IsKeyOrder(keys, stubs) && run == CavsSaveRun(stubs, keys, importer)
    ensures run.Failure? <==> !RequestDescribed(data.attributes)
  {
    var builder := new MatrixCsvBuilder(data, stored, people);
    CollectedCommentsDescribed(data.attributes, NeedsVerifications(data.assessmentsIds, stored), builder.peopleCache);
    var built := builder.AttributesUpdateToCsv();
    if built.Failure? {
      return Failure(built.error);
    }
    var call := ImportCall(built.value, false);
    var updErrors := importer(call);
    var ids := StubIds(builder.assessments);
    run := Success(TaskRun([call], Notification(updErrors, {}, ids)));
    assert run == CavsSaveRun(builder.assessments, builder.cavKeys, importer);
  }

  // ---------------------------------------------------------------------------
  // Starting a complete run

  /**
   * `_detect_files` as written: it reads `extra` from each `attributes` entry, which
   * holds only `assessment` and `values`, so any entry raises a KeyError.
   */
  function DetectFilesAsWritten(data: Request): Result<bool>
  {
    if data.attributes == [] then Success(false) else Failure("KeyError: 'extra'")
  }

  /** Whether some value of the request has a truthy `extra` with a non-empty `files` list. */
  predicate DetectFiles(data: Request)
  {
    exists i, j :: 0 <= i < |data.attributes| && 0 <= j < |data.attributes[i].values|
                   && ExtraOf(data.attributes[i].values[j]).files != []
  }

  datatype TaskParameters = TaskParameters(data: Request, credentials: Option<string>)

  datatype StartResponse = Unauthorized | TaskCreated(name: string, parameters: TaskParameters)

  /** `run_bulk_complete`: Drive authorisation is checked only when the request carries files. */
  function RunBulkComplete(data: Request, driveAuthorized: bool, credentials: string): (r: StartResponse)
    ensures r.Unauthorized? <==> DetectFiles(data) && !driveAuthorized
    ensures r.TaskCreated? ==> r.name == "bulk_complete" && r.parameters.data == data
                               && (r.parameters.credentials.Some? <==> DetectFiles(data))
  {
    if DetectFiles(data) then
      if !driveAuthorized then Unauthorized
      else TaskCreated("bulk_complete", TaskParameters(data, Some(credentials)))
    else TaskCreated("bulk_complete", TaskParameters(data, None))
  }

  // ---------------------------------------------------------------------------
  // Properties

  /**
   * Phase 1 imports the attribute update; phase 2 runs exactly when some stub's slug
   * did not fail phase 1, imports only such slugs, and otherwise `partial_errors` is empty.
   */
  lemma CompleteRunPhases(stubs: seq<AssessmentStub>, keys: seq<string>, ids: seq<int>, importer: ImportCall -> set<string>)
    ensures CompleteRun(stubs, keys, ids, importer).Failure? <==> !CommentsDescribed(stubs)
    ensures CompleteRun(stubs, keys, ids, importer).Success? ==>
            var run := CompleteRun(stubs, keys, ids, importer).value;
            var updErrors := run.notification.updateErrors;
            1 <= |run.imports| <= 2
            && Success(run.imports[0].csv) == AttributesUpdateCsv(stubs, keys) && !run.imports[0].customMessages
            && updErrors == importer(run.imports[0])
            && run.notification.asmntIds == ids
            && (|run.imports| == 2 <==> exists i :: 0 <= i < |stubs| && stubs[i].slug !in updErrors)
            && (|run.imports| == 1 ==> run.notification.partialErrors == {})
            && (|run.imports| == 2 ==>
                  run.notification.partialErrors == importer(run.imports[1])
                  && run.imports[1].csv == CompleteCsv(stubs, updErrors)
                  && forall r :: r in run.imports[1].csv[2..] ==> |r| == 3 && r[1] !in updErrors)
  {
    if CommentsDescribed(stubs) {
      var updErrors := importer(ImportCall(AttributesUpdateCsv(stubs, keys).value, false));
      CompleteRunPhasesOf(stubs, updErrors);
    }
  }

  /** Phase 2 of a run whose phase 1 reported `updErrors`. */
  lemma CompleteRunPhasesOf(stubs: seq<AssessmentStub>, updErrors: set<string>)
    ensures (CompleteCsv(stubs, updErrors) != [] <==> exists i :: 0 <= i < |stubs| && stubs[i].slug !in updErrors)
    ensures CompleteCsv(stubs, updErrors) != [] ==>
              forall r :: r in CompleteCsv(stubs, updErrors)[2..] ==> |r| == 3 && r[1] !in updErrors
  {
    CompleteCsvEmpty(stubs, updErrors);
    CompleteRowsSpec(stubs, updErrors);
    var csv := CompleteCsv(stubs, updErrors);
    if csv != [] {
      assert csv[2..] == CompleteRows(stubs, updErrors);
    }
  }

  /** The verify run imports once, with an empty CSV exactly when none of the ids is stored. */
  lemma VerifyRunSpec(data: Request, stored: seq<StoredAssessment>, verifyDate: string, taskName: string,
                      importer: ImportCall -> set<string>)
    ensures var run := VerifyRun(VerifyStubs(data.assessmentsIds, stored), verifyDate, taskName, data.assessmentsIds, importer);
            |run.imports| == 1
            && (run.imports[0].csv == [] <==> forall k :: 0 <= k < |stored| ==> stored[k].id !in data.assessmentsIds)
            && run.notification == Notification(importer(run.imports[0]), {}, data.assessmentsIds)
  {
    VerifyCsvEmpty(data.assessmentsIds, stored, verifyDate);
  }

  /** A queued verify task, named `<task id>_bulk_verify`, passes the bulk-verify messages. */
  lemma QueuedVerifyTaskGetsMessages(stubs: seq<AssessmentStub>, verifyDate: string, taskId: string,
                                     ids: seq<int>, importer: ImportCall -> set<string>)
    ensures VerifyRun(stubs, verifyDate, taskId + "_bulk_verify", ids, importer).imports[0].customMessages
  {
    var name := taskId + "_bulk_verify";
    ContainsAt(name, "bulk_verify");
    assert name[|taskId| + 1..|taskId| + 12] == "bulk_verify";
    assert OccursAt(name, "bulk_verify", |taskId| + 1);
  }

  /** The attribute save reports the ids of the `attributes` entries, not `assessments_ids`. */
  lemma CavsSaveReportsEntryIds(attrs: seq<AttributesEntry>, needs: seq<int>, cache: map<int, string>,
                                keys: seq<string>, importer: ImportCall -> set<string>)
    ensures CavsSaveRun(CollectStubs(attrs, needs, cache), keys, importer).Success? ==>
            var ids := CavsSaveRun(CollectStubs(attrs, needs, cache), keys, importer).value.notification.asmntIds;
            |ids| == |attrs| && forall i :: 0 <= i < |attrs| ==> ids[i] == attrs[i].assessment.id
  {
    CollectStubsSpec(attrs, needs, cache);
    forall i | 0 <= i < |attrs|
      ensures CollectStubs(attrs, needs, cache)[i].id == attrs[i].assessment.id
    {
      AddValuesKeepsIdentity(NewStub(attrs[i], needs), attrs[i].values, cache);
    }
  }

  /**
   * A request with entries and no files (two assessments, no values) makes
   * `_detect_files` as written fail, where no files are to be attached and the
   * task is to be created without credentials.
   */
  lemma DetectFilesAsWrittenFailsWithoutFiles()
    ensures var data := Request([1, 2], [AttributesEntry(AssessmentRef(1, "ASSESSMENT-1"), []),
                                         AttributesEntry(AssessmentRef(2, "ASSESSMENT-2"), [])]);
            DetectFilesAsWritten(data).Failure?
            && !DetectFiles(data)
            && RunBulkComplete(data, false, "").TaskCreated?
  {
    var data := Request([1, 2], [AttributesEntry(AssessmentRef(1, "ASSESSMENT-1"), []),
                                 AttributesEntry(AssessmentRef(2, "ASSESSMENT-2"), [])]);
    assert forall i :: 0 <= i < |data.attributes| ==> data.attributes[i].values == [];
  }

  /** A request with a file: as written it fails; corrected, it requires Drive authorisation. */
  lemma DetectFilesWithFile()
    ensures var v := CavInput(Str("one"), "lca_title", "Dropdown", 1, 7, Some(Extra(map[], [], [FileRef("mock_id")])));
            var data := Request([1], [AttributesEntry(AssessmentRef(1, "ASSESSMENT-1"), [v])]);
            DetectFilesAsWritten(data).Failure?
            && DetectFiles(data)
            && RunBulkComplete(data, false, "") == Unauthorized
  {
    var v := CavInput(Str("one"), "lca_title", "Dropdown", 1, 7, Some(Extra(map[], [], [FileRef("mock_id")])));
    var data := Request([1], [AttributesEntry(AssessmentRef(1, "ASSESSMENT-1"), [v])]);
    assert ExtraOf(data.attributes[0].values[0]).files != [];
  }
}
