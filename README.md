# Bulk assessment update and assessment rules, in Dafny

This project models the bulk assessment update of GGRC and the rules around it.

**The bulk update pipeline**

- The write side turns the nested request (`assessments_ids` plus one `attributes` entry per assessment) into row-oriented CSV blocks for the import engine:
  - one `AssessmentStub` per `attributes` entry, holding normalised values, evidence urls and files, and comments tagged with their definition id;
  - the attribute-update block and the LCA comment block;
  - the completion block and the verify block.
- The bulk endpoints sequence two imports.
  - Phase 1 updates attributes.
  - Phase 2 changes the state of the assessments that did not fail phase 1, and runs only when some did not.
  - The notification reports both phases' failures.
- The read side (`/cavs/search`) groups the local custom attribute definitions of the requested assessments into one column per `(title, attribute_type, mandatory, default_value)` key.

**The rule sets around it**

- Server side:
  - assessment status, conclusion and type validation, the SOX 302 auto-completion and review-level creation;
  - the review-level update from a request;
  - the review-status reset rules of reviewable objects;
  - SOX 302 notification scheduling;
  - the name and custom-attribute validators;
  - column-handler merging and the import/export registries;
  - policy kinds and polymorphic relationships.
- Client side:
  - the GGRCQ link builder;
  - the verification-flow predicates and lookups;
  - the multi-level verification columns and clean-up;
  - the verifiers-group editing state machine and the verifiers panel;
  - the role-to-link-attribute table.

**How the environment is represented**

- The database, the import engine (`converters.make_import`), the people lookup, Drive authorisation, the clock and shared client helpers are not modelled. They are inputs:
  - the stored assessments are a sequence in store order;
  - people are a map from id to email;
  - the import engine is a total function from an import call to the set of failed slugs;
  - dates are day numbers or preformatted text;
  - the ordinal rendering of a level number is a function parameter.
- Python sets whose iteration order is unspecified (`cav_keys`) are modelled by stating only that every title occurs exactly once.
- Code that updates state in place is modelled as a Dafny class whose fields the methods change, with `modifies` clauses:
  - the CSV builders;
  - `Assessment`, `ReviewLevel`, `Reviewable`/`Review`;
  - the converter registries;
  - the request data of the CAD validator;
  - the polymorphic holder;
  - the client view models.
  Each such method is proved against a specification function, and the properties are proved about that function.

The model follows the code in these points:

- no blank separator rows between blocks;
- stubs only from `attributes` entries, never from `assessments_ids` alone;
- the attribute header lists `cav_keys` in set order, not sorted.

## Model

| member | source | states |
|---|---|---|
| CsvBuilder.PopulateValue | src/ggrc/bulk_operations/csvbuilder.py:244-250 | Checkbox becomes "yes" exactly for "1" and "no" otherwise; Map:Person becomes the cached email of the id, or "" for an id not in the cache; any other type keeps a truthy value unchanged and turns a falsy one into ""; never null |
| CsvBuilder.FileIdsSpec | src/ggrc/bulk_operations/csvbuilder.py:223-224 | the file ids are the `source_gdrive_id` of each file, one per file, in order |
| CsvBuilder.LastWithTitle | src/ggrc/bulk_operations/csvbuilder.py:216-220 | finds the last value entry carrying a title: it has the title and no later entry does |
| CsvBuilder.MatrixCsvBuilder.constructor | src/ggrc/bulk_operations/csvbuilder.py:111-137 | after construction the people cache, the stubs (one per `attributes` entry) and `cav_keys` (every title exactly once) are those the collection passes define |
| CsvBuilder.MatrixCsvBuilder.CalculatePeopleCache | src/ggrc/bulk_operations/csvbuilder.py:184-195 | the cache maps exactly the stored people whose id is a Map:Person value of the request |
| CsvBuilder.MatrixCsvBuilder.NeedsVerificationIds | src/ggrc/bulk_operations/csvbuilder.py:199-208 | returns the ids among `assessments_ids` whose stored assessment has Verifiers, in store order |
| CsvBuilder.MatrixCsvBuilder.CollectAttributes | src/ggrc/bulk_operations/csvbuilder.py:197-234 | appends one stub per `attributes` entry, in input order, each built from its entry |
| CsvBuilder.MatrixCsvBuilder.CollectValues | src/ggrc/bulk_operations/csvbuilder.py:216-233 | the inner loop builds the entry's stub: values by title, urls, file ids and comments tagged with the value id |
| CsvBuilder.MatrixCsvBuilder.CollectRequiredData | src/ggrc/bulk_operations/csvbuilder.py:236-242 | `cav_keys` lists every title of every stub exactly once, in some order |
| CsvBuilder.MatrixCsvBuilder.AttributesUpdateToCsv | src/ggrc/bulk_operations/csvbuilder.py:139-151 | the update CSV is the attribute block followed by the LCA block, or the KeyError on `description` when some collected comment has none |
| CsvBuilder.MatrixCsvBuilder.BuildAssessmentBlock | src/ggrc/bulk_operations/csvbuilder.py:266-279 | appends the attribute block (nothing without rows) to the list it is given |
| CsvBuilder.MatrixCsvBuilder.BuildLcaBlock | src/ggrc/bulk_operations/csvbuilder.py:281-293 | appends the LCA block (nothing without comments) to the list it is given, or raises the KeyError when some comment has no `description` |
| CsvBuilder.MatrixCsvBuilder.AppendLcaRows | src/ggrc/bulk_operations/csvbuilder.py:288-293 | appends the comment rows of every stub, stub by stub; fails with the KeyError exactly when some comment has no `description` |
| CsvBuilder.MatrixCsvBuilder.AppendCommentRows | src/ggrc/bulk_operations/csvbuilder.py:289-293 | appends one `["", description, cad_id]` row per comment, in order; fails with the KeyError exactly when a comment has no `description` |
| CsvBuilder.MatrixCsvBuilder.AssessmentsCompleteToCsv | src/ggrc/bulk_operations/csvbuilder.py:153-171 | the completion CSV for the given error slugs |
| CsvBuilder.VerifyCsvBuilder.constructor | src/ggrc/bulk_operations/csvbuilder.py:40-62 | the stubs are those of the stored assessments among the ids |
| CsvBuilder.VerifyCsvBuilder.ConvertData | src/ggrc/bulk_operations/csvbuilder.py:90-106 | one stub per stored assessment among the ids, in store order, flagged when it has Verifiers; none without ids |
| CsvBuilder.VerifyCsvBuilder.AssessmentsVerifyToCsv | src/ggrc/bulk_operations/csvbuilder.py:71-88 | the verify CSV for the stubs and the run's date |
| CsvBuilderProperties.AddValuesKeepsIdentity | src/ggrc/bulk_operations/csvbuilder.py:210-215 | collecting values never changes the stub's id, slug or verification flag |
| CsvBuilderProperties.AddValuesTitles | src/ggrc/bulk_operations/csvbuilder.py:216-220 | the stub's attribute keys are exactly the titles of its values |
| CsvBuilderProperties.AddValuesLastWins | src/ggrc/bulk_operations/csvbuilder.py:216-220 | under a repeated title the normalised value of its last occurrence is kept |
| CsvBuilderProperties.AddValuesUrls | src/ggrc/bulk_operations/csvbuilder.py:221-228 | the evidence urls are every value's urls concatenated in request order; a null or empty `extra` adds none |
| CsvBuilderProperties.AddValuesFiles | src/ggrc/bulk_operations/csvbuilder.py:221-229 | the evidence files are the gdrive ids of every value's files concatenated in request order |
| CsvBuilderProperties.AddValuesComments | src/ggrc/bulk_operations/csvbuilder.py:225-233 | the comments are the non-empty comments of the values, in order, each tagged with its value's id |
| CsvBuilderProperties.NeedsVerificationsSpec | src/ggrc/bulk_operations/csvbuilder.py:199-208 | an id needs verification exactly when it was sent and its stored assessment has Verifiers |
| CsvBuilderProperties.CollectStubsSpec | src/ggrc/bulk_operations/csvbuilder.py:210-234 | exactly one stub per `attributes` entry, in input order |
| CsvBuilderProperties.CompleteStateOfEntry | src/ggrc/bulk_operations/csvbuilder.py:160-165 | an entry completes to "In Review" exactly when its id was sent and its assessment has Verifiers, else "Completed"; attribute content never decides |
| CsvBuilderProperties.KeysAreRequestTitles | src/ggrc/bulk_operations/csvbuilder.py:236-242 | the attribute columns are exactly the titles occurring anywhere in the request |
| CsvBuilderProperties.PeopleCacheLookup | src/ggrc/bulk_operations/csvbuilder.py:184-195 | a person value becomes that person's email, or "" for an unknown id |
| CsvBuilderProperties.CollectedCommentsDescribed | src/ggrc/bulk_operations/csvbuilder.py:225-233 | every collected comment has a `description` exactly when every non-empty comment object of the request has one |
| CsvBuilderProperties.AttributesUpdateFails | src/ggrc/bulk_operations/csvbuilder.py:281-293 | the attribute update raises the KeyError on `description` exactly when some non-empty comment object of the request lacks it |
| CsvBuilderProperties.AttributesRowsWidth | src/ggrc/bulk_operations/csvbuilder.py:252-264 | every attribute row is as wide as the header and starts with an empty cell |
| CsvBuilderProperties.AttributesRowsFromStubs | src/ggrc/bulk_operations/csvbuilder.py:266-279 | every attribute row is the row of a stub that has a value |
| CsvBuilderProperties.AttributesRowsCover | src/ggrc/bulk_operations/csvbuilder.py:266-279 | every stub with a value gets its row |
| CsvBuilderProperties.AttributesRowCell | src/ggrc/bulk_operations/csvbuilder.py:252-264 | under the column of a title a row holds the stub's value for it, or ""; the second cell is the slug |
| CsvBuilderProperties.AssessmentBlockExists | src/ggrc/bulk_operations/csvbuilder.py:266-279 | the attribute block exists exactly when some stub has a value |
| CsvBuilderProperties.CommentRowsSpec | src/ggrc/bulk_operations/csvbuilder.py:289-293 | one `["", description, cad_id]` row per comment, in order |
| CsvBuilderProperties.LcaRowsEmpty | src/ggrc/bulk_operations/csvbuilder.py:281-293 | there are LCA rows exactly when some stub has a comment |
| CsvBuilderProperties.LcaRowsSound | src/ggrc/bulk_operations/csvbuilder.py:288-293 | every LCA row is the row of some stub's comment |
| CsvBuilderProperties.CommentRowsComplete | src/ggrc/bulk_operations/csvbuilder.py:289-293 | every comment has its row among its stub's rows |
| CsvBuilderProperties.LcaRowsComplete | src/ggrc/bulk_operations/csvbuilder.py:288-293 | every comment of every stub has its LCA row |
| CsvBuilderProperties.LcaRowsSpec | src/ggrc/bulk_operations/csvbuilder.py:281-293 | the LCA rows are nonempty exactly when some stub has a comment, and are exactly the comments' rows |
| CsvBuilderProperties.LcaBlockSpec | src/ggrc/bulk_operations/csvbuilder.py:281-293 | the LCA block is emitted exactly when there are comments, never as a header without rows, with header `LCA Comment, description, custom_attribute_definition` |
| CsvBuilderProperties.CompleteRowsSpec | src/ggrc/bulk_operations/csvbuilder.py:153-171 | completion rows are exactly the stubs whose slug did not fail, each with its state |
| CsvBuilderProperties.CompleteCsvEmpty | src/ggrc/bulk_operations/csvbuilder.py:166-171 | the completion CSV is empty exactly when every stub's slug failed |
| CsvBuilderProperties.VerifyRowsSpec | src/ggrc/bulk_operations/csvbuilder.py:76-80 | one `["", slug, "Completed", date]` row per stub, in order |
| CsvBuilderProperties.StoredStubsSound | src/ggrc/bulk_operations/csvbuilder.py:95-106 | every verify stub comes from a requested stored assessment, with its slug and verification flag |
| CsvBuilderProperties.StoredStubsComplete | src/ggrc/bulk_operations/csvbuilder.py:95-106 | every requested stored assessment has a verify stub |
| CsvBuilderProperties.StoredStubsSpec | src/ggrc/bulk_operations/csvbuilder.py:90-106 | the verify stubs are exactly the requested stored assessments |
| CsvBuilderProperties.StoredStubsEmpty | src/ggrc/bulk_operations/csvbuilder.py:92-97 | there are no verify stubs exactly when no stored assessment was requested |
| CsvBuilderProperties.VerifyCsvEmpty | src/ggrc/bulk_operations/csvbuilder.py:82-88 | the verify CSV is `[]` exactly when none of the ids is a stored assessment |
| CsvBuilderProperties.VerifyRowsFromStored | src/ggrc/bulk_operations/csvbuilder.py:71-88 | each verify row sets a requested stored assessment to "Completed" with the run's date |
| BulkMatrix.PrepareWellFormed | src/ggrc/views/bulk_operations/utils.py:120-132 | the ordered dictionary holds each key once, and exactly the keys of its map |
| BulkMatrix.QueryMatches | src/ggrc/views/bulk_operations/utils.py:16-45 | no rows for no ids; otherwise every returned row is a joined row of a requested assessment with definition type "assessment", and every such joined row is returned |
| BulkMatrix.QueryMatchesCounts | src/ggrc/views/bulk_operations/utils.py:16-45 | each matching joined row is returned as often as it is joined, and no other row is returned |
| BulkMatrix.QueryMatchesAppend | src/ggrc/views/bulk_operations/utils.py:16-45 | the query keeps the joined rows' order: the matches of two runs of rows are the first run's matches followed by the second's |
| BulkMatrix.PrepareAttributesAndAssessments | src/ggrc/views/bulk_operations/utils.py:110-140 | the loop returns the entries of the ordered dictionary in key order and one summary per row |
| BulkMatrix.GetData | src/ggrc/views/bulk_operations/utils.py:143-187 | the response is the attributes and summaries prepared from the matching rows |
| BulkMatrixProperties.FirstIndex | src/ggrc/views/bulk_operations/utils.py:120-125 | the first row carrying a key: it has the key and no earlier row does |
| BulkMatrixProperties.LastCellIndex | src/ggrc/views/bulk_operations/utils.py:99-106 | the last row carrying a key for an assessment |
| BulkMatrixProperties.PrepareKeys | src/ggrc/views/bulk_operations/utils.py:120-132 | there is one entry per distinct `(title, attribute_type, mandatory, default_value)` key among the rows, and no other |
| BulkMatrixProperties.PrepareKeyOrder | src/ggrc/views/bulk_operations/utils.py:120-140 | entries come in order of the first row of each key |
| BulkMatrixProperties.PrepareHeaders | src/ggrc/views/bulk_operations/utils.py:89-98 | an entry's header fields are those of its key, as set by the first row seen |
| BulkMatrixProperties.PrepareCells | src/ggrc/views/bulk_operations/utils.py:99-106 | an entry has a cell for exactly the assessments with a row of its key, built from the last such row (value, person, assessment id, CAD id, options) |
| BulkMatrixProperties.PrepareAssessments | src/ggrc/views/bulk_operations/utils.py:134-139 | one assessment summary per row, in row order |
| BulkMatrixProperties.MergeAcrossCadIds | src/ggrc/views/bulk_operations/utils.py:48-62 | two definitions differing only in CAD id share one entry with a cell per assessment |
| BulkMatrixProperties.SplitOnMandatory | src/ggrc/views/bulk_operations/utils.py:48-62 | definitions differing in the mandatory flag get separate entries |
| BulkOperations.BulkComplete | src/ggrc/views/bulk_operations/bulk_operations.py:85-118 | the task runs phase 1 on the attribute update and phase 2 on the completion CSV of the slugs that did not fail, for some `cav_keys` listing each title once; it fails before any import exactly when a comment object of the request lacks `description` |
| BulkOperations.BulkVerify | src/ggrc/views/bulk_operations/bulk_operations.py:123-156 | one verify import, with the bulk-verify messages exactly when the task name contains "bulk_verify"; failures as update errors, no partial errors |
| BulkOperations.BulkCavsSave | src/ggrc/views/bulk_operations/bulk_operations.py:161-187 | one attribute import; the notification carries the ids of the built stubs; it fails before the import exactly when a comment object of the request lacks `description` |
| BulkOperations.RunBulkComplete | src/ggrc/views/bulk_operations/bulk_operations.py:192-216 | 401 exactly when the request carries files and Drive authorisation fails; otherwise the task, with credentials only when there are files |
| BulkOperations.CompleteRunPhases | src/ggrc/views/bulk_operations/bulk_operations.py:90-116 | the run fails exactly when some comment has no `description`; otherwise phase 2 runs exactly when some stub's slug did not fail phase 1 and imports only such slugs; otherwise partial errors are empty; the notification gets phase-1 failures, phase-2 failures and `assessments_ids` |
| BulkOperations.VerifyRunSpec | src/ggrc/views/bulk_operations/bulk_operations.py:126-154 | the verify run imports once, with an empty CSV exactly when none of the ids is stored |
| BulkOperations.QueuedVerifyTaskGetsMessages | src/ggrc/views/bulk_operations/bulk_operations.py:139-144 | a task named `<id>_bulk_verify` passes the bulk-verify messages |
| BulkOperations.CavsSaveReportsEntryIds | src/ggrc/views/bulk_operations/bulk_operations.py:181-185 | a successful attribute save reports the ids of the `attributes` entries, not `assessments_ids` |
| BulkOperations.DetectFilesAsWrittenFailsWithoutFiles | src/ggrc/views/bulk_operations/bulk_operations.py:63-66 | as written, a request with entries and no files fails on the missing `extra` key |
| BulkOperations.DetectFilesWithFile | src/ggrc/views/bulk_operations/bulk_operations.py:63-66 | a request with a file: as written it fails; corrected, it is detected and needs Drive authorisation |
| Validators.NameError | src/ggrc/utils/validators.py:73-92 | after strip and lower-casing, a name is refused exactly when it contains "*", starts with "map:" or "unmap:", or is "delete" |
| Validators.LowerIdempotent | src/ggrc/utils/validators.py:75 | lower-casing twice is lower-casing once |
| Validators.StripNoEdgeSpace | src/ggrc/utils/validators.py:75 | a text without Unicode white space (Python 2 `isspace`) at either end is its own strip |
| Validators.NormalizeIdempotent | src/ggrc/utils/validators.py:75 | a normalised name normalises to itself |
| Validators.NameErrorOfNormalized | src/ggrc/utils/validators.py:73-92 | a name and its normal form get the same verdict |
| Validators.PaddedDeleteNormalizes | src/ggrc/utils/validators.py:75 | " Delete " normalises to "delete" |
| Validators.PaddedDeleteRejected | src/ggrc/utils/validators.py:88-92 | " Delete " is refused as a reserved word |
| Validators.UnicodePaddedDeleteRejected | src/ggrc/utils/validators.py:75-92 | "delete" between a no-break space and an ideographic space is refused too: strip removes Unicode white space |
| Validators.RestrictedUpdateSpec | src/ggrc/utils/validators.py:95-110 | a request without the attribute raises KeyError, and one whose initial state lacks it raises AttributeError, in that order; otherwise for a non-external user the attribute ends at its initial value, the external app's data and every other key are untouched, and applying it again changes nothing |
| Validators.RequestData.constructor | src/ggrc/utils/validators.py:95-102 | the request data holds the given map |
| Validators.RequestData.ValidateCadAttrsUpdate | src/ggrc/utils/validators.py:105-110 | the request data is rewritten in place as `RestrictedUpdate` says, or left as it was when that raises, with the error returned |
| Validators.SyncGuard | src/ggrc/utils/validators.py:30-70 | Forbidden exactly for a logged-in user who is not the external app on a Synchronizable model; nobody or the anonymous user passes |
| AssessmentRules.ValidateStatus | src/ggrc/models/assessment.py:495-508 | the mixin's verdict stands unless the assessment leaves "Rework Needed" for a state other than In Review, Completed or Deprecated without the skip flag; a same-value set always passes |
| AssessmentRules.SkipFlagOnlyForRework | src/ggrc/models/assessment.py:499-508 | outside "Rework Needed" the skip flag changes nothing |
| AssessmentRules.ReworkToInProgressRefused | src/ggrc/models/assessment.py:501-507 | Rework Needed to In Progress is refused, unless the rework check is skipped |
| AssessmentRules.ValidateConclusion | src/ggrc/models/assessment.py:510-520 | a conclusion is kept exactly when it is one of the four valid ones, otherwise "" |
| AssessmentRules.ConclusionIdempotent | src/ggrc/models/assessment.py:510-520 | validating a stored conclusion again leaves it |
| AssessmentRules.ValidateAssessmentType | src/ggrc/models/assessment.py:522-532 | an empty type or a snapshotable type is accepted unchanged; any other is refused |
| AssessmentRules.Sox302Status | src/ggrc/models/assessment.py:381-435 | the status moves to Completed exactly when the workflow is SOX302, the status just changed to In Review and no value is negative; otherwise it stays |
| AssessmentRules.Sox302StatusStable | src/ggrc/models/assessment.py:408-435 | running the flow again changes nothing more |
| AssessmentRules.LevelRange | src/ggrc/models/assessment.py:546 | `range(1, n + 1)`: n numbers, the i-th being i + 1, none for n <= 0 |
| AssessmentRules.NewLevelNumbers | src/ggrc/models/assessment.py:534-554 | no levels when some exist or the workflow is not MLV; otherwise 1..count, failing without a count |
| AssessmentRules.Assessment.constructor | src/ggrc/models/assessment.py:90-140 | a new assessment has its identity and workflow fields and no review levels |
| AssessmentRules.Assessment.ExecSox302StatusFlow | src/ggrc/models/assessment.py:408-435 | the status becomes `Sox302Status` of the old one; nothing else changes |
| AssessmentRules.Assessment.CreateReviewLevels | src/ggrc/models/assessment.py:534-554 | adds one fresh "Not Started" level per new level number, in order, for this assessment and context; nothing on failure |
| ReviewLevels.UpdatedFromDict | src/ggrc/models/review_level.py:64-78 | status, completion time and verifier take the request's value exactly when their key is present; assessment and level number never change |
| ReviewLevels.UpdateIdempotent | src/ggrc/models/review_level.py:72-78 | applying a request twice equals applying it once |
| ReviewLevels.UpdateIgnoresOtherKeys | src/ggrc/models/review_level.py:72-78 | keys other than the three, such as `users`, have no effect |
| ReviewLevels.ReviewLevel.constructor | src/ggrc/models/review_level.py:45-49 | a new level is "Not Started" with no completion time and no verifier |
| ReviewLevels.ReviewLevel.SetAttribute | src/ggrc/models/review_level.py:78 | `setattr` changes just the named updatable column |
| ReviewLevels.ReviewLevel.UpdateFromDict | src/ggrc/models/review_level.py:64-78 | the level's columns become `UpdatedFromDict` of the old ones |
| ReviewLevels.FindAndUpdate | src/ggrc/models/review_level.py:80-92 | the level stored under `d["id"]` is updated and no other changes; a missing id or level fails |
| Reviews.Unreviewed | src/ggrc/models/review.py:191-213 | the status becomes Unreviewed; a status-unreviewed notification is added exactly for an email review of a non-synchronised object |
| Reviews.ChangedKeysSpec | src/ggrc/models/review.py:34-42 | a key is recorded as changed exactly when some changed attribute has it, a recipients change counting only when its ordered text changed |
| Reviews.AfterAttrEdit | src/ggrc/models/review.py:149-170 | an attribute edit resets the review (status Unreviewed plus its e-mail notification, as `Unreviewed`) exactly when it was not Unreviewed and a recorded change is outside the ignored attributes; otherwise the review is unchanged |
| Reviews.IgnoredEditsKeepReview | src/ggrc/models/review.py:149-150 | edits of ignored attributes only keep the review as it is |
| Reviews.AfterMapping | src/ggrc/models/review.py:202-218 | a mapping change resets the review (as `Unreviewed`, with its notification) exactly when it was not Unreviewed and the counterparty is snapshottable; otherwise the review is unchanged |
| Reviews.Review.constructor | src/ggrc/models/review.py:239-304 | a new review has its status, notification type, issue and roles, and no notifications |
| Reviews.Reviewable.constructor | src/ggrc/models/review.py:45-60 | a reviewable with its review, or none |
| Reviews.Reviewable.ReviewStatus | src/ggrc/models/review.py:73-75 | the review's status, or Unreviewed without a review |
| Reviews.Reviewable.Reviewers | src/ggrc/models/review.py:77-82 | the review's Reviewers, or nobody without a review |
| Reviews.Reviewable.ReviewIssueLink | src/ggrc/models/review.py:84-94 | a link only when a review, its tracker issue and the issue-tracker notification type are all present, and then the issue's URL |
| Reviews.Reviewable.AddEmailNotification | src/ggrc/models/review.py:191-200 | a status-unreviewed notification is added exactly for a non-synchronised object whose review notifies by email |
| Reviews.Reviewable.SetReviewStatusUnreviewed | src/ggrc/models/review.py:208-212 | the review's state becomes `Unreviewed` of the old one |
| Reviews.Reviewable.UpdateStatusOnAttr | src/ggrc/models/review.py:156-170 | the review's state becomes `AfterAttrEdit` of the old one |
| Reviews.Reviewable.UpdateStatusOnMapping | src/ggrc/models/review.py:202-206 | the review's state becomes `AfterMapping` of the old one |
| Reviews.MissedMandatoryRoles | src/ggrc/models/review.py:309-312 | exactly the mandatory role ids that no access-control entry assigns |
| Reviews.ValidateAcl | src/ggrc/models/review.py:306-316 | an error exactly when some mandatory review role is missing |
| Reviews.ValidateReviewableType | src/ggrc/models/review.py:397-409 | a known non-synchronised model type is accepted unchanged; a synchronised or unknown one is refused |
| ColumnHandlers.AggregateColumnHandlers | src/ggrc/converters/column_handlers.py:155-170 | the defaults overlaid with the model's handlers: specific keys win, other keys keep their default, no handlers gives the defaults, the defaults are not changed |
| Converters.SharedTablesDisjoint | src/ggrc/converters/__init__.py:31-35 | the two shared groups have no table in common |
| Converters.GetSharedUniqueRules | src/ggrc/converters/__init__.py:25-41 | every table of System/Process and Policy/Regulation/Standard/Contract maps to its whole group, only those have rules, and each rule contains its table |
| Converters.GroupRules | src/ggrc/converters/__init__.py:36-39 | for disjoint groups, each table maps to its group and each rule contains its table |
| Converters.MergeContributions | src/ggrc/converters/__init__.py:102-116 | the merged contributions name exactly the keys some extension contributes |
| Converters.MergeContributionsLastWins | src/ggrc/converters/__init__.py:109-116 | a merged key holds the value of the last contribution that defines it |
| Converters.GetTypes | src/ggrc/converters/__init__.py:109-116 | the loop merges the contributions in module order, later wins |
| Converters.Registry.constructor | src/ggrc/converters/__init__.py:44-99 | the registries start as the importable, exportable and "lca comment" dictionaries |
| Converters.Registry.GetImportablesExportables | src/ggrc/converters/__init__.py:119-123 | the importable dictionary is extended in place with the contributed importables and returned |
| Converters.Registry.GetImportables | src/ggrc/converters/__init__.py:126-130 | the importable-only dictionary is extended in place with every importable and returned |
| Converters.Registry.GetImportablesVisible | src/ggrc/converters/__init__.py:133-136 | the importables without the import-only names |
| Converters.Registry.GetExportables | src/ggrc/converters/__init__.py:139-144 | the exportable dictionary is extended in place with every importable and contributed exportable and returned |
| Converters.ImportablesCover | src/ggrc/converters/__init__.py:97-130 | `get_importables` offers "lca comment", every importable and every contributed importable |
| Converters.ExportablesCover | src/ggrc/converters/__init__.py:139-144 | `get_exportables` offers every exportable, every importable and every contribution |
| Converters.ImportablesRepeatable | src/ggrc/converters/__init__.py:119-130 | asking again with the same contributions gives the same answer, although the dictionaries were changed in place |
| ModelUtils.ValidateOption | src/ggrc/models/utils.py:12-19 | an absent option, or one of the desired role, is returned unchanged; another role is refused |
| ModelUtils.PolymorphicHolder.constructor | src/ggrc/models/utils.py:26-29 | a holder starts with no id, no type and no backrefs |
| ModelUtils.PolymorphicHolder.Set | src/ggrc/models/utils.py:49-57 | None clears the id and type columns; an object stores its id, its class name and itself under the backref named after its class |
| ModelUtils.JsonPolymorphicCall | src/ggrc/models/utils.py:68-84 | with a required type, an absent or foreign object is refused; otherwise the referenced object is returned; no holding attribute gives None |
| Policies.ValidateKind | src/ggrc/models/policy.py:76-99 | an absent or empty kind is stored as absent, a valid kind unchanged, any other is refused |
| Policies.ValidateKindIdempotent | src/ggrc/models/policy.py:93-99 | validating an accepted kind again gives the same result |
| SoxNotifications.Timedelta | src/ggrc/sox/notifications/notification_types.py:19-31 | before-1, -3 and -7 are -1, -3 and -7 days, today is 0, expiration (the fall-through) +1 |
| SoxNotifications.TypesDistinct | src/ggrc/sox/notifications/notification_types.py:11-17 | exactly five members, each listed once, with distinct values |
| SoxNotifications.CreateSoxNotification | src/ggrc/sox/notifications/utils.py:14-34 | the record for the object, type, send date and current user |
| SoxNotifications.ExpirationNameOnly | src/ggrc/sox/notifications/utils.py:25-26 | only the expiration type carries the expiration name |
| SoxNotifications.OnlyExpirationRepeats | src/ggrc/sox/notifications/utils.py:25-26 | a notification repeats exactly when its type is the expiration notice |
| SoxNotifications.CreatedTypes | src/ggrc/sox/notifications/utils.py:41-47 | a type is created exactly when its send date is after today or it is the expiration notice |
| SoxNotifications.ExpirationAlwaysCreated | src/ggrc/sox/notifications/utils.py:43-47 | the expiration notice is always created, so every call adds at least one |
| SoxNotifications.CreatedTypesUnfolded | src/ggrc/sox/notifications/utils.py:37-47 | the created types written out member by member from the due date and today, in the enumeration's iteration order under Python 2 (by value, so expiration before today) |
| SoxNotifications.CountsByDueDateOffset | test/integration/ggrc/sox/test_hooks.py:91-178 | due dates 0, 1, 3, 4 and 8 days ahead give 1, 2, 3, 4 and 5 notifications |
| SoxNotifications.NotificationsForSpec | src/ggrc/sox/notifications/utils.py:41-47 | one notification per type, sent `Timedelta` days from the due date |
| SoxNotifications.CreateSoxNotifications | src/ggrc/sox/notifications/utils.py:37-47 | the notifications added are those of the created types, in the order Python 2 iterates the enumeration: by value, so before-1, before-3, before-7, expiration, today |
| SoxNotifications.AddNotifications | src/ggrc/sox/notifications/utils.py:41-47 | the loop adds one notification per created type, in order |
| GgrcqUtils.UrlBase | src/ggrc-client/js/plugins/utils/ggrcq-utils.js:64-70 | the integration URL with exactly one trailing slash |
| GgrcqUtils.PathPart | src/ggrc-client/js/plugins/utils/ggrcq-utils.js:72 | the lower-cased path, or nothing |
| GgrcqUtils.ModelPart | src/ggrc-client/js/plugins/utils/ggrcq-utils.js:74-79 | `/model=slug`, lower-cased, exactly when both are given |
| GgrcqUtils.Segment | src/ggrc-client/js/plugins/utils/ggrcq-utils.js:81-82 | the separator and the part (`/view`, `?params`) exactly when the part is given, else nothing |
| GgrcqUtils.GetUrlShape | src/ggrc-client/js/plugins/utils/ggrcq-utils.js:63-85 | no link without an integration URL; otherwise the base with one slash, then path, model segment, view and parameters, in that order |
| GgrcqUtils.ImportUrl | src/ggrc-client/js/plugins/utils/ggrcq-utils.js:149-153 | the import link is the base followed by "import" |
| GgrcqUtils.IsMappableExternallySymmetric | src/ggrc-client/js/plugins/utils/ggrcq-utils.js:44-51 | external mappability is symmetric in source and destination |
| GgrcqUtils.GetUrlModelAndPath | src/ggrc-client/js/plugins/utils/ggrcq-utils.js:325-331 | external directives use "directives" and "directive", other types their table names |
| GgrcqUtils.CreateObjectTarget | src/ggrc-client/js/plugins/utils/ggrcq-utils.js:273-287 | a directive's names win over the scope path, which wins over the table name |
| GgrcqUtils.CreateObjectUrlUnfold | src/ggrc-client/js/plugins/utils/ggrcq-utils.js:288-291 | the creation link is `getUrl` of the target path with `create=<object>` |
| GgrcqUtils.CreateParamsText | src/ggrc-client/js/plugins/utils/ggrcq-utils.js:290 | the creation parameters read `?create=<object>` after the path |
| GgrcqUtils.CreateObjectUrlShape | src/ggrc-client/js/plugins/utils/ggrcq-utils.js:273-292 | a creation link has no model segment or view and ends with `?create=<object>` |
| GgrcqUtils.MapSource | src/ggrc-client/js/plugins/utils/ggrcq-utils.js:205-215 | scoping sources use "questionnaires" and their singular table, directives "directives"/"directive", business objects their own plural and singular tables; anything else has no link |
| GgrcqUtils.MapView | src/ggrc-client/js/plugins/utils/ggrcq-utils.js:217-225 | directive destinations use "directives", scoping ones "scope", business ones their plural table; anything else has no link |
| GgrcqUtils.MapParams | src/ggrc-client/js/plugins/utils/ggrcq-utils.js:227-233 | the statuses, with `&types=` and the destination's table unless it is an external business object |
| GgrcqUtils.GetMapUrl | src/ggrc-client/js/plugins/utils/ggrcq-utils.js:192-242 | no link when either side cannot be mapped externally; otherwise `getUrl` of the source's path and model with the destination's view and the mapping parameters |
| GgrcqUtils.MapParamsText | src/ggrc-client/js/plugins/utils/ggrcq-utils.js:232-233 | the mapping parameters read `?mappingStatus=<statuses>` and the type suffix |
| GgrcqUtils.MapUrlParams | src/ggrc-client/js/plugins/utils/ggrcq-utils.js:227-241 | every mapping link ends with `?mappingStatus=<statuses>`, then `&types=<table>` unless the destination is an external business object |
| VerificationFlow.GetAssessmentFlows | src/ggrc-client/js/plugins/utils/verification-flow-utils.js:9-17 | the values of the flow table, in key order |
| VerificationFlow.FlowsPartition | src/ggrc-client/js/plugins/utils/verification-flow-utils.js:9-30 | the flows are STANDARD, SOX302 and MLV; at most one flow predicate holds, exactly one for a listed workflow |
| VerificationFlow.FindLevel | src/ggrc-client/js/plugins/utils/verification-flow-utils.js:44-47 | lodash `find`: the first level satisfying the test, undefined exactly when none does |
| VerificationFlow.InReviewLevels | src/ggrc-client/js/plugins/utils/verification-flow-utils.js:37-38 | the levels in review, and only those |
| VerificationFlow.InReviewLevelIsFirst | src/ggrc-client/js/plugins/utils/verification-flow-utils.js:36-40 | `getInReviewLevel` finds the first level "In Review", or undefined when there is none |
| VerificationFlow.GetReviewLevelByNumber | src/ggrc-client/js/plugins/utils/verification-flow-utils.js:42-50 | the first level with the number, undefined exactly when none has it |
| MultiLevelVerification.GetVerifiersStaticFields | src/ggrc-client/js/models/mixins/multi-level-verification.js:41-55 | ten columns; the i-th is "Verifiers level i", named `verifiers_level_i`, level i, type Person, unsortable |
| MultiLevelVerification.GetReviewLevelsStaticFields | src/ggrc-client/js/models/mixins/multi-level-verification.js:57-71 | ten columns; the i-th is "Review level i state", named `review_level_i`, level i, type String, unsortable |
| MultiLevelVerification.NumberedNamesDiffer | src/ggrc-client/js/models/mixins/multi-level-verification.js:47 | names with one prefix and different level numbers differ |
| MultiLevelVerification.StaticFieldNamesDistinct | src/ggrc-client/js/models/mixins/multi-level-verification.js:41-71 | every column the mixin adds has its own name |
| MultiLevelVerification.ClientAssessment.constructor | src/ggrc-client/js/models/mixins/multi-level-verification.js:13 | a cached assessment with its id, workflow and levels |
| MultiLevelVerification.ClientAssessment.CleanUpVerifiers | src/ggrc-client/js/models/mixins/multi-level-verification.js:14-36 | outside MLV the resource passes and nothing changes; without a resource or model class the own levels are emptied; otherwise the cached object the resource names has its levels emptied |
| VerifiersGroup.FindIndex | src/ggrc-client/js/components/assessment/assessment-verifiers/assessment-verifiers-group.js:88-92 | the index of the first person with the id, or -1 exactly when nobody has it |
| VerifiersGroup.CutOne | src/ggrc-client/js/components/assessment/assessment-verifiers/assessment-verifiers-group.js:39 | cutting one entry out keeps the other entries |
| VerifiersGroup.RemovePresent | src/ggrc-client/js/components/assessment/assessment-verifiers/assessment-verifiers-group.js:34-39 | removing a listed person takes out exactly their first entry and keeps the rest in order |
| VerifiersGroup.RemoveAbsentDropsLast | src/ggrc-client/js/components/assessment/assessment-verifiers/assessment-verifiers-group.js:37-39 | removing an unlisted person drops the last person |
| VerifiersGroup.SelectIdempotent | src/ggrc-client/js/components/assessment/assessment-verifiers/assessment-verifiers-group.js:45-53 | selecting a listed person changes nothing; selecting twice is selecting once |
| VerifiersGroup.SelectThenRemove | src/ggrc-client/js/components/assessment/assessment-verifiers/assessment-verifiers-group.js:34-53 | selecting a new person and removing them gives back the list |
| VerifiersGroup.UniqueIdsPreserved | src/ggrc-client/js/components/assessment/assessment-verifiers/assessment-verifiers-group.js:34-53 | selecting and removing keep ids unique, and a removed person is gone |
| VerifiersGroup.VerifiersGroupViewModel.constructor | src/ggrc-client/js/components/assessment/assessment-verifiers/assessment-verifiers-group.js:13-33 | the defaults; with neither id set the new group counts as loading and cannot be edited |
| VerifiersGroup.VerifiersGroupViewModel.PersonIndexById | src/ggrc-client/js/components/assessment/assessment-verifiers/assessment-verifiers-group.js:88-92 | the people's `FindIndex` |
| VerifiersGroup.VerifiersGroupViewModel.SaveChanges | src/ggrc-client/js/components/assessment/assessment-verifiers/assessment-verifiers-group.js:67-79 | nothing unless dirty; when dirty the flag is cleared and `saveVerifiers` is dispatched with the level number and people |
| VerifiersGroup.VerifiersGroupViewModel.RemovePerson | src/ggrc-client/js/components/assessment/assessment-verifiers/assessment-verifiers-group.js:34-44 | the person's entry is spliced out and the group is dirty, or saved at once with auto-update |
| VerifiersGroup.VerifiersGroupViewModel.PersonSelected | src/ggrc-client/js/components/assessment/assessment-verifiers/assessment-verifiers-group.js:45-58 | nothing for a listed id; otherwise the person is appended and the group is dirty, or saved at once with auto-update |
| VerifiersGroup.VerifiersGroupViewModel.BackUpPeople | src/ggrc-client/js/components/assessment/assessment-verifiers/assessment-verifiers-group.js:80-82 | the backup becomes the people |
| VerifiersGroup.VerifiersGroupViewModel.GetBackUpPeople | src/ggrc-client/js/components/assessment/assessment-verifiers/assessment-verifiers-group.js:83-87 | hands back the backup and empties it |
| VerifiersGroup.VerifiersGroupViewModel.ChangeEditableGroup | src/ggrc-client/js/components/assessment/assessment-verifiers/assessment-verifiers-group.js:59-66 | entering edit mode snapshots the people; leaving restores the snapshot, empties it and clears the dirty flag |
| VerifiersGroup.VerifiersGroupViewModel.Inserted | src/ggrc-client/js/components/assessment/assessment-verifiers/assessment-verifiers-group.js:94-97 | the group starts with a snapshot of its people |
| AssessmentVerifiers.InsertByLevel | src/ggrc-client/js/components/assessment/assessment-verifiers/assessment-verifiers.js:19-22 | inserting a level adds exactly that level |
| AssessmentVerifiers.SortedCons | src/ggrc-client/js/components/assessment/assessment-verifiers/assessment-verifiers.js:19-22 | a level numbered below a sorted list can head it |
| AssessmentVerifiers.InsertKeepsSorted | src/ggrc-client/js/components/assessment/assessment-verifiers/assessment-verifiers.js:19-22 | insertion keeps the levels sorted by number |
| AssessmentVerifiers.SortByLevel | src/ggrc-client/js/components/assessment/assessment-verifiers/assessment-verifiers.js:19-22 | the levels sorted by ascending level number, a permutation of the input |
| AssessmentVerifiers.GroupOf | src/ggrc-client/js/components/assessment/assessment-verifiers/assessment-verifiers.js:24-34 | a group copies the level's number, users, verifier, completion and status, titled "Verifiers <ordinal> level" |
| AssessmentVerifiers.GroupsOf | src/ggrc-client/js/components/assessment/assessment-verifiers/assessment-verifiers.js:24-35 | one group per level, in the order given |
| AssessmentVerifiers.BuildVerifiersGroups | src/ggrc-client/js/components/assessment/assessment-verifiers/assessment-verifiers.js:18-38 | one group per level, in ascending level-number order |
| AssessmentVerifiers.GroupsCoverLevels | src/ggrc-client/js/components/assessment/assessment-verifiers/assessment-verifiers.js:18-38 | every level has its group among those shown |
| AssessmentVerifiers.AssessmentVerifiersViewModel.constructor | src/ggrc-client/js/components/assessment/assessment-verifiers/assessment-verifiers.js:14-16 | the panel starts with its assessment's levels and no groups |
| AssessmentVerifiers.AssessmentVerifiersViewModel.BuildVerifiersGroupsEvent | src/ggrc-client/js/components/assessment/assessment-verifiers/assessment-verifiers.js:40-55 | the groups shown become `BuildVerifiersGroups` of the levels |
| RoleAttrNames.RolesFor | src/ggrc-client/js/components/redirects/role-attr-names-provider/role-attr-names-provider.js:8-34 | Control and Risk use their own tables, every other type the defaults |
| RoleAttrNames.LinkAttrName | src/ggrc-client/js/components/redirects/role-attr-names-provider/role-attr-names-provider.js:31-37 | the role's name in the chosen table, undefined exactly when the table lacks the role |
| RoleAttrNames.AdminIsOwner | src/ggrc-client/js/components/redirects/role-attr-names-provider/role-attr-names-provider.js:10-23 | Admin is "owner" for every type |
| RoleAttrNames.NoFallbackToDefaults | src/ggrc-client/js/components/redirects/role-attr-names-provider/role-attr-names-provider.js:15-35 | Control and Risk have no "Primary Contacts" and do not fall back to the defaults; "Other Contacts" is "other_contact" for both |

## Left out

- BulkOperations.BulkComplete, BulkOperations.BulkCavsSave and CsvBuilder.MatrixCsvBuilder.AttributesUpdateToCsv assume a well-formed request apart from comments. The one malformation modelled is a comment without `description`, which raises. The request is assumed to meet these conditions:
  - every value carries an `extra` key (a missing one raises KeyError at csvbuilder.py:221);
  - `urls` and `files` are never `null` (either raises TypeError at csvbuilder.py:223-228);
  - every file has a `source_gdrive_id`;
  - values are `null`, strings or integers; JSON booleans and floats are not represented;
  - a comment's `description` is a string: a comment is a map from text to text, so a JSON `null` description, which the source passes through to the LCA row at csvbuilder.py:289-293, is not represented.
- Validators.NameError lower-cases ASCII letters only. Python 2's `lower()` maps other letters too, but none of them to an ASCII letter of "delete", "map:" or "unmap:". Only U+0130 and U+212A lower-case to ASCII, giving "i" and "k". So the verdict is the same; the normalised text is not.
- GgrcqUtils.ModelPart lower-cases ASCII letters only, where `toLowerCase` also lower-cases non-ASCII model names and slugs (for example Cyrillic).
- GgrcqUtils.PathPart lower-cases ASCII letters only, like GgrcqUtils.ModelPart; the paths it receives are table names, which are ASCII.

- The database, sessions, Flask routing, background-task creation, logging and benchmarking are not modelled. Queries are input sequences or maps, `make_import` is a function from an import call to failed slugs, and `send_notification` is a returned record.
- Drive authorisation (`gdrive.get_http_auth`) is a boolean input, and the session's credentials are a string input.
- The import engine's handling of the CSV blocks is not modelled; only the blocks handed to it are.
- The wall-clock date is a parameter: the verify date arrives already formatted, and SOX dates are day numbers.
- `_log_import`, `bulk_cavs_search` and the other endpoints of bulk_operations.py only log or route, and are not modelled.
- The PeopleCache keys are the integer Map:Person values; a person value of another JSON type finds no person.
- `_has_negative_cavs` and the Verifiers lookup are boolean inputs, because they are database queries.
- `statusable.py` and `assessment_template.py` are not part of this model. Their constants (In Review, Completed, Deprecated, SOX302, MLV) are written out.
- `Assessment.CreateReviewLevels` returns the new levels and stores them on the assessment instead of adding them to a session and committing.
- `Reviews.ValidateAcl` does not list the missing role ids in its message.
- `_update_status_on_custom_attrs`, the other `handle_*` hooks and `Review.handle_post`/`handle_put` are not modelled. They read attribute history or create comments and relationships.
- `handle_recipients_attr` is folded into the `orderedStringChanged` flag of a changed attribute.
- `SoxNotifications.CreateSoxNotification` stores the notification type, not the id looked up by its name; `ExpirationNameOnly` shows that the name identifies the type.
- `modified_only` in validators.py is a decorator over the session's change tracking and is not modelled.
- `PolymorphicRelationship.__get__` loads the related object lazily from the database and is not modelled. `FasadeProperty` and `person_relationship` are not modelled either.
- `ModelUtils.JsonPolymorphicCall` takes the JSON reference as a (type, id) pair; a body missing `type` or `id` is not modelled.
- `Converters.MergeContributions` treats an extension's contribution as a map; the distinction between a callable and a dict is not modelled.
- `get_jobs_to_register` in converters/__init__.py is not modelled, because it only reads a module attribute.
- `AssessmentVerifiers.SortByLevel` does not state the stability of lodash `sortBy` for equal level numbers.
- `getOrdinalNumber` is a function parameter, and the model-type collections are a parameter record.
- Lookups of JavaScript prototype keys such as "constructor" in `roleToLinkMap` are not modelled.
- `getFlowDisplayName`, `hasQuestions`, `isChangeableExternally` and the fixed-argument link helpers are not modelled. Those helpers are `getQuestionsUrl`, `getInfoUrl`, `getCommentFormUrl`, `getReviewUrl`, `getProposalsUrl`, `getChangeLogUrl`, `getMappingUrl`, `getUnmappingUrl` and `getProposalAttrUrl`; each only calls `getUrl` or `getMapUrl` with constants.
- `object_from_resource` and `findInCacheById` are parameters of `CleanUpVerifiers`.
- CanJS observable semantics (events on attribute change, `serialize` copies) are not modelled: the view models are plain classes whose methods change fields.
- The loops of `_collect_attributes` and `_build_lca_block` are split into helper methods (`CollectValues`, `AppendLcaRows`, `AppendCommentRows`) with their own contracts; their behaviour is that of the nested loops.

## Findings

| source | as written | input that shows it | evidently intended | confidence | as-written member | corrected member |
|---|---|---|---|---|---|---|
| src/ggrc/views/bulk_operations/bulk_operations.py:63-66 | `_detect_files` reads `extra` from each `attributes` entry, but an entry holds only `assessment` and `values`; `extra` belongs to each value, so any request with entries raises KeyError | the request of test/integration/ggrc/bulk_operations/test_bulk_operations.py:33-43 (two entries, no values), which the test expects to succeed | files are detected when some value has a truthy `extra` with a non-empty `files` list, and Drive authorisation is asked only then | medium, not executed | BulkOperations.DetectFilesAsWritten (shown by BulkOperations.DetectFilesAsWrittenFailsWithoutFiles) | BulkOperations.DetectFiles (used by BulkOperations.RunBulkComplete) |
