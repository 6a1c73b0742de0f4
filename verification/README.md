# Aware material tracking: a Dafny model of the submission and batch core

The Aware platform lets producers submit material-tracking records and shows and
builds blockchain batches. This project models the sequential logic behind it, in
four parts, and proves what each part promises:

- **The submission record** (`form_data.dfy`, module `Submission`). It covers three
  things:
  - `FormData`'s constructor, which normalises the submitted object with `||`
    defaults;
  - `validate()`, which runs eleven checks in a fixed order and pushes one fixed
    message for each failed check;
  - `toSpreadsheetRow()`, which flattens the record into 28 named columns.
- **The spreadsheet store** (`spreadsheet_storage.dfy`, module `Storage`).
  `SpreadsheetStorage` keeps a workbook of three sheets: Submissions, Materials and
  Validation Sources. The model covers:
  - saving a submission, which appends rows (a header only when a sheet is empty,
    one row per material, one numbered row per validation source);
  - the workbook cache, which is valid while the file's modification time is
    unchanged and is dropped on every save;
  - the lookups by id and by criteria.
- **The batch list** (`batches.dfy`, module `Batches`). It covers:
  - the status and role label tables;
  - the case-insensitive search over five fields;
  - the status filter;
  - `sortBatches`, which sorts a copy of the list.
- **The client library** (`aware_sdk.dfy`, module `Sdk`). It covers:
  - the `AwareSDK` constructor's URL and option handling;
  - the request body of `submitBatch`;
  - the two builders, `SubmissionBuilder` and `BatchBuilder`, whose setters update
    their sections in place.

Shared definitions are in three modules:

- `Values` holds JavaScript values, truthiness, `===` and `||`.
- `Strings` holds `toLowerCase` (for the capitals of Basic Latin, Latin-1, Latin
  Extended-A, Latin Extended Additional and Cyrillic, and most of Latin Extended-B
  and Greek; see "## Left out"), `includes`, `parseInt` and `String(n)`.
- `Seqs` holds `filter` and `map` over immutable lists.

The model takes the source's own form:

- The record and the filters are datatypes and functions.
- `validate()` is a method that pushes message by message.
- The store, the workbook, the API client and the builders are classes whose
  methods update their fields.
- The row appends are loops over the materials and sources.
- The sort copies the list into a new array and sorts that array in place.

Each method is proved against a function that specifies it. That function's own
properties are proved as lemmas: a rule-table reading of `validate()`, a
subsequence or multiset reading of the filters, and read-back by id after a save.

Inputs the code receives from outside are parameters:

- the current time (`now`);
- the file's modification time;
- `JSON.stringify` (`stringify`, left unspecified, so every statement holds for any
  such function);
- whether the server accepted a login.

## Model

| member | source | states |
|---|---|---|
| `Values.YesNo` | aware-platform/src/models/FormData.js:170-174 | A flag is written as exactly 'Yes' or 'No', and as 'Yes' exactly when it is truthy. |
| `Submission.FromInput` | aware-platform/src/models/FormData.js:7-118 | The constructor keeps a truthy submission date and otherwise uses the current time. Missing materials become the empty list, missing certificates three empty lists, and selfValidation is carried over. |
| `Submission.FromInputNullable` | aware-platform/src/models/FormData.js:9-101 | Every scalar property defaulting to null keeps a truthy input value, and is null for a falsy or missing one (0, '', false, undefined). |
| `Submission.FromInputFlag` | aware-platform/src/models/FormData.js:29-102 | Each of the seven boolean flags keeps a truthy input value and is false otherwise. |
| `Submission.FromInputNormalised` | aware-platform/src/models/FormData.js:7-118 | Every constructed record is normalised: no nullable property holds a falsy value other than null, no flag a falsy value other than false, and the submission date is set. |
| `Submission.GivenRequiredComplete` | aware-platform/src/models/FormData.js:126-145 | Suppose the object passed to the constructor gives every required property a truthy value, has at least one material, and has a tracer type whenever it declares a tracer. Then the record passes every check. |
| `Submission.ValidationErrorsFilter` | aware-platform/src/models/FormData.js:124-145 | The checks pushed one after another give exactly the messages of the violated rules, taken from the eleven-rule table in table order. |
| `Submission.PushIf` | aware-platform/src/models/FormData.js:126-145 | One check appends its message exactly when it fails and otherwise leaves the list as it was. |
| `Submission.Validate` | aware-platform/src/models/FormData.js:123-151 | validate() returns the messages of the violated rules in check order; isValid holds iff the list is empty, iff the record is complete. |
| `Submission.MessagesDistinct` | aware-platform/src/models/FormData.js:126-144 | The eleven messages are pairwise distinct, so each message names one check. |
| `Submission.ErrorsInCheckOrder` | aware-platform/src/models/FormData.js:124-145 | The reported rules are a subsequence of the check order, and there are at most 11 errors. |
| `Submission.ErrorReportedIffViolated` | aware-platform/src/models/FormData.js:126-145 | A message is reported exactly when its rule is violated. This covers the eight required fields, the empty materials list, a missing tracer type only when a tracer is added, and a missing validation method. |
| `Submission.NoErrorsIffComplete` | aware-platform/src/models/FormData.js:124-150 | The error list is empty exactly when all required fields are truthy, there is a material, a tracer type is given whenever a tracer is added, and there is a validation method. |
| `Submission.ToSpreadsheetRow` | aware-platform/src/models/FormData.js:156-187 | The row has exactly 28 entries, and their keys are the fixed column names in the fixed order, whatever the record holds. |
| `Submission.SubmissionColumnsDistinct` | aware-platform/src/models/FormData.js:157-186 | The 28 column names are distinct, so the row object has 28 properties. |
| `Submission.RowIdAndFlags` | aware-platform/src/models/FormData.js:158-174 | The row starts with ('Submission ID', id). The sustainable-claims, wet-processing and tracer columns are 'Yes' or 'No', and 'Yes' exactly when the flag is truthy. |
| `Submission.RowNestedParts` | aware-platform/src/models/FormData.js:172-185 | The materials, self-validation and certificates columns hold the JSON text of those parts. |
| `Storage.Appended` | aware-platform/src/storage/SpreadsheetStorage.js:89-95 | An append keeps every existing row as it was. It puts the header first only when the sheet was empty, and places the new rows at the end. |
| `Storage.SubmissionValues` | aware-platform/src/storage/SpreadsheetStorage.js:87-95 | A submission's values row has 28 cells, the submission id first. |
| `Storage.SubmissionKeys` | aware-platform/src/storage/SpreadsheetStorage.js:87-91 | The keys of every record's row form the same header row: the 28 submission column names in order. |
| `Storage.MaterialRow` | aware-platform/src/storage/SpreadsheetStorage.js:124-133 | A material row has 8 cells: the submission id, then the material's composition and percentage, and 'Yes' or 'No' for sustainable ('Yes' exactly when truthy). The claim and feedstock cells are never null or undefined. |
| `Storage.MaterialRows` | aware-platform/src/storage/SpreadsheetStorage.js:123-134 | There is one row per material, in the materials' order. |
| `Storage.SourceRow` | aware-platform/src/storage/SpreadsheetStorage.js:171-189 | A source row has 17 cells: id, batch number, its number, and the JSON text of its certificates and other documents (an absent list is written as []). |
| `Storage.SourceRows` | aware-platform/src/storage/SpreadsheetStorage.js:170-190 | There is one row per source, in order, the i-th numbered first + i. |
| `Storage.SourcesNumbered` | aware-platform/src/storage/SpreadsheetStorage.js:170-190 | The sources of a submission are numbered 1 to n in order, each row as wide as the 17-column header. |
| `Storage.RecordOf` | aware-platform/src/storage/SpreadsheetStorage.js:205 | A record read back holds no null or undefined value. A filled first cell under a text header is stored under that header's name. |
| `Storage.RecordsOf` | aware-platform/src/storage/SpreadsheetStorage.js:205 | Reading rows gives at most one record per row, and no empty record. |
| `Storage.RecordsOfAppend` | aware-platform/src/storage/SpreadsheetStorage.js:205 | Records are read row by row: appending rows appends their records. |
| `Storage.FirstWithId` | aware-platform/src/storage/SpreadsheetStorage.js:213 | The position found is the first record with the id, or the end when no record has it. |
| `Storage.FindById` | aware-platform/src/storage/SpreadsheetStorage.js:211-214 | find gives nothing iff no record has the id; otherwise it gives the first record that has it. |
| `Storage.Search` | aware-platform/src/storage/SpreadsheetStorage.js:219-228 | A record is in the result iff it is a submission whose values strictly equal every criterion that is not null or undefined. |
| `Storage.SearchMultiplicity` | aware-platform/src/storage/SpreadsheetStorage.js:222-227 | The search keeps every copy of a matching submission and no copy of any other. |
| `Storage.SearchIsSubsequence` | aware-platform/src/storage/SpreadsheetStorage.js:222-227 | The search result keeps the submissions' order. |
| `Storage.SearchNullCriteria` | aware-platform/src/storage/SpreadsheetStorage.js:223-224 | Empty or all-null criteria return every submission, unchanged. |
| `Storage.SearchConjunctive` | aware-platform/src/storage/SpreadsheetStorage.js:222-227 | Searching by criteria on disjoint keys one after the other is one search by their union: the criteria are a conjunction. |
| `Storage.FindIsFirstOfSearch` | aware-platform/src/storage/SpreadsheetStorage.js:211-228 | Passing a filled id, getSubmission's result is the first result of searching by that id. |
| `Storage.AppendedRecords` | aware-platform/src/storage/SpreadsheetStorage.js:83-99 | Appending a row under the sheet's own header leaves the earlier records as they were and adds that row's record, if any, at the end. |
| `Storage.AppendedRowFound` | aware-platform/src/storage/SpreadsheetStorage.js:83-99 | A row whose first cell is a filled id, appended under a header starting with 'Submission ID', is found again by that id. |
| `Storage.SavedSubmissionFound` | aware-platform/src/storage/SpreadsheetStorage.js:211-214 | Once a submission with a filled primitive id has been added to the Submissions sheet, getSubmission finds it. |
| `Storage.Workbook.constructor` | aware-platform/src/storage/SpreadsheetStorage.js:40-45 | A new or read workbook holds the given three sheets. |
| `Storage.SpreadsheetStorage.constructor` | aware-platform/src/storage/SpreadsheetStorage.js:6-11 | A new store has no cached workbook and no recorded modification time. |
| `Storage.SpreadsheetStorage.LoadWorkbook` | aware-platform/src/storage/SpreadsheetStorage.js:23-46 | If the file exists and its mtime equals lastModified, the cached workbook is returned and nothing changes. Otherwise a new workbook is made and cached: a present file is read and its mtime recorded; a missing file gives empty sheets and leaves lastModified as it was. Loading never changes what the next load returns. |
| `Storage.SpreadsheetStorage.SaveWorkbook` | aware-platform/src/storage/SpreadsheetStorage.js:51-55 | The file then holds the workbook's sheets, and the cache and lastModified are reset. |
| `Storage.SpreadsheetStorage.SaveSubmission` | aware-platform/src/storage/SpreadsheetStorage.js:60-78 | The file then holds the loaded sheets with the submission appended, the sources sheet only for a self-validated submission. The cache is reset and the id is returned. |
| `Storage.SpreadsheetStorage.GetAllSubmissions` | aware-platform/src/storage/SpreadsheetStorage.js:198-206 | Returns nothing when there is no file, otherwise the records of the loaded Submissions sheet; what a load returns is unchanged. |
| `Storage.SpreadsheetStorage.GetSubmission` | aware-platform/src/storage/SpreadsheetStorage.js:211-214 | Returns the first stored record with the id, or nothing. |
| `Storage.SpreadsheetStorage.SearchSubmissions` | aware-platform/src/storage/SpreadsheetStorage.js:219-228 | Returns the search of the stored records by the criteria. |
| `Storage.AppendSubmission` | aware-platform/src/storage/SpreadsheetStorage.js:63-72 | The three sheet updates, in order, give the saved sheets. The sources sheet is touched only when validationMethod === 'SelfValidation' and selfValidation is set. |
| `Storage.AddSubmissionRow` | aware-platform/src/storage/SpreadsheetStorage.js:83-99 | Pushes the keys row only onto an empty sheet, then the values row; the other two sheets are unchanged. |
| `Storage.PushMaterialRows` | aware-platform/src/storage/SpreadsheetStorage.js:123-134 | The loop appends exactly the material rows, in order, after the existing rows. |
| `Storage.SaveMaterialsDetail` | aware-platform/src/storage/SpreadsheetStorage.js:104-137 | The Materials sheet gets its header only when empty and then one row per material. The other sheets are unchanged. |
| `Storage.PushSourceRows` | aware-platform/src/storage/SpreadsheetStorage.js:170-190 | The loop appends exactly the source rows, numbered from 1, after the existing rows. |
| `Storage.SaveValidationSources` | aware-platform/src/storage/SpreadsheetStorage.js:142-193 | The sources sheet gets its header only when empty and then the numbered source rows. The other sheets are unchanged. |
| `Strings.ToLowerIdempotent` | aware-platform/web/batches.js:89 | Lower-casing twice is lower-casing once, for the case mappings of Strings.LowerChar (all of Basic Latin, Latin-1, Latin Extended-A but İ, Latin Extended Additional and Cyrillic to U+052F; the regular pairs of Latin Extended-B; Greek U+0370–U+03EF but U+037F and U+03CF). |
| `Strings.ToLowerPointwise` | aware-platform/web/batches.js:89 | A string whose characters are those of another lower-cased one by one is that string lower-cased. |
| `Strings.IncludesIffOccurs` | aware-platform/web/batches.js:92-96 | includes holds exactly when the term occurs at some position of the text. |
| `Strings.ParseIntOfIntToString` | aware-platform/web/batches.js:105 | parseInt reads back every integer's decimal text. |
| `Strings.IntToStringCanonical` | aware-platform/web/aware-sdk.js:433 | An integer's text starts with a minus sign exactly when the integer is negative, and its digits have no leading zero unless the integer is 0 (no "-0", no "+", no "07"). |
| `Batches.StatusOf` | aware-platform/web/batches.js:5-10 | Exactly the codes 0 to 3 name a status, each its own. |
| `Batches.StatusCodeRoundTrip` | aware-platform/web/batches.js:5-10 | Each status's code maps back to that status. |
| `Batches.StatusLabel` | aware-platform/web/batches.js:77 | The label is 'Unknown' exactly for a code that names no status. |
| `Batches.StatusColor` | aware-platform/web/batches.js:78 | The colour is '#999' exactly for a code that names no status. |
| `Batches.StatusLabelNames` | aware-platform/web/batches.js:12-17 | Codes 0 to 3 are labelled Pending, Approved, Rejected, Certified. |
| `Batches.StatusLabelsDistinct` | aware-platform/web/batches.js:12-24 | Distinct statuses have distinct labels and distinct colours. |
| `Batches.RoleLabel` | aware-platform/web/batches.js:35-41 | Exactly the codes 0 to 4 have a role label. |
| `Batches.RoleLabelNames` | aware-platform/web/batches.js:27-41 | Codes 0 to 4 are labelled Producer, Manufacturer, Distributor, Certifier and Admin, and distinct roles have distinct labels. |
| `Batches.FilterBySearch` | aware-platform/web/batches.js:86-99 | An empty or absent term returns the list unchanged. Otherwise a batch is kept iff one of its five fields, lower-cased, includes the lower-cased term. |
| `Batches.FieldMatchesIffOccurs` | aware-platform/web/batches.js:92 | A field matches exactly when it is present and the term occurs in it, ignoring case by the case mappings of Strings.LowerChar (all of Basic Latin, Latin-1, Latin Extended-A but İ, Latin Extended Additional and Cyrillic to U+052F; the regular pairs of Latin Extended-B; Greek U+0370–U+03EF but U+037F and U+03CF). |
| `Batches.MatchesTermIffMentions` | aware-platform/web/batches.js:90-98 | A batch passes the callback exactly when the term occurs, ignoring case by the case mappings of Strings.LowerChar (all of Basic Latin, Latin-1, Latin Extended-A but İ, Latin Extended Additional and Cyrillic to U+052F; the regular pairs of Latin Extended-B; Greek U+0370–U+03EF but U+037F and U+03CF), in its asset id, material, batch number, supplier or country. |
| `Batches.FilterBySearchMultiplicity` | aware-platform/web/batches.js:89-98 | The search keeps every copy of a batch that mentions the term and no copy of any other batch. |
| `Batches.FilterBySearchIsSubsequence` | aware-platform/web/batches.js:86-99 | The search result keeps the list's order. |
| `Batches.FilterBySearchIdempotent` | aware-platform/web/batches.js:86-99 | Searching the result again with the same term changes nothing. |
| `Batches.SameLowerCaseMatches` | aware-platform/web/batches.js:89-92 | A field that lower-cases to the same text as the term matches the lower-cased term. |
| `Batches.FilterBySearchKeepsSameCaseSupplier` | aware-platform/web/batches.js:86-99 | A batch whose supplier equals a non-empty term up to case is kept by the search. |
| `Batches.FilterBySearchGreekAccentCase` | aware-platform/web/batches.js:86-99 | A batch whose supplier is "Ήπειρος" is kept by the search for "ήπειρος": accented Greek capitals are lower-cased. |
| `Batches.NonAsciiFieldMatches` | aware-platform/web/batches.js:89-96 | Case is ignored beyond ASCII: the field "ÖSTERREICH" includes the lower-cased term "österreich". |
| `Batches.FilterBySearchNonAsciiCase` | aware-platform/web/batches.js:86-99 | A batch whose country is "ÖSTERREICH" is kept by the search for "österreich". |
| `Batches.FilterBySearchIgnoresCase` | aware-platform/web/batches.js:89 | Searching for a term and for its lower-case form give the same result. |
| `Batches.FilterByStatus` | aware-platform/web/batches.js:102-106 | '' or undefined returns the list unchanged. Otherwise a batch is kept iff its status equals parseInt of the text. |
| `Batches.FilterByStatusCode` | aware-platform/web/batches.js:105 | Filtering by a code's text keeps exactly the copies of the batches with that status. |
| `Batches.FilterByStatusNotANumber` | aware-platform/web/batches.js:105 | Text that parseInt reads as NaN keeps no batch. |
| `Batches.FilterByStatusIsSubsequence` | aware-platform/web/batches.js:102-106 | The status filter keeps the list's order. |
| `Batches.FilterByStatusIdempotent` | aware-platform/web/batches.js:102-106 | Filtering the result again by the same status changes nothing. |
| `Batches.FiltersCommute` | aware-platform/web/batches.js:86-106 | The search and the status filter may be applied in either order. |
| `Batches.OrderOf` | aware-platform/web/batches.js:112-128 | Only 'newest', 'oldest' and 'status' select an order. Any other key keeps the original order. |
| `Batches.Compare` | aware-platform/web/batches.js:113-121 | Each comparator is the difference of the order's keys: createdAt descending, createdAt ascending, or status ascending. |
| `Batches.Insert` | aware-platform/web/batches.js:112-121 | One insertion step extends the sorted prefix by one element, keeping the array a permutation of what it was. |
| `Batches.SortInPlace` | aware-platform/web/batches.js:112-121 | Sorting the copy in place leaves it ordered by the key and a permutation of what it was. |
| `Batches.SortBatches` | aware-platform/web/batches.js:109-131 | Returns a new array that is a permutation of the input. The input is untouched. The order is newest-first, oldest-first or by status, and any other key keeps the original order. |
| `Sdk.StripTrailingSlash` | aware-platform/web/aware-sdk.js:8 | A URL ending in '/' loses exactly that one slash; any other URL is kept. |
| `Sdk.StripTrailingSlashRoundTrip` | aware-platform/web/aware-sdk.js:8 | Adding a slash and stripping it gives the URL back. |
| `Sdk.StripOnlyOneSlash` | aware-platform/web/aware-sdk.js:8 | A URL ending in two slashes keeps one. |
| `Sdk.MergeOptions` | aware-platform/web/aware-sdk.js:9-12 | The options are the caller's plus timeout. Each caller option wins, and timeout is 30000 unless the caller gives one. |
| `Sdk.RequestBody` | aware-platform/web/aware-sdk.js:78-86 | Without credentials the body is the batch data. With credentials it is the batch data plus username and password, taken from the credentials, and every other key is unchanged. |
| `Sdk.RequestBodyCredentialsWin` | aware-platform/web/aware-sdk.js:78-86 | The stored credentials override any username or password in the batch data, and adding them twice adds nothing. |
| `Sdk.AwareSdk.constructor` | aware-platform/web/aware-sdk.js:7-14 | The base URL (default localhost:3000) loses one trailing slash. The options are the defaults merged with the caller's, and there are no credentials. |
| `Sdk.AwareSdk.Login` | aware-platform/web/aware-sdk.js:19-43 | An accepted login stores exactly the given username and password. A refused one changes nothing. |
| `Sdk.AwareSdk.Logout` | aware-platform/web/aware-sdk.js:48-58 | Logout drops the credentials once the server was reached and otherwise keeps them. |
| `Sdk.AwareSdk.SubmitBatchBody` | aware-platform/web/aware-sdk.js:77-93 | The body sent is the copied batch data with the credentials added when there are any. |
| `Sdk.SubmissionBuilder.constructor` | aware-platform/web/aware-sdk.js:200-208 | A new builder has no properties, no materials and three empty certificate lists. |
| `Sdk.SubmissionBuilder.SetDate` | aware-platform/web/aware-sdk.js:212-215 | Sets date, nothing else. |
| `Sdk.SubmissionBuilder.SetProductionFacility` | aware-platform/web/aware-sdk.js:217-220 | Sets productionFacility, nothing else. |
| `Sdk.SubmissionBuilder.SetValueChainProcess` | aware-platform/web/aware-sdk.js:222-226 | Sets the main and sub value-chain processes, nothing else. |
| `Sdk.SubmissionBuilder.SetAwareTokenType` | aware-platform/web/aware-sdk.js:228-231 | Sets awareTokenType, nothing else. |
| `Sdk.SubmissionBuilder.SetMaterialSpecification` | aware-platform/web/aware-sdk.js:233-236 | Sets materialSpecification, nothing else. |
| `Sdk.SubmissionBuilder.SetMainColor` | aware-platform/web/aware-sdk.js:239-243 | Sets the selected colour code and the colour text, nothing else. |
| `Sdk.SubmissionBuilder.SetProductionLotBatchNo` | aware-platform/web/aware-sdk.js:246-249 | Sets productionLotBatchNo, nothing else. |
| `Sdk.SubmissionBuilder.SetTotalWeight` | aware-platform/web/aware-sdk.js:251-254 | Sets totalWeightKgs, nothing else. |
| `Sdk.SubmissionBuilder.SetSustainableProcessClaims` | aware-platform/web/aware-sdk.js:257-260 | Sets sustainableProcessClaims, nothing else. |
| `Sdk.SubmissionBuilder.SetWetProcessing` | aware-platform/web/aware-sdk.js:262-265 | Sets wetProcessing, nothing else. |
| `Sdk.SubmissionBuilder.AddMaterial` | aware-platform/web/aware-sdk.js:268-271 | Appends the material to the end of the materials list and changes nothing else. |
| `Sdk.SubmissionBuilder.SetAwareAssetId` | aware-platform/web/aware-sdk.js:274-277 | Sets awareAssetId, nothing else. |
| `Sdk.SubmissionBuilder.SetTracerAdded` | aware-platform/web/aware-sdk.js:280-283 | Sets tracerAdded, nothing else. |
| `Sdk.SubmissionBuilder.SetAwareTracer` | aware-platform/web/aware-sdk.js:285-291 | Sets the tracer type to 'Aware', the scan date and test report, and the Aware confirmation to true; nothing else changes. |
| `Sdk.SubmissionBuilder.SetCustomTracer` | aware-platform/web/aware-sdk.js:293-300 | Sets the tracer type to 'Custom', the name, date and report, and the custom confirmation to true; nothing else changes. |
| `Sdk.SubmissionBuilder.SetValidationMethod` | aware-platform/web/aware-sdk.js:303-306 | Sets validationMethod, nothing else. |
| `Sdk.SubmissionBuilder.SetSelfValidation` | aware-platform/web/aware-sdk.js:308-312 | Sets the method to 'SelfValidation' and stores the validation data; the lists are unchanged. |
| `Sdk.SubmissionBuilder.SetGuanXuValidation` | aware-platform/web/aware-sdk.js:314-320 | Sets the method to 'GuanXu', the name and documentation, and the declaration to true; nothing else changes. |
| `Sdk.SubmissionBuilder.SetStcpValidation` | aware-platform/web/aware-sdk.js:322-328 | Sets the method to 'STCP', the name and documentation, and the declaration to true; nothing else changes. |
| `Sdk.SubmissionBuilder.AddEnvironmentalCertificate` | aware-platform/web/aware-sdk.js:331-334 | Appends to the environmental list only. |
| `Sdk.SubmissionBuilder.AddSocialCertificate` | aware-platform/web/aware-sdk.js:336-339 | Appends to the social list only. |
| `Sdk.SubmissionBuilder.AddChemicalCertificate` | aware-platform/web/aware-sdk.js:341-344 | Appends to the chemical list only. |
| `Sdk.SubmissionBuilder.Build` | aware-platform/web/aware-sdk.js:347-349 | Returns the properties, materials, certificates and self-validation assembled so far. |
| `Sdk.BuiltSubmissionParts` | aware-platform/web/aware-sdk.js:347-349 | A built submission's materials, certificates and self-validation reach the FormData constructor unchanged: the builder's lists are never replaced by defaults. |
| `Sdk.TracerSetterSatisfiesTracerRule` | aware-platform/web/aware-sdk.js:285-300 | A submission whose tracer type comes from setAwareTracer or setCustomTracer never fails the tracer check. |
| `Sdk.ToText` | aware-platform/web/aware-sdk.js:432-435 | A text weight is stored as it is; a boolean as "true" or "false"; a number as canonical decimal text (a minus sign exactly for negatives, no leading zero) that parseInt reads back to the number. |
| `Sdk.BatchBuilder.constructor` | aware-platform/web/aware-sdk.js:356-409 | A new builder holds the four default sections: '' everywhere except weight '0', tracerAdded 'false' and inspector 'Self-Validation'. |
| `Sdk.BatchBuilder.SetAssetId` | aware-platform/web/aware-sdk.js:412-415 | Sets the physical asset's assetId; nothing else changes and every section keeps its properties. |
| `Sdk.BatchBuilder.SetBatchNumber` | aware-platform/web/aware-sdk.js:417-420 | Sets batchNumber only. |
| `Sdk.BatchBuilder.SetProductionDate` | aware-platform/web/aware-sdk.js:422-425 | Sets productionDate only. |
| `Sdk.BatchBuilder.SetMaterial` | aware-platform/web/aware-sdk.js:427-430 | Sets material only. |
| `Sdk.BatchBuilder.SetWeight` | aware-platform/web/aware-sdk.js:432-435 | Stores the weight as its text, and only that. |
| `Sdk.BatchBuilder.SetComposition` | aware-platform/web/aware-sdk.js:437-440 | Sets composition only. |
| `Sdk.BatchBuilder.SetColor` | aware-platform/web/aware-sdk.js:442-447 | Writes the hex value into both color and colorHex and the name into mainColor; nothing else changes. |
| `Sdk.BatchBuilder.SetProductionFacility` | aware-platform/web/aware-sdk.js:449-452 | Sets productionFacility only. |
| `Sdk.BatchBuilder.SetValueChain` | aware-platform/web/aware-sdk.js:454-458 | Sets the main and sub process; an omitted sub is stored as ''. |
| `Sdk.BatchBuilder.SetSustainableClaims` | aware-platform/web/aware-sdk.js:460-463 | Sets sustainableClaims only. |
| `Sdk.BatchBuilder.SetExpiryDate` | aware-platform/web/aware-sdk.js:465-468 | Sets expiryDate only. |
| `Sdk.BatchBuilder.SetTokenType` | aware-platform/web/aware-sdk.js:470-473 | Sets tokenType only. |
| `Sdk.BatchBuilder.SetMaterialSpec` | aware-platform/web/aware-sdk.js:475-478 | Sets materialSpec only. |
| `Sdk.BatchBuilder.SetWetProcessing` | aware-platform/web/aware-sdk.js:480-483 | Sets wetProcessing only. |
| `Sdk.BatchBuilder.SetTracerAdded` | aware-platform/web/aware-sdk.js:486-489 | Stores exactly 'true' for a truthy value and 'false' otherwise. |
| `Sdk.BatchBuilder.SetTracerType` | aware-platform/web/aware-sdk.js:491-494 | Sets the tracer's tracerType only. |
| `Sdk.BatchBuilder.SetHarvestDate` | aware-platform/web/aware-sdk.js:496-499 | Sets harvestDate only. |
| `Sdk.BatchBuilder.SetSupplier` | aware-platform/web/aware-sdk.js:501-504 | Sets supplier only. |
| `Sdk.BatchBuilder.SetCountry` | aware-platform/web/aware-sdk.js:506-509 | Sets country only. |
| `Sdk.BatchBuilder.SetFarmLocation` | aware-platform/web/aware-sdk.js:511-514 | Sets farmLocation only. |
| `Sdk.BatchBuilder.SetGpsCoordinates` | aware-platform/web/aware-sdk.js:516-519 | Sets gpsCoordinates only. |
| `Sdk.BatchBuilder.SetTracerCertifications` | aware-platform/web/aware-sdk.js:521-524 | Sets the tracer's certifications only. |
| `Sdk.BatchBuilder.SetTracerName` | aware-platform/web/aware-sdk.js:526-529 | Sets tracerName only. |
| `Sdk.BatchBuilder.SetTracerDate` | aware-platform/web/aware-sdk.js:531-534 | Sets tracerDate only. |
| `Sdk.BatchBuilder.SetInspector` | aware-platform/web/aware-sdk.js:537-540 | Sets the validation's inspector only. |
| `Sdk.BatchBuilder.SetInspectionDate` | aware-platform/web/aware-sdk.js:542-545 | Sets inspectionDate only. |
| `Sdk.BatchBuilder.SetQualityGrade` | aware-platform/web/aware-sdk.js:547-550 | Sets qualityGrade only. |
| `Sdk.BatchBuilder.SetMoistureContent` | aware-platform/web/aware-sdk.js:552-555 | Sets moistureContent only. |
| `Sdk.BatchBuilder.SetContamination` | aware-platform/web/aware-sdk.js:557-560 | Sets contamination only. |
| `Sdk.BatchBuilder.SetLabResults` | aware-platform/web/aware-sdk.js:562-565 | Sets labResults only. |
| `Sdk.BatchBuilder.SetValidationType` | aware-platform/web/aware-sdk.js:567-570 | Sets validationType only. |
| `Sdk.BatchBuilder.SetSustainabilityCert` | aware-platform/web/aware-sdk.js:573-576 | Sets the compliance section's sustainabilityCert only. |
| `Sdk.BatchBuilder.SetFairTradeCert` | aware-platform/web/aware-sdk.js:578-581 | Sets fairTradeCert only. |
| `Sdk.BatchBuilder.SetOrganicCert` | aware-platform/web/aware-sdk.js:583-586 | Sets organicCert only. |
| `Sdk.BatchBuilder.SetRegulatoryStandards` | aware-platform/web/aware-sdk.js:588-591 | Sets regulatoryStandards only. |
| `Sdk.BatchBuilder.SetCarbonFootprint` | aware-platform/web/aware-sdk.js:593-596 | Sets carbonFootprint only. |
| `Sdk.BatchBuilder.SetWaterUsage` | aware-platform/web/aware-sdk.js:598-601 | Sets waterUsage only. |
| `Sdk.BatchBuilder.SetSelectedCerts` | aware-platform/web/aware-sdk.js:603-606 | Sets selectedCerts only. |
| `Sdk.BatchBuilder.Build` | aware-platform/web/aware-sdk.js:609-616 | Returns exactly the four sections. Each has exactly the properties a new builder gives it, since no setter adds or removes one. |
| `Sdk.SubmittedBatchBody` | aware-platform/web/aware-sdk.js:77-93 | A built batch is sent with its four sections untouched and the credentials added only when the client has them. |

## Left out

- **XLSX internals.**
  - Sheets are lists of rows, and `sheet_to_json` is modelled in two ways:
    - as that row list itself (`header: 1`);
    - as header-keyed records that skip null and undefined cells.
  - Not modelled: blank or ragged rows inside a sheet, duplicate header names and
    their `_1` suffixes, headers that are neither text nor numbers (`__EMPTY`
    columns), dates, cell types, and how `aoa_to_sheet` encodes cells.
  - A file that lacks one of the three sheets is not modelled: every file holds the
    three sheets.
- **The file system.**
  - The file is abstract state: whether it exists, its modification time and the
    sheets it holds. `readFile`, `writeFile` and `ensureDataDirectory` are that
    state's reads and writes.
  - The time a save stamps on the file is a parameter.
  - `exportToCSV` (CSV text and a file write) is not modelled.
- **Current time and JSON text.**
  - `new Date().toISOString()` in the FormData constructor is the parameter `now`.
  - `JSON.stringify` is an unspecified function parameter. Nothing is proved about
    the JSON text beyond which value it is computed from.
- **Exceptions.** A thrown error, such as a missing sheet, a failed fetch or a
  non-string field in the search, is not modelled; the model covers the paths that
  return.
- **Numbers.** JavaScript numbers are modelled as integers. Fractions, NaN values
  held in fields, and floating-point comparison are left out. `parseInt`'s NaN is
  modelled as None.
- Sdk.ToText: a number is written as plain decimal digits. JavaScript's `String(n)`
  switches to exponent form ("1e+21") from 1e21 on, and such numbers are not exact
  integers; the model does not cover them.
- **Network calls and other `AwareSDK` methods.** Not modelled:
  - `request`, `checkSession`, `getCSVExportURL` and `getExcelExportURL`;
  - the fetch wrappers such as `getAllBatches`, `getBatch` and `createSubmission`.
- Sdk.AwareSdk.Login: the login outcome is the parameter `accepted`, and the
  response body and the error text are not modelled.
- Sdk.AwareSdk.Logout: the network outcome is the parameter `reached`, and the fetch
  itself is not modelled.
- Sdk.AwareSdk.SubmitBatchBody: models the request body only, not the request.
- **Builder chaining.** Setters return nothing instead of `this`.
- Sdk.SubmissionBuilder.Build: returns a value snapshot of the builder, while the
  source returns the live `this.data` object. Later setter calls on the same builder
  would show through the returned object in the source but not here.
- Sdk.BatchBuilder.Build: returns a value snapshot of the builder, while the source
  returns the live section objects. Later setter calls on the same builder would
  show through the returned object in the source but not here.
- Sdk.BatchBuilder.SetWeight: accepts only numbers, strings and booleans. `null` or
  `undefined` would throw in `toString()`, and objects have their own `toString`.
- Sdk.SubmissionBuilder.SetSelfValidation: an absent or null argument is modelled
  the same way, as None.
- Strings.ToLowerIdempotent: lower-casing maps the capitals of Basic Latin, Latin-1,
  Latin Extended-A, Latin Extended Additional and Cyrillic (to U+052F), the regularly
  paired capitals of Latin Extended-B, and the Greek capitals from U+0370 to U+03EF
  but U+037F and U+03CF. These capitals, which JavaScript lower-cases, are kept as
  they are:
  - İ (U+0130), which becomes two code units in JavaScript;
  - the irregular Latin Extended-B capitals among U+0181 to U+01BC, U+01C4 to U+01CB,
    U+01F1 to U+01F7 and U+023A to U+0245 (for example Ɓ, Ǆ, Ǳ, Ⱥ);
  - the Greek capitals U+037F, U+03CF and U+03F4 to U+03FF;
  - every capital of the other scripts (Armenian, Georgian, Cherokee, Glagolitic,
    Coptic, Deseret, the fullwidth and other letter blocks).

  The final sigma is not modelled either: a word-final capital sigma becomes ς in
  JavaScript and σ here.
- Batches.FilterBySearch: ignores case only as far as Strings.ToLower maps it, with the
  same gaps as the line above.
- Batches.FieldMatchesIffOccurs: ignores case only as far as Strings.ToLower maps it,
  with the same gaps.
- Batches.MatchesTermIffMentions: ignores case only as far as Strings.ToLower maps it,
  with the same gaps.
- Batches.SortBatches: requires sortBy other than 'assetId'. The `localeCompare`
  order is locale-dependent and is not modelled.
- Batches.SortBatches: the result is not stated to keep equal keys in their
  original order, although the sort used is stable, as `Array.prototype.sort` is.
- Batches.OrderOf: requires sortBy other than 'assetId', for the same reason.
- Batches.FilterByStatus: the status is a string or undefined. A `null` status,
  which `parseInt` reads as NaN and which keeps nothing, is not modelled.
- **Batch display and loading.** `formatDate` and `formatDateTime` (locale date text)
  are not modelled. `getStatusBadge` is modelled only through its label and colour
  lookups, not its HTML. `fetchBatches` (network) is not modelled.
- **Batch lifecycle.** The status lifecycle (approve, reject, certify) lives in the
  supply-chain smart contract, which is not part of this model; only the code-to-label
  tables are modelled.
- **Sample scenario.** The fully populated submission of the basic example script is
  not modelled as a chain of builder calls. `Submission.GivenRequiredComplete` states
  the general fact instead: any such input validates.
