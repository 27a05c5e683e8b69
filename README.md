# tuneCV resume backend, modelled in Dafny

tuneCV's backend takes an uploaded resume (PDF, DOCX or TXT) through an upload pipeline:

1. It checks that the LLM client is configured.
2. It stages the file under `uploads/` and extracts its text.
3. It inserts a pending row into the `resumes` table.
4. It asks the LLM to extract structured profile data, then to analyse it.
5. It validates both answers through pydantic schemas and writes them into the row.
6. It removes the staged file.

Three more endpoints list, read and delete rows.

This project models that core in Dafny:

- **Upload pipeline.** The pipeline is written twice:
  - as a function (`Resumes.Upload`) giving the response, the disk, the table and the provider-call counts;
  - as a method over the mutable disk and table (`Resumes.UploadResume`) proved equal to it.
- **Outside world as inputs.** These arrive as parameters or oracles:
  - the LLM provider, as each attempt's answer or exception;
  - `json.loads`, `json.dumps`, and the e-mail and URL syntax checks;
  - what PyPDF2 / python-docx / the text reader yield;
  - whether the OS lets a file be written or removed;
  - whether the database commits;
  - the database clock;
  - a concurrent delete.
- **Table.** The `resumes` table is a class holding a `map<int, Resume>` and the id sequence. Its invariant is that every stored row is well formed and JSON-serialisable.
- **Pydantic.** The part the schemas rely on is modelled generically over field specs:
  - required fields and `None`/`[]` defaults;
  - unknown keys ignored;
  - `model_fields_set`;
  - `model_dump(exclude_unset=True)` in Python and JSON mode.

Modules follow the source files:

| module | models |
|---|---|
| `Wrappers`, `PyStr`, `Values` | Option/Result; Python `str` built-ins (`strip`, slicing, `lower`, `splitext`, `os.path.join`, `in`); Python/JSON values |
| `Pydantic` | field specs, validation, dumping |
| `Schemas` | `app/api/v1/schemas.py` |
| `Models` | `app/db/models.py` |
| `CrudResume` | `app/crud/crud_resume.py` |
| `FileHelpers` | `app/utils/file_helpers.py` |
| `LlmService` | `app/services/llm_service.py` |
| `Resumes` | `app/api/v1/endpoints/resumes.py` |

Where the project's documentation and the code disagree, the model follows the code:

- **Empty text.** Text that extracts to nothing raises a 400. The stage's own `except Exception` catches it, so the client receives a 500.
- **Vanished row.** An update that finds no row raises a 404, which likewise becomes a 500.
- **TXT reading.** TXT files are opened in text mode, so `"\r\n"` and a lone `"\r"` become `"\n"` (universal newlines). Only a file without carriage returns is read back verbatim (`FileHelpers.NewlinesVerbatim`).
- **Validation failures.** A field whose value does not fit its type makes pydantic raise instead of falling back to the default. The pipeline then answers 500 at the preparation stage.
- **`"error" in result` on a non-dict.** The result of `json.loads` need not be a dict. On None, a bool or a number the test raises `TypeError` and the stage answers 500 (`Resumes.NoErrorKey`). On a list or a string it tests membership as Python does.
- **Failed copy.** A save that fails after `open` created the file leaves it on disk. `saved_file_path` is never bound, so the cleanup does not run.
- **Nested URLs.** The store dumps the update in Python mode, as the code does. A URL inside a project or certification entry therefore reaches a JSONB column as a URL object, the commit fails, and the upload answers 500 (`Resumes.NestedUrlIsServerError`; see "## Findings").

## Model

| member | source | states |
|---|---|---|
| `PyStr.SliceDropLast` | app/services/llm_service.py:75-77 | `s[start:-drop]`: the slice between `start` and `drop` characters from the end, or "" when the string is too short |
| `PyStr.Lower` | app/utils/file_helpers.py:81 | lower-casing keeps the length and maps every character through ASCII lower-casing |
| `PyStr.Extension` | app/utils/file_helpers.py:80 | `splitext`'s extension is "" or a suffix of the path that starts with '.' and holds no '/' |
| `PyStr.Join` | app/utils/file_helpers.py:26 | `os.path.join`: an absolute second part wins; otherwise one '/' goes between the parts, except after an empty first part or one that already ends in '/' |
| `PyStr.Strip` | app/services/llm_service.py:74 | `str.strip()`: drops leading and trailing whitespace (reference definition for the fence lemmas) |
| `PyStr.StartsWith` | app/services/llm_service.py:74-76 | `str.startswith` (reference definition) |
| `PyStr.RFind` | app/utils/file_helpers.py:80 | the last position of the character, or -1 when it does not occur |
| `Values.Contains` | app/api/v1/endpoints/resumes.py:67 | `"error" in v` tests a dict's keys and a list's items, and raises (None) on None, bools and numbers |
| `Values.ErrorDict` | app/services/llm_service.py:128-131 | the error dictionary has exactly the keys `error` and `details`, holding the given strings |
| `Values.Truthy` | app/crud/crud_resume.py:59-68 | Python truthiness: None, False, zero, empty strings, lists and dicts are false (reference definition for the re-dump guards) |
| `Values.JsonSerialisable` | app/db/models.py:25-44 | what `json.dumps` accepts for a JSONB value: no URL object and no model instance anywhere inside |
| `Models.Columns` | app/db/models.py:10-44 | the data columns of `resumes` in declaration order, each with its SQL kind and nullability |
| `Models.WellFormed` | app/db/models.py:9-44 | a row has exactly the table's data columns and a string `file_name` (the NOT NULL column) |
| `Models.Storable` | app/db/models.py:9-44 | what a flush can write: a well-formed row whose every column value is JSON-serialisable |
| `Models.FileNameOnlyRequiredColumn` | app/db/models.py:10-44 | `file_name` is the only NOT NULL data column |
| `Models.PendingRow` | app/crud/crud_resume.py:12-20 | a freshly inserted row is storable and carries the given id, the database time, the file name and the raw text; every other column is NULL |
| `Schemas.SchemaDefaults` | app/api/v1/schemas.py:6-130 | in every schema, list fields default to `[]` and other optional fields to None |
| `Schemas.SchemaRequiredFields` | app/api/v1/schemas.py:31-41 | `LanguageBase.language`, `CertificationBase.name` and `ResumeBase.file_name` (and hence `ResumeUpdate.file_name`) are the only required fields of all schemas |
| `Schemas.AnalysisFields` | app/api/v1/schemas.py:73-89 | `LLMAnalysis` has exactly seven fields, none of them required |
| `Schemas.UpdateFieldsAreColumns` | app/api/v1/schemas.py:128-130 | `ResumeUpdate` is `ResumeBase` plus `raw_text` and `llm_analysis`; its field names are exactly the table's data columns; the list fields are exactly the JSONB columns of `ResumeBase` |
| `Schemas.ListInfoOf` | app/api/v1/schemas.py:147-153 | the list entry carries the row's id, upload time, file name, name, e-mail and phone |
| `Schemas.EducationBase` | app/api/v1/schemas.py:6-13 | the fields of `EducationBase`, with types and defaults |
| `Schemas.WorkExperienceBase` | app/api/v1/schemas.py:15-22 | the fields of `WorkExperienceBase` |
| `Schemas.ProjectBase` | app/api/v1/schemas.py:24-29 | the fields of `ProjectBase`, `url` and `repository_url` as `HttpUrl` |
| `Schemas.LanguageBase` | app/api/v1/schemas.py:31-33 | the fields of `LanguageBase`, `language` required |
| `Schemas.CertificationBase` | app/api/v1/schemas.py:35-42 | the fields of `CertificationBase`, `name` required, `credential_url` as `HttpUrl` |
| `Schemas.ResumeRatingDetails` | app/api/v1/schemas.py:44-46 | the fields of `ResumeRatingDetails` |
| `Schemas.ImprovementAreasDetails` | app/api/v1/schemas.py:48-51 | the fields of `ImprovementAreasDetails` |
| `Schemas.ActionVerbCheck` | app/api/v1/schemas.py:53-55 | the fields of `ActionVerbCheck` |
| `Schemas.QuantificationCheck` | app/api/v1/schemas.py:57-59 | the fields of `QuantificationCheck` |
| `Schemas.UpskillSuggestion` | app/api/v1/schemas.py:61-65 | the fields of `UpskillSuggestion` |
| `Schemas.CareerPathAlignment` | app/api/v1/schemas.py:67-70 | the fields of `CareerPathAlignment` |
| `Schemas.LLMAnalysis` | app/api/v1/schemas.py:73-96 | the seven fields of `LLMAnalysis` |
| `Schemas.ResumeBase` | app/api/v1/schemas.py:99-122 | the fields of `ResumeBase`, `file_name` required |
| `Schemas.ResumeUpdate` | app/api/v1/schemas.py:128-131 | `ResumeBase` plus `raw_text` and `llm_analysis` |
| `Schemas.ListInfo` | app/api/v1/schemas.py:147-153 | the six fields of `ResumeListInfo` |
| `Schemas.UploadResponse` | app/api/v1/schemas.py:158-161 | `ResumeUploadResponse`: message, id and the stored row |
| `Pydantic.Validate` | app/api/v1/endpoints/resumes.py:95-106 | `Model(**data)` succeeds iff the data conforms. The instance then has every field. A given field holds its coerced value and an absent one its default. `model_fields_set` is the given keys that are fields. Only `HttpUrl` fields hold URL objects |
| `Pydantic.Conforms` | app/api/v1/schemas.py:6-130 | which values pass a field's declared type, with `Optional` fields accepting None (reference definition behind `Validate`) |
| `Pydantic.Coerce` | app/api/v1/schemas.py:6-130 | the validated value: URL strings become `HttpUrl` objects, dicts become instances, lists are coerced item by item (reference definition) |
| `Pydantic.Dump` | app/crud/crud_resume.py:9-10 | `model_dump(exclude_unset=True)` in either mode, applied to nested instances (reference definition for the dump lemmas) |
| `Pydantic.CoercedFieldsNotUrl` | app/api/v1/schemas.py:28-29 | validation turns a value into a URL object only in an `HttpUrl` field |
| `Pydantic.DumpKeepsSetFields` | app/crud/crud_resume.py:9-10 | `model_dump(exclude_unset=True)` keeps exactly the explicitly set fields, each dumped in turn |
| `Pydantic.JsonDumpSerialisable` | app/crud/crud_resume.py:9-10 | a JSON-mode dump never holds a URL object or a model instance, so it can always be serialised |
| `Pydantic.DumpModesAgreeWithoutUrls` | app/crud/crud_resume.py:9-10 | on values without URL objects the Python-mode and JSON-mode dumps are equal |
| `Pydantic.PythonDumpWithoutUrlsSerialisable` | app/crud/crud_resume.py:9-10 | a Python-mode dump of a value without URL objects is serialisable |
| `Pydantic.PythonDumpKeepsUrl` | app/crud/crud_resume.py:9-10 | a Python-mode dump keeps a set URL field as a URL object, so it cannot be serialised |
| `CrudResume.SchemaToDict` | app/crud/crud_resume.py:9-10 | the dict holds exactly the set fields of the instance, each dumped |
| `CrudResume.Stored` | app/crud/crud_resume.py:45-48 | `setattr` stores an `HttpUrl` as its string and any other value unchanged |
| `CrudResume.SetAttrs` | app/crud/crud_resume.py:43-48 | the row after the `setattr` loop, as one map update (reference definition for `SetAttrLoop`) |
| `CrudResume.SetAttrLoop` | app/crud/crud_resume.py:43-48 | the key-by-key `setattr` loop, in any key order, writes every dumped key that is a column and leaves the rest |
| `CrudResume.SetAttrsShape` | app/crud/crud_resume.py:41-48 | after the loop, id, upload time and column set are unchanged; a set column holds the stored dump; an unset column keeps its value |
| `CrudResume.RedumpNested` | app/crud/crud_resume.py:52-68 | the re-dumps of `llm_analysis` and the record lists never touch id or upload time |
| `CrudResume.RedumpLists` | app/crud/crud_resume.py:59-68 | the re-dump of each non-empty record list; never touches id or upload time |
| `CrudResume.UpdatedRow` | app/crud/crud_resume.py:41-68 | the row the update writes, for a given dump mode (reference definition for `ResumeStore.Update`) |
| `CrudResume.RedumpListsUnchanged` | app/crud/crud_resume.py:59-68 | a list re-dump that writes what the loop already wrote leaves the row as it is |
| `CrudResume.AnalysisRedumpUnchanged` | app/crud/crud_resume.py:53-55 | likewise for the `llm_analysis` re-dump |
| `CrudResume.AnalysisStored` | app/crud/crud_resume.py:43-55 | a non-None analysis has already been written by the loop exactly as the re-dump writes it |
| `CrudResume.RecordListsStored` | app/crud/crud_resume.py:43-68 | likewise for every non-empty record list |
| `CrudResume.RedumpsRewriteLoop` | app/crud/crud_resume.py:41-68 | for a `ResumeUpdate`, the updated row is the `setattr` loop's row: the re-dumps change nothing |
| `CrudResume.RedumpedAreColumns` | app/db/models.py:25-44 | `llm_analysis` and every record-list field are columns of the table |
| `CrudResume.UpdateFrame` | app/crud/crud_resume.py:34-72 | the update keeps id, upload time, column set and every unset column; a set column takes the stored dump of its value |
| `CrudResume.UpdateStorableIff` | app/crud/crud_resume.py:41-70 | the updated row of a storable row can be flushed iff the stored dump of every set field serialises; id and time are kept |
| `CrudResume.JsonSetFieldsSerialisable` | app/crud/crud_resume.py:9-10 | with a JSON-mode dump every set field's stored dump serialises |
| `CrudResume.JsonUpdateStorable` | app/crud/crud_resume.py:41-70 | the corrected update: with a JSON-mode dump the updated row of a storable row is always storable and keeps its id and time |
| `CrudResume.WritesKeepStorable` | app/crud/crud_resume.py:41-70 | writing stored dumps that all serialise into the set columns keeps a row storable |
| `CrudResume.PendingRowUpdate` | app/crud/crud_resume.py:34-72 | updating a pending row keeps its id and time, the given file name and text, and NULL in every unset column; the result is storable iff the set fields serialise |
| `CrudResume.PendingRowFrame` | app/crud/crud_resume.py:41-68 | the column part of the above: file name, text, and NULL in every unset column |
| `CrudResume.PythonUpdateNotStorable` | app/crud/crud_resume.py:41-64 | as written (Python-mode dump), a set project URL makes the updated row unserialisable |
| `CrudResume.NestedUrlNotSerialisable` | app/crud/crud_resume.py:63-64 | a Python-mode dump of a list holding a project with a set URL cannot be serialised |
| `CrudResume.NestedUrlNotFlushable` | app/crud/crud_resume.py:9-10 | in Python mode an update with a set project URL has a set field whose stored dump cannot be serialised |
| `CrudResume.ResumeStore.Create` | app/crud/crud_resume.py:12-20 | inserts the pending row under the next id; the sequence advances; a failed commit leaves the table and the sequence unchanged |
| `CrudResume.ResumeStore.Get` | app/crud/crud_resume.py:22-26 | returns the row with that id, or None iff absent |
| `CrudResume.ResumeStore.GetAll` | app/crud/crud_resume.py:28-32 | at most `limit` rows: exactly the rows at positions `skip`, `skip+1`, … of the scan order |
| `CrudResume.ResumeStore.Update` | app/crud/crud_resume.py:34-72 | an unreachable database makes the lookup fail with no change; an absent id gives None and no change; otherwise, with the Python-mode dump, the row becomes the updated row when that row can be serialised, and the commit fails with the table unchanged when it cannot; the table invariant is kept |
| `CrudResume.ResumeStore.Delete` | app/crud/crud_resume.py:74-82 | returns the pre-delete row iff present; the row is gone afterwards and nothing else changes |
| `FileHelpers.Disk.Remove` | app/api/v1/endpoints/resumes.py:126-131 | `os.remove` removes the path when allowed and reports whether a present file was removed |
| `FileHelpers.SaveUploadFile` | app/utils/file_helpers.py:20-35 | writes `join(destination, filename)` and returns it; an open failure leaves the disk alone, a copy failure leaves the file; the stream is always closed |
| `FileHelpers.ExtractTextFromPdf` | app/utils/file_helpers.py:37-58 | the page loop yields the concatenated page texts; a library failure yields "" |
| `FileHelpers.PdfTextAppend` | app/utils/file_helpers.py:47-48 | page text is concatenated in page order |
| `FileHelpers.PdfText` | app/utils/file_helpers.py:47-48 | the page texts concatenated in order, a page without text adding nothing (reference definition for `ExtractTextFromPdf`) |
| `FileHelpers.PdfTextFirstPage` | app/utils/file_helpers.py:47-48 | the text is the first page's text followed by the rest |
| `FileHelpers.PdfTextNoPages` | app/utils/file_helpers.py:47-48 | pages without text contribute nothing |
| `FileHelpers.ExtractTextFromDocx` | app/utils/file_helpers.py:60-74 | the paragraph loop yields each paragraph followed by "\n"; a library failure yields "" |
| `FileHelpers.DocxText` | app/utils/file_helpers.py:68-69 | each paragraph followed by a newline (reference definition for `ExtractTextFromDocx`) |
| `FileHelpers.DocxTextShape` | app/utils/file_helpers.py:68-69 | n paragraphs add exactly n characters and n newlines; any paragraph, even an empty one, makes the text non-empty and newline-terminated |
| `FileHelpers.UniversalNewlines` | app/utils/file_helpers.py:88-90 | reading in text mode leaves no '\r' and never lengthens the text |
| `FileHelpers.NewlinesVerbatim` | app/utils/file_helpers.py:88-90 | a file without carriage returns is read back verbatim |
| `FileHelpers.GetTextFromFile` | app/utils/file_helpers.py:76-96 | dispatch on the lower-cased extension to the PDF, DOCX or text reader |
| `FileHelpers.TextFromFile` | app/utils/file_helpers.py:76-96 | the text the reader chosen by the lower-cased extension yields (reference definition for `GetTextFromFile`) |
| `FileHelpers.ExtensionOfName` | app/utils/file_helpers.py:80 | a name ending in a dotted extension has that extension |
| `FileHelpers.SameLoweredExtension` | app/utils/file_helpers.py:80-87 | extensions that lower-case alike are read alike |
| `FileHelpers.UpperCasePdfIsPdf` | app/utils/file_helpers.py:80-84 | "X.PDF" is read as a PDF |
| `FileHelpers.UnsupportedExtension` | app/utils/file_helpers.py:94-96 | any other extension yields "" |
| `FileHelpers.NoExtension` | app/utils/file_helpers.py:80-96 | a name without a dot yields "" |
| `LlmService.ParseLlmJsonOutput` | app/services/llm_service.py:71-87 | the parse of the fence-stripped text, or the matching error dictionary with `details` and the stripped `raw_output`; never an exception |
| `LlmService.StripFences` | app/services/llm_service.py:74-77 | the stripped output with a leading Markdown fence and the last three characters cut off (reference definition for the fence lemmas) |
| `LlmService.JsonFenceBranch` | app/services/llm_service.py:74-75 | a "```json" opening makes the text `trimmed[7:-3].strip()` |
| `LlmService.GenericFenceBranch` | app/services/llm_service.py:76-77 | any other "```" opening makes it `trimmed[3:-3].strip()` |
| `LlmService.FencedRoundTrip` | app/services/llm_service.py:74-80 | "```json\n" + t + "\n```" reduces to `t.strip()` and parses to what `t` parses to |
| `LlmService.StripSurroundingSpaces` | app/services/llm_service.py:74 | surrounding whitespace does not change `strip()` |
| `LlmService.ClosingFenceNotChecked` | app/services/llm_service.py:74-75 | the last three characters are dropped whether or not they are a fence |
| `LlmService.UpperCaseTagKept` | app/services/llm_service.py:74-77 | "```JSON" takes the generic branch and the text keeps "JSON" |
| `LlmService.Backoff` | app/services/llm_service.py:92 | every wait lies in [4, 60] seconds |
| `LlmService.BackoffSchedule` | app/services/llm_service.py:92 | the first waits are 4, 4, 4 and 8 seconds |
| `LlmService.RetryContract` | app/services/llm_service.py:89-102 | at most five calls; the first answer is returned; after five exceptions of any kind the last is re-raised |
| `LlmService.RetryFrom` | app/services/llm_service.py:89-102 | the attempts from a given number on: the first answer, or the last exception after the fifth attempt, with the number of calls made |
| `LlmService.Retry` | app/services/llm_service.py:89-102 | the retried call from the first attempt (reference definition for `InvokeWithRetry`) |
| `LlmService.InvokeWithRetry` | app/services/llm_service.py:89-102 | the attempt loop makes 1 to 5 calls, sleeping `Backoff(i)` after the i-th failure, and agrees with the retry function |
| `LlmService.ExtractResumeDataFromText` | app/services/llm_service.py:104-131 | no client: "LLM not initialized" and no call; otherwise 1 to 5 calls and the extraction result |
| `LlmService.Extraction` | app/services/llm_service.py:104-131 | the extraction result and its call count (reference definition for `ExtractResumeDataFromText`) |
| `LlmService.ExtractionErrorKinds` | app/services/llm_service.py:126-131 | five failures end in "LLM rate limit exceeded" for `ResourceExhausted` and "LLM chain invocation failed for extraction" for every other kind |
| `LlmService.FifthAttemptAnswers` | app/services/llm_service.py:116-125 | four failures then an answer: five calls and the parsed answer |
| `LlmService.InvocationError` | app/services/llm_service.py:126-131 | the error dictionary for a final exception: the rate-limit message for `ResourceExhausted`, the chain-failure message for any other kind, with the exception text as `details` |
| `LlmService.RawTextSection` | app/services/llm_service.py:144-146 | "" iff the text is None or empty; otherwise header + text + "\n```" |
| `LlmService.AnalyzeResumeContent` | app/services/llm_service.py:133-172 | no client: "LLM not initialized" and no call; otherwise 1 to 5 calls and the analysis result |
| `LlmService.Analysis` | app/services/llm_service.py:133-172 | the analysis result and its call count (reference definition for `AnalyzeResumeContent`) |
| `LlmService.AnalysisErrorKinds` | app/services/llm_service.py:167-172 | five failures end in "LLM rate limit exceeded for analysis" or "LLM chain invocation failed for analysis" |
| `Resumes.Configured` | app/api/v1/endpoints/resumes.py:27-30 | the gate passes iff the API key is set and non-empty and the client was initialised |
| `Resumes.NoErrorKey` | app/api/v1/endpoints/resumes.py:67-82 | `"error" in result` is False: a found key, or a test that raises, stops the pipeline |
| `Resumes.Whitelisted` | app/api/v1/endpoints/resumes.py:98-99 | keeps exactly the extraction keys that are `ResumeUpdate` fields, with their values |
| `Resumes.ArgumentKeys` | app/api/v1/endpoints/resumes.py:99-106 | the update's arguments are the kept keys plus `file_name`, `raw_text` and `llm_analysis` |
| `Resumes.ValidatedIsUpdate` | app/api/v1/endpoints/resumes.py:101-106 | a validated update is a `ResumeUpdate` instance whose set fields are its argument keys |
| `Resumes.UpdateTextAndAnalysis` | app/api/v1/endpoints/resumes.py:101-106 | the update holds the raw text and the validated analysis instance |
| `Resumes.PreparedUpdate` | app/api/v1/endpoints/resumes.py:91-106 | a built update's set fields are the kept keys and the three explicit ones, carrying file name, text and analysis |
| `Resumes.ReservedKeyCollides` | app/api/v1/endpoints/resumes.py:98-110 | an extraction key `file_name`, `raw_text` or `llm_analysis` passes the filter and fails stage 5 |
| `Resumes.UnknownKeysIgnored` | app/api/v1/endpoints/resumes.py:98-99 | keys outside the whitelist make no difference |
| `Resumes.PrepareUpdate` | app/api/v1/endpoints/resumes.py:91-110 | stage 5: validate the analysis, keep the whitelisted extraction keys and build the update, or the reason it fails (reference definition) |
| `Resumes.ExtractedProjectUrl` | app/api/v1/endpoints/resumes.py:95-106 | a project URL string in the extraction reaches the built update as a set `HttpUrl` object in `projects` |
| `Resumes.CoercedProjectUrl` | app/api/v1/schemas.py:24-29 | validating a project dict turns its `url` string into a set `HttpUrl` field |
| `Resumes.ProjectsType` | app/api/v1/schemas.py:112 | `projects` is the twelfth `ResumeUpdate` field, a list of `ProjectBase` defaulting to `[]` |
| `Resumes.ProjectUrlPosition` | app/api/v1/schemas.py:28 | `url` is an `HttpUrl` field of `ProjectBase` |
| `Resumes.LlmStages` | app/api/v1/endpoints/resumes.py:62-110 | stages 3 to 5 with the calls each made (reference definition for `RunLlmStages`) |
| `Resumes.Finish` | app/api/v1/endpoints/resumes.py:112-137 | stage 6 and the cleanup: 500 when the row is gone, the database is down or the updated row cannot be serialised (reference definition for `ApplyUpdate`) |
| `Resumes.AfterExtraction` | app/api/v1/endpoints/resumes.py:54-137 | stages 2 to 7 (reference definition for `ProcessText`) |
| `Resumes.Upload` | app/api/v1/endpoints/resumes.py:19-137 | the whole upload: response, disk, table, sequence and call counts (reference definition for `UploadResume`) |
| `Resumes.UploadResume` | app/api/v1/endpoints/resumes.py:19-137 | the method leaves the response, disk, table and id sequence the pipeline function gives; the stream is closed iff the gate passed |
| `Resumes.ProcessText` | app/api/v1/endpoints/resumes.py:54-137 | stages 2 to 6 and cleanup agree with their function |
| `Resumes.RunLlmStages` | app/api/v1/endpoints/resumes.py:62-110 | stages 3 to 5 agree with their function, call counts included |
| `Resumes.ApplyUpdate` | app/api/v1/endpoints/resumes.py:112-137 | stage 6 and cleanup agree with their function; the id sequence is unchanged |
| `Resumes.UnconfiguredTouchesNothing` | app/api/v1/endpoints/resumes.py:27-30 | without key or client: 500, no file, no row, no provider call |
| `Resumes.EmptyTextIsServerError` | app/api/v1/endpoints/resumes.py:34-52 | empty text answers 500, not 400; the staged file is removed when the OS allows it; no row |
| `Resumes.FailedCopyLeavesFile` | app/api/v1/endpoints/resumes.py:34-52 | a failed copy answers 500 and leaves the created file |
| `Resumes.LaterFailuresLeaveTraces` | app/api/v1/endpoints/resumes.py:54-123 | a failure after the insert answers 500 and leaves the staged file and the id consumed; the pending row stays unless it was deleted meanwhile |
| `Resumes.FailureAfterCreate` | app/api/v1/endpoints/resumes.py:62-123 | the same from the insert on: the pending row is never rolled back |
| `Resumes.FinishFailure` | app/api/v1/endpoints/resumes.py:112-123 | a failed update answers 500 and leaves files and the row as they were |
| `Resumes.FinishStage` | app/api/v1/endpoints/resumes.py:112-123 | every failure of stage 6 answers 500 for that stage |
| `Resumes.InsertFailureLeavesFile` | app/api/v1/endpoints/resumes.py:54-60 | the insert's 500 comes exactly when the earlier stages pass and the insert cannot commit; the staged file stays, and the table, the sequence and the provider are untouched |
| `Resumes.CreatedRowNotInitialEntry` | app/api/v1/endpoints/resumes.py:62-137 | once the insert commits, no later failure is reported as the insert's |
| `Resumes.ExtractionErrorSkipsAnalysis` | app/api/v1/endpoints/resumes.py:62-89 | an "error" key in the extraction answers 500 and the analysis is never called |
| `Resumes.SuccessIff` | app/api/v1/endpoints/resumes.py:19-137 | the upload succeeds iff the gate passes, the write succeeds, the text is non-empty, the insert commits, stages 3 to 5 succeed, the row is still there, the database is up for the update, and every field the update sets serialises after the Python-mode dump |
| `Resumes.AfterExtractionSuccessIff` | app/api/v1/endpoints/resumes.py:54-137 | the same from stage 2 on, storability condition included |
| `Resumes.PendingFinishSuccessIff` | app/api/v1/endpoints/resumes.py:112-137 | stage 6 on a pending row succeeds iff the row is there, the database is up and the update's set fields serialise |
| `Resumes.FinishSuccessIff` | app/api/v1/endpoints/resumes.py:112-137 | stage 6 succeeds iff the row is there, the database is up and the updated row can be serialised |
| `Resumes.SuccessShape` | app/api/v1/endpoints/resumes.py:112-137 | on success: the message; `resume_id` is the new row's id; the table gains exactly that storable row, holding file name, text and NULL in every column the extraction did not name; the staged file is gone unless removal failed |
| `Resumes.AfterExtractionShape` | app/api/v1/endpoints/resumes.py:54-137 | when the update's set fields serialise and every stage succeeds from stage 2 on: the response, files, table and sequence |
| `Resumes.FinishShape` | app/api/v1/endpoints/resumes.py:112-137 | when the updated row can be serialised, stage 6 writes it and removes the file when allowed |
| `Resumes.UploadedRow` | app/api/v1/endpoints/resumes.py:91-116 | the row stage 6 writes holds file name, text, and NULL for every column the extraction did not name; it is storable iff the update's set fields serialise |
| `Resumes.VanishedRowIsServerError` | app/api/v1/endpoints/resumes.py:112-123 | a row deleted before the update answers 500, not 404, and the staged file stays |
| `Resumes.NestedUrlIsServerError` | app/api/v1/endpoints/resumes.py:91-123 | an extraction giving a project a URL answers 500 at stage 6, with the staged file, the id consumed and (unless deleted meanwhile) the pending row left behind |
| `Resumes.UnflushableUpdateFails` | app/api/v1/endpoints/resumes.py:112-123 | an update with a set field that cannot be serialised answers 500 at stage 6 and leaves files and the pending row |
| `Resumes.ReservedKeyFailsRequest` | app/api/v1/endpoints/resumes.py:91-110 | an extraction naming a reserved key makes the whole request fail with 500 at stage 5 |
| `Resumes.ValidPaging` | app/api/v1/endpoints/resumes.py:141-142 | `Query(ge=0)` on `skip` and `Query(ge=1, le=200)` on `limit` |
| `Resumes.Summaries` | app/api/v1/endpoints/resumes.py:151 | one `ResumeListInfo` per row, in the page's order, each the row's list entry |
| `Resumes.ReadResumes` | app/api/v1/endpoints/resumes.py:139-151 | 422 iff `skip < 0` or `limit` outside 1..200; otherwise the list entries of the page rows, in scan order |
| `Resumes.ReadResumeDetails` | app/api/v1/endpoints/resumes.py:153-167 | 404 iff the id is absent; otherwise the stored row with that id |
| `Resumes.DeleteResumeEntry` | app/api/v1/endpoints/resumes.py:169-183 | 404 iff absent, with no change; otherwise the row as it was, now removed |

## Left out

- Logging is not modelled: it has no effect on results. The "does not look like JSON" check at app/services/llm_service.py:120-122 and :162-163 only logs, so the result is the same without it.
- The LLM client's construction, the prompt text and LangChain/Gemini are not modelled. The provider is an oracle from (prompt, attempt number) to an answer or an exception kind. The analysis prompt is `json.dumps(extracted)` plus the raw-text section, with `json.dumps` a parameter.
- `json.loads` is not modelled: it is an abstract decoder parameter.
- Real sleeping and tenacity's internals are not modelled. Only the sequence of configured waits is modelled.
- PyPDF2 and python-docx internals, and real file I/O, are not modelled. The readers' results are inputs, and the disk is a set of paths.
- Pydantic.Validate: strict types only. Pydantic's lax coercions (a number string to float, and so on), and the e-mail and URL syntax beyond an abstract check, are not modelled. An `HttpUrl` keeps the given string, so `str(HttpUrl)`'s normalisation (such as the trailing '/' added to a bare host) is not modelled, and `CrudResume.Stored` writes the string as given. Likewise an `EmailStr` keeps the given string (see the `Pydantic.Coerce` line).
- Pydantic.Coerce: an `EmailStr` value is kept as given. email-validator's normalisation of the stored address is not modelled: surrounding whitespace stripped, a display-name form such as `"Jane <jane@x.com>"` reduced to the bare address, the domain lower-cased. So the `email` column the model writes can differ from the program's.
- Pydantic.Conforms: an instance passed to a model-typed field is recognised by its field names, not by its class.
- PyStr.Lower: ASCII only. Python's full Unicode lower-casing of extensions is not modelled.
- HTTP error detail strings are not modelled. An error response records its status and the stage that failed.
- `ResumeDetail.model_validate` / `ResumeListInfo.model_validate` re-validation of responses is not modelled. The response carries the row itself.
- Resumes.ReadResumes: the database being unreachable during a listing, a read or a delete is not modelled. (The update's own lookup is modelled: `ResumeStore.Update` fails when the database is unreachable.) Those paths just raise.
- The query defaults `skip=0`, `limit=100` are not modelled: they belong to the HTTP layer.
- Table order is not fixed: the table has no ORDER BY. Instead the scan order is a parameter.
- Concurrency between requests is not modelled. The one exception is a delete between insert and update (`World.deletedMeanwhile`), which is what makes the 404 branch at app/api/v1/endpoints/resumes.py:117-119 reachable.
- Commit and refresh mechanics are not modelled. A commit either writes the row or leaves the table as it was. In PostgreSQL a failed insert still consumes a `nextval` of the id sequence; `ResumeStore.Create` leaves the sequence unchanged instead.

## Findings

| source | as written | input that shows it | evidently intended | confidence | as-written member | corrected member |
|---|---|---|---|---|---|---|
| app/crud/crud_resume.py:9-10 | `schema_to_dict` dumps in Python mode, so `HttpUrl` values nested in `projects[].url`, `projects[].repository_url` and `certifications[].credential_url` stay `HttpUrl` objects. The `isinstance(value, HttpUrl)` test at line 45 only sees top-level values, and the re-dumps at lines 59-68 are Python-mode too. The JSONB columns then receive objects `json.dumps` cannot serialise, the commit fails, and the upload answers 500 | an extraction with `"projects": [{"name": "p", "url": "https://example.com"}]` | nested URLs are stored as strings (a JSON-mode dump), so any valid extraction can be stored | not executed | `CrudResume.PythonUpdateNotStorable`, `Resumes.NestedUrlIsServerError` | `CrudResume.JsonUpdateStorable`: the corrected update is `UpdatedRow(JsonMode, …)`. The store and the pipeline keep the code's Python-mode dump (`UpdateMode`) |
