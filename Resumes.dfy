/**
 * The resume endpoints. `UploadResume` is the upload pipeline: a configuration
 * gate, then seven stages (stage the file and extract its text, create the
 * pending row, extraction, analysis, build the update, apply it, remove the
 * staged file). A failing stage answers 500 and leaves behind whatever the
 * earlier stages did. What the outside world does (the write of the staged
 * copy, what the file libraries read, whether the OS lets a file be removed,
 * whether the database is reachable, the database clock, a delete by another
 * request, the e-mail and URL syntax checks) is the `World` the request meets.
 */
module Resumes {
  import opened Wrappers
  import opened PyStr
  import opened Values
  import opened Pydantic
  import opened Models
  import opened Schemas
  import opened CrudResume
  import opened FileHelpers
  import opened LlmService

  /** `settings.GOOGLE_API_KEY` and the service's client. */
  datatype Settings = Settings(googleApiKey: Option<string>, llm: Llm)

  /** The gate: a non-empty API key and an initialised client. */
  predicate Configured(s: Settings)
  {
    s.googleApiKey.Some? && s.googleApiKey.value != "" && s.llm.initialised
  }

  datatype World = World(
    write: WriteOutcome,        // how writing the staged copy goes
    readings: Readings,         // what the PDF/DOCX/text readers yield for it
    removeAllowed: bool,        // whether `os.remove` of the staged file succeeds
    dbCreateUp: bool,           // whether the insert commits
    now: Timestamp,             // the database's `now()` at insert
    deletedMeanwhile: bool,     // another request deletes the new row before the update
    dbUpdateUp: bool,           // whether the update commits
    checks: Checks)             // EmailStr / HttpUrl syntax

  /** The stage whose failure produced an error response. */
  datatype Stage = ConfigCheck | FileProcessing | InitialEntry | DataExtraction | ContentAnalysis | DataPreparation | EntryUpdate

  datatype Response = Success(body: UploadResponse) | HttpError(status: int, stage: Stage)

  const SuccessMessage := "Resume uploaded and processed successfully!"

  // ---------------------------------------------------------------- stage 5

  /** Why building the `ResumeUpdate` failed. */
  datatype PrepError =
    | AnalysisNotMapping      // `LLMAnalysis(**x)` on a non-dict
    | AnalysisInvalid         // the analysis dict fails validation
    | ExtractionNotMapping    // `.items()` on a non-dict
    | DuplicateKeyword        // a kept key repeats an explicit keyword argument
    | UpdateInvalid           // the update fails validation

  /** The keyword arguments the endpoint passes explicitly. */
  predicate Reserved(k: string)
  {
    k == "file_name" || k == "raw_text" || k == "llm_analysis"
  }

  /** The extraction's keys that name a `ResumeUpdate` field, with their values. */
  function Whitelisted(extracted: map<string, Value>): (m: map<string, Value>)
    ensures m.Keys == extracted.Keys * Names(ResumeUpdate)
    ensures forall k :: k in m ==> m[k] == extracted[k]
  {
    map k | k in extracted && k in Names(ResumeUpdate) :: extracted[k]
  }

  /** The keyword arguments of `ResumeUpdate(...)`: the kept keys plus the three explicit ones. */
  function UpdateArguments(filtered: map<string, Value>, fileName: string, rawText: string, analysis: Value): map<string, Value>
  {
    filtered["file_name" := VStr(fileName)]["raw_text" := VStr(rawText)]["llm_analysis" := analysis]
  }

  /** Stage 5: validate the analysis, keep the whitelisted extraction keys, and build the update. */
  function PrepareUpdate(c: Checks, extracted: Value, analysis: Value, fileName: string, rawText: string): (r: Result<Value, PrepError>)
  {
    if !analysis.VDict? then Err(AnalysisNotMapping)
    else
      var la := Validate(c, LLMAnalysis, analysis.entries);
      if la.Err? then Err(AnalysisInvalid)
      else if !extracted.VDict? then Err(ExtractionNotMapping)
      else
        var filtered := Whitelisted(extracted.entries);
        if exists k :: k in filtered && Reserved(k) then Err(DuplicateKeyword)
        else
          var u := Validate(c, ResumeUpdate, UpdateArguments(filtered, fileName, rawText, la.value));
          if u.Err? then Err(UpdateInvalid) else Ok(u.value)
  }

  /** The three explicit arguments are `ResumeUpdate` fields; `file_name` is its first, a string. */
  lemma ReservedFields()
    ensures "file_name" in Names(ResumeUpdate) && IndexOf(ResumeUpdate, "file_name") == 0 && ResumeUpdate[0].ty == FStr
    ensures "raw_text" in Names(ResumeUpdate) && IndexOf(ResumeUpdate, "raw_text") == 20 && ResumeUpdate[20].ty == FStr
    ensures "llm_analysis" in Names(ResumeUpdate) && IndexOf(ResumeUpdate, "llm_analysis") == 21
    ensures ResumeUpdate[21].ty == FModel(LLMAnalysis)
  {
    assert |ResumeBase| == 20;
    assert ResumeUpdate[0].name == "file_name";
    assert ResumeUpdate[20].name == "raw_text";
    assert ResumeUpdate[21].name == "llm_analysis";
  }

  /**
   * A built update is a `ResumeUpdate` instance whose explicitly set fields
   * are exactly the kept extraction keys and the three explicit arguments,
   * which carry the file name, the text and the validated analysis.
   */
  lemma PreparedUpdate(c: Checks, extracted: Value, analysis: Value, fileName: string, rawText: string)
    requires PrepareUpdate(c, extracted, analysis, fileName, rawText).Ok?
    ensures var u := PrepareUpdate(c, extracted, analysis, fileName, rawText).value;
      IsResumeUpdate(u) &&
      u.fieldsSet == (extracted.entries.Keys * Names(ResumeUpdate)) + {"file_name", "raw_text", "llm_analysis"} &&
      u.fields["file_name"] == VStr(fileName) && u.fields["raw_text"] == VStr(rawText) &&
      u.fields["llm_analysis"] == Validate(c, LLMAnalysis, analysis.entries).value
  {
    var la := Validate(c, LLMAnalysis, analysis.entries).value;
    var data := UpdateArguments(Whitelisted(extracted.entries), fileName, rawText, la);
    ReservedFields();
    ArgumentKeys(extracted.entries, fileName, rawText, la);
    ValidatedIsUpdate(c, data);
    UpdateTextAndAnalysis(c, data, rawText, la);
  }

  /** The arguments hold the kept extraction keys and the three explicit ones. */
  lemma ArgumentKeys(extracted: map<string, Value>, fileName: string, rawText: string, la: Value)
    requires "file_name" in Names(ResumeUpdate) && "raw_text" in Names(ResumeUpdate) && "llm_analysis" in Names(ResumeUpdate)
    ensures var data := UpdateArguments(Whitelisted(extracted), fileName, rawText, la);
      data.Keys * Names(ResumeUpdate) == (extracted.Keys * Names(ResumeUpdate)) + {"file_name", "raw_text", "llm_analysis"} &&
      "file_name" in data && data["file_name"] == VStr(fileName)
  {
  }

  /** A validated update whose `file_name` argument is a string is a `ResumeUpdate` instance. */
  lemma ValidatedIsUpdate(c: Checks, data: map<string, Value>)
    requires Validate(c, ResumeUpdate, data).Ok?
    requires "file_name" in data && data["file_name"].VStr?
    ensures IsResumeUpdate(Validate(c, ResumeUpdate, data).value)
    ensures Validate(c, ResumeUpdate, data).value.fieldsSet == data.Keys * Names(ResumeUpdate)
    ensures Validate(c, ResumeUpdate, data).value.fields["file_name"] == data["file_name"]
  {
    var u := Validate(c, ResumeUpdate, data).value;
    ReservedFields();
    assert u.fields["file_name"] == Coerce(FStr, data["file_name"]);
    forall k | k in u.fields && k !in u.fieldsSet
      ensures u.fields[k] == DefaultValue(ResumeUpdate[IndexOf(ResumeUpdate, k)].dflt)
    {
      assert k !in data;
    }
  }

  /** `raw_text` is a plain string field and `llm_analysis` keeps the given instance. */
  lemma UpdateTextAndAnalysis(c: Checks, data: map<string, Value>, rawText: string, la: Value)
    requires Validate(c, ResumeUpdate, data).Ok?
    requires "raw_text" in Names(ResumeUpdate) && "llm_analysis" in Names(ResumeUpdate)
    requires "raw_text" in data && data["raw_text"] == VStr(rawText)
    requires "llm_analysis" in data && data["llm_analysis"] == la && la.VModel?
    ensures Validate(c, ResumeUpdate, data).value.fields["raw_text"] == VStr(rawText)
    ensures Validate(c, ResumeUpdate, data).value.fields["llm_analysis"] == la
  {
    ReservedFields();
  }

  /** An extraction key named like an explicit argument survives the filter and makes stage 5 fail. */
  lemma ReservedKeyCollides(c: Checks, extracted: Value, analysis: Value, fileName: string, rawText: string, k: string)
    requires analysis.VDict? && Validate(c, LLMAnalysis, analysis.entries).Ok?
    requires extracted.VDict? && k in extracted.entries && Reserved(k)
    ensures PrepareUpdate(c, extracted, analysis, fileName, rawText) == Err(DuplicateKeyword)
  {
    ReservedFields();
    assert k in Whitelisted(extracted.entries);
  }

  /** Keys outside the whitelist make no difference to stage 5. */
  lemma UnknownKeysIgnored(c: Checks, extracted: map<string, Value>, analysis: Value, fileName: string, rawText: string, k: string, v: Value)
    requires k !in Names(ResumeUpdate)
    ensures PrepareUpdate(c, VDict(extracted[k := v]), analysis, fileName, rawText)
         == PrepareUpdate(c, VDict(extracted), analysis, fileName, rawText)
  {
    assert Whitelisted(extracted[k := v]) == Whitelisted(extracted);
  }

  // ---------------------------------------------------------------- the pipeline as a function

  /** What a request leaves behind: the response, the disk, the table, and the provider calls each stage made. */
  datatype Outcome = Outcome(
    response: Response,
    files: set<string>,
    rows: map<int, Resume>,
    nextId: int,
    extractionCalls: nat,
    analysisCalls: nat)

  /** `"error" in result` that lets the pipeline go on: a raising test fails the stage like a found key. */
  predicate NoErrorKey(v: Value)
  {
    Contains(v, "error") == Some(false)
  }

  /** Stages 3 to 5: the two provider calls and the building of the update, with the calls each made. */
  function LlmStages(s: Settings, fileName: string, text: string, c: Checks): (Result<Value, Stage>, nat, nat)
  {
    var (ex, exCalls) := Extraction(s.llm, text);
    if !NoErrorKey(ex) then (Err(DataExtraction), exCalls, 0)
    else
      var (an, anCalls) := Analysis(s.llm, ex, Some(text));
      if !NoErrorKey(an) then (Err(ContentAnalysis), exCalls, anCalls)
      else
        var prep := PrepareUpdate(c, ex, an, fileName, text);
        if prep.Err? then (Err(DataPreparation), exCalls, anCalls)
        else (Ok(prep.value), exCalls, anCalls)
  }

  /**
   * Stage 6 and the final cleanup: apply the update to row `id` and remove the
   * staged file. The stage answers 500 when the row is gone, when the database
   * is unreachable, and when the flush cannot serialise the updated row.
   */
  function Finish(w: World, path: string, id: int, u: Value, files: set<string>, rows: map<int, Resume>): (Response, set<string>, map<int, Resume>)
    requires IsResumeUpdate(u)
  {
    var rows1 := if w.deletedMeanwhile then rows - {id} else rows;
    if id !in rows1 || !w.dbUpdateUp then (HttpError(500, EntryUpdate), files, rows1)
    else
      var row := UpdatedRow(UpdateMode, rows1[id], u);
      if !Storable(row) then (HttpError(500, EntryUpdate), files, rows1)
      else (Success(UploadResponse(SuccessMessage, row.id, row)), if w.removeAllowed then files - {path} else files, rows1[id := row])
  }

  /** Every field an update sets can be written by the flush, once the store has dumped it. */
  predicate UpdateFlushable(u: Value)
  {
    u.VModel? && SetFieldsSerialisable(UpdateMode, u)
  }

  /** Stages 2 to 6 and the final cleanup, once the text is extracted and the file staged at `path`. */
  function AfterExtraction(s: Settings, fileName: string, w: World, path: string, text: string,
                           files: set<string>, rows: map<int, Resume>, nextId: int): Outcome
  {
    if !w.dbCreateUp then Outcome(HttpError(500, InitialEntry), files, rows, nextId, 0, 0)
    else
      var id := nextId;
      var rows1 := rows[id := PendingRow(id, fileName, Some(text), w.now)];
      var (u, exCalls, anCalls) := LlmStages(s, fileName, text, w.checks);
      if u.Err? then Outcome(HttpError(500, u.error), files, rows1, id + 1, exCalls, anCalls)
      else
        PreparedIsUpdate(s, fileName, text, w.checks);
        var (response, files1, rows2) := Finish(w, path, id, u.value, files, rows1);
        Outcome(response, files1, rows2, id + 1, exCalls, anCalls)
  }

  lemma PreparedIsUpdate(s: Settings, fileName: string, text: string, c: Checks)
    requires LlmStages(s, fileName, text, c).0.Ok?
    ensures IsResumeUpdate(LlmStages(s, fileName, text, c).0.value)
  {
    var (ex, _) := Extraction(s.llm, text);
    var (an, _) := Analysis(s.llm, ex, Some(text));
    PreparedUpdate(c, ex, an, fileName, text);
  }

  /** `upload_resume`, from the disk and the table before the request. */
  function Upload(s: Settings, fileName: string, w: World, files: set<string>, rows: map<int, Resume>, nextId: int): Outcome
  {
    if !Configured(s) then Outcome(HttpError(500, ConfigCheck), files, rows, nextId, 0, 0)
    else
      var path := Join(UploadDir, fileName);
      var files1 := if w.write == OpenFailed then files else files + {path};
      if w.write != Written then Outcome(HttpError(500, FileProcessing), files1, rows, nextId, 0, 0)
      else
        var text := TextFromFile(path, w.readings);
        if text == "" then
          Outcome(HttpError(500, FileProcessing), if w.removeAllowed then files1 - {path} else files1, rows, nextId, 0, 0)
        else AfterExtraction(s, fileName, w, path, text, files1, rows, nextId)
  }

  // ---------------------------------------------------------------- the pipeline as a method

  method UploadResume(settings: Settings, file: UploadFile, disk: Disk, store: ResumeStore, w: World)
    returns (response: Response)
    requires store.Valid() && !file.closed
    modifies file, disk, store
    ensures store.Valid()
    ensures var o := Upload(settings, file.filename, w, old(disk.files), old(store.rows), old(store.nextId));
      response == o.response && disk.files == o.files && store.rows == o.rows && store.nextId == o.nextId
    ensures file.closed <==> Configured(settings)
  {
    if settings.googleApiKey.None? || settings.googleApiKey.value == "" {
      return HttpError(500, ConfigCheck);
    }
    if !settings.llm.initialised {
      return HttpError(500, ConfigCheck);
    }
    // 1. stage the file and extract its text
    var saved := SaveUploadFile(file, UploadDir, disk, w.write);
    if saved.Err? {
      // the path was never bound, so nothing is cleaned up
      return HttpError(500, FileProcessing);
    }
    var path := saved.value;
    var rawText := GetTextFromFile(path, w.readings);
    if rawText == "" {
      // the 400 raised here is caught by the stage's own handler
      if path in disk.files {
        var _ := disk.Remove(path, w.removeAllowed);
      }
      return HttpError(500, FileProcessing);
    }
    response := ProcessText(settings, file.filename, path, rawText, disk, store, w);
  }

  /** Stages 2 to 7 of `upload_resume`, once the text is extracted and the file staged at `path`. */
  method ProcessText(settings: Settings, fileName: string, path: string, rawText: string, disk: Disk, store: ResumeStore, w: World)
    returns (response: Response)
    requires store.Valid()
    modifies disk, store
    ensures store.Valid()
    ensures var o := AfterExtraction(settings, fileName, w, path, rawText, old(disk.files), old(store.rows), old(store.nextId));
      response == o.response && disk.files == o.files && store.rows == o.rows && store.nextId == o.nextId
  {
    // 2. the pending row
    var created := store.Create(fileName, Some(rawText), w.now, w.dbCreateUp);
    if created.Err? {
      return HttpError(500, InitialEntry);
    }
    var id := created.value.id;
    var update, exCalls, anCalls := RunLlmStages(settings, fileName, rawText, w.checks);
    if update.Err? {
      return HttpError(500, update.error);
    }
    PreparedIsUpdate(settings, fileName, rawText, w.checks);
    response := ApplyUpdate(w, path, id, update.value, disk, store);
  }

  /** Stages 3 to 5: extraction, analysis, and the building of the update. */
  method RunLlmStages(settings: Settings, fileName: string, rawText: string, c: Checks)
    returns (update: Result<Value, Stage>, exCalls: nat, anCalls: nat)
    ensures (update, exCalls, anCalls) == LlmStages(settings, fileName, rawText, c)
  {
    anCalls := 0;
    // 3. extraction
    var extracted;
    extracted, exCalls := ExtractResumeDataFromText(settings.llm, rawText);
    if !NoErrorKey(extracted) {
      return Err(DataExtraction), exCalls, anCalls;
    }
    // 4. analysis
    var analysis;
    analysis, anCalls := AnalyzeResumeContent(settings.llm, extracted, Some(rawText));
    if !NoErrorKey(analysis) {
      return Err(ContentAnalysis), exCalls, anCalls;
    }
    // 5. the update
    var prep := PrepareUpdate(c, extracted, analysis, fileName, rawText);
    if prep.Err? {
      return Err(DataPreparation), exCalls, anCalls;
    }
    update := Ok(prep.value);
  }

  /** Stage 6 and the cleanup after it. */
  method ApplyUpdate(w: World, path: string, id: int, u: Value, disk: Disk, store: ResumeStore) returns (response: Response)
    requires store.Valid() && IsResumeUpdate(u)
    modifies disk, store
    ensures store.Valid() && store.nextId == old(store.nextId)
    ensures var f := Finish(w, path, id, u, old(disk.files), old(store.rows));
      response == f.0 && disk.files == f.1 && store.rows == f.2
  {
    ghost var rows1 := if w.deletedMeanwhile then store.rows - {id} else store.rows;
    // another request may delete the row in between
    if w.deletedMeanwhile {
      var _ := store.Delete(id);
    }
    // 6. apply it; a missing row's 404 is caught by the stage's own handler
    var updated := store.Update(id, u, w.dbUpdateUp);
    if updated.Err? || updated.value.None? {
      return HttpError(500, EntryUpdate);
    }
    var row := updated.value.value;
    assert row == UpdatedRow(UpdateMode, rows1[id], u);
    // 7. remove the staged file; a failure is only logged
    var _ := disk.Remove(path, w.removeAllowed);
    response := Success(UploadResponse(SuccessMessage, row.id, row));
  }

  // ---------------------------------------------------------------- what a request leaves behind

  /** The staged path of an upload. */
  function StagedPath(fileName: string): string
  {
    Join(UploadDir, fileName)
  }

  /** The configuration gate answers 500 before anything is staged, stored or sent to the provider. */
  lemma UnconfiguredTouchesNothing(s: Settings, fileName: string, w: World, files: set<string>, rows: map<int, Resume>, nextId: int)
    requires !Configured(s)
    ensures var o := Upload(s, fileName, w, files, rows, nextId);
      o.response == HttpError(500, ConfigCheck) && o.files == files && o.rows == rows && o.nextId == nextId &&
      o.extractionCalls == 0 && o.analysisCalls == 0
  {
  }

  /**
   * Text that comes out empty answers 500, not the 400 raised for it: the
   * stage's own handler catches it. No row is created, and the staged file is
   * removed when the OS allows it.
   */
  lemma EmptyTextIsServerError(s: Settings, fileName: string, w: World, files: set<string>, rows: map<int, Resume>, nextId: int)
    requires Configured(s) && w.write == Written
    requires TextFromFile(StagedPath(fileName), w.readings) == ""
    ensures var o := Upload(s, fileName, w, files, rows, nextId);
      o.response == HttpError(500, FileProcessing) && o.rows == rows && o.nextId == nextId &&
      o.files == if w.removeAllowed then files - {StagedPath(fileName)} else files + {StagedPath(fileName)}
  {
  }

  /** A copy that fails after `open` created the file leaves it behind: the path was never bound, so no cleanup runs. */
  lemma FailedCopyLeavesFile(s: Settings, fileName: string, w: World, files: set<string>, rows: map<int, Resume>, nextId: int)
    requires Configured(s) && w.write == CopyFailed
    ensures var o := Upload(s, fileName, w, files, rows, nextId);
      o.response == HttpError(500, FileProcessing) && o.files == files + {StagedPath(fileName)} && o.rows == rows
  {
  }

  /** The stage a request failed at lies after the pending row was created. */
  predicate AfterCreate(st: Stage)
  {
    st == DataExtraction || st == ContentAnalysis || st == DataPreparation || st == EntryUpdate
  }

  /**
   * A failure after the row is created leaves the staged file on disk and the
   * row in its pending shape (unless another request deleted it): nothing is
   * rolled back.
   */
  lemma LaterFailuresLeaveTraces(s: Settings, fileName: string, w: World, files: set<string>, rows: map<int, Resume>, nextId: int)
    requires var o := Upload(s, fileName, w, files, rows, nextId);
      o.response.HttpError? && AfterCreate(o.response.stage)
    ensures var o := Upload(s, fileName, w, files, rows, nextId);
      var text := TextFromFile(StagedPath(fileName), w.readings);
      o.response.status == 500 &&
      StagedPath(fileName) in o.files && o.nextId == nextId + 1 &&
      (o.response.stage != EntryUpdate || !w.deletedMeanwhile ==>
         nextId in o.rows && o.rows[nextId] == PendingRow(nextId, fileName, Some(text), w.now))
  {
    var path := StagedPath(fileName);
    var text := StagedText(fileName, w);
    assert Configured(s) && w.write == Written && text != "" && w.dbCreateUp;
    assert Upload(s, fileName, w, files, rows, nextId) == AfterExtraction(s, fileName, w, path, text, files + {path}, rows, nextId);
    FailureAfterCreate(s, fileName, w, path, text, files + {path}, rows, nextId);
  }

  /** A failed run after the row is created touches no file and leaves the pending row unless it vanished. */
  lemma FailureAfterCreate(s: Settings, fileName: string, w: World, path: string, text: string,
                           files: set<string>, rows: map<int, Resume>, nextId: int)
    requires w.dbCreateUp && AfterExtraction(s, fileName, w, path, text, files, rows, nextId).response.HttpError?
    ensures var o := AfterExtraction(s, fileName, w, path, text, files, rows, nextId);
      o.response.status == 500 && AfterCreate(o.response.stage) && o.files == files && o.nextId == nextId + 1 &&
      (o.response.stage != EntryUpdate || !w.deletedMeanwhile ==>
         nextId in o.rows && o.rows[nextId] == PendingRow(nextId, fileName, Some(text), w.now))
  {
    var stages := LlmStages(s, fileName, text, w.checks);
    if stages.0.Ok? {
      PreparedIsUpdate(s, fileName, text, w.checks);
      var pending := PendingRow(nextId, fileName, Some(text), w.now);
      FinishFailure(w, path, nextId, stages.0.value, files, rows[nextId := pending]);
    }
  }

  /** A failed stage 6 answers 500, removes no file, and leaves the row as it was unless it vanished. */
  lemma FinishFailure(w: World, path: string, id: int, u: Value, files: set<string>, rows: map<int, Resume>)
    requires IsResumeUpdate(u) && id in rows && Finish(w, path, id, u, files, rows).0.HttpError?
    ensures var (response, files1, rows1) := Finish(w, path, id, u, files, rows);
      response == HttpError(500, EntryUpdate) && files1 == files &&
      (!w.deletedMeanwhile ==> id in rows1 && rows1[id] == rows[id])
  {
  }

  /** An "error" key in the extraction result (or a result `in` cannot search) fails the request before analysis is asked for. */
  lemma ExtractionErrorSkipsAnalysis(s: Settings, fileName: string, w: World, files: set<string>, rows: map<int, Resume>, nextId: int)
    requires Configured(s) && w.write == Written && w.dbCreateUp
    requires TextFromFile(StagedPath(fileName), w.readings) != ""
    requires !NoErrorKey(Extraction(s.llm, TextFromFile(StagedPath(fileName), w.readings)).0)
    ensures var o := Upload(s, fileName, w, files, rows, nextId);
      o.response == HttpError(500, DataExtraction) && o.analysisCalls == 0 && 1 <= o.extractionCalls <= MaxAttempts
  {
    var text := TextFromFile(StagedPath(fileName), w.readings);
    ExtractionCalls(s.llm, text);
  }

  lemma ExtractionCalls(llm: Llm, text: string)
    requires llm.initialised
    ensures 1 <= Extraction(llm, text).1 <= MaxAttempts
  {
    RetryContract(llm.provider, ExtractionPrompt(text), 1);
  }

  /** The text a configured request with a written copy extracts. */
  function StagedText(fileName: string, w: World): string
  {
    TextFromFile(StagedPath(fileName), w.readings)
  }

  /** A request succeeds exactly when every stage does and no other request deleted the new row. */
  lemma SuccessIff(s: Settings, fileName: string, w: World, files: set<string>, rows: map<int, Resume>, nextId: int)
    ensures Upload(s, fileName, w, files, rows, nextId).response.Success? <==>
      Configured(s) && w.write == Written && StagedText(fileName, w) != "" && w.dbCreateUp &&
      LlmStages(s, fileName, StagedText(fileName, w), w.checks).0.Ok? &&
      !w.deletedMeanwhile && w.dbUpdateUp && UpdateFlushable(LlmStages(s, fileName, StagedText(fileName, w), w.checks).0.value)
  {
    if Configured(s) && w.write == Written && StagedText(fileName, w) != "" {
      var path := StagedPath(fileName);
      AfterExtractionSuccessIff(s, fileName, w, path, StagedText(fileName, w), files + {path}, rows, nextId);
    }
  }

  lemma AfterExtractionSuccessIff(s: Settings, fileName: string, w: World, path: string, text: string,
                                  files: set<string>, rows: map<int, Resume>, nextId: int)
    ensures AfterExtraction(s, fileName, w, path, text, files, rows, nextId).response.Success? <==>
      w.dbCreateUp && LlmStages(s, fileName, text, w.checks).0.Ok? && !w.deletedMeanwhile && w.dbUpdateUp &&
      UpdateFlushable(LlmStages(s, fileName, text, w.checks).0.value)
  {
    var stages := LlmStages(s, fileName, text, w.checks);
    if w.dbCreateUp && stages.0.Ok? {
      PreparedIsUpdate(s, fileName, text, w.checks);
      PendingFinishSuccessIff(w, path, nextId, fileName, text, stages.0.value, files, rows);
    }
  }

  lemma PendingFinishSuccessIff(w: World, path: string, id: int, fileName: string, text: string, u: Value,
                                files: set<string>, rows: map<int, Resume>)
    requires IsResumeUpdate(u)
    ensures Finish(w, path, id, u, files, rows[id := PendingRow(id, fileName, Some(text), w.now)]).0.Success? <==>
      !w.deletedMeanwhile && w.dbUpdateUp && UpdateFlushable(u)
  {
    var pending := PendingRow(id, fileName, Some(text), w.now);
    UpdateStorableIff(UpdateMode, pending, u);
    FinishSuccessIff(w, path, id, u, files, rows[id := pending]);
  }

  lemma FinishSuccessIff(w: World, path: string, id: int, u: Value, files: set<string>, rows: map<int, Resume>)
    requires IsResumeUpdate(u) && id in rows
    ensures Finish(w, path, id, u, files, rows).0.Success? <==>
      !w.deletedMeanwhile && w.dbUpdateUp && Storable(UpdatedRow(UpdateMode, rows[id], u))
  {
  }

  /**
   * On success the response's id is the new row's id, the response carries
   * the stored row, which holds the file name, the extracted text and the
   * database's time, can be stored, and keeps NULL in every column neither
   * the extraction nor the endpoint set; the staged file is gone unless the
   * OS refused to remove it.
   */
  lemma SuccessShape(s: Settings, fileName: string, w: World, files: set<string>, rows: map<int, Resume>, nextId: int)
    requires Upload(s, fileName, w, files, rows, nextId).response.Success?
    ensures var o := Upload(s, fileName, w, files, rows, nextId);
      var body := o.response.body;
      var ex := Extraction(s.llm, StagedText(fileName, w)).0;
      body.message == SuccessMessage && body.resumeId == body.data.id == nextId &&
      o.rows == rows[nextId := body.data] && o.nextId == nextId + 1 &&
      Storable(body.data) && body.data.uploadedAt == w.now &&
      "file_name" in body.data.cols && body.data.cols["file_name"] == VStr(fileName) &&
      "raw_text" in body.data.cols && body.data.cols["raw_text"] == VStr(StagedText(fileName, w)) &&
      ex.VDict? && (forall k :: k in body.data.cols && k !in ex.entries && !Reserved(k) ==> body.data.cols[k] == VNone) &&
      (StagedPath(fileName) in o.files <==> !w.removeAllowed)
  {
    var text := StagedText(fileName, w);
    var path := StagedPath(fileName);
    UploadReachesExtraction(s, fileName, w, files, rows, nextId);
    var (ex, _) := Extraction(s.llm, text);
    var (an, _) := Analysis(s.llm, ex, Some(text));
    AfterExtractionSuccessIff(s, fileName, w, path, text, files + {path}, rows, nextId);
    var u := LlmStages(s, fileName, text, w.checks).0.value;
    StagesPrepared(s, fileName, text, w.checks);
    PreparedIsUpdate(s, fileName, text, w.checks);
    AfterExtractionShape(s, fileName, w, path, text, files + {path}, rows, nextId, u);
    PreparedUpdate(w.checks, ex, an, fileName, text);
    UploadedRow(ex, fileName, text, nextId, w.now, u);
  }

  /** A successful request got past the file stages, with the staged text. */
  lemma UploadReachesExtraction(s: Settings, fileName: string, w: World, files: set<string>, rows: map<int, Resume>, nextId: int)
    requires Upload(s, fileName, w, files, rows, nextId).response.Success?
    ensures Configured(s) && w.write == Written && StagedText(fileName, w) != ""
    ensures Upload(s, fileName, w, files, rows, nextId) ==
      AfterExtraction(s, fileName, w, StagedPath(fileName), StagedText(fileName, w), files + {StagedPath(fileName)}, rows, nextId)
  {
  }

  /** When the model stages succeed, their update is the one stage 5 built from the two answers. */
  lemma StagesPrepared(s: Settings, fileName: string, text: string, c: Checks)
    requires LlmStages(s, fileName, text, c).0.Ok?
    ensures var ex := Extraction(s.llm, text).0;
      PrepareUpdate(c, ex, Analysis(s.llm, ex, Some(text)).0, fileName, text) == Ok(LlmStages(s, fileName, text, c).0.value)
  {
  }

  /** A successful run after extraction updates the pending row with the built update. */
  lemma AfterExtractionShape(s: Settings, fileName: string, w: World, path: string, text: string,
                             files: set<string>, rows: map<int, Resume>, nextId: int, u: Value)
    requires w.dbCreateUp && !w.deletedMeanwhile && w.dbUpdateUp
    requires LlmStages(s, fileName, text, w.checks).0 == Ok(u) && IsResumeUpdate(u) && SetFieldsSerialisable(UpdateMode, u)
    ensures var o := AfterExtraction(s, fileName, w, path, text, files, rows, nextId);
      var row := UpdatedRow(UpdateMode, PendingRow(nextId, fileName, Some(text), w.now), u);
      o.response == Success(UploadResponse(SuccessMessage, row.id, row)) &&
      o.files == (if w.removeAllowed then files - {path} else files) &&
      o.rows == rows[nextId := row] && o.nextId == nextId + 1
  {
    var pending := PendingRow(nextId, fileName, Some(text), w.now);
    var rows1 := rows[nextId := pending];
    UpdateStorableIff(UpdateMode, pending, u);
    FinishShape(w, path, nextId, u, files, rows1);
    OverwriteTwice(rows, nextId, pending, UpdatedRow(UpdateMode, pending, u));
  }

  lemma OverwriteTwice(rows: map<int, Resume>, id: int, first: Resume, second: Resume)
    ensures rows[id := first][id := second] == rows[id := second]
  {
  }

  /** What a successful stage 6 answers and leaves behind. */
  lemma FinishShape(w: World, path: string, id: int, u: Value, files: set<string>, rows: map<int, Resume>)
    requires IsResumeUpdate(u) && id in rows && !w.deletedMeanwhile && w.dbUpdateUp
    requires Storable(UpdatedRow(UpdateMode, rows[id], u))
    ensures var row := UpdatedRow(UpdateMode, rows[id], u);
      Finish(w, path, id, u, files, rows) ==
        (Success(UploadResponse(SuccessMessage, row.id, row)), if w.removeAllowed then files - {path} else files, rows[id := row])
  {
  }

  /**
   * The row stage 6 writes: a pending row updated with what stage 5 built,
   * storable exactly when the update's set fields serialise.
   */
  lemma UploadedRow(ex: Value, fileName: string, text: string, id: int, now: Timestamp, u: Value)
    requires IsResumeUpdate(u) && ex.VDict?
    requires u.fieldsSet == (ex.entries.Keys * Names(ResumeUpdate)) + {"file_name", "raw_text", "llm_analysis"}
    requires u.fields["file_name"] == VStr(fileName) && u.fields["raw_text"] == VStr(text)
    ensures var row := UpdatedRow(UpdateMode, PendingRow(id, fileName, Some(text), now), u);
      (Storable(row) <==> SetFieldsSerialisable(UpdateMode, u)) && row.id == id && row.uploadedAt == now &&
      "file_name" in row.cols && row.cols["file_name"] == VStr(fileName) &&
      "raw_text" in row.cols && row.cols["raw_text"] == VStr(text) &&
      forall k :: k in row.cols && k !in ex.entries && !Reserved(k) ==> row.cols[k] == VNone
  {
    PendingRowUpdate(UpdateMode, id, fileName, text, now, u);
    var row := UpdatedRow(UpdateMode, PendingRow(id, fileName, Some(text), now), u);
    forall k | k in row.cols && k !in ex.entries && !Reserved(k)
      ensures row.cols[k] == VNone
    {
      NotSetByUpload(k, ex.entries.Keys, Names(ResumeUpdate));
    }
  }

  lemma NotSetByUpload(k: string, keys: set<string>, names: set<string>)
    requires k !in keys && !Reserved(k)
    ensures k !in (keys * names) + {"file_name", "raw_text", "llm_analysis"}
  {
  }

  /** A row another request deleted before the update answers 500, not the 404 raised for it. */
  lemma VanishedRowIsServerError(s: Settings, fileName: string, w: World, files: set<string>, rows: map<int, Resume>, nextId: int)
    requires Configured(s) && w.write == Written && StagedText(fileName, w) != "" && w.dbCreateUp
    requires LlmStages(s, fileName, StagedText(fileName, w), w.checks).0.Ok?
    requires w.deletedMeanwhile
    ensures var o := Upload(s, fileName, w, files, rows, nextId);
      o.response == HttpError(500, EntryUpdate) && nextId !in o.rows && StagedPath(fileName) in o.files
  {
  }

  /**
   * A project URL in the extraction that passes `HttpUrl` validation reaches the
   * update as a set `HttpUrl` object inside the `projects` list.
   */
  lemma ExtractedProjectUrl(c: Checks, ex: Value, an: Value, fileName: string, text: string, j: nat)
    requires PrepareUpdate(c, ex, an, fileName, text).Ok?
    requires ex.VDict? && "projects" in ex.entries && ex.entries["projects"].VList? && j < |ex.entries["projects"].items|
    requires var p := ex.entries["projects"].items[j]; p.VDict? && "url" in p.entries && p.entries["url"].VStr?
    ensures var u := PrepareUpdate(c, ex, an, fileName, text).value;
      "projects" in u.fieldsSet && "projects" in u.fields && u.fields["projects"].VList? && j < |u.fields["projects"].items| &&
      var p := u.fields["projects"].items[j];
      p.VModel? && "url" in p.fieldsSet && "url" in p.fields &&
      p.fields["url"] == VUrl(ex.entries["projects"].items[j].entries["url"].s)
  {
    var la := Validate(c, LLMAnalysis, an.entries).value;
    var data := UpdateArguments(Whitelisted(ex.entries), fileName, text, la);
    ProjectsType();
    assert "projects" in data && data["projects"] == ex.entries["projects"];
    var u := Validate(c, ResumeUpdate, data).value;
    assert "projects" in u.fieldsSet && u.fields["projects"] == Coerce(FList(FModel(ProjectBase)), data["projects"]);
    CoercedProjectUrl(data["projects"], j);
  }

  /** Validating a list of project dicts turns the j-th project's URL string into a set `HttpUrl`. */
  lemma CoercedProjectUrl(projects: Value, j: nat)
    requires projects.VList? && j < |projects.items|
    requires var p := projects.items[j]; p.VDict? && "url" in p.entries && p.entries["url"].VStr?
    ensures var v := Coerce(FList(FModel(ProjectBase)), projects);
      v.VList? && j < |v.items| &&
      var p := v.items[j];
      p.VModel? && "url" in p.fieldsSet && "url" in p.fields && p.fields["url"] == VUrl(projects.items[j].entries["url"].s)
  {
    ProjectUrlPosition();
    assert Coerce(FList(FModel(ProjectBase)), projects).items[j] == Coerce(FModel(ProjectBase), projects.items[j]);
  }

  lemma ProjectsType()
    ensures "projects" in Names(ResumeUpdate) && IndexOf(ResumeUpdate, "projects") == 11
    ensures ResumeUpdate[11] == Field("projects", FList(FModel(ProjectBase)), DefaultEmpty)
  {
    ProjectsPosition();
    assert ResumeUpdate[11] == ResumeBase[11];
  }

  lemma ProjectUrlPosition()
    ensures "url" in Names(ProjectBase) && IndexOf(ProjectBase, "url") == 3 && ProjectBase[3].ty == FUrl
  {
    assert ProjectBase[3].name == "url";
  }

  /**
   * An upload whose extraction gives a project a URL that passes `HttpUrl`
   * validation (`w.checks.validUrl`) fails at stage 6: the Python-mode dump
   * leaves the URL object in the `projects` column, the flush cannot
   * serialise it, and the request answers 500 with the staged file and
   * (unless another request deleted it) the pending row left behind.
   */
  lemma NestedUrlIsServerError(s: Settings, fileName: string, w: World, files: set<string>, rows: map<int, Resume>, nextId: int, j: nat)
    requires Configured(s) && w.write == Written && StagedText(fileName, w) != "" && w.dbCreateUp
    requires LlmStages(s, fileName, StagedText(fileName, w), w.checks).0.Ok?
    requires var ex := Extraction(s.llm, StagedText(fileName, w)).0;
      ex.VDict? && "projects" in ex.entries && ex.entries["projects"].VList? && j < |ex.entries["projects"].items| &&
      var p := ex.entries["projects"].items[j]; p.VDict? && "url" in p.entries && p.entries["url"].VStr?
    ensures var o := Upload(s, fileName, w, files, rows, nextId);
      o.response == HttpError(500, EntryUpdate) && StagedPath(fileName) in o.files && o.nextId == nextId + 1 &&
      (!w.deletedMeanwhile ==>
         nextId in o.rows && o.rows[nextId] == PendingRow(nextId, fileName, Some(StagedText(fileName, w)), w.now))
  {
    var text := StagedText(fileName, w);
    var path := StagedPath(fileName);
    var u := LlmStages(s, fileName, text, w.checks).0.value;
    assert !UpdateFlushable(u) by {
      var ex := Extraction(s.llm, text).0;
      StagesPrepared(s, fileName, text, w.checks);
      PreparedIsUpdate(s, fileName, text, w.checks);
      ExtractedProjectUrl(w.checks, ex, Analysis(s.llm, ex, Some(text)).0, fileName, text, j);
      NestedUrlNotFlushable(u, j);
    }
    UnflushableUpdateFails(s, fileName, w, path, text, files + {path}, rows, nextId);
  }

  /**
   * An update with a field that cannot be serialised fails stage 6 with 500,
   * touches no file, and leaves the pending row unless another request deleted it.
   */
  lemma UnflushableUpdateFails(s: Settings, fileName: string, w: World, path: string, text: string,
                               files: set<string>, rows: map<int, Resume>, nextId: int)
    requires w.dbCreateUp && LlmStages(s, fileName, text, w.checks).0.Ok?
    requires !UpdateFlushable(LlmStages(s, fileName, text, w.checks).0.value)
    ensures var o := AfterExtraction(s, fileName, w, path, text, files, rows, nextId);
      o.response == HttpError(500, EntryUpdate) && o.files == files && o.nextId == nextId + 1 &&
      (!w.deletedMeanwhile ==> nextId in o.rows && o.rows[nextId] == PendingRow(nextId, fileName, Some(text), w.now))
  {
    AfterExtractionSuccessIff(s, fileName, w, path, text, files, rows, nextId);
    PreparedIsUpdate(s, fileName, text, w.checks);
    var pending := PendingRow(nextId, fileName, Some(text), w.now);
    FinishStage(w, path, nextId, LlmStages(s, fileName, text, w.checks).0.value, files, rows[nextId := pending]);
    FailureAfterCreate(s, fileName, w, path, text, files, rows, nextId);
  }

  /**
   * Stage 2 fails exactly when the request got past the file stages and the
   * insert cannot commit; it answers 500, keeps the staged file, and leaves
   * the table and the id sequence as they were, with no provider call made.
   */
  lemma InsertFailureLeavesFile(s: Settings, fileName: string, w: World, files: set<string>, rows: map<int, Resume>, nextId: int)
    ensures var o := Upload(s, fileName, w, files, rows, nextId);
      o.response == HttpError(500, InitialEntry) <==>
        Configured(s) && w.write == Written && StagedText(fileName, w) != "" && !w.dbCreateUp
    ensures var o := Upload(s, fileName, w, files, rows, nextId);
      o.response == HttpError(500, InitialEntry) ==>
        o.files == files + {StagedPath(fileName)} && o.rows == rows && o.nextId == nextId &&
        o.extractionCalls == 0 && o.analysisCalls == 0
  {
    if Configured(s) && w.write == Written && StagedText(fileName, w) != "" && w.dbCreateUp {
      var path := StagedPath(fileName);
      CreatedRowNotInitialEntry(s, fileName, w, path, StagedText(fileName, w), files + {path}, rows, nextId);
    }
  }

  /** Once the insert commits, no later stage answers with the insert's failure. */
  lemma CreatedRowNotInitialEntry(s: Settings, fileName: string, w: World, path: string, text: string,
                                  files: set<string>, rows: map<int, Resume>, nextId: int)
    requires w.dbCreateUp
    ensures AfterExtraction(s, fileName, w, path, text, files, rows, nextId).response != HttpError(500, InitialEntry)
  {
    var stages := LlmStages(s, fileName, text, w.checks);
    if stages.0.Ok? {
      PreparedIsUpdate(s, fileName, text, w.checks);
      var pending := PendingRow(nextId, fileName, Some(text), w.now);
      FinishStage(w, path, nextId, stages.0.value, files, rows[nextId := pending]);
    }
  }

  /** Stage 6 fails only as itself. */
  lemma FinishStage(w: World, path: string, id: int, u: Value, files: set<string>, rows: map<int, Resume>)
    requires IsResumeUpdate(u)
    ensures Finish(w, path, id, u, files, rows).0.HttpError? ==> Finish(w, path, id, u, files, rows).0 == HttpError(500, EntryUpdate)
  {
  }

  /** An extraction key named like an explicit argument fails the request at stage 5, after both provider calls. */
  lemma ReservedKeyFailsRequest(s: Settings, fileName: string, w: World, files: set<string>, rows: map<int, Resume>, nextId: int, k: string)
    requires Configured(s) && w.write == Written && StagedText(fileName, w) != "" && w.dbCreateUp
    requires var ex := Extraction(s.llm, StagedText(fileName, w)).0;
      var an := Analysis(s.llm, ex, Some(StagedText(fileName, w))).0;
      NoErrorKey(ex) && NoErrorKey(an) && an.VDict? && Validate(w.checks, LLMAnalysis, an.entries).Ok? &&
      ex.VDict? && k in ex.entries && Reserved(k)
    ensures Upload(s, fileName, w, files, rows, nextId).response == HttpError(500, DataPreparation)
  {
    var text := StagedText(fileName, w);
    var ex := Extraction(s.llm, text).0;
    var an := Analysis(s.llm, ex, Some(text)).0;
    ReservedKeyCollides(w.checks, ex, an, fileName, text, k);
  }

  // ---------------------------------------------------------------- the read and delete endpoints

  /** The query bounds of the listing: `skip >= 0` and `1 <= limit <= 200`. */
  const MaxLimit := 200

  predicate ValidPaging(skip: int, limit: int)
  {
    0 <= skip && 1 <= limit <= MaxLimit
  }

  /** The HTTP statuses the read endpoints answer with besides 200. */
  const UnprocessableEntity := 422
  const NotFound := 404

  /**
   * `read_resumes`: query bounds are checked before the handler runs (422);
   * otherwise the summaries of the page of rows the scan yields.
   */
  method ReadResumes(store: ResumeStore, scan: seq<int>, skip: int, limit: int) returns (r: Result<seq<ListInfo>, int>)
    requires store.Valid()
    requires forall i :: 0 <= i < |scan| ==> scan[i] in store.rows
    requires forall id :: id in store.rows ==> id in scan
    ensures store.Valid()
    ensures r.Err? <==> !ValidPaging(skip, limit)
    ensures r.Err? ==> r.error == UnprocessableEntity
    ensures r.Ok? ==> |r.value| <= limit
    ensures r.Ok? ==> |r.value| == (if skip >= |scan| then 0 else if |scan| - skip < limit then |scan| - skip else limit)
    ensures r.Ok? ==> forall j :: skip <= j < skip + |r.value| ==>
      j < |scan| && WellFormed(store.rows[scan[j]]) && r.value[j - skip] == ListInfoOf(store.rows[scan[j]])
  {
    if !ValidPaging(skip, limit) {
      return Err(UnprocessableEntity);
    }
    var page := store.GetAll(scan, skip, limit);
    PageSummaries(store, scan, skip, page);
    r := Ok(Summaries(page));
  }

  /** The page's rows are stored rows, so each has a summary, in scan order. */
  lemma PageSummaries(store: ResumeStore, scan: seq<int>, skip: nat, page: seq<Resume>)
    requires store.Valid()
    requires forall j :: 0 <= j < |scan| ==> scan[j] in store.rows
    requires page == [] || skip + |page| <= |scan|
    requires forall i :: 0 <= i < |page| ==> page[i] == store.rows[scan[skip + i]]
    ensures forall i :: 0 <= i < |page| ==> WellFormed(page[i])
    ensures forall j :: skip <= j < skip + |page| ==>
      j < |scan| && WellFormed(store.rows[scan[j]]) && Summaries(page)[j - skip] == ListInfoOf(store.rows[scan[j]])
  {
    forall j | skip <= j < skip + |page|
      ensures j < |scan| && WellFormed(store.rows[scan[j]]) && page[j - skip] == store.rows[scan[j]]
    {
      var i := j - skip;
      assert 0 <= i < |page|;
      assert page[i] == store.rows[scan[skip + i]];
      assert skip + i == j;
      var id := scan[j];
      assert id in store.rows;
      assert store.rows[id].id == id && Storable(store.rows[id]);
    }
    forall i | 0 <= i < |page|
      ensures WellFormed(page[i])
    {
      var j := skip + i;
      assert skip <= j < skip + |page|;
      assert page[j - skip] == page[i];
    }
    forall j | skip <= j < skip + |page|
      ensures Summaries(page)[j - skip] == ListInfoOf(store.rows[scan[j]])
    {
      assert Summaries(page)[j - skip] == ListInfoOf(page[j - skip]);
    }
  }

  /** `[ResumeListInfo.model_validate(r) for r in rows]`. */
  function Summaries(page: seq<Resume>): (infos: seq<ListInfo>)
    requires forall i :: 0 <= i < |page| ==> WellFormed(page[i])
    ensures |infos| == |page| && forall i :: 0 <= i < |page| ==> infos[i] == ListInfoOf(page[i])
  {
    seq(|page|, i requires 0 <= i < |page| => ListInfoOf(page[i]))
  }

  /** `read_resume_details`: the stored row, or 404 when there is none with that id. */
  method ReadResumeDetails(store: ResumeStore, id: int) returns (r: Result<Resume, int>)
    requires store.Valid()
    ensures store.Valid()
    ensures r.Err? <==> id !in store.rows
    ensures r.Err? ==> r.error == NotFound
    ensures r.Ok? ==> r.value == store.rows[id] && r.value.id == id && Storable(r.value)
  {
    var row := store.Get(id);
    if row.None? {
      return Err(NotFound);
    }
    r := Ok(row.value);
  }

  /** `delete_resume_entry`: the row as it was before deletion, or 404 when there is none with that id. */
  method DeleteResumeEntry(store: ResumeStore, id: int) returns (r: Result<Resume, int>)
    requires store.Valid()
    modifies store
    ensures store.Valid() && store.nextId == old(store.nextId)
    ensures r.Err? <==> id !in old(store.rows)
    ensures r.Err? ==> r.error == NotFound && store.rows == old(store.rows)
    ensures r.Ok? ==> r.value == old(store.rows)[id] && r.value.id == id
    ensures store.rows == old(store.rows) - {id}
  {
    var row := store.Delete(id);
    if row.None? {
      return Err(NotFound);
    }
    r := Ok(row.value);
  }
}
