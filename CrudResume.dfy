/**
 * The database access layer: the `resumes` table as a map from id to row,
 * with the next value of the id sequence. A commit that cannot be written
 * (the database is unreachable, or a value cannot be serialised) leaves the
 * table as it was.
 */
module CrudResume {
  import opened Wrappers
  import opened Values
  import opened Pydantic
  import opened Models
  import opened Schemas

  datatype DbError = DbError

  /**
   * `schema_to_dict`: `model_dump(exclude_unset=True)` in the given mode; the
   * store's update uses `UpdateMode`.
   */
  function SchemaToDict(mode: DumpMode, instance: Value): (d: Value)
    requires instance.VModel?
    ensures d.VDict? && d.entries.Keys == instance.fieldsSet * instance.fields.Keys
    ensures forall k :: k in d.entries ==> d.entries[k] == Dump(mode, instance.fields[k])
  {
    DumpKeepsSetFields(mode, instance);
    Dump(mode, instance)
  }

  /**
   * `model_dump`'s default, Python mode: a URL nested in a record stays a URL
   * object on its way to a JSONB column.
   */
  const UpdateMode := PythonMode

  /**
   * A `ResumeUpdate` instance: every field present, the unset ones at their
   * defaults, URL objects only in `HttpUrl` fields, and a string `file_name`.
   */
  predicate IsResumeUpdate(u: Value)
  {
    u.VModel? && u.fields.Keys == Names(ResumeUpdate) && u.fieldsSet <= u.fields.Keys &&
    (forall k :: k in u.fields && k !in u.fieldsSet ==>
      u.fields[k] == DefaultValue(ResumeUpdate[IndexOf(ResumeUpdate, k)].dflt)) &&
    (forall k :: k in u.fields && !ResumeUpdate[IndexOf(ResumeUpdate, k)].ty.FUrl? ==> !u.fields[k].VUrl?) &&
    "file_name" in u.fields && u.fields["file_name"].VStr?
  }

  /** What `setattr` stores for one value: an `HttpUrl` as its string, anything else as it is. */
  function Stored(v: Value): (s: Value)
    ensures !s.VUrl?
    ensures !v.VUrl? ==> s == v
  {
    if v.VUrl? then VStr(v.url) else v
  }

  /** The `setattr` loop: every dumped key that is a column of the row takes its value. */
  function SetAttrs(row: Resume, d: map<string, Value>): Resume
  {
    row.(cols := map k | k in row.cols :: if k in d then Stored(d[k]) else row.cols[k])
  }

  /** The list-of-record fields that are dumped again when non-empty. */
  const RecordListFields: seq<string> := ["education_history", "work_experience", "projects", "languages", "certifications"]

  /** Where those fields sit among the columns and the `ResumeUpdate` fields. */
  const RecordListIndices: seq<nat> := [9, 10, 11, 15, 16]

  /** The `setattr` loop over the dumped keys, one key at a time, in any order. */
  method SetAttrLoop(row: Resume, d: map<string, Value>) returns (r: Resume)
    ensures r == SetAttrs(row, d)
  {
    var cols := row.cols;
    var todo := d.Keys;
    while todo != {}
      invariant todo <= d.Keys
      invariant cols.Keys == row.cols.Keys
      invariant forall k :: k in cols ==> cols[k] == if k in d && k !in todo then Stored(d[k]) else row.cols[k]
      decreases todo
    {
      var k :| k in todo;
      if k in cols {
        cols := cols[k := Stored(d[k])];
      }
      todo := todo - {k};
    }
    r := row.(cols := cols);
  }

  /** The explicit re-dumps after the loop: the analysis when not None, each record list when non-empty. */
  function RedumpNested(mode: DumpMode, row: Resume, u: Value): (r: Resume)
    requires u.VModel?
    ensures r.id == row.id && r.uploadedAt == row.uploadedAt
  {
    var row1 :=
      if "llm_analysis" in u.fields && u.fields["llm_analysis"] != VNone
      then row.(cols := row.cols["llm_analysis" := Dump(mode, u.fields["llm_analysis"])])
      else row;
    RedumpLists(mode, row1, u, RecordListFields)
  }

  function RedumpLists(mode: DumpMode, row: Resume, u: Value, names: seq<string>): (r: Resume)
    requires u.VModel?
    ensures r.id == row.id && r.uploadedAt == row.uploadedAt
    decreases |names|
  {
    if names == [] then row
    else
      var k := names[0];
      var row1 := if k in u.fields && Truthy(u.fields[k]) then row.(cols := row.cols[k := Dump(mode, u.fields[k])]) else row;
      RedumpLists(mode, row1, u, names[1..])
  }

  /** The row `update_resume_with_extracted_data` writes, for a given dump mode. */
  function UpdatedRow(mode: DumpMode, row: Resume, u: Value): Resume
    requires u.VModel?
  {
    RedumpNested(mode, SetAttrs(row, SchemaToDict(mode, u).entries), u)
  }

  lemma {:induction false} RedumpListsUnchanged(mode: DumpMode, row: Resume, u: Value, names: seq<string>)
    requires u.VModel?
    requires forall j :: 0 <= j < |names| && names[j] in u.fields && Truthy(u.fields[names[j]]) ==>
               names[j] in row.cols && row.cols[names[j]] == Dump(mode, u.fields[names[j]])
    ensures RedumpLists(mode, row, u, names) == row
    decreases |names|
  {
    if names != [] {
      var k := names[0];
      if k in u.fields && Truthy(u.fields[k]) {
        assert row.cols[k := Dump(mode, u.fields[k])] == row.cols;
      }
      assert forall j :: 0 <= j < |names[1..]| ==> names[1..][j] == names[j + 1];
      RedumpListsUnchanged(mode, row, u, names[1..]);
    }
  }

  /** The `setattr` loop stores every explicitly set field and nothing else. */
  lemma SetAttrsShape(mode: DumpMode, row: Resume, u: Value)
    requires u.VModel? && u.fieldsSet <= u.fields.Keys
    ensures var s := SetAttrs(row, SchemaToDict(mode, u).entries);
      s.id == row.id && s.uploadedAt == row.uploadedAt && s.cols.Keys == row.cols.Keys &&
      forall k :: k in row.cols ==> s.cols[k] == if k in u.fieldsSet then Stored(Dump(mode, u.fields[k])) else row.cols[k]
  {
  }

  /** Where the analysis and the record lists sit among the `ResumeUpdate` fields. */
  lemma UpdateFieldPositions()
    ensures "llm_analysis" in Names(ResumeUpdate) && IndexOf(ResumeUpdate, "llm_analysis") == 21
    ensures ResumeUpdate[21] == Field("llm_analysis", FModel(LLMAnalysis), DefaultNone)
    ensures forall j :: 0 <= j < |RecordListFields| ==>
      RecordListFields[j] in Names(ResumeUpdate) && IndexOf(ResumeUpdate, RecordListFields[j]) == RecordListIndices[j]
    ensures forall j :: 0 <= j < |RecordListIndices| ==>
      RecordListIndices[j] < |ResumeUpdate| && ResumeUpdate[RecordListIndices[j]].ty.FList? && ResumeUpdate[RecordListIndices[j]].dflt == DefaultEmpty
  {
    AnalysisPosition();
    EducationPosition();
    WorkExperiencePosition();
    ProjectsPosition();
    LanguagesPosition();
    CertificationsPosition();
    forall j | 0 <= j < |RecordListFields|
      ensures RecordListFields[j] in Names(ResumeUpdate) && IndexOf(ResumeUpdate, RecordListFields[j]) == RecordListIndices[j]
      ensures ResumeUpdate[RecordListIndices[j]].ty.FList? && ResumeUpdate[RecordListIndices[j]].dflt == DefaultEmpty
    {
      assert j == 0 || j == 1 || j == 2 || j == 3 || j == 4;
    }
  }

  lemma AnalysisPosition()
    ensures "llm_analysis" in Names(ResumeUpdate) && IndexOf(ResumeUpdate, "llm_analysis") == 21
    ensures ResumeUpdate[21] == Field("llm_analysis", FModel(LLMAnalysis), DefaultNone)
  {
    assert ResumeUpdate[21].name == "llm_analysis";
  }

  lemma EducationPosition()
    ensures "education_history" in Names(ResumeUpdate) && IndexOf(ResumeUpdate, "education_history") == 9
    ensures ResumeUpdate[9].ty.FList? && ResumeUpdate[9].dflt == DefaultEmpty
  {
    assert ResumeUpdate[9].name == "education_history";
  }

  lemma WorkExperiencePosition()
    ensures "work_experience" in Names(ResumeUpdate) && IndexOf(ResumeUpdate, "work_experience") == 10
    ensures ResumeUpdate[10].ty.FList? && ResumeUpdate[10].dflt == DefaultEmpty
  {
    assert ResumeUpdate[10].name == "work_experience";
  }

  lemma ProjectsPosition()
    ensures "projects" in Names(ResumeUpdate) && IndexOf(ResumeUpdate, "projects") == 11
    ensures ResumeUpdate[11].ty.FList? && ResumeUpdate[11].dflt == DefaultEmpty
  {
    assert ResumeUpdate[11].name == "projects";
  }

  lemma LanguagesPosition()
    ensures "languages" in Names(ResumeUpdate) && IndexOf(ResumeUpdate, "languages") == 15
    ensures ResumeUpdate[15].ty.FList? && ResumeUpdate[15].dflt == DefaultEmpty
  {
    assert ResumeUpdate[15].name == "languages";
  }

  lemma CertificationsPosition()
    ensures "certifications" in Names(ResumeUpdate) && IndexOf(ResumeUpdate, "certifications") == 16
    ensures ResumeUpdate[16].ty.FList? && ResumeUpdate[16].dflt == DefaultEmpty
  {
    assert ResumeUpdate[16].name == "certifications";
  }

  /** A non-None analysis in an update was set explicitly, and is a record, not a URL. */
  lemma AnalysisWasSet(u: Value)
    requires IsResumeUpdate(u)
    ensures "llm_analysis" in u.fields
    ensures u.fields["llm_analysis"] != VNone ==> "llm_analysis" in u.fieldsSet && !u.fields["llm_analysis"].VUrl?
  {
    UpdateFieldPositions();
  }

  /** A non-empty record list in an update was set explicitly, and is not a URL. */
  lemma RecordListsWereSet(u: Value)
    requires IsResumeUpdate(u)
    ensures forall j :: 0 <= j < |RecordListFields| ==> RecordListFields[j] in u.fields
    ensures forall j :: 0 <= j < |RecordListFields| && Truthy(u.fields[RecordListFields[j]]) ==>
      RecordListFields[j] in u.fieldsSet && !u.fields[RecordListFields[j]].VUrl?
  {
    UpdateFieldPositions();
  }

  /**
   * The explicit re-dumps of the analysis and of the record lists rewrite what
   * the loop already stored, so the update writes each explicitly set field
   * once, as its dump (a top-level URL as its string), and leaves the id, the
   * upload time and every column the update did not set as they were.
   */
  lemma UpdateFrame(mode: DumpMode, row: Resume, u: Value)
    requires IsResumeUpdate(u) && WellFormed(row)
    ensures var r := UpdatedRow(mode, row, u);
      r.id == row.id && r.uploadedAt == row.uploadedAt && r.cols.Keys == row.cols.Keys &&
      (forall k :: k in row.cols && k !in u.fieldsSet ==> r.cols[k] == row.cols[k]) &&
      (forall k :: k in row.cols && k in u.fieldsSet ==> r.cols[k] == Stored(Dump(mode, u.fields[k])))
  {
    RedumpsRewriteLoop(mode, row, u);
    SetAttrsShape(mode, row, u);
  }

  lemma AnalysisRedumpUnchanged(mode: DumpMode, row: Resume, u: Value)
    requires u.VModel? && "llm_analysis" in u.fields
    requires u.fields["llm_analysis"] != VNone ==>
      "llm_analysis" in row.cols && row.cols["llm_analysis"] == Dump(mode, u.fields["llm_analysis"])
    ensures RedumpNested(mode, row, u) == RedumpLists(mode, row, u, RecordListFields)
  {
    var a := u.fields["llm_analysis"];
    if a != VNone {
      assert row.cols["llm_analysis" := Dump(mode, a)] == row.cols;
    }
  }

  lemma RedumpedAreColumns()
    ensures "llm_analysis" in ColumnNames()
    ensures forall j :: 0 <= j < |RecordListFields| ==> RecordListFields[j] in ColumnNames()
  {
    assert Columns[21].name == "llm_analysis";
    forall j | 0 <= j < |RecordListFields| ensures RecordListFields[j] in ColumnNames() {
      assert Columns[RecordListIndices[j]].name == RecordListFields[j];
    }
  }

  /** After the loop the analysis column already holds the dump of a non-None analysis. */
  lemma AnalysisStored(mode: DumpMode, row: Resume, u: Value)
    requires u.VModel? && u.fieldsSet <= u.fields.Keys && WellFormed(row)
    requires "llm_analysis" in u.fields
    requires u.fields["llm_analysis"] != VNone ==> "llm_analysis" in u.fieldsSet && !u.fields["llm_analysis"].VUrl?
    ensures var set1 := SetAttrs(row, SchemaToDict(mode, u).entries);
      u.fields["llm_analysis"] != VNone ==>
        "llm_analysis" in set1.cols && set1.cols["llm_analysis"] == Dump(mode, u.fields["llm_analysis"])
  {
    SetAttrsShape(mode, row, u);
    RedumpedAreColumns();
  }

  /** After the loop each record-list column already holds the dump of a non-empty list. */
  lemma RecordListsStored(mode: DumpMode, row: Resume, u: Value)
    requires u.VModel? && u.fieldsSet <= u.fields.Keys && WellFormed(row)
    requires forall j :: 0 <= j < |RecordListFields| ==> RecordListFields[j] in u.fields
    requires forall j :: 0 <= j < |RecordListFields| && Truthy(u.fields[RecordListFields[j]]) ==>
      RecordListFields[j] in u.fieldsSet && !u.fields[RecordListFields[j]].VUrl?
    ensures var set1 := SetAttrs(row, SchemaToDict(mode, u).entries);
      forall j :: 0 <= j < |RecordListFields| && RecordListFields[j] in u.fields && Truthy(u.fields[RecordListFields[j]]) ==>
        RecordListFields[j] in set1.cols && set1.cols[RecordListFields[j]] == Dump(mode, u.fields[RecordListFields[j]])
  {
    var set1 := SetAttrs(row, SchemaToDict(mode, u).entries);
    SetAttrsShape(mode, row, u);
    RedumpedAreColumns();
    forall j | 0 <= j < |RecordListFields| && RecordListFields[j] in u.fields && Truthy(u.fields[RecordListFields[j]])
      ensures RecordListFields[j] in set1.cols && set1.cols[RecordListFields[j]] == Dump(mode, u.fields[RecordListFields[j]])
    {
      var k := RecordListFields[j];
      assert k in u.fieldsSet && !u.fields[k].VUrl? && k in row.cols;
      assert set1.cols[k] == Stored(Dump(mode, u.fields[k]));
    }
  }

  /** The re-dumps after the loop change nothing the loop did not already store. */
  lemma RedumpsRewriteLoop(mode: DumpMode, row: Resume, u: Value)
    requires IsResumeUpdate(u) && WellFormed(row)
    ensures UpdatedRow(mode, row, u) == SetAttrs(row, SchemaToDict(mode, u).entries)
  {
    var set1 := SetAttrs(row, SchemaToDict(mode, u).entries);
    AnalysisWasSet(u);
    RecordListsWereSet(u);
    AnalysisStored(mode, row, u);
    RecordListsStored(mode, row, u);
    AnalysisRedumpUnchanged(mode, set1, u);
    RedumpListsUnchanged(mode, set1, u, RecordListFields);
  }

  lemma DumpString(mode: DumpMode, v: Value)
    requires v.VStr?
    ensures Dump(mode, v) == v
  {
  }

  /** Every explicitly set field of an update is stored as a JSON-serialisable value. */
  predicate SetFieldsSerialisable(mode: DumpMode, u: Value)
    requires u.VModel?
  {
    forall k :: k in u.fieldsSet && k in u.fields ==> JsonSerialisable(Stored(Dump(mode, u.fields[k])))
  }

  /**
   * An update of a storable row can be flushed exactly when every field it
   * sets is stored as a serialisable value; it keeps the id and upload time.
   */
  lemma UpdateStorableIff(mode: DumpMode, row: Resume, u: Value)
    requires IsResumeUpdate(u) && Storable(row)
    ensures var r := UpdatedRow(mode, row, u);
      (Storable(r) <==> SetFieldsSerialisable(mode, u)) && r.id == row.id && r.uploadedAt == row.uploadedAt
  {
    var r := UpdatedRow(mode, row, u);
    UpdateFrame(mode, row, u);
    UpdateFieldsAreColumns();
    if SetFieldsSerialisable(mode, u) {
      WritesKeepStorable(mode, row, r, u);
    }
    if Storable(r) {
      forall k | k in u.fieldsSet && k in u.fields ensures JsonSerialisable(Stored(Dump(mode, u.fields[k]))) {
        assert k in row.cols && r.cols[k] == Stored(Dump(mode, u.fields[k]));
      }
    }
  }

  /** Writing the stored dumps of an instance's set fields over a storable row keeps it storable when they serialise. */
  lemma WritesKeepStorable(mode: DumpMode, row: Resume, r: Resume, u: Value)
    requires u.VModel? && u.fieldsSet <= u.fields.Keys && Storable(row) && SetFieldsSerialisable(mode, u)
    requires "file_name" in u.fields && u.fields["file_name"].VStr?
    requires r.cols.Keys == row.cols.Keys
    requires forall k :: k in row.cols && k !in u.fieldsSet ==> r.cols[k] == row.cols[k]
    requires forall k :: k in row.cols && k in u.fieldsSet ==> r.cols[k] == Stored(Dump(mode, u.fields[k]))
    ensures Storable(r)
  {
    if "file_name" in u.fieldsSet {
      DumpString(mode, u.fields["file_name"]);
    }
  }

  /** The JSON-mode dump stores every set field as a serialisable value. */
  lemma JsonSetFieldsSerialisable(u: Value)
    requires u.VModel?
    ensures SetFieldsSerialisable(JsonMode, u)
  {
    forall k | k in u.fieldsSet && k in u.fields ensures JsonSerialisable(Stored(Dump(JsonMode, u.fields[k]))) {
      JsonDumpSerialisable(u.fields[k]);
    }
  }

  /**
   * The evidently intended update, `UpdatedRow(JsonMode, ...)`: with the
   * JSON-mode dump an update keeps a storable row storable, whatever URLs its
   * records hold. The store itself keeps the code's `UpdateMode`.
   */
  lemma JsonUpdateStorable(row: Resume, u: Value)
    requires IsResumeUpdate(u) && Storable(row)
    ensures var r := UpdatedRow(JsonMode, row, u);
      Storable(r) && r.id == row.id && r.uploadedAt == row.uploadedAt
  {
    JsonSetFieldsSerialisable(u);
    UpdateStorableIff(JsonMode, row, u);
  }

  /**
   * Updating a freshly created row with an update that sets its file name and
   * text: the row keeps both, every column the update did not set is still
   * NULL, and it is storable exactly when the set fields serialise.
   */
  lemma PendingRowUpdate(mode: DumpMode, id: int, fileName: string, text: string, now: Timestamp, u: Value)
    requires IsResumeUpdate(u)
    requires "file_name" in u.fieldsSet && u.fields["file_name"] == VStr(fileName)
    requires "raw_text" in u.fieldsSet && u.fields["raw_text"] == VStr(text)
    ensures var row := UpdatedRow(mode, PendingRow(id, fileName, Some(text), now), u);
      (Storable(row) <==> SetFieldsSerialisable(mode, u)) && row.id == id && row.uploadedAt == now &&
      "file_name" in row.cols && row.cols["file_name"] == VStr(fileName) &&
      "raw_text" in row.cols && row.cols["raw_text"] == VStr(text) &&
      forall k :: k in row.cols && k !in u.fieldsSet ==> row.cols[k] == VNone
  {
    UpdateStorableIff(mode, PendingRow(id, fileName, Some(text), now), u);
    PendingRowFrame(mode, id, fileName, text, now, u);
  }

  lemma PendingRowFrame(mode: DumpMode, id: int, fileName: string, text: string, now: Timestamp, u: Value)
    requires IsResumeUpdate(u)
    requires "file_name" in u.fieldsSet && u.fields["file_name"] == VStr(fileName)
    requires "raw_text" in u.fieldsSet && u.fields["raw_text"] == VStr(text)
    ensures var row := UpdatedRow(mode, PendingRow(id, fileName, Some(text), now), u);
      "file_name" in row.cols && row.cols["file_name"] == VStr(fileName) &&
      "raw_text" in row.cols && row.cols["raw_text"] == VStr(text) &&
      forall k :: k in row.cols && k !in u.fieldsSet ==> row.cols[k] == VNone
  {
    var pending := PendingRow(id, fileName, Some(text), now);
    UpdateFrame(mode, pending, u);
    DumpString(mode, u.fields["file_name"]);
    DumpString(mode, u.fields["raw_text"]);
  }

  /**
   * As written, the update dumps in Python mode: a URL inside a project entry
   * stays a URL object in the `projects` column, which the flush cannot
   * serialise, so the commit fails for every such update.
   */
  lemma PythonUpdateNotStorable(row: Resume, u: Value, j: nat)
    requires IsResumeUpdate(u) && WellFormed(row)
    requires "projects" in u.fieldsSet && u.fields["projects"].VList? && j < |u.fields["projects"].items|
    requires var p := u.fields["projects"].items[j];
      p.VModel? && "url" in p.fieldsSet && "url" in p.fields && p.fields["url"].VUrl?
    ensures !Storable(UpdatedRow(PythonMode, row, u))
  {
    var r := UpdatedRow(PythonMode, row, u);
    var projects := u.fields["projects"];
    RedumpedAreColumns();
    assert RecordListFields[2] == "projects";
    UpdateFrame(PythonMode, row, u);
    assert r.cols["projects"] == Dump(PythonMode, projects);
    NestedUrlNotSerialisable(projects, j);
    assert !JsonSerialisable(r.cols["projects"]);
  }

  /** So an update with such a project is not flushable in Python mode, whatever row it updates. */
  lemma NestedUrlNotFlushable(u: Value, j: nat)
    requires IsResumeUpdate(u)
    requires "projects" in u.fieldsSet && u.fields["projects"].VList? && j < |u.fields["projects"].items|
    requires var p := u.fields["projects"].items[j];
      p.VModel? && "url" in p.fieldsSet && "url" in p.fields && p.fields["url"].VUrl?
    ensures !SetFieldsSerialisable(PythonMode, u)
  {
    NestedUrlNotSerialisable(u.fields["projects"], j);
    assert !JsonSerialisable(Stored(Dump(PythonMode, u.fields["projects"])));
  }

  lemma NestedUrlNotSerialisable(v: Value, j: nat)
    requires v.VList? && j < |v.items|
    requires var p := v.items[j];
      p.VModel? && "url" in p.fieldsSet && "url" in p.fields && p.fields["url"].VUrl?
    ensures !JsonSerialisable(Dump(PythonMode, v))
  {
    PythonDumpKeepsUrl(v.items[j], "url");
    assert Dump(PythonMode, v).items[j] == Dump(PythonMode, v.items[j]);
  }

  /** The table invariant: ids below the sequence's next value, each row under its own id, each storable. */
  predicate StoredRows(rows: map<int, Resume>, nextId: int)
  {
    forall id :: id in rows ==> 1 <= id < nextId && rows[id].id == id && Storable(rows[id])
  }

  /** Replacing a row by a storable row with the same id keeps the table invariant. */
  lemma ReplaceStoredRow(rows: map<int, Resume>, nextId: int, id: int, row: Resume)
    requires StoredRows(rows, nextId) && id in rows && row.id == id && Storable(row)
    ensures StoredRows(rows[id := row], nextId)
  {
  }

  class ResumeStore {
    var rows: map<int, Resume>
    /** The next value of the `id` sequence. */
    var nextId: int

    ghost predicate Valid()
      reads this
    {
      nextId >= 1 && StoredRows(rows, nextId)
    }

    constructor ()
      ensures Valid() && rows == map[] && nextId == 1
    {
      rows := map[];
      nextId := 1;
    }

    /**
     * `create_resume_entry`: a row with the given file name and raw text, a
     * fresh id and the database's time; every other column NULL.
     */
    method Create(fileName: string, rawText: Option<string>, now: Timestamp, dbUp: bool) returns (r: Result<Resume, DbError>)
      requires Valid()
      modifies this
      ensures Valid()
      ensures dbUp <==> r.Ok?
      ensures r.Ok? ==> r.value == PendingRow(old(nextId), fileName, rawText, now) && r.value.id !in old(rows)
      ensures rows == if r.Ok? then old(rows)[r.value.id := r.value] else old(rows)
      ensures nextId == if r.Ok? then old(nextId) + 1 else old(nextId)
    {
      if !dbUp {
        return Err(DbError);
      }
      var row := PendingRow(nextId, fileName, rawText, now);
      rows := rows[nextId := row];
      nextId := nextId + 1;
      r := Ok(row);
    }

    /** `get_resume_by_id` */
    method Get(id: int) returns (r: Option<Resume>)
      requires Valid()
      ensures r.Some? <==> id in rows
      ensures r.Some? ==> r.value == rows[id] && r.value.id == id
    {
      r := if id in rows then Some(rows[id]) else None;
    }

    /**
     * `get_all_resumes`: `scan` is the order in which the database happens to
     * return the rows (there is no ORDER BY); the page skips `skip` of them and
     * keeps at most `limit`.
     */
    method GetAll(scan: seq<int>, skip: nat, limit: nat) returns (page: seq<Resume>)
      requires Valid()
      requires forall i :: 0 <= i < |scan| ==> scan[i] in rows
      requires forall id :: id in rows ==> id in scan
      ensures |page| <= limit
      ensures |page| == if skip >= |scan| then 0 else if |scan| - skip < limit then |scan| - skip else limit
      ensures forall i :: 0 <= i < |page| ==> page[i] == rows[scan[skip + i]]
    {
      page := [];
      if skip >= |scan| {
        return;
      }
      var i := skip;
      while i < |scan| && |page| < limit
        invariant skip <= i <= |scan|
        invariant |page| == i - skip
        invariant |page| <= limit
        invariant forall j :: 0 <= j < |page| ==> page[j] == rows[scan[skip + j]]
      {
        page := page + [rows[scan[i]]];
        i := i + 1;
      }
    }

    /**
     * `update_resume_with_extracted_data`. An unreachable database makes the
     * lookup raise before anything is written; an absent id gives None;
     * otherwise the row becomes `UpdatedRow`, unless the flush cannot
     * serialise it (a URL object inside a record list), in which case the
     * commit fails and the table stays as it was.
     */
    method Update(id: int, u: Value, dbUp: bool) returns (r: Result<Option<Resume>, DbError>)
      requires Valid() && IsResumeUpdate(u)
      modifies this
      ensures Valid() && nextId == old(nextId)
      ensures !dbUp ==> r == Err(DbError) && rows == old(rows)
      ensures dbUp && id !in old(rows) ==> r == Ok(None) && rows == old(rows)
      ensures dbUp && id in old(rows) ==>
        var row := UpdatedRow(UpdateMode, old(rows)[id], u);
        if Storable(row) then r == Ok(Some(row)) && rows == old(rows)[id := row]
        else r == Err(DbError) && rows == old(rows)
    {
      if !dbUp {
        return Err(DbError);
      }
      if id !in rows {
        return Ok(None);
      }
      var row := SetAttrLoop(rows[id], SchemaToDict(UpdateMode, u).entries);
      row := RedumpNested(UpdateMode, row, u);
      UpdateStorableIff(UpdateMode, rows[id], u);
      if !Storable(row) {
        return Err(DbError);
      }
      ReplaceStoredRow(rows, nextId, id, row);
      rows := rows[id := row];
      r := Ok(Some(row));
    }

    /** `delete_resume`: the row as it was before the delete, or None and no change. */
    method Delete(id: int) returns (r: Option<Resume>)
      requires Valid()
      modifies this
      ensures Valid() && nextId == old(nextId)
      ensures r.Some? <==> id in old(rows)
      ensures r.Some? ==> r.value == old(rows)[id]
      ensures rows == old(rows) - {id}
    {
      if id in rows {
        r := Some(rows[id]);
        rows := rows - {id};
      } else {
        r := None;
      }
    }
  }
}
