/**
 * The `resumes` table: an integer primary key, a server-assigned upload time,
 * the non-null `file_name`, and nullable columns for every profile field, the
 * raw text and the analysis. JSONB columns hold opaque JSON values.
 */
module Models {
  import opened Wrappers
  import opened Values

  /** Seconds since the epoch, as returned by the database's `now()`. */
  type Timestamp = int

  datatype SqlType = SqlString | SqlText | SqlJsonb | SqlBoolean

  datatype Column = Column(name: string, kind: SqlType, nullable: bool)

  /** The data columns in declaration order; `id` and `uploaded_at` are kept apart in `Resume`. */
  const Columns: seq<Column> := [
    Column("file_name", SqlString, false),
    Column("name", SqlString, true),
    Column("email", SqlString, true),
    Column("phone", SqlString, true),
    Column("linkedin_url", SqlString, true),
    Column("github_url", SqlString, true),
    Column("portfolio_url", SqlString, true),
    Column("address", SqlString, true),
    Column("summary", SqlText, true),
    Column("education_history", SqlJsonb, true),
    Column("work_experience", SqlJsonb, true),
    Column("projects", SqlJsonb, true),
    Column("technical_skills", SqlJsonb, true),
    Column("soft_skills", SqlJsonb, true),
    Column("other_skills", SqlJsonb, true),
    Column("languages", SqlJsonb, true),
    Column("certifications", SqlJsonb, true),
    Column("awards_honors", SqlJsonb, true),
    Column("publications", SqlJsonb, true),
    Column("references_available", SqlBoolean, true),
    Column("raw_text", SqlText, true),
    Column("llm_analysis", SqlJsonb, true)]

  function ColumnNames(): set<string>
  {
    set i | 0 <= i < |Columns| :: Columns[i].name
  }

  /** `file_name` is the only NOT NULL data column. */
  lemma FileNameOnlyRequiredColumn()
    ensures Columns[0].name == "file_name" && !Columns[0].nullable
    ensures forall i :: 0 < i < |Columns| ==> Columns[i].nullable
  {
  }

  /** One row; a NULL column holds `VNone`. */
  datatype Resume = Resume(id: int, uploadedAt: Timestamp, cols: map<string, Value>)

  /** The row has every data column, and `file_name` is not NULL. */
  predicate WellFormed(r: Resume)
  {
    r.cols.Keys == ColumnNames() && "file_name" in r.cols && r.cols["file_name"].VStr?
  }

  /** What a flush can write: a string `file_name` and only JSON-serialisable column values. */
  predicate Storable(r: Resume)
  {
    WellFormed(r) && forall k :: k in r.cols ==> JsonSerialisable(r.cols[k])
  }

  function RawTextValue(rawText: Option<string>): (v: Value)
    ensures rawText.Some? <==> v.VStr?
  {
    if rawText.Some? then VStr(rawText.value) else VNone
  }

  /** `models.Resume(file_name=..., raw_text=...)` after insert and refresh. */
  function PendingRow(id: int, fileName: string, rawText: Option<string>, now: Timestamp): (r: Resume)
    ensures Storable(r) && r.id == id && r.uploadedAt == now
    ensures r.cols["file_name"] == VStr(fileName)
    ensures "raw_text" in r.cols && r.cols["raw_text"] == RawTextValue(rawText)
    ensures forall k :: k in r.cols && k != "file_name" && k != "raw_text" ==> r.cols[k] == VNone
  {
    assert Columns[0].name == "file_name" && Columns[20].name == "raw_text";
    Resume(id, now, map k | k in ColumnNames() ::
      if k == "file_name" then VStr(fileName) else if k == "raw_text" then RawTextValue(rawText) else VNone)
  }
}
