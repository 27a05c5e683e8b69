/**
 * The request/response schemas of the API as pydantic field maps, and the
 * output shapes built from a stored row.
 */
module Schemas {
  import opened Values
  import opened Pydantic
  import opened Models

  function OptStr(name: string): Field { Field(name, FStr, DefaultNone) }
  function OptUrl(name: string): Field { Field(name, FUrl, DefaultNone) }
  function StrList(name: string): Field { Field(name, FList(FStr), DefaultEmpty) }

  const EducationBase: ModelSpec := [
    OptStr("institution"), OptStr("degree"), OptStr("field_of_study"),
    OptStr("start_date"), OptStr("end_date"),
    Field("gpa", FFloat, DefaultNone), StrList("details")]

  const WorkExperienceBase: ModelSpec := [
    OptStr("job_title"), OptStr("company"), OptStr("location"),
    OptStr("start_date"), OptStr("end_date"),
    StrList("responsibilities"), StrList("achievements")]

  const ProjectBase: ModelSpec := [
    OptStr("name"), OptStr("description"), StrList("technologies"),
    OptUrl("url"), OptUrl("repository_url")]

  const LanguageBase: ModelSpec := [
    Field("language", FStr, Required), OptStr("proficiency")]

  const CertificationBase: ModelSpec := [
    Field("name", FStr, Required), OptStr("issuing_organization"),
    OptStr("issue_date"), OptStr("expiration_date"),
    OptStr("credential_id"), OptUrl("credential_url")]

  const ResumeRatingDetails: ModelSpec := [
    Field("overall_score", FFloat, DefaultNone), OptStr("comments")]

  const ImprovementAreasDetails: ModelSpec := [
    StrList("content_suggestions"), StrList("formatting_style_suggestions"),
    StrList("missing_information_suggestions")]

  const ActionVerbCheck: ModelSpec := [
    OptStr("current_usage_rating"), StrList("suggestions")]

  const QuantificationCheck: ModelSpec := [
    OptStr("current_usage_rating"), StrList("suggestions")]

  const UpskillSuggestion: ModelSpec := [
    OptStr("skill_name"), OptStr("reasoning"), StrList("suggested_resources"),
    OptStr("relevance_to_career_goals")]

  const CareerPathAlignment: ModelSpec := [
    OptStr("current_alignment_assessment"), StrList("potential_paths"),
    StrList("suggestions_for_strengthening_alignment")]

  const LLMAnalysis: ModelSpec := [
    Field("resume_rating", FModel(ResumeRatingDetails), DefaultNone),
    StrList("strength_areas"),
    Field("improvement_areas", FModel(ImprovementAreasDetails), DefaultNone),
    Field("action_verb_check", FModel(ActionVerbCheck), DefaultNone),
    Field("quantification_check", FModel(QuantificationCheck), DefaultNone),
    Field("upskill_suggestions", FList(FModel(UpskillSuggestion)), DefaultEmpty),
    Field("career_path_alignment", FModel(CareerPathAlignment), DefaultNone)]

  const ResumeBase: ModelSpec := [
    Field("file_name", FStr, Required),
    OptStr("name"), Field("email", FEmail, DefaultNone), OptStr("phone"),
    OptUrl("linkedin_url"), OptUrl("github_url"), OptUrl("portfolio_url"),
    OptStr("address"), OptStr("summary"),
    Field("education_history", FList(FModel(EducationBase)), DefaultEmpty),
    Field("work_experience", FList(FModel(WorkExperienceBase)), DefaultEmpty),
    Field("projects", FList(FModel(ProjectBase)), DefaultEmpty),
    StrList("technical_skills"), StrList("soft_skills"), StrList("other_skills"),
    Field("languages", FList(FModel(LanguageBase)), DefaultEmpty),
    Field("certifications", FList(FModel(CertificationBase)), DefaultEmpty),
    StrList("awards_honors"), StrList("publications"),
    Field("references_available", FBool, DefaultNone)]

  /** `ResumeUpdate(ResumeBase)` adds `raw_text` and `llm_analysis`. */
  const ResumeUpdate: ModelSpec := ResumeBase + [
    OptStr("raw_text"),
    Field("llm_analysis", FModel(LLMAnalysis), DefaultNone)]

  /** The record schemas: every entry, analysis and resume model. */
  const AllSchemas: seq<ModelSpec> := [
    EducationBase, WorkExperienceBase, ProjectBase, LanguageBase, CertificationBase,
    ResumeRatingDetails, ImprovementAreasDetails, ActionVerbCheck, QuantificationCheck,
    UpskillSuggestion, CareerPathAlignment, LLMAnalysis, ResumeBase, ResumeUpdate]

  /** Every list field defaults to `[]`, every other optional field to None, and only `str` fields are required. */
  predicate DefaultsFollowTypes(spec: ModelSpec)
  {
    forall i :: 0 <= i < |spec| ==>
      (spec[i].ty.FList? <==> spec[i].dflt == DefaultEmpty) &&
      (spec[i].dflt == Required ==> spec[i].ty == FStr)
  }

  function RequiredFields(spec: ModelSpec): set<string>
  {
    set i | 0 <= i < |spec| && spec[i].dflt == Required :: spec[i].name
  }

  lemma SchemaDefaults()
    ensures forall i :: 0 <= i < |AllSchemas| ==> DefaultsFollowTypes(AllSchemas[i])
  {
  }

  /** Only a language's name, a certification's name and a resume's file name are required. */
  lemma SchemaRequiredFields()
    ensures LanguageBase[0].name == "language" && CertificationBase[0].name == "name"
    ensures ResumeBase[0].name == "file_name" && ResumeUpdate[0] == ResumeBase[0]
    ensures forall s, i :: 0 <= s < |AllSchemas| && 0 <= i < |AllSchemas[s]| ==>
              (AllSchemas[s][i].dflt == Required <==> i == 0 && s in {3, 4, 12, 13})
  {
  }

  /** The analysis has seven top-level fields, all optional. */
  lemma AnalysisFields()
    ensures |LLMAnalysis| == 7
    ensures forall i :: 0 <= i < |LLMAnalysis| ==> LLMAnalysis[i].dflt != Required
  {
  }

  /** Pointwise equal names give equal name sets. */
  lemma SameNames(spec: ModelSpec, cols: seq<Column>)
    requires |spec| == |cols| && forall i :: 0 <= i < |spec| ==> spec[i].name == cols[i].name
    ensures Names(spec) == set i | 0 <= i < |cols| :: cols[i].name
  {
  }

  /**
   * The update whitelist is the resume fields plus raw text and analysis, and
   * every one of them is a column of the same name; its list fields are exactly
   * the JSONB profile columns.
   */
  lemma UpdateFieldsAreColumns()
    ensures ResumeUpdate[..|ResumeBase|] == ResumeBase
    ensures ResumeUpdate[|ResumeBase|..] == [OptStr("raw_text"), Field("llm_analysis", FModel(LLMAnalysis), DefaultNone)]
    ensures |ResumeUpdate| == |Columns| && forall i :: 0 <= i < |Columns| ==> ResumeUpdate[i].name == Columns[i].name
    ensures Names(ResumeUpdate) == ColumnNames()
    ensures forall i :: 0 <= i < |ResumeBase| ==> (ResumeBase[i].ty.FList? <==> Columns[i].kind == SqlJsonb)
  {
    SameNames(ResumeUpdate, Columns);
  }

  /** `ResumeListInfo`: the summary shown in listings. */
  datatype ListInfo = ListInfo(id: int, fileName: string, uploadedAt: Timestamp, name: Value, email: Value, phone: Value)

  function ListInfoOf(r: Resume): (info: ListInfo)
    requires WellFormed(r)
    ensures info.id == r.id && info.uploadedAt == r.uploadedAt && VStr(info.fileName) == r.cols["file_name"]
    ensures "name" in r.cols && info.name == r.cols["name"]
    ensures "email" in r.cols && info.email == r.cols["email"]
    ensures "phone" in r.cols && info.phone == r.cols["phone"]
  {
    assert Columns[1].name == "name" && Columns[2].name == "email" && Columns[3].name == "phone";
    ListInfo(r.id, r.cols["file_name"].s, r.uploadedAt, r.cols["name"], r.cols["email"], r.cols["phone"])
  }

  /** `ResumeUploadResponse`: a message, the id and the stored row (`ResumeDetail`). */
  datatype UploadResponse = UploadResponse(message: string, resumeId: int, data: Resume)
}
