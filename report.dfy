/**
 * The analysis branch of `index` (app.py lines 147-226): the deterministic
 * report (lines 196-211), the report built from the AI result (lines 152-173),
 * and the choice between them with its fallback messages (lines 148-194).
 */
module Report {
  import opened Wrappers
  import opened Seqs
  import opened Catalog
  import opened Extraction
  import opened Gaps
  import opened AiResult

  /** The values handed to the page template; the AI path passes its four lists through undecoded. */
  datatype Report =
    | Lexical(extracted: seq<string>, recommended: seq<string>, certifications: seq<string>,
              unwanted: seq<string>, suggestions: map<string, seq<string>>,
              selectedCompanies: seq<string>, suggestionCompanies: map<string, seq<string>>,
              notice: Option<string>)
    | Assisted(aiSkills: Json, aiRecommended: Json, aiCertifications: Json, aiUnwanted: Json,
               suggestions: map<string, seq<string>>,
               selectedCompanies: seq<string>, suggestionCompanies: map<string, seq<string>>)

  const AiFailedNotice := "Gemini analysis failed. Using traditional analysis instead."
  const AiErrorNotice := "AI analysis encountered an error. Using traditional analysis instead."

  /** No flat skill list in the catalog has "skills" or "companies" among its items. */
  predicate NoKeyLikeSkills(roles: map<string, Entry>)
  {
    forall j | j in roles && roles[j].SkillList? :: "skills" !in roles[j].skills && "companies" !in roles[j].skills
  }

  /** `r` is a report lines 197-211 can produce for this resume and selected role. */
  ghost predicate IsLexicalReport(r: Report, roles: map<string, Entry>, certifications: map<string, seq<string>>,
                                  vocabulary: set<string>, selected: string, resume: string)
    requires selected in roles
  {
    && r.Lexical?
    && NoDuplicates(r.extracted)
    && (forall s :: s in r.extracted <==> s in vocabulary && Extracts(resume, s))
    && RequiredSkills(roles[selected]).Success?
    && r.recommended == Recommended(RequiredSkills(roles[selected]).value, r.extracted)
    && r.certifications == (if selected in certifications then certifications[selected] else [])
    && r.unwanted == Unwanted(r.extracted, roles[selected])
    && r.suggestions == Suggestions(roles, selected, r.unwanted)
    && Companies(roles[selected]) == Success(r.selectedCompanies)
    && r.suggestionCompanies.Keys == r.suggestions.Keys
    && (forall j | j in r.suggestions :: CompaniesOf(roles, j) == Success(r.suggestionCompanies[j]))
  }

  /**
   * Role `j` ends up among the suggestions: another role whose entry contains a
   * skill that is found in the resume and that the selected role's entry lacks.
   */
  ghost predicate SuggestedRole(roles: map<string, Entry>, vocabulary: set<string>, selected: string, resume: string, j: string)
    requires selected in roles
  {
    && j in roles && j != selected
    && exists s | s in vocabulary :: Extracts(resume, s) && !Contains(roles[selected], s) && Contains(roles[j], s)
  }

  /**
   * No subscript of lines 198, 204 and 209 raises: the selected role's entry is
   * subscripted with "skills" and "companies", each suggested role's entry
   * with "companies", and only a flat list holding that word raises.
   */
  ghost predicate LexicalSucceeds(roles: map<string, Entry>, vocabulary: set<string>, selected: string, resume: string)
    requires selected in roles
  {
    && RequiredSkills(roles[selected]).Success?
    && Companies(roles[selected]).Success?
    && forall j | j in roles && SuggestedRole(roles, vocabulary, selected, resume, j) :: Companies(roles[j]).Success?
  }

  /** The keys of the suggestion map depend only on which skills are found, not on their order. */
  lemma SuggestedRolesAreDetermined(roles: map<string, Entry>, vocabulary: set<string>, selected: string, resume: string,
                                    extracted: seq<string>)
    requires selected in roles
    requires forall s :: s in extracted <==> s in vocabulary && Extracts(resume, s)
    ensures var suggestions := Suggestions(roles, selected, Unwanted(extracted, roles[selected]));
      forall j :: j in suggestions <==> SuggestedRole(roles, vocabulary, selected, resume, j)
  {
    var unwanted := Unwanted(extracted, roles[selected]);
    var suggestions := Suggestions(roles, selected, unwanted);
    forall j ensures j in suggestions <==> SuggestedRole(roles, vocabulary, selected, resume, j) {
      if j in suggestions {
        var s := suggestions[j][0];
        assert s in suggestions[j];
        assert s in unwanted && Contains(roles[j], s);
      }
      if SuggestedRole(roles, vocabulary, selected, resume, j) {
        var s :| s in vocabulary && Extracts(resume, s) && !Contains(roles[selected], s) && Contains(roles[j], s);
        assert s in unwanted;
      }
    }
  }

  /** With no flat skill list holding "skills" or "companies", nothing the deterministic path subscripts raises. */
  lemma NoKeyLikeSkillsSucceeds(roles: map<string, Entry>, vocabulary: set<string>, selected: string, resume: string)
    requires selected in roles
    requires NoKeyLikeSkills(roles)
    ensures LexicalSucceeds(roles, vocabulary, selected, resume)
  {
  }

  /**
   * Lines 197-211: extract, compute the gaps, look up certifications and
   * companies.  Subscripting a flat skill list with "skills" or "companies"
   * raises TypeError, which nothing here catches.
   */
  method LexicalAnalysis(roles: map<string, Entry>, certifications: map<string, seq<string>>,
                         vocabulary: set<string>, selected: string, resume: string, notice: Option<string>)
    returns (out: Result<Report, Fault>)
    requires selected in roles
    ensures out.Success? ==> IsLexicalReport(out.value, roles, certifications, vocabulary, selected, resume)
    ensures out.Success? ==> out.value.notice == notice
    ensures out.Success? <==> LexicalSucceeds(roles, vocabulary, selected, resume)
  {
    var extracted := ExtractSkills(resume, vocabulary);
    var required := RequiredSkills(roles[selected]);
    if required.Failure? {
      return Failure(required.error);
    }
    var recommended := Recommended(required.value, extracted);
    var certs := if selected in certifications then certifications[selected] else [];
    var unwanted, suggestions := SuggestJobs(roles, extracted, selected);
    var selectedCompanies := Companies(roles[selected]);
    if selectedCompanies.Failure? {
      return Failure(selectedCompanies.error);
    }
    SuggestedRolesAreDetermined(roles, vocabulary, selected, resume, extracted);
    var companies := SuggestionCompanies(roles, suggestions.Keys);
    if companies.Failure? {
      var j :| j in suggestions && CompaniesOf(roles, j).Failure?;
      assert SuggestedRole(roles, vocabulary, selected, resume, j) && Companies(roles[j]).Failure?;
      return Failure(companies.error);
    }
    out := Success(Lexical(extracted, recommended, certs, unwanted, suggestions,
                           selectedCompanies.value, companies.value, notice));
  }

  /** The AI result can be turned into a report without an exception (lines 154-173). */
  ghost predicate AiAdaptable(roles: map<string, Entry>, selected: string, v: Json)
    requires selected in roles
  {
    && v.JObject?
    && SuggestedNames(Get(v.members, "job_suggestions", JArray([]))).Some?
    && Companies(roles[selected]).Success?
    && forall j | j in SuggestedNames(Get(v.members, "job_suggestions", JArray([]))).value :: CompaniesOf(roles, j).Success?
  }

  /** `r` is the report lines 154-173 build from the AI result `v`. */
  ghost predicate IsAiReport(r: Report, roles: map<string, Entry>, selected: string, v: Json)
    requires selected in roles
  {
    && r.Assisted?
    && v.JObject?
    && r.aiSkills == Get(v.members, "skills", JArray([]))
    && r.aiRecommended == Get(v.members, "recommended_skills", JArray([]))
    && r.aiCertifications == Get(v.members, "certifications", JArray([]))
    && r.aiUnwanted == Get(v.members, "unwanted_skills", JArray([]))
    && SuggestedNames(Get(v.members, "job_suggestions", JArray([]))) == Some(r.suggestions.Keys)
    && (forall j | j in r.suggestions :: r.suggestions[j] == [AiPlaceholder])
    && Companies(roles[selected]) == Success(r.selectedCompanies)
    && r.suggestionCompanies.Keys == r.suggestions.Keys
    && (forall j | j in r.suggestions :: CompaniesOf(roles, j) == Success(r.suggestionCompanies[j]))
  }

  /**
   * Lines 154-173: read the four lists with `.get(key, [])`, build the
   * placeholder suggestions and look up companies.  `.get` on a list or string
   * raises AttributeError; a non-iterable `job_suggestions` or a flat skill list
   * subscripted by "companies" raises TypeError; each gives `None`.
   */
  method AdaptAi(roles: map<string, Entry>, selected: string, v: Json) returns (r: Option<Report>)
    requires selected in roles
    ensures r.Some? <==> AiAdaptable(roles, selected, v)
    ensures r.Some? ==> IsAiReport(r.value, roles, selected, v)
  {
    if !v.JObject? {
      return None;
    }
    var m := v.members;
    var skills := Get(m, "skills", JArray([]));
    var recommended := Get(m, "recommended_skills", JArray([]));
    var certs := Get(m, "certifications", JArray([]));
    var unwanted := Get(m, "unwanted_skills", JArray([]));
    var suggestions := AiSuggestions(Get(m, "job_suggestions", JArray([])));
    if suggestions.None? {
      return None;
    }
    var selectedCompanies := Companies(roles[selected]);
    if selectedCompanies.Failure? {
      return None;
    }
    var companies := SuggestionCompanies(roles, suggestions.value.Keys);
    if companies.Failure? {
      return None;
    }
    r := Some(Assisted(skills, recommended, certs, unwanted, suggestions.value,
                       selectedCompanies.value, companies.value));
  }

  /**
   * Lines 147-226: with `useAi`, try the AI result first; when it is `None`
   * (line 190) or adapting it raises (line 194) fall back to the deterministic
   * report, carrying the matching notice.  The model's reply and the JSON
   * decoder are inputs.
   */
  method Analyze(roles: map<string, Entry>, certifications: map<string, seq<string>>, vocabulary: set<string>,
                 selected: string, resume: string, useAi: bool,
                 reply: Option<string>, parse: string -> Option<Json>)
    returns (out: Result<Report, Fault>)
    requires selected in roles
    requires IsVocabulary(vocabulary, roles)
    ensures !useAi ==> (out.Success? ==> IsLexicalReport(out.value, roles, certifications, vocabulary, selected, resume)
                                         && out.value.notice == None)
    ensures useAi && GeminiResult(reply, parse).None? ==>
              (out.Success? ==> IsLexicalReport(out.value, roles, certifications, vocabulary, selected, resume)
                                && out.value.notice == Some(AiFailedNotice))
    ensures useAi && GeminiResult(reply, parse).Some? && AiAdaptable(roles, selected, GeminiResult(reply, parse).value) ==>
              out.Success? && IsAiReport(out.value, roles, selected, GeminiResult(reply, parse).value)
    ensures useAi && GeminiResult(reply, parse).Some? && !AiAdaptable(roles, selected, GeminiResult(reply, parse).value) ==>
              (out.Success? ==> IsLexicalReport(out.value, roles, certifications, vocabulary, selected, resume)
                                && out.value.notice == Some(AiErrorNotice))
    ensures out.Success? <==> || (useAi && GeminiResult(reply, parse).Some? && AiAdaptable(roles, selected, GeminiResult(reply, parse).value))
                              || LexicalSucceeds(roles, vocabulary, selected, resume)
    ensures NoKeyLikeSkills(roles) ==> out.Success?
  {
    if NoKeyLikeSkills(roles) {
      NoKeyLikeSkillsSucceeds(roles, vocabulary, selected, resume);
    }
    var notice: Option<string> := None;
    if useAi {
      var result := AnalyzeWithGemini(reply, parse);
      if result.Some? && Truthy(result.value) {
        var adapted := AdaptAi(roles, selected, result.value);
        if adapted.Some? {
          return Success(adapted.value);
        }
        notice := Some(AiErrorNotice);
      } else {
        notice := Some(AiFailedNotice);
      }
    }
    out := LexicalAnalysis(roles, certifications, vocabulary, selected, resume, notice);
  }

  /** An AI result with only `skills` adapts to a report whose other lists are empty, not to an error. */
  lemma OnlySkillsIsTolerated(roles: map<string, Entry>, selected: string)
    requires selected in roles
    requires Companies(roles[selected]).Success?
    ensures var v := WithDefaults(JObject(map["skills" := JArray([JString("SQL")])])).value;
      && AiAdaptable(roles, selected, v)
      && forall r | IsAiReport(r, roles, selected, v) ::
           && r.aiSkills == JArray([JString("SQL")])
           && r.aiRecommended == JArray([]) && r.aiCertifications == JArray([]) && r.aiUnwanted == JArray([])
           && r.suggestions == map[] && r.suggestionCompanies == map[]
  {
  }

  /**
   * A selected role whose flat list holds "skills" breaks only the deterministic
   * path: the AI path never subscripts with "skills", so a usable reply (here
   * one decoding to `{}`) still yields the AI report.
   */
  lemma SkillsItemBreaksOnlyLexicalPath(vocabulary: set<string>, resume: string, reply: string, parse: string -> Option<Json>)
    requires parse(Unfence(reply)) == Some(JObject(map[]))
    ensures var roles := map["A" := SkillList(["skills", "sql"])];
      && !LexicalSucceeds(roles, vocabulary, "A", resume)
      && GeminiResult(Some(reply), parse).Some?
      && AiAdaptable(roles, "A", GeminiResult(Some(reply), parse).value)
  {
    var v := GeminiResult(Some(reply), parse).value;
    assert Get(v.members, "job_suggestions", JArray([])) == JArray([]);
  }

  /** Another role's flat list holding "skills" is never subscripted with it, so it breaks nothing. */
  lemma OtherRolesSkillsItemIsHarmless(vocabulary: set<string>, resume: string)
    ensures LexicalSucceeds(map["A" := SkillList(["sql"]), "B" := SkillList(["skills", "sql"])], vocabulary, "A", resume)
  {
  }

  /**
   * A role the AI suggests is looked up at line 171 only; the fallback looks up
   * its own suggestions (line 209).  Here the AI suggests "B", whose flat list
   * holds "companies", so the AI path raises, while with an empty resume the
   * fallback suggests nothing and succeeds.
   */
  lemma AiSuggestedRoleIsNotLookedUpAgain(vocabulary: set<string>)
    ensures var roles := map["A" := SkillList(["sql"]), "B" := SkillList(["companies", "x"])];
      var v := JObject(map["job_suggestions" := JArray([JString("B")])]);
      && !AiAdaptable(roles, "A", v)
      && LexicalSucceeds(roles, vocabulary, "A", "")
  {
    var roles := map["A" := SkillList(["sql"]), "B" := SkillList(["companies", "x"])];
    var v := JObject(map["job_suggestions" := JArray([JString("B")])]);
    assert "B" in SuggestedNames(Get(v.members, "job_suggestions", JArray([]))).value;
    forall s ensures !Extracts("", s) {
      NothingInEmptyResume(s);
    }
  }
}
