/**
 * The gap and suggestion logic of app.py: recommended skills (line 199),
 * unwanted skills and the redirect map of `suggest_jobs_for_unwanted_skills`
 * (lines 96-105), and the company lookups for suggested roles (lines 168-173
 * and 206-211).
 */
module Gaps {
  import opened Wrappers
  import opened Seqs
  import opened Catalog

  /** Line 199: the required skills the resume lacks, in declared order. */
  function Recommended(required: seq<string>, extracted: seq<string>): (r: seq<string>)
    ensures IsSubsequence(r, required)
    ensures forall s :: s in r ==> s in required && s !in extracted
    ensures forall s :: s in required ==> s in r || s in extracted
    ensures forall s :: s !in extracted ==> multiset(r)[s] == multiset(required)[s]
  {
    Filter(required, s => s !in extracted)
  }

  /** Line 97: the extracted skills the selected role's entry does not contain, in extraction order. */
  function Unwanted(extracted: seq<string>, selected: Entry): (r: seq<string>)
    ensures IsSubsequence(r, extracted)
    ensures forall s :: s in r <==> s in extracted && !Contains(selected, s)
    ensures forall s :: !Contains(selected, s) ==> multiset(r)[s] == multiset(extracted)[s]
  {
    Filter(extracted, s => !Contains(selected, s))
  }

  /** The unwanted skills that one other role's entry contains, in the order of `unwanted`. */
  function Hits(unwanted: seq<string>, e: Entry): seq<string>
  {
    Filter(unwanted, s => Contains(e, s))
  }

  /**
   * The map lines 98-103 build: every role other than the selected one that
   * contains at least one unwanted skill, mapped to those skills.
   */
  function Suggestions(roles: map<string, Entry>, selected: string, unwanted: seq<string>): (m: map<string, seq<string>>)
    ensures selected !in m
    ensures forall j :: j in m ==> j in roles && m[j] != []
    ensures forall j, s :: j in m && s in m[j] <==> j in roles && j != selected && s in unwanted && Contains(roles[j], s)
    ensures forall j :: j in m ==> IsSubsequence(m[j], unwanted)
  {
    map j | j in roles && j != selected && Hits(unwanted, roles[j]) != [] :: Hits(unwanted, roles[j])
  }

  /** `m` holds for role `j` what `Suggestions` would after the skills `done`. */
  ghost predicate AgreesAt(m: map<string, seq<string>>, roles: map<string, Entry>, selected: string, done: seq<string>, j: string)
    requires j in roles
  {
    && (j in m <==> j != selected && Hits(done, roles[j]) != [])
    && (j in m ==> m[j] == Hits(done, roles[j]))
  }

  lemma AgreementIsEquality(m: map<string, seq<string>>, roles: map<string, Entry>, selected: string, done: seq<string>)
    requires m.Keys <= roles.Keys
    requires forall j | j in roles :: AgreesAt(m, roles, selected, done, j)
    ensures m == Suggestions(roles, selected, done)
  {
  }

  /** One `setdefault(job, []).append(skill)` step, taken when `job` qualifies. */
  function Record(m: map<string, seq<string>>, roles: map<string, Entry>, selected: string, skill: string, job: string)
    : (r: map<string, seq<string>>)
    requires job in roles
    ensures forall j | j != job :: (j in r <==> j in m) && (j in r ==> r[j] == m[j])
    ensures job in r <==> job in m || (Contains(roles[job], skill) && job != selected)
    ensures Contains(roles[job], skill) && job != selected ==>
              r[job] == (if job in m then m[job] else []) + [skill]
    ensures !(Contains(roles[job], skill) && job != selected) ==> r == m
  {
    if Contains(roles[job], skill) && job != selected then
      m[job := (if job in m then m[job] else []) + [skill]]
    else m
  }

  /** Midway through the inner loop: roles in `pending` still reflect `done`, the others also `skill`. */
  ghost predicate Progress(m: map<string, seq<string>>, roles: map<string, Entry>, selected: string,
                           done: seq<string>, skill: string, pending: set<string>)
  {
    && m.Keys <= roles.Keys
    && (forall j | j in roles && j in pending :: AgreesAt(m, roles, selected, done, j))
    && (forall j | j in roles && j !in pending :: AgreesAt(m, roles, selected, done + [skill], j))
  }

  /** Visiting one pending role brings it up to date with `skill` and leaves the others as they were. */
  lemma RecordProgress(m: map<string, seq<string>>, roles: map<string, Entry>, selected: string,
                       done: seq<string>, skill: string, pending: set<string>, job: string)
    requires job in pending && pending <= roles.Keys
    requires Progress(m, roles, selected, done, skill, pending)
    ensures Progress(Record(m, roles, selected, skill, job), roles, selected, done, skill, pending - {job})
  {
    var m' := Record(m, roles, selected, skill, job);
    FilterAppend(done, skill, s => Contains(roles[job], s));
    assert AgreesAt(m', roles, selected, done + [skill], job);
    forall j | j in roles && j != job
      ensures AgreesAt(m', roles, selected, done, j) == AgreesAt(m, roles, selected, done, j)
      ensures AgreesAt(m', roles, selected, done + [skill], j) == AgreesAt(m, roles, selected, done + [skill], j)
    {
      assert (j in m' <==> j in m) && (j in m ==> m'[j] == m[j]);
    }
  }

  /**
   * The inner loop of lines 101-103 for one unwanted skill: every role, in any
   * order, gets the skill appended when it qualifies.
   */
  method AddSkill(roles: map<string, Entry>, selected: string, ghost done: seq<string>, skill: string, m: map<string, seq<string>>)
    returns (m': map<string, seq<string>>)
    requires m.Keys <= roles.Keys
    requires forall j | j in roles :: AgreesAt(m, roles, selected, done, j)
    ensures m'.Keys <= roles.Keys
    ensures forall j | j in roles :: AgreesAt(m', roles, selected, done + [skill], j)
  {
    m' := m;
    var pending := roles.Keys;
    while pending != {}
      invariant pending <= roles.Keys
      invariant Progress(m', roles, selected, done, skill, pending)
      decreases pending
    {
      var job :| job in pending;
      RecordProgress(m', roles, selected, done, skill, pending, job);
      ghost var before := m';
      if Contains(roles[job], skill) && job != selected {
        var sofar := if job in m' then m'[job] else [];
        m' := m'[job := sofar + [skill]];
      }
      assert m' == Record(before, roles, selected, skill, job);
      pending := pending - {job};
    }
  }

  /**
   * `suggest_jobs_for_unwanted_skills` (lines 96-105): for each unwanted skill in
   * turn and each role in turn, `setdefault(job, []).append(skill)` when the role
   * is not the selected one and contains the skill.
   */
  method SuggestJobs(roles: map<string, Entry>, extracted: seq<string>, selected: string)
    returns (unwanted: seq<string>, suggestions: map<string, seq<string>>)
    requires selected in roles
    ensures unwanted == Unwanted(extracted, roles[selected])
    ensures suggestions == Suggestions(roles, selected, unwanted)
    ensures selected !in suggestions
    ensures forall j, s :: j in suggestions && s in suggestions[j] <==> j in roles && j != selected && s in unwanted && Contains(roles[j], s)
  {
    unwanted := Unwanted(extracted, roles[selected]);
    suggestions := map[];
    for i := 0 to |unwanted|
      invariant suggestions.Keys <= roles.Keys
      invariant forall j | j in roles :: AgreesAt(suggestions, roles, selected, unwanted[..i], j)
    {
      assert unwanted[..i + 1] == unwanted[..i] + [unwanted[i]];
      suggestions := AddSkill(roles, selected, unwanted[..i], unwanted[i], suggestions);
    }
    assert unwanted[..|unwanted|] == unwanted;
    AgreementIsEquality(suggestions, roles, selected, unwanted);
  }

  /** Lines 170-173: a role's companies, `[]` for a role not in the catalog or one without `companies`. */
  function CompaniesOf(roles: map<string, Entry>, job: string): (r: Result<seq<string>, Fault>)
    ensures job !in roles ==> r == Success([])
    ensures job in roles && !Contains(roles[job], "companies") ==> r == Success([])
    ensures r.Failure? <==> job in roles && roles[job].SkillList? && "companies" in roles[job].skills
    ensures job in roles && roles[job].RoleObject? && Contains(roles[job], "companies") ==>
              r.Success? && LastValue(roles[job].fields, "companies", r.value)
  {
    if job in roles then Companies(roles[job]) else Success([])
  }

  /**
   * Lines 168-173 (and 206-211): the company list of every suggested role, built
   * one role at a time; a TypeError from one role's lookup ends the loop.
   */
  method SuggestionCompanies(roles: map<string, Entry>, jobs: set<string>)
    returns (r: Result<map<string, seq<string>>, Fault>)
    ensures r.Failure? <==> exists j | j in jobs :: CompaniesOf(roles, j).Failure?
    ensures r.Success? ==> r.value.Keys == jobs
    ensures r.Success? ==> forall j | j in jobs :: CompaniesOf(roles, j) == Success(r.value[j])
  {
    var companies: map<string, seq<string>> := map[];
    var pending := jobs;
    while pending != {}
      invariant pending <= jobs
      invariant companies.Keys == jobs - pending
      invariant forall j | j in companies :: CompaniesOf(roles, j) == Success(companies[j])
      decreases pending
    {
      var job :| job in pending;
      var c := CompaniesOf(roles, job);
      if c.Failure? {
        return Failure(c.error);
      }
      companies := companies[job := c.value];
      pending := pending - {job};
    }
    r := Success(companies);
  }

  /** Roles A = [sql, java] and B = [sql, excel], target A, extracted [sql, excel]: "excel" is redirected to B. */
  lemma RedirectExample()
    ensures var roles := map["A" := SkillList(["sql", "java"]), "B" := SkillList(["sql", "excel"])];
      && Unwanted(["sql", "excel"], roles["A"]) == ["excel"]
      && Suggestions(roles, "A", ["excel"]) == map["B" := ["excel"]]
  {
    var roles := map["A" := SkillList(["sql", "java"]), "B" := SkillList(["sql", "excel"])];
    assert Unwanted(["sql", "excel"], roles["A"]) == ["excel"] by {
      assert Contains(roles["A"], "sql") && !Contains(roles["A"], "excel");
    }
    assert Hits(["excel"], roles["B"]) == ["excel"];
    var m := Suggestions(roles, "A", ["excel"]);
    assert m.Keys == {"B"};
  }
}
