# Skill-gap engine: a verified Dafny model

This project models the analysis logic of a resume skill-gap web application (`app.py`).
A catalog `job_roles` maps each role name to an entry. An entry is either a flat list of skills
or an object with `skills` and `companies` lists.

The deterministic path:
- builds a skill vocabulary from the catalog;
- finds the vocabulary skills that occur as whole words in the lower-cased resume;
- recommends the selected role's required skills that were not found;
- flags the found skills that the selected role does not contain as unwanted;
- redirects each unwanted skill to every other role that contains it;
- attaches certifications and companies.

The AI path takes the reply of a language model and cleans it:
- it strips code fences from the reply and decodes it;
- it fills in the five expected keys;
- it turns the suggested role names into a map to a fixed placeholder.

When that path yields nothing, or raises, the application falls back to the deterministic
report with a notice.

Modules, one per component, all from `app.py`:

- `Text`: ASCII `str.lower`, the `\b` word boundary, the literal whole-word search that
  `re.search(r'\b' + re.escape(p) + r'\b', t)` performs, `strip`, `startswith`, `endswith`.
- `Seqs`: order-preserving filtering (the list comprehensions) and `list(dict.fromkeys(...))`.
- `Catalog`: catalog entries in both forms.
  - Python's `x in entry` is list membership for a list and key membership for an object.
  - Iterating an object yields its keys.
  - `entry["skills"]` / `entry["companies"]` on a list raises TypeError, modelled as `Fault`.
  - The vocabulary loop is modelled here too.
- `Extraction`: `extract_skills_from_resume`.
- `Gaps`: recommended skills, unwanted skills, `suggest_jobs_for_unwanted_skills`, and the
  company lookups for suggested roles.
- `AiResult`: decoded JSON values, fence stripping, key defaulting, `analyze_resume_with_gemini`
  from the reply onwards, and the placeholder suggestions.
- `Report`: the deterministic report, the AI report, and the choice between them in `index`.

The loop over the skill set `valid_skills` (line 88) picks any remaining element (`:|`),
because a Python set has no fixed iteration order; the extraction result is therefore stated
over what is found, not the order it is found in. Python dicts iterate in insertion order, but
no output of the model depends on that order except the key order of the maps handed to the
page, which is left out below, so the loops over dicts (lines 78, 101, 169, 207) also pick any
remaining key and their results are stated as maps or sets. The suggestion lists still provably follow
the order of the unwanted skills.

Behaviour of the code that the model keeps, with the member that shows it:

- A role given in object form adds its keys "skills" and "companies" to the vocabulary, not
  its skills (`Catalog.ObjectRoleContributesKeys`). A resume mentioning "skills" therefore has
  "skills" extracted.
- A skill that ends in a non-word character, such as "C++", is found only when a word
  character follows it (`Extraction.TrailingSymbolNeedsWordAfter`).
- Subscripting a flat skill list with a string raises TypeError. The deterministic path
  subscripts the selected role's entry with "skills" (line 198) and with "companies"
  (line 204), and each suggested role's entry with "companies" (line 209); it raises exactly
  when one of those entries is a flat list holding that word (`Report.LexicalAnalysis`).
  Another role's list holding "skills" breaks nothing (`Report.OtherRolesSkillsItemIsHarmless`).
- The AI path never subscripts with "skills". A selected flat list holding "skills" therefore
  still yields the AI report when the reply is usable (`Report.SkillsItemBreaksOnlyLexicalPath`).
  A "companies" item in the selected role's flat list makes the AI path raise at line 166; it
  is caught, and the fallback raises again at line 204 (`Report.Analyze`). A "companies" item
  in the flat list of a role the AI suggests makes the AI path raise at line 171. The fallback
  then raises at line 209 only if that role is also one of its own suggestions (lines 100-103);
  otherwise it yields the deterministic report with the error notice
  (`Report.AiSuggestedRoleIsNotLookedUpAgain`).
- The selected role must be a key of the catalog. Otherwise the source raises KeyError before
  any report exists. This is a precondition of `Gaps.SuggestJobs`, `Report.LexicalAnalysis`,
  `Report.AdaptAi` and `Report.Analyze`.

Where the code differs from what its own comments say, the model follows the code: the
comment at line 76 speaks of building the skills from all job roles, but for a role given in
object form iterating the entry yields its keys, so the vocabulary is whatever iterating each
entry yields, not the union of the roles' skills.

Role objects are decoded by `json.load`, which keeps the last value when an object repeats a
key and iterates each key once, where it first appeared. The model keeps an object's members
as a list in document order and follows both rules (`Catalog.Lookup`,
`Catalog.RepeatedKeyLastWins`).

## Model

| member | source | states |
|---|---|---|
| `Text.Strip` | app.py:38 | `strip()` returns an infix of its input with only whitespace removed on either side, and the result neither starts nor ends with whitespace |
| `Text.TrimStart` | app.py:38 | the leading part removed is all whitespace; what remains is a suffix of the input that does not start with whitespace |
| `Text.TrimEnd` | app.py:38 | the trailing part removed is all whitespace; what remains is a prefix of the input that does not end with whitespace |
| `Seqs.Filter` | app.py:97 | a list comprehension with a condition yields a subsequence of its input that holds exactly the elements meeting the condition, each as often as in the input |
| `Seqs.FilterAppend` | app.py:100-103 | filtering a list extended by one element extends the filtered list by that element exactly when it is kept |
| `Seqs.Dedup` | app.py:93 | `list(dict.fromkeys(xs))` has no duplicates and the same elements as `xs` |
| `Seqs.DedupOfDistinct` | app.py:88-93 | on a duplicate-free list (as the extraction loop over a set produces, which `Extraction.ExtractSkills` shows) de-duplication changes nothing |
| `Catalog.ElementsAreContained` | app.py:78-79 | what iterating an entry yields (list items, object keys) is exactly what Python `in` accepts for that entry |
| `Catalog.Lookup` | app.py:198 | `obj[key]` for a key the object has is the value of the last member with that key, as a decoded dict keeps it |
| `Catalog.Subscript` | app.py:198 | `entry[key] if key in entry else default` fails exactly on a flat list containing `key`, gives the default when the key is absent, and gives the object's last member with that key otherwise |
| `Catalog.RequiredSkills` | app.py:198 | the required skills are the object's (last) `skills` list, the flat list itself, or the object's keys, each once, when it has no `skills`; TypeError exactly when a flat list contains "skills" |
| `Catalog.Companies` | app.py:166 | the selected role's companies are `[]` when the entry has no "companies", the object's (last) `companies` list otherwise, TypeError for a flat list containing "companies" |
| `Catalog.RepeatedKeyLastWins` | app.py:204 | an object that repeats "companies" yields the list given last |
| `Catalog.BuildVocabulary` | app.py:77-79 | the vocabulary holds exactly the strings some role's entry contains |
| `Catalog.ObjectRoleContributesKeys` | app.py:77-79 | for a catalog with one object-form role the vocabulary is exactly {"skills", "companies"} |
| `Text.Lower` | app.py:86 | `lower()` keeps the length, leaves no upper-case ASCII letter, maps each upper-case letter to its lower-case partner and changes nothing else |
| `Text.LowerIsIdempotent` | app.py:86-90 | lower-casing an already lower-cased text changes nothing |
| `Text.MatchesWord` | app.py:90-91 | a `\b`-delimited match of `p` in `t` is in particular an occurrence of `p` in `t` |
| `Text.SeparatedWordMatches` | app.py:90-91 | a word that starts and ends with a word character and is set off by non-word characters or the ends of the text is found |
| `Extraction.Extracts` | app.py:86-91 | a skill is found only if its lower-cased form occurs in the lower-cased resume |
| `Extraction.ExtractsIgnoresCase` | app.py:86-90 | lower-casing the resume or the skill beforehand does not change whether the skill is found |
| `Extraction.ExtractSkills` | app.py:85-93 | the result has no duplicates and holds exactly the vocabulary skills whose lower-cased form occurs in the lower-cased resume with a `\b` boundary at both ends |
| `Extraction.NothingInEmptyResume` | app.py:86-91 | no skill, not even the empty one, is found in an empty resume |
| `Extraction.JavaScriptIsNotJava` | app.py:90-91 | in "javascript developer", "JavaScript" is found and "Java" is not |
| `Extraction.CaseIsIgnored` | app.py:86-90 | "Python" is found in "PYTHON and python", and "python" in "PYTHON" |
| `Extraction.TrailingSymbolNeedsWordAfter` | app.py:90-91 | "C++" is not found in "c++ developer" but is found in "c++11" |
| `Gaps.Recommended` | app.py:199 | the recommended skills are a subsequence of the required ones, disjoint from the extracted skills, together with the extracted ones cover every required skill, and keep each missing skill's multiplicity |
| `Gaps.Unwanted` | app.py:97 | the unwanted skills are the subsequence of the extracted skills that the selected role's entry does not contain, in extraction order |
| `Gaps.Suggestions` | app.py:98-105 | the selected role is never a key; every key is a role with a non-empty list; `s` is in role `j`'s list iff `s` is unwanted, `j` is another role and `j`'s entry contains `s`; each list is a subsequence of the unwanted skills |
| `Gaps.Record` | app.py:103 | `setdefault(job, []).append(skill)` on a qualifying role appends `skill` to its list, creating it when absent; every other role, and a role that does not qualify, is unchanged |
| `Gaps.RecordProgress` | app.py:101-103 | one `setdefault(job, []).append(skill)` step brings that role up to date with the new skill and leaves every other role unchanged |
| `Gaps.AddSkill` | app.py:101-103 | after visiting every role for one unwanted skill, each role's list is what the suggestion map holds for the skills so far plus that skill |
| `Gaps.SuggestJobs` | app.py:96-105 | returns the unwanted skills and exactly the suggestion map above, whatever order the roles are visited in |
| `Gaps.RedirectExample` | app.py:96-105 | with roles A = [sql, java], B = [sql, excel], target A and extracted [sql, excel], the unwanted skills are [excel] and the suggestions {B: [excel]} |
| `Gaps.CompaniesOf` | app.py:170-173 | a role not in the catalog, or one whose entry lacks "companies", gets `[]`; the lookup raises exactly for a flat list containing "companies"; an object with "companies" gives its last `companies` list |
| `Gaps.SuggestionCompanies` | app.py:168-173 | the company map has exactly the suggested roles as keys, each with its company list, and fails exactly when one lookup raises |
| `AiResult.StripFences` | app.py:38-47 | the step-by-step cleaning of the reply computes the stripped text with at most one opening fence dropped and the closing "```" dropped exactly when the rest ends with one; text without fences is unchanged |
| `AiResult.OpeningLength` | app.py:41-44 | the opening part removed is nothing, "```" or "```json", and it is "```json" whenever the text starts with it |
| `AiResult.DropFencesSplit` | app.py:41-47 | the cleaned text is the stripped text minus the opening part chosen above and a closing "```" exactly when what follows the opening ends with one |
| `AiResult.DropFencesRemovesAtMostOneEachSide` | app.py:41-47 | the cleaned text is the stripped text minus a prefix that is "", "```" or "```json" and a suffix that is "" or "```"; "```json" is preferred over "```"; the closing "```" is removed exactly when what follows the opening ends with one; stripped text without fences is returned unchanged |
| `AiResult.UnfenceBareBlock` | app.py:38-47 | a reply of the form "```" + body + "```", with a body not starting with "json", is cleaned to exactly `body` |
| `AiResult.UnfenceJsonBlock` | app.py:38-47 | a reply of the form "```json" + body + "```" is cleaned to exactly `body` |
| `AiResult.PyIn` | app.py:55 | `key in v` raises exactly for values that cannot be iterated; for a list or an object it agrees with what iterating the value yields, and for a string it does so for one-character keys |
| `AiResult.AddMissingKeys` | app.py:53-56 | after defaulting an object, all five expected keys are present, keys already present keep their values, and added keys map to `[]` |
| `AiResult.CheckAllPresent` | app.py:54-56 | a decoded string or list survives defaulting, unchanged, exactly when it already "contains" all five keys |
| `AiResult.FillDefaults` | app.py:53-56 | the defaulting loop computes the defaulted object, the unchanged string or list, or nothing when Python raises |
| `AiResult.DefaultsKeepAndComplete` | app.py:53-56 | defaulting any object succeeds, keeps every existing key's value, makes the five expected keys present and adds no other key |
| `AiResult.Truthy` | app.py:152 | the falsy decoded values are exactly `None`, `False`, `0`, `""`, `[]` and `{}` |
| `AiResult.DefaultedIsTruthy` | app.py:152 | whatever survives defaulting is truthy, so the `if gemini_result:` test only rejects `None` |
| `AiResult.AnalyzeWithGemini` | app.py:33-66 | the result is nothing without a reply or when decoding fails, otherwise the defaulted decoded value, which is then truthy |
| `AiResult.Get` | app.py:154-157 | `.get(key, default)` returns the member's value when the key is present and the default otherwise |
| `AiResult.PlaceholderSuggestions` | app.py:160-163 | exactly the string items of the list become keys, each mapped to ["AI-suggested based on your skills"] |
| `AiResult.AiSuggestions` | app.py:160-163 | the keys are the string items of a list, the characters of a string or the keys of an object, each mapped to the placeholder; any other value raises |
| `Report.SuggestedRolesAreDetermined` | app.py:96-105 | a role is a key of the suggestion map exactly when it is another role whose entry contains a found skill that the selected role's entry lacks, whatever order the skills were found in |
| `Report.NoKeyLikeSkillsSucceeds` | app.py:198-211 | with no flat list containing "skills" or "companies", none of the subscripts of the deterministic path raises |
| `Report.LexicalAnalysis` | app.py:196-211 | a successful report has the extracted skills, recommended skills, certifications (`[]` if none), unwanted skills, suggestion map and company lookups described above; it succeeds exactly when neither the selected role's entry nor a suggested role's entry is a flat list holding the word it is subscripted with |
| `Report.AdaptAi` | app.py:152-173 | the AI report passes the four lists through, has the placeholder suggestions and the company lookups, and is produced exactly when no step raises |
| `Report.Analyze` | app.py:147-226 | without AI, the deterministic report with no notice; with AI, the AI report when it can be built; otherwise the deterministic report with the "failed" notice (no result) or the "encountered an error" notice (adapting raised); it succeeds exactly when the AI report is built or the deterministic path does not raise |
| `Report.OnlySkillsIsTolerated` | app.py:154-163 | an AI result holding only `skills` adapts to a report whose other lists and maps are empty |
| `Report.SkillsItemBreaksOnlyLexicalPath` | app.py:154-173 | when the selected role is the flat list ["skills", "sql"], the deterministic path raises but a reply decoding to `{}` still yields the AI report |
| `Report.AiSuggestedRoleIsNotLookedUpAgain` | app.py:166-211 | when the AI suggests a role whose flat list holds "companies", the AI path raises, yet the deterministic path succeeds when that role is not among its own suggestions |
| `Report.OtherRolesSkillsItemIsHarmless` | app.py:198-211 | a non-selected role whose flat list holds "skills" never makes the deterministic path raise |

## Left out

- Flask routing, form fields, `render_template` and the page (app.py lines 68, 107-118, 139-145,
  175-188, 213-231): web plumbing. The report is a value.
- Reading the uploaded file, PDF text extraction and UTF-8/latin-1 decoding (lines 119-135):
  I/O through foreign libraries. The resume is an already-decoded string.
- The request handler's empty-text check (lines 136-137): form handling, like the rest of
  lines 107-145.
- Loading `job_roles.json` (lines 71-74): file I/O and JSON parsing. The catalog is given
  as values. Object entries hold lists of strings.
- The model call, its prompt (including the 3000-character cut) and API configuration
  (lines 10-35). The reply text is an input: `None` stands for any exception before the text
  is read. `json.loads` is a function parameter: `None` stands for JSONDecodeError.
- Diagnostic `print`s (lines 61-62, 65, 193) and the unused spaCy model (line 82).
- test_gemini.py: a connectivity script with no logic of the engine.
- Unicode: `str.lower`, the `\w` class behind `\b` and `str.isspace` are modelled for ASCII
  only. Python applies them to all of Unicode.
- The order of keys in the dicts handed to the page: maps are unordered here.
- Extraction.ExtractSkills: states which skills are returned, not their order, because the
  source's order follows set iteration and is unspecified.
- Seqs.Dedup: states no duplicates and the same elements. It does not state that each element
  sits where it first occurs.
- Catalog.RequiredSkills: for an object without `skills` it states that each key appears once
  and that exactly the object's keys appear, not that they keep the order they first appear in
  (the function itself computes that order).
