/**
 * The role catalog `job_roles` (app.py lines 71-79): role name -> entry, where an
 * entry is either a flat list of skills or an object with `skills` and
 * `companies` lists.  Python treats the two forms differently: `x in entry` is
 * list membership for a list but key membership for an object, iterating an
 * object yields its keys, and `entry["companies"]` on a list raises TypeError.
 */
module Catalog {
  import opened Wrappers
  import opened Seqs

  /** One `"key": [values]` member of a role object, in document order. */
  datatype Field = Field(key: string, values: seq<string>)

  datatype Entry =
    | SkillList(skills: seq<string>)
    | RoleObject(fields: seq<Field>)

  /** TypeError raised by subscripting a flat skill list with a string key. */
  datatype Fault = StringIndexOnList(key: string)

  function Keys(fields: seq<Field>): seq<string>
  {
    seq(|fields|, i requires 0 <= i < |fields| => fields[i].key)
  }

  /**
   * `key` is bound to `values` by the last member with that key: `json.load`
   * keeps the last value when an object repeats a key.
   */
  predicate LastValue(fields: seq<Field>, key: string, values: seq<string>)
  {
    exists i | 0 <= i < |fields| :: fields[i] == Field(key, values) && forall k | i < k < |fields| :: fields[k].key != key
  }

  /** `obj[key]` for a key the object has: the value of its last member with that key. */
  function Lookup(fields: seq<Field>, key: string): (r: seq<string>)
    requires key in Keys(fields)
    ensures LastValue(fields, key, r)
  {
    var n := |fields| - 1;
    if fields[n].key == key then
      assert fields[n] == Field(key, fields[n].values);
      fields[n].values
    else
      assert key in Keys(fields[..n]) by {
        var k :| 0 <= k < |fields| && Keys(fields)[k] == key;
        assert Keys(fields[..n])[k] == key;
      }
      var r := Lookup(fields[..n], key);
      var i :| 0 <= i < n && fields[..n][i] == Field(key, r) && forall k | i < k < n :: fields[..n][k].key != key;
      assert fields[i] == Field(key, r);
      assert forall k | i < k < |fields| :: fields[k].key != key by {
        forall k | i < k < |fields| ensures fields[k].key != key {
          if k < n {
            assert fields[..n][k] == fields[k];
          }
        }
      }
      r
  }

  /**
   * What `for x in entry` (and so `set.update(entry)`) yields: the items of a
   * list, the keys of an object, each key once, in the order it first appears.
   */
  function Elements(e: Entry): seq<string>
  {
    match e
    case SkillList(skills) => skills
    case RoleObject(fields) => Dedup(Keys(fields))
  }

  /** Python `s in entry`: list membership for a list, key membership for an object. */
  predicate Contains(e: Entry, s: string)
  {
    match e
    case SkillList(skills) => s in skills
    case RoleObject(fields) => exists i | 0 <= i < |fields| :: fields[i].key == s
  }

  /** Whatever `for x in entry` yields is exactly what `x in entry` accepts. */
  lemma ElementsAreContained(e: Entry, s: string)
    ensures s in Elements(e) <==> Contains(e, s)
  {
    if e.RoleObject? {
      assert s in Keys(e.fields) <==> exists i | 0 <= i < |e.fields| :: e.fields[i].key == s by {
        if s in Keys(e.fields) {
          var i :| 0 <= i < |e.fields| && Keys(e.fields)[i] == s;
          assert e.fields[i].key == s;
        }
        if exists i | 0 <= i < |e.fields| :: e.fields[i].key == s {
          var i :| 0 <= i < |e.fields| && e.fields[i].key == s;
          assert Keys(e.fields)[i] == s;
        }
      }
    }
  }

  /** The expression `entry[key] if key in entry else default`. */
  function Subscript(e: Entry, key: string, default: seq<string>): (r: Result<seq<string>, Fault>)
    ensures r.Failure? <==> e.SkillList? && Contains(e, key)
    ensures r.Failure? ==> r.error == StringIndexOnList(key)
    ensures !Contains(e, key) ==> r == Success(default)
    ensures e.RoleObject? && Contains(e, key) ==> r.Success? && LastValue(e.fields, key, r.value)
  {
    match e
    case SkillList(skills) =>
      if key in skills then Failure(StringIndexOnList(key)) else Success(default)
    case RoleObject(fields) =>
      ElementsAreContained(e, key);
      if key in Keys(fields) then Success(Lookup(fields, key)) else Success(default)
  }

  /**
   * Line 198: the role's required skills, `entry["skills"]` when `"skills" in entry`,
   * otherwise whatever iterating the entry yields.
   */
  function RequiredSkills(e: Entry): (r: Result<seq<string>, Fault>)
    ensures r.Failure? <==> e.SkillList? && "skills" in e.skills
    ensures e.SkillList? && r.Success? ==> r.value == e.skills
    ensures e.RoleObject? && Contains(e, "skills") ==> r.Success? && LastValue(e.fields, "skills", r.value)
    ensures e.RoleObject? && !Contains(e, "skills") ==>
              r.Success? && NoDuplicates(r.value) && forall k :: k in r.value <==> Contains(e, k)
  {
    forall k ensures k in Elements(e) <==> Contains(e, k) {
      ElementsAreContained(e, k);
    }
    Subscript(e, "skills", Elements(e))
  }

  /** Lines 166 and 204: `entry["companies"] if "companies" in entry else []`. */
  function Companies(e: Entry): (r: Result<seq<string>, Fault>)
    ensures r.Failure? <==> e.SkillList? && "companies" in e.skills
    ensures !Contains(e, "companies") ==> r == Success([])
    ensures e.RoleObject? && Contains(e, "companies") ==> r.Success? && LastValue(e.fields, "companies", r.value)
  {
    Subscript(e, "companies", [])
  }

  /** An object that repeats "companies" yields the last list given, as the decoded dict does. */
  lemma RepeatedKeyLastWins()
    ensures Companies(RoleObject([Field("companies", ["Acme"]), Field("companies", ["Globex"])])) == Success(["Globex"])
  {
    var fields := [Field("companies", ["Acme"]), Field("companies", ["Globex"])];
    assert Contains(RoleObject(fields), "companies") by { assert fields[1].key == "companies"; }
    var r := Companies(RoleObject(fields));
    var i :| 0 <= i < 2 && fields[i] == Field("companies", r.value) && forall k | i < k < 2 :: fields[k].key != "companies";
    assert i == 1;
  }

  /** The skill vocabulary `valid_skills` (lines 77-79): everything iterating some role's entry yields. */
  ghost predicate IsVocabulary(vocabulary: set<string>, roles: map<string, Entry>)
  {
    forall s :: s in vocabulary <==> exists r | r in roles :: Contains(roles[r], s)
  }

  /** Lines 77-79: start from the empty set and add the elements of each role's entry. */
  method BuildVocabulary(roles: map<string, Entry>) returns (vocabulary: set<string>)
    ensures IsVocabulary(vocabulary, roles)
  {
    vocabulary := {};
    var pending := roles.Keys;
    while pending != {}
      invariant pending <= roles.Keys
      invariant forall s :: s in vocabulary <==> exists r | r in roles.Keys - pending :: Contains(roles[r], s)
      decreases pending
    {
      var role :| role in pending;
      var added := set s | s in Elements(roles[role]);
      forall s ensures s in added <==> Contains(roles[role], s) {
        ElementsAreContained(roles[role], s);
      }
      vocabulary := vocabulary + added;
      pending := pending - {role};
    }
  }

  /**
   * Because iterating an object yields its keys, a role given in object form
   * contributes the words "skills" and "companies" to the vocabulary, and its
   * own skills only if another role lists them.
   */
  lemma ObjectRoleContributesKeys(vocabulary: set<string>)
    requires IsVocabulary(vocabulary, map["Data Analyst" := RoleObject([Field("skills", ["SQL"]), Field("companies", ["Acme"])])])
    ensures vocabulary == {"skills", "companies"}
  {
    var e := RoleObject([Field("skills", ["SQL"]), Field("companies", ["Acme"])]);
    var roles := map["Data Analyst" := e];
    assert Contains(e, "skills") by { assert e.fields[0].key == "skills"; }
    assert Contains(e, "companies") by { assert e.fields[1].key == "companies"; }
    assert "Data Analyst" in roles && roles["Data Analyst"] == e;
    assert "skills" in vocabulary && "companies" in vocabulary;
    forall s | s in vocabulary ensures s == "skills" || s == "companies" {
      var r :| r in roles && Contains(roles[r], s);
      assert r == "Data Analyst";
    }
  }
}
