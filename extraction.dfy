/**
 * `extract_skills_from_resume` (app.py lines 85-93): a vocabulary skill is found
 * when its lower-cased form occurs in the lower-cased resume between two `\b`
 * word boundaries.
 */
module Extraction {
  import opened Text
  import opened Seqs

  /** The test of lines 90-91 for one skill: a case-insensitive occurrence with a `\b` at both ends. */
  function Extracts(resume: string, skill: string): (r: bool)
    ensures r ==> IsInfix(Lower(skill), Lower(resume))
  {
    MatchesWord(Lower(skill), Lower(resume))
  }

  /** Lower-casing the resume or the skill beforehand changes nothing. */
  lemma ExtractsIgnoresCase(resume: string, skill: string)
    ensures Extracts(resume, skill) == Extracts(Lower(resume), Lower(skill))
  {
    LowerIsIdempotent(resume);
    LowerIsIdempotent(skill);
  }

  /**
   * Lines 86-93.  The vocabulary is a set, so the order in which it is visited,
   * and with it the order of the result, is unspecified: the loop picks any
   * remaining skill.
   */
  method ExtractSkills(resume: string, vocabulary: set<string>) returns (found: seq<string>)
    ensures NoDuplicates(found)
    ensures forall s :: s in found <==> s in vocabulary && Extracts(resume, s)
  {
    var text := Lower(resume);
    var hits: seq<string> := [];
    var pending := vocabulary;
    while pending != {}
      invariant pending <= vocabulary
      invariant forall s :: s in hits <==> s in vocabulary - pending && Extracts(resume, s)
      invariant NoDuplicates(hits)
      invariant forall s | s in hits :: s !in pending
      decreases pending
    {
      var skill :| skill in pending;
      if MatchesWord(Lower(skill), text) {
        hits := hits + [skill];
      }
      pending := pending - {skill};
    }
    // Each skill is visited once, so the de-duplication of line 93 changes nothing.
    DedupOfDistinct(hits);
    found := Dedup(hits);
  }

  /** An empty resume yields no skill, not even the empty one. */
  lemma NothingInEmptyResume(skill: string)
    ensures !Extracts("", skill)
  {
  }

  /** "Java" is not found inside "javascript": no boundary between "java" and "script". */
  lemma JavaScriptIsNotJava()
    ensures Extracts("javascript developer", "JavaScript")
    ensures !Extracts("javascript developer", "Java")
  {
    var t := "javascript developer";
    assert Lower(t) == t;
    assert Lower("JavaScript") == "javascript";
    assert Lower("Java") == "java";
    assert MatchesAt("javascript", t, 0);
    forall i | 0 <= i <= |t| - 4 ensures !MatchesAt("java", t, i) {
      if i == 0 {
        assert !Boundary(t, 4);
      } else {
        assert t[i..i + 4][0] == t[i] != 'j';
      }
    }
  }

  /** Matching ignores case, so upper- and lower-case mentions find the same skill. */
  lemma CaseIsIgnored()
    ensures Extracts("PYTHON and python", "Python")
    ensures Extracts("PYTHON", "python")
  {
    assert Lower("PYTHON and python") == "python and python";
    assert Lower("PYTHON") == "python";
    assert Lower("Python") == "python";
    assert Lower("python") == "python";
    assert MatchesAt("python", "python and python", 0);
    assert MatchesAt("python", "python", 0);
  }

  /**
   * A skill that ends in a non-word character, such as "C++", needs a word
   * character right after it for the closing `\b` to hold.
   */
  lemma TrailingSymbolNeedsWordAfter()
    ensures !Extracts("c++ developer", "C++")
    ensures Extracts("c++11", "C++")
  {
    var t := "c++ developer";
    assert Lower(t) == t;
    assert Lower("C++") == "c++";
    assert Lower("c++11") == "c++11";
    assert MatchesAt("c++", "c++11", 0);
    forall i | 0 <= i <= |t| - 3 ensures !MatchesAt("c++", t, i) {
      if i == 0 {
        assert !Boundary(t, 3);
      } else {
        assert t[i..i + 3][0] == t[i] != 'c';
      }
    }
  }
}
