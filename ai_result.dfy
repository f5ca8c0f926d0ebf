/**
 * The AI result adapter of app.py: cleaning the model's reply (lines 38-47),
 * filling in the five expected keys (lines 53-56), the function
 * `analyze_resume_with_gemini` as a whole (lines 33-66), and turning the
 * suggested role names into a suggestion map (lines 160-163).  The model call
 * and `json.loads` are outside the model: the reply text arrives as a value and
 * the JSON decoder as a function parameter.
 */
module AiResult {
  import opened Wrappers
  import opened Text

  /** Python `d.get(key, default)`: the member's value when the key is present, the default otherwise. */
  function Get(members: map<string, Json>, key: string, default: Json): (r: Json)
    ensures key in members ==> r == members[key]
    ensures key !in members ==> r == default
  {
    if key in members then members[key] else default
  }

  /** A decoded JSON value, as `json.loads` returns it. */
  datatype Json =
    | JNull
    | JBool(b: bool)
    | JNumber(n: real)
    | JString(s: string)
    | JArray(items: seq<Json>)
    | JObject(members: map<string, Json>)

  const JsonFence := "```json"
  const Fence := "```"

  /** Python `key in v` for the string `key`; `None` where it raises TypeError (null, booleans, numbers). */
  function PyIn(key: string, v: Json): (r: Option<bool>)
    ensures r.Some? <==> SuggestedNames(v).Some?
    ensures v.JArray? || v.JObject? ==> (r == Some(true) <==> key in SuggestedNames(v).value)
    ensures v.JString? && |key| == 1 ==> (r == Some(true) <==> key in SuggestedNames(v).value)
    ensures v.JString? ==> r == Some(true) || r == Some(false)
  {
    match v
    case JString(s) =>
      assert |key| == 1 ==> (IsInfix(key, s) <==> key in SuggestedNames(v).value) by {
        if |key| == 1 && IsInfix(key, s) {
          var i :| 0 <= i <= |s| - 1 && OccursAt(key, s, i);
          assert key == [s[i]];
        }
        if |key| == 1 && key in SuggestedNames(v).value {
          var i :| 0 <= i < |s| && [s[i]] == key;
          assert OccursAt(key, s, i);
        }
      }
      Some(IsInfix(key, s))
    case JArray(items) => Some(JString(key) in items)
    case JObject(members) => Some(key in members)
    case _ => None
  }

  /** Python truthiness of a decoded value (line 152): the falsy values are `None`, `False`, `0`, `""`, `[]` and `{}`. */
  function Truthy(v: Json): (r: bool)
    ensures !r <==> v in {JNull, JBool(false), JNumber(0.0), JString(""), JArray([]), JObject(map[])}
  {
    match v
    case JNull => false
    case JBool(b) => b
    case JNumber(n) => n != 0.0
    case JString(s) => s != ""
    case JArray(items) => items != []
    case JObject(members) => members != map[]
  }

  /** Lines 41-47 as one expression: drop one opening fence, then one closing fence. */
  ghost function DropFences(s: string): string
  {
    var body := s[OpeningLength(s)..];
    if EndsWith(body, Fence) then body[..|body| - 3] else body
  }

  /** How much of `s` the opening-fence test of lines 41-44 removes. */
  function OpeningLength(s: string): (n: nat)
    ensures n <= |s|
    ensures n == 0 || (n == |Fence| && StartsWith(s, Fence)) || (n == |JsonFence| && StartsWith(s, JsonFence))
    ensures StartsWith(s, JsonFence) ==> n == |JsonFence|
    ensures StartsWith(s, Fence) ==> n >= |Fence|
  {
    if StartsWith(s, JsonFence) then 7 else if StartsWith(s, Fence) then 3 else 0
  }

  /** Lines 38-47: `strip()`, then the fence removal. */
  ghost function Unfence(raw: string): string
  {
    DropFences(Strip(raw))
  }

  /** `t` is `s` with the prefix `s[..i]` and the suffix `s[j..]` removed, each an allowed fence or nothing. */
  ghost predicate FenceSplit(s: string, t: string, i: int, j: int)
  {
    && 0 <= i <= j <= |s| && t == s[i..j]
    && (i == 0 || s[..i] == Fence || s[..i] == JsonFence)
    && (j == |s| || s[j..] == Fence)
  }

  /** Lines 38-47: `strip()`, then the fence checks, reassigning the text step by step. */
  method StripFences(raw: string) returns (text: string)
    ensures text == Unfence(raw)
  {
    text := Strip(raw);
    if StartsWith(text, JsonFence) {
      text := text[7..];
    } else if StartsWith(text, Fence) {
      text := text[3..];
    }
    if EndsWith(text, Fence) {
      text := text[..|text| - 3];
    }
  }

  /**
   * The split behind `DropFences`: the opening fence `OpeningLength` picks, and
   * a closing fence exactly when the text after the opening ends with one.
   */
  lemma DropFencesSplit(s: string) returns (j: int)
    ensures FenceSplit(s, DropFences(s), OpeningLength(s), j)
    ensures j == if EndsWith(s[OpeningLength(s)..], Fence) then |s| - 3 else |s|
  {
    var i := OpeningLength(s);
    var body := s[i..];
    assert DropFences(s) == if EndsWith(body, Fence) then body[..|body| - 3] else body;
    if EndsWith(body, Fence) {
      j := |s| - 3;
      assert s[j..] == body[|body| - 3..];
      assert body[..|body| - 3] == s[i..j];
    } else {
      j := |s|;
    }
  }

  /** "```json" begins with "```". */
  lemma JsonFenceIsFence(s: string)
    requires StartsWith(s, JsonFence)
    ensures StartsWith(s, Fence)
  {
    assert s[..3] == s[..7][..3];
  }

  /**
   * What fence removal takes away: at most one opening fence ("```json" is
   * preferred over "```") and at most one closing fence, which is removed
   * exactly when the text after the opening ends with one; text without fences
   * comes back unchanged.
   */
  lemma DropFencesRemovesAtMostOneEachSide(s: string)
    ensures exists i, j :: FenceSplit(s, DropFences(s), i, j)
    ensures !StartsWith(s, Fence) && !EndsWith(s, Fence) ==> DropFences(s) == s
    ensures StartsWith(s, JsonFence) ==> StartsWith(s[7..], DropFences(s))
    ensures EndsWith(s[OpeningLength(s)..], Fence) ==> s == s[..OpeningLength(s)] + DropFences(s) + Fence
    ensures !EndsWith(s[OpeningLength(s)..], Fence) ==> s == s[..OpeningLength(s)] + DropFences(s)
  {
    var j := DropFencesSplit(s);
    var i := OpeningLength(s);
    assert s == s[..i] + s[i..j] + s[j..];
    if StartsWith(s, JsonFence) {
      JsonFenceIsFence(s);
      var t := DropFences(s);
      assert t == s[7..j];
      assert s[7..][..|t|] == t;
    }
  }

  /** A reply wrapped in a bare code fence is unwrapped to exactly its body, unless the body starts with "json". */
  lemma UnfenceBareBlock(body: string)
    requires !StartsWith(body, "json")
    ensures Unfence(Fence + body + Fence) == body
  {
    var raw := Fence + body + Fence;
    assert TrimStart(raw) == raw && TrimEnd(raw) == raw;
    assert !StartsWith(raw, JsonFence) by {
      if |body| >= 4 {
        assert raw[3..7] == body[..4];
      } else if |raw| >= 7 {
        var k := 3 + |body|;
        assert raw[k] == '`' && raw[..7][k] == raw[k];
      }
    }
    assert raw[..3] == Fence;
    assert raw[3..] == body + Fence;
  }

  /** A reply wrapped in a JSON code fence is unwrapped to exactly its body. */
  lemma UnfenceJsonBlock(body: string)
    ensures Unfence(JsonFence + body + Fence) == body
  {
    var raw := JsonFence + body + Fence;
    assert TrimStart(raw) == raw && TrimEnd(raw) == raw;
    assert raw[..7] == JsonFence;
    assert raw[7..] == body + Fence;
  }

  /** The result of lines 53-56: the object with the missing expected keys set to `[]`; other values raise or pass through. */
  ghost function WithDefaults(v: Json): Option<Json>
  {
    match v
    case JObject(members) =>
      Some(JObject(members + map k | k in ExpectedKeys && k !in members :: JArray([])))
    case JString(_) | JArray(_) =>
      if forall k | k in ExpectedKeys :: PyIn(k, v) == Some(true) then Some(v) else None
    case _ => None
  }

  const ExpectedKeys := ["skills", "recommended_skills", "certifications", "unwanted_skills", "job_suggestions"]

  /** Lines 53-56 on a decoded object: each expected key it lacks is set to `[]`, in turn. */
  method AddMissingKeys(members: map<string, Json>) returns (result: map<string, Json>)
    ensures forall k :: k in result <==> k in members || k in ExpectedKeys
    ensures forall k | k in members :: result[k] == members[k]
    ensures forall k | k in result && k !in members :: result[k] == JArray([])
  {
    result := members;
    for n := 0 to |ExpectedKeys|
      invariant forall k :: k in result <==> k in members || k in ExpectedKeys[..n]
      invariant forall k | k in members :: result[k] == members[k]
      invariant forall k | k in result && k !in members :: result[k] == JArray([])
    {
      var key := ExpectedKeys[n];
      assert ExpectedKeys[..n + 1] == ExpectedKeys[..n] + [key];
      if key !in result {
        result := result[key := JArray([])];
      }
    }
    assert ExpectedKeys[..|ExpectedKeys|] == ExpectedKeys;
  }

  /**
   * Lines 53-56 on any decoded value.  On a string or a list `key not in result`
   * is a substring or item test and the assignment `result[key] = []` raises
   * TypeError; on null, a boolean or a number the test itself raises.  Either
   * error makes the function return `None` (line 66).
   */
  method FillDefaults(v: Json) returns (r: Option<Json>)
    ensures r == WithDefaults(v)
  {
    match v {
      case JObject(members) =>
        var filled := AddMissingKeys(members);
        var spec := WithDefaults(v).value.members;
        assert filled.Keys == spec.Keys;
        assert forall k | k in filled :: filled[k] == spec[k];
        assert filled == spec;
        r := Some(JObject(filled));
      case JString(_) =>
        r := CheckAllPresent(v);
      case JArray(_) =>
        r := CheckAllPresent(v);
      case _ =>
        r := None;
    }
  }

  /** The loop of lines 54-56 where assigning a missing key raises: the value survives only if it has every key. */
  method CheckAllPresent(v: Json) returns (r: Option<Json>)
    requires v.JString? || v.JArray?
    ensures r.Some? <==> forall k | k in ExpectedKeys :: PyIn(k, v) == Some(true)
    ensures r.Some? ==> r.value == v
  {
    for n := 0 to |ExpectedKeys|
      invariant forall k | k in ExpectedKeys[..n] :: PyIn(k, v) == Some(true)
    {
      assert ExpectedKeys[..n + 1] == ExpectedKeys[..n] + [ExpectedKeys[n]];
      if PyIn(ExpectedKeys[n], v) == Some(false) {
        return None;
      }
    }
    assert ExpectedKeys[..|ExpectedKeys|] == ExpectedKeys;
    r := Some(v);
  }

  /** After defaulting, all five keys are present and the keys that were already there keep their values. */
  lemma DefaultsKeepAndComplete(members: map<string, Json>)
    ensures WithDefaults(JObject(members)).Some?
    ensures var filled := WithDefaults(JObject(members)).value.members;
      && (forall k | k in ExpectedKeys :: k in filled)
      && (forall k | k in members :: k in filled && filled[k] == members[k])
      && (forall k | k in filled && k !in members :: filled[k] == JArray([]) && k in ExpectedKeys)
  {
  }

  /** Whatever defaulting lets through is truthy, so the `if gemini_result:` test of line 152 only rejects `None`. */
  lemma {:induction false} DefaultedIsTruthy(v: Json)
    requires WithDefaults(v).Some?
    ensures Truthy(WithDefaults(v).value)
  {
    match v
    case JObject(members) =>
      var filled := WithDefaults(v).value.members;
      assert "skills" in filled;
    case JArray(items) =>
      assert PyIn("skills", v) == Some(true);
      assert JString("skills") in items;
    case JString(s) =>
      assert PyIn("skills", v) == Some(true);
      var i :| 0 <= i <= |s| - 6 && s[i..i + 6] == "skills";
  }

  /**
   * What `analyze_resume_with_gemini` returns for a reply: `None` when the call
   * failed (no reply), when `json.loads` rejects the cleaned text, or when
   * defaulting raises.
   */
  ghost function GeminiResult(reply: Option<string>, parse: string -> Option<Json>): Option<Json>
  {
    if reply.None? then None
    else match parse(Unfence(reply.value))
      case None => None
      case Some(v) => WithDefaults(v)
  }

  /** `analyze_resume_with_gemini` (lines 33-66) from the model's reply on. */
  method AnalyzeWithGemini(reply: Option<string>, parse: string -> Option<Json>) returns (r: Option<Json>)
    ensures r == GeminiResult(reply, parse)
    ensures r.Some? ==> reply.Some? && parse(Unfence(reply.value)).Some?
    ensures r.Some? ==> Truthy(r.value)
  {
    if reply.None? {
      return None;
    }
    var text := StripFences(reply.value);
    var parsed := parse(text);
    if parsed.None? {
      return None;
    }
    r := FillDefaults(parsed.value);
    if r.Some? {
      DefaultedIsTruthy(parsed.value);
    }
  }

  /** The fixed justification every AI-suggested role gets (line 163). */
  const AiPlaceholder := "AI-suggested based on your skills"

  /** The role names iterating `v` yields that are strings (lines 161-162); `None` when `v` is not iterable. */
  ghost function SuggestedNames(v: Json): Option<set<string>>
  {
    match v
    case JArray(items) => Some(set x | x in items && x.JString? :: x.s)
    case JString(s) => Some(set i | 0 <= i < |s| :: [s[i]])
    case JObject(members) => Some(members.Keys)
    case _ => None
  }

  /** Lines 160-163 over a list: every string item becomes a key mapped to the placeholder. */
  method PlaceholderSuggestions(items: seq<Json>) returns (suggestions: map<string, seq<string>>)
    ensures forall k :: k in suggestions <==> JString(k) in items
    ensures forall k | k in suggestions :: suggestions[k] == [AiPlaceholder]
  {
    suggestions := map[];
    for n := 0 to |items|
      invariant forall k :: k in suggestions <==> JString(k) in items[..n]
      invariant forall k | k in suggestions :: suggestions[k] == [AiPlaceholder]
    {
      assert items[..n + 1] == items[..n] + [items[n]];
      if items[n].JString? {
        suggestions := suggestions[items[n].s := [AiPlaceholder]];
      }
    }
    assert items[..|items|] == items;
  }

  /**
   * Lines 160-163: `for job in v: if isinstance(job, str): ...`.  A string is
   * iterated by characters and an object by its keys; anything else raises
   * TypeError, which yields `None`.
   */
  method AiSuggestions(v: Json) returns (r: Option<map<string, seq<string>>>)
    ensures r.Some? <==> SuggestedNames(v).Some?
    ensures r.Some? ==> r.value.Keys == SuggestedNames(v).value
    ensures r.Some? ==> forall k | k in r.value :: r.value[k] == [AiPlaceholder]
  {
    match v {
      case JArray(items) =>
        var m := PlaceholderSuggestions(items);
        r := Some(m);
      case JString(s) =>
        var chars := seq(|s|, i requires 0 <= i < |s| => JString([s[i]]));
        var m := PlaceholderSuggestions(chars);
        forall k | k in m ensures k in SuggestedNames(v).value {
          var n :| 0 <= n < |chars| && chars[n] == JString(k);
        }
        forall i | 0 <= i < |s| ensures [s[i]] in m {
          assert chars[i] == JString([s[i]]);
        }
        r := Some(m);
      case JObject(members) =>
        r := Some(map k | k in members :: [AiPlaceholder]);
      case _ =>
        r := None;
    }
  }
}
