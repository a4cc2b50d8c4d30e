/**
 * The editor store (`codeEditor`): the code of every language, the selected
 * language and its code, and the other editor properties. `setCodeEditor`
 * applies the keys of its payload one after another, in payload order.
 */
module CodeEditorSlice {

  /** The JavaScript values the store holds. */
  datatype Value = Str(s: string) | Bool(b: bool) | Null | Undefined | Strings(items: seq<string>)

  datatype Editor = Editor(
    codeByLanguage: map<Value, Value>,
    code: Value,
    language: Value,
    /** Every other property: `output`, `input`, `isLoading`, `isError`, and any key a payload adds. */
    properties: map<string, Value>)

  /** The payload of `setCodeEditor`: its keys with their values, in `Object.keys` order. */
  type Payload = seq<(string, Value)>

  /** The editor shows the stored code of the selected language. */
  predicate Synced(e: Editor)
  {
    e.language in e.codeByLanguage && e.code == e.codeByLanguage[e.language]
  }

  /** The initial state, given the four starter snippets. */
  function InitialEditor(javascript: string, python: string, c: string, cpp: string): (e: Editor)
    ensures Synced(e) && e.language == Str("javascript") && e.code == Str(javascript)
    ensures e.codeByLanguage.Keys == {Str("javascript"), Str("python"), Str("c"), Str("cpp")}
  {
    Editor(
      map[Str("javascript") := Str(javascript), Str("python") := Str(python), Str("c") := Str(c), Str("cpp") := Str(cpp)],
      Str(javascript),
      Str("javascript"),
      map["output" := Strings([]), "input" := Str(""), "isLoading" := Bool(false), "isError" := Null])
  }

  /** One key of the payload. A `language` with no stored code leaves `code` undefined. */
  function ApplyKey(e: Editor, key: string, value: Value): (r: Editor)
    ensures key == "code" ==> r == e.(code := value, codeByLanguage := e.codeByLanguage[e.language := value])
    ensures key == "language" ==> (r.language == value && r.codeByLanguage == e.codeByLanguage &&
                                   r.properties == e.properties &&
                                   r.code == if value in e.codeByLanguage then e.codeByLanguage[value] else Undefined)
    ensures key != "code" && key != "language" ==> r == e.(properties := e.properties[key := value])
    ensures Synced(e) && key != "language" ==> Synced(r)
    ensures key == "language" ==> (Synced(r) <==> value in e.codeByLanguage)
  {
    if key == "code" then
      e.(code := value, codeByLanguage := e.codeByLanguage[e.language := value])
    else if key == "language" then
      var code := if value in e.codeByLanguage then e.codeByLanguage[value] else Undefined;
      e.(language := value, code := code)
    else
      e.(properties := e.properties[key := value])
  }

  predicate NoTableKey(payload: Payload)
  {
    forall k :: 0 <= k < |payload| ==> payload[k].0 != "codeByLanguage"
  }

  /** The keys of a payload that become plain properties. */
  function OtherKeys(payload: Payload): set<string>
  {
    set k | 0 <= k < |payload| && payload[k].0 != "code" && payload[k].0 != "language" :: payload[k].0
  }

  /** `setCodeEditor`: the keys applied in payload order. */
  function ApplyPayload(e: Editor, payload: Payload): (r: Editor)
    requires NoTableKey(payload)
    ensures payload == [] ==> r == e
    ensures r.properties.Keys == e.properties.Keys + OtherKeys(payload)
    decreases |payload|
  {
    if payload == [] then e
    else
      var last := payload[|payload| - 1];
      ApplyKey(ApplyPayload(e, payload[..|payload| - 1]), last.0, last.1)
  }

  /** The languages a payload selects. */
  predicate SelectsOnly(payload: Payload, languages: set<Value>)
  {
    forall k :: 0 <= k < |payload| && payload[k].0 == "language" ==> payload[k].1 in languages
  }

  /** Stored languages are never dropped: a payload only adds to or overwrites `codeByLanguage`. */
  lemma {:induction false} LanguagesKept(e: Editor, payload: Payload)
    requires NoTableKey(payload)
    ensures e.codeByLanguage.Keys <= ApplyPayload(e, payload).codeByLanguage.Keys
    decreases |payload|
  {
    if payload != [] {
      LanguagesKept(e, payload[..|payload| - 1]);
    }
  }

  /**
   * The editor stays in sync through any payload that selects only languages that
   * have stored code.
   */
  lemma {:induction false} SyncPreserved(e: Editor, payload: Payload)
    requires NoTableKey(payload) && Synced(e)
    requires SelectsOnly(payload, e.codeByLanguage.Keys)
    ensures Synced(ApplyPayload(e, payload))
    decreases |payload|
  {
    if payload != [] {
      var init := payload[..|payload| - 1];
      assert SelectsOnly(init, e.codeByLanguage.Keys) by {
        forall k | 0 <= k < |init| && init[k].0 == "language" ensures init[k].1 in e.codeByLanguage.Keys {
          assert init[k] == payload[k];
        }
      }
      SyncPreserved(e, init);
      LanguagesKept(e, init);
    }
  }

  /** A payload of other keys leaves the code, the language and every language's code alone. */
  lemma {:induction false} OtherKeysKeepCode(e: Editor, payload: Payload)
    requires NoTableKey(payload)
    requires forall k :: 0 <= k < |payload| ==> payload[k].0 != "code" && payload[k].0 != "language"
    ensures var r := ApplyPayload(e, payload);
      r.code == e.code && r.language == e.language && r.codeByLanguage == e.codeByLanguage
    decreases |payload|
  {
    if payload != [] {
      OtherKeysKeepCode(e, payload[..|payload| - 1]);
    }
  }

  /**
   * Keys apply in payload order: `{language, code}` stores the code under the new
   * language, `{code, language}` under the old one, where the new language then
   * shows its previously stored code.
   */
  lemma OrderMatters(javascript: string, python: string, c: string, cpp: string, typed: string)
    requires typed != python
    ensures var e := InitialEditor(javascript, python, c, cpp);
      var first := ApplyPayload(e, [("language", Str("python")), ("code", Str(typed))]);
      var second := ApplyPayload(e, [("code", Str(typed)), ("language", Str("python"))]);
      && first.codeByLanguage == e.codeByLanguage[Str("python") := Str(typed)] && first.code == Str(typed)
      && second.codeByLanguage == e.codeByLanguage[Str("javascript") := Str(typed)] && second.code == Str(python)
      && first != second
  {
    var e := InitialEditor(javascript, python, c, cpp);
    var p1 := [("language", Str("python")), ("code", Str(typed))];
    assert p1[..1] == [("language", Str("python"))] && p1[..1][..0] == [];
    var p2 := [("code", Str(typed)), ("language", Str("python"))];
    assert p2[..1] == [("code", Str(typed))] && p2[..1][..0] == [];
  }

  class CodeEditorStore {
    var codeByLanguage: map<Value, Value>
    var code: Value
    var language: Value
    var properties: map<string, Value>

    function State(): Editor
      reads this
    {
      Editor(codeByLanguage, code, language, properties)
    }

    constructor (javascript: string, python: string, c: string, cpp: string)
      ensures State() == InitialEditor(javascript, python, c, cpp)
    {
      var e := InitialEditor(javascript, python, c, cpp);
      codeByLanguage := e.codeByLanguage;
      code := e.code;
      language := e.language;
      properties := e.properties;
    }

    /** The reducer: one pass over the payload's keys, updating the draft field by field. */
    method SetCodeEditor(payload: Payload)
      requires NoTableKey(payload)
      modifies this
      ensures State() == ApplyPayload(old(State()), payload)
    {
      ghost var start := State();
      for i := 0 to |payload|
        invariant State() == ApplyPayload(start, payload[..i])
      {
        var (key, value) := payload[i];
        if key == "code" {
          code := value;
          codeByLanguage := codeByLanguage[language := value];
        } else if key == "language" {
          language := value;
          code := if value in codeByLanguage then codeByLanguage[value] else Undefined;
        } else {
          properties := properties[key := value];
        }
        assert payload[..i + 1][..i] == payload[..i];
      }
      assert payload[..|payload|] == payload;
    }
  }
}
