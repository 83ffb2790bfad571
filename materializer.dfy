/**
 * Building the map of field changes that `updateUser` hands to the service:
 * a JSON body is taken whole, a form body is filtered through a fixed allow-list.
 */
module Materializer {
  import opened Wrappers

  /** A decoded JSON value; numbers keep their literal text, so no floating point enters the model. */
  datatype Json =
    | JNull
    | JBool(b: bool)
    | JNumber(literal: string)
    | JString(s: string)
    | JArray(items: seq<Json>)
    | JObject(members: map<string, Json>)

  /** The field changes forwarded to the service: field name to new value. */
  type Updates = map<string, Json>

  /** A parsed form body: each name with every value supplied for it, in order. */
  type Form = map<string, seq<string>>

  /** The only form fields an update may carry. */
  const ALLOWED_FIELDS: seq<string> := ["username", "password", "role", "remark"]

  /** The media type that selects the JSON path. */
  const JSON_MEDIA_TYPE: string := "application/json"

  /** `sub` occurs in `s` starting at index `i`. */
  predicate OccursAt(s: string, sub: string, i: int)
  {
    0 <= i && i + |sub| <= |s| && s[i..i + |sub|] == sub
  }

  /** Substring search, as the Content-Type test uses it. */
  function Contains(s: string, sub: string): (found: bool)
    ensures found <==> exists i :: OccursAt(s, sub, i)
    decreases |s|
  {
    if |s| < |sub| then false
    else if s[..|sub|] == sub then
      assert OccursAt(s, sub, 0);
      true
    else
      assert forall i :: OccursAt(s[1..], sub, i) <==> OccursAt(s, sub, i + 1) by {
        forall i ensures OccursAt(s[1..], sub, i) <==> OccursAt(s, sub, i + 1) {
          if 0 <= i && i + |sub| <= |s| - 1 {
            assert s[1..][i..i + |sub|] == s[i + 1..i + 1 + |sub|];
          }
        }
      }
      assert !OccursAt(s, sub, 0);
      assert forall i :: OccursAt(s, sub, i) ==> OccursAt(s[1..], sub, i - 1);
      Contains(s[1..], sub)
  }

  /** The JSON path is taken exactly when the Content-Type mentions the JSON media type. */
  predicate IsJsonRequest(contentType: string)
  {
    Contains(contentType, JSON_MEDIA_TYPE)
  }

  /** The usual media type of an HTML form post. */
  const FORM_MEDIA_TYPE: string := "application/x-www-form-urlencoded"

  /** Every occurrence of the JSON media type has its letter 'j' at offset 12. */
  lemma OccurrenceHasLetterJ(contentType: string, i: int)
    requires OccursAt(contentType, JSON_MEDIA_TYPE, i)
    ensures contentType[i + 12] == 'j'
  {
  }

  /** A Content-Type without the letter 'j' never selects the JSON path. */
  lemma NoJsonWithoutLetterJ(contentType: string)
    requires 'j' !in contentType
    ensures !IsJsonRequest(contentType)
  {
    forall i ensures !OccursAt(contentType, JSON_MEDIA_TYPE, i) {
      if OccursAt(contentType, JSON_MEDIA_TYPE, i) {
        OccurrenceHasLetterJ(contentType, i);
        assert false;
      }
    }
  }

  /** A form post takes the form path. */
  lemma FormMediaTypeIsNotJson()
    ensures !IsJsonRequest(FORM_MEDIA_TYPE)
  {
    assert forall k :: 0 <= k < |FORM_MEDIA_TYPE| ==> FORM_MEDIA_TYPE[k] != 'j';
    NoJsonWithoutLetterJ(FORM_MEDIA_TYPE);
  }

  /** Reference definition of the form path: each allow-listed field that has a value, with its first value. */
  function FormUpdates(form: Form): Updates
  {
    map f | f in ALLOWED_FIELDS && f in form && |form[f]| > 0 :: JString(form[f][0])
  }

  /** The loop of `updateUser` over the allow-list, filling an initially empty map. */
  method MaterializeForm(form: Form) returns (updates: Updates)
    ensures updates == FormUpdates(form)
    ensures forall f :: f in updates ==> f in ALLOWED_FIELDS
  {
    updates := map[];
    for i := 0 to |ALLOWED_FIELDS|
      invariant updates == map f | f in ALLOWED_FIELDS[..i] && f in form && |form[f]| > 0 :: JString(form[f][0])
    {
      var field := ALLOWED_FIELDS[i];
      if field in form && |form[field]| > 0 {
        updates := updates[field := JString(form[field][0])];
      }
      assert ALLOWED_FIELDS[..i + 1] == ALLOWED_FIELDS[..i] + [field];
    }
    assert ALLOWED_FIELDS[..|ALLOWED_FIELDS|] == ALLOWED_FIELDS;
  }

  /**
   * The update set of a request: the decoded JSON document verbatim on the JSON path,
   * the filtered form otherwise; a body that does not parse yields its parse error.
   */
  function UpdateSet(contentType: string, document: Result<Updates, string>, form: Result<Form, string>): (r: Result<Updates, string>)
    ensures (exists i :: OccursAt(contentType, JSON_MEDIA_TYPE, i)) ==> r == document
    ensures (forall i :: !OccursAt(contentType, JSON_MEDIA_TYPE, i)) ==>
              && (r.Failure? <==> form.Failure?)
              && (form.Failure? ==> r.error == form.error)
              && (form.Success? ==> r.value == FormUpdates(form.value))
              && (r.Success? ==> forall f :: f in r.value ==> f in ALLOWED_FIELDS)
  {
    if IsJsonRequest(contentType) then document
    else
      match form
      case Failure(e) => Failure(e)
      case Success(f) => Success(FormUpdates(f))
  }

  /** Form path: only allow-listed fields, each with the first value supplied for it; empty value lists are dropped. */
  lemma FormUpdatesFiltered(form: Form)
    ensures forall f :: f in FormUpdates(form) <==> f in ALLOWED_FIELDS && f in form && form[f] != []
    ensures forall f :: f in FormUpdates(form) ==> FormUpdates(form)[f] == JString(form[f][0])
  {
  }

  /** Form path: a body without any allow-listed field gives an empty, not a failed, update set. */
  lemma FormWithoutAllowedFieldsIsEmpty(form: Form)
    requires forall i :: 0 <= i < |ALLOWED_FIELDS| ==> ALLOWED_FIELDS[i] !in form || form[ALLOWED_FIELDS[i]] == []
    ensures FormUpdates(form) == map[]
  {
  }

  /** JSON path: every key of the document reaches the service with its value unchanged, allow-listed or not. */
  lemma JsonPathVerbatim(contentType: string, document: Result<Updates, string>, form: Result<Form, string>)
    requires exists i :: OccursAt(contentType, JSON_MEDIA_TYPE, i)
    ensures UpdateSet(contentType, document, form) == document
  {
  }

  /** Form path: taken when the Content-Type does not mention JSON; the result holds allow-listed fields only. */
  lemma FormPathFiltered(contentType: string, document: Result<Updates, string>, form: Result<Form, string>)
    requires forall i :: !OccursAt(contentType, JSON_MEDIA_TYPE, i)
    ensures UpdateSet(contentType, document, form).Failure? <==> form.Failure?
    ensures form.Success? ==> UpdateSet(contentType, document, form) == Success(FormUpdates(form.value))
    ensures form.Success? ==> forall f :: f in UpdateSet(contentType, document, form).value ==> f in ALLOWED_FIELDS
  {
  }

  /** A form body naming one allow-listed field and one other field keeps only the allow-listed one. */
  lemma FormDropsUnlistedField()
    ensures FormUpdates(map["username" := ["alice"], "extra" := ["x"]]) == map["username" := JString("alice")]
  {
  }

  /** JSON path example: a document with a field outside the allow-list reaches the service whole. */
  lemma JsonKeepsUnlistedField()
    ensures UpdateSet("application/json", Success(map["remark" := JString("vip"), "unlisted_field" := JNumber("42")]), Failure("unused"))
            == Success(map["remark" := JString("vip"), "unlisted_field" := JNumber("42")])
  {
  }

  /** The same fields sent as a form lose the one outside the allow-list: the two encodings disagree. */
  lemma FormDropsUnlistedFieldOfJsonExample(contentType: string)
    requires !IsJsonRequest(contentType)
    ensures UpdateSet(contentType, Failure("unused"), Success(map["remark" := ["vip"], "unlisted_field" := ["42"]]))
            == Success(map["remark" := JString("vip")])
  {
    var form := map["remark" := ["vip"], "unlisted_field" := ["42"]];
    assert "remark" in ALLOWED_FIELDS;
    assert "unlisted_field" !in ALLOWED_FIELDS;
    assert FormUpdates(form).Keys == {"remark"};
    assert FormUpdates(form)["remark"] == JString("vip");
    assert FormUpdates(form) == map["remark" := JString("vip")];
    assert UpdateSet(contentType, Failure("unused"), Success(form)) == Success(FormUpdates(form));
  }
}
