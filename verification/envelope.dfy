/** The text-extraction step of `callGemini` (app/api/compat/route.ts:92-100):
    find the model's text in the response envelope the generative-language
    API returns, once the HTTP body is in hand. */
module Envelope {
  import opened JsValue

  /** `v?.[0]`: the first element of an array, the property "0" of an
      object, or the first character of a string. */
  function First(v: Option<Json>): (r: Option<Json>)
    ensures v.Some? && v.value.JArr? ==>
      r == (if |v.value.items| > 0 then Some(v.value.items[0]) else None)
    ensures v.Some? && v.value.JObj? ==>
      r == (if "0" in v.value.fields then Some(v.value.fields["0"]) else None)
    ensures v.Some? && v.value.JStr? ==>
      r == (if |v.value.s| > 0 then Some(JStr([v.value.s[0]])) else None)
    ensures v.None? || v == Some(JNull) || (v.Some? && (v.value.JBool? || v.value.JNum?)) ==> r.None?
  {
    match v
    case Some(JArr(xs)) => if |xs| > 0 then Some(xs[0]) else None
    case Some(JObj(m)) => if "0" in m then Some(m["0"]) else None
    case Some(JStr(s)) => if |s| > 0 then Some(JStr([s[0]])) else None
    case _ => None
  }

  /** `data?.candidates?.[0]?.content?.parts?.[0]?.text`: only an object
      with a "candidates" entry has a text. */
  function TextAt(data: Json): (r: Option<Json>)
    ensures r.Some? ==> data.JObj? && "candidates" in data.fields
  {
    Get(First(Get(Get(First(Get(Some(data), "candidates")), "content"), "parts")), "text")
  }

  /** `data` is a response envelope whose first candidate's content has a
      first part with the string `text` under "text"; any other entries, or
      further candidates and parts, may be present. */
  predicate HoldsText(data: Json, text: string) {
    && data.JObj? && "candidates" in data.fields
    && var cs := data.fields["candidates"];
    && cs.JArr? && |cs.items| > 0
    && var c := cs.items[0];
    && c.JObj? && "content" in c.fields
    && var content := c.fields["content"];
    && content.JObj? && "parts" in content.fields
    && var ps := content.fields["parts"];
    && ps.JArr? && |ps.items| > 0
    && var p := ps.items[0];
    && p.JObj? && "text" in p.fields
    && p.fields["text"] == JStr(text)
  }

  /** The path `candidates[0].content.parts[0].text` of such an envelope
      leads to its text. */
  lemma TextAtHeldText(data: Json, text: string)
    requires HoldsText(data, text)
    ensures TextAt(data) == Some(JStr(text))
  {
  }

  /** `v ?? ""` */
  function OrEmptyString(v: Option<Json>): (r: Json)
    ensures v.None? || v == Some(JNull) ==> r == JStr("")
    ensures v.Some? && v != Some(JNull) ==> r == v.value
  {
    if v.None? || v == Some(JNull) then JStr("") else v.value
  }

  /** The text `callGemini` returns for the response body `raw`: the body
      itself when it is not JSON; otherwise the text at the envelope's first
      candidate's first part, with "{}" in place of a falsy or missing one.
      Converting a text that is not a string may throw. */
  function ModelText(rt: Runtime, raw: string): (r: Result<string>)
    ensures rt.parseJson(raw).None? ==> r == Ok(raw)
    ensures rt.parseJson(raw).Some? && !Truthy(TextAt(rt.parseJson(raw).value)) ==> r == Ok("{}")
    ensures rt.parseJson(raw).Some? && Truthy(TextAt(rt.parseJson(raw).value)) ==>
      r == ToText(rt, TextAt(rt.parseJson(raw).value).value)
  {
    match rt.parseJson(raw)
    case None => Ok(raw)
    case Some(data) =>
      var text := OrEmptyString(TextAt(data));
      if Truthy(Some(text)) then ToText(rt, text) else Ok("{}")
  }

  /** An envelope holding a non-empty string text yields that text as it is. */
  lemma EnvelopeTextIsReturned(rt: Runtime, raw: string, text: string)
    requires rt.parseJson(raw).Some? && HoldsText(rt.parseJson(raw).value, text)
    requires text != ""
    ensures ModelText(rt, raw) == Ok(text)
  {
    TextAtHeldText(rt.parseJson(raw).value, text);
  }

  /** An envelope whose candidates array is empty yields "{}". */
  lemma MissingTextGivesEmptyObject(rt: Runtime, raw: string)
    requires rt.parseJson(raw) == Some(JObj(map["candidates" := JArr([])]))
    ensures ModelText(rt, raw) == Ok("{}")
  {
    assert TextAt(JObj(map["candidates" := JArr([])])).None?;
  }
}
