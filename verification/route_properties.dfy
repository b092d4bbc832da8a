/** What the POST handler of app/api/compat/route.ts promises: how the key
    and the model name are read, the order of its checks, that it calls the
    model once and never again, and how the model's reply becomes the answer. */
module RouteProperties {
  import opened JsString
  import opened JsValue
  import opened Extraction
  import opened Normalizer
  import opened NormalizeProperties
  import opened Envelope
  import opened Route

  /** A Google key made only of white space is still set, so it shadows the
      Gemini key, and trimming then leaves no key at all. */
  lemma WhitespaceGoogleKeyShadowsGemini(google: string, gemini: string)
    requires google != "" && forall i :: 0 <= i < |google| ==> IsWhite(google[i])
    ensures ApiKey(google, gemini) == ""
  {
    TrimAllWhite(google);
  }

  /** Putting the prefix in front of a trimmed name keeps it trimmed. */
  lemma PrefixedIsTrimmed(m: string)
    requires IsTrimmed(m)
    ensures IsTrimmed(ModelsPrefix + m)
  {
    var t := ModelsPrefix + m;
    assert t[0] == 'm';
    if m != [] {
      assert t[|t| - 1] == m[|m| - 1];
    }
  }

  /** A model name given with the "models/" prefix names the same model. */
  lemma PrefixedModelName(m: string)
    requires IsTrimmed(m)
    ensures ModelName(ModelsPrefix + m) == m
  {
    PrefixedIsTrimmed(m);
    assert ModelsPrefix <= ModelsPrefix + m;
  }

  /** Every valid model name starts with "gemini", so a name that starts
      with anything but a "g" is not valid. */
  lemma NotGeminiIsInvalid(m: string)
    requires |m| > 0 && m[0] != 'g'
    ensures m !in ValidModels
  {
  }

  /** The prefix is removed once only: a doubled prefix leaves one behind. */
  lemma DoublePrefixIsKept(m: string)
    requires IsTrimmed(m)
    ensures ModelName(ModelsPrefix + (ModelsPrefix + m)) == ModelsPrefix + m
  {
    PrefixedIsTrimmed(m);
    PrefixedModelName(ModelsPrefix + m);
  }

  /** So a doubled prefix leaves a name that is not a valid model, and every
      request is then refused as `InvalidModelIsRefused` states. */
  lemma DoublePrefixIsInvalid(m: string)
    requires IsTrimmed(m)
    ensures ModelName(ModelsPrefix + (ModelsPrefix + m)) !in ValidModels
  {
    DoublePrefixIsKept(m);
    var n := ModelsPrefix + m;
    assert n[0] == 'm';
    NotGeminiIsInvalid(n);
  }

  /** A configured model that is not among the valid ones refuses every
      request with a 500 naming it, before the body is read, once a key is set. */
  lemma InvalidModelIsRefused(rt: Runtime, cfg: Config, body: Result<Json>, call: Inputs -> Reply)
    requires cfg.apiKey != "" && cfg.model !in ValidModels
    ensures Handle(rt, cfg, body, call) == Exchange(Response(500, Failure(BadModelDetail(cfg.model))), [])
  {
  }

  /** With no model configured, the default is used, and it is a valid one. */
  lemma DefaultModelIsValid()
    ensures ModelName("") == DefaultModel
    ensures ModelName("") in ValidModels
  {
  }

  /** The key is checked before anything else: without it the answer is a
      500 and the model is never called, whatever the request. */
  lemma KeyCheckedFirst(rt: Runtime, model: string, body: Result<Json>, call: Inputs -> Reply)
    ensures Handle(rt, Config("", model), body, call)
      == Exchange(Response(500, Failure(KeyMissingDetail)), [])
  {
  }

  /** `String(v || fallback)`, upper-cased when `upper` holds, is `s`: the
      fallback when `v` is falsy, otherwise `v`'s string conversion. */
  predicate CoercedFrom(rt: Runtime, v: Option<Json>, fallback: string, upper: bool, s: string) {
    && (!Truthy(v) ==> s == fallback)
    && (Truthy(v) ==> (
          && ToText(rt, v.value).Ok?
          && s == (if upper then ToUpper(ToText(rt, v.value).value) else ToText(rt, v.value).value)))
  }

  /** Each of the eight coerced fields: its fallback when the request's value
      is falsy ("" for birth dates and MBTI types, "미상" for blood types and
      birth times, which upper-casing leaves alone), otherwise that value
      converted to a string, upper-cased for the MBTI and blood types. */
  lemma CoercedFields(rt: Runtime, b: Json)
    requires CoercibleBody(b)
    ensures var c := Coerce(rt, b);
      && c.Ok?
      && CoercedFrom(rt, Get(Some(b), "man_birth"), "", false, c.value.manBirth)
      && CoercedFrom(rt, Get(Some(b), "woman_birth"), "", false, c.value.womanBirth)
      && CoercedFrom(rt, Get(Some(b), "man_mbti"), "", true, c.value.manMbti)
      && CoercedFrom(rt, Get(Some(b), "woman_mbti"), "", true, c.value.womanMbti)
      && CoercedFrom(rt, Get(Some(b), "man_blood"), Unknown, true, c.value.manBlood)
      && CoercedFrom(rt, Get(Some(b), "woman_blood"), Unknown, true, c.value.womanBlood)
      && CoercedFrom(rt, Get(Some(b), "man_time"), Unknown, false, c.value.manTime)
      && CoercedFrom(rt, Get(Some(b), "woman_time"), Unknown, false, c.value.womanTime)
  {
    assert ToUpper(Unknown) == Unknown && ToUpper("") == "";
    CoercedField(rt, Get(Some(b), "man_birth"), "", false);
    CoercedField(rt, Get(Some(b), "woman_birth"), "", false);
    CoercedField(rt, Get(Some(b), "man_mbti"), "", true);
    CoercedField(rt, Get(Some(b), "woman_mbti"), "", true);
    CoercedField(rt, Get(Some(b), "man_blood"), Unknown, true);
    CoercedField(rt, Get(Some(b), "woman_blood"), Unknown, true);
    CoercedField(rt, Get(Some(b), "man_time"), Unknown, false);
    CoercedField(rt, Get(Some(b), "woman_time"), Unknown, false);
  }

  /** One field: `String(v || fallback)`, upper-cased when asked, is what
      `CoercedFrom` describes, as long as upper-casing keeps the fallback. */
  lemma CoercedField(rt: Runtime, v: Option<Json>, fallback: string, upper: bool)
    requires Clean(v)
    requires upper ==> ToUpper(fallback) == fallback
    ensures StringOr(rt, v, fallback).Ok?
    ensures var t := StringOr(rt, v, fallback).value;
      CoercedFrom(rt, v, fallback, upper, if upper then ToUpper(t) else t)
  {
  }

  /** A request misses a required input exactly when one of the birth dates
      or MBTI types is falsy or converts to the empty string. */
  lemma MissingInputOfBody(rt: Runtime, b: Json)
    requires CoercibleBody(b)
    ensures Coerce(rt, b).Ok?
    ensures MissingInput(Coerce(rt, b).value) <==>
      || Blank(rt, Get(Some(b), "man_birth")) || Blank(rt, Get(Some(b), "woman_birth"))
      || Blank(rt, Get(Some(b), "man_mbti")) || Blank(rt, Get(Some(b), "woman_mbti"))
  {
    CoercedFields(rt, b);
  }

  /** A request without a man's MBTI (absent, null, "" or another falsy
      value) is refused with 400 before the model is called. */
  lemma MissingMbtiIs400(rt: Runtime, cfg: Config, b: Json, call: Inputs -> Reply)
    requires cfg.apiKey != "" && cfg.model in ValidModels
    requires CoercibleBody(b)
    requires !Truthy(Get(Some(b), "man_mbti"))
    ensures Handle(rt, cfg, Ok(b), call) == Exchange(Response(400, Failure(MissingInputDetail)), [])
  {
    var c := Coerce(rt, b);
    assert c.Ok? && c.value.manMbti == "";
  }

  /** An upstream answer outside 2xx becomes a 500 carrying its status and
      body; the model was called exactly once, and is not called again. */
  lemma UpstreamFailureIs500(rt: Runtime, cfg: Config, body: Result<Json>, call: Inputs -> Reply,
                             status: nat, raw: string)
    requires Guard(rt, cfg, body).Proceed?
    requires call(Guard(rt, cfg, body).inputs) == Answered(status, raw)
    requires !(200 <= status <= 299)
    ensures var x := Handle(rt, cfg, body, call);
      && x.response == Response(500, Failure("Gemini " + Decimal(status) + ": " + raw))
      && |x.calls| == 1
  {
    var m := "Gemini " + Decimal(status) + ": " + raw;
    assert m[0] == 'G';
  }

  /** A failed connection becomes a 500 carrying the error's message. */
  lemma UnreachableIs500(rt: Runtime, cfg: Config, body: Result<Json>, call: Inputs -> Reply, message: string)
    requires Guard(rt, cfg, body).Proceed?
    requires call(Guard(rt, cfg, body).inputs) == Unreachable(message)
    ensures Handle(rt, cfg, body, call).response == ServerError(message)
  {
  }

  /** A 2xx answer whose text, once extracted, is not JSON gives the
      all-fallback report with status 200 rather than an error. */
  lemma UnparsableReplyGivesDefaults(rt: Runtime, cfg: Config, body: Result<Json>, call: Inputs -> Reply,
                                     status: nat, raw: string)
    requires Guard(rt, cfg, body).Proceed?
    requires call(Guard(rt, cfg, body).inputs) == Answered(status, raw)
    requires 200 <= status <= 299
    requires ModelText(rt, raw).Ok?
    requires rt.parseJson(ExtractJson(ModelText(rt, raw).value)).None?
    ensures Handle(rt, cfg, body, call).response == Response(200, Success(DefaultReport()))
  {
    EmptyObjectGivesDefaults(rt);
    assert ReportFor(rt, raw) == Ok(DefaultReport());
  }

  /** A reply whose envelope holds the object fenced as "```json", with a
      score of 77 and nothing else, is answered with status 200 and the
      all-fallback report except for that score. */
  lemma FencedReplyEndToEnd(rt: Runtime, cfg: Config, body: Result<Json>, call: Inputs -> Reply,
                            raw: string, obj: string)
    requires Guard(rt, cfg, body).Proceed?
    requires call(Guard(rt, cfg, body).inputs) == Answered(200, raw)
    requires |obj| > 0 && obj[0] == '{' && obj[|obj| - 1] == '}'
    requires rt.parseJson(raw).Some?
    requires HoldsText(rt.parseJson(raw).value, Fence + "json" + "\n" + obj + "\n" + Fence)
    requires rt.parseJson(obj) == Some(JObj(map["score" := JNum(77.0)]))
    ensures var x := Handle(rt, cfg, body, call);
      x.response == Response(200, Success(DefaultReport().(score := 77)))
  {
    var text := Fence + "json" + "\n" + obj + "\n" + Fence;
    EnvelopeTextIsReturned(rt, raw, text);
    FencedReplyYieldsBody("json", obj);
    ScoreOnlyReply(rt, 77);
    assert ReportFor(rt, raw) == Ok(DefaultReport().(score := 77));
  }

  /** As written: a 2xx reply whose object has a summary with a "toString"
      key makes `normalize` throw, and the route answers 500 with the
      TypeError's message, although the reply was received and parsed. */
  lemma ToStringKeyReplyIs500(rt: Runtime, cfg: Config, body: Result<Json>, call: Inputs -> Reply,
                              status: nat, raw: string)
    requires Guard(rt, cfg, body).Proceed?
    requires call(Guard(rt, cfg, body).inputs) == Answered(status, raw)
    requires 200 <= status <= 299
    requires ModelText(rt, raw).Ok?
    requires rt.parseJson(ExtractJson(ModelText(rt, raw).value))
      == Some(JObj(map["summary" := JObj(map["toString" := JNum(1.0)])]))
    ensures Handle(rt, cfg, body, call).response == Response(500, Failure(TypeErrorMessage))
  {
    ToStringKeyBreaksNormalize(rt);
  }

  /** With the corrected normaliser the same reply gives a 200-worthy report
      whose summary is the fallback sentence. */
  lemma ToStringKeyReplyIntended(rt: Runtime, raw: string)
    requires ModelText(rt, raw).Ok?
    requires rt.parseJson(ExtractJson(ModelText(rt, raw).value))
      == Some(JObj(map["summary" := JObj(map["toString" := JNum(1.0)])]))
    ensures IntendedReportFor(rt, raw).Ok?
    ensures IntendedReportFor(rt, raw).value.summary == SummaryDefault
  {
    NormalizeSafeOnToStringKey(rt);
  }
}
