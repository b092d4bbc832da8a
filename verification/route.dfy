/** The POST handler of app/api/compat/route.ts: configuration read at load
    time, the checks that decide whether the model is called at all, the one
    call to the model, and the turning of its answer into a report. */
module Route {
  import opened JsString
  import opened JsValue
  import opened Extraction
  import opened Normalizer
  import opened Envelope

  /** The environment variables read at load time; an unset variable is "". */
  datatype Env = Env(googleApiKey: string, geminiApiKey: string, geminiModel: string)

  /** `API_KEY` and `MODEL` as fixed at load time. */
  datatype Config = Config(apiKey: string, model: string)

  const DefaultModel := "gemini-1.5-flash"
  const ModelsPrefix := "models/"
  const ValidModels: set<string> := {"gemini-1.5-flash", "gemini-1.5-pro", "gemini-pro", "gemini-pro-vision"}
  /** The valid models in the order the set was built, which is the order
      spreading the set lists them in. */
  const ValidModelList: seq<string> := ["gemini-1.5-flash", "gemini-1.5-pro", "gemini-pro", "gemini-pro-vision"]

  /** `(GOOGLE_API_KEY || GEMINI_API_KEY || "").trim()`: the first key that is
      set wins, and is trimmed afterwards. */
  function ApiKey(google: string, gemini: string): (k: string)
    ensures IsTrimmed(k)
    ensures google == "" ==> k == Trim(gemini)
    ensures google != "" ==> k == Trim(google)
  {
    Trim(if google != "" then google else gemini)
  }

  /** `(GEMINI_MODEL || "gemini-1.5-flash").trim().replace(/^models\//, "")`:
      the default when unset, trimmed, with at most one leading "models/" removed. */
  function ModelName(raw: string): (m: string)
    ensures raw == "" ==> m == DefaultModel
    ensures var t := Trim(raw); raw != "" && !(ModelsPrefix <= t) ==> m == t
    ensures var t := Trim(raw); raw != "" && ModelsPrefix <= t ==> ModelsPrefix + m == t
  {
    assert IsTrimmed(DefaultModel) && DefaultModel[0] != ModelsPrefix[0];
    var t := Trim(if raw == "" then DefaultModel else raw);
    if ModelsPrefix <= t then t[|ModelsPrefix|..] else t
  }

  /** The configuration fixed at load time: a trimmed key, and the default
      model (which is valid) when none is configured. */
  function LoadConfig(env: Env): (c: Config)
    ensures IsTrimmed(c.apiKey)
    ensures env.googleApiKey == "" && env.geminiApiKey == "" ==> c.apiKey == ""
    ensures env.geminiModel == "" ==> c.model == DefaultModel && c.model in ValidModels
  {
    Config(ApiKey(env.googleApiKey, env.geminiApiKey), ModelName(env.geminiModel))
  }

  /** The request fields after coercion to strings. */
  datatype Inputs = Inputs(
    manBirth: string, womanBirth: string,
    manMbti: string, womanMbti: string,
    manBlood: string, womanBlood: string,
    manTime: string, womanTime: string)

  /** The placeholder for an unknown blood type or birth time. */
  const Unknown := "미상"

  /** The values the coercion converts to strings. */
  predicate CoercibleBody(body: Json) {
    && Clean(Get(Some(body), "man_birth")) && Clean(Get(Some(body), "woman_birth"))
    && Clean(Get(Some(body), "man_mbti")) && Clean(Get(Some(body), "woman_mbti"))
    && Clean(Get(Some(body), "man_blood")) && Clean(Get(Some(body), "woman_blood"))
    && Clean(Get(Some(body), "man_time")) && Clean(Get(Some(body), "woman_time"))
  }

  /** The coercion of the request body (route.ts:122-129): birth dates and
      MBTI types become "" when falsy, MBTI types and blood types are
      upper-cased, and a falsy blood type or birth time becomes "미상". It
      throws when one of the eight values cannot be converted to a string. */
  function Coerce(rt: Runtime, body: Json): (r: Result<Inputs>)
    ensures r.Ok? <==> CoercibleBody(body)
    ensures r.Err? ==> r.message == TypeErrorMessage
    ensures r.Ok? ==> forall i :: 0 <= i < |r.value.manMbti| ==> !IsAsciiLower(r.value.manMbti[i])
    ensures r.Ok? ==> forall i :: 0 <= i < |r.value.womanMbti| ==> !IsAsciiLower(r.value.womanMbti[i])
    ensures r.Ok? && !Truthy(Get(Some(body), "man_birth")) ==> r.value.manBirth == ""
    ensures r.Ok? && !Truthy(Get(Some(body), "woman_birth")) ==> r.value.womanBirth == ""
    ensures r.Ok? && !Truthy(Get(Some(body), "man_mbti")) ==> r.value.manMbti == ""
    ensures r.Ok? && !Truthy(Get(Some(body), "woman_mbti")) ==> r.value.womanMbti == ""
    ensures r.Ok? && !Truthy(Get(Some(body), "man_blood")) ==> r.value.manBlood == Unknown
    ensures r.Ok? && !Truthy(Get(Some(body), "woman_blood")) ==> r.value.womanBlood == Unknown
    ensures r.Ok? && !Truthy(Get(Some(body), "man_time")) ==> r.value.manTime == Unknown
    ensures r.Ok? && !Truthy(Get(Some(body), "woman_time")) ==> r.value.womanTime == Unknown
  {
    var manBirth :- StringOr(rt, Get(Some(body), "man_birth"), "");
    var womanBirth :- StringOr(rt, Get(Some(body), "woman_birth"), "");
    var manMbti :- StringOr(rt, Get(Some(body), "man_mbti"), "");
    var womanMbti :- StringOr(rt, Get(Some(body), "woman_mbti"), "");
    var manBlood :- StringOr(rt, Get(Some(body), "man_blood"), Unknown);
    var womanBlood :- StringOr(rt, Get(Some(body), "woman_blood"), Unknown);
    var manTime :- StringOr(rt, Get(Some(body), "man_time"), Unknown);
    var womanTime :- StringOr(rt, Get(Some(body), "woman_time"), Unknown);
    Ok(Inputs(manBirth, womanBirth, ToUpper(manMbti), ToUpper(womanMbti),
              ToUpper(manBlood), ToUpper(womanBlood), manTime, womanTime))
  }

  /** A required input is empty after coercion. */
  predicate MissingInput(i: Inputs) {
    i.manBirth == "" || i.womanBirth == "" || i.manMbti == "" || i.womanMbti == ""
  }

  /** A request value that coerces to "" with the fallback "": a falsy one,
      or one whose string conversion is empty. */
  predicate Blank(rt: Runtime, v: Option<Json>) {
    !Truthy(v) || ToText(rt, v.value) == Ok("")
  }

  /** What the handler answers with. */
  datatype Payload = Failure(detail: string) | Success(report: Report)
  datatype Response = Response(status: nat, payload: Payload)

  const KeyMissingDetail := "API 키가 없습니다. GOOGLE_API_KEY 또는 GEMINI_API_KEY를 설정하세요."
  const MissingInputDetail := "필수 입력(생년월일/MBTI)이 누락되었습니다."
  const ServerErrorDetail := "서버 오류"

  /** `[...VALID_MODELS].join(", ")`, for any list of names. */
  function Join(xs: seq<string>, sep: string): string {
    if |xs| == 0 then "" else if |xs| == 1 then xs[0] else xs[0] + sep + Join(xs[1..], sep)
  }

  /** The detail for a model outside the whitelist: it quotes the model
      after a ten-character lead-in and ends with the list of valid models. */
  function BadModelDetail(model: string): (d: string)
    ensures |d| >= 10 + |model| && d[10..10 + |model|] == model
    ensures var list := Join(ValidModelList, ", ");
      |d| >= |list| && d[|d| - |list|..] == list
  {
    "잘못된 모델명: \"" + model + "\". 사용 가능: " + Join(ValidModelList, ", ")
  }

  /** The catch-all answer: status 500 with the error's message, or a fixed one when it is empty. */
  function ServerError(message: string): (r: Response)
    ensures r.status == 500 && r.payload.Failure? && r.payload.detail != ""
    ensures message != "" ==> r.payload.detail == message
  {
    Response(500, Failure(if message != "" then message else ServerErrorDetail))
  }

  /** The outcome of the checks before the model call. */
  datatype Gate = Proceed(inputs: Inputs) | Reject(response: Response)

  /** The early returns of the handler (route.ts:107-137), in their order:
      the key, then the model name, then reading and coercing the body, then
      the four required inputs. Only a request that passes them all proceeds. */
  function Guard(rt: Runtime, cfg: Config, body: Result<Json>): (g: Gate)
    ensures cfg.apiKey == "" ==> g == Reject(Response(500, Failure(KeyMissingDetail)))
    ensures cfg.apiKey != "" && cfg.model !in ValidModels ==>
      g == Reject(Response(500, Failure(BadModelDetail(cfg.model))))
    ensures (&& cfg.apiKey != "" && cfg.model in ValidModels && body.Ok?
             && Coerce(rt, body.value).Ok? && MissingInput(Coerce(rt, body.value).value)) ==>
      g == Reject(Response(400, Failure(MissingInputDetail)))
    ensures g.Proceed? <==>
      (&& cfg.apiKey != "" && cfg.model in ValidModels && body.Ok?
       && Coerce(rt, body.value).Ok? && !MissingInput(Coerce(rt, body.value).value))
    ensures cfg.apiKey != "" && cfg.model in ValidModels && body.Err? ==>
      g == Reject(ServerError(body.message))
    ensures cfg.apiKey != "" && cfg.model in ValidModels && body.Ok? && Coerce(rt, body.value).Err? ==>
      g == Reject(ServerError(TypeErrorMessage))
    ensures g.Proceed? ==> g.inputs == Coerce(rt, body.value).value
    ensures g.Reject? ==> g.response.status in {400, 500} && g.response.payload.Failure?
  {
    if cfg.apiKey == "" then Reject(Response(500, Failure(KeyMissingDetail)))
    else if cfg.model !in ValidModels then Reject(Response(500, Failure(BadModelDetail(cfg.model))))
    else match body
      case Err(m) => Reject(ServerError(m))
      case Ok(b) =>
        match Coerce(rt, b)
        case Err(m) => Reject(ServerError(m))
        case Ok(inputs) =>
          if MissingInput(inputs) then Reject(Response(400, Failure(MissingInputDetail)))
          else Proceed(inputs)
  }

  /** What the model call returns: an HTTP answer, or the message of the
      error `fetch` rejects with. The prompt is a fixed rendering of the
      inputs, so the call is a function of them. */
  datatype Reply = Answered(status: nat, body: string) | Unreachable(message: string)

  /** `JSON.parse(text)`, with `{}` in place of a parse failure (route.ts:163-169). */
  function ParseOrEmpty(rt: Runtime, text: string): (j: Json)
    ensures rt.parseJson(text).None? ==> j == JObj(map[])
    ensures rt.parseJson(text).Some? ==> j == rt.parseJson(text).value
  {
    match rt.parseJson(text)
    case Some(v) => v
    case None => JObj(map[])
  }

  /** The report for a successful HTTP answer's body: its text, with fences
      and leading prose stripped, parsed or replaced by `{}`, then normalised. */
  function ReportFor(rt: Runtime, raw: string): (r: Result<Report>)
    ensures r.Ok? <==>
      ModelText(rt, raw).Ok? && Convertible(ParseOrEmpty(rt, ExtractJson(ModelText(rt, raw).value)))
    ensures r.Err? ==> r.message == TypeErrorMessage
    ensures r.Ok? ==> InRange(r.value)
  {
    var text :- ModelText(rt, raw);
    Normalize(rt, ParseOrEmpty(rt, ExtractJson(text)))
  }

  /** The report for a successful HTTP answer's body with the corrected
      normaliser in place of `normalize`: it fails only when the envelope's
      text itself cannot be converted, always keeps the report in range, and
      agrees with the route whenever the route produces a report. */
  function IntendedReportFor(rt: Runtime, raw: string): (r: Result<Report>)
    ensures r.Ok? <==> ModelText(rt, raw).Ok?
    ensures r.Ok? ==> InRange(r.value)
    ensures ReportFor(rt, raw).Ok? ==> r == ReportFor(rt, raw)
  {
    var text :- ModelText(rt, raw);
    Ok(NormalizeSafe(rt, ParseOrEmpty(rt, ExtractJson(text))))
  }

  /** The response, and the inputs of every model call that was made. */
  datatype Exchange = Exchange(response: Response, calls: seq<Inputs>)

  /** The answer to a request that passed every check, given the model's
      reply: a 500 for a failed connection, a status outside 2xx or an error
      while building the report, otherwise a 200 with an in-range report. */
  function Answer(rt: Runtime, reply: Reply): (r: Response)
    ensures r.status in {200, 500}
    ensures r.status == 200 <==> r.payload.Success?
    ensures r.payload.Success? ==> InRange(r.payload.report)
    ensures reply.Unreachable? ==> r == ServerError(reply.message)
    ensures reply.Answered? && !(200 <= reply.status <= 299) ==>
      r == ServerError("Gemini " + Decimal(reply.status) + ": " + reply.body)
    ensures reply.Answered? && 200 <= reply.status <= 299 && ReportFor(rt, reply.body).Ok? ==>
      r == Response(200, Success(ReportFor(rt, reply.body).value))
    ensures reply.Answered? && 200 <= reply.status <= 299 && ReportFor(rt, reply.body).Err? ==>
      r == ServerError(ReportFor(rt, reply.body).message)
  {
    match reply
    case Unreachable(m) => ServerError(m)
    case Answered(status, raw) =>
      if !(200 <= status <= 299) then ServerError("Gemini " + Decimal(status) + ": " + raw)
      else match ReportFor(rt, raw)
        case Err(m) => ServerError(m)
        case Ok(report) => Response(200, Success(report))
  }

  /** The POST handler. The model is called at most once and only when every
      check has passed; a rejected request never reaches it. A 200 answer
      always carries an in-range report; every other answer is a 400 or a 500
      with a detail. */
  function Handle(rt: Runtime, cfg: Config, body: Result<Json>, model: Inputs -> Reply): (x: Exchange)
    ensures Guard(rt, cfg, body).Reject? ==> x == Exchange(Guard(rt, cfg, body).response, [])
    ensures Guard(rt, cfg, body).Proceed? ==>
      x == Exchange(Answer(rt, model(Guard(rt, cfg, body).inputs)), [Guard(rt, cfg, body).inputs])
    ensures x.response.status in {200, 400, 500}
    ensures x.response.status == 200 <==> x.response.payload.Success?
    ensures x.response.payload.Success? ==> InRange(x.response.payload.report)
  {
    match Guard(rt, cfg, body)
    case Reject(response) => Exchange(response, [])
    case Proceed(inputs) => Exchange(Answer(rt, model(inputs)), [inputs])
  }
}
