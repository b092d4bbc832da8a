/** `normalize` (app/api/compat/route.ts:34-62): turn whatever the model's
    JSON parsed to into the fixed-shape compatibility report, one field at a
    time, with a fallback for every field. */
module Normalizer {
  import opened JsValue

  /** The five facets of a report, with their keys in the reply and the report. */
  datatype Facet = Emotion | Communication | Reality | Growth | Sustainability {
    function Key(): string {
      match this
      case Emotion => "정서"
      case Communication => "소통"
      case Reality => "현실"
      case Growth => "성장"
      case Sustainability => "지속"
    }

    /** The score a facet takes when the reply gives none that is finite. */
    function DefaultScore(): int {
      match this
      case Emotion => 80
      case Communication => 80
      case Reality => 70
      case Growth => 90
      case Sustainability => 80
    }

    /** The sentence a facet's explanation takes when the reply gives a falsy one. */
    function DefaultExplanation(): string {
      match this
      case Emotion => "감정 리듬을 서로 맞추면 안정감이 커집니다."
      case Communication => "말하기·듣기 규칙을 간단히 합의하세요."
      case Reality => "예산·시간·거리 제약을 수치로 관리하세요."
      case Growth => "목표를 공유하고 월간 체크인을 하세요."
      case Sustainability => "갈등 후 회복 루틴을 만들어 두세요."
    }
  }

  /** One value for each of the five facets. */
  datatype PerFacet<T> = PerFacet(emotion: T, communication: T, reality: T, growth: T, sustainability: T) {
    function Get(k: Facet): T {
      match k
      case Emotion => emotion
      case Communication => communication
      case Reality => reality
      case Growth => growth
      case Sustainability => sustainability
    }
  }

  /** The report the route answers with. */
  datatype Report = Report(
    score: int,
    facets: PerFacet<int>,
    summary: string,
    insights: seq<string>,
    oneliner: string,
    explanation: PerFacet<string>)

  const ScoreDefault := 80
  const ScoreMin := 30
  const ScoreMax := 98
  const FacetMin := 0
  const FacetMax := 100
  const InsightsCap := 3
  const SummaryDefault := "두 사람의 리듬을 맞추면 관계가 안정적으로 성장합니다."
  const OnelinerDefault := "차이는 대화로 조율된다."
  const InsightsDefault := ["대화 속도 맞추기", "현실 계획 합의", "갈등 회복 루틴 만들기"]

  /** Every number of the report lies in its range and there are at most three insights. */
  predicate InRange(r: Report) {
    && ScoreMin <= r.score <= ScoreMax
    && (forall k: Facet :: FacetMin <= r.facets.Get(k) <= FacetMax)
    && |r.insights| <= InsightsCap
  }

  /** The report made entirely of fallbacks. */
  function DefaultReport(): (r: Report)
    ensures InRange(r)
  {
    Report(
      ScoreDefault,
      PerFacet(Emotion.DefaultScore(), Communication.DefaultScore(), Reality.DefaultScore(),
               Growth.DefaultScore(), Sustainability.DefaultScore()),
      SummaryDefault,
      InsightsDefault,
      OnelinerDefault,
      PerFacet(Emotion.DefaultExplanation(), Communication.DefaultExplanation(),
               Reality.DefaultExplanation(), Growth.DefaultExplanation(),
               Sustainability.DefaultExplanation()))
  }

  /** The `num` helper: `Number(v)`, then the fallback `d` when that is not
      finite, otherwise the nearest integer (halves up) clamped into `[lo, hi]`.
      It throws exactly when `Number(v)` throws. */
  function Num(rt: Runtime, v: Option<Json>, d: int, lo: int, hi: int): (r: Result<int>)
    ensures r.Err? <==> v.Some? && Poisoned(v.value)
    ensures r.Err? ==> r.message == TypeErrorMessage
    ensures ToNumber(rt, v) == Ok(None) ==> r == Ok(d)
    ensures ToNumber(rt, v).Ok? && ToNumber(rt, v).value.Some? ==>
      var x := ToNumber(rt, v).value.value;
      && r.Ok?
      && (lo <= hi ==> lo <= r.value <= hi)
      && (x <= lo as real ==> r.value == lo)
      && (lo <= hi && hi as real <= x ==> r.value == hi)
      && (lo as real <= x <= hi as real ==> r.value as real - 0.5 <= x < r.value as real + 0.5)
  {
    var n :- ToNumber(rt, v);
    match n
    case None => Ok(d)
    case Some(x) => Ok(Clamp(Round(x), lo, hi))
  }

  /** `xs.map(String)`: the string conversion of every element, in order;
      it throws when any element cannot be converted. */
  function TextAll(rt: Runtime, xs: seq<Json>): (r: Result<seq<string>>)
    ensures r.Ok? <==> forall i :: 0 <= i < |xs| ==> !Poisoned(xs[i])
    ensures r.Err? ==> r.message == TypeErrorMessage
    ensures r.Ok? ==> |r.value| == |xs|
    ensures r.Ok? ==> forall i :: 0 <= i < |xs| ==> ToText(rt, xs[i]) == Ok(r.value[i])
  {
    if xs == [] then Ok([])
    else
      var head :- ToText(rt, xs[0]);
      var tail :- TextAll(rt, xs[1..]);
      Ok([head] + tail)
  }

  /** `Array.isArray(v) ? v.slice(0, 3).map(String) : InsightsDefault` */
  function Insights(rt: Runtime, v: Option<Json>): (r: Result<seq<string>>)
    ensures r.Ok? <==> (v.Some? && v.value.JArr? ==>
      forall i :: 0 <= i < |v.value.items| && i < InsightsCap ==> !Poisoned(v.value.items[i]))
    ensures r.Err? ==> r.message == TypeErrorMessage
    ensures r.Ok? ==> |r.value| <= InsightsCap
  {
    match v
    case Some(JArr(xs)) => TextAll(rt, xs[..if |xs| < InsightsCap then |xs| else InsightsCap])
    case _ => Ok(InsightsDefault)
  }

  /** The facet scores read from the `facets` object (or `{}`). */
  function FacetScores(rt: Runtime, f: Json): (r: Result<PerFacet<int>>)
    ensures r.Ok? <==> forall k: Facet :: Clean(Get(Some(f), k.Key()))
    ensures r.Err? ==> r.message == TypeErrorMessage
    ensures r.Ok? ==> forall k: Facet :: FacetMin <= r.value.Get(k) <= FacetMax
    ensures r.Ok? ==> forall k: Facet ::
      Num(rt, Get(Some(f), k.Key()), k.DefaultScore(), FacetMin, FacetMax) == Ok(r.value.Get(k))
  {
    var emotion :- Num(rt, Get(Some(f), Emotion.Key()), Emotion.DefaultScore(), FacetMin, FacetMax);
    var communication :- Num(rt, Get(Some(f), Communication.Key()), Communication.DefaultScore(), FacetMin, FacetMax);
    var reality :- Num(rt, Get(Some(f), Reality.Key()), Reality.DefaultScore(), FacetMin, FacetMax);
    var growth :- Num(rt, Get(Some(f), Growth.Key()), Growth.DefaultScore(), FacetMin, FacetMax);
    var sustainability :- Num(rt, Get(Some(f), Sustainability.Key()), Sustainability.DefaultScore(), FacetMin, FacetMax);
    Ok(PerFacet(emotion, communication, reality, growth, sustainability))
  }

  /** The explanation sentences read from the `explanation` object (or `{}`). */
  function Explanations(rt: Runtime, e: Json): (r: Result<PerFacet<string>>)
    ensures r.Ok? <==> forall k: Facet :: Clean(Get(Some(e), k.Key()))
    ensures r.Err? ==> r.message == TypeErrorMessage
    ensures r.Ok? ==> forall k: Facet ::
      StringOr(rt, Get(Some(e), k.Key()), k.DefaultExplanation()) == Ok(r.value.Get(k))
  {
    var emotion :- StringOr(rt, Get(Some(e), Emotion.Key()), Emotion.DefaultExplanation());
    var communication :- StringOr(rt, Get(Some(e), Communication.Key()), Communication.DefaultExplanation());
    var reality :- StringOr(rt, Get(Some(e), Reality.Key()), Reality.DefaultExplanation());
    var growth :- StringOr(rt, Get(Some(e), Growth.Key()), Growth.DefaultExplanation());
    var sustainability :- StringOr(rt, Get(Some(e), Sustainability.Key()), Sustainability.DefaultExplanation());
    Ok(PerFacet(emotion, communication, reality, growth, sustainability))
  }

  /** `out?.[key] || {}`: the reply's entry when it is truthy, otherwise
      the empty object. */
  function EntryOrEmpty(out: Json, key: string): (j: Json)
    ensures Truthy(Get(Some(out), key)) ==> j == out.fields[key]
    ensures !Truthy(Get(Some(out), key)) ==> j == JObj(map[])
  {
    OrElse(Get(Some(out), key), JObj(map[]))
  }

  /** `out?.facets || {}` */
  function FacetsOf(out: Json): Json {
    EntryOrEmpty(out, "facets")
  }

  /** `out?.explanation || {}` */
  function ExplanationOf(out: Json): Json {
    EntryOrEmpty(out, "explanation")
  }

  /** The values `normalize` converts to a primitive cannot throw: none of
      them is an object with an own `toString` key or an array holding one. */
  predicate Convertible(out: Json) {
    var f := FacetsOf(out);
    var e := ExplanationOf(out);
    var ins := Get(Some(out), "insights");
    && Clean(Get(Some(out), "score"))
    && (forall k: Facet :: Clean(Get(Some(f), k.Key())))
    && Clean(Get(Some(out), "summary"))
    && (ins.Some? && ins.value.JArr? ==>
          forall i :: 0 <= i < |ins.value.items| && i < InsightsCap ==> !Poisoned(ins.value.items[i]))
    && Clean(Get(Some(out), "oneliner"))
    && (forall k: Facet :: Clean(Get(Some(e), k.Key())))
  }

  /** `normalize(out)`: every field of the report is read independently from
      `out`, with its own fallback. It throws exactly when one of the values it
      converts cannot be converted to a primitive; otherwise every number of the
      report is in range and there are at most three insights. */
  function Normalize(rt: Runtime, out: Json): (r: Result<Report>)
    ensures r.Ok? <==> Convertible(out)
    ensures r.Err? ==> r.message == TypeErrorMessage
    ensures r.Ok? ==> InRange(r.value)
  {
    var f := FacetsOf(out);
    var e := ExplanationOf(out);
    var score :- Num(rt, Get(Some(out), "score"), ScoreDefault, ScoreMin, ScoreMax);
    var facets :- FacetScores(rt, f);
    var summary :- StringOr(rt, Get(Some(out), "summary"), SummaryDefault);
    var insights :- Insights(rt, Get(Some(out), "insights"));
    var oneliner :- StringOr(rt, Get(Some(out), "oneliner"), OnelinerDefault);
    var explanation :- Explanations(rt, e);
    Ok(Report(score, facets, summary, insights, oneliner, explanation))
  }

  /** An object with one entry per facet, under the facet's key. */
  function FacetObject(p: PerFacet<Json>): (j: Json)
    ensures j.JObj?
    ensures forall k: Facet :: Get(Some(j), k.Key()) == Some(p.Get(k))
  {
    var j := JObj(map[
      Emotion.Key() := p.emotion,
      Communication.Key() := p.communication,
      Reality.Key() := p.reality,
      Growth.Key() := p.growth,
      Sustainability.Key() := p.sustainability]);
    assert forall k: Facet :: Get(Some(j), k.Key()) == Some(p.Get(k)) by {
      forall k: Facet ensures Get(Some(j), k.Key()) == Some(p.Get(k)) {
        KeysDiffer(k);
      }
    }
    j
  }

  /** The five keys are pairwise different: they differ in their first syllable. */
  lemma KeysDiffer(k: Facet)
    ensures forall k2: Facet :: k2 != k ==> k2.Key() != k.Key()
  {
    forall k2: Facet | k2 != k ensures k2.Key() != k.Key() {
      assert k2.Key()[0] != k.Key()[0];
    }
  }

  /** The report as `NextResponse.json` serialises it: an object with the six keys. */
  function ToJson(r: Report): (j: Json)
    ensures j.JObj?
  {
    JObj(map[
      "score" := JNum(r.score as real),
      "facets" := FacetObject(PerFacet(
        JNum(r.facets.emotion as real), JNum(r.facets.communication as real),
        JNum(r.facets.reality as real), JNum(r.facets.growth as real),
        JNum(r.facets.sustainability as real))),
      "summary" := JStr(r.summary),
      "insights" := JArr(seq(|r.insights|, i requires 0 <= i < |r.insights| => JStr(r.insights[i]))),
      "oneliner" := JStr(r.oneliner),
      "explanation" := FacetObject(PerFacet(
        JStr(r.explanation.emotion), JStr(r.explanation.communication),
        JStr(r.explanation.reality), JStr(r.explanation.growth),
        JStr(r.explanation.sustainability)))])
  }

  /** A report `normalize` can produce and reproduce: numbers in range, at
      most three insights, and no empty sentence (an empty one is falsy and
      would be replaced by its fallback). */
  predicate WellFormed(r: Report) {
    && InRange(r)
    && r.summary != ""
    && r.oneliner != ""
    && forall k: Facet :: r.explanation.Get(k) != ""
  }

  /** The facet scores with every unconvertible entry replaced by its fallback. */
  function FacetScoresSafe(rt: Runtime, f: Json): (r: PerFacet<int>)
    ensures forall k: Facet :: FacetMin <= r.Get(k) <= FacetMax
    ensures FacetScores(rt, f).Ok? ==> r == FacetScores(rt, f).value
  {
    PerFacet(
      Num(rt, Get(Some(f), Emotion.Key()), Emotion.DefaultScore(), FacetMin, FacetMax).GetOr(Emotion.DefaultScore()),
      Num(rt, Get(Some(f), Communication.Key()), Communication.DefaultScore(), FacetMin, FacetMax).GetOr(Communication.DefaultScore()),
      Num(rt, Get(Some(f), Reality.Key()), Reality.DefaultScore(), FacetMin, FacetMax).GetOr(Reality.DefaultScore()),
      Num(rt, Get(Some(f), Growth.Key()), Growth.DefaultScore(), FacetMin, FacetMax).GetOr(Growth.DefaultScore()),
      Num(rt, Get(Some(f), Sustainability.Key()), Sustainability.DefaultScore(), FacetMin, FacetMax).GetOr(Sustainability.DefaultScore()))
  }

  /** The explanations with every unconvertible entry replaced by its fallback. */
  function ExplanationsSafe(rt: Runtime, e: Json): (r: PerFacet<string>)
    ensures Explanations(rt, e).Ok? ==> r == Explanations(rt, e).value
  {
    PerFacet(
      StringOr(rt, Get(Some(e), Emotion.Key()), Emotion.DefaultExplanation()).GetOr(Emotion.DefaultExplanation()),
      StringOr(rt, Get(Some(e), Communication.Key()), Communication.DefaultExplanation()).GetOr(Communication.DefaultExplanation()),
      StringOr(rt, Get(Some(e), Reality.Key()), Reality.DefaultExplanation()).GetOr(Reality.DefaultExplanation()),
      StringOr(rt, Get(Some(e), Growth.Key()), Growth.DefaultExplanation()).GetOr(Growth.DefaultExplanation()),
      StringOr(rt, Get(Some(e), Sustainability.Key()), Sustainability.DefaultExplanation()).GetOr(Sustainability.DefaultExplanation()))
  }

  /** `normalize` as evidently intended (the comment at
      app/api/compat/route.ts:168 promises that a reply never turns into a
      500): a value that cannot be converted to a primitive is treated like a
      missing one and takes its field's fallback. It never fails, keeps every
      number in range, and agrees with `Normalize` whenever that succeeds. */
  function NormalizeSafe(rt: Runtime, out: Json): (r: Report)
    ensures InRange(r)
    ensures Normalize(rt, out).Ok? ==> r == Normalize(rt, out).value
  {
    Report(
      Num(rt, Get(Some(out), "score"), ScoreDefault, ScoreMin, ScoreMax).GetOr(ScoreDefault),
      FacetScoresSafe(rt, FacetsOf(out)),
      StringOr(rt, Get(Some(out), "summary"), SummaryDefault).GetOr(SummaryDefault),
      Insights(rt, Get(Some(out), "insights")).GetOr(InsightsDefault),
      StringOr(rt, Get(Some(out), "oneliner"), OnelinerDefault).GetOr(OnelinerDefault),
      ExplanationsSafe(rt, ExplanationOf(out)))
  }
}
