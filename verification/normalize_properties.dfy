/** What `normalize` (app/api/compat/route.ts:34-62) promises about each
    field of the report, about replies that carry nothing usable, and about
    its own output. */
module NormalizeProperties {
  import opened JsValue
  import opened Normalizer

  /** `Normalize` succeeds exactly when each field's reader does, and then
      assembles their results. */
  lemma NormalizeParts(rt: Runtime, out: Json)
    ensures Normalize(rt, out).Ok? <==>
      && Num(rt, Get(Some(out), "score"), ScoreDefault, ScoreMin, ScoreMax).Ok?
      && FacetScores(rt, FacetsOf(out)).Ok?
      && StringOr(rt, Get(Some(out), "summary"), SummaryDefault).Ok?
      && Insights(rt, Get(Some(out), "insights")).Ok?
      && StringOr(rt, Get(Some(out), "oneliner"), OnelinerDefault).Ok?
      && Explanations(rt, ExplanationOf(out)).Ok?
    ensures Normalize(rt, out).Ok? ==> Normalize(rt, out).value == Report(
      Num(rt, Get(Some(out), "score"), ScoreDefault, ScoreMin, ScoreMax).value,
      FacetScores(rt, FacetsOf(out)).value,
      StringOr(rt, Get(Some(out), "summary"), SummaryDefault).value,
      Insights(rt, Get(Some(out), "insights")).value,
      StringOr(rt, Get(Some(out), "oneliner"), OnelinerDefault).value,
      Explanations(rt, ExplanationOf(out)).value)
  {
  }

  /** The score: 80 when the reply has none or one that is not a finite
      number, an in-range integer as it is, and `null` (which `Number` reads
      as 0) clamped up to 30. */
  lemma ScoreField(rt: Runtime, out: Json)
    requires Normalize(rt, out).Ok?
    ensures var v := Get(Some(out), "score");
      && (ToNumber(rt, v) == Ok(None) ==> Normalize(rt, out).value.score == ScoreDefault)
      && (v.None? ==> Normalize(rt, out).value.score == ScoreDefault)
      && (v == Some(JNull) ==> Normalize(rt, out).value.score == ScoreMin)
      && (v.Some? && v.value.JNum? && IsInteger(v.value.x) && ScoreMin <= v.value.x.Floor <= ScoreMax ==>
            Normalize(rt, out).value.score == v.value.x.Floor)
  {
    NormalizeParts(rt, out);
  }

  /** Each facet: its own fallback when its entry is missing or not a finite
      number, an in-range integer as it is, and never outside [0, 100]. */
  lemma FacetField(rt: Runtime, out: Json, k: Facet)
    requires Normalize(rt, out).Ok?
    ensures var v := Get(Some(FacetsOf(out)), k.Key());
      && FacetMin <= Normalize(rt, out).value.facets.Get(k) <= FacetMax
      && (ToNumber(rt, v) == Ok(None) ==> Normalize(rt, out).value.facets.Get(k) == k.DefaultScore())
      && (v.Some? && v.value.JNum? && IsInteger(v.value.x) && FacetMin <= v.value.x.Floor <= FacetMax ==>
            Normalize(rt, out).value.facets.Get(k) == v.value.x.Floor)
  {
    NormalizeParts(rt, out);
  }

  /** Facets are read independently: two replies whose entries for a facet
      agree give that facet the same score, whatever the other entries are. */
  lemma FacetsAreIndependent(rt: Runtime, out1: Json, out2: Json, k: Facet)
    requires Normalize(rt, out1).Ok? && Normalize(rt, out2).Ok?
    requires Get(Some(FacetsOf(out1)), k.Key()) == Get(Some(FacetsOf(out2)), k.Key())
    ensures Normalize(rt, out1).value.facets.Get(k) == Normalize(rt, out2).value.facets.Get(k)
  {
    NormalizeParts(rt, out1);
    NormalizeParts(rt, out2);
  }

  /** Insights: when the reply has an array, its first min(3, n) elements,
      each converted to a string, in order (an empty or short array is kept);
      otherwise the fixed triple. */
  lemma InsightsField(rt: Runtime, out: Json)
    requires Normalize(rt, out).Ok?
    ensures var v := Get(Some(out), "insights");
      var ins := Normalize(rt, out).value.insights;
      && (v.Some? && v.value.JArr? ==>
            && |ins| == (if |v.value.items| < InsightsCap then |v.value.items| else InsightsCap)
            && forall i :: 0 <= i < |ins| ==> ToText(rt, v.value.items[i]) == Ok(ins[i]))
      && (!(v.Some? && v.value.JArr?) ==> ins == InsightsDefault)
  {
    NormalizeParts(rt, out);
    var v := Get(Some(out), "insights");
    if v.Some? && v.value.JArr? {
      var xs := v.value.items;
      var m := if |xs| < InsightsCap then |xs| else InsightsCap;
      var t := TextAll(rt, xs[..m]);
      assert Normalize(rt, out).value.insights == t.value;
      forall i | 0 <= i < m ensures ToText(rt, xs[i]) == Ok(t.value[i]) {
        assert xs[..m][i] == xs[i];
      }
    }
  }

  /** Summary, one-liner and every explanation: the field's own fallback
      sentence when the reply's value is falsy (absent, null, "", 0, false),
      otherwise that value converted to a string. */
  lemma TextFields(rt: Runtime, out: Json, k: Facet)
    requires Normalize(rt, out).Ok?
    ensures var r := Normalize(rt, out).value;
      var s := Get(Some(out), "summary");
      var o := Get(Some(out), "oneliner");
      var x := Get(Some(ExplanationOf(out)), k.Key());
      && (!Truthy(s) ==> r.summary == SummaryDefault)
      && (Truthy(s) ==> ToText(rt, s.value) == Ok(r.summary))
      && (!Truthy(o) ==> r.oneliner == OnelinerDefault)
      && (Truthy(o) ==> ToText(rt, o.value) == Ok(r.oneliner))
      && (!Truthy(x) ==> r.explanation.Get(k) == k.DefaultExplanation())
      && (Truthy(x) ==> ToText(rt, x.value) == Ok(r.explanation.Get(k)))
  {
    NormalizeParts(rt, out);
  }

  /** The empty object, which the route substitutes for an unparsable reply,
      normalises to the report made entirely of fallbacks. */
  lemma EmptyObjectGivesDefaults(rt: Runtime)
    ensures Normalize(rt, JObj(map[])) == Ok(DefaultReport())
  {
    var out := JObj(map[]);
    assert FacetsOf(out) == JObj(map[]);
    assert ExplanationOf(out) == JObj(map[]);
  }

  /** A reply that parses to anything but an object (null, a number, a
      string, an array) also normalises to the all-fallback report. */
  lemma NonObjectGivesDefaults(rt: Runtime, out: Json)
    requires !out.JObj?
    ensures Normalize(rt, out) == Ok(DefaultReport())
  {
    assert FacetsOf(out) == JObj(map[]);
    assert ExplanationOf(out) == JObj(map[]);
  }

  /** A reply holding nothing but an in-range integer score keeps that score
      and takes every other field's fallback. */
  lemma ScoreOnlyReply(rt: Runtime, n: int)
    requires ScoreMin <= n <= ScoreMax
    ensures var r := Normalize(rt, JObj(map["score" := JNum(n as real)]));
      && r.Ok?
      && r.value == DefaultReport().(score := n)
  {
    var out := JObj(map["score" := JNum(n as real)]);
    assert Get(Some(out), "facets").None? && Get(Some(out), "explanation").None?;
    assert Get(Some(out), "summary").None? && Get(Some(out), "oneliner").None?;
    assert Get(Some(out), "insights").None?;
    assert FacetsOf(out) == JObj(map[]);
    assert ExplanationOf(out) == JObj(map[]);
    assert Num(rt, Get(Some(out), "score"), ScoreDefault, ScoreMin, ScoreMax) == Ok(n);
  }

  /** An integer within a field's range is read as itself. */
  lemma NumOfInteger(rt: Runtime, n: int, d: int, lo: int, hi: int)
    requires lo <= n <= hi
    ensures Num(rt, Some(JNum(n as real)), d, lo, hi) == Ok(n)
  {
    var m := Num(rt, Some(JNum(n as real)), d, lo, hi);
    assert m.value as real - 0.5 <= n as real < m.value as real + 0.5;
  }

  /** The serialised facet scores of an in-range report read back unchanged. */
  lemma FacetScoresOfReport(rt: Runtime, r: Report)
    requires InRange(r)
    ensures FacetScores(rt, FacetsOf(ToJson(r))) == Ok(r.facets)
  {
    var f := FacetsOf(ToJson(r));
    assert f == FacetObject(PerFacet(
        JNum(r.facets.emotion as real), JNum(r.facets.communication as real),
        JNum(r.facets.reality as real), JNum(r.facets.growth as real),
        JNum(r.facets.sustainability as real)));
    assert forall k: Facet :: Get(Some(f), k.Key()) == Some(JNum(r.facets.Get(k) as real));
    var fs := FacetScores(rt, f);
    forall k: Facet ensures fs.value.Get(k) == r.facets.Get(k) {
      NumOfInteger(rt, r.facets.Get(k), k.DefaultScore(), FacetMin, FacetMax);
    }
    assert fs.value == r.facets;
  }

  /** The serialised explanations of a report without empty sentences read back unchanged. */
  lemma ExplanationsOfReport(rt: Runtime, r: Report)
    requires forall k: Facet :: r.explanation.Get(k) != ""
    ensures Explanations(rt, ExplanationOf(ToJson(r))) == Ok(r.explanation)
  {
    var e := ExplanationOf(ToJson(r));
    assert e == FacetObject(PerFacet(
        JStr(r.explanation.emotion), JStr(r.explanation.communication),
        JStr(r.explanation.reality), JStr(r.explanation.growth),
        JStr(r.explanation.sustainability)));
    SentencesReadBack(rt, e, r.explanation);
  }

  /** An object holding a non-empty string under every facet's key yields
      exactly those strings as explanations. */
  lemma SentencesReadBack(rt: Runtime, e: Json, p: PerFacet<string>)
    requires forall k: Facet :: Get(Some(e), k.Key()) == Some(JStr(p.Get(k))) && p.Get(k) != ""
    ensures Explanations(rt, e) == Ok(p)
  {
    forall k: Facet
      ensures StringOr(rt, Get(Some(e), k.Key()), k.DefaultExplanation()) == Ok(p.Get(k))
    {
      assert Truthy(Get(Some(e), k.Key()));
    }
    var ex := Explanations(rt, e);
    assert ex.Ok?;
    assert ex.value == p by {
      assert forall k: Facet :: ex.value.Get(k) == p.Get(k);
    }
  }

  /** The serialised insights of a report with at most three of them read back unchanged. */
  lemma InsightsOfReport(rt: Runtime, r: Report)
    requires |r.insights| <= InsightsCap
    ensures Insights(rt, Get(Some(ToJson(r)), "insights")) == Ok(r.insights)
  {
    var items := seq(|r.insights|, i requires 0 <= i < |r.insights| => JStr(r.insights[i]));
    assert Get(Some(ToJson(r)), "insights") == Some(JArr(items));
    assert items[..|items|] == items;
    var t := TextAll(rt, items);
    assert forall i :: 0 <= i < |items| ==> ToText(rt, items[i]) == Ok(r.insights[i]);
    assert t.value == r.insights;
  }

  /** Where each top-level field of a report sits in its serialised form. */
  lemma ToJsonFields(r: Report)
    ensures Get(Some(ToJson(r)), "score") == Some(JNum(r.score as real))
    ensures Get(Some(ToJson(r)), "summary") == Some(JStr(r.summary))
    ensures Get(Some(ToJson(r)), "oneliner") == Some(JStr(r.oneliner))
  {
  }

  /** The serialised report has exactly the six keys of the report. */
  lemma ToJsonKeys(r: Report)
    ensures ToJson(r).fields.Keys == {"score", "facets", "summary", "insights", "oneliner", "explanation"}
  {
  }

  /** Reading back a well-formed report gives the same report. */
  lemma NormalizeFixesWellFormed(rt: Runtime, r: Report)
    requires WellFormed(r)
    ensures Normalize(rt, ToJson(r)) == Ok(r)
  {
    TopFieldsReadBack(rt, r);
    FacetScoresOfReport(rt, r);
    ExplanationsOfReport(rt, r);
    InsightsOfReport(rt, r);
    NormalizeOfReaders(rt, ToJson(r), r);
  }

  /** The score, summary and one-liner of a well-formed report read back unchanged. */
  lemma TopFieldsReadBack(rt: Runtime, r: Report)
    requires WellFormed(r)
    ensures var j := ToJson(r);
      && Num(rt, Get(Some(j), "score"), ScoreDefault, ScoreMin, ScoreMax) == Ok(r.score)
      && StringOr(rt, Get(Some(j), "summary"), SummaryDefault) == Ok(r.summary)
      && StringOr(rt, Get(Some(j), "oneliner"), OnelinerDefault) == Ok(r.oneliner)
  {
    ToJsonFields(r);
    NumOfInteger(rt, r.score, ScoreDefault, ScoreMin, ScoreMax);
  }

  /** When every field's reader yields the matching field of `r`, `Normalize` yields `r`. */
  lemma NormalizeOfReaders(rt: Runtime, out: Json, r: Report)
    requires Num(rt, Get(Some(out), "score"), ScoreDefault, ScoreMin, ScoreMax) == Ok(r.score)
    requires FacetScores(rt, FacetsOf(out)) == Ok(r.facets)
    requires StringOr(rt, Get(Some(out), "summary"), SummaryDefault) == Ok(r.summary)
    requires Insights(rt, Get(Some(out), "insights")) == Ok(r.insights)
    requires StringOr(rt, Get(Some(out), "oneliner"), OnelinerDefault) == Ok(r.oneliner)
    requires Explanations(rt, ExplanationOf(out)) == Ok(r.explanation)
    ensures Normalize(rt, out) == Ok(r)
  {
  }

  /** Normalising a normalised report changes nothing, as long as none of
      its sentences came out empty. */
  lemma NormalizeIdempotent(rt: Runtime, out: Json)
    requires Normalize(rt, out).Ok?
    requires var r := Normalize(rt, out).value;
      r.summary != "" && r.oneliner != "" && forall k: Facet :: r.explanation.Get(k) != ""
    ensures Normalize(rt, ToJson(Normalize(rt, out).value)) == Normalize(rt, out)
  {
    NormalizeFixesWellFormed(rt, Normalize(rt, out).value);
  }

  /** The reply `{"summary": {"toString": 1}}` parses fine, yet `String` on
      its summary throws, so `normalize` fails instead of falling back. */
  lemma ToStringKeyBreaksNormalize(rt: Runtime)
    ensures Normalize(rt, JObj(map["summary" := JObj(map["toString" := JNum(1.0)])])).Err?
  {
    var out := JObj(map["summary" := JObj(map["toString" := JNum(1.0)])]);
    assert Get(Some(out), "summary") == Some(JObj(map["toString" := JNum(1.0)]));
    assert !Clean(Get(Some(out), "summary"));
  }

  /** A facet entry that can be converted is read as `normalize` reads it;
      one that cannot takes the facet's fallback score. */
  lemma FacetScoresSafeReads(rt: Runtime, f: Json, k: Facet)
    ensures var v := Get(Some(f), k.Key());
      && (Clean(v) ==> Num(rt, v, k.DefaultScore(), FacetMin, FacetMax) == Ok(FacetScoresSafe(rt, f).Get(k)))
      && (!Clean(v) ==> FacetScoresSafe(rt, f).Get(k) == k.DefaultScore())
  {
  }

  /** An explanation entry that can be converted is read as `normalize`
      reads it; one that cannot takes the facet's fallback sentence. */
  lemma ExplanationsSafeReads(rt: Runtime, e: Json, k: Facet)
    ensures var v := Get(Some(e), k.Key());
      && (Clean(v) ==> StringOr(rt, v, k.DefaultExplanation()) == Ok(ExplanationsSafe(rt, e).Get(k)))
      && (!Clean(v) ==> ExplanationsSafe(rt, e).Get(k) == k.DefaultExplanation())
  {
  }

  /** The corrected normaliser reads every top-level field that can be
      converted exactly as `normalize` reads it, and gives a field that cannot
      be converted its fallback: the score 80, the fallback sentences, and the
      fixed insights when one of the first three insights cannot be converted. */
  lemma NormalizeSafeFields(rt: Runtime, out: Json)
    ensures var r := NormalizeSafe(rt, out);
      var sc := Get(Some(out), "score");
      var s := Get(Some(out), "summary");
      var o := Get(Some(out), "oneliner");
      && (Clean(sc) ==> Num(rt, sc, ScoreDefault, ScoreMin, ScoreMax) == Ok(r.score))
      && (!Clean(sc) ==> r.score == ScoreDefault)
      && (Clean(s) ==> StringOr(rt, s, SummaryDefault) == Ok(r.summary))
      && (!Clean(s) ==> r.summary == SummaryDefault)
      && (Clean(o) ==> StringOr(rt, o, OnelinerDefault) == Ok(r.oneliner))
      && (!Clean(o) ==> r.oneliner == OnelinerDefault)
  {
  }

  /** The corrected normaliser keeps the insights `normalize` would give when
      the first three can be converted, and otherwise takes the fixed triple. */
  lemma NormalizeSafeInsights(rt: Runtime, out: Json)
    ensures var v := Get(Some(out), "insights");
      var ins := NormalizeSafe(rt, out).insights;
      && (Insights(rt, v).Ok? ==> ins == Insights(rt, v).value)
      && (v.Some? && v.value.JArr? &&
          (exists i :: 0 <= i < |v.value.items| && i < InsightsCap && Poisoned(v.value.items[i])) ==>
            ins == InsightsDefault)
      && (!(v.Some? && v.value.JArr?) ==> ins == InsightsDefault)
  {
  }

  /** The corrected normaliser gives the all-fallback report for that same reply. */
  lemma NormalizeSafeOnToStringKey(rt: Runtime)
    ensures NormalizeSafe(rt, JObj(map["summary" := JObj(map["toString" := JNum(1.0)])]))
      == DefaultReport()
  {
    var out := JObj(map["summary" := JObj(map["toString" := JNum(1.0)])]);
    assert Get(Some(out), "summary") == Some(JObj(map["toString" := JNum(1.0)]));
    assert Get(Some(out), "score").None? && Get(Some(out), "insights").None?;
    assert Get(Some(out), "oneliner").None?;
    assert Get(Some(out), "facets").None? && Get(Some(out), "explanation").None?;
    assert FacetsOf(out) == JObj(map[]) && ExplanationOf(out) == JObj(map[]);
  }
}
