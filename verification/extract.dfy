/** `extractJson` (app/api/compat/route.ts:24-31): peel a markdown code
    fence off the model's reply and, when the rest ends in `}`, keep the
    suffix that starts at the first `{`. */
module Extraction {
  import opened JsString

  const Fence := "```"

  /** The length of the run of ASCII letters that starts `s`: what `[a-z]*`
      matches under the `i` flag. */
  function LetterRun(s: string): (n: nat)
    ensures n <= |s|
    ensures forall i :: 0 <= i < n ==> IsAsciiLetter(s[i])
    ensures n < |s| ==> !IsAsciiLetter(s[n])
  {
    if |s| > 0 && IsAsciiLetter(s[0]) then 1 + LetterRun(s[1..]) else 0
  }

  /** `t.replace(/^```[a-z]*\n?/i, "")`: drop an opening fence, its language
      tag and at most one line feed; text that does not start with a fence is
      kept as it is. */
  function DropOpeningFence(t: string): (r: string)
    ensures Fence <= t ==> |r| <= |t| - 3
    ensures !(Fence <= t) ==> r == t
  {
    if Fence <= t then
      var rest := t[3..];
      var after := rest[LetterRun(rest)..];
      if |after| > 0 && after[0] == '\n' then after[1..] else after
    else t
  }

  /** `t` is an opening fence, a tag of `n` ASCII letters that is as long
      as it can be, `b` line feeds (one whenever one follows the tag, none
      otherwise), then `r`. */
  predicate FenceParts(t: string, n: nat, b: nat, r: string) {
    && 3 + n + b <= |t|
    && t[..3] == Fence
    && (forall i :: 3 <= i < 3 + n ==> IsAsciiLetter(t[i]))
    && (3 + n < |t| ==> !IsAsciiLetter(t[3 + n]))
    && (b == 0 || b == 1)
    && (b == 1 <==> 3 + n < |t| && t[3 + n] == '\n')
    && r == t[3 + n + b..]
  }

  /** What the opening-fence pattern removes: the fence, a tag of ASCII
      letters that is as long as it can be, and the line feed after it
      whenever there is one. */
  lemma DropOpeningFenceMatches(t: string)
    requires Fence <= t
    ensures exists n: nat, b: nat :: FenceParts(t, n, b, DropOpeningFence(t))
  {
    var rest := t[3..];
    var n := LetterRun(rest);
    assert forall i :: 3 <= i < 3 + n ==> t[i] == rest[i - 3];
    var b := if 3 + n < |t| && t[3 + n] == '\n' then 1 else 0;
    assert FenceParts(t, n, b, DropOpeningFence(t));
  }

  /** `t.replace(/```$/, "")`: drop a closing fence at the very end. */
  function DropClosingFence(t: string): (r: string)
    ensures |t| >= 3 && t[|t| - 3..] == Fence ==> r + Fence == t
    ensures !(|t| >= 3 && t[|t| - 3..] == Fence) ==> r == t
  {
    if |t| >= 3 && t[|t| - 3..] == Fence then t[..|t| - 3] else t
  }

  /** The text after trimming and, when it starts with a fence, after the
      fences are dropped and it is trimmed again. */
  function Unfenced(text: string): (u: string)
    ensures IsTrimmed(u)
    ensures !(Fence <= Trim(text)) ==> u == Trim(text)
  {
    var t := Trim(text);
    if Fence <= t then Trim(DropClosingFence(DropOpeningFence(t))) else t
  }

  /** Whether `/\{[\s\S]*\}$/` matches: the text ends in `}` and holds a `{`. */
  predicate HasTrailingObject(u: string)
    ensures HasTrailingObject(u) ==> |u| >= 2
  {
    |u| > 0 && u[|u| - 1] == '}' && '{' in u
  }

  /** What the match of `/\{[\s\S]*\}$/` is: the suffix from the first `{`,
      which ends in the `}` that ends the text. */
  function TrailingObject(u: string): (r: string)
    requires HasTrailingObject(u)
    ensures |r| >= 2 && r[0] == '{' && r[|r| - 1] == '}'
    ensures |r| <= |u| && r == u[|u| - |r|..]
    ensures '{' !in u[..|u| - |r|]
  {
    var i := IndexOf(u, '{');
    assert i != |u| - 1;
    u[i..]
  }

  /** `extractJson(text)`: the result is always a suffix of the unfenced
      text; when that text ends in `}` and holds a `{`, the suffix starts at
      its first `{`; otherwise the unfenced text is returned whole, prose
      after the last `}` included. */
  function ExtractJson(text: string): (r: string)
    ensures var u := Unfenced(text); |r| <= |u| && r == u[|u| - |r|..]
    ensures var u := Unfenced(text);
      HasTrailingObject(u) ==>
        |r| >= 2 && r[0] == '{' && r[|r| - 1] == '}' && '{' !in u[..|u| - |r|]
    ensures !HasTrailingObject(Unfenced(text)) ==> r == Unfenced(text)
  {
    var u := Unfenced(text);
    if HasTrailingObject(u) then TrailingObject(u) else u
  }

  /** A tag made of ASCII letters followed by a line feed is consumed whole
      by the opening-fence pattern. */
  lemma {:induction false} LetterRunOfTag(tag: string, rest: string)
    requires forall i :: 0 <= i < |tag| ==> IsAsciiLetter(tag[i])
    requires |rest| > 0 && !IsAsciiLetter(rest[0])
    ensures LetterRun(tag + rest) == |tag|
  {
    if tag != [] {
      assert (tag + rest)[1..] == tag[1..] + rest;
      LetterRunOfTag(tag[1..], rest);
    }
  }

  /** The opening-fence pattern removes the fence, a letters-only tag and
      one line feed. */
  lemma DropOpeningFenceOfTag(tag: string, tail: string)
    requires forall i :: 0 <= i < |tag| ==> IsAsciiLetter(tag[i])
    ensures DropOpeningFence(Fence + tag + "\n" + tail) == tail
  {
    var t := Fence + tag + "\n" + tail;
    assert t[..3] == Fence;
    var rest := t[3..];
    assert rest == tag + ("\n" + tail);
    LetterRunOfTag(tag, "\n" + tail);
    assert rest[|tag|..] == "\n" + tail;
  }

  /** Dropping both fences and trimming leaves the fenced body. */
  lemma UnfencedOfFencedBody(tag: string, body: string)
    requires forall i :: 0 <= i < |tag| ==> IsAsciiLetter(tag[i])
    requires |body| > 0 && !IsWhite(body[0]) && !IsWhite(body[|body| - 1])
    ensures Unfenced(Fence + tag + "\n" + body + "\n" + Fence) == body
  {
    var tail := body + "\n" + Fence;
    var text := Fence + tag + "\n" + tail;
    assert text == Fence + tag + "\n" + body + "\n" + Fence;
    assert Trim(text) == text by {
      assert text[0] == '`' && text[|text| - 1] == '`';
    }
    assert Fence <= text by {
      assert text[..3] == Fence;
    }
    DropOpeningFenceOfTag(tag, tail);
    assert DropClosingFence(tail) == body + "\n" by {
      assert tail[|tail| - 3..] == Fence && tail[..|tail| - 3] == body + "\n";
    }
    TrimDropsTrailingWhite(body, '\n');
  }

  /** A reply fenced as "```tag\n{...}\n```" yields the object between the fences. */
  lemma FencedReplyYieldsBody(tag: string, body: string)
    requires forall i :: 0 <= i < |tag| ==> IsAsciiLetter(tag[i])
    requires |body| > 0 && body[0] == '{' && body[|body| - 1] == '}'
    ensures ExtractJson(Fence + tag + "\n" + body + "\n" + Fence) == body
  {
    UnfencedOfFencedBody(tag, body);
    assert body[..0] == [];
  }

  /** Prose after the last `}` is kept: a reply that does not end in `}`
      (after trimming) and has no fence comes back trimmed but otherwise
      whole, embedded object and all. */
  lemma TrailingProseIsKept(text: string)
    requires !(Fence <= Trim(text))
    requires Trim(text) != [] && Trim(text)[|Trim(text)| - 1] != '}'
    ensures ExtractJson(text) == Trim(text)
  {
  }

  /** A trimmed, unfenced text whose trailing object (if any) starts it is
      left as it is. */
  lemma ExtractJsonFixes(r: string)
    requires IsTrimmed(r) && !(Fence <= r)
    requires HasTrailingObject(r) ==> r[0] == '{'
    ensures ExtractJson(r) == r
  {
    assert Unfenced(r) == r;
    if HasTrailingObject(r) {
      assert r[..0] == [];
    }
  }

  /** The result of extraction is trimmed, and when it ends in an object it
      starts with that object's `{`. */
  lemma ExtractJsonShape(text: string)
    ensures IsTrimmed(ExtractJson(text))
    ensures HasTrailingObject(ExtractJson(text)) ==> ExtractJson(text)[0] == '{'
  {
    var u := Unfenced(text);
    if HasTrailingObject(u) {
      TrailingObjectShape(u);
    }
  }

  /** The trailing object is trimmed: it starts with `{` and ends with `}`. */
  lemma TrailingObjectShape(u: string)
    requires HasTrailingObject(u)
    ensures IsTrimmed(TrailingObject(u)) && TrailingObject(u)[0] == '{'
  {
  }

  /** Extraction is idempotent unless its result itself starts with a fence. */
  lemma ExtractJsonIdempotent(text: string)
    requires !(Fence <= ExtractJson(text))
    ensures ExtractJson(ExtractJson(text)) == ExtractJson(text)
  {
    ExtractJsonShape(text);
    ExtractJsonFixes(ExtractJson(text));
  }

  /** Whether the text holds a `{` before its last `}`: what slicing from
      the first `{` to the last `}` needs. */
  predicate Spans(u: string) {
    '{' in u && '}' in u && IndexOf(u, '{') < LastIndexOf(u, '}')
  }

  /** The part of the text from its first `{` to its last `}`. */
  function Span(u: string): (r: string)
    requires Spans(u)
    ensures |r| >= 2 && r[0] == '{' && r[|r| - 1] == '}'
    ensures var a := IndexOf(u, '{');
      && a + |r| <= |u| && r == u[a..a + |r|]
      && '{' !in u[..a] && '}' !in u[a + |r|..]
  {
    u[IndexOf(u, '{')..LastIndexOf(u, '}') + 1]
  }

  /** `extractJson` as its comments describe it ("cut up to the last `}`",
      keep only the final object): the unfenced text from its first `{` to
      its last `}`, so that prose after the object is dropped too; the
      unfenced text itself when it has no such span. */
  function ExtractJsonIntended(text: string): (r: string)
    ensures Spans(Unfenced(text)) ==> r == Span(Unfenced(text))
    ensures !Spans(Unfenced(text)) ==> r == Unfenced(text)
  {
    var u := Unfenced(text);
    if Spans(u) then Span(u) else u
  }

  /** A text that ends in `}` and holds a `{` is cut the same way by both
      readings: they differ only on text after the last `}`. */
  lemma ExtractionsAgree(text: string)
    requires HasTrailingObject(Unfenced(text))
    ensures ExtractJsonIntended(text) == ExtractJson(text)
  {
    var u := Unfenced(text);
    LastOfTrailingObject(u);
    assert ExtractJson(text) == TrailingObject(u);
    assert ExtractJsonIntended(text) == Span(u);
  }

  /** In a text that ends in `}`, the last `}` is its final character. */
  lemma LastBraceIsFinal(u: string)
    requires |u| > 0 && u[|u| - 1] == '}'
    ensures LastIndexOf(u, '}') == |u| - 1
  {
  }

  /** The first `{` of a text with a trailing object comes before its end. */
  lemma FirstOpenBeforeEnd(u: string)
    requires HasTrailingObject(u)
    ensures IndexOf(u, '{') < |u| - 1
  {
  }

  /** So the span from the first `{` to the last `}` is the trailing object. */
  lemma LastOfTrailingObject(u: string)
    requires HasTrailingObject(u)
    ensures Spans(u) && Span(u) == TrailingObject(u)
  {
    LastBraceIsFinal(u);
    FirstOpenBeforeEnd(u);
    var i := IndexOf(u, '{');
    assert Span(u) == u[i..|u|];
    assert TrailingObject(u) == u[i..];
  }

  /** As written: an unfenced reply made of an object followed by prose
      without a `}` comes back whole, so it is not a JSON text and the
      object is lost when parsing falls back to `{}`. */
  lemma TrailingProseDefeatsExtraction(text: string, obj: string, prose: string)
    requires !(Fence <= Trim(text))
    requires Trim(text) == obj + prose
    requires |obj| >= 2 && obj[0] == '{' && obj[|obj| - 1] == '}'
    requires prose != [] && '}' !in prose
    ensures ExtractJson(text) == obj + prose
    ensures ExtractJson(text) != obj
  {
    var u := obj + prose;
    assert u[|u| - 1] == prose[|prose| - 1];
    assert !HasTrailingObject(u);
  }

  /** As intended: the same reply yields exactly the object. */
  lemma IntendedDropsTrailingProse(text: string, obj: string, prose: string)
    requires !(Fence <= Trim(text))
    requires Trim(text) == obj + prose
    requires |obj| >= 2 && obj[0] == '{' && obj[|obj| - 1] == '}'
    requires '}' !in prose
    ensures ExtractJsonIntended(text) == obj
  {
    var u := obj + prose;
    assert Unfenced(text) == u;
    assert IndexOf(u, '{') == 0 by {
      assert u[..0] == [];
    }
    assert LastIndexOf(u, '}') == |obj| - 1;
    assert Spans(u);
    assert u[0..|obj|] == obj;
  }
}
