/**
 * The `extractKeywords` cloud function: it rejects content shorter than 5
 * characters, asks the model for a JSON analysis (keywords, archetypes,
 * emotion, conflict, symbols), strips code fences from the reply, and when
 * the reply does not parse falls back to scanning it for the quoted items
 * of its `keywords: [ ... ]` list; missing fields get defaults.
 *
 * The model's reply (or its error) is the `reply` input and `JSON.parse`
 * is the `parse` input, `None` where it throws. The two regular expressions
 * are written out as scanners.
 */
module ExtractKeywords {
  import opened Wrappers
  import opened Text

  const TooShort := "内容太短"
  const Unknown := "unknown"

  /** The fields of the parsed object; `None` where a field is missing. */
  datatype Fields = Fields(
    keywords: Option<seq<string>>,
    archetypes: Option<seq<string>>,
    emotion: Option<string>,
    conflict: Option<string>,
    symbols: Option<seq<string>>)

  const NoFields := Fields(None, None, None, None, None)

  /** The `data` of a successful reply. */
  datatype Analysis = Analysis(
    keywords: seq<string>,
    archetypes: seq<string>,
    emotion: string,
    conflict: string,
    symbols: seq<string>)

  /** Three backticks at position `i`. */
  predicate Ticks(s: string, i: nat) {
    i + 3 <= |s| && s[i] == '`' && s[i + 1] == '`' && s[i + 2] == '`'
  }

  predicate JsonAt(s: string, i: nat) {
    i + 4 <= |s| && s[i] == 'j' && s[i + 1] == 's' && s[i + 2] == 'o' && s[i + 3] == 'n'
  }

  /** The length of the fence `/```json\n?|\n?```/` matches at the start of
      `s`, 0 when it does not: the first alternative is tried before the
      second and each optional newline is taken when present. */
  function FenceLen(s: string): (n: nat)
    ensures n <= |s|
    ensures n > 0 ==> s[0] == '`' || (s[0] == '\n' && 1 < |s| && s[1] == '`')
  {
    if Ticks(s, 0) && JsonAt(s, 3) then (if 7 < |s| && s[7] == '\n' then 8 else 7)
    else if 0 < |s| && s[0] == '\n' && Ticks(s, 1) then 4
    else if Ticks(s, 0) then 3
    else 0
  }

  /** `text.replace(/```json\n?|\n?```/g, '')`. */
  function Unfence(s: string): (r: string)
    ensures |r| <= |s|
  {
    if s == [] then []
    else if FenceLen(s) > 0 then Unfence(s[FenceLen(s)..])
    else [s[0]] + Unfence(s[1..])
  }

  /** The text handed to `JSON.parse`. */
  function Cleaned(text: string): string {
    Trim(Unfence(text))
  }

  /** Text without a backtick passes through unchanged. */
  lemma {:induction false} UnfenceNoBacktick(s: string)
    requires forall i :: 0 <= i < |s| ==> s[i] != '`'
    ensures Unfence(s) == s
  {
    if s != [] {
      assert FenceLen(s) == 0 by {
        assert s[0] != '`' && (|s| > 1 ==> s[1] != '`');
      }
      UnfenceNoBacktick(s[1..]);
    }
  }

  /** An opening fence is removed and scanning resumes right after it. */
  lemma UnfenceOpening(body: string)
    ensures Unfence("```json\n" + body) == Unfence(body)
  {
    var s := "```json\n" + body;
    assert s[..8] == "```json\n";
    assert FenceLen(s) == 8;
    assert s[8..] == body;
  }

  /** A closing fence is removed after text that holds no backtick. */
  lemma {:induction false} UnfenceClosing(body: string)
    requires forall i :: 0 <= i < |body| ==> body[i] != '`'
    ensures Unfence(body + "\n```") == body
  {
    var s := body + "\n```";
    if body == [] {
      assert s == "\n```";
      assert FenceLen(s) == 4;
    } else {
      assert s[0] == body[0];
      assert s[1] != '`' by {
        if |body| > 1 { assert s[1] == body[1]; } else { assert s[1] == '\n'; }
      }
      assert FenceLen(s) == 0;
      assert s[1..] == body[1..] + "\n```";
      UnfenceClosing(body[1..]);
    }
  }

  /** The usual fenced reply comes out as its body. */
  lemma UnfenceFenced(body: string)
    requires forall i :: 0 <= i < |body| ==> body[i] != '`'
    ensures Unfence("```json\n" + body + "\n```") == body
  {
    var tail := body + "\n```";
    UnfenceOpening(tail);
    UnfenceClosing(body);
    assert "```json\n" + body + "\n```" == "```json\n" + tail;
  }

  /** One pass does not leave the text fence-free: removing `\n```` can
      bring backticks on either side together. */
  lemma FenceCanReform()
    ensures Unfence("``\n````") == "```"
  {
    var s := "``\n````";
    assert FenceLen(s) == 0 && s[1..] == "`\n````";
    assert FenceLen(s[1..]) == 0 && s[2..] == "\n````";
    assert FenceLen(s[2..]) == 4 && s[6..] == "`";
    assert FenceLen(s[6..]) == 0;
  }

  predicate IsQuote(c: char) {
    c == '"' || c == '\''
  }

  /** The character classes the scanners run over. */
  datatype CharClass = Space | NotClose | NotQuote

  predicate In(c: char, cls: CharClass) {
    match cls
    case Space => IsSpace(c)
    case NotClose => c != ']'
    case NotQuote => !IsQuote(c)
  }

  /** The length of the run of characters of class `cls` from position `i`. */
  function Span(s: string, i: nat, cls: CharClass): (n: nat)
    decreases |s| - i
    ensures i + n <= |s| || n == 0
  {
    if i >= |s| || !In(s[i], cls) then 0 else 1 + Span(s, i + 1, cls)
  }

  /** The run is maximal: every character in it is of the class, and the
      one after it is not. */
  lemma {:induction false} SpanFacts(s: string, i: nat, cls: CharClass)
    decreases |s| - i
    ensures forall k :: i <= k < i + Span(s, i, cls) ==> In(s[k], cls)
    ensures i + Span(s, i, cls) < |s| ==> !In(s[i + Span(s, i, cls)], cls)
  {
    if i < |s| && In(s[i], cls) {
      SpanFacts(s, i + 1, cls);
    }
  }

  /** The bounds of the group of `/keywords["']?\s*:\s*\[([^\]]+)\]/` when
      the pattern matches at `p`. No backtracking changes the outcome: with
      the optional quote left out, the quote would have to be whitespace or
      the colon, and each run is followed by a character it cannot hold. */
  function GroupAt(t: string, p: nat): (g: Option<(nat, nat)>)
    ensures g.Some? ==> p + 8 < g.value.0 < g.value.1 <= |t|
  {
    if !OccursAt(t, "keywords", p) then None
    else
      var q := p + 8;
      var q1 := if q < |t| && IsQuote(t[q]) then q + 1 else q;
      var q2 := q1 + Span(t, q1, Space);
      if q2 < |t| && t[q2] == ':' then
        var q3 := q2 + 1 + Span(t, q2 + 1, Space);
        if q3 < |t| && t[q3] == '[' then
          var e := q3 + 1 + Span(t, q3 + 1, NotClose);
          if e > q3 + 1 && e < |t| then Some((q3 + 1, e)) else None
        else None
      else None
  }

  /** `text.match(...)` without the `g` flag: the leftmost position at or
      after `from` where the pattern matches. */
  function FindGroup(t: string, from: nat): (r: Option<nat>)
    decreases |t| - from
    ensures r.Some? ==> from <= r.value && GroupAt(t, r.value).Some?
  {
    if from > |t| then None
    else if GroupAt(t, from).Some? then Some(from)
    else FindGroup(t, from + 1)
  }

  /** The match found is the leftmost one. */
  lemma {:induction false} FindGroupLeftmost(t: string, from: nat)
    decreases |t| - from
    requires FindGroup(t, from).Some?
    ensures forall q :: from <= q < FindGroup(t, from).value ==> GroupAt(t, q).None?
  {
    if GroupAt(t, from).None? {
      FindGroupLeftmost(t, from + 1);
    }
  }

  /** No match is found only when the pattern matches nowhere. */
  lemma {:induction false} FindGroupNone(t: string, from: nat)
    decreases |t| - from
    requires FindGroup(t, from).None?
    ensures forall q :: from <= q ==> GroupAt(t, q).None?
  {
    if from <= |t| {
      FindGroupNone(t, from + 1);
    }
  }

  /** `g.match(/["']([^"']+)["']/g)`: the successive matches from position
      `i`, each a quote, at least one other character and a quote. */
  function Quoted(g: string, i: nat): (r: seq<string>)
    decreases |g| - i
    ensures forall k :: 0 <= k < |r| ==> QuotedItem(r[k])
  {
    if i >= |g| then []
    else if IsQuote(g[i]) then
      var j := i + 1 + Span(g, i + 1, NotQuote);
      SpanFacts(g, i + 1, NotQuote);
      if j > i + 1 && j < |g| then [g[i..j + 1]] + Quoted(g, j + 1) else Quoted(g, i + 1)
    else Quoted(g, i + 1)
  }

  /** A match of the item pattern. */
  predicate QuotedItem(m: string) {
    |m| >= 3 && IsQuote(m[0]) && IsQuote(m[|m| - 1]) && forall k :: 0 < k < |m| - 1 ==> !IsQuote(m[k])
  }

  /** `k.replace(/["']/g, '')`. */
  function Unquote(m: string): (r: string)
    ensures forall k :: 0 <= k < |r| ==> !IsQuote(r[k])
  {
    if m == [] then [] else (if IsQuote(m[0]) then [] else [m[0]]) + Unquote(m[1..])
  }

  /** Quote-free text is left as it is. */
  lemma {:induction false} UnquoteFree(s: string)
    requires forall k :: 0 <= k < |s| ==> !IsQuote(s[k])
    ensures Unquote(s) == s
  {
    if s != [] {
      UnquoteFree(s[1..]);
    }
  }

  /** Unquoting a match leaves exactly the text between its quotes. */
  lemma UnquoteItem(m: string)
    requires QuotedItem(m)
    ensures Unquote(m) == m[1..|m| - 1]
  {
    var inner := m[1..|m| - 1];
    UnquoteFree(inner);
    assert m == [m[0]] + inner + [m[|m| - 1]];
    UnquoteConcat([m[0]] + inner, [m[|m| - 1]]);
    UnquoteConcat([m[0]], inner);
  }

  lemma {:induction false} UnquoteConcat(a: string, b: string)
    ensures Unquote(a + b) == Unquote(a) + Unquote(b)
  {
    if a != [] {
      var h := if IsQuote(a[0]) then [] else [a[0]];
      assert (a + b)[0] == a[0];
      assert (a + b)[1..] == a[1..] + b;
      UnquoteConcat(a[1..], b);
      calc {
        Unquote(a + b);
        h + Unquote(a[1..] + b);
        h + (Unquote(a[1..]) + Unquote(b));
        (h + Unquote(a[1..])) + Unquote(b);
      }
    } else {
      assert a + b == b;
    }
  }

  function Unquoted(ms: seq<string>): (r: seq<string>)
    ensures |r| == |ms|
  {
    seq(|ms|, k requires 0 <= k < |ms| => Unquote(ms[k]))
  }

  /** The fallback when the reply does not parse: the keywords of the
      first `keywords: [...]` group of the raw reply, at most five, and
      nothing else. */
  function Fallback(text: string): Fields {
    match FindGroup(text, 0)
    case None => NoFields
    case Some(p) =>
      var (a, b) := GroupAt(text, p).value;
      var items := Unquoted(Quoted(text[a..b], 0));
      NoFields.(keywords := Some(items[..Min(5, |items|)]))
  }

  /** The `||` defaults of the returned data. */
  function Filled(f: Fields): (r: Analysis)
    ensures f.keywords.None? ==> r.keywords == []
    ensures f.archetypes.None? ==> r.archetypes == []
    ensures f.symbols.None? ==> r.symbols == []
    ensures f.conflict.None? ==> r.conflict == ""
    ensures r.emotion != ""
    ensures f.emotion.None? || f.emotion == Some("") ==> r.emotion == Unknown
    ensures f.keywords.Some? ==> r.keywords == f.keywords.value
    ensures f.emotion.Some? && f.emotion.value != "" ==> r.emotion == f.emotion.value
  {
    Analysis(
      if f.keywords.Some? then f.keywords.value else [],
      if f.archetypes.Some? then f.archetypes.value else [],
      if f.emotion.Some? && f.emotion.value != "" then f.emotion.value else Unknown,
      if f.conflict.Some? then f.conflict.value else "",
      if f.symbols.Some? then f.symbols.value else [])
  }

  /** One call of the cloud function; `content` is `""` when missing. */
  function Extract(content: string, reply: Result<string>, parse: string -> Option<Fields>): (r: Result<Analysis>)
    ensures |content| < 5 ==> r == Failure(TooShort)
    ensures |content| >= 5 && reply.Failure? ==> r == Failure(reply.error)
    ensures |content| >= 5 && reply.Success? ==> r.Success?
    ensures |content| >= 5 && reply.Success? && parse(Cleaned(reply.value)).Some? ==>
              r.value == Filled(parse(Cleaned(reply.value)).value)
    ensures |content| >= 5 && reply.Success? && parse(Cleaned(reply.value)).None? ==>
              r.value == Filled(Fallback(reply.value))
  {
    if |content| < 5 then Failure(TooShort)
    else
      match reply
      case Failure(e) => Failure(e)
      case Success(text) =>
        var fields := match parse(Cleaned(text)) case Some(f) => f case None => Fallback(text);
        Success(Filled(fields))
  }

  /** When the reply does not parse, only the keywords can come from it;
      everything else is its default. */
  lemma FallbackDefaults(text: string)
    ensures var a := Filled(Fallback(text));
            a.archetypes == [] && a.emotion == Unknown && a.conflict == "" && a.symbols == []
    ensures FindGroup(text, 0).None? ==> Filled(Fallback(text)).keywords == []
  {
  }

  /** The fallback keywords: at most five, each the non-empty, quote-free
      text between the quotes of a match, in order, from the first
      `keywords` group of the reply. */
  lemma FallbackKeywords(text: string)
    requires FindGroup(text, 0).Some?
    ensures var (a, b) := GroupAt(text, FindGroup(text, 0).value).value;
            var ms := Quoted(text[a..b], 0);
            var ks := Filled(Fallback(text)).keywords;
            |ks| == Min(5, |ms|)
            && forall k :: 0 <= k < |ks| ==>
                 ks[k] == ms[k][1..|ms[k]| - 1] && |ks[k]| > 0 && forall i :: 0 <= i < |ks[k]| ==> !IsQuote(ks[k][i])
  {
    var (a, b) := GroupAt(text, FindGroup(text, 0).value).value;
    var ms := Quoted(text[a..b], 0);
    forall k | 0 <= k < |ms|
      ensures Unquote(ms[k]) == ms[k][1..|ms[k]| - 1]
    {
      UnquoteItem(ms[k]);
    }
  }
}
