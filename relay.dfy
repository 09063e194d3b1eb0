/**
 * The `/chat` relay server's framing of the event stream it sends the chat
 * page. Without an API key it replays a canned answer: the reasoning in
 * 5-character frames between `<think>` and `</think>` frames, the answer in
 * 2-character frames, then `[DONE]`. With a key it relays the upstream
 * stream line by line: blank lines are skipped, `data: [DONE]` ends the
 * response, and every other `data: ` line is parsed into a delta whose
 * reasoning and answer become a thinking frame and a content frame.
 *
 * A frame stands for one `data: {...}\n\n` write; the JSON encoding of a
 * frame and the parse of an upstream payload are not modelled (`parse`
 * is an input, `None` where `JSON.parse` or the `choices[0].delta` access
 * throws).
 */
module Relay {
  import opened Wrappers
  import opened Text
  import opened ChatStream

  datatype Kind = Thinking | Content

  /** One event written to the client: `{ type, content }` or `[DONE]`. */
  datatype Frame = Frame(kind: Kind, content: string) | Done

  /** `choices[0].delta`, with a missing field read as `""`. */
  datatype Delta = Delta(reasoning: string, content: string)

  const DataPrefix := "data: "
  const DoneLine := "data: [DONE]"
  const ApiFailure := "连接潜意识网络失败...请稍后再试。"

  // ---------------------------------------------------------------------
  // The canned stream

  function MockThinking(userMessage: string): string {
    "[模拟推理] 用户输入了 \"" + userMessage + "\"。\n"
    + "    1. 语义分析：用户似乎在寻求某种确认。\n"
    + "    2. 原型识别：检测到\"孤儿\"原型及其对应的独立需求。\n"
    + "    3. 策略：引导用户关注内在的空虚感。"
  }

  function MockContent(userMessage: string): string {
    "（模拟回复）这是一个很好的切入点。\"" + userMessage + "\" 反映了你当下的心境。试着闭上眼睛，感受这句话在身体里的回响..."
  }

  /** The pieces `s.substring(i, i + n)` for `i = 0, n, 2n, ...` below `|s|`. */
  function Pieces(s: string, n: nat): seq<string>
    requires n > 0
    decreases |s|
  {
    if s == [] then [] else [Take(s, n)] + Pieces(s[Min(n, |s|)..], n)
  }

  /** The pieces put back together give the string, and each is non-empty
      and at most `n` long. */
  lemma {:induction false} PiecesFacts(s: string, n: nat)
    requires n > 0
    ensures Concat(Pieces(s, n)) == s
    ensures forall k :: 0 <= k < |Pieces(s, n)| ==> 0 < |Pieces(s, n)[k]| <= n
    decreases |s|
  {
    if s != [] {
      var head, rest := Take(s, n), s[Min(n, |s|)..];
      PiecesFacts(rest, n);
      ConcatAppend([head], Pieces(rest, n));
      ConcatSmall(head, head);
      assert s == head + rest;
    }
  }

  /** The frames of the given kind carrying the given pieces. */
  function Framed(kind: Kind, ps: seq<string>): (r: seq<Frame>)
    ensures |r| == |ps|
  {
    seq(|ps|, k requires 0 <= k < |ps| => Frame(kind, ps[k]))
  }

  /** The canned framing of a reasoning text and an answer. */
  function Replayed(reasoning: string, answer: string): seq<Frame> {
    [Frame(Thinking, "<think>")]
    + Framed(Thinking, Pieces(reasoning, 5))
    + [Frame(Thinking, "</think>")]
    + Framed(Content, Pieces(answer, 2))
    + [Done]
  }

  /** One piece step: `s.substring(i, i + n)` is the first piece of what
      is left from `i`, and what is left after it starts at `i + n`. */
  lemma PieceStep(s: string, n: nat, i: nat)
    requires n > 0 && i < |s|
    ensures Pieces(s[i..], n) == [Substring(s, i, i + n)] + Pieces(s[Min(i + n, |s|)..], n)
  {
    var t := s[i..];
    assert t[Min(n, |t|)..] == s[Min(i + n, |s|)..];
    assert Take(t, n) == Substring(s, i, i + n);
  }

  /** One step of a slicing loop: the pieces sent so far, the one sent
      now and the pieces of what is left make up all the pieces. */
  lemma PiecesAdvance(s: string, n: nat, i: nat, sent: seq<string>)
    requires n > 0 && i < |s|
    requires Pieces(s, n) == sent + Pieces(s[Min(i, |s|)..], n)
    ensures Pieces(s, n) == (sent + [Substring(s, i, i + n)]) + Pieces(s[Min(i + n, |s|)..], n)
  {
    PieceStep(s, n, i);
  }

  lemma FramedSnoc(kind: Kind, ps: seq<string>, p: string)
    ensures Framed(kind, ps + [p]) == Framed(kind, ps) + [Frame(kind, p)]
  {
  }

  /** The two loops of the mock branch and the frames around them. */
  method Replay(mockThinking: string, mockContent: string) returns (frames: seq<Frame>)
    ensures frames == Replayed(mockThinking, mockContent)
  {
    frames := [Frame(Thinking, "<think>")];
    ghost var sent: seq<string> := [];
    var i := 0;
    while i < |mockThinking|
      invariant Pieces(mockThinking, 5) == sent + Pieces(mockThinking[Min(i, |mockThinking|)..], 5)
      invariant frames == [Frame(Thinking, "<think>")] + Framed(Thinking, sent)
      decreases |mockThinking| - i
    {
      PiecesAdvance(mockThinking, 5, i, sent);
      FramedSnoc(Thinking, sent, Substring(mockThinking, i, i + 5));
      FramesAssoc([Frame(Thinking, "<think>")], Framed(Thinking, sent), [Frame(Thinking, Substring(mockThinking, i, i + 5))]);
      frames := frames + [Frame(Thinking, Substring(mockThinking, i, i + 5))];
      sent := sent + [Substring(mockThinking, i, i + 5)];
      i := i + 5;
    }
    assert mockThinking[Min(i, |mockThinking|)..] == [];
    frames := frames + [Frame(Thinking, "</think>")];
    ghost var head := frames;
    sent := [];
    i := 0;
    while i < |mockContent|
      invariant Pieces(mockContent, 2) == sent + Pieces(mockContent[Min(i, |mockContent|)..], 2)
      invariant frames == head + Framed(Content, sent)
      decreases |mockContent| - i
    {
      PiecesAdvance(mockContent, 2, i, sent);
      FramedSnoc(Content, sent, Substring(mockContent, i, i + 2));
      FramesAssoc(head, Framed(Content, sent), [Frame(Content, Substring(mockContent, i, i + 2))]);
      frames := frames + [Frame(Content, Substring(mockContent, i, i + 2))];
      sent := sent + [Substring(mockContent, i, i + 2)];
      i := i + 2;
    }
    assert mockContent[Min(i, |mockContent|)..] == [];
    frames := frames + [Done];
  }

  /** The mock branch of the handler: the frames it writes, in order. */
  method MockStream(userMessage: string) returns (frames: seq<Frame>)
    ensures frames == Replayed(MockThinking(userMessage), MockContent(userMessage))
  {
    frames := Replay(MockThinking(userMessage), MockContent(userMessage));
  }

  /** The contents of the frames of one kind, in order. */
  function Texts(fs: seq<Frame>, kind: Kind): seq<string> {
    if fs == [] then []
    else Texts(fs[..|fs| - 1], kind) + (if fs[|fs| - 1].Frame? && fs[|fs| - 1].kind == kind then [fs[|fs| - 1].content] else [])
  }

  lemma {:induction false} TextsAppend(a: seq<Frame>, b: seq<Frame>, kind: Kind)
    ensures Texts(a + b, kind) == Texts(a, kind) + Texts(b, kind)
    decreases |b|
  {
    if b == [] {
      assert a + b == a;
    } else {
      var b' := b[..|b| - 1];
      assert (a + b)[..|a + b| - 1] == a + b';
      TextsAppend(a, b', kind);
    }
  }

  lemma {:induction false} TextsFramed(kind: Kind, other: Kind, ps: seq<string>)
    ensures Texts(Framed(kind, ps), kind) == ps
    ensures other != kind ==> Texts(Framed(kind, ps), other) == []
    decreases |ps|
  {
    if ps != [] {
      var ps' := ps[..|ps| - 1];
      assert Framed(kind, ps)[..|ps| - 1] == Framed(kind, ps');
      TextsFramed(kind, other, ps');
    }
  }

  lemma TextsSingle(f: Frame, kind: Kind)
    ensures Texts([f], kind) == if f.Frame? && f.kind == kind then [f.content] else []
  {
    assert [f][..0] == [];
  }

  /** The texts of each kind in the canned framing: the tags around the
      5-character reasoning pieces, and the 2-character answer pieces. */
  lemma ReplayedKinds(reasoning: string, answer: string)
    ensures Texts(Replayed(reasoning, answer), Thinking) == ["<think>"] + Pieces(reasoning, 5) + ["</think>"]
    ensures Texts(Replayed(reasoning, answer), Content) == Pieces(answer, 2)
  {
    var tp, cp := Pieces(reasoning, 5), Pieces(answer, 2);
    var a, b := [Frame(Thinking, "<think>")], Framed(Thinking, tp);
    var c, d, e := [Frame(Thinking, "</think>")], Framed(Content, cp), [Done];
    var ab := a + b;
    var abc := ab + c;
    var abcd := abc + d;
    assert Replayed(reasoning, answer) == abcd + e;
    TextsFramed(Thinking, Content, tp);
    TextsFramed(Content, Thinking, cp);
    KindsOf(a, b, c, d, e, Thinking);
    KindsOf(a, b, c, d, e, Content);
  }

  /** The texts of one kind in five consecutive runs of frames. */
  lemma KindsOf(a: seq<Frame>, b: seq<Frame>, c: seq<Frame>, d: seq<Frame>, e: seq<Frame>, kind: Kind)
    ensures Texts((((a + b) + c) + d) + e, kind)
            == Texts(a, kind) + Texts(b, kind) + Texts(c, kind) + Texts(d, kind) + Texts(e, kind)
    ensures |a| == 1 ==> Texts(a, kind) == if a[0].Frame? && a[0].kind == kind then [a[0].content] else []
    ensures |c| == 1 ==> Texts(c, kind) == if c[0].Frame? && c[0].kind == kind then [c[0].content] else []
    ensures |e| == 1 ==> Texts(e, kind) == if e[0].Frame? && e[0].kind == kind then [e[0].content] else []
  {
    TextsAppend(((a + b) + c) + d, e, kind);
    TextsAppend((a + b) + c, d, kind);
    TextsAppend(a + b, c, kind);
    TextsAppend(a, b, kind);
    if |a| == 1 { assert a == [a[0]]; TextsSingle(a[0], kind); }
    if |c| == 1 { assert c == [c[0]]; TextsSingle(c[0], kind); }
    if |e| == 1 { assert e == [e[0]]; TextsSingle(e[0], kind); }
  }

  /** The thinking frames of the canned stream spell `<think>`, the canned
      reasoning and `</think>`; its content frames are the answer cut into
      non-empty pieces of at most 2 characters. */
  lemma ReplayedTexts(reasoning: string, answer: string)
    ensures Concat(Texts(Replayed(reasoning, answer), Thinking)) == "<think>" + reasoning + "</think>"
    ensures var cs := Texts(Replayed(reasoning, answer), Content);
            Concat(cs) == answer && forall k :: 0 <= k < |cs| ==> 0 < |cs[k]| <= 2
  {
    ReplayedKinds(reasoning, answer);
    var tp := Pieces(reasoning, 5);
    PiecesFacts(reasoning, 5);
    PiecesFacts(answer, 2);
    ConcatAppend(["<think>"], tp);
    ConcatAppend(["<think>"] + tp, ["</think>"]);
    ConcatSmall("<think>", "<think>");
    ConcatSmall("</think>", "</think>");
  }

  /** The canned stream ends with its one `[DONE]`, after every other frame. */
  lemma ReplayedDoneLast(reasoning: string, answer: string)
    ensures var fs := Replayed(reasoning, answer);
            fs[|fs| - 1] == Done && forall k :: 0 <= k < |fs| - 1 ==> fs[k] != Done
  {
  }

  // ---------------------------------------------------------------------
  // The upstream relay

  /** `s.split('\n')`. */
  function Lines(s: string): (r: seq<string>)
    ensures |r| > 0
  {
    if s == [] then [""]
    else
      var rest := Lines(s[1..]);
      if s[0] == '\n' then [""] + rest else [[s[0]] + rest[0]] + rest[1..]
  }

  /** Splitting and joining again with `\n` gives the chunk back, and no
      line holds a `\n`. */
  lemma {:induction false} LinesJoin(s: string)
    ensures Join(Lines(s), "\n") == s
    ensures forall k, j :: 0 <= k < |Lines(s)| && 0 <= j < |Lines(s)[k]| ==> Lines(s)[k][j] != '\n'
  {
    if s != [] {
      var rest := Lines(s[1..]);
      LinesJoin(s[1..]);
      if s[0] == '\n' {
        assert ([""] + rest)[1..] == rest;
      } else {
        var r := [[s[0]] + rest[0]] + rest[1..];
        assert r[1..] == rest[1..];
        assert forall k :: 1 <= k < |r| ==> r[k] == rest[k];
        if |rest| > 1 {
          assert rest[1..][1..] == rest[2..];
        }
      }
    }
  }

  predicate Blank(line: string) {
    Trim(line) == ""
  }

  /** `.filter(line => line.trim() !== '')`. */
  function NonBlank(ls: seq<string>): (r: seq<string>)
    ensures |r| <= |ls|
    ensures forall k :: 0 <= k < |r| ==> !Blank(r[k])
  {
    if ls == [] then []
    else (if Blank(ls[0]) then [] else [ls[0]]) + NonBlank(ls[1..])
  }

  /** A blank line anywhere among the lines changes nothing. */
  lemma {:induction false} BlankIgnored(a: seq<string>, line: string, b: seq<string>)
    requires Blank(line)
    ensures NonBlank(a + [line] + b) == NonBlank(a + b)
  {
    if a == [] {
      assert a + [line] + b == [line] + b && ([line] + b)[1..] == b;
      assert a + b == b;
    } else {
      assert (a + [line] + b)[1..] == a[1..] + [line] + b;
      assert (a + b)[1..] == a[1..] + b;
      BlankIgnored(a[1..], line, b);
    }
  }

  /** `line.startsWith('data: ')`, character by character. */
  predicate IsData(line: string) {
    |line| >= 6 && line[0] == 'd' && line[1] == 'a' && line[2] == 't' && line[3] == 'a'
    && line[4] == ':' && line[5] == ' '
  }

  /** `line === 'data: [DONE]'`, character by character. */
  predicate IsDone(line: string) {
    |line| == 12 && IsData(line) && line[6] == '[' && line[7] == 'D' && line[8] == 'O'
    && line[9] == 'N' && line[10] == 'E' && line[11] == ']'
  }

  lemma LineTests(line: string)
    ensures IsData(line) <==> |line| >= 6 && line[..6] == DataPrefix
    ensures IsDone(line) <==> line == DoneLine
  {
    if IsDone(line) {
      assert forall k :: 0 <= k < 12 ==> line[k] == DoneLine[k];
    }
  }

  /** What one non-blank line writes: `[DONE]`, the delta's frames when a
      `data: ` payload parses (thinking before content, each only when
      non-empty), and nothing otherwise. */
  function LineFrames(line: string, parse: string -> Option<Delta>): seq<Frame> {
    if IsDone(line) then [Done]
    else if IsData(line) then
      match parse(line[6..])
      case None => []
      case Some(d) =>
        (if d.reasoning != "" then [Frame(Thinking, d.reasoning)] else [])
        + (if d.content != "" then [Frame(Content, d.content)] else [])
    else []
  }

  /** What the lines of one chunk write: each line's frames, in order,
      stopping after the first `data: [DONE]`. */
  function Relayed(ls: seq<string>, parse: string -> Option<Delta>): seq<Frame> {
    if ls == [] then []
    else LineFrames(ls[0], parse) + (if IsDone(ls[0]) then [] else Relayed(ls[1..], parse))
  }

  /** Everything after a `data: [DONE]` line is dropped: the lines before
      it are relayed and then `[DONE]`, whatever follows. */
  lemma {:induction false} DoneEnds(a: seq<string>, b: seq<string>, parse: string -> Option<Delta>)
    requires forall k :: 0 <= k < |a| ==> !IsDone(a[k])
    ensures Relayed(a + [DoneLine] + b, parse) == Relayed(a, parse) + [Done]
  {
    LineTests(DoneLine);
    if a == [] {
      assert a + [DoneLine] + b == [DoneLine] + b;
    } else {
      assert (a + [DoneLine] + b)[0] == a[0];
      assert (a + [DoneLine] + b)[1..] == a[1..] + [DoneLine] + b;
      DoneEnds(a[1..], b, parse);
    }
  }

  /** Frames that each carry some text. */
  predicate Carries(fs: seq<Frame>) {
    forall k :: 0 <= k < |fs| ==> fs[k].Frame? && fs[k].content != ""
  }

  /** Frames that each carry some text, possibly closed by one `[DONE]`. */
  predicate Closed(fs: seq<Frame>) {
    Carries(fs) || (|fs| > 0 && fs[|fs| - 1] == Done && Carries(fs[..|fs| - 1]))
  }

  lemma ClosedPrepend(a: seq<Frame>, b: seq<Frame>)
    requires Carries(a) && Closed(b)
    ensures Closed(a + b)
  {
    var ab := a + b;
    assert forall k :: 0 <= k < |a| ==> ab[k] == a[k];
    assert forall k :: |a| <= k < |ab| ==> ab[k] == b[k - |a|];
    if !Carries(b) {
      assert ab[..|ab| - 1] == a + b[..|b| - 1];
      var c := b[..|b| - 1];
      var ac := a + c;
      assert forall k :: 0 <= k < |a| ==> ac[k] == a[k];
      assert forall k :: |a| <= k < |ac| ==> ac[k] == c[k - |a|];
    }
  }

  /** Every frame relayed carries some text, and `[DONE]`, if there, is
      the last frame. */
  lemma {:induction false} RelayedFacts(ls: seq<string>, parse: string -> Option<Delta>)
    ensures Closed(Relayed(ls, parse))
  {
    if ls != [] {
      if IsDone(ls[0]) {
        assert Relayed(ls, parse) == [Done];
        assert [Done][..0] == [];
      } else {
        RelayedFacts(ls[1..], parse);
        LineFramesFacts(ls[0], parse);
        ClosedPrepend(LineFrames(ls[0], parse), Relayed(ls[1..], parse));
      }
    }
  }

  lemma LineFramesFacts(line: string, parse: string -> Option<Delta>)
    requires !IsDone(line)
    ensures Carries(LineFrames(line, parse))
  {
  }

  /** A parsed delta writes its reasoning first and its answer second; a
      payload that does not parse writes nothing. */
  lemma DeltaOrder(payload: string, parse: string -> Option<Delta>, r: string, c: string)
    requires !IsDone(DataPrefix + payload)
    ensures parse(payload) == Some(Delta(r, c)) && r != "" && c != "" ==>
              LineFrames(DataPrefix + payload, parse) == [Frame(Thinking, r), Frame(Content, c)]
    ensures parse(payload).None? ==> LineFrames(DataPrefix + payload, parse) == []
  {
    assert (DataPrefix + payload)[6..] == payload;
    assert (DataPrefix + payload)[..6] == DataPrefix;
  }

  lemma RelayedStep(ls: seq<string>, i: nat, parse: string -> Option<Delta>)
    requires i < |ls|
    ensures Relayed(ls[i..], parse) == LineFrames(ls[i], parse) + (if IsDone(ls[i]) then [] else Relayed(ls[i + 1..], parse))
    ensures Stops(ls[i..]) == (IsDone(ls[i]) || Stops(ls[i + 1..]))
  {
    assert ls[i..][1..] == ls[i + 1..];
  }

  /** The loop's bookkeeping at line `i`: the frames `sent` so far and
      those of the lines from `i` on make up what the chunk writes, and a
      `[DONE]` among all the lines is one among those from `i` on. */
  ghost predicate Tracks(ls: seq<string>, i: nat, sent: seq<Frame>, parse: string -> Option<Delta>) {
    i <= |ls| && Relayed(ls, parse) == sent + Relayed(ls[i..], parse) && Stops(ls) == Stops(ls[i..])
  }

  lemma TracksAdvance(ls: seq<string>, i: nat, sent: seq<Frame>, parse: string -> Option<Delta>)
    requires Tracks(ls, i, sent, parse) && i < |ls| && !IsDone(ls[i])
    ensures Tracks(ls, i + 1, sent + LineFrames(ls[i], parse), parse)
  {
    RelayedStep(ls, i, parse);
  }

  lemma TracksStop(ls: seq<string>, i: nat, sent: seq<Frame>, parse: string -> Option<Delta>)
    requires Tracks(ls, i, sent, parse) && i < |ls| && IsDone(ls[i])
    ensures Relayed(ls, parse) == sent + [Done] && Stops(ls)
  {
    RelayedStep(ls, i, parse);
  }

  lemma TracksEnd(ls: seq<string>, sent: seq<Frame>, parse: string -> Option<Delta>)
    requires Tracks(ls, |ls|, sent, parse)
    ensures Relayed(ls, parse) == sent && !Stops(ls)
  {
    assert ls[|ls|..] == [];
  }

  lemma FramesAssoc(a: seq<Frame>, b: seq<Frame>, c: seq<Frame>)
    ensures (a + b) + c == a + (b + c)
  {
  }

  /** Whether the lines hold a `data: [DONE]`. */
  predicate Stops(ls: seq<string>) {
    ls != [] && (IsDone(ls[0]) || Stops(ls[1..]))
  }

  lemma {:induction false} StopsIff(ls: seq<string>)
    ensures Stops(ls) <==> DoneLine in ls
  {
    if ls != [] {
      LineTests(ls[0]);
      StopsIff(ls[1..]);
      assert ls == [ls[0]] + ls[1..];
      assert (DoneLine in ls) == (ls[0] == DoneLine || DoneLine in ls[1..]);
    }
  }

  /** The response as the client receives it. A write after `res.end()`
      does not reach the client. */
  class Response {
    var frames: seq<Frame>
    var ended: bool

    constructor ()
      ensures frames == [] && !ended
    {
      frames, ended := [], false;
    }

    /** `res.write(...)`. */
    method Write(f: Frame)
      modifies this
      ensures ended == old(ended)
      ensures frames == old(frames) + (if ended then [] else [f])
    {
      if !ended {
        frames := frames + [f];
      }
    }

    /** `res.end()`. */
    method End()
      modifies this
      ensures ended && frames == old(frames)
    {
      ended := true;
    }

    /** `res.write('data: [DONE]\n\n')` and `res.end()`. */
    method Finish()
      modifies this
      ensures ended
      ensures frames == old(frames) + (if old(ended) then [] else [Done])
    {
      Write(Done);
      End();
    }

    /** The handling of one line other than `data: [DONE]`: a `data: `
        payload that parses writes its delta's reasoning, then its answer. */
    method RelayData(line: string, parse: string -> Option<Delta>)
      requires !IsDone(line)
      modifies this
      ensures ended == old(ended)
      ensures frames == old(frames) + (if ended then [] else LineFrames(line, parse))
    {
      if IsData(line) {
        var jsonStr := line[6..];
        match parse(jsonStr) {
          case None =>
          case Some(delta) =>
            if delta.reasoning != "" {
              Write(Frame(Thinking, delta.reasoning));
            }
            if delta.content != "" {
              Write(Frame(Content, delta.content));
            }
        }
      }
    }

    /** The `data` listener: one upstream chunk split into lines, the
        blank ones dropped, and the rest relayed. */
    method OnData(chunk: string, parse: string -> Option<Delta>)
      modifies this
      ensures frames == old(frames) + (if old(ended) then [] else Relayed(NonBlank(Lines(chunk)), parse))
      ensures ended == (old(ended) || DoneLine in NonBlank(Lines(chunk)))
    {
      var lines := NonBlank(Lines(chunk));
      StopsIff(lines);
      RelayLines(lines, parse);
    }

    /** The `for (const line of lines)` loop of the `data` listener, which
        returns at the first `data: [DONE]`. */
    method RelayLines(lines: seq<string>, parse: string -> Option<Delta>)
      modifies this
      ensures frames == old(frames) + (if old(ended) then [] else Relayed(lines, parse))
      ensures ended == (old(ended) || Stops(lines))
    {
      ghost var sent: seq<Frame> := [];
      var i := 0;
      assert lines[0..] == lines;
      while i < |lines|
        invariant Tracks(lines, i, sent, parse)
        invariant ended == old(ended)
        invariant ended ==> frames == old(frames)
        invariant !ended ==> frames == old(frames) + sent
      {
        var line := lines[i];
        if IsDone(line) {
          TracksStop(lines, i, sent, parse);
          Finish();
          return;
        }
        ghost var lf := LineFrames(line, parse);
        RelayData(line, parse);
        TracksAdvance(lines, i, sent, parse);
        FramesAssoc(old(frames), sent, lf);
        sent := sent + lf;
        i := i + 1;
      }
      TracksEnd(lines, sent, parse);
    }

    /** The `end` listener. */
    method OnEnd()
      modifies this
      ensures ended && frames == old(frames)
    {
      End();
    }

    /** The `catch` of the upstream request: one content frame with the
        failure notice, then the end. */
    method OnRequestError()
      modifies this
      ensures ended
      ensures frames == old(frames) + (if old(ended) then [] else [Frame(Content, ApiFailure)])
    {
      Write(Frame(Content, ApiFailure));
      End();
    }
  }
}
