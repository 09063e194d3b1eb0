/**
 * The chat page's live reading of the model's token stream: after every
 * chunk the whole accumulated buffer is split again into reasoning and
 * visible answer, using the first `<think>` and the first `</think>`
 * (each searched from the start of the buffer). Also the typewriter replay
 * that shows a finished reply a few characters per tick.
 */
module ChatStream {
  import opened Text
  import opened ThinkTags

  /** The split shown after a chunk, as a function of the whole buffer so far.
      JavaScript's `substring` clamps and swaps its bounds, which matters when
      `</think>` comes before `<think>`. */
  function LiveSplit(buf: string): Split {
    SplitAt(buf, IndexOf(buf, Open), IndexOf(buf, Close))
  }

  /** The split for a `<think>` found at `s` and a `</think>` found at `e`
      (-1 for not found). */
  function SplitAt(buf: string, s: int, e: int): Split {
    if s != -1 then
      if e != -1 then Split(Substring(buf, s + 7, e), SubstringFrom(buf, e + 8))
      else Split(SubstringFrom(buf, s + 7), "")
    else Split("", buf)
  }

  /** No `<think>` yet: nothing is reasoning, the whole buffer is the answer. */
  lemma LiveNoOpen(buf: string)
    requires !Contains(buf, Open)
    ensures LiveSplit(buf) == Split("", buf)
  {
    IndexOfFound(buf, Open);
  }

  /** `<think>` seen but no `</think>` anywhere: everything after the first
      `<think>` is reasoning and the answer is empty (the preamble is dropped). */
  lemma LiveUnclosed(pre: string, a: string)
    requires !Contains(pre, Open) && !Contains(pre + Open + a, Close)
    ensures LiveSplit(pre + Open + a) == Split(a, "")
  {
    TagFacts();
    var buf := pre + Open + a;
    assert buf == pre + Open + a + [];
    IndexOfAfter(pre, Open, a);
    IndexOfFound(buf, Close);
    assert buf[|pre| + 7..] == a;
  }

  /** A complete block: the reasoning is the text between the tags, the answer
      the text after `</think>`, and the preamble is discarded. */
  lemma LiveClosed(pre: string, a: string, b: string)
    requires !Contains(pre, Open) && !Contains(pre, Close) && !Contains(a, Close)
    ensures LiveSplit(pre + Open + a + Close + b) == Split(a, b)
  {
    var buf := pre + Open + a + Close + b;
    TagIndices(pre, a, b);
    var s, e := |pre|, |pre| + 7 + |a|;
    assert LiveSplit(buf) == SplitAt(buf, s, e);
    assert buf[s + 7..e] == a;
    assert buf[e + 8..] == b;
  }

  /** `</think>` before the first `<think>`: `substring` swaps its bounds, so
      the reasoning runs from `</think>` through `<think>` and the answer is
      everything after `</think>`. */
  lemma LiveCloseFirst(x: string, y: string, z: string)
    requires !Contains(x, Close) && !Contains(x + Close + y, Open)
    ensures LiveSplit(x + Close + y + Open + z) == Split(Close + y + Open, y + Open + z)
  {
    TagFacts();
    var buf := x + Close + y + Open + z;
    assert buf == x + Close + (y + Open + z);
    IndexOfAfter(x + Close + y, Open, z);
    IndexOfAfter(x, Close, y + Open + z);
    var s, e := |x| + 8 + |y|, |x|;
    assert buf[e..s + 7] == Close + y + Open;
    assert buf[e + 8..] == y + Open + z;
  }

  /** The three states of the reader, read off the buffer. */
  datatype Phase = BeforeMarker | InReasoning | AfterReasoning

  function PhaseOf(buf: string): Phase {
    if !Contains(buf, Open) then BeforeMarker
    else if !Contains(buf, Close) then InReasoning
    else AfterReasoning
  }

  function Rank(p: Phase): nat {
    match p
    case BeforeMarker => 0
    case InReasoning => 1
    case AfterReasoning => 2
  }

  lemma ContainsExtend(u: string, v: string, p: string)
    requires Contains(u, p)
    ensures Contains(u + v, p)
  {
    var i :| 0 <= i <= |u| - |p| && OccursAt(u, p, i);
    OccursAtExtend(u, v, p, i);
  }

  /** More text never moves the reader back to an earlier state. */
  lemma PhaseMonotone(x: string, y: string)
    ensures Rank(PhaseOf(x)) <= Rank(PhaseOf(x + y))
  {
    if Contains(x, Open) { ContainsExtend(x, y, Open); }
    if Contains(x, Close) { ContainsExtend(x, y, Close); }
  }

  /** While reasoning, new text only extends the reasoning. */
  lemma LiveReasoningGrows(x: string, y: string)
    requires PhaseOf(x) == InReasoning && PhaseOf(x + y) == InReasoning
    ensures LiveSplit(x + y) == Split(LiveSplit(x).thought + y, "")
  {
    IndexOfFound(x, Open);
    IndexOfFound(x, Close);
    IndexOfFound(x + y, Close);
    IndexOfFromPrefix(x, y, Open, 0);
    var s := IndexOf(x, Open);
    assert (x + y)[s + 7..] == x[s + 7..] + y;
  }

  /** Once both tags are in the buffer the reasoning is final and new text
      only extends the answer. */
  lemma LiveAnswerGrows(x: string, y: string)
    requires PhaseOf(x) == AfterReasoning
    ensures LiveSplit(x + y).thought == LiveSplit(x).thought
    ensures LiveSplit(x + y).content == LiveSplit(x).content + y
  {
    IndexOfFound(x, Open);
    IndexOfFound(x, Close);
    IndexOfFromPrefix(x, y, Open, 0);
    IndexOfFromPrefix(x, y, Close, 0);
    var s, e := IndexOf(x, Open), IndexOf(x, Close);
    assert LiveSplit(x + y) == SplitAt(x + y, s, e);
    SplitAtGrows(x, y, s, e);
  }

  lemma SplitAtGrows(x: string, y: string, s: int, e: int)
    requires 0 <= s && s + 7 <= |x| && 0 <= e && e + 8 <= |x|
    ensures SplitAt(x + y, s, e).thought == SplitAt(x, s, e).thought
    ensures SplitAt(x + y, s, e).content == SplitAt(x, s, e).content + y
  {
    SubstringPrefix(x, y, s + 7, e);
    SubstringFromPrefix(x, y, e + 8);
  }

  lemma SubstringFromPrefix(x: string, y: string, a: nat)
    requires a <= |x|
    ensures SubstringFrom(x + y, a) == SubstringFrom(x, a) + y
  {
    assert (x + y)[a..] == x[a..] + y;
  }

  lemma SubstringPrefix(x: string, y: string, a: nat, b: nat)
    requires a <= |x| && b <= |x|
    ensures Substring(x + y, a, b) == Substring(x, a, b)
  {
    if a <= b {
      assert (x + y)[a..b] == x[a..b];
    } else {
      assert (x + y)[b..a] == x[b..a];
    }
  }

  /** `fullText += chunk` over the chunks received so far. */
  function Concat(chunks: seq<string>): string {
    if chunks == [] then [] else Concat(chunks[..|chunks| - 1]) + chunks[|chunks| - 1]
  }

  lemma {:induction false} ConcatAppend(a: seq<string>, b: seq<string>)
    ensures Concat(a + b) == Concat(a) + Concat(b)
    decreases |b|
  {
    if b == [] {
      assert a + b == a;
    } else {
      var b', last := b[..|b| - 1], b[|b| - 1];
      assert (a + b)[..|a + b| - 1] == a + b';
      assert (a + b)[|a + b| - 1] == last;
      ConcatAppend(a, b');
      calc {
        Concat(a + b);
        Concat(a + b') + last;
        Concat(a) + Concat(b') + last;
        Concat(a) + (Concat(b') + last);
      }
    }
  }

  lemma ConcatSmall(x: string, y: string)
    ensures Concat([x]) == x && Concat([x, y]) == x + y
  {
    assert [x, y][..1] == [x];
    assert [x][..0] == [];
  }

  /** Cutting one chunk in two anywhere, even inside a tag, leaves the
      accumulated text, and so every later split, unchanged. */
  lemma RefineChunk(chunks: seq<string>, i: nat, x: string, y: string)
    requires i < |chunks| && chunks[i] == x + y
    ensures Concat(chunks[..i] + [x, y] + chunks[i + 1..]) == Concat(chunks)
  {
    var a, b := chunks[..i], chunks[i + 1..];
    assert chunks == a + [x + y] + b;
    ConcatSmall(x, y);
    ConcatSmall(x + y, y);
    ConcatAppend(a + [x, y], b);
    ConcatAppend(a, [x, y]);
    ConcatAppend(a + [x + y], b);
    ConcatAppend(a, [x + y]);
    var lhs := Concat(a + [x, y] + b);
    assert lhs == Concat(a) + (x + y) + Concat(b);
    assert Concat(chunks) == Concat(a) + (x + y) + Concat(b);
  }

  /** The `for await` loop of sendMessage: accumulate each chunk and show the
      split of the whole buffer. The split shown after chunk i depends only on
      the concatenation of chunks 0..i. */
  method ReadStream(chunks: seq<string>) returns (shown: seq<Split>, fullText: string)
    ensures fullText == Concat(chunks)
    ensures |shown| == |chunks|
    ensures forall i :: 0 <= i < |chunks| ==> shown[i] == LiveSplit(Concat(chunks[..i + 1]))
  {
    fullText, shown := "", [];
    for i := 0 to |chunks|
      invariant fullText == Concat(chunks[..i])
      invariant |shown| == i
      invariant forall j :: 0 <= j < i ==> shown[j] == LiveSplit(Concat(chunks[..j + 1]))
    {
      assert chunks[..i + 1][..i] == chunks[..i];
      fullText := fullText + chunks[i];
      shown := shown + [LiveSplit(fullText)];
    }
    assert chunks[..|chunks|] == chunks;
  }

  /** The example of a split stream: however `preamble<think>abc</think>xyz`
      is cut into chunks, the final display is reasoning `abc`, answer `xyz`. */
  lemma SampleStream(chunks: seq<string>)
    requires Concat(chunks) == "preamble" + Open + "abc" + Close + "xyz"
    ensures LiveSplit(Concat(chunks)) == Split("abc", "xyz")
  {
    var pre, a, b := "preamble", "abc", "xyz";
    TagFacts();
    NoHeadNoContains(pre, Open);
    NoHeadNoContains(pre, Close);
    NoHeadNoContains(a, Close);
    LiveClosedAt(Concat(chunks), pre, a, b);
  }

  lemma LiveClosedAt(buf: string, pre: string, a: string, b: string)
    requires buf == pre + Open + a + Close + b
    requires !Contains(pre, Open) && !Contains(pre, Close) && !Contains(a, Close)
    ensures LiveSplit(buf) == Split(a, b)
  {
    LiveClosed(pre, a, b);
  }

  /** State of the typewriter replay: how much of the reasoning and of the
      answer has been shown, and whether the replay has finished. */
  datatype Typewriter = Typewriter(tIndex: nat, cIndex: nat, thought: string, content: string, done: bool)

  const TypewriterStart := Typewriter(0, 0, "", "", false)

  /** One timer tick of simulateStreaming: three more reasoning characters
      while the reasoning is incomplete, then one more answer character, then
      the end of streaming. */
  function Tick(st: Typewriter, fullThought: string, fullContent: string): Typewriter {
    if st.done then st
    else if st.tIndex < |fullThought| then
      var t := st.tIndex + 3;
      st.(tIndex := t, thought := Take(fullThought, t))
    else if st.cIndex < |fullContent| then
      var c := st.cIndex + 1;
      st.(cIndex := c, content := Take(fullContent, c))
    else st.(done := true)
  }

  function Ticks(st: Typewriter, fullThought: string, fullContent: string, n: nat): Typewriter
    decreases n
  {
    if n == 0 then st else Ticks(Tick(st, fullThought, fullContent), fullThought, fullContent, n - 1)
  }

  /** Number of ticks the reasoning phase takes: the length divided by 3,
      rounded up. */
  function ThoughtTicks(fullThought: string): nat {
    (|fullThought| + 2) / 3
  }

  lemma {:induction false} ThoughtPhase(fullThought: string, fullContent: string, k: nat)
    requires k <= ThoughtTicks(fullThought)
    ensures Ticks(TypewriterStart, fullThought, fullContent, k)
            == Typewriter(3 * k, 0, if k == 0 then "" else Take(fullThought, 3 * k), "", false)
  {
    if k > 0 {
      ThoughtPhase(fullThought, fullContent, k - 1);
      TicksSplit(TypewriterStart, fullThought, fullContent, k - 1);
    }
  }

  lemma {:induction false} TicksSplit(st: Typewriter, fullThought: string, fullContent: string, n: nat)
    ensures Ticks(st, fullThought, fullContent, n + 1)
            == Tick(Ticks(st, fullThought, fullContent, n), fullThought, fullContent)
    decreases n
  {
    if n > 0 {
      TicksSplit(Tick(st, fullThought, fullContent), fullThought, fullContent, n - 1);
    }
  }

  lemma {:induction false} ContentPhase(fullThought: string, fullContent: string, k: nat)
    requires k <= |fullContent|
    ensures Ticks(TypewriterStart, fullThought, fullContent, ThoughtTicks(fullThought) + k)
            == Typewriter(3 * ThoughtTicks(fullThought), k, fullThought, Take(fullContent, k), false)
  {
    var m := ThoughtTicks(fullThought);
    if k == 0 {
      ThoughtPhase(fullThought, fullContent, m);
    } else {
      ContentPhase(fullThought, fullContent, k - 1);
      TicksSplit(TypewriterStart, fullThought, fullContent, m + k - 1);
    }
  }

  /** The replay shows the whole reasoning before any answer character, ends
      with both in full, and stops after exactly ceil(|thought| / 3) +
      |content| + 1 ticks. */
  lemma ReplayCompletes(fullThought: string, fullContent: string)
    ensures var n := ThoughtTicks(fullThought) + |fullContent|;
            var st := Ticks(TypewriterStart, fullThought, fullContent, n);
            st.thought == fullThought && st.content == fullContent && !st.done
            && Ticks(TypewriterStart, fullThought, fullContent, n + 1).done
    ensures forall k :: 0 < k <= ThoughtTicks(fullThought) ==>
              Ticks(TypewriterStart, fullThought, fullContent, k).content == ""
  {
    var n := ThoughtTicks(fullThought) + |fullContent|;
    ContentPhase(fullThought, fullContent, |fullContent|);
    TicksSplit(TypewriterStart, fullThought, fullContent, n);
    forall k | 0 < k <= ThoughtTicks(fullThought)
      ensures Ticks(TypewriterStart, fullThought, fullContent, k).content == ""
    {
      ThoughtPhase(fullThought, fullContent, k);
    }
  }
}
