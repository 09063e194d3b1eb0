/**
 * The dream detail page: it splits a stored analysis with the non-greedy
 * regular expression `<think>([\s\S]*?)<\/think>` (first match only), maps a
 * mood label to an icon and a colour, and flips one display flag.
 */
module Detail {
  import opened Text
  import opened ThinkTags
  import ChatStream
  import opened Wrappers

  /** A `<think>` at `i` closed by a `</think>` at `j`: a match of the pattern. */
  predicate BlockAt(a: string, i: int, j: int) {
    OccursAt(a, Open, i) && i + 7 <= j && OccursAt(a, Close, j)
  }

  datatype Block = NoBlock | Block(start: nat, end: nat)

  /** The scanner for the pattern: the first `<think>`, then the first
      `</think>` after it. */
  function FirstBlock(a: string): Block {
    var s := IndexOf(a, Open);
    if s == -1 then NoBlock
    else
      var e := IndexOfFrom(a, Close, s + 7);
      if e == -1 then NoBlock else Block(s, e)
  }

  /** The scanner finds exactly the match a leftmost, lazy regular expression
      engine reports: a match exists iff the scanner finds one, its start is
      the leftmost start of any match, and its end the nearest end for that
      start. */
  lemma FirstBlockIsRegexMatch(a: string)
    ensures FirstBlock(a).NoBlock? <==> forall i, j :: !BlockAt(a, i, j)
    ensures FirstBlock(a).Block? ==>
              BlockAt(a, FirstBlock(a).start, FirstBlock(a).end)
              && forall i, j :: BlockAt(a, i, j) ==>
                   FirstBlock(a).start < i
                   || (FirstBlock(a).start == i && FirstBlock(a).end <= j)
  {
    var s := IndexOf(a, Open);
    IndexOfFromMinimal(a, Open, 0);
    if s != -1 {
      IndexOfFromMinimal(a, Close, s + 7);
    }
    var b := FirstBlock(a);
    if b.Block? {
      assert BlockAt(a, b.start, b.end);
    }
    forall i, j | BlockAt(a, i, j)
      ensures b.Block? && (b.start < i || (b.start == i && b.end <= j))
    {
      assert OccursAt(a, Open, i);
      assert s != -1 && s <= i;
      assert OccursAt(a, Close, j) && s + 7 <= j;
    }
  }

  /** The stored-record split: reasoning is the trimmed inside of the first
      block; the answer is the analysis with only that block cut out
      (preamble kept), trimmed. With no block the analysis is kept as it is. */
  function StoredSplit(analysis: string): Split {
    StoredAt(analysis, FirstBlock(analysis))
  }

  /** The stored split for a block already located. */
  function StoredAt(analysis: string, b: Block): Split
    requires b.Block? ==> b.start + 7 <= b.end && b.end + 8 <= |analysis|
  {
    match b
    case NoBlock => Split("", analysis)
    case Block(s, e) =>
      Split(Trim(analysis[s + 7..e]), Trim(analysis[..s] + analysis[e + 8..]))
  }

  lemma StoredNoBlock(analysis: string)
    requires forall i, j :: !BlockAt(analysis, i, j)
    ensures StoredSplit(analysis) == Split("", analysis)
  {
    FirstBlockIsRegexMatch(analysis);
  }

  /** With a block, the reasoning is the trimmed text of the leftmost,
      shortest block and the answer is everything around it, trimmed. */
  lemma StoredWithBlock(analysis: string, i: nat, j: nat)
    requires BlockAt(analysis, i, j)
    requires forall i', j' :: BlockAt(analysis, i', j') ==> i < i' || (i == i' && j <= j')
    ensures StoredSplit(analysis)
            == Split(Trim(analysis[i + 7..j]), Trim(analysis[..i] + analysis[j + 8..]))
  {
    FirstBlockAt(analysis, i, j);
    assert StoredSplit(analysis) == StoredAt(analysis, Block(i, j));
  }

  lemma FirstBlockAt(analysis: string, i: nat, j: nat)
    requires BlockAt(analysis, i, j)
    requires forall i', j' :: BlockAt(analysis, i', j') ==> i < i' || (i == i' && j <= j')
    ensures FirstBlock(analysis) == Block(i, j)
  {
    FirstBlockIsRegexMatch(analysis);
    var b := FirstBlock(analysis);
    assert b.Block?;
    assert BlockAt(analysis, b.start, b.end);
  }

  /** For `pre + <think> + a + </think> + b` with no tag where it would
      end the block early, the stored split trims `a` and keeps the preamble. */
  lemma StoredClosed(pre: string, a: string, b: string)
    requires !Contains(pre, Open) && !Contains(pre, Close) && !Contains(a, Close)
    ensures StoredSplit(pre + Open + a + Close + b) == Split(Trim(a), Trim(pre + b))
  {
    var buf := pre + Open + a + Close + b;
    FirstBlockClosed(pre, a, b);
    assert StoredSplit(buf) == StoredAt(buf, Block(|pre|, |pre| + 7 + |a|));
    StoredAtBlock(buf, pre, a, b);
  }

  lemma FirstBlockClosed(pre: string, a: string, b: string)
    requires !Contains(pre, Open) && !Contains(pre, Close) && !Contains(a, Close)
    ensures FirstBlock(pre + Open + a + Close + b) == Block(|pre|, |pre| + 7 + |a|)
  {
    var buf := pre + Open + a + Close + b;
    TagIndices(pre, a, b);
    IndexOfFromMinimal(buf, Close, 0);
    IndexOfFromSkip(buf, Close, 0, |pre| + 7);
  }

  lemma StoredAtBlock(buf: string, pre: string, a: string, b: string)
    requires buf == pre + Open + a + Close + b
    ensures StoredAt(buf, Block(|pre|, |pre| + 7 + |a|)) == Split(Trim(a), Trim(pre + b))
  {
    var s, e := |pre|, |pre| + 7 + |a|;
    assert buf[s + 7..e] == a;
    assert buf[..s] + buf[e + 8..] == pre + b;
  }

  /** Where the two splitters agree: without `<think>` both give the whole
      text as answer; for a well-formed block whose preamble is blank, the
      stored split is the live split with both parts trimmed. */
  lemma SplittersAgree(buf: string, pre: string, a: string, b: string)
    ensures !Contains(buf, Open) ==>
              StoredSplit(buf) == ChatStream.LiveSplit(buf) == Split("", buf)
    ensures buf == pre + Open + a + Close + b && AllSpace(pre)
            && !Contains(pre, Open) && !Contains(pre, Close) && !Contains(a, Close) ==>
              var live := ChatStream.LiveSplit(buf);
              StoredSplit(buf) == Split(Trim(live.thought), Trim(live.content))
  {
    if !Contains(buf, Open) {
      ChatStream.LiveNoOpen(buf);
      IndexOfFound(buf, Open);
    }
    if buf == pre + Open + a + Close + b && AllSpace(pre)
       && !Contains(pre, Open) && !Contains(pre, Close) && !Contains(a, Close) {
      StoredClosed(pre, a, b);
      ChatStream.LiveClosedAt(buf, pre, a, b);
      TrimStartSpacePrefix(pre, b);
    }
  }

  /** Where they differ: while a block is unclosed the live split shows the
      reasoning and no answer, but the stored split finds no block and shows
      the whole text as answer. */
  lemma SplittersDisagreeUnclosed(pre: string, a: string)
    requires !Contains(pre, Open) && !Contains(pre + Open + a, Close)
    ensures ChatStream.LiveSplit(pre + Open + a) == Split(a, "")
    ensures StoredSplit(pre + Open + a) == Split("", pre + Open + a)
  {
    ChatStream.LiveUnclosed(pre, a);
    var buf := pre + Open + a;
    IndexOfFound(buf, Close);
    StoredNoBlock(buf);
  }

  const IconMap: map<string, string> := map[
    "焦虑" := "😰", "恐惧" := "😱", "喜悦" := "😊", "悲伤" := "😢", "困惑" := "😕",
    "平静" := "😌", "愤怒" := "😠", "羞耻" := "😳", "unknown" := "😐"]

  const ColorMap: map<string, string> := map[
    "焦虑" := "#FFB74D", "恐惧" := "#FF8A65", "喜悦" := "#81C784", "悲伤" := "#64B5F6",
    "困惑" := "#BA68C8", "平静" := "#4DB6AC", "愤怒" := "#E57373", "羞耻" := "#F06292",
    "unknown" := "#9E9E9E"]

  /** The eight moods of the picker and `unknown`. */
  const KnownMoods: set<string> := {"焦虑", "恐惧", "喜悦", "悲伤", "困惑", "平静", "愤怒", "羞耻", "unknown"}

  /** `iconMap[mood] || '😐'`. */
  function MoodIcon(mood: string): string {
    if mood in IconMap && IconMap[mood] != "" then IconMap[mood] else "😐"
  }

  /** `colorMap[mood] || '#9E9E9E'`. */
  function MoodColor(mood: string): string {
    if mood in ColorMap && ColorMap[mood] != "" then ColorMap[mood] else "#9E9E9E"
  }

  /** A label outside the table falls back to the neutral face and grey; a
      label in the table gets its own non-empty entry, and every colour is a
      `#RRGGBB` string. */
  lemma MoodLookup(mood: string)
    ensures mood !in KnownMoods ==> MoodIcon(mood) == "😐" && MoodColor(mood) == "#9E9E9E"
    ensures mood in KnownMoods ==>
              MoodIcon(mood) == IconMap[mood] && MoodIcon(mood) != ""
              && MoodColor(mood) == ColorMap[mood]
    ensures |MoodColor(mood)| == 7 && MoodColor(mood)[0] == '#'
  {
  }

  /** The nine labels get nine different colours. */
  lemma MoodColorsDistinct(m1: string, m2: string)
    requires m1 in KnownMoods && m2 in KnownMoods && m1 != m2
    ensures MoodColor(m1) != MoodColor(m2)
  {
  }

  /** The fields of a stored dream the page reads (a missing analysis or
      mood is the empty string). */
  datatype StoredDream = StoredDream(id: string, content: string, analysis: string,
                                     summary: string, mood: string)

  /** What the page shows: the stored fields with `thought` added and
      `content` overwritten by the parsed answer. */
  datatype DreamView = DreamView(id: string, content: string, analysis: string,
                                 summary: string, mood: string, thought: string)

  function ViewOf(d: StoredDream): (v: DreamView)
    ensures v.thought == StoredSplit(d.analysis).thought
    ensures v.content == StoredSplit(d.analysis).content
    ensures v.id == d.id && v.analysis == d.analysis && v.summary == d.summary && v.mood == d.mood
  {
    var split := StoredSplit(d.analysis);
    DreamView(d.id, split.content, d.analysis, d.summary, d.mood, split.thought)
  }

  class DetailPage {
    var dream: Option<DreamView>
    var isLoading: bool
    var isThoughtExpanded: bool
    var moodIcon: string
    var moodColor: string

    constructor ()
      ensures dream == None && isLoading && !isThoughtExpanded
      ensures moodIcon == "" && moodColor == ""
    {
      dream, isLoading, isThoughtExpanded := None, true, false;
      moodIcon, moodColor := "", "";
    }

    /** loadDreamDetail, given what the store returned for the id (`None` for
        a missing record or a failed read). */
    method LoadDreamDetail(fetched: Option<StoredDream>)
      modifies this
      ensures !isLoading && isThoughtExpanded == old(isThoughtExpanded)
      ensures fetched.None? ==> dream == old(dream) && moodIcon == old(moodIcon)
                                && moodColor == old(moodColor)
      ensures fetched.Some? ==>
                dream == Some(ViewOf(fetched.value))
                && moodIcon == MoodIcon(fetched.value.mood)
                && moodColor == MoodColor(fetched.value.mood)
    {
      isLoading := true;
      if fetched.Some? {
        var d := fetched.value;
        dream := Some(ViewOf(d));
        moodIcon, moodColor := MoodIcon(d.mood), MoodColor(d.mood);
      }
      isLoading := false;
    }

    /** Flips the reasoning panel and nothing else. */
    method ToggleThought()
      modifies this
      ensures isThoughtExpanded == !old(isThoughtExpanded)
      ensures dream == old(dream) && isLoading == old(isLoading)
      ensures moodIcon == old(moodIcon) && moodColor == old(moodColor)
    {
      isThoughtExpanded := !isThoughtExpanded;
    }
  }
}
