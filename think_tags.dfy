/**
 * The reasoning-block delimiters the persona prompt asks the model to emit,
 * and the (reasoning, visible answer) pair both splitters produce.
 */
module ThinkTags {
  import opened Text

  const Open: string := "<think>"
  const Close: string := "</think>"

  /** What a splitter shows: the reasoning text and the visible answer. */
  datatype Split = Split(thought: string, content: string)

  lemma TagFacts()
    ensures |Open| == 7 && |Close| == 8
    ensures UniqueHead(Open) && UniqueHead(Close) && Open[0] == Close[0] == '<'
    ensures Open[1] == 't' && Close[1] == '/'
  {
  }

  /** Text without the pattern's first character cannot contain the pattern. */
  lemma NoHeadNoContains(s: string, p: string)
    requires |p| > 0 && forall i :: 0 <= i < |s| ==> s[i] != p[0]
    ensures !Contains(s, p)
  {
    forall i | 0 <= i <= |s| - |p|
      ensures !OccursAt(s, p, i)
    {
      Mismatch(s, p, i, i);
    }
  }

  /** A `</think>` cannot start inside, or straddle, the `<think>` between two
      pieces that hold none. */
  lemma NoCloseAcrossOpen(pre: string, a: string)
    requires !Contains(pre, Close) && !Contains(a, Close)
    ensures !Contains(pre + Open + a, Close)
  {
    TagFacts();
    var u := pre + Open + a;
    var n := |pre|;
    forall i | 0 <= i <= |u| - |Close|
      ensures !OccursAt(u, Close, i)
    {
      if i + |Close| <= n {
        assert u[i..i + |Close|] == pre[i..i + |Close|];
        assert !OccursAt(pre, Close, i);
      } else if i < n {
        assert u[n] == Open[0];
        Mismatch(u, Close, i, n);
      } else if i == n {
        assert u[i + 1] == Open[1];
        Mismatch(u, Close, i, i + 1);
      } else if i < n + |Open| {
        assert u[i] == Open[i - n];
        Mismatch(u, Close, i, i);
      } else {
        assert u[i..i + |Close|] == a[i - n - |Open|..i - n - |Open| + |Close|];
        assert !OccursAt(a, Close, i - n - |Open|);
      }
    }
  }

  /** In `pre + <think> + a + </think> + b`, with no tag in `pre` and no
      `</think>` in `a`, the first tags are the two written out. */
  lemma TagIndices(pre: string, a: string, b: string)
    requires !Contains(pre, Open) && !Contains(pre, Close) && !Contains(a, Close)
    ensures IndexOf(pre + Open + a + Close + b, Open) == |pre|
    ensures IndexOf(pre + Open + a + Close + b, Close) == |pre| + 7 + |a|
  {
    TagFacts();
    var buf := pre + Open + a + Close + b;
    assert buf == pre + Open + (a + Close + b);
    IndexOfAfter(pre, Open, a + Close + b);
    NoCloseAcrossOpen(pre, a);
    IndexOfAfter(pre + Open + a, Close, b);
  }
}
