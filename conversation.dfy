/**
 * Conversation bookkeeping: the title and preview derived from a message,
 * the record of a new conversation, and saving messages into the two
 * collections (conversations and chat messages) of an in-memory store whose
 * individual writes may fail.
 */
module Conversation {
  import opened Text
  import opened Wrappers

  datatype Role = User | Assistant

  /** A stored chat message; a missing `thought` is `""`, a missing
      `isThoughtExpanded` is `false`. */
  datatype ChatMessage = ChatMessage(id: string, role: Role, content: string, thought: string,
                                     isThoughtExpanded: bool, timestamp: int)

  /** A conversation record; a missing mood is `""`, a missing clarity 0. */
  datatype ConversationRecord = ConversationRecord(title: string, preview: string, messageCount: nat,
                                                   lastMessageTime: int, createTime: int,
                                                   mood: string, clarity: int, isArchived: bool)

  /** A document of the chat-message collection: the message, the id of its
      conversation and the time it was written. */
  datatype StoredMessage = StoredMessage(conversationId: string, message: ChatMessage, createTime: int)

  // ---------------------------------------------------------------------
  // Preview

  /** `text.substring(0, 50) + (text.length > 50 ? '...' : '')`. */
  function Preview(text: string): string {
    Take(text, 50) + (if |text| > 50 then "..." else "")
  }

  /** A text of at most 50 characters is its own preview; a longer one is
      cut to its first 50 characters and marked with `...`. */
  lemma PreviewFacts(text: string)
    ensures |text| <= 50 ==> Preview(text) == text
    ensures |text| > 50 ==> |Preview(text)| == 53 && Preview(text)[..50] == text[..50]
                            && Preview(text)[50..] == "..."
    ensures |Preview(text)| <= 53
  {
  }

  // ---------------------------------------------------------------------
  // Title (generateTitle)

  /** The characters the title patterns refuse: `，。！？`. */
  predicate IsStop(c: char) {
    c == '，' || c == '。' || c == '！' || c == '？'
  }

  /** Length of the run of non-stop characters starting at `j`. */
  function Run(s: string, j: nat): nat
    decreases |s| - j
  {
    if j >= |s| || IsStop(s[j]) then 0 else 1 + Run(s, j + 1)
  }

  /** The run is maximal: its characters are not stops and it ends at the
      end of the text or at a stop. */
  lemma {:induction false} RunSpec(s: string, j: nat)
    ensures j + Run(s, j) <= |s| || (j >= |s| && Run(s, j) == 0)
    ensures forall k :: j <= k < j + Run(s, j) ==> !IsStop(s[k])
    ensures j + Run(s, j) < |s| ==> IsStop(s[j + Run(s, j)])
    decreases |s| - j
  {
    if j < |s| && !IsStop(s[j]) {
      RunSpec(s, j + 1);
    }
  }

  /** A pattern `(?:t1|t2|t3)([^，。！？]{2,10})` whose alternatives all
      have length `width`. */
  datatype Pattern = Pattern(triggers: seq<string>, width: nat)

  /** `/梦(?:见|到|里)([^，。！？]{2,10})/` */
  const DreamOf := Pattern(["梦见", "梦到", "梦里"], 2)
  /** `/(?:看到|遇见|发现)([^，。！？]{2,10})/` */
  const SawFound := Pattern(["看到", "遇见", "发现"], 2)
  /** `/(?:在|去|回)([^，。！？]{2,10})/` */
  const AtPlace := Pattern(["在", "去", "回"], 1)
  const Patterns := [DreamOf, SawFound, AtPlace]

  /** The regular expression matches starting at `i`: a trigger, then at
      least two non-stop characters. */
  predicate MatchAt(s: string, pat: Pattern, i: nat) {
    i + pat.width <= |s|
    && (exists k :: 0 <= k < |pat.triggers| && OccursAt(s, pat.triggers[k], i)
                    && |pat.triggers[k]| == pat.width)
    && Run(s, i + pat.width) >= 2
  }

  /** The capture group of the match at `i`: the run after the trigger,
      greedy up to ten characters. */
  function Group(s: string, pat: Pattern, i: nat): (g: string)
    requires i + pat.width <= |s|
    ensures |g| <= 10
  {
    RunSpec(s, i + pat.width);
    var j := i + pat.width;
    s[j..j + Min(10, Run(s, j))]
  }

  /** The leftmost match at or after `i`. */
  function Scan(s: string, pat: Pattern, i: nat): Option<nat>
    decreases |s| - i
  {
    if i >= |s| then None
    else if MatchAt(s, pat, i) then Some(i)
    else Scan(s, pat, i + 1)
  }

  /** Scan finds the leftmost match, and finds none exactly when there is
      none. */
  lemma {:induction false} ScanIsLeftmost(s: string, pat: Pattern, i: nat)
    ensures Scan(s, pat, i).None? <==> forall j :: i <= j ==> !MatchAt(s, pat, j)
    ensures Scan(s, pat, i).Some? ==>
              var m := Scan(s, pat, i).value;
              i <= m && MatchAt(s, pat, m) && forall j :: i <= j < m ==> !MatchAt(s, pat, j)
    decreases |s| - i
  {
    if i < |s| && !MatchAt(s, pat, i) {
      ScanIsLeftmost(s, pat, i + 1);
    }
  }

  /** The `for (const pattern of dreamPatterns)` loop: the index of the
      first pattern that matches anywhere, with its leftmost match. */
  function FirstMatch(t: string, pats: seq<Pattern>): Option<(nat, nat)> {
    if pats == [] then None
    else match Scan(t, pats[0], 0)
      case Some(i) => Some((0, i))
      case None =>
        match FirstMatch(t, pats[1..])
        case Some(m) => Some((m.0 + 1, m.1))
        case None => None
  }

  /** The first matching pattern is the first that matches anywhere, none is
      found exactly when none matches, and the position is the leftmost
      match of that pattern. */
  lemma {:induction false} FirstMatchFacts(t: string, pats: seq<Pattern>)
    ensures FirstMatch(t, pats).None? <==>
              forall p: nat, j: nat :: p < |pats| ==> !MatchAt(t, pats[p], j)
    ensures FirstMatch(t, pats).Some? ==>
              var (p, i) := FirstMatch(t, pats).value;
              p < |pats| && MatchAt(t, pats[p], i)
              && (forall q: nat, j: nat :: q < p ==> !MatchAt(t, pats[q], j))
              && (forall j: nat :: j < i ==> !MatchAt(t, pats[p], j))
  {
    if pats != [] {
      ScanIsLeftmost(t, pats[0], 0);
      if Scan(t, pats[0], 0).None? {
        FirstMatchFacts(t, pats[1..]);
        forall p: nat | 0 < p < |pats| ensures pats[p] == pats[1..][p - 1] {
        }
      }
    }
  }

  /** The trimmed capture group of the first matching pattern. */
  function PatternTitle(t: string): Option<string> {
    match FirstMatch(t, Patterns)
    case Some((p, i)) =>
      if p < |Patterns| && i + Patterns[p].width <= |t| then Some(Trim(Group(t, Patterns[p], i)))
      else None
    case None => None
  }

  function Title(content: string): string {
    var t := Trim(content);
    if |t| <= 20 then (if t == "" then "新对话" else t)
    else match PatternTitle(t)
      case Some(g) => g
      case None => t[..20] + "..."
  }

  /** The three ways a title is made: a short input is its own title (or
      `新对话` when blank); otherwise the first pattern that matches gives
      the trimmed group of its leftmost match, at most ten characters;
      otherwise the first twenty characters and `...`. */
  lemma TitleCases(content: string)
    ensures var t := Trim(content);
            (|t| <= 20 ==> Title(content) == if t == "" then "新对话" else t)
            && (|t| > 20 && (forall p: nat, j: nat :: p < |Patterns| ==> !MatchAt(t, Patterns[p], j)) ==>
                  Title(content) == t[..20] + "...")
            && (|t| > 20 && FirstMatch(t, Patterns).Some? ==>
                  var (p, i) := FirstMatch(t, Patterns).value;
                  p < |Patterns| && MatchAt(t, Patterns[p], i)
                  && (forall q: nat, j: nat :: q < p ==> !MatchAt(t, Patterns[q], j))
                  && (forall j: nat :: j < i ==> !MatchAt(t, Patterns[p], j))
                  && Title(content) == Trim(Group(t, Patterns[p], i))
                  && |Title(content)| <= 10)
    ensures |Title(content)| <= 23
  {
    var t := Trim(content);
    FirstMatchFacts(t, Patterns);
    if FirstMatch(t, Patterns).Some? {
      var (p, i) := FirstMatch(t, Patterns).value;
      TrimShorter(Group(t, Patterns[p], i));
    }
  }

  /** The first pattern wins: when the dream pattern matches anywhere, the
      title comes from its leftmost match whatever the other patterns find. */
  lemma TitlePrefersDreamPattern(content: string, i: nat)
    requires |Trim(content)| > 20
    requires MatchAt(Trim(content), DreamOf, i)
    requires forall j: nat :: j < i ==> !MatchAt(Trim(content), DreamOf, j)
    ensures Title(content) == Trim(Group(Trim(content), DreamOf, i))
  {
    var t := Trim(content);
    ScanIsLeftmost(t, DreamOf, 0);
    var m := Scan(t, DreamOf, 0).value;
    assert !(m < i) && !(i < m);
  }

  // ---------------------------------------------------------------------
  // Records and the store

  /** The record createConversation adds for a first message at time `now`. */
  function NewConversation(firstMessage: string, mood: string, clarity: int, now: int): (r: ConversationRecord)
    ensures r.messageCount == 0 && r.lastMessageTime == r.createTime == now && !r.isArchived
    ensures r.title == Title(firstMessage) && r.preview == Preview(firstMessage)
    ensures r.mood == mood && r.clarity == clarity
  {
    ConversationRecord(Title(firstMessage), Preview(firstMessage), 0, now, now, mood, clarity, false)
  }

  /** The documents the batch insert of saveMessages writes: one per
      message whose insert did not fail, in order. */
  function Inserted(conversationId: string, msgs: seq<ChatMessage>, fails: seq<bool>, now: int): seq<StoredMessage>
    requires |fails| == |msgs|
  {
    if msgs == [] then []
    else
      var n := |msgs| - 1;
      Inserted(conversationId, msgs[..n], fails[..n], now)
      + (if fails[n] then [] else [StoredMessage(conversationId, msgs[n], now)])
  }

  function Failures(fails: seq<bool>): (r: nat)
    ensures r <= |fails|
  {
    if fails == [] then 0 else Failures(fails[..|fails| - 1]) + (if fails[|fails| - 1] then 1 else 0)
  }

  /** Every insert is attempted: each message whose own insert succeeded is
      stored, with its conversation id and the batch time, whatever failed
      before it; one document per success, and nothing else. */
  lemma {:induction false} InsertedFacts(conversationId: string, msgs: seq<ChatMessage>, fails: seq<bool>, now: int)
    requires |fails| == |msgs|
    ensures var ins := Inserted(conversationId, msgs, fails, now);
            |ins| == |msgs| - Failures(fails)
            && (forall i :: 0 <= i < |msgs| && !fails[i] ==> StoredMessage(conversationId, msgs[i], now) in ins)
            && (forall d :: d in ins ==> d.conversationId == conversationId && d.createTime == now
                                         && d.message in msgs)
  {
    if msgs != [] {
      var n := |msgs| - 1;
      InsertedFacts(conversationId, msgs[..n], fails[..n], now);
      assert fails[..n] + [fails[n]] == fails;
      assert msgs[..n] + [msgs[n]] == msgs;
      var ins := Inserted(conversationId, msgs, fails, now);
      forall i | 0 <= i < |msgs| && !fails[i]
        ensures StoredMessage(conversationId, msgs[i], now) in ins
      {
        if i < n {
          assert msgs[..n][i] == msgs[i] && fails[..n][i] == fails[i];
        }
      }
    }
  }

  /** The stored record after a successful update by saveMessages. */
  function Summarised(rec: ConversationRecord, msgs: seq<ChatMessage>, now: int): (r: ConversationRecord)
    requires msgs != []
    ensures r.messageCount == |msgs| && r.lastMessageTime == now
    ensures r.preview == Preview(msgs[|msgs| - 1].content)
    ensures r.title == rec.title && r.createTime == rec.createTime && r.mood == rec.mood
            && r.clarity == rec.clarity && r.isArchived == rec.isArchived
  {
    rec.(lastMessageTime := now, messageCount := |msgs|, preview := Preview(msgs[|msgs| - 1].content))
  }

  /** The two collections. An `update` of a conversation id with no record
      updates nothing and still succeeds, as the database resolves it with
      no document updated; only a failing call is reported. */
  class ConversationStore {
    var conversations: map<string, ConversationRecord>
    var messages: seq<StoredMessage>

    constructor ()
      ensures conversations == map[] && messages == []
    {
      conversations, messages := map[], [];
    }

    /** createConversation: the store gives the new record the id `newId`;
        a failed add is reported and writes nothing. */
    method CreateConversation(firstMessage: string, mood: string, clarity: int, now: int,
                              newId: string, addFails: bool) returns (r: Result<string>)
      modifies this
      ensures messages == old(messages)
      ensures addFails ==> r.Failure? && conversations == old(conversations)
      ensures !addFails ==> r == Success(newId)
                            && conversations == old(conversations)[newId := NewConversation(firstMessage, mood, clarity, now)]
    {
      var rec := NewConversation(firstMessage, mood, clarity, now);
      if addFails {
        return Failure("add failed");
      }
      conversations := conversations[newId := rec];
      r := Success(newId);
    }

    /** saveMessage: store the message, then count it and refresh the
        preview. A failed add stops before the update; a failed update
        leaves the stored message in place. The two clock readings are
        `createdAt`, taken for the stored message, and `updatedAt`, taken
        after it is stored for the record's `lastMessageTime`. */
    method SaveMessage(conversationId: string, message: ChatMessage, createdAt: int, updatedAt: int,
                       addFails: bool, updateFails: bool) returns (r: Result<()>)
      modifies this
      ensures addFails ==> r.Failure? && unchanged(this)
      ensures !addFails ==> messages == old(messages) + [StoredMessage(conversationId, message, createdAt)]
      ensures !addFails && updateFails ==> r.Failure? && conversations == old(conversations)
      ensures !addFails && !updateFails ==> r == Success(())
      ensures !addFails && !updateFails && conversationId !in old(conversations) ==>
                conversations == old(conversations)
      ensures !addFails && !updateFails && conversationId in old(conversations) ==>
                conversations == old(conversations)[conversationId :=
                     old(conversations)[conversationId].(lastMessageTime := updatedAt,
                       messageCount := old(conversations)[conversationId].messageCount + 1,
                       preview := Preview(message.content))]
    {
      if addFails {
        return Failure("add failed");
      }
      messages := messages + [StoredMessage(conversationId, message, createdAt)];
      if updateFails {
        return Failure("update failed");
      }
      if conversationId in conversations {
        var rec := conversations[conversationId];
        conversations := conversations[conversationId := rec.(lastMessageTime := updatedAt,
                                                              messageCount := rec.messageCount + 1,
                                                              preview := Preview(message.content))];
      }
      r := Success(());
    }

    /** saveMessages: insert one by one, tolerating each failure
        (`fails[i]` says whether the i-th insert fails), then set the count
        to the number of messages given. `successCount` is the number of
        inserts that succeeded; the source only logs it. Only a failed
        update is reported. */
    method SaveMessages(conversationId: string, msgs: seq<ChatMessage>, now: int,
                        fails: seq<bool>, updateFails: bool) returns (r: Result<()>, successCount: nat)
      requires |fails| == |msgs|
      modifies this
      ensures messages == old(messages) + Inserted(conversationId, msgs, fails, now)
      ensures successCount == |msgs| - Failures(fails)
      ensures msgs == [] ==> r == Success(()) && conversations == old(conversations)
      ensures msgs != [] && updateFails ==> r.Failure? && conversations == old(conversations)
      ensures msgs != [] && !updateFails ==> r == Success(())
      ensures msgs != [] && !updateFails && conversationId !in old(conversations) ==>
                conversations == old(conversations)
      ensures msgs != [] && !updateFails && conversationId in old(conversations) ==>
                conversations == old(conversations)[conversationId :=
                                      Summarised(old(conversations)[conversationId], msgs, now)]
    {
      successCount := 0;
      for i := 0 to |msgs|
        invariant messages == old(messages) + Inserted(conversationId, msgs[..i], fails[..i], now)
        invariant successCount == i - Failures(fails[..i])
        invariant Failures(fails[..i]) <= i
        invariant conversations == old(conversations)
      {
        assert msgs[..i + 1][..i] == msgs[..i] && fails[..i + 1][..i] == fails[..i];
        if !fails[i] {
          messages := messages + [StoredMessage(conversationId, msgs[i], now)];
          successCount := successCount + 1;
        }
      }
      assert msgs[..|msgs|] == msgs && fails[..|fails|] == fails;
      if |msgs| > 0 {
        if updateFails {
          return Failure("update failed"), successCount;
        }
        if conversationId in conversations {
          conversations := conversations[conversationId := Summarised(conversations[conversationId], msgs, now)];
        }
      }
      r := Success(());
    }
  }
}
