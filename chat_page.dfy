/**
 * The chat page: its message list and how the three list operations change
 * it, the send guard, the message list handed to the model, the system
 * prompt, and the send flow that streams the reply into the last message.
 */
module ChatPage {
  import opened Text
  import opened Wrappers
  import opened ThinkTags
  import ChatStream
  import Memory
  import opened Conversation

  /** A message on screen; a missing `thought` is `""`, a missing flag `false`. */
  datatype Message = Message(id: string, role: Role, content: string, thought: string,
                             isThoughtExpanded: bool, isStreaming: bool)

  /** The greeting shown in a new conversation or after a failed load. */
  const Welcome := Message("system_welcome", Assistant,
                           "我是 Aletheia。请告诉我，此刻你心中正压抑着什么？",
                           "初始化荣格心理模型...\n校准潜意识参数...", false, false)

  // ---------------------------------------------------------------------
  // The three list operations

  /** `Partial<Message>` as updateLastMessage uses it: the fields to overwrite. */
  datatype Patch = Patch(thought: Option<string>, content: Option<string>, isStreaming: Option<bool>)

  /** `{ ...msg, ...updates }`: a patch never touches id, role or the
      expanded flag. */
  function Apply(m: Message, p: Patch): (r: Message)
    ensures r.id == m.id && r.role == m.role && r.isThoughtExpanded == m.isThoughtExpanded
  {
    m.(thought := if p.thought.Some? then p.thought.value else m.thought,
       content := if p.content.Some? then p.content.value else m.content,
       isStreaming := if p.isStreaming.Some? then p.isStreaming.value else m.isStreaming)
  }

  /** The list after updateLastMessage. */
  function UpdatedLast(ms: seq<Message>, p: Patch): seq<Message> {
    if ms == [] then ms else ms[..|ms| - 1] + [Apply(ms[|ms| - 1], p)]
  }

  /** updateLastMessage keeps the length, leaves every message but the last
      as it was, and does nothing to an empty list. */
  lemma UpdatedLastFacts(ms: seq<Message>, p: Patch)
    ensures |UpdatedLast(ms, p)| == |ms|
    ensures forall i :: 0 <= i < |ms| - 1 ==> UpdatedLast(ms, p)[i] == ms[i]
    ensures ms != [] ==> UpdatedLast(ms, p)[|ms| - 1] == Apply(ms[|ms| - 1], p)
    ensures ms == [] ==> UpdatedLast(ms, p) == []
  {
  }

  /** Updating the last message of `base + [m]` is patching `m`. */
  lemma UpdatedLastAppend(base: seq<Message>, m: Message, p: Patch)
    ensures UpdatedLast(base + [m], p) == base + [Apply(m, p)]
  {
    assert (base + [m])[..|base|] == base;
  }

  /** The list after toggleThought(id). */
  function Toggled(ms: seq<Message>, id: string): seq<Message> {
    seq(|ms|, i requires 0 <= i < |ms| =>
      if ms[i].id == id then ms[i].(isThoughtExpanded := !ms[i].isThoughtExpanded) else ms[i])
  }

  /** toggleThought flips the flag of exactly the messages with that id and
      changes nothing else; toggling twice restores the list. */
  lemma ToggledFacts(ms: seq<Message>, id: string)
    ensures |Toggled(ms, id)| == |ms|
    ensures forall i :: 0 <= i < |ms| ==>
              Toggled(ms, id)[i].(isThoughtExpanded := ms[i].isThoughtExpanded) == ms[i]
              && (Toggled(ms, id)[i].isThoughtExpanded != ms[i].isThoughtExpanded <==> ms[i].id == id)
    ensures Toggled(Toggled(ms, id), id) == ms
  {
  }

  // ---------------------------------------------------------------------
  // The send guard and the model input

  /** sendMessage goes on only with non-blank input and no stream running. */
  predicate CanSend(inputValue: string, isStreaming: bool) {
    Trim(inputValue) != "" && !isStreaming
  }

  datatype Turn = Turn(role: string, content: string)

  function RoleName(r: Role): string {
    match r
    case User => "user"
    case Assistant => "assistant"
  }

  /** `filter(m => m.content && m.content.trim().length > 0)`, then
      `map(m => ({ role, content }))`. */
  function History(ms: seq<Message>): seq<Turn> {
    if ms == [] then []
    else
      (if Trim(ms[0].content) != "" then [Turn(RoleName(ms[0].role), ms[0].content)] else [])
      + History(ms[1..])
  }

  /** The history keeps the order of the list: the history of a
      concatenation is the concatenation of the histories. */
  lemma {:induction false} HistoryAppend(a: seq<Message>, b: seq<Message>)
    ensures History(a + b) == History(a) + History(b)
  {
    if a != [] {
      assert (a + b)[1..] == a[1..] + b;
      HistoryAppend(a[1..], b);
    } else {
      assert a + b == b;
    }
  }

  /** Every turn of the history is a user or assistant turn with non-blank
      content, and there are no more turns than messages. */
  lemma {:induction false} HistoryFacts(ms: seq<Message>)
    ensures |History(ms)| <= |ms|
    ensures forall k :: 0 <= k < |History(ms)| ==>
              Trim(History(ms)[k].content) != ""
              && (History(ms)[k].role == "user" || History(ms)[k].role == "assistant")
  {
    if ms != [] {
      HistoryFacts(ms[1..]);
    }
  }

  /** `if (history[0].role === 'assistant') history.shift()`. */
  function Shift(h: seq<Turn>): seq<Turn> {
    if |h| > 0 && h[0].role == "assistant" then h[1..] else h
  }

  /** finalMessages: the system turn, then the history. */
  function ModelInput(ms: seq<Message>, prompt: string): seq<Turn> {
    [Turn("system", prompt)] + Shift(History(ms))
  }

  /** The system turn comes first and is the only one; the rest is the
      history in order with at most its first turn, an assistant turn,
      removed; every later turn has non-blank content. */
  lemma ModelInputFacts(ms: seq<Message>, prompt: string)
    ensures var r := ModelInput(ms, prompt);
            var h := History(ms);
            r[0] == Turn("system", prompt)
            && (forall k :: 1 <= k < |r| ==> r[k].role != "system" && Trim(r[k].content) != "")
            && (r[1..] == h || (h != [] && h[0].role == "assistant" && r[1..] == h[1..]))
  {
    HistoryFacts(ms);
    var r := ModelInput(ms, prompt);
    var h := History(ms);
    assert r[1..] == Shift(h);
    forall k | 1 <= k < |r| ensures r[k].role != "system" && Trim(r[k].content) != "" {
      if |h| > 0 && h[0].role == "assistant" {
        assert r[k] == h[k];
      } else {
        assert r[k] == h[k - 1];
      }
    }
  }

  /** When the user's new message is followed by an empty placeholder, the
      input handed to the model ends with the user's turn. */
  lemma ModelInputEndsWithUser(ms: seq<Message>, user: Message, placeholder: Message, prompt: string)
    requires user.role == User && Trim(user.content) != "" && placeholder.content == ""
    ensures var r := ModelInput(ms + [user, placeholder], prompt);
            r[|r| - 1] == Turn("user", user.content)
  {
    HistoryAppend(ms, [user, placeholder]);
    assert [user, placeholder][1..] == [placeholder];
    assert [placeholder][1..] == [];
    assert Trim(placeholder.content) == "";
    assert History([placeholder]) == [];
    assert History([user, placeholder]) == [Turn("user", user.content)];
    var h := History(ms + [user, placeholder]);
    assert h == History(ms) + [Turn("user", user.content)];
  }

  // ---------------------------------------------------------------------
  // The system prompt (buildSystemPrompt)

  const Persona := "你是一位深度的荣格流派心理分析师，代号\"Aletheia\"。你的任务是揭示用户潜意识的动力。\n\n核心原则：\n1. **严禁算命**：绝对不要使用\"吉凶\"、\"运势\"、\"前世\"等迷信词汇\n2. **深度挖掘**：使用荣格概念（阴影、阿尼玛/阿尼姆斯、面具、共时性、集体无意识）来解释\n3. **思考外显**：在回答前，先在 <think> 标签中进行深度推理，分析用户的防御机制和潜意识原型\n4. **冷峻而包容**：语气保持神秘、客观、深邃，不要过于热情客套\n5. **联系历史**：如果提供了历史梦境档案，必须显式地指出梦境之间的联系\n\n分析框架：\n- 识别梦中的原型意象（水、火、动物、人物等）\n- 探索阴影投射（被压抑的部分）\n- 分析阿尼玛/阿尼姆斯（内在异性形象）\n- 解读集体无意识中的象征\n- 注意重复出现的模式"
  const CalloutHead := "\n\n【特别提醒】该用户反复梦见\""
  const CalloutTail := "\"等意象，这可能指向其核心情结。请特别关注这些重复意象的变化。"
  const FormatBlock := "\n\n回复格式：\n<think>\n你的深度推理过程...\n</think>\n正式回复内容..."

  /** The call-out naming the first three recurring symbols. */
  function Callout(symbols: seq<string>): string {
    CalloutHead + Join(symbols[..Min(3, |symbols|)], "、") + CalloutTail
  }

  predicate HasSymbols(memoryData: Option<Memory.MemoryContext>) {
    memoryData.Some? && |memoryData.value.recurrentSymbols| > 0
  }

  function SystemPrompt(memoryContext: string, memoryData: Option<Memory.MemoryContext>): string {
    var withMemory := if memoryContext != "" then Persona + ("\n\n" + memoryContext) else Persona;
    var withCallout :=
      if HasSymbols(memoryData) then withMemory + Callout(memoryData.value.recurrentSymbols)
      else withMemory;
    withCallout + FormatBlock
  }

  function MemoryPart(memoryContext: string): string {
    if memoryContext != "" then "\n\n" + memoryContext else ""
  }

  function CalloutPart(memoryData: Option<Memory.MemoryContext>): string {
    if HasSymbols(memoryData) then Callout(memoryData.value.recurrentSymbols) else ""
  }

  /** The prompt is the persona, the memory text when there is one, the
      call-out when there are recurring symbols, and the format block last. */
  lemma SystemPromptParts(memoryContext: string, memoryData: Option<Memory.MemoryContext>)
    ensures SystemPrompt(memoryContext, memoryData)
            == Persona + MemoryPart(memoryContext) + CalloutPart(memoryData) + FormatBlock
    ensures MemoryPart(memoryContext) == "" <==> memoryContext == ""
    ensures memoryContext != "" ==> MemoryPart(memoryContext)[2..] == memoryContext
    ensures CalloutPart(memoryData) == "" <==> !HasSymbols(memoryData)
    ensures HasSymbols(memoryData) ==>
              OccursAt(CalloutPart(memoryData), CalloutHead, 0)
  {
    if memoryContext == "" {
      assert Persona + MemoryPart(memoryContext) == Persona;
    }
    if !HasSymbols(memoryData) {
      var w := Persona + MemoryPart(memoryContext);
      assert w + CalloutPart(memoryData) == w;
    } else {
      var c := CalloutPart(memoryData);
      assert c[..|CalloutHead|] == CalloutHead;
    }
  }

  /** The prompt always starts with the persona and ends with the format
      block. */
  lemma SystemPromptFrame(memoryContext: string, memoryData: Option<Memory.MemoryContext>)
    ensures var p := SystemPrompt(memoryContext, memoryData);
            |Persona| + |FormatBlock| <= |p|
            && p[..|Persona|] == Persona
            && p[|p| - |FormatBlock|..] == FormatBlock
  {
    SystemPromptParts(memoryContext, memoryData);
    var m, c := MemoryPart(memoryContext), CalloutPart(memoryData);
    var k := |Persona|;
    PrefixExtend(Persona, m, k);
    PrefixExtend(Persona + m, c, k);
    PrefixExtend(Persona + m + c, FormatBlock, k);
    SuffixExtend(Persona + m + c, FormatBlock, |FormatBlock|);
  }

  /** Only the first three recurring symbols reach the prompt, and having no
      memory data is the same as having no symbols. */
  lemma SystemPromptSymbols(memoryContext: string, md: Memory.MemoryContext)
    ensures |md.recurrentSymbols| > 3 ==>
              SystemPrompt(memoryContext, Some(md))
              == SystemPrompt(memoryContext, Some(md.(recurrentSymbols := md.recurrentSymbols[..3])))
    ensures md.recurrentSymbols == [] ==>
              SystemPrompt(memoryContext, Some(md)) == SystemPrompt(memoryContext, None)
  {
    var s := md.recurrentSymbols;
    if |s| > 3 {
      assert s[..3][..Min(3, |s[..3]|)] == s[..Min(3, |s|)];
    }
  }

  // ---------------------------------------------------------------------
  // The send flow

  function UserMessage(content: string, now: nat): Message {
    Message("msg_" + NatToString(now) + "_u", User, content, "", false, false)
  }

  function Placeholder(aiId: string): Message {
    Message(aiId, Assistant, "", "", true, true)
  }

  /** The assistant message after the chunks received so far. */
  function Shown(aiId: string, chunks: seq<string>): Message {
    if chunks == [] then Placeholder(aiId)
    else
      var s := ChatStream.LiveSplit(ChatStream.Concat(chunks));
      Placeholder(aiId).(thought := s.thought, content := s.content)
  }

  const ErrorContent := "连接中断，请检查网络或配置。"

  /** The assistant message once sendMessage has finished. */
  function Reply(aiId: string, chunks: seq<string>, error: Option<string>): Message {
    var m := Shown(aiId, chunks);
    var m' := if error.Some? then m.(thought := "[系统错误]\n" + error.value, content := ErrorContent) else m;
    m'.(isStreaming := false)
  }

  /** The finished reply is no longer streaming and keeps its panel open. On
      failure it shows the connection message and the error; otherwise it
      shows the live split of the whole reply, which depends only on the
      concatenated chunks. */
  lemma ReplyFacts(aiId: string, chunks: seq<string>, error: Option<string>)
    ensures var r := Reply(aiId, chunks, error);
            r.id == aiId && r.role == Assistant && r.isThoughtExpanded && !r.isStreaming
            && (error.Some? ==> r.content == ErrorContent && r.thought == "[系统错误]\n" + error.value)
            && (error.None? ==>
                  Split(r.thought, r.content) == ChatStream.LiveSplit(ChatStream.Concat(chunks)))
  {
    if chunks == [] {
      ChatStream.LiveNoOpen("");
      assert !Contains("", Open) by { TagFacts(); }
    }
  }

  /** What a successful load returns: the conversation's mood and clarity
      (`""` and 0 when missing) and its messages. */
  datatype Loaded = Loaded(mood: string, clarity: int, messages: seq<ChatMessage>)

  /** The `messages.map(...)` of loadConversation. */
  function Formatted(cms: seq<ChatMessage>): (r: seq<Message>)
    ensures |r| == |cms|
    ensures forall i :: 0 <= i < |cms| ==>
              r[i].id == cms[i].id && r[i].content == cms[i].content && r[i].role == cms[i].role
              && r[i].thought == cms[i].thought && r[i].isThoughtExpanded == cms[i].isThoughtExpanded
              && !r[i].isStreaming
  {
    seq(|cms|, i requires 0 <= i < |cms| =>
      Message(cms[i].id, cms[i].role, cms[i].content, cms[i].thought, cms[i].isThoughtExpanded, false))
  }

  /** The page fields other than the message list and the scroll anchor. */
  datatype Settings = Settings(inputValue: string, isStreaming: bool, conversationId: string,
                               isNewConversation: bool, selectedMood: string, clarity: int,
                               isMetadataVisible: bool)

  class Page {
    var messages: seq<Message>
    var inputValue: string
    var scrollTarget: string
    var isStreaming: bool
    var conversationId: string
    var isNewConversation: bool
    var isMetadataVisible: bool
    var selectedMood: string
    var clarity: int

    function Fields(): Settings
      reads this
    {
      Settings(inputValue, isStreaming, conversationId, isNewConversation, selectedMood, clarity,
               isMetadataVisible)
    }

    /** The initial page data. */
    constructor ()
      ensures messages == [] && scrollTarget == ""
      ensures Fields() == Settings("", false, "", true, "", 3, false)
    {
      messages, inputValue, scrollTarget := [], "", "";
      isStreaming, conversationId, isNewConversation := false, "", true;
      isMetadataVisible, selectedMood, clarity := false, "", 3;
    }

    /** addMessage appends exactly one message and scrolls to the bottom. */
    method AddMessage(m: Message)
      modifies this
      ensures messages == old(messages) + [m] && scrollTarget == "bottom-anchor"
      ensures Fields() == old(Fields())
    {
      messages := messages + [m];
      scrollTarget := "bottom-anchor";
    }

    /** toggleMetadata, selectMood, onClarityChange and onInput: each sets
        one field and leaves the messages alone. */
    method ToggleMetadata()
      modifies this
      ensures messages == old(messages) && scrollTarget == old(scrollTarget)
      ensures Fields() == old(Fields()).(isMetadataVisible := !old(isMetadataVisible))
    {
      isMetadataVisible := !isMetadataVisible;
    }

    method SelectMood(mood: string)
      modifies this
      ensures messages == old(messages) && scrollTarget == old(scrollTarget)
      ensures Fields() == old(Fields()).(selectedMood := mood)
    {
      selectedMood := mood;
    }

    method OnClarityChange(value: int)
      modifies this
      ensures messages == old(messages) && scrollTarget == old(scrollTarget)
      ensures Fields() == old(Fields()).(clarity := value)
    {
      clarity := value;
    }

    method OnInput(value: string)
      modifies this
      ensures messages == old(messages) && scrollTarget == old(scrollTarget)
      ensures Fields() == old(Fields()).(inputValue := value)
    {
      inputValue := value;
    }

    method UpdateLastMessage(p: Patch)
      modifies this
      ensures messages == UpdatedLast(old(messages), p)
      ensures scrollTarget == old(scrollTarget) && Fields() == old(Fields())
    {
      if |messages| > 0 {
        messages := messages[..|messages| - 1] + [Apply(messages[|messages| - 1], p)];
      }
    }

    method ToggleThought(id: string)
      modifies this
      ensures messages == Toggled(old(messages), id)
      ensures scrollTarget == old(scrollTarget) && Fields() == old(Fields())
    {
      var ms := [];
      for i := 0 to |messages|
        invariant ms == Toggled(messages[..i], id)
      {
        var m := messages[i];
        ms := ms + [if m.id == id then m.(isThoughtExpanded := !m.isThoughtExpanded) else m];
      }
      assert messages[..|messages|] == messages;
      messages := ms;
    }

    /** loadConversation, given what the store returned (`None` when the
        conversation is missing or a read failed): on failure the welcome
        message is appended to whatever is shown. */
    method LoadConversation(loaded: Option<Loaded>)
      modifies this
      ensures scrollTarget == "bottom-anchor"
      ensures loaded.None? ==> messages == old(messages) + [Welcome] && Fields() == old(Fields())
      ensures loaded.Some? ==>
                messages == (if loaded.value.messages == [] then [Welcome] else Formatted(loaded.value.messages))
                && Fields() == old(Fields()).(selectedMood := loaded.value.mood,
                     clarity := if loaded.value.clarity == 0 then 3 else loaded.value.clarity)
    {
      if loaded.None? {
        AddMessage(Welcome);
        return;
      }
      var l := loaded.value;
      var formatted := Formatted(l.messages);
      if |formatted| == 0 {
        formatted := [Welcome];
      }
      messages, selectedMood := formatted, l.mood;
      clarity := if l.clarity == 0 then 3 else l.clarity;
      scrollTarget := "bottom-anchor";
    }

    /** onLoad: continue the conversation named in the options (`""` when
        none), or start a new one with the welcome message. */
    method OnLoad(optionId: string, loaded: Option<Loaded>)
      modifies this
      ensures optionId == "" ==>
                messages == old(messages) + [Welcome]
                && Fields() == old(Fields()).(isNewConversation := true)
      ensures scrollTarget == "bottom-anchor"
      ensures optionId != "" ==> conversationId == optionId && !isNewConversation
      ensures optionId != "" && loaded.None? ==>
                messages == old(messages) + [Welcome]
                && Fields() == old(Fields()).(conversationId := optionId, isNewConversation := false)
      ensures optionId != "" && loaded.Some? ==>
                messages == (if loaded.value.messages == [] then [Welcome] else Formatted(loaded.value.messages))
                && Fields() == old(Fields()).(conversationId := optionId, isNewConversation := false,
                     selectedMood := loaded.value.mood,
                     clarity := if loaded.value.clarity == 0 then 3 else loaded.value.clarity)
    {
      if optionId != "" {
        conversationId, isNewConversation := optionId, false;
        LoadConversation(loaded);
      } else {
        isNewConversation := true;
        AddMessage(Welcome);
      }
    }

    /** Streams the chunks into the last message, as the `for await` loop
        does. */
    method StreamReply(aiId: string, chunks: seq<string>)
      requires messages != [] && messages[|messages| - 1] == Placeholder(aiId)
      modifies this
      ensures messages == old(messages)[..|old(messages)| - 1] + [Shown(aiId, chunks)]
      ensures scrollTarget == old(scrollTarget) && Fields() == old(Fields())
    {
      ghost var base := messages[..|messages| - 1];
      assert messages == base + [Shown(aiId, [])];
      var fullText := "";
      for i := 0 to |chunks|
        invariant messages == base + [Shown(aiId, chunks[..i])]
        invariant fullText == ChatStream.Concat(chunks[..i])
        invariant scrollTarget == old(scrollTarget) && Fields() == old(Fields())
      {
        assert chunks[..i + 1][..i] == chunks[..i];
        fullText := fullText + chunks[i];
        var s := ChatStream.LiveSplit(fullText);
        UpdatedLastAppend(base, Shown(aiId, chunks[..i]), Patch(Some(s.thought), Some(s.content), None));
        UpdateLastMessage(Patch(Some(s.thought), Some(s.content), None));
      }
      assert chunks[..|chunks|] == chunks;
    }

    /** The first steps of sendMessage once the guard has passed: the user's
        message, the cleared input, the streaming flag, the closed panel and
        the empty assistant placeholder. */
    method BeginReply(user: Message, aiId: string)
      modifies this
      ensures messages == old(messages) + [user, Placeholder(aiId)] && scrollTarget == "bottom-anchor"
      ensures Fields() == old(Fields()).(inputValue := "", isStreaming := true, isMetadataVisible := false)
    {
      AddMessage(user);
      inputValue, isStreaming, isMetadataVisible := "", true, false;
      AddMessage(Placeholder(aiId));
      assert messages == old(messages) + [user] + [Placeholder(aiId)];
    }

    /** The end of sendMessage: the error message on failure, otherwise the
        id of a newly created conversation; then the `finally` block. */
    method FinishReply(aiId: string, chunks: seq<string>, error: Option<string>, created: Option<string>)
      requires messages != [] && messages[|messages| - 1] == Shown(aiId, chunks)
      modifies this
      ensures messages == old(messages)[..|old(messages)| - 1] + [Reply(aiId, chunks, error)]
      ensures scrollTarget == "bottom-anchor"
      ensures error.None? && old(isNewConversation) && created.Some? ==>
                Fields() == old(Fields()).(isStreaming := false, conversationId := created.value,
                                           isNewConversation := false)
      ensures !(error.None? && old(isNewConversation) && created.Some?) ==>
                Fields() == old(Fields()).(isStreaming := false)
    {
      ghost var base := messages[..|messages| - 1];
      ghost var streamed := Shown(aiId, chunks);
      assert messages == base + [streamed];
      if error.Some? {
        var p := Patch(Some("[系统错误]\n" + error.value), Some(ErrorContent), None);
        UpdatedLastAppend(base, streamed, p);
        UpdateLastMessage(p);
      } else if isNewConversation && created.Some? {
        conversationId, isNewConversation := created.value, false;
      }
      isStreaming, scrollTarget := false, "bottom-anchor";
      ghost var last := messages[|messages| - 1];
      assert messages == base + [last];
      UpdatedLastAppend(base, last, Patch(None, None, Some(false)));
      UpdateLastMessage(Patch(None, None, Some(false)));
    }

    /** sendMessage. The clock readings for the two ids, the memory service's
        answer (`None` when it failed), the reply's chunks, the error that
        ended the call (`None` when it did not fail) and the id given to a
        newly created conversation (`None` when creating it failed) are
        inputs. `request` is the message list the model would be sent; when
        the AI extension is missing the call throws before sending it, which
        the model covers only as an `error` ending the reply. */
    method SendMessage(nowUser: nat, nowAi: nat, memory: Option<Memory.MemoryContext>,
                       chunks: seq<string>, error: Option<string>, created: Option<string>)
      returns (request: seq<Turn>)
      modifies this
      ensures !old(CanSend(inputValue, isStreaming)) ==>
                request == [] && messages == old(messages) && scrollTarget == old(scrollTarget)
                && Fields() == old(Fields())
      ensures old(CanSend(inputValue, isStreaming)) ==>
                var user := UserMessage(Trim(old(inputValue)), nowUser);
                var aiId := "msg_" + NatToString(nowAi) + "_a";
                var mc := if memory.Some? then memory.value.text else "";
                messages == old(messages) + [user, Reply(aiId, chunks, error)]
                && request == ModelInput(old(messages) + [user, Placeholder(aiId)], SystemPrompt(mc, memory))
                && inputValue == "" && !isStreaming && !isMetadataVisible && scrollTarget == "bottom-anchor"
                && selectedMood == old(selectedMood) && clarity == old(clarity)
                && (if error.None? && old(isNewConversation) && created.Some?
                    then conversationId == created.value && !isNewConversation
                    else conversationId == old(conversationId) && isNewConversation == old(isNewConversation))
    {
      var content := Trim(inputValue);
      if content == "" || isStreaming {
        return [];
      }
      ghost var before := messages;
      var user := UserMessage(content, nowUser);
      var aiId := "msg_" + NatToString(nowAi) + "_a";
      BeginReply(user, aiId);
      var mc := if memory.Some? then memory.value.text else "";
      request := ModelInput(messages, SystemPrompt(mc, memory));
      StreamReply(aiId, chunks);
      assert messages[..|messages| - 1] == before + [user];
      FinishReply(aiId, chunks, error, created);
      assert before + [user] + [Reply(aiId, chunks, error)] == before + [user, Reply(aiId, chunks, error)];
    }
  }
}
