# Dream journal and incense merit: a Dafny model

This project models the core of a WeChat mini-program for keeping a dream
journal, together with its relay server and the merit store of the
companion incense app. The parts modelled are:

- **The chat page** (`ChatPage`, `ChatStream`, `ThinkTags`). The user
  describes a dream and the assistant's reply streams in. Each chunk is
  split live into reasoning, between `<think>` and `</think>`, and the
  visible answer. The page keeps its messages and form fields as a class,
  builds the system prompt from the persona, the memory summary and the
  recurring-symbol callout, and sends the model the cleaned history. A
  replayed conversation has a typewriter effect of its own.
- **The conversation service** (`Conversation`). It derives a title and a
  preview from the first message, including the three dream-image regular
  expressions that pick a title. It creates conversations and saves
  messages, one at a time or in a batch.
- **The memory service** (`Memory`). It scores past dreams against the
  current message by keyword and token overlap, in integer tenths. It
  picks the two most related dreams, or the two most recent, and the three
  most frequent recurring keywords, then renders the memory text.
- **The detail page** (`Detail`). It splits a stored analysis at its
  first complete `<think>…</think>` block and looks up the mood's icon
  and colour.
- **The cloud functions:**
  - `updateUser` (`UpdateUser`): profile creation, activity updates and the
    dream streak.
  - `getUserStats` (`UserStats`, with `Tally` for the shared counting):
    mood distribution, dominant mood, average clarity and recent dreams.
  - `extractKeywords` (`ExtractKeywords`): code-fence stripping and the
    regular-expression fallback when the reply is not JSON.
  - `saveDream` (`SaveDream`): the title fallback, title sanitising and the
    stored record.
- **The report page** (`Report`). It tallies the twelve archetype scores
  over an `array` in place, normalises them to the 20-100 radar range,
  and finds the dominant mood and the count of negative dreams.
- **The incense merit store** (`Merit`). It keeps the per-day merit
  records and the total, the burn log capped at 1000 entries with its
  adaptive 5 % / 1 % break chance, and the seven-day history.
- **The relay server's `/chat` handler** (`Relay`). It has the canned mock
  stream, and it turns upstream SSE lines into the server's own
  `thinking`/`content`/`[DONE]` frames on a response object whose writes
  after `end()` are dropped.

Everything outside the program comes in as an input:

- database and storage contents are maps or sequences passed in or held in
  a class;
- a failing call is an `Option`, a `bool` or a fault value naming which
  call throws;
- model replies are the chunks they stream;
- `JSON.parse` is a `parse` function parameter;
- clocks and day numbers are integers;
- `Math.random()` is the `draw` real.

Module `Text` holds the string helpers the JavaScript relies on (`trim`,
`indexOf`, `substring`, `toLowerCase`, `split`). Module `Wrappers` holds
`Option` and `Result`.

## Model

| member | source | states |
|---|---|---|
| ChatStream.LiveNoOpen | miniprogram/pages/chat/chat.ts:268-271 | with no `<think>` in the buffer, everything so far is answer and the reasoning is empty |
| ChatStream.LiveUnclosed | miniprogram/pages/chat/chat.ts:263-266 | after an unclosed `<think>`, all text after the tag is reasoning and the answer is empty |
| ChatStream.LiveClosed | miniprogram/pages/chat/chat.ts:258-262 | with a complete `<think>a</think>b` block after tag-free text, the reasoning is `a` and the answer `b`; the prefix is dropped |
| ChatStream.LiveCloseFirst | miniprogram/pages/chat/chat.ts:255-262 | when a `</think>` comes before the first `<think>`, the split slices with the close index before the open one, as the code does |
| ChatStream.PhaseMonotone | miniprogram/pages/chat/chat.ts:245-277 | as the buffer grows, the live split only moves forward: no tag, then inside reasoning, then after reasoning |
| ChatStream.LiveReasoningGrows | miniprogram/pages/chat/chat.ts:245-277 | while still inside reasoning, new text extends the shown reasoning and the answer stays empty |
| ChatStream.LiveAnswerGrows | miniprogram/pages/chat/chat.ts:245-277 | once the reasoning is closed, new text only extends the answer and the reasoning stays fixed |
| ChatStream.RefineChunk | miniprogram/pages/chat/chat.ts:245-256 | splitting one chunk in two leaves the accumulated full text unchanged |
| ChatStream.ReadStream | miniprogram/pages/chat/chat.ts:245-277 | the loop over chunks ends with the whole concatenated text, and after each chunk it shows the live split of the text so far |
| ChatStream.SampleStream | miniprogram/pages/chat/chat.ts:245-271 | any chunking of `preamble<think>abc</think>xyz` ends showing reasoning `abc` and answer `xyz` |
| ChatStream.ThoughtPhase | miniprogram/pages/chat/chat.ts:407-423 | during replay, the first ticks reveal the reasoning three characters at a time with no answer yet |
| ChatStream.ContentPhase | miniprogram/pages/chat/chat.ts:425-432 | after the reasoning, each tick reveals one more answer character while the full reasoning stays shown |
| ChatStream.ReplayCompletes | miniprogram/pages/chat/chat.ts:407-440 | the replay ends showing the full reasoning and the full answer, the following tick marks it done, and no answer shows during the reasoning phase |
| ChatPage.UpdatedLastFacts | miniprogram/pages/chat/chat.ts:148-155 | merging a patch into the last message keeps the length and every earlier message; an empty list stays empty |
| ChatPage.UpdatedLastAppend | miniprogram/pages/chat/chat.ts:148-155 | patching the last of `base + [m]` patches `m` only |
| ChatPage.ToggledFacts | miniprogram/pages/chat/chat.ts:130-139 | toggling flips `isThoughtExpanded` exactly on the messages with that id, changes nothing else, and toggling twice restores the list |
| ChatPage.HistoryAppend | miniprogram/pages/chat/chat.ts:200-202 | the history filter distributes over concatenation |
| ChatPage.HistoryFacts | miniprogram/pages/chat/chat.ts:200-202 | the history keeps only user and assistant turns whose trimmed content is non-empty |
| ChatPage.ModelInputFacts | miniprogram/pages/chat/chat.ts:200-234 | the model input is the system prompt followed by the history, with one leading assistant greeting dropped; no later turn is a system turn or blank |
| ChatPage.ModelInputEndsWithUser | miniprogram/pages/chat/chat.ts:170-206 | after a non-blank user message and the empty placeholder, the last turn sent is that user message |
| ChatPage.SystemPromptParts | miniprogram/pages/chat/chat.ts:370-404 | the system prompt is the persona, the memory section (present iff the memory text is non-empty), the symbol callout (present iff there are recurring symbols) and the format block |
| ChatPage.SystemPromptFrame | miniprogram/pages/chat/chat.ts:370-401 | every system prompt starts with the persona and ends with the format block |
| ChatPage.SystemPromptSymbols | miniprogram/pages/chat/chat.ts:393-395 | only the first three recurring symbols affect the prompt, and with none the prompt is the no-memory-data prompt |
| ChatPage.ReplyFacts | miniprogram/pages/chat/chat.ts:354-364 | the final assistant message carries the live split of the streamed text, or the error text and `[系统错误]` reasoning when the request failed |
| ChatPage.Formatted | miniprogram/pages/chat/chat.ts:68-75 | loaded messages keep id, role, content, reasoning and the expanded flag, and are not streaming |
| ChatPage.Page.constructor | miniprogram/pages/chat/chat.ts:14-27 | the page starts with no messages, clarity 3 and as a new conversation |
| ChatPage.Page.AddMessage | miniprogram/pages/chat/chat.ts:141-146 | appends the message and scrolls to the bottom anchor; no other field changes |
| ChatPage.Page.ToggleMetadata | miniprogram/pages/chat/chat.ts:116-118 | flips the metadata panel flag and nothing else |
| ChatPage.Page.SelectMood | miniprogram/pages/chat/chat.ts:119-121 | sets the selected mood and nothing else |
| ChatPage.Page.OnClarityChange | miniprogram/pages/chat/chat.ts:122-124 | sets the clarity and nothing else |
| ChatPage.Page.OnInput | miniprogram/pages/chat/chat.ts:126-128 | sets the input text and nothing else |
| ChatPage.Page.UpdateLastMessage | miniprogram/pages/chat/chat.ts:148-155 | the messages become the patched list and nothing else changes |
| ChatPage.Page.ToggleThought | miniprogram/pages/chat/chat.ts:130-139 | the messages become the toggled list and nothing else changes |
| ChatPage.Page.LoadConversation | miniprogram/pages/chat/chat.ts:54-113 | a loaded conversation replaces the messages (a welcome when it has none) and sets the mood and clarity (0 reads as 3); a failed load appends the welcome |
| ChatPage.Page.OnLoad | miniprogram/pages/chat/chat.ts:29-49 | without an id the page is a new conversation showing the welcome; with one it records the id; a conversation that loads sets its messages (or the welcome when it has none), its mood and its clarity (3 when unrated), and one that does not load leaves the welcome; the other fields are unchanged and the page scrolls to the bottom |
| ChatPage.Page.StreamReply | miniprogram/pages/chat/chat.ts:245-277 | the placeholder is replaced by the live split of all chunks, and the form fields are untouched |
| ChatPage.Page.BeginReply | miniprogram/pages/chat/chat.ts:170-187 | appends the user message and an empty streaming placeholder, clears the input, hides the metadata and marks streaming |
| ChatPage.Page.FinishReply | miniprogram/pages/chat/chat.ts:287-364 | the last message becomes the final reply; streaming ends; a new conversation takes the created id only on success |
| ChatPage.Page.SendMessage | miniprogram/pages/chat/chat.ts:161-365 | with blank input or while streaming nothing happens; otherwise the user message and the final reply are appended and the request is the model input for the history with the memory-aware system prompt |
| Detail.FirstBlockIsRegexMatch | miniprogram/pages/detail/detail.ts:58 | the block found is the leftmost, shortest `<think>…</think>` match, and none is found iff no such match exists |
| Detail.StoredNoBlock | miniprogram/pages/detail/detail.ts:54-56 | without a complete block the analysis is all content and the reasoning is empty |
| Detail.StoredWithBlock | miniprogram/pages/detail/detail.ts:58-61 | with a first block at `i..j`, the reasoning is its trimmed inside and the content is the trimmed rest with the block removed |
| Detail.StoredClosed | miniprogram/pages/detail/detail.ts:58-61 | for `pre<think>a</think>b` with tag-free `pre`, the stored split is `(trim a, trim (pre + b))` |
| Detail.SplittersAgree | miniprogram/pages/detail/detail.ts:58-61 | the detail page's split and the chat page's live split agree on tag-free text, and up to trimming on a closed block after blank text |
| Detail.SplittersDisagreeUnclosed | miniprogram/pages/detail/detail.ts:58-61 | on an unclosed `<think>` the chat page shows everything after it as reasoning, while the detail page shows it all as content |
| Detail.MoodLookup | miniprogram/pages/detail/detail.ts:89-120 | known moods get their icon and colour from the tables; unknown ones get `😐` and `#9E9E9E`; every colour is a `#` and six hex characters |
| Detail.MoodColorsDistinct | miniprogram/pages/detail/detail.ts:107-120 | different known moods have different colours |
| Detail.ViewOf | miniprogram/pages/detail/detail.ts:68-73 | the shown dream carries the stored split of its analysis and keeps id, analysis, summary and mood |
| Detail.DetailPage.constructor | miniprogram/pages/detail/detail.ts:19-27 | the page starts loading, with no dream and the reasoning collapsed |
| Detail.DetailPage.LoadDreamDetail | miniprogram/pages/detail/detail.ts:42-84 | a fetched dream is shown as its view with its mood icon and colour; a failed fetch leaves the dream; loading ends either way |
| Detail.DetailPage.ToggleThought | miniprogram/pages/detail/detail.ts:125-127 | flips the reasoning panel and nothing else |
| Conversation.PreviewFacts | miniprogram/services/conversation.service.ts:43 | a preview is the text when at most 50 characters, otherwise its first 50 and `...`; it is never longer than 53 |
| Conversation.ScanIsLeftmost | miniprogram/services/conversation.service.ts:259-268 | the pattern scan returns the leftmost position where the pattern matches, and none iff it matches nowhere |
| Conversation.FirstMatchFacts | miniprogram/services/conversation.service.ts:265-270 | the first pattern that matches anywhere wins, at its leftmost position; none iff no pattern matches |
| Conversation.TitleCases | miniprogram/services/conversation.service.ts:250-274 | short trimmed text is its own title (`新对话` when empty); longer text takes the trimmed group of the first matching pattern, or else its first 20 characters and `...` |
| Conversation.TitlePrefersDreamPattern | miniprogram/services/conversation.service.ts:259-270 | when the `梦见/梦到/梦里` pattern matches, its leftmost group is the title, whatever the other patterns say |
| Conversation.NewConversation | miniprogram/services/conversation.service.ts:37-54 | a new record has the derived title and preview, no messages, both times set to now, and is not archived |
| Conversation.InsertedFacts | miniprogram/services/conversation.service.ts:150-170 | the batch inserts exactly the messages whose add does not fail, each tagged with the conversation id and the batch time |
| Conversation.Summarised | miniprogram/services/conversation.service.ts:175-185 | after a batch, the record counts the batch's messages and previews the last one; the title, times and flags are kept |
| Conversation.ConversationStore.CreateConversation | miniprogram/services/conversation.service.ts:37-66 | on success the new record is stored under the new id and the id returned; a failed add changes nothing and fails |
| Conversation.ConversationStore.SaveMessage | miniprogram/services/conversation.service.ts:117-137 | the message is stored with its creation time, then the record's count goes up by one, with a new preview and the later update time; an update of an id with no record changes nothing and succeeds; a failed update fails after the message is stored |
| Conversation.ConversationStore.SaveMessages | miniprogram/services/conversation.service.ts:142-194 | every message whose add succeeds is stored in order, and the success count (only logged in the source) is returned; a non-empty batch then summarises the record if it exists, leaves the records unchanged if it does not, and fails only if that update fails |
| Memory.InsertKeepsOrder | miniprogram/services/memory.service.ts:77 | inserting into a list sorted by descending score keeps it sorted |
| Memory.SortDesc | miniprogram/services/memory.service.ts:77 | the sort is a permutation of its input in descending score order |
| Memory.PassingFacts | miniprogram/services/memory.service.ts:79 | the filter keeps exactly the entries scoring at least the threshold, and a descending list stays descending |
| Memory.PassingAppend | miniprogram/services/memory.service.ts:79 | the filter distributes over concatenation, so the entries it keeps stay in their input order |
| Memory.Items | miniprogram/services/memory.service.ts:81 | mapping to items keeps length and order |
| Memory.Similarity | miniprogram/services/memory.service.ts:104-127 | the score is at most 1.0 and passes the 0.3 threshold iff a keyword appears in the message or at least three message tokens appear in the dream |
| Memory.CalculateSimilarity | miniprogram/services/memory.service.ts:104-127 | the loop computes the similarity score |
| Memory.Scored | miniprogram/services/memory.service.ts:71-74 | every dream is paired with its similarity to the message, in order |
| Memory.RelatedWithoutInput | miniprogram/services/memory.service.ts:65-68 | with no message the related dreams are the two most recent |
| Memory.CandidatesFacts | miniprogram/services/memory.service.ts:71-81 | the candidates are exactly the dreams that pass the threshold, with their scores, in descending order |
| Memory.RelatedChoice | miniprogram/services/memory.service.ts:77-86 | with a message, one or two dreams are chosen: when any pass, as many candidates as pass up to two, best first, none left out scoring higher; the most recent ones when none pass |
| Memory.Entries | miniprogram/services/memory.service.ts:147 | one entry per distinct keyword, in first-seen order, with its number of occurrences |
| Memory.RankedCounts | miniprogram/services/memory.service.ts:138-151 | each ranked keyword carries its occurrence count, and the count is at least 2 |
| Memory.RecurrentFacts | miniprogram/services/memory.service.ts:138-151 | the three most frequent recurring keywords (all of them when at most three recur), each occurring more than once, in descending count order; one left out occurs no more often than any kept |
| Memory.MemoryTextShape | miniprogram/services/memory.service.ts:154-167 | the text starts with the dream-count header, has the recurring clause iff there are recurring keywords, and ends with `... ` when related dreams are listed |
| Memory.CountKeywords | miniprogram/services/memory.service.ts:138-145 | the counting loop yields the distinct keywords and their counts |
| Memory.RenderMemoryText | miniprogram/services/memory.service.ts:154-167 | the rendering loop yields the memory text |
| Memory.BuildMemoryContext | miniprogram/services/memory.service.ts:132-175 | yields the context built from the related dreams and all dreams |
| Memory.ContextFacts | miniprogram/services/memory.service.ts:44-98 | a failed or empty fetch gives the empty context; otherwise the context holds the related dreams and recurring symbols; the emotion trend is always empty |
| Memory.LoadMemoryContext | miniprogram/services/memory.service.ts:36-99 | yields the context for the message and the fetched dreams |
| UpdateUser.NewProfile | cloudfunctions/updateUser/index.js:37-56 | a new profile has zero dreams and streak, default preferences and both times set to now; the nickname is `匿名用户` iff none is given |
| UpdateUser.Touched | cloudfunctions/updateUser/index.js:59-69 | an activity update sets the last-active time and keeps the old nickname and avatar where the new ones are empty; nothing else changes |
| UpdateUser.Recorded | cloudfunctions/updateUser/index.js:72-95 | recording a dream adds one dream and sets today as the last dream date; only those fields and the streak change |
| UpdateUser.StreakCases | cloudfunctions/updateUser/index.js:76-92 | the streak starts at 1, grows by one on the next day, resets to 1 after a gap, and stays the same on the same day |
| UpdateUser.Handle | cloudfunctions/updateUser/index.js:21-107 | a missing openid or a database error fails and changes nothing; an unknown user is created; a known one is updated, and on `recordDream` also recorded |
| UpdateUser.OtherActions | cloudfunctions/updateUser/index.js:59-69 | an action other than `recordDream` touches only the activity fields |
| UpdateUser.NewProfileTracks | cloudfunctions/updateUser/index.js:37-56 | a new profile agrees with an empty set of dream days |
| UpdateUser.RecordedTracks | cloudfunctions/updateUser/index.js:72-95 | recording keeps the profile's count, last day and streak in agreement with the set of days on which dreams were recorded |
| UpdateUser.HandleTracks | cloudfunctions/updateUser/index.js:72-95 | every call of the function keeps the stored profile in agreement with the recorded dream days |
| UserStats.CollectMoods | cloudfunctions/getUserStats/index.js:46-60 | the loop yields the distinct moods in first-seen order, their counts, and the clarity sum and count over rated dreams |
| UserStats.GetUserStats | cloudfunctions/getUserStats/index.js:12-117 | a missing openid or a database error fails; otherwise the result is the statistics: the two counts over the user's dreams, the mood and clarity figures over the fetched page `moodData` |
| UserStats.MoodDistributionKeys | cloudfunctions/getUserStats/index.js:50-54 | the distribution's keys are exactly the moods of the fetched dreams, each once |
| UserStats.MoodDistributionCounts | cloudfunctions/getUserStats/index.js:50-54 | each mood's count is its number of occurrences in the fetched page; the counts add up to the page's size, and equal the total count exactly when the page holds all of the user's dreams |
| UserStats.DominantMoodFacts | cloudfunctions/getUserStats/index.js:62-70 | the dominant mood of the fetched dreams is never `unknown`; it is `-` when no other mood occurs, and otherwise a mood with the highest count, the first such key |
| UserStats.ClarityFacts | cloudfunctions/getUserStats/index.js:56-99 | the average clarity is absent iff no fetched dream is rated, and is otherwise taken over between one and all of the fetched dreams |
| UserStats.RecentFacts | cloudfunctions/getUserStats/index.js:73-88 | at most five recent dreams, each kept apart from its content, cut to 25 characters and `...` when longer |
| UserStats.CountsFacts | cloudfunctions/getUserStats/index.js:28-106 | the recent-dream count is at most the total, and the profile and streak come from the stored user or are absent and 0 |
| Tally.DistinctFacts | cloudfunctions/getUserStats/index.js:50-54 | the distinct keys are exactly the keys that occur, each once |
| Tally.CountMapFacts | cloudfunctions/getUserStats/index.js:50-54 | the count map holds exactly the keys that occur, with their number of occurrences |
| Tally.CountsSum | cloudfunctions/getUserStats/index.js:50-54 | the counts add up to the number of keys counted |
| Tally.DominantKeyFacts | cloudfunctions/getUserStats/index.js:63-70 | the dominant key has the highest count among the keys not skipped, and is the first such key; with none left it is `-` |
| Tally.PickDominant | cloudfunctions/getUserStats/index.js:63-70 | the loop picks the dominant key |
| Report.Mapping | miniprogram/pages/report/report.ts:40-49 | each mood raises distinct archetype slots, none of them slots 7, 8 or 10 |
| Report.JoyRaises | miniprogram/pages/report/report.ts:43 | a `喜悦` dream raises slots 0 and 6 by one and nothing else |
| Report.UnmappedRaisesNothing | miniprogram/pages/report/report.ts:57-61 | a dream whose mood is not in the table leaves the tally unchanged |
| Report.UnusedSlots | miniprogram/pages/report/report.ts:40-49 | no dream ever raises slots 7, 8 or 10 |
| Report.MoodFacts | miniprogram/pages/report/report.ts:51-79 | the mood counts add up to the number of dreams, and the dominant mood has the highest count, the first such key |
| Report.NormaliseOne | miniprogram/pages/report/report.ts:68 | a normalised score lies in 20-100, is 20 at zero and 100 at the maximum |
| Report.RadarEnds | miniprogram/pages/report/report.ts:65-69 | every radar value lies in 20-100; zero scores show 20, the maximum shows 100, and an all-zero tally shows 20 everywhere |
| Report.FromZeroEnds | miniprogram/pages/report/report.ts:65-69 | tallied from zero, an archetype no dream raises shows 20 and the most-raised shows 100 |
| Report.CountNegative | miniprogram/pages/report/report.ts:84-88 | the loop counts the dreams with a negative mood |
| Report.ReportPage.constructor | miniprogram/pages/report/report.ts:2-17 | the page starts with no dreams, clarity 0, dominant mood `-` and twelve zero archetypes |
| Report.ReportPage.TallyMoods | miniprogram/pages/report/report.ts:51-62 | the loop counts each mood and raises the archetype array in place by the tally of the dreams |
| Report.ReportPage.Compute | miniprogram/pages/report/report.ts:29-106 | the page shows the dream count, the average clarity, the dominant mood and the archetypes normalised after tallying from their current values |
| Report.ReportPage.CalculateStats | miniprogram/pages/report/report.ts:23-110 | no dreams leave the page as it was; otherwise it shows the statistics tallied from the current archetype values, as written |
| Report.ReportPage.CalculateStatsFromZero | miniprogram/pages/report/report.ts:23-110 | the same, with the tally starting from zero |
| Report.SecondShowFinding | miniprogram/pages/report/report.ts:37 | showing one `平静` dream twice moves the innocent slot from 20 to 3620/101 although no dream raises it |
| ExtractKeywords.UnfenceNoBacktick | cloudfunctions/extractKeywords/index.js:62 | text without backticks is not changed by fence stripping |
| ExtractKeywords.UnfenceFenced | cloudfunctions/extractKeywords/index.js:62 | a fenced ```` ```json ```` body without backticks comes back as the body |
| ExtractKeywords.UnfenceOpening | cloudfunctions/extractKeywords/index.js:62 | the opening fence is stripped |
| ExtractKeywords.UnfenceClosing | cloudfunctions/extractKeywords/index.js:62 | the closing fence is stripped from a backtick-free body |
| ExtractKeywords.FenceCanReform | cloudfunctions/extractKeywords/index.js:62 | the one-pass stripping can leave a fence: ``` `` ```` `` then newline and four backticks become three backticks |
| ExtractKeywords.SpanFacts | cloudfunctions/extractKeywords/index.js:67 | a character-class span is the longest run of that class from its start |
| ExtractKeywords.FindGroupLeftmost | cloudfunctions/extractKeywords/index.js:67 | the `keywords` group found is the leftmost match |
| ExtractKeywords.FindGroupNone | cloudfunctions/extractKeywords/index.js:67 | when no group is found, none matches at any position |
| ExtractKeywords.UnquoteItem | cloudfunctions/extractKeywords/index.js:69-70 | removing quotes from a quoted item leaves its inside |
| ExtractKeywords.Filled | cloudfunctions/extractKeywords/index.js:75-84 | missing fields default to empty lists, an empty conflict and emotion `unknown`; present ones are kept |
| ExtractKeywords.Extract | cloudfunctions/extractKeywords/index.js:14-93 | content under 5 characters or a failed call fails; otherwise the result is the filled parsed reply, or the filled fallback when the reply does not parse |
| ExtractKeywords.FallbackDefaults | cloudfunctions/extractKeywords/index.js:64-84 | the fallback has no archetypes, symbols or conflict and emotion `unknown`, and no keywords without a match |
| ExtractKeywords.FallbackKeywords | cloudfunctions/extractKeywords/index.js:67-71 | the fallback keywords are the first five quoted items of the first match, unquoted, non-empty and quote-free |
| SaveDream.Summary | cloudfunctions/saveDream/index.js:17-38 | the title is the default when there is no reply or it is empty, the reply otherwise, and the first 8 characters and `...` when the call throws; never empty |
| SaveDream.SanitiseFacts | cloudfunctions/saveDream/index.js:46 | sanitising leaves no `"`, `《` or `》`, changes text free of them not at all, and is idempotent |
| SaveDream.Save | cloudfunctions/saveDream/index.js:9-66 | empty content is rejected and a failed insert fails, both storing nothing; otherwise one record is appended with the sanitised title, mood and clarity defaults and the server time |
| SaveDream.ReturnedTitleUnsanitised | cloudfunctions/saveDream/index.js:46-57 | the reply returns the title unsanitised while the stored one is sanitised: `《梦》` comes back whole and is stored as `梦` |
| Merit.AddedBalanced | xiang/miniprogram/utils/merit-storage.ts:36-41 | an offering keeps a day's count equal to the sum of its offerings |
| Merit.CountBrokenZero | xiang/miniprogram/utils/merit-storage.ts:97-99 | no break is counted iff no burn broke |
| Merit.BreakRateFacts | xiang/miniprogram/utils/merit-storage.ts:97-103 | the break chance is 5 % iff none of the last 100 burns broke, and 1 % otherwise |
| Merit.LoggedFacts | xiang/miniprogram/utils/merit-storage.ts:113-118 | logging a burn keeps at most 1000 entries, ends with the new burn, and drops only the oldest when full |
| Merit.ShownDaysInWindow | xiang/miniprogram/utils/merit-storage.ts:139-149 | the history shows only days of the last seven |
| Merit.ShownDaysDescending | xiang/miniprogram/utils/merit-storage.ts:139-149 | the history lists days newest first |
| Merit.ShownDaysComplete | xiang/miniprogram/utils/merit-storage.ts:139-149 | every day of the last seven with positive merit is shown |
| Merit.HistoryFacts | xiang/miniprogram/utils/merit-storage.ts:133-156 | the history is the positive records of the last seven days, newest first, all of them and no more than seven |
| Merit.CheckLogsAnswer | xiang/miniprogram/utils/merit-storage.ts:105-122 | the logged burn records the answer returned, and the log stays within 1000 |
| Merit.MeritStore.TodayMerit | xiang/miniprogram/utils/merit-storage.ts:61-72 | today's merit is 0 when nothing is stored or the read throws, and otherwise the sum of today's offerings |
| Merit.MeritStore.TotalMerit | xiang/miniprogram/utils/merit-storage.ts:78-86 | the stored total, or 0 when the read throws |
| Merit.MeritStore.BurnHistory | xiang/miniprogram/utils/merit-storage.ts:162-170 | the stored log, or no burns when the read throws; the log never exceeds 1000 |
| Merit.MeritStore.AddMerit | xiang/miniprogram/utils/merit-storage.ts:24-55 | the offering is added to today's record and to the total, and today's count is returned; a throw reading or writing today's record changes nothing and returns 0; a throwing total read counts the total from 0; a throwing total write keeps the old total and returns 0 after today's record is stored |
| Merit.MeritStore.CheckRandomBreak | xiang/miniprogram/utils/merit-storage.ts:92-127 | the burn breaks iff the draw is below the break chance of the history; it is logged unless the write throws, which returns false |
| Merit.MeritStore.MeritHistory | xiang/miniprogram/utils/merit-storage.ts:133-156 | the loop yields the seven-day history, or nothing when a read throws |
| Merit.MeritStore.ClearAllData | xiang/miniprogram/utils/merit-storage.ts:175-181 | clears every day, the total and the log |
| Relay.PiecesFacts | server/index.js:60-68 | the mock slices join back to the text and each has between 1 and the slice width characters |
| Relay.Replay | server/index.js:58-73 | the two slicing loops write the canned framing: `<think>`, 5-character reasoning slices, `</think>`, 2-character answer slices, `[DONE]` |
| Relay.MockStream | server/index.js:51-74 | the mock branch writes the canned framing of its reasoning and answer |
| Relay.ReplayedTexts | server/index.js:59-70 | the thinking frames spell `<think>`, the reasoning and `</think>`; the content frames spell the answer in pieces of at most 2 characters |
| Relay.ReplayedDoneLast | server/index.js:72-73 | `[DONE]` is the last frame and only there |
| Relay.LinesJoin | server/index.js:100 | splitting a chunk at `\n` and joining again gives the chunk back, and no line holds a `\n` |
| Relay.BlankIgnored | server/index.js:100 | a blank line changes nothing |
| Relay.LineTests | server/index.js:102-107 | the character tests are `startsWith('data: ')` and equality with `data: [DONE]` |
| Relay.DoneEnds | server/index.js:101-106 | a `[DONE]` line writes `[DONE]` and stops the chunk: later lines write nothing |
| Relay.RelayedFacts | server/index.js:101-128 | every frame written carries text, except a final `[DONE]` |
| Relay.DeltaOrder | server/index.js:113-122 | a delta with both parts writes reasoning before content; an unparsable payload writes nothing |
| Relay.StopsIff | server/index.js:101-106 | a chunk stops the response iff it holds a `data: [DONE]` line |
| Relay.Response.Write | server/index.js:102-105 | a write appends the frame unless the response has ended |
| Relay.Response.End | server/index.js:104-105 | ends the response and writes nothing |
| Relay.Response.Finish | server/index.js:102-105 | writes `[DONE]` if still open and ends the response |
| Relay.Response.RelayData | server/index.js:107-127 | a data line writes its delta's frames unless the response has ended |
| Relay.Response.RelayLines | server/index.js:101-128 | the line loop writes the frames of the lines up to the first `[DONE]` and ends iff one is there |
| Relay.Response.OnData | server/index.js:99-129 | a chunk writes the frames of its non-blank lines and ends the response iff it holds `data: [DONE]`; once ended, nothing more is written |
| Relay.Response.OnEnd | server/index.js:131-133 | the upstream end ends the response without writing |
| Relay.Response.OnRequestError | server/index.js:135-139 | an upstream error writes the failure content if still open and ends the response |

## Left out

- Database, cloud-storage and local-storage calls are not modelled as I/O. Their contents are inputs or class fields, their failures are explicit inputs, and the pages a `get()` returns, whose size and order the database decides (a default page size, `limit(10)`, newest first), are inputs.
- `JSON.parse` is the `parse` input and `JSON.stringify` is not modelled. JSON text is not modelled.
- `ExtractKeywords.Extract`: a reply that parses to `null` makes reading `result.keywords` throw (index.js 78), so the source returns `success: false`. `parse` returns `Option<Fields>` and cannot produce that value, so the model has no such case.
- Strings are sequences of Unicode code points, while JavaScript counts UTF-16 units. Lengths, `substring` and slicing therefore differ on characters outside the Basic Multilingual Plane.
- `toLowerCase` is modelled for ASCII letters only.
- Scores are integer tenths instead of floating point. The report page's archetype values are reals, and `toFixed` rounding is not modelled.
- JavaScript objects used as maps are modelled as first-seen key order. They would list integer-like keys first, and prototype keys such as `__proto__` would misbehave.
- Timers, `await` ordering and concurrent events are not modelled. Each handler runs to completion on its inputs, and the typewriter replay is a tick count.
- `ChatPage.Page.SendMessage`: the background `saveMessages` and `saveDream` calls after a reply (chat.ts 300-347) are not part of its state change. Their effects are modelled by `Conversation` and `SaveDream`. Creating a conversation is reduced to its outcome, `created`.
- `ChatPage.Page.SendMessage`: a missing AI extension (chat.ts 192-194) throws before anything is sent; the model does not tell that apart from other failures, which the `error` input covers, so `request` is the list that would have been sent.
- Toasts, loading indicators, navigation and console logging are not modelled. The detail page's copy, share and delete actions are not modelled either.
- Date formatting is not modelled: dates are day numbers (detail.ts 66, getUserStats 79-85). The merit store keys by day number instead of `toDateString()`.
- The report page's persona percentage and insight text (report.ts 89-97) and its radar drawing are not modelled.
- `getConversations`, `getConversation`, `getMessages`, `deleteConversation` and `archiveConversation` are not modelled. They are plain database queries with no logic beyond the query.
- The `isNewUser` flag and the index page are not modelled.
- `Merit.MeritStore.ClearAllData`: a throwing `clearStorageSync` is not modelled.
- Relay: the upstream request body, the system prompt text and the express, axios and SSE transport are not modelled. Only the frames written are.
- Relay: an empty `messages` array makes the handler throw before responding (server/index.js 33). The model takes the last user message as its input instead.
- Relay: the mock templates are modelled with their text, but not the escaping needed to embed them in SSE.

## Findings

| source | as written | input that shows it | evidently intended | confidence | as-written member | corrected member |
|---|---|---|---|---|---|---|
| miniprogram/pages/report/report.ts:37 | the archetype tally starts from the page's current archetype values, which after a first show are already normalised to 20-100 | show the report twice with one `平静` dream: the innocent slot, which no dream raises, is 20 after the first show and 3620/101 (about 35.8) after the second | the tally starts from twelve zeros on every show | not executed | Report.SecondShowFinding | Report.ReportPage.CalculateStatsFromZero |

