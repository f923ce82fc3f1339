# ainovel — a Dafny model of the prompt and stream pipeline

ainovel is a web app for writing Chinese web novels with a language model. The user fills in a
settings form, and the browser posts a request to a server function, `generate-novel`. That
function checks the request and builds a system prompt and a user prompt for the requested mode
(generate, continue, outline, characters, rewrite). It calls one of four model providers and
streams the answer back as server-sent events. Claude's event format is translated into the
OpenAI delta format on the way. The browser reads the stream line by line and hands each text
delta to a callback.

This project models that pipeline and the small list and string rules behind the pages:

- **`gateway.dfy`** (`Gateway`): the request gate of the server handler and its status codes,
  the model table, and the per-mode prompt choice. It also holds the continue-mode context and
  the reply built from the upstream answer. The handler is `Serve`; its mode dispatch is the
  method `ChoosePrompts`, which reassigns the prompts and the context step by step.
- **`prompt_builder.dfy`** (`PromptBuilder`): `buildUserPrompt` as a list of optional lines
  joined by line feeds, plus `truncateContext` and `buildPreviousSummary`.
- **`claude_transform.dfy`** (`ClaudeTransform`): the Claude-to-OpenAI translator. The `pull`
  loop is the method `Transform`, with its line-cutting inner loop `DrainLines`. Both are proved
  against `ClaudeRef`, a function of the whole upstream text.
- **`stream_client.dfy`** (`StreamClient`): the browser's stream consumer
  `streamNovelGeneration`. This covers the reading loop with its buffer, carriage-return
  stripping, comment and blank skipping, the `data: ` filter, `[DONE]`, the put-back of an
  unparsable line, the final flush and the callback protocol, proved against `StreamEvents`.
  However the response text is cut into chunks, the callbacks are the same.
- **`settings_types.dfy`** (`SettingsTypes`): the novel-settings record and its default and
  empty constructors.
- **`settings_form.dfy`** (`SettingsForm`): the settings form's logic:
  - `moveItem` on an array clone, and the genre, tone and focus-area toggles;
  - the field setters, and the by-id add, edit, move and delete of list items;
  - the restore/import merge and the personality-tag input;
  - the prompt text `buildPrompt` pushes line by line, and the generate-click normalisation.
- **`library.dfy`** and **`library_export.dfy`** (`Library`, `LibraryExport`): the library
  filter, and the TXT/Markdown export text and file name.
- **`settings_page.dfy`** (`SettingsPage`): loading the stored profile, and the API-key
  cleaning loop of `handleSave`.
- **`quick_start.dfy`** (`QuickStart`): the home page's `handleQuickStart`. It runs sequential
  `URLSearchParams.set` calls over an ordered list of name/value pairs.
- **`generate_page.dfy`** (`GeneratePage`): the generation page's initial state, read from those
  parameters, and its genre toggle.
- Shared helpers:
  - **`text.dfy`** (`Text`): JavaScript's `trim`, `indexOf("\n")`, `split`, `join` and ASCII
    `toLowerCase`, plus number rendering;
  - **`lists.dfy`** (`Lists`): `filter(x => x !== v)` and the toggle idiom;
  - **`wrappers.dfy`** (`Wrappers`): `Option`.

Network, database and authentication results are inputs of the model. This covers the
upstream response, the Supabase rows, and whether a user is signed in. `JSON.parse` and
`JSON.stringify` are function parameters (`parse`, `encodeDelta`, `stringify`). Decoded
response bodies are sequences of string chunks. Identifiers drawn by `randomId` are parameters.
The temperature is a `real` that is carried along but never computed with. `buildPrompt` renders
it through a parameter `showReal`.

## Model

| member | source | states |
|---|---|---|
| Lists.RemoveAll | src/components/novel-settings/NovelSettingsForm.tsx:154-161 | the value is absent from the result; every other element is kept, nothing new appears, and a list without the value is returned unchanged |
| Lists.Toggle | src/components/novel-settings/NovelSettingsForm.tsx:154-161 | the value is in the result exactly when it was not in the list; other elements are kept; an absent value is appended at the end |
| Lists.RemoveAllAppended | src/pages/Generate.tsx:45-49 | removing a value that was just appended to a list without it gives back the list |
| Lists.ToggleTwiceAbsent | src/components/novel-settings/NovelSettingsForm.tsx:154-161 | toggling an absent value twice restores the list |
| Lists.ToggleTwicePresent | src/components/novel-settings/NovelSettingsForm.tsx:200-210 | toggling a present value twice drops all its copies and appends one at the end |
| Lists.RemoveAllSnoc | src/components/novel-settings/NovelSettingsForm.tsx:891 | filtering a list with one more element filters the list and keeps that element unless it is the removed value |
| SettingsTypes.EmptySideCharacter | src/components/novel-settings/types.ts:175-189 | a new side character keeps its id, is male, and has every other text field empty and no personality tags |
| SettingsTypes.EmptyAntagonist | src/components/novel-settings/types.ts:191-196 | a new antagonist has the empty side-character fields under its id, with no motive and no fate |
| SettingsTypes.EmptyPlotBeat | src/components/novel-settings/types.ts:198-202 | a new plot beat has its id and an empty title and detail |
| SettingsTypes.EmptyTaboo | src/components/novel-settings/types.ts:204-207 | a new taboo has its id and empty content |
| SettingsTypes.EmptyReferenceWork | src/components/novel-settings/types.ts:209-213 | a new reference work has its id and an empty title and inspiration |
| SettingsTypes.DefaultNovelSettings | src/components/novel-settings/types.ts:215-254 | fresh settings: every list and free text empty, a male protagonist, 100000 total and 3000 per-chapter words (in both places), temperature 0.7, all flags off; the default narration and cheat level are members of their enumerations |
| SettingsForm.MovedAt | src/components/novel-settings/NovelSettingsForm.tsx:88-94 | element by element, where each item of a valid move lands: the moved item at `to`, the items between shifted by one, the rest in place |
| SettingsForm.MovedIsPermutation | src/components/novel-settings/NovelSettingsForm.tsx:88-94 | every move, valid or not, keeps the length and the multiset of items |
| SettingsForm.MovedKeepsOthersInOrder | src/components/novel-settings/NovelSettingsForm.tsx:88-94 | after a valid move the item from `from` sits at `to`, and the other items keep their relative order |
| SettingsForm.MoveItem | src/components/novel-settings/NovelSettingsForm.tsx:88-94 | the clone-and-splice on an array gives `Moved`: unchanged for equal or out-of-range indices, otherwise the reordering above |
| SettingsForm.ToggleGenre | src/components/novel-settings/NovelSettingsForm.tsx:154-161 | the genre is selected afterwards exactly when it was not before; nothing else in the settings changes |
| SettingsForm.ToggleTone | src/components/novel-settings/NovelSettingsForm.tsx:200-210 | the tone is selected afterwards exactly when it was not; only the tone list of the writing style changes |
| SettingsForm.ToggleFocusArea | src/components/novel-settings/NovelSettingsForm.tsx:212-222 | the focus area is selected afterwards exactly when it was not; only the focus-area list changes |
| SettingsForm.ToggleGenreTwice | src/components/novel-settings/NovelSettingsForm.tsx:154-161 | toggling an unselected genre twice gives back the same settings |
| SettingsForm.ChangeMain | src/components/novel-settings/NovelSettingsForm.tsx:163-171 | the named protagonist field takes the value; the other protagonist fields and the rest of the settings are unchanged |
| SettingsForm.ChangeText | src/components/novel-settings/NovelSettingsForm.tsx:173-178 | the named top-level text field takes the value; every other field is unchanged |
| SettingsForm.ChangeWorldDetail | src/components/novel-settings/NovelSettingsForm.tsx:180-188 | the named world-detail field takes the value; the other world details and the rest are unchanged |
| SettingsForm.ChangeWritingStyle | src/components/novel-settings/NovelSettingsForm.tsx:190-198 | exactly the named writing-style field takes the value; tones, focus areas and everything outside the style are unchanged |
| SettingsForm.ChangeTotalWords | src/components/novel-settings/NovelSettingsForm.tsx:738-743 | the total word count takes the value and nothing else changes |
| SettingsForm.SetFlag | src/components/novel-settings/NovelSettingsForm.tsx:224-229 | the named switch takes the value; the other two switches and the rest are unchanged |
| SettingsForm.DeleteById | src/components/novel-settings/NovelSettingsForm.tsx:891 | no item with the id remains, every kept item was in the list, and the id list is the old one with that id filtered out |
| SettingsForm.UpdateById | src/components/novel-settings/NovelSettingsForm.tsx:906-912 | same length; each item with the id is edited in place, every other item is unchanged |
| SettingsForm.AddItem | src/components/novel-settings/NovelSettingsForm.tsx:826-831 | the chosen list, whichever of the six it is, gets exactly the empty item with the new id appended at its end; the other lists and fields are unchanged |
| SettingsForm.DeleteItem | src/components/novel-settings/NovelSettingsForm.tsx:891-1719 | the chosen list, whichever of the six it is, becomes exactly its by-id filter (the items carrying the id dropped, every other item kept as it was and in order), so the id is gone and the ids are filtered; the other lists and fields are unchanged |
| SettingsForm.DeleteAdded | src/components/novel-settings/NovelSettingsForm.tsx:826-891 | deleting an item just added under a new id restores the list's ids and leaves the rest as before |
| SettingsForm.MoveListItem | src/components/novel-settings/NovelSettingsForm.tsx:864-1530 | only the four lists with up/down arrows (side characters, antagonists, middle beats, subplots) can be moved; the chosen list becomes exactly `Moved` of itself, its ids are moved the same way, and the rest is unchanged |
| SettingsForm.MovedIds | src/components/novel-settings/NovelSettingsForm.tsx:864-878 | moving items and then taking their ids equals moving the ids |
| SettingsForm.SetCharacterField | src/components/novel-settings/NovelSettingsForm.tsx:906-1120 | the named field takes the value (the "其他" choice of the relation and arc selects is stored as ""); the other fields, the id, the nickname and the tags are unchanged |
| SettingsForm.EditSideCharacter | src/components/novel-settings/NovelSettingsForm.tsx:906-1120 | exactly the side characters with the id get the field edit; the list length and everything else are unchanged |
| SettingsForm.SetAntagonistField | src/components/novel-settings/NovelSettingsForm.tsx:1218-1312 | each of the six edits sets exactly its own field (name, gender, age and abilities on the base character; motive and fate on the antagonist) and leaves every other field as it was |
| SettingsForm.EditAntagonist | src/components/novel-settings/NovelSettingsForm.tsx:1218-1312 | exactly the antagonists with the id get the edit; length and the rest unchanged |
| SettingsForm.EditMiddleBeat | src/components/novel-settings/NovelSettingsForm.tsx:1378-1398 | exactly the middle beats with the id get the new title or detail; length and the rest unchanged |
| SettingsForm.EditSubplot | src/components/novel-settings/NovelSettingsForm.tsx:1484-1504 | exactly the subplots with the id get the new title or detail; length and the rest unchanged |
| SettingsForm.EditTaboo | src/components/novel-settings/NovelSettingsForm.tsx:1621-1628 | exactly the taboos with the id get the new content; length and the rest unchanged |
| SettingsForm.EditReference | src/components/novel-settings/NovelSettingsForm.tsx:1689-1709 | exactly the reference works with the id get the new title or inspiration; length and the rest unchanged |
| SettingsForm.TrimEach | src/components/novel-settings/NovelSettingsForm.tsx:1062 | each piece is replaced by its trimmed text, in order |
| SettingsForm.TrimEachPieces | src/components/novel-settings/NovelSettingsForm.tsx:1062 | pieces that contain no separator are left unchanged by the trim |
| SettingsForm.SplitTags | src/components/novel-settings/NovelSettingsForm.tsx:1060-1063 | every tag the input yields is non-empty and contains none of `,` `，` `、` or whitespace |
| SettingsForm.SplitJoinedTags | src/components/novel-settings/NovelSettingsForm.tsx:1057-1063 | splitting the `、` join of one or more separator-free tags at the separators gives back the tags |
| SettingsForm.SplitTagsOfJoin | src/components/novel-settings/NovelSettingsForm.tsx:1057-1063 | the tag input reads back the `、`-joined display of non-empty, separator-free tags as the same tags |
| SettingsForm.SetPersonalityTags | src/components/novel-settings/NovelSettingsForm.tsx:1058-1070 | exactly the side characters with the id get the tags split from the input; the rest is unchanged |
| SettingsForm.MergeMain | src/components/novel-settings/NovelSettingsForm.tsx:130 | an absent protagonist keeps the previous one; otherwise each of name, gender, age and personality takes the parsed value when present and keeps the previous one when absent |
| SettingsForm.MergeWorld | src/components/novel-settings/NovelSettingsForm.tsx:131 | absent world details keep the previous ones; otherwise each of the five fields takes the parsed value when present and keeps the previous one when absent |
| SettingsForm.MergeStyle | src/components/novel-settings/NovelSettingsForm.tsx:132 | an absent writing style keeps the previous one; otherwise each of the six fields takes the parsed value when present and keeps the previous one when absent |
| SettingsForm.MergeSettings | src/components/novel-settings/NovelSettingsForm.tsx:128-135 | an empty partial changes nothing; each of the seventeen flat fields takes the parsed value when present and keeps the previous one when absent; the protagonist, world details and writing style are merged field by field |
| SettingsForm.MergeExported | src/components/novel-settings/NovelSettingsForm.tsx:264-287 | importing (or restoring) the complete settings that were exported gives exactly those settings, whatever the previous state |
| SettingsForm.RelationText | src/components/novel-settings/NovelSettingsForm.tsx:307-308 | a custom relationship wins over the chosen one, which wins over 未填写关系 |
| SettingsForm.ArcText | src/components/novel-settings/NovelSettingsForm.tsx:314 | a custom arc wins over the chosen one, which wins over 未填写 |
| SettingsForm.Numbered | src/components/novel-settings/NovelSettingsForm.tsx:306-317 | one line per item, rendered with its zero-based index and in item order |
| SettingsForm.PushNumbered | src/components/novel-settings/NovelSettingsForm.tsx:306-317 | the `forEach` push loop appends exactly the numbered lines |
| SettingsForm.TabooLinesSnoc | src/components/novel-settings/NovelSettingsForm.tsx:377-379 | one more taboo adds its numbered trimmed line, or nothing when its text is blank |
| SettingsForm.PushTaboos | src/components/novel-settings/NovelSettingsForm.tsx:377-379 | the taboo loop appends exactly the taboo lines |
| SettingsForm.PushSideSection | src/components/novel-settings/NovelSettingsForm.tsx:304-319 | appends exactly the side-character section |
| SettingsForm.PushAntagonistSection | src/components/novel-settings/NovelSettingsForm.tsx:320-337 | appends exactly the antagonist section |
| SettingsForm.PushMiddleBeatSection | src/components/novel-settings/NovelSettingsForm.tsx:349-354 | appends exactly the middle-beat section |
| SettingsForm.PushSubplotSection | src/components/novel-settings/NovelSettingsForm.tsx:355-360 | appends exactly the subplot section |
| SettingsForm.PushPlotLines | src/components/novel-settings/NovelSettingsForm.tsx:347-362 | appends exactly the plot block |
| SettingsForm.PushStyleLines | src/components/novel-settings/NovelSettingsForm.tsx:363-374 | appends exactly the writing-style block with its optional flag lines |
| SettingsForm.PushTabooSection | src/components/novel-settings/NovelSettingsForm.tsx:375-381 | appends exactly the taboo section |
| SettingsForm.PushReferenceSection | src/components/novel-settings/NovelSettingsForm.tsx:382-390 | appends exactly the reference section |
| SettingsForm.BuildPrompt | src/components/novel-settings/NovelSettingsForm.tsx:289-393 | the pushed lines are the prompt's blocks in the source's order, joined by line feeds |
| SettingsForm.TabooLinesFilter | src/components/novel-settings/NovelSettingsForm.tsx:375-381 | the taboo lines are the numbered lines of all taboos with the blank ones dropped, so each keeps the number of its position |
| SettingsForm.TabooNumberingSkips | src/components/novel-settings/NovelSettingsForm.tsx:377-379 | with a blank taboo second, the lines are numbered 1 and 3 |
| SettingsForm.OptionalSections | src/components/novel-settings/NovelSettingsForm.tsx:304-390 | each of the six list sections is empty exactly when its list is empty; a non-empty side-character, antagonist or reference section is its heading, then item k's line numbered k+1, then one more line |
| SettingsForm.SideSectionShape | src/components/novel-settings/NovelSettingsForm.tsx:304-319 | a non-empty side-character section has two lines more than there are characters: the heading 【配角设定】, then character k's line numbered `k+1. ` |
| SettingsForm.AntagonistSectionShape | src/components/novel-settings/NovelSettingsForm.tsx:320-337 | a non-empty antagonist section has the heading 【反派 / 敌人】, then antagonist k's line numbered `k+1. `, two lines more than the antagonists |
| SettingsForm.ReferenceSectionShape | src/components/novel-settings/NovelSettingsForm.tsx:382-390 | a non-empty reference section has the heading 【参考作品与借鉴点】, then work k's line numbered `k+1. `, two lines more than the works |
| SettingsForm.DefaultHeader | src/components/novel-settings/NovelSettingsForm.tsx:290-303 | for fresh settings the header renders 未指定, 未填写, 未命名 and 未知 for the empty fields |
| SettingsForm.DefaultWorld | src/components/novel-settings/NovelSettingsForm.tsx:338-346 | for fresh settings every world line reads 未填写 |
| SettingsForm.DefaultPlot | src/components/novel-settings/NovelSettingsForm.tsx:347-362 | for fresh settings the plot block is the opening as 未填写 and the ending as 未指定, with no beat or subplot section |
| SettingsForm.DefaultBudget | src/components/novel-settings/NovelSettingsForm.tsx:368-370 | for fresh settings the length line names 100000 and 3000 words and the temperature 0.7 |
| SettingsForm.DefaultStyle | src/components/novel-settings/NovelSettingsForm.tsx:363-374 | for fresh settings the style block is seven fixed lines without flag lines |
| SettingsForm.DefaultPrompt | src/components/novel-settings/NovelSettingsForm.tsx:289-393 | for fresh settings the prompt has no side, antagonist, taboo or reference section: header, world, plot, style and the closing line |
| SettingsForm.ForGeneration | src/components/novel-settings/NovelSettingsForm.tsx:405-411 | the settings handed on have chapterWords set to the writing style's words per chapter and nothing else changed |
| PromptBuilder.When | supabase/functions/generate-novel/index.ts:64-88 | a line is pushed exactly when its condition holds, and it is its heading followed by the text |
| PromptBuilder.Present | supabase/functions/generate-novel/index.ts:61-91 | the pushed lines never outnumber the candidates |
| PromptBuilder.PresentAppend | supabase/functions/generate-novel/index.ts:61-91 | pushing two runs of candidates gives the lines of the first run followed by those of the second |
| PromptBuilder.PresentSingle | supabase/functions/generate-novel/index.ts:64-88 | one candidate pushes its line when present and nothing when absent |
| PromptBuilder.PresentOnlySet | supabase/functions/generate-novel/index.ts:61-91 | every pushed line is the line of a present candidate |
| PromptBuilder.PresentOrder | supabase/functions/generate-novel/index.ts:61-91 | two present candidates give their lines in candidate order |
| PromptBuilder.PresentEmptyIff | supabase/functions/generate-novel/index.ts:61-91 | no line is pushed exactly when every candidate is absent |
| PromptBuilder.UserParts | supabase/functions/generate-novel/index.ts:61-91 | the pushed lines are the present candidates in push order (eleven settings lines, then four context lines); none is empty, and there are none exactly when no settings or context field is truthy |
| PromptBuilder.SlotsAnyField | supabase/functions/generate-novel/index.ts:64-89 | some candidate line is present exactly when some field is truthy |
| PromptBuilder.BuildUserPrompt | supabase/functions/generate-novel/index.ts:61-92 | the prompt is the pushed lines joined by line feeds, and it is empty exactly when no settings or context field is truthy |
| PromptBuilder.SetFieldsAppear | supabase/functions/generate-novel/index.ts:64-91 | every present line occurs in the prompt |
| PromptBuilder.OnlySetFieldsAppear | supabase/functions/generate-novel/index.ts:64-89 | every line of the prompt is the line of a truthy field: a falsy field contributes none |
| PromptBuilder.SetFieldsInOrder | supabase/functions/generate-novel/index.ts:64-89 | the lines of two truthy fields appear in push order |
| PromptBuilder.ProtagonistAppears | supabase/functions/generate-novel/index.ts:65-68 | a protagonist with a name contributes its line to the prompt |
| PromptBuilder.ChapterRequestLast | supabase/functions/generate-novel/index.ts:87-91 | a truthy chapter number makes "请生成第N章" the end of the prompt |
| PromptBuilder.NoContextPrompt | supabase/functions/generate-novel/index.ts:61-91 | without a context only the eleven settings lines are joined |
| PromptBuilder.TruncateContext | supabase/functions/generate-novel/index.ts:95-98 | the result is a suffix of the text of at most maxChars characters: the text itself when short enough, else exactly its last maxChars |
| PromptBuilder.TruncateIdempotent | supabase/functions/generate-novel/index.ts:95-98 | truncating twice to the same length is truncating once |
| PromptBuilder.ChapterSummary | supabase/functions/generate-novel/index.ts:106-107 | missing content gives ""; content of at most 500 characters is kept verbatim; longer content gives its first 500 characters and "..." |
| PromptBuilder.LastThree | supabase/functions/generate-novel/index.ts:103 | the last min(3, n) chapters, as a suffix of the list |
| PromptBuilder.Entries | supabase/functions/generate-novel/index.ts:105-109 | one `第N章 title：summary` entry per chapter, in order |
| PromptBuilder.BuildPreviousSummary | supabase/functions/generate-novel/index.ts:100-111 | "" exactly for no chapters |
| PromptBuilder.SummaryOfOne | supabase/functions/generate-novel/index.ts:100-111 | one chapter gives exactly its entry |
| PromptBuilder.SummaryOfTwo | supabase/functions/generate-novel/index.ts:100-111 | two chapters give their two entries in order, joined by a blank line |
| PromptBuilder.SummaryIgnoresOlder | supabase/functions/generate-novel/index.ts:103 | chapters before the last three do not change the summary |
| PromptBuilder.SummaryOfThree | supabase/functions/generate-novel/index.ts:104-110 | three chapters give their three entries in order, joined by a blank line |
| ClaudeTransform.Render | supabase/functions/generate-novel/index.ts:196-201 | every output event is a `data: ` line ending in a blank line; the end event is `data: [DONE]` |
| ClaudeTransform.LineEffect | supabase/functions/generate-novel/index.ts:185-207 | a line that is not a `data: ` line once trimmed is skipped; an emitted delta is never empty |
| ClaudeTransform.Process | supabase/functions/generate-novel/index.ts:172-211 | the events of a list of lines are never empty |
| ClaudeTransform.LineStep | supabase/functions/generate-novel/index.ts:184-204 | cutting one complete line off the buffer: `message_stop` ends everything with `[DONE]`; any other line's effect comes first, then the events of the rest |
| ClaudeTransform.DrainLines | supabase/functions/generate-novel/index.ts:182-208 | the inner loop emits the events of the complete lines it cut, stops at `message_stop`, and otherwise leaves a buffer without a line feed whose events complete the rest |
| ClaudeTransform.Transform | supabase/functions/generate-novel/index.ts:172-211 | however the upstream text is cut into chunks, the output equals the events of the concatenated text's complete lines |
| ClaudeTransform.DoneLast | supabase/functions/generate-novel/index.ts:177-180 | the last event is `[DONE]` |
| ClaudeTransform.DeltasBeforeDone | supabase/functions/generate-novel/index.ts:192-203 | every event before the last is a non-empty text delta, so exactly one `[DONE]` is emitted and nothing follows it |
| ClaudeTransform.DeltaLineEmits | supabase/functions/generate-novel/index.ts:192-198 | a delta line yields exactly its text as one delta, ahead of the events of the rest |
| ClaudeTransform.StopLineEnds | supabase/functions/generate-novel/index.ts:200-203 | after a `message_stop` line only `[DONE]` is emitted, whatever follows |
| ClaudeTransform.OtherLineDropped | supabase/functions/generate-novel/index.ts:187 | a non-`data: ` line is dropped |
| ClaudeTransform.UnterminatedTailIgnored | supabase/functions/generate-novel/index.ts:176-184 | text after the last line feed changes nothing |
| Gateway.LookupConfig | supabase/functions/generate-novel/index.ts:25-59 | a configuration exists exactly for deepseek, claude, grok and qwen; claude is Anthropic's endpoint without a bearer token, the others use one |
| Gateway.Headers | supabase/functions/generate-novel/index.ts:29-57 | JSON content type always; a bearer `Authorization` header, or Claude's `x-api-key` and `anthropic-version` |
| Gateway.LlmModel | supabase/functions/generate-novel/index.ts:271 | the requested model, or deepseek when none is given; never empty |
| Gateway.ContinueContext | supabase/functions/generate-novel/index.ts:302-308 | the outline is `truncateContext(outline, 4000)` and the summary `truncateContext` of the previous-chapter summary to 8000 (so the whole text when short enough, else exactly its last 4000 or 8000 characters); the characters are passed on; the chapter number is the chapter count + 1 |
| Gateway.ChapterAsked | supabase/functions/generate-novel/index.ts:312 | the requested chapter number when truthy, else 1 |
| Gateway.ModeContext | supabase/functions/generate-novel/index.ts:287-312 | generate mode asks for `chapterNumber \|\| 1` with no other context; continue mode with a novel id uses the continue context; every other case has none |
| Gateway.Prompts | supabase/functions/generate-novel/index.ts:311-325 | each known mode chooses its system prompt; an unknown mode keeps the chapter writer's prompt and an empty user prompt |
| Gateway.ChoosePrompts | supabase/functions/generate-novel/index.ts:283-325 | the step-by-step reassignment of the two prompts gives the prompts of the mode |
| Gateway.Outcome | supabase/functions/generate-novel/index.ts:135-356 | only a 500 is an error reply; a thrown fetch error gives a 500 carrying its own message; a non-ok upstream gives a 500 naming the provider family, the status and the body; an ok Claude upstream gives the translated stream of its text, any other ok upstream its chunks passed through |
| Gateway.Serve | supabase/functions/generate-novel/index.ts:218-357 | the gates answer in order: preflight, 401 without header, 401 without user, thrown body error as 500, 400 without key, 400 for an unsupported model (the corrected gate of the Findings table, which also refuses inherited names such as "toString"), 500 for missing settings; otherwise exactly one upstream call with the mode's prompts and the configuration's url, headers and model, and the reply of its outcome |
| Gateway.GenerateAsksForChapter | supabase/functions/generate-novel/index.ts:311-313 | the generate prompt ends by asking for chapter `chapterNumber \|\| 1` |
| Gateway.ContinueAsksForNext | supabase/functions/generate-novel/index.ts:302-315 | the continue prompt for a novel ends by asking for the chapter after the existing ones |
| Gateway.ContinueWithoutNovel | supabase/functions/generate-novel/index.ts:314-315 | continue without a novel id has only the settings lines |
| Gateway.OutlineRequestTotal | supabase/functions/generate-novel/index.ts:318 | the outline request names the total words, "100000" when none is set |
| Gateway.OutlineAfterSettings | supabase/functions/generate-novel/index.ts:316-318 | the outline prompt is the settings block followed by the outline request |
| Gateway.CharactersAfterSettings | supabase/functions/generate-novel/index.ts:319-321 | characters mode uses the character-card system prompt, and its prompt is the settings block followed by the character request |
| Gateway.RewriteContentFirst | supabase/functions/generate-novel/index.ts:322-324 | the rewrite prompt starts with the chapter to rewrite and ends with the settings block |
| Gateway.UpstreamFailureIs500 | supabase/functions/generate-novel/index.ts:162-165 | a non-ok upstream response becomes a 500 whose message starts with the provider family and status |
| Gateway.ClaudeStreamEnds | supabase/functions/generate-novel/index.ts:329-330 | an ok Claude answer is translated and ends with exactly one `[DONE]` |
| Gateway.LookupAsWritten | supabase/functions/generate-novel/index.ts:272 | an own entry exactly for the four models; no entry exactly for names that are neither models nor `Object.prototype` members |
| Gateway.ModelGateAsWritten | supabase/functions/generate-novel/index.ts:272-281 | as written, the gate lets exactly the four models through unanswered |
| Gateway.ModelGate | supabase/functions/generate-novel/index.ts:272-281 | every name outside the four models is refused with 400 and the unsupported-model message |
| Gateway.InheritedNameSlipsThrough | supabase/functions/generate-novel/index.ts:272-281 | "toString" is not a model, yet as written it gets a 500 where the intended gate answers 400 |
| Gateway.GatesAgreeElsewhere | supabase/functions/generate-novel/index.ts:272-281 | for every name that is not an inherited member the two gates agree |
| StreamClient.ErrorMessage | src/lib/stream-novel.ts:40-44 | never empty: "HTTP status" for a non-JSON body, the body's error when present, else "请求失败: status" |
| StreamClient.StripCR | src/lib/stream-novel.ts:66 | one trailing carriage return is removed, and only that |
| StreamClient.Classify | src/lib/stream-novel.ts:67-84 | a delivered content is never empty |
| StreamClient.FlushLine | src/lib/stream-novel.ts:91-103 | a flushed piece yields at most one non-empty delta |
| StreamClient.ScanStep | src/lib/stream-novel.ts:62-85 | cutting one line off the buffer ends the scan on `[DONE]`, delivers or skips the line, or stops with the line put back |
| StreamClient.PutBack | src/lib/stream-novel.ts:80-84 | putting an unparsable line back keeps the buffer in shape and the outcome of the scan |
| StreamClient.StuckLine | src/lib/stream-novel.ts:80-84 | an unparsable first line blocks the scan with the rest unread |
| StreamClient.DrainLines | src/lib/stream-novel.ts:59-85 | the inner loop delivers the deltas of the lines it cut, stops at `[DONE]`, and otherwise leaves a buffer whose scan completes the rest |
| StreamClient.Flush | src/lib/stream-novel.ts:89-105 | a blank buffer delivers nothing; otherwise every piece goes through the flush filters |
| StreamClient.Consume | src/lib/stream-novel.ts:51-107 | however the text is cut into chunks, the callbacks equal those of the concatenated text |
| StreamClient.StreamNovel | src/lib/stream-novel.ts:14-111 | the whole call gives the callbacks of its response: error paths first, then the reading loop |
| StreamClient.Finishing | src/lib/stream-novel.ts:71-74 | once the scan reaches `[DONE]`, `onDone` follows the deltas and nothing else is called |
| StreamClient.Ending | src/lib/stream-novel.ts:86-110 | at the end of the chunks, a read error reports only the error after the deltas; otherwise the flush deltas and `onDone` follow |
| StreamClient.EndOfStream | src/lib/stream-novel.ts:88-105 | the buffer left at the end delivers nothing in the main loop, and the flush of it is what the scan's stop leaves |
| StreamClient.MainScanDeltas | src/lib/stream-novel.ts:62-85 | the main loop delivers only deltas |
| StreamClient.EndsOnce | src/lib/stream-novel.ts:40-110 | exactly one of `onDone` and `onError` is called, last, after nothing but `onDelta` calls |
| StreamClient.NotOkReportsError | src/lib/stream-novel.ts:40-44 | a non-ok response calls only `onError`, with the error message |
| StreamClient.DoneEndsStream | src/lib/stream-novel.ts:71-74 | a `[DONE]` line ends the stream with `onDone`; nothing after it, not even a read error, is reported |
| StreamClient.DeltaLineDelivers | src/lib/stream-novel.ts:76-79 | a data line with content is delivered before everything that follows it |
| StreamClient.IgnoredLineSkipped | src/lib/stream-novel.ts:67-68 | comment lines, blank lines and non-`data: ` lines change nothing |
| StreamClient.CarriageReturnIgnored | src/lib/stream-novel.ts:66 | a line ending in "\r\n" is read like the line ending in "\n" |
| StreamClient.UnparsableLineDefersRest | src/lib/stream-novel.ts:80-105 | after an unparsable data line only the flush delivers the rest, then `onDone`; a read error reports only the error |
| StreamClient.UnterminatedTailFlushed | src/lib/stream-novel.ts:88-107 | an unterminated last line is delivered by the flush, then `onDone` |
| Library.Filtered | src/pages/Library.tsx:52-56 | the kept novels are novels of the list matching both tests, and no matching novel is dropped |
| Library.FilteredIsSubsequence | src/pages/Library.tsx:52-56 | the filter keeps the list's order |
| Library.KeptNovelMatches | src/pages/Library.tsx:53-54 | a kept novel's lowercased title contains the lowercased search, and any genre other than 全部 is in its genre list |
| Library.NoFilterKeepsAll | src/pages/Library.tsx:53-54 | an empty search with 全部 lists every novel |
| Library.NullGenreHidden | src/pages/Library.tsx:54 | a novel with a null genre list is hidden by every genre but 全部 |
| LibraryExport.SectionShape | src/pages/Library.tsx:72-74 | a text section opens with `第N章 title` and a blank line and ends with the content and a blank line; the Markdown section is the text section behind "## " |
| LibraryExport.SectionsSnoc | src/pages/Library.tsx:71-75 | one more chapter appends its section |
| LibraryExport.MarkdownAddsHeadingMarks | src/pages/Library.tsx:72-74 | Markdown adds exactly three characters per chapter |
| LibraryExport.FileName | src/pages/Library.tsx:81 | the title followed by ".md" or ".txt" and nothing else: it starts with the title, ends with the extension and is exactly three or four characters longer |
| LibraryExport.ExportTextShape | src/pages/Library.tsx:70-75 | the text opens with the title and a blank line, and each further chapter appends its section |
| LibraryExport.BuildContent | src/pages/Library.tsx:70-75 | the `content +=` loop builds the export text |
| LibraryExport.ExportNovel | src/pages/Library.tsx:58-84 | no file exactly for missing or no chapters; otherwise the export text under the file name |
| SettingsPage.LoadProfile | src/pages/SettingsPage.tsx:34-52 | no row keeps the state; otherwise the model falls back to deepseek and the flag to false |
| SettingsPage.LoadedKeys | src/pages/SettingsPage.tsx:45-48 | a stored key wins; every other key keeps its previous presence and value |
| SettingsPage.ProvidersKeepDefaults | src/pages/SettingsPage.tsx:25-30 | after loading every provider has a key entry, "" when none was stored |
| SettingsPage.CleanKeysSpec | src/pages/SettingsPage.tsx:58-62 | the saved keys are input keys with non-blank values, each trimmed; no non-blank entry is dropped |
| SettingsPage.CleanKeysIdempotent | src/pages/SettingsPage.tsx:58-62 | cleaning twice is cleaning once |
| SettingsPage.FilterKeys | src/pages/SettingsPage.tsx:59-62 | the `for ... of` loop builds the cleaned dictionary |
| SettingsPage.Save | src/pages/SettingsPage.tsx:54-79 | the saved row carries the chosen model, the flag and the cleaned keys |
| QuickStart.Without | src/pages/Index.tsx:27-31 | the pairs kept carry other names and come from the list |
| QuickStart.GetWithout | src/pages/Index.tsx:27-31 | dropping one name leaves every other name's value alone |
| QuickStart.GetAfterSet | src/pages/Index.tsx:28-31 | after `set` the name reads back the value and every other name reads as before |
| QuickStart.SetAbsentAppends | src/pages/Index.tsx:28-31 | setting a new name appends its pair |
| QuickStart.GetAppend | src/pages/Index.tsx:27-31 | the first value of a name in two lists comes from the front one when it has the name |
| QuickStart.GetSingle | src/pages/Index.tsx:28-31 | one field's pair is read back exactly when the field is non-empty |
| QuickStart.HandleQuickStart | src/pages/Index.tsx:26-33 | the conditional `set` calls give each non-empty field under its name in the order genre, protagonist, style, synopsis, and the target is "/generate?" with the query |
| QuickStart.ReadBack | src/pages/Index.tsx:27-31 | four distinct names each read back their own field, or nothing when it is empty |
| QuickStart.QueryReadsBack | src/pages/Index.tsx:27-31 | each quick-start name is in the query exactly when its field is non-empty, with the field's text verbatim |
| QuickStart.EmptyQuickStart | src/pages/Index.tsx:32 | all-empty fields give no pairs and the target "/generate?" |
| GeneratePage.ParamOr | src/pages/Generate.tsx:26 | the parameter's value, or "" when it is absent |
| GeneratePage.InitialForm | src/pages/Generate.tsx:23-40 | genres is the genre parameter alone when non-empty, else empty; name, style and synopsis come from their parameters; the rest starts fixed (男, "100000", "3000", 第三人称, all flags off) |
| GeneratePage.ToggleGenre | src/pages/Generate.tsx:45-49 | a present genre is filtered out, an absent one appended; the rest of the form is unchanged |
| GeneratePage.ToggleGenreTwice | src/pages/Generate.tsx:45-49 | toggling an absent genre twice restores the form |
| GeneratePage.HandOff | src/pages/Index.tsx:26-33 | the quick-start fields arrive on the generation page: a non-empty genre as the only selected genre, and the name, style and synopsis verbatim |

## Left out

- Network, database and authentication are not modelled as effects. Their results are inputs:
  - the upstream response, its status and its chunks;
  - the novel, chapter and character rows;
  - whether `getUser` found a user;
  - the client's fetch result.
- CORS headers, response headers, `console.error`, `ReadableStream`, `TextEncoder` and `TextDecoder` are left out. Bodies are modelled as decoded string chunks.
- `JSON.parse` and `JSON.stringify` are function parameters. The model does not see how they escape text or what they fail on.
- Browser effects are left out:
  - localStorage and the auto-save debounce;
  - file input and JSON export;
  - clipboard, Blob/URL download, toasts and navigation.
  The merge, the file name and the content they work with are modelled.
- `randomId` is not modelled. Ids are parameters of the constructors and of `AddItem`.
- Floating point is not modelled:
  - the temperature slider and `toFixed`;
  - the `v / 10000` of `totalWordsLabel`;
  - the rendering of the temperature in `buildPrompt`, which goes through the `showReal` parameter.
- `handleReset` is left out beyond `DefaultNovelSettings`; the rest of it is the localStorage removal.
- `Number(e.target.value || 0)` for the total words is left out. `ChangeTotalWords` takes the parsed integer.
- `URLSearchParams` percent-encoding, and Unicode case folding in `toLowerCase`, are left out. Lowercasing is ASCII only.
- String lengths count Dafny characters, not UTF-16 code units. The 500, 4000 and 8000 limits are applied to this count.
- Gateway.Prompts: the four system prompts are named by `SystemKind` rather than compared as literals.
- Gateway.Serve:
  - `max_tokens` and `stream: true` of the upstream body are not fields of `UpstreamCall`;
  - an empty `Authorization` header is treated as missing.
- Gateway.Serve: the model gate is the corrected one of the Findings table. For the twelve names `Object.prototype` provides (such as "toString") Serve answers the intended 400, where the handler as written answers 500; Gateway.ModelGateAsWritten models that behaviour.
- Gateway.Serve: a request without `settings` in a known mode is modelled as the `TypeError` 500. Arrays counted as objects and other JavaScript coercions of `settings` are not modelled.
- StreamClient.StreamNovel:
  - a JSON `null` error body is not modelled;
  - neither is a thrown non-`Error` value, which gives "网络错误";
  - callbacks are assumed not to throw.
- The order of `Object.entries` in `handleSave` is not modelled. The saved value is a map.
- PromptBuilder.BuildUserPrompt: an absent protagonist gender is modelled as "", where JavaScript would print "undefined".
- src/lib/provider-types.ts and the pages' rendering markup are not part of this model.

## Findings

| source | as written | input that shows it | evidently intended | confidence | as-written member | corrected member |
|---|---|---|---|---|---|---|
| supabase/functions/generate-novel/index.ts:272-281 | `LLM_CONFIGS[llmModel]` also finds the members a plain object inherits from `Object.prototype`, so `!config` lets them through | a request with `model: "toString"` and a `settings` object gets a 500 "config.headerBuilder is not a function" from the later `config.headerBuilder(apiKey)` call | every name outside deepseek, claude, grok and qwen is refused with 400 "不支持的模型: …" | not executed | Gateway.ModelGateAsWritten, Gateway.InheritedNameSlipsThrough | Gateway.ModelGate, Gateway.LookupConfig |
