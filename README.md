# UniMate core, modelled in Dafny

UniMate is a student app for React Native. It keeps a timetable, chats with an AI assistant, drafts documents, slide decks and practice problems, summarises lecture videos and meetings, and stores files. This project models the logic beneath the screens:

- **Stores.** Each feature's in-memory store is a class whose fields its actions replace: chat, documents, slides, problems, timetable, scheduler, auth, drive, video summaries, meetings, designer.
- **Parsers.** Two parsers turn AI output into slides and problems. They split lines, strip leading markers, cap the count and fall back to fixed entries.
- **YouTube.** Finding the video id in a link, and formatting the `[m:ss] text` transcript.
- **Slide export.** The plain-text serialiser and the file-name sanitiser.
- **Timetable grid.** The hour window, the block geometry, the per-day columns and the cell predicates.
- **AI routing.** Choosing a provider adapter, and the two mock adapters.

Modelling conventions:

- **Inputs stand in for what the app reads from the outside.**
  - `uid()` results are explicit id parameters, and the clock is a `now` string.
  - Whether an OpenAI key is stored is the boolean `hasKey`.
  - The parsers take one id per possible item (`ids`); item k gets `ids[k]`.
- **Strings are sequences of UTF-16 code units**, one `char` each. This is what `slice`, `trim` and the character-class replace work on.
- **Optional fields** (`classId?`, `note?`, …) are `Option` values.
- **The two loops are methods proved against a spec function.** `for (const line of lines)` in `parseSlides` and `parseProblems` is `Slides.CollectSlides` and `Problems.CollectProblems`. Each is proved equal to numbering the first 12 (or 5) non-empty normalised lines. Recursive functions state the same thing, and lemmas relate them to `filter`/`map`.

## Model

| member | source | states |
|---|---|---|
| Text.Trim | src/stores/slidesStore.ts:15 | `trim()` gives a string no longer than its input, with no whitespace at either end |
| Text.TrimSplits | src/stores/slidesStore.ts:15 | the input is blank text, then the trimmed text, then blank text: trimming removes only whitespace at the ends |
| Text.TrimEmptyIffBlank | src/stores/chatStore.ts:32 | trimming gives "" iff the string is empty or all whitespace (what makes `trim() \|\| default` pick the default) |
| Text.TrimIdempotent | src/stores/chatStore.ts:32 | trimming twice is trimming once |
| Text.Split | src/stores/slidesStore.ts:14 | `split('\n')` gives at least one piece, and no piece contains the separator |
| Text.JoinSplit | src/stores/slidesStore.ts:14 | joining the pieces of a split with the separator gives back the string |
| Text.SplitJoin | src/services/slides/exportPptx.ts:8-11 | splitting a join of separator-free pieces gives back the pieces |
| Text.Join | src/services/slides/exportPptx.ts:8-11 | `join(sep)`: no pieces give "", one piece gives itself; the separator between further pieces is the definition |
| Text.SlicePrefix | src/stores/chatStore.ts:129 | `slice(0, n)` is a prefix of length min(n, length) |
| Text.Decimal | src/services/ai/youtube.ts:45 | a number prints as digits with no leading zero |
| Text.DecimalRoundTrip | src/services/ai/youtube.ts:45 | reading a printed number back gives the number |
| Text.PadStart2 | src/services/ai/youtube.ts:45 | `padStart(2, '0')` keeps the string as its suffix, pads to length 2 with '0' and leaves longer strings alone |
| Text.LeadingZeroValue | src/services/ai/youtube.ts:45 | a leading '0' does not change a numeral's value |
| Seqs.Filter | src/stores/timetableStore.ts:73-74 | `filter` keeps exactly the elements satisfying the predicate, and never lengthens the list |
| Seqs.Find | src/stores/problemStore.ts:84 | `find` gives nothing iff no element matches, else the first match |
| Seqs.Map | src/services/slides/exportPptx.ts:6-8 | `map` keeps the length and applies the function to each element |
| Seqs.Update | src/stores/documentStore.ts:67-75 | mapping with a patch on matching elements keeps the length, patches the matches and keeps the others |
| Seqs.FilterConcat | src/stores/slidesStore.ts:16 | filtering distributes over concatenation, so it keeps relative order |
| Seqs.FilterIdempotent | src/stores/designerStore.ts:41 | filtering twice by the same predicate is filtering once |
| Seqs.FilterPrepended | src/stores/driveStore.ts:38-44 | removing a just-prepended element the predicate rejects gives back the old list |
| Seqs.FilterComplement | src/stores/timetableStore.ts:74-77 | filtering by a predicate and by its complement partitions the list: the two multisets add up to the list's, and so do the lengths |
| Outline.StripMarkers | src/stores/slidesStore.ts:23 | `replace(/^[-*\d.\s]+/, '')` leaves a string that does not start with a marker character |
| Outline.StripMarkersSplits | src/stores/slidesStore.ts:23 | the removed part is a prefix made only of marker characters |
| Outline.Normalize | src/stores/slidesStore.ts:23 | a normalised line is empty, or starts with a character that is not a marker and ends with one that is not whitespace |
| Outline.NormalizeSplits | src/stores/slidesStore.ts:23 | the entry is the middle of the line: only marker characters come before it and only whitespace after it |
| Outline.NormalizeNumbered | src/stores/problemStore.ts:30 | a line "d. text" normalises to `text` when text starts with a non-marker and ends with a non-space |
| Outline.NormalizeMarkerOnly | src/stores/slidesStore.ts:23-24 | a line of marker characters only normalises to "" and is skipped |
| Outline.TrimmedLines | src/stores/slidesStore.ts:13-16 | the non-blank trimmed lines: no more than the pieces, none empty |
| Outline.TrimmedLinesAsFilter | src/stores/slidesStore.ts:13-16 | those lines are exactly `map(trim).filter(Boolean)` of the pieces |
| Outline.Entries | src/stores/slidesStore.ts:21-24 | the titles the loop can take, in line order; each is a title |
| Outline.EntriesAsFilter | src/stores/slidesStore.ts:21-24 | those titles are exactly the normalised lines with the empty ones dropped, in order |
| Outline.EntriesSnoc | src/stores/slidesStore.ts:21-24 | one more line adds that line's title, if any, at the end |
| Outline.EntriesPrefix | src/stores/slidesStore.ts:21-24 | the titles of a prefix of the lines are a prefix of all titles |
| Outline.Take | src/stores/slidesStore.ts:22 | the first n elements, or all of them |
| Slides.Numbered | src/stores/slidesStore.ts:19-35 | parsed slides are numbered 1..n in order, with `ids[k]`, the title and the three fixed bullets |
| Slides.SlidesFromEntries | src/stores/slidesStore.ts:21-51 | 1 to 12 slides, orders 1..n; with no titles, the two fallback slides; else min(titles, 12) slides with the titles in order and the fixed bullets |
| Slides.CollectSlides | src/stores/slidesStore.ts:18-36 | the `for` loop with its break at 12 and its skip of empty titles yields exactly the first 12 numbered titles |
| Slides.ParseSlides | src/stores/slidesStore.ts:12-54 | `parseSlides` equals the spec function `ParsedSlides` (split, trim, filter, loop, fallback) |
| Slides.ParseStep | src/stores/slidesStore.ts:22-35 | one loop iteration keeps the loop invariant: skipping an empty title or appending the next numbered slide |
| Slides.ParseFull | src/stores/slidesStore.ts:22 | breaking at 12 slides leaves exactly the first 12 numbered titles |
| Slides.ParseEnd | src/stores/slidesStore.ts:21-36 | running out of lines leaves the numbered titles of all lines |
| Slides.ParseFallback | src/stores/slidesStore.ts:38-51 | the fallback step turns the loop result into `SlidesFromEntries` |
| Slides.NumberedSnoc | src/stores/slidesStore.ts:25-35 | numbering one more title appends one slide with the next order |
| Slides.ActiveDeckOf | src/stores/slidesStore.ts:120-124 | `getActiveDeck` gives a deck iff the active id is set, non-empty and names a deck, and then a deck with that id |
| Slides.RemoveDeckUnknown | src/stores/slidesStore.ts:91-99 | removing an id no deck has keeps the decks |
| Slides.RemoveDeckIdempotent | src/stores/slidesStore.ts:91-99 | removing twice is removing once |
| Slides.RemoveDeckKeepsActive | src/stores/slidesStore.ts:91-99 | the active id changes only when the removed deck was active, to the new head or none; an active id naming a deck still names one |
| Slides.PatchDecksOnlyTarget | src/stores/slidesStore.ts:101-118 | `updateSlide` changes only title/bullets of the matched slide in the matched deck; ids, orders, counts and other decks and slides are unchanged |
| Slides.PatchDecksIdempotent | src/stores/slidesStore.ts:101-118 | applying the same patch twice is applying it once |
| Slides.PatchSlide | src/stores/slidesStore.ts:107-113 | definition, no contract; `{ ...slide, ...patch }`: each field the patch gives replaces the slide's |
| Slides.PatchDecks | src/stores/slidesStore.ts:103-117 | definition, no contract; the target deck's target slide patched; `PatchDecksOnlyTarget` and `PatchDecksIdempotent` state its properties |
| Slides.RemainingDecks | src/stores/slidesStore.ts:93 | definition, no contract; the decks whose id is not the removed one; `RemoveDeckUnknown` and `RemoveDeckIdempotent` state its properties |
| Slides.ActiveAfterRemoval | src/stores/slidesStore.ts:94 | definition, no contract; the new head's id, or none, when the removed deck was active, else the old active id; `RemoveDeckKeepsActive` states the second case |
| Slides.SlidesStore.constructor | src/stores/slidesStore.ts:66-68 | the store starts with no decks and no active deck |
| Slides.SlidesStore.CreateDeck | src/stores/slidesStore.ts:70-87 | prepends a deck whose slides are the parsed outline, opens it and returns its id |
| Slides.SlidesStore.SetActiveDeck | src/stores/slidesStore.ts:89 | sets the active id; decks unchanged |
| Slides.SlidesStore.RemoveDeck | src/stores/slidesStore.ts:91-99 | drops the deck; the active id follows `ActiveAfterRemoval` |
| Slides.SlidesStore.UpdateSlide | src/stores/slidesStore.ts:101-118 | decks become `PatchDecks` of the old decks; the active id is unchanged |
| Slides.SlidesStore.ActiveDeck | src/stores/slidesStore.ts:120-124 | reads the store: the deck with the active id, or none |
| Problems.Enumerated | src/stores/problemStore.ts:26-33 | parsed problems are numbered 1..n in order with `ids[k]` and the prompt |
| Problems.EnumeratedSnoc | src/stores/problemStore.ts:32-33 | one more prompt appends one item with the next order |
| Problems.ProblemsFromEntries | src/stores/problemStore.ts:25-38 | 1 to 5 items, orders 1..n; with no prompts the single fallback item of order 1; else min(prompts, 5) items with the prompts in order |
| Problems.CollectProblems | src/stores/problemStore.ts:25-34 | the loop with its break at 5 yields exactly the first 5 numbered prompts |
| Problems.ParseProblems | src/stores/problemStore.ts:19-41 | `parseProblems` equals the spec function `ParsedProblems` |
| Problems.ParseStep | src/stores/problemStore.ts:29-33 | one loop iteration keeps the loop invariant |
| Problems.ParseFull | src/stores/problemStore.ts:29 | breaking at 5 items leaves the first 5 numbered prompts |
| Problems.ParseEnd | src/stores/problemStore.ts:28-34 | running out of lines leaves the numbered prompts of all lines |
| Problems.ParseFallback | src/stores/problemStore.ts:36-38 | the fallback step turns the loop result into `ProblemsFromEntries` |
| Problems.SetById | src/stores/problemStore.ts:84 | the first set with the id, or none iff no set has it |
| Problems.AttemptsBySetIdPrepend | src/stores/problemStore.ts:80-85 | the query over a newer attempt and the rest is that attempt, when it matches, followed by the query over the rest: newest first |
| Problems.AttemptsBySetIdExact | src/stores/problemStore.ts:85 | exactly the attempts of that set are returned |
| Problems.AttemptsBySetId | src/stores/problemStore.ts:85 | definition, no contract; `filter` by set id; `AttemptsBySetIdExact` and `AttemptsBySetIdPrepend` state its properties |
| Problems.ProblemStore.constructor | src/stores/problemStore.ts:53-54 | no sets, no attempts |
| Problems.ProblemStore.CreateSet | src/stores/problemStore.ts:56-69 | prepends a set whose raw text is the generated text and whose problems are its parse; attempts untouched |
| Problems.ProblemStore.SubmitAttempt | src/stores/problemStore.ts:71-82 | prepends an attempt holding answers, score and feedback verbatim; sets untouched |
| Problems.ProblemStore.GetSetById | src/stores/problemStore.ts:84 | a set with that id from the store, or none iff none has it |
| Problems.ProblemStore.GetAttemptsBySetId | src/stores/problemStore.ts:85 | exactly the stored attempts of that set |
| Timetable.ClassById | src/stores/timetableStore.ts:76 | the first class with the id, or none iff no class has it |
| Timetable.SeedValid | src/stores/timetableStore.ts:28-47 | the seed slot names the seed class and lasts 10 to 12 |
| Timetable.AddKeepsResolve | src/stores/timetableStore.ts:48-70 | adding a class with a slot naming it keeps every slot pointing at an existing class |
| Timetable.RemoveKeepsResolve | src/stores/timetableStore.ts:71-75 | removing a class and its slots keeps every slot pointing at an existing class, and none at the removed id |
| Timetable.RemoveKeepsDurations | src/stores/timetableStore.ts:71-75 | removing keeps positive durations |
| Timetable.RemoveUnknownClass | src/stores/timetableStore.ts:71-75 | removing an unknown class changes nothing |
| Timetable.RemoveClassIdempotent | src/stores/timetableStore.ts:71-75 | removing twice is removing once |
| Timetable.SlotsOfAndWithout | src/stores/timetableStore.ts:74-77 | the slots `getSlotsByClassId` returns and the slots `removeClass` keeps partition the slot list: as multisets they add up to it, and every returned slot names the class |
| Timetable.SlotsResolve | src/stores/timetableStore.ts:73-74 | definition, no contract; the store invariant that every slot names a stored class |
| Timetable.ClassesWithout | src/stores/timetableStore.ts:73 | definition, no contract; the classes `removeClass` keeps |
| Timetable.SlotsWithout | src/stores/timetableStore.ts:74 | definition, no contract; the slots `removeClass` keeps; `RemoveKeepsResolve` and `SlotsOfAndWithout` state its properties |
| Timetable.SlotsOf | src/stores/timetableStore.ts:77 | definition, no contract; the slots `getSlotsByClassId` returns; `SlotsOfAndWithout` states its properties |
| Timetable.TimetableStore.constructor | src/stores/timetableStore.ts:28-47 | seed class and slot, semester "2026-1", invariant and positive durations hold |
| Timetable.TimetableStore.AddClassWithSlot | src/stores/timetableStore.ts:48-70 | appends one class (store semester, colour or '#60A5FA') and one slot naming it with the given day and hours; the invariant holds, durations stay positive when start < end |
| Timetable.TimetableStore.RemoveClass | src/stores/timetableStore.ts:71-75 | drops the class and all its slots; the invariant holds |
| Timetable.TimetableStore.GetClassById | src/stores/timetableStore.ts:76 | a stored class with the id, or none iff none has it |
| Timetable.TimetableStore.GetSlotsByClassId | src/stores/timetableStore.ts:77 | exactly the stored slots of that class |
| TimetableGrid.MinHour | src/components/timetable/TimetableGrid.tsx:27 | at most 9 and every start hour, and equal to 9 or to some start hour |
| TimetableGrid.MaxHour | src/components/timetable/TimetableGrid.tsx:28 | at least 16 and every end hour, and equal to 16 or to some end hour |
| TimetableGrid.EmptyWindow | src/components/timetable/TimetableGrid.tsx:9-10 | with no slots the window is 9..16 |
| TimetableGrid.HourRange | src/components/timetable/TimetableGrid.tsx:29 | `Array.from` of length hi-lo+1 holding lo, lo+1, … |
| TimetableGrid.Hours | src/components/timetable/TimetableGrid.tsx:29 | definition, no contract; the range from `MinHour` to `MaxHour`; `HoursShape` states its shape |
| TimetableGrid.HoursShape | src/components/timetable/TimetableGrid.tsx:29-43 | the rows run from min to max hour ascending by one, and only the last row is the last row |
| TimetableGrid.BlockTop | src/components/timetable/TimetableGrid.tsx:95 | definition, no contract; `(startHour - minHour) * 46 + 1`; `BlockBounds` and `BlockInsideGrid` state its bounds |
| TimetableGrid.BlockHeight | src/components/timetable/TimetableGrid.tsx:96-97 | definition, no contract; `max(1, endHour - startHour) * 46`; `BlockBounds` states it is at least one row |
| TimetableGrid.BlockBounds | src/components/timetable/TimetableGrid.tsx:95-97 | a block's top is at least 1 and its height at least 46 |
| TimetableGrid.BlockInsideGrid | src/components/timetable/TimetableGrid.tsx:95-97 | a block of positive duration ends inside the grid rows |
| TimetableGrid.ColumnBlocks | src/components/timetable/TimetableGrid.tsx:89-97 | each block of a day column is a slot of that day, with the class it names and its top and height |
| TimetableGrid.ColumnBlocksAreFilter | src/components/timetable/TimetableGrid.tsx:89-93 | a column shows exactly the day's slots whose class exists, in slot-list order |
| TimetableGrid.IsSelectedStart | src/components/timetable/TimetableGrid.tsx:54 | definition, no contract; a start is selected and is this day and hour; `SelectedStartUnique` states its property |
| TimetableGrid.SelectedStartUnique | src/components/timetable/TimetableGrid.tsx:54 | at most one cell is the selected start |
| TimetableGrid.IsPreviewCell | src/components/timetable/TimetableGrid.tsx:55-63 | definition, no contract; `hasPreviewRange`, with a zero end counted as absent (it is falsy); `PreviewContainsStart` and `NoPreviewWithoutSelection` state its properties |
| TimetableGrid.PreviewHours | src/components/timetable/TimetableGrid.tsx:55-63 | a day's preview hours are exactly its hours that are preview cells |
| TimetableGrid.PreviewContainsStart | src/components/timetable/TimetableGrid.tsx:55-63 | whenever a cell previews, the start cell previews too and the end hour does not |
| TimetableGrid.NoPreviewWithoutSelection | src/components/timetable/TimetableGrid.tsx:55-63 | no preview outside add mode or without a selected start |
| TimetableGrid.CellPress | src/components/timetable/TimetableGrid.tsx:74-76 | a press forwards (day, hour) iff add mode is on and a handler is given |
| Chat.BuildConversation | src/stores/chatStore.ts:28-37 | the trimmed title, or '새 대화' when it is absent or blank; never empty |
| Chat.ConversationForClass | src/stores/chatStore.ts:69 | the first conversation linked to the class, or none iff none is |
| Chat.RetitledBy | src/stores/chatStore.ts:129 | only a '새 대화' title with non-blank content becomes the first 24 units of the content; otherwise the title stays |
| Chat.AppendChunkOnlyTarget | src/stores/chatStore.ts:169-182 | the target message's content becomes old content + chunk; length, order and other messages unchanged |
| Chat.AppendEmptyChunk | src/stores/chatStore.ts:177 | an empty chunk leaves the messages unchanged |
| Chat.AppendChunksCompose | src/stores/chatStore.ts:169-182 | appending a then b is appending a + b |
| Chat.FinishOnlyTarget | src/stores/chatStore.ts:184-197 | only the target message's streaming flag becomes false |
| Chat.DeleteKeepsActive | src/stores/chatStore.ts:83-97 | the active id moves to the head only when the deleted conversation was active; it still names a conversation |
| Chat.DeleteUnknown | src/stores/chatStore.ts:79 | deleting an unknown id keeps the conversations |
| Chat.UserMessageAppended | src/stores/chatStore.ts:110-123 | adding a user message appends exactly one message at the end and leaves other conversations' messages alone |
| Chat.UserMessageTouchesOnlyTarget | src/stores/chatStore.ts:125-133 | only the target conversation is retitled and touched |
| Chat.OtherConversations | src/stores/chatStore.ts:79 | definition, no contract; the conversations `deleteConversation` keeps; `DeleteUnknown` states its property |
| Chat.ActiveAfterDelete | src/stores/chatStore.ts:95-97 | definition, no contract; the head's id when the deleted conversation was active, else the old active id; `DeleteKeepsActive` states the second case |
| Chat.AfterUserMessage | src/stores/chatStore.ts:127-131 | definition, no contract; the conversation retitled by `RetitledBy` and touched |
| Chat.AfterUserMessageIn | src/stores/chatStore.ts:125-133 | definition, no contract; the conversations after a user message; `UserMessageTouchesOnlyTarget` states its property |
| Chat.Touched | src/stores/chatStore.ts:156-163 | definition, no contract; the target conversation's `updatedAt` set to now, the others kept |
| Chat.AppendChunk | src/stores/chatStore.ts:173-180 | definition, no contract; the target message's content extended by the chunk; `AppendChunkOnlyTarget`, `AppendEmptyChunk` and `AppendChunksCompose` state its properties |
| Chat.FinishMessage | src/stores/chatStore.ts:188-195 | definition, no contract; the target message's `isStreaming` set to false; `FinishOnlyTarget` states its property |
| Chat.ChatStore.constructor | src/stores/chatStore.ts:39-53 | one seeded conversation holding the welcome message, active |
| Chat.ChatStore.CreateConversation | src/stores/chatStore.ts:55-66 | prepends the built conversation with an empty message list, opens it and returns its id |
| Chat.ChatStore.EnsureConversationForClass | src/stores/chatStore.ts:68-75 | opens the newest existing conversation of the class without creating anything, or creates '수업 연결 대화' |
| Chat.ChatStore.DeleteConversation | src/stores/chatStore.ts:77-104 | removes the conversation and its messages; deleting the last leaves one fresh '새 대화', active, as the sole message key |
| Chat.ChatStore.SetActiveConversation | src/stores/chatStore.ts:106 | sets the active id only |
| Chat.ChatStore.AddUserMessage | src/stores/chatStore.ts:108-135 | appends the user message and retitles and touches the conversation |
| Chat.ChatStore.StartAssistantMessage | src/stores/chatStore.ts:137-167 | appends an empty streaming assistant message and returns its id |
| Chat.ChatStore.AppendAssistantChunk | src/stores/chatStore.ts:169-182 | the conversation's messages become `AppendChunk` of the old ones |
| Chat.ChatStore.FinishAssistantMessage | src/stores/chatStore.ts:184-197 | the conversation's messages become `FinishMessage` of the old ones |
| Documents.BuildDocument | src/stores/documentStore.ts:21-31 | the trimmed title or '새 문서', content or ''; never an empty title |
| Documents.ActiveDocumentOf | src/stores/documentStore.ts:78-82 | none for an unset or empty active id or no match, else a document with that id |
| Documents.DeleteKeepsActive | src/stores/documentStore.ts:51-59 | the active id moves to the head only when the deleted document was active; it still names a document |
| Documents.DeleteUnknown | src/stores/documentStore.ts:51-56 | deleting an unknown id keeps the documents, and the active id unless it was that id |
| Documents.UpdateOnlyTarget | src/stores/documentStore.ts:65-76 | only title/content/updatedAt of the matching document change |
| Documents.OtherDocuments | src/stores/documentStore.ts:51 | definition, no contract; the documents `deleteDocument` keeps; `DeleteUnknown` states its property |
| Documents.ActiveAfterDelete | src/stores/documentStore.ts:56 | definition, no contract; the head's id when the deleted document was active, else the old active id; `DeleteKeepsActive` states the second case |
| Documents.PatchDocument | src/stores/documentStore.ts:69-73 | definition, no contract; `{ ...item, ...patch, updatedAt }`: the fields the patch gives replace the document's, and the timestamp is now |
| Documents.UpdatedDocuments | src/stores/documentStore.ts:67-75 | definition, no contract; the target document patched; `UpdateOnlyTarget` states its property |
| Documents.DocumentStore.constructor | src/stores/documentStore.ts:34-38 | one seeded welcome document, active |
| Documents.DocumentStore.CreateDocument | src/stores/documentStore.ts:40-47 | prepends the built document, opens it and returns its id |
| Documents.DocumentStore.DeleteDocument | src/stores/documentStore.ts:49-61 | deleting the last document leaves one fresh '새 문서', active; the list is never empty |
| Documents.DocumentStore.SetActiveDocument | src/stores/documentStore.ts:63 | sets the active id only |
| Documents.DocumentStore.UpdateDocument | src/stores/documentStore.ts:65-76 | documents become `UpdatedDocuments` of the old ones |
| Documents.DocumentStore.ActiveDocument | src/stores/documentStore.ts:78-82 | reads the store: the active document or none |
| SlideExport.BulletLine | src/services/slides/exportPptx.ts:8 | definition, no contract; `- ${bullet}` |
| SlideExport.HeaderLine | src/services/slides/exportPptx.ts:9 | definition, no contract; `# ${order}. ${title}` |
| SlideExport.SlideBlock | src/services/slides/exportPptx.ts:8-9 | definition, no contract; the header line, a line feed, then the bullet lines joined by line feeds; `BlockLines` and `NoBulletsBlock` state its shape |
| SlideExport.BuildPlainText | src/services/slides/exportPptx.ts:5-12 | a deck with no slides gives "", one slide gives its block |
| SlideExport.PlainTextCons | src/services/slides/exportPptx.ts:11 | blocks follow deck order, separated by "\n\n" |
| SlideExport.NoBulletsBlock | src/services/slides/exportPptx.ts:8-9 | a slide with no bullets ends in a bare "\n" |
| SlideExport.BlockLines | src/services/slides/exportPptx.ts:8-9 | a block's lines are "# order. title" then one "- bullet" line per bullet |
| SlideExport.IsFileNameChar | src/services/slides/exportPptx.ts:19 | definition, no contract; the class `[a-zA-Z0-9가-힣_-]` |
| SlideExport.SanitizeChar | src/services/slides/exportPptx.ts:19 | replaces a code unit outside [A-Za-z0-9가-힣_-] by '_' and keeps the others |
| SlideExport.Sanitize | src/services/slides/exportPptx.ts:19 | the replace keeps the length and leaves only allowed code units |
| SlideExport.SafeBase | src/services/slides/exportPptx.ts:19 | 1 to 32 allowed code units: the sanitised title cut to 32, or 'slides' for an empty title |
| SlideExport.SanitizeKeepsAllowed | src/services/slides/exportPptx.ts:19 | the replace leaves an all-allowed string unchanged |
| SlideExport.SafeBaseIdempotent | src/services/slides/exportPptx.ts:19 | sanitising a safe base again gives it back |
| YouTube.IdRun | src/services/ai/youtube.ts:17-19 | a greedy run of id characters: a substring, all id characters, ended by the string end or a non-id character |
| YouTube.SearchFrom | src/services/ai/youtube.ts:23 | the leftmost position where the prefix is followed by at least 6 id characters, or none iff there is none |
| YouTube.MatchPattern | src/services/ai/youtube.ts:17-24 | definition, no contract; one pattern's capture: the id run at the leftmost occurrence `SearchFrom` finds; `FirstMatchShape` states its shape |
| YouTube.FirstMatch | src/services/ai/youtube.ts:22-27 | definition, no contract; the capture of the first pattern in order that matches; `FirstPatternWins` and `NoPatternNoId` state its properties |
| YouTube.YouTubeIdOf | src/services/ai/youtube.ts:12-27 | definition, no contract; `extractYouTubeId`: none for blank input, else `FirstMatch` on the trimmed text; `BlankHasNoId`, `IdShape`, `FirstPatternWins`, `NoPatternNoId` and `ExtractYouTubeId` state its properties |
| YouTube.ExtractYouTubeId | src/services/ai/youtube.ts:12-28 | the method with its pattern loop returns what the function `YouTubeIdOf` specifies |
| YouTube.BlankHasNoId | src/services/ai/youtube.ts:13-14 | empty or whitespace-only input has no id |
| YouTube.FirstMatchShape | src/services/ai/youtube.ts:17-25 | a match is at least 6 id characters occurring in the searched text |
| YouTube.IdShape | src/services/ai/youtube.ts:13-25 | a found id has only [A-Za-z0-9_-], length at least 6, and occurs in the trimmed input |
| YouTube.FirstPatternWins | src/services/ai/youtube.ts:22-25 | the first pattern in list order that matches decides the id, whatever later patterns find |
| YouTube.NoPatternNoId | src/services/ai/youtube.ts:22-27 | no id iff no pattern matches |
| YouTube.Timestamp | src/services/ai/youtube.ts:45 | definition, no contract; `${floor(sec / 60)}:${pad2(sec % 60)}`; `TimestampRoundTrip` states that it reads back |
| YouTube.SegmentLine | src/services/ai/youtube.ts:45 | definition, no contract; `[timestamp] text`; `SegmentLineNoLineFeed` states its property |
| YouTube.Transcript | src/services/ai/youtube.ts:44-46 | definition, no contract; the segment lines joined by line feeds; `TranscriptLines` states that it splits back |
| YouTube.TimestampRoundTrip | src/services/ai/youtube.ts:45 | `m:ss` has minutes then exactly two digits of seconds, and m*60+ss gives the start back |
| YouTube.DecimalBelowHundred | src/services/ai/youtube.ts:45 | seconds below 10 print as one digit, else two |
| YouTube.SegmentLineNoLineFeed | src/services/ai/youtube.ts:45 | a transcript line has a line feed only if its text does |
| YouTube.TranscriptLines | src/services/ai/youtube.ts:44-46 | the transcript splits back into one "[m:ss] text" line per segment, in order |
| YouTube.ExtractCaptions | src/services/ai/youtube.ts:30-48 | fails with the invalid-URL message iff no id is found; otherwise carries that id, the segments and their transcript |
| YouTube.ExtractCaptionsFromYouTubeUrl | src/services/ai/youtube.ts:30-48 | fails with the invalid-URL message iff no id is found; otherwise carries that id, the sample captions and their transcript |
| Scheduler.WithRecommendation | src/stores/schedulerStore.ts:49-55 | the date maps to the text; other dates keep their text |
| Scheduler.RecommendationOverwrites | src/stores/schedulerStore.ts:49-55 | a second text for a date replaces the first |
| Scheduler.RemoveEventUnknown | src/stores/schedulerStore.ts:44-47 | removing an unknown id changes nothing |
| Scheduler.RemoveEventIdempotent | src/stores/schedulerStore.ts:44-47 | removing twice is removing once, and no event with that id remains |
| Scheduler.RemoveUndoesAdd | src/stores/schedulerStore.ts:27-47 | removing a just-added event with a fresh id restores the events |
| Scheduler.NewEvent | src/stores/schedulerStore.ts:28-38 | the event holds the input fields verbatim |
| Scheduler.SchedulerStore.constructor | src/stores/schedulerStore.ts:24-25 | no events, no recommendations |
| Scheduler.SchedulerStore.AddEvent | src/stores/schedulerStore.ts:27-42 | prepends the event and returns its id; recommendations untouched |
| Scheduler.SchedulerStore.RemoveEvent | src/stores/schedulerStore.ts:44-47 | filters out the id; recommendations untouched |
| Scheduler.EventsWithout | src/stores/schedulerStore.ts:46 | definition, no contract; the events `removeEvent` keeps; `RemoveEventUnknown`, `RemoveEventIdempotent` and `RemoveUndoesAdd` state its properties |
| Scheduler.SchedulerStore.SetRecommendation | src/stores/schedulerStore.ts:49-55 | sets the date's text; events untouched |
| Auth.LoginUser | src/stores/authStore.ts:29 | the local user with the email and the name, or '학생' |
| Auth.RegisteredUser | src/stores/authStore.ts:35 | the local user with email, name and university |
| Auth.OnboardingKeepsIdentity | src/stores/authStore.ts:40-46 | onboarding keeps id, email and name and sets major, grade and university |
| Auth.OnboardingLastWins | src/stores/authStore.ts:37-48 | onboarding twice keeps the last answers |
| Auth.AuthStore.constructor | src/stores/authStore.ts:23-25 | not signed in, not onboarded, no user |
| Auth.AuthStore.Login | src/stores/authStore.ts:26-30 | signs in the login user and keeps the onboarding flag; the invariant holds |
| Auth.AuthStore.Register | src/stores/authStore.ts:31-36 | signs in the registered user, not onboarded; the invariant holds |
| Auth.AuthStore.CompleteOnboarding | src/stores/authStore.ts:37-48 | marks onboarding done; a user is onboarded, a missing user stays missing |
| Auth.AuthStore.Logout | src/stores/authStore.ts:49 | back to the initial state from any state |
| Drive.NewFile | src/stores/driveStore.ts:25-36 | the input fields, no tags and an empty summary |
| Drive.RemoveFileIdempotent | src/stores/driveStore.ts:42-45 | removing twice is removing once |
| Drive.RemoveUndoesAdd | src/stores/driveStore.ts:24-45 | removing a just-added file with a fresh id restores the files |
| Drive.SetAiMetaOnlyTarget | src/stores/driveStore.ts:47-58 | only tags and summary of the matching file change |
| Drive.SetAiMetaUnknown | src/stores/driveStore.ts:47-58 | an unknown id changes nothing |
| Drive.DriveStore.constructor | src/stores/driveStore.ts:22 | no files |
| Drive.DriveStore.AddFile | src/stores/driveStore.ts:24-40 | prepends the new file and returns its id |
| Drive.DriveStore.RemoveFile | src/stores/driveStore.ts:42-45 | filters out the id |
| Drive.DriveStore.SetAiMeta | src/stores/driveStore.ts:47-58 | files become `WithAiMeta` of the old files |
| Drive.FilesWithout | src/stores/driveStore.ts:44 | definition, no contract; the files `removeFile` keeps; `RemoveFileIdempotent` and `RemoveUndoesAdd` state its properties |
| Drive.WithAiMeta | src/stores/driveStore.ts:49-57 | definition, no contract; the target file's tags and summary replaced; `SetAiMetaOnlyTarget` and `SetAiMetaUnknown` state its properties |
| VideoSummaries.NewSummary | src/stores/videoSummaryStore.ts:24-33 | the input fields verbatim |
| VideoSummaries.SummariesOfClass | src/stores/videoSummaryStore.ts:39 | exactly the summaries of that class; one with no class never matches |
| VideoSummaries.SummariesOfClassPrepend | src/stores/videoSummaryStore.ts:35-39 | the query keeps store order, newest first |
| VideoSummaries.VideoSummaryStore.constructor | src/stores/videoSummaryStore.ts:21 | no summaries |
| VideoSummaries.VideoSummaryStore.AddSummary | src/stores/videoSummaryStore.ts:23-37 | prepends the item, keeping the others in order, and returns its id |
| VideoSummaries.VideoSummaryStore.GetByClassId | src/stores/videoSummaryStore.ts:39 | reads the store: exactly the summaries of that class |
| Meetings.NewMeeting | src/stores/meetingStore.ts:24-33 | the input fields verbatim |
| Meetings.MeetingsOfClass | src/stores/meetingStore.ts:39 | exactly the records of that class |
| Meetings.MeetingsOfClassPrepend | src/stores/meetingStore.ts:35-39 | the query keeps store order, newest first |
| Meetings.MeetingStore.constructor | src/stores/meetingStore.ts:21 | no meetings |
| Meetings.MeetingStore.AddMeeting | src/stores/meetingStore.ts:23-37 | prepends the record, keeping the others in order, and returns its id |
| Meetings.MeetingStore.GetMeetingsByClassId | src/stores/meetingStore.ts:39 | reads the store: exactly the records of that class |
| Designer.NewDesign | src/stores/designerStore.ts:24-33 | the input fields verbatim, an absent image included |
| Designer.RemoveDesignUnknown | src/stores/designerStore.ts:39-42 | removing an unknown id changes nothing |
| Designer.RemoveDesignIdempotent | src/stores/designerStore.ts:39-42 | removing twice is removing once |
| Designer.RemoveUndoesAdd | src/stores/designerStore.ts:23-42 | removing a just-added design with a fresh id restores the designs |
| Designer.DesignerStore.constructor | src/stores/designerStore.ts:21 | no designs |
| Designer.DesignerStore.AddDesign | src/stores/designerStore.ts:23-37 | prepends the item and returns its id |
| Designer.DesignerStore.RemoveDesign | src/stores/designerStore.ts:39-42 | filters out the id |
| Designer.DesignsWithout | src/stores/designerStore.ts:41 | definition, no contract; the designs `removeDesign` keeps; `RemoveDesignUnknown`, `RemoveDesignIdempotent` and `RemoveUndoesAdd` state its properties |
| AiRouter.TaskName | src/services/ai/aiRouter.ts:5 | definition, no contract; the task's name as the adapters receive it; `TaskNameInjective` states its property |
| AiRouter.DefaultRoute | src/services/ai/aiRouter.ts:13-20 | definition, no contract; OpenAI when a key is stored, else Claude; `NonImageIsDefault` and `TranscribeIsDefault` state its use |
| AiRouter.RunAiTask | src/services/ai/aiRouter.ts:7-21 | images go to OpenAI; every other task to OpenAI iff a key is stored, else to Claude; the adapter's answer is returned unchanged |
| AiRouter.ImageIgnoresKey | src/services/ai/aiRouter.ts:10-12 | an image task is answered by OpenAI with or without a key |
| AiRouter.TranscribeIsDefault | src/services/ai/aiRouter.ts:13-20 | transcription routes exactly as the default rule |
| AiRouter.NonImageIsDefault | src/services/ai/aiRouter.ts:13-20 | every non-image task follows the default rule |
| AiRouter.TaskNameInjective | src/services/ai/aiRouter.ts:5 | distinct tasks have distinct names |
| Claude.RequestClaude | src/services/ai/claude.ts:1-7 | provider 'claude', the given task, and the input after 'Claude mock response for: '; no failure |
| Claude.RequestClaudeInjective | src/services/ai/claude.ts:5 | the input is recovered from the output |
| OpenAi.RequestOpenAi | src/services/ai/openai.ts:1-7 | provider 'openai', the given task, and the input after 'OpenAI mock response for: '; no failure |
| OpenAi.RequestOpenAiInjective | src/services/ai/openai.ts:5 | the input is recovered from the output |

## Left out

- **UI.** Rendering, styles, animation and navigation are not modelled. The timetable grid keeps only its arithmetic and predicates.
- **Async and zustand machinery.** Not modelled: `await`, `create`/`set`/`get`, and React re-rendering. Each action is one atomic method.
- **Ids and the clock.** `uid()` and `new Date().toISOString()` are not modelled. Their results are parameters.
  - Stores assume nothing about the ids.
  - A lemma that needs a fresh id says so in its `requires`.
- **Numbers.** JavaScript `number` is modelled as `int` for the timetable hours, the grid's rows and blocks, and `durationMillis`. Three fields are `nat`: `SlideItem.order`, `ProblemItem.order` and `CaptionSegment.startSec`. The parsers only ever number from 1, so the orders lose nothing. `startSec` as `nat` leaves out the negative and fractional starts that `number` allows; for those, `Math.floor`, `%` and `toString` would differ from the model's `Timestamp`. `Text.Decimal` prints plain digits for every `nat`. That includes values from 1e21 on, which `toString` prints in exponent form ("1e+21"). The model never reaches such a value: orders are at most 12, and the minutes of a timestamp stay far below 1e21. `size` is `Option<int>` and a problem attempt's `score` is `real`. Floating-point rounding is not modelled.
- **Key lookup.** The secure-store lookup of the OpenAI key is not modelled. The router takes its result as `hasKey`.
- Slides.ParseSlides, Problems.ParseProblems: `uid()` is called once per pushed item. The model passes a list of ids with one per possible item (12 or 5), and item k takes `ids[k]`.
- Documents.DocumentStore.UpdateDocument: `new Date()` is evaluated once per matching document. The model uses one `now` for all of them.
- Slides.SlidesStore.UpdateSlide, Documents.DocumentStore.UpdateDocument: a patch key present with the value `undefined` is not modelled. The model's patches have fields that are present or absent.
- **Unicode.** Characters are UTF-16 code units. Surrogate pairs and normalisation are not modelled.
- **Whitespace.** `IsWhitespace` is the ECMAScript white-space and line-terminator set. The `\s` class in the marker regex uses the same set.
- YouTube.ExtractCaptionsFromYouTubeUrl: the fixed sample captions are a constant. Its transcript is stated as `Transcript` of them.
  - The general line-by-line lemma `TranscriptLines` is not re-proved on the concrete text, because that text is expensive to unfold.
  - The same holds for the concrete string examples of the parsers. "1. foo\n2. bar\n\n3. baz" is covered only by the general `NormalizeNumbered` and `EntriesAsFilter`.
- **Export I/O.** The file system, the share sheet and the PPTX generator are not modelled.
- **Screens.** The answered-ratio scoring and the timetable-to-scheduler import live in screens and are not modelled.

Two behaviours of the source worth noting:

- `runAiTask` has a separate `transcribe` branch, but it decides exactly as the default rule. `TranscribeIsDefault` proves this.
- Deleting an unknown document or conversation id keeps the list. The active id moves to the head only if that unknown id was itself active, which `setActive*` allows. `Documents.DeleteUnknown` states both cases.
