# Pregnancy companion backend: a verified model of its rules

This project models the rules under the pregnancy-companion service. The service is a
chat agent with an HTTP API that follows a pregnant user through her pregnancy. The model
covers these parts:

- **Action planner** (`ActionPlanner`, `action_planner.dfy`). It proposes prioritised
  actions from the user's profile and sorts them stably, highest priority first. Its
  executor dispatches an action to one of nine handlers and marks the action completed.
- **Chat router** (`ChatRouter`, `chat_router.dfy`). It handles one conversational turn:
  intent detection by keyword groups, extraction of contraction figures from the message,
  the reply texts, storing the turn, and running the urgent actions among the first three
  planned.
- **Memory store** (`MemoryManager`, `memory_manager.dfy`). Memories and conversations
  are appended to per-user collections. They are queried newest first, then by
  importance, and ranked for relevance with a fallback order.
- **Embeddings** (`Embeddings`, `embeddings.dfy`). The placeholder embedding is the MD5
  digest padded to 384 values; documents are ranked against a query by a threshold.
- **PDF text** (`PdfProcessor`, `pdf_processor.dfy`). Text is split into overlapping
  chunks, and medical text is classified by keyword and date pattern.
- **Pregnancy dates** (`DataProcessing`, `UserProfile`, `Timeline`). DDMMYYYY parsing,
  the clamped pregnancy week, the due date, the trimester labels (three different
  rules, each kept as written), and the 40-week timeline with its milestone windows.
- **Profiles and documents** (`UserProfile`, `MongoClient`, `MedicalApi`). The profile
  store and its medical documents, the document summary, the duplicate-id cache of the
  MongoDB client, the upload checks, chunk ids and chunk metadata of a document upload,
  and the filtering of document-query results.
- **Tasks** (`Tasks`, `tasks.dfy`). Field patches and completion of a task, the overdue
  filter, the AI-generated tasks and the task recommendations.

Supporting modules:

- `Wrappers`: `Option`, `Result`, `HttpError`.
- `Values`: the JSON-like values and Python truthiness.
- `Seqs` and `Text`: sequence and string helpers.
- `Sorting`: Python's stable `sorted(..., reverse=True)` and MongoDB's descending sort.
- `Ai`: the language-model collaborator.

Collaborators whose behaviour lies outside the core are parameters:

- the language model, a total function from requests to replies;
- the MD5 hash and the cosine quotient;
- the relevance ranker;
- the text extractor and the metadata extractor;
- the vector store's hits;
- the document id generator;
- the clock, as `now` (seconds) and `today` (a day number).

Dates are day numbers as Python's `date.toordinal()` counts them. Timestamps are seconds
on the same epoch, so day `d` begins at second `d * 86400`.

## Model

| member | source | states |
|---|---|---|
| ActionPlanner.ProposalsContents | app/agent/action_planner.py:40-69 | an update action is proposed exactly when the week is truthy, a review exactly when there is a document, education exactly when the week is positive; priorities 2, 1, 2 |
| ActionPlanner.PlanContents | app/agent/action_planner.py:34-75 | no profile gives no actions; sorting keeps exactly the proposed actions |
| ActionPlanner.PlanOrdered | app/agent/action_planner.py:71 | the plan is ordered by priority, highest first, and equal priorities keep the order in which they were proposed |
| ActionPlanner.PlanWeekTwenty | app/agent/action_planner.py:45-71 | week 20 with one document plans update, education, review in that order |
| ActionPlanner.SortActions | app/agent/action_planner.py:71 | sorting the action objects is the stable descending sort of their proposals and a permutation of them |
| ActionPlanner.Action.constructor | app/agent/action_planner.py:10-18 | a new action holds the given fields, `{}` for missing metadata, and is not completed |
| ActionPlanner.AppendActions | app/agent/action_planner.py:45-69 | fresh, uncompleted actions for exactly the proposals, in the order the checks append them |
| ActionPlanner.AnalyzeUserNeeds | app/agent/action_planner.py:34-75 | fresh, uncompleted actions whose proposals are the sorted plan of the user's profile |
| ActionPlanner.MedicalReviewStep | app/agent/action_planner.py:92-132 | without documents an info reply and no memory; otherwise a medical memory of type "review" with importance 0.9 |
| ActionPlanner.PregnancyUpdateStep | app/agent/action_planner.py:134-174 | the week is updated, and one memory written, exactly when the week computed from the LMP differs from the stored one; otherwise info |
| ActionPlanner.PregnancyUpdateSettles | app/agent/action_planner.py:138-170 | once the update has stored the week, a second update on the same day changes nothing |
| ActionPlanner.EducationStep | app/agent/action_planner.py:176-213 | with a truthy week a pregnancy memory of the model's content; otherwise the info reply and no memory |
| ActionPlanner.ContractionStep | app/agent/action_planner.py:215-249 | a memory and a success reply exactly when the contraction data is truthy |
| ActionPlanner.AppointmentStep | app/agent/action_planner.py:251-279 | a plain "appointment" memory; the type defaults to "general" |
| ActionPlanner.UploadStep | app/agent/action_planner.py:281-302 | no memory; the document types default to ["general"] |
| ActionPlanner.ReminderStep | app/agent/action_planner.py:304-332 | a plain "reminder" memory of the reply's message with importance 0.7 |
| ActionPlanner.EmergencyStep | app/agent/action_planner.py:334-356 | no memory; the reply carries the profile's emergency contact |
| ActionPlanner.SymptomStep | app/agent/action_planner.py:358-387 | a pregnancy memory with importance 0.7; the tracking type defaults to "daily" |
| ActionPlanner.KindOf | app/agent/action_planner.py:22-32 | a handler is found exactly for the nine catalogue names, and it is the one registered under that name |
| ActionPlanner.KindOfName | app/agent/action_planner.py:22-32 | each handler is found under its own name, so the nine names are distinct |
| ActionPlanner.HandleNeverFails | app/agent/action_planner.py:92-387 | no handler reports an error itself, and only the pregnancy update changes the profile |
| ActionPlanner.HandleWrites | app/agent/action_planner.py:92-387 | only the review writes a medical memory; only the appointment and the reminder write plain memories |
| ActionPlanner.ExecuteAction | app/agent/action_planner.py:77-90 | an unknown type gives "Unknown action type" and changes nothing; a known type runs its handler once and marks the action completed whatever the handler reports |
| ChatRouter.GeneralWhenNoKeyword | app/agent/chat_router.py:129-166 | the intent is "general" exactly when no keyword of any group occurs in the lower-cased message |
| ChatRouter.ThisWeekIsGreeting | app/agent/chat_router.py:129-166 | substring matching makes "this week" a greeting, since "hi" occurs in "this" |
| ChatRouter.CheckWordGoesToDocuments | app/agent/chat_router.py:129-166 | a message containing "בדיקה" never reaches the review or week-check intents |
| ChatRouter.SearchPos | app/agent/chat_router.py:250-280 | the search stops at a position where the pattern matches and no match starts earlier; no position is found exactly when none matches |
| ChatRouter.SearchFromMatches | app/agent/chat_router.py:250-280 | a number is reported exactly when the pattern matches somewhere in the message, and it is the number of the leftmost match |
| ChatRouter.FirstSearch | app/agent/chat_router.py:250-280 | the number of the first pattern, in list order, that has a match |
| ChatRouter.ExtractContractionInfo | app/agent/chat_router.py:250-280 | duration and interval hold the first pattern's number; `None` when neither is found |
| ChatRouter.IntervalNeedsDuration | app/agent/chat_router.py:250-280 | whenever an interval is extracted, a duration is extracted too |
| ChatRouter.GreetingText | app/agent/chat_router.py:168-173 | the greeting names the user exactly when the profile has a truthy name |
| ChatRouter.PregnancyInfoText | app/agent/chat_router.py:175-184 | without a profile the request for the pregnancy details, with a profile but no truthy week the request for the week, otherwise the week and its trimester (first to 13, second to 26, third after) |
| ChatRouter.MedicalDocumentsInfo | app/agent/chat_router.py:186-203 | the counting loop produces the documents reply: the number of documents and each type with its count |
| ChatRouter.DocumentsTextCounts | app/agent/chat_router.py:193-199 | the documents reply names every type the user has, with its number of documents |
| ChatRouter.ReviewText | app/agent/chat_router.py:205-226 | the fixed reply without documents; otherwise the heading with the model's summary ("המסמכים נבדקו" when it gives none) and, at the end, its recommendations ("המשך מעקב שגרתי" when it gives none) |
| ChatRouter.ContractionText | app/agent/chat_router.py:228-248 | the request for details when none were extracted; otherwise the heading with the model's pattern ("דפוס תקין" by default) and, at the end, its recommendation ("המשך מעקב" by default) |
| ChatRouter.WeekCheckText | app/agent/chat_router.py:282-296 | the request for the week without a truthy week; otherwise the week with the model's week summary ("המשך מעקב שגרתי" by default) and, at the end, its recommendations |
| ChatRouter.EmergencyText | app/agent/chat_router.py:302-307 | the emergency contact is quoted exactly when the profile has one |
| ChatRouter.GeneralTextFirstTwo | app/agent/chat_router.py:309-315 | actions beyond the first two never change the general reply |
| ChatRouter.GeneralText | app/agent/chat_router.py:309-315 | the fixed offer of help without planned actions; otherwise the echo of the message first and the closing question last |
| ChatRouter.GeneralTextNames | app/agent/chat_router.py:309-315 | the general reply names the description of each of the first two planned actions |
| ChatRouter.GenerateResponse | app/agent/chat_router.py:99-127 | the reply for the detected intent |
| ChatRouter.GatherContext | app/agent/chat_router.py:69-97 | five recent conversations, three relevant memories, the profile and its documents; empty when the memory store fails |
| ChatRouter.RouterSelection | app/agent/chat_router.py:42-50 | the router runs the update exactly when the week is given and education exactly when it is positive, never the review |
| ChatRouter.SelectedMembers | app/agent/chat_router.py:42-50 | an action is run exactly when it is proposed with priority 2 or more, since the plan never exceeds three actions |
| ChatRouter.RunActions | app/agent/chat_router.py:42-50 | the executed list names exactly the urgent actions among the first three, once each, in plan order; each is run by `execute_action` on the state the previous one left, taking the profiles and memories from their old values to their new ones; an action is marked completed exactly when it was already, or it is among the first three, urgent and of a known type |
| ChatRouter.RunAction | app/agent/chat_router.py:44-50 | an urgent action runs through `execute_action` and is reported under its type and description; a non-urgent one changes nothing; the action is completed afterwards exactly when it was before or it ran with a known type |
| ChatRouter.RunNext | app/agent/chat_router.py:42-50 | one round of the loop extends the run of the selected actions by the next action when it is urgent and marks only that action |
| ChatRouter.RanSelected | app/agent/chat_router.py:42-50 | the run of the urgent actions among the first three is the run of the plan's selection |
| ChatRouter.Prepare | app/agent/chat_router.py:29-36 | the context, the plan and the reply are computed without changing any store |
| ChatRouter.Converse | app/agent/chat_router.py:29-58 | a failed store gives the apology and changes no profile and no memory; otherwise the reply for the profile, the turn stored before any action runs, and the selected actions run in plan order from the old profiles and memories to the new ones |
| ChatRouter.ProcessMessage | app/agent/chat_router.py:16-67 | no profile asks for one and changes nothing; a failed store gives the apology and changes nothing; otherwise the turn is stored first and the urgent actions among the first three of the plan run in order, each on the state the previous one left |
| MemoryManager.CandidatesOrdered | app/agent/memory_manager.py:108-113 | the candidates are exactly the user's memories, by access time, then importance, then insertion |
| MemoryManager.OfKindShape | app/agent/memory_manager.py:218-272 | a typed query gives at most `limit` of the user's memories of that type, in recency order |
| MemoryManager.RecentShape | app/agent/memory_manager.py:45-71 | at most `limit` of the user's conversations, newest first |
| MemoryManager.EmbedAll | app/agent/memory_manager.py:118-126 | when every embedding succeeds, one embedding per memory |
| MemoryManager.PickInOrder | app/agent/memory_manager.py:133-141 | the ranked result is the memories at the ranker's indices below the candidate count, in the ranker's order |
| MemoryManager.EmbedMemories | app/agent/memory_manager.py:121-126 | the embedding loop computes `EmbedAll`: one embedding per memory in order, nothing once one fails |
| MemoryManager.PickMemories | app/agent/memory_manager.py:133-140 | the collecting loop computes `Pick`: the memories at the ranker's indices below the candidate count, nothing when an index raises |
| MemoryManager.Relevant | app/agent/memory_manager.py:104-156 | `[]` without candidates, otherwise a result drawn from the candidates; the two lemmas below give its value on failure and on success |
| MemoryManager.RelevantFallback | app/agent/memory_manager.py:115-156 | whenever the query embedding, a memory embedding, the search or an index fails, the first `limit` candidates in recency order (all of them for a limit of 0) |
| MemoryManager.RelevantRanked | app/agent/memory_manager.py:118-141 | when nothing fails, the memories at the ranker's indices below the candidate count, in the ranker's order, negative indices counted from the end |
| MemoryManager.MemoryStore.constructor | app/agent/memory_manager.py:10-13 | empty collections |
| MemoryManager.MemoryStore.StoreConversation | app/agent/memory_manager.py:15-43 | appends exactly one turn with the model's analysis, or fails and changes nothing when the database is down |
| MemoryManager.MemoryStore.StoreMemory | app/agent/memory_manager.py:73-102 | appends exactly one memory with the given fields, `{}` for missing metadata, created and accessed at `now` |
| MemoryManager.MemoryStore.StoreMedicalMemory | app/agent/memory_manager.py:168-191 | a memory of type "medical" whose metadata names the document type |
| MemoryManager.MemoryStore.StorePregnancyMemory | app/agent/memory_manager.py:193-216 | a memory of type "pregnancy" whose metadata holds the week |
| MemoryManager.MemoryStore.UpdateMemoryAccess | app/agent/memory_manager.py:158-166 | only the matching memory's access time changes; an unknown id changes nothing |
| MemoryManager.MemoryStore.GetRecentConversations | app/agent/memory_manager.py:45-71 | the user's latest turns with insights, `[]` when the database is down |
| MemoryManager.MemoryStore.GetRelevantMemories | app/agent/memory_manager.py:104-156 | failure when the database is down; otherwise the relevance ranking of the user's candidates, which is the first `limit` candidates whenever a step of the ranking fails |
| MemoryManager.MemoryStore.GetMedicalMemories | app/agent/memory_manager.py:218-244 | the user's "medical" memories in recency order, `[]` when the database is down |
| MemoryManager.MemoryStore.GetPregnancyMemories | app/agent/memory_manager.py:246-272 | the user's "pregnancy" memories in recency order, `[]` when the database is down |
| Sorting.SortDescMembers | app/agent/action_planner.py:71 | sorting keeps every element and its multiplicity |
| Sorting.SortDescRanked | app/agent/memory_manager.py:108-113 | the sort orders by the key, highest first, and keeps input order among equal keys |
| Sorting.SortDescSorted | app/agent/action_planner.py:71 | the sorted sequence is descending by key |
| Embeddings.HexDigest | app/utils/embeddings.py:14-15 | two hexadecimal digits per digest byte |
| Embeddings.HexPairRoundTrip | app/utils/embeddings.py:19-22 | reading a hex pair back gives the digest byte it encodes |
| Embeddings.GenerateEmbedding | app/utils/embeddings.py:10-29 | exactly 384 values: the 16 digest bytes in order, then zeros |
| Embeddings.GenerateEmbeddingsBatch | app/utils/embeddings.py:31-37 | one embedding per text, in input order |
| Embeddings.EmbeddingDeterministic | app/utils/embeddings.py:14-29 | equal texts get equal embeddings |
| Embeddings.SquaredNormZero | app/utils/embeddings.py:45-48 | the norm is zero exactly when every entry is zero |
| Embeddings.Similarity | app/utils/embeddings.py:39-51 | zero when either vector has norm zero, the cosine otherwise |
| Embeddings.ThresholdRanking | app/utils/embeddings.py:60-68 | the indices at or above the threshold, highest score first, ties by ascending index |
| Embeddings.FindSimilarDocuments | app/utils/embeddings.py:53-70 | exactly the documents scoring at least the threshold, ranked, each index below the number of documents |
| PdfProcessor.ChunkText | app/utils/pdf_processor.py:42-56 | the loop produces the chunks of the text with the given size and overlap |
| PdfProcessor.ChunkOffsets | app/utils/pdf_processor.py:49-54 | chunk `i` starts at `i * (chunk_size - overlap)`; empty text has no chunks |
| PdfProcessor.ChunkSizes | app/utils/pdf_processor.py:50-51 | every chunk has at most `chunk_size` characters, all but the last exactly that many |
| PdfProcessor.LastChunkEndsText | app/utils/pdf_processor.py:50-54 | the last chunk ends where the text ends |
| PdfProcessor.ChunksReassemble | app/utils/pdf_processor.py:42-56 | the first chunk followed by every later chunk minus its overlap gives back the text |
| PdfProcessor.FirstDate | app/utils/pdf_processor.py:81-84 | the leftmost date-like match, `None` when there is none |
| PdfProcessor.ExtractMedicalData | app/utils/pdf_processor.py:58-86 | the test type of the first rule that hits in rule order, the first date match, every other field empty |
| DataProcessing.ParseDdmmyyyy | app/database/data_processing.py:22-41 | rejects empty, "0" and lengths other than 8; the fields are `int()` of [0:2], [2:4], [4:8] within range and forming a calendar date |
| DataProcessing.PyIntDigits | app/database/data_processing.py:30-32 | `int()` of ASCII digits is their decimal value |
| DataProcessing.ParseFormat | app/database/data_processing.py:22-41 | every date of 1900..2100 survives rendering and parsing |
| DataProcessing.FormatParse | app/database/data_processing.py:22-41 | an all-digit string that parses is the rendering of its date |
| DataProcessing.NoThirtyFirstOfFebruary | app/database/data_processing.py:35-40 | 31 February is refused |
| DataProcessing.FebruaryHasNo31st | app/database/data_processing.py:35-40 | any string with day 31 and month 2 is refused |
| DataProcessing.DayNumberNextDay | app/database/data_processing.py:49-51 | day numbers count calendar days |
| DataProcessing.ClampWeek | app/database/data_processing.py:52-53 | the week lies in 1..42 and equals the input inside that range |
| DataProcessing.CalculatePregnancyWeek | app/database/data_processing.py:43-56 | whole weeks since the LMP, clamped to 1..42; `None` for an unparsable date |
| DataProcessing.CalculateDueDate | app/database/data_processing.py:58-70 | the LMP plus 280 days; `None` for an unparsable date |
| DataProcessing.TrimesterLabels | app/database/data_processing.py:72-84 | "unknown" without a week, "first" up to 13, "third" for every later week |
| DataProcessing.ProcessUserProfileData | app/database/data_processing.py:86-113 | the caller's fields pass through; the LMP, week and due date are added only for an LMP other than "0", the trimester only for a truthy week |
| UserProfile.Trimester | app/agent/user_profile.py:218-224 | "ראשון" exactly up to week 13, "שני" exactly for 14..26, "שלישי" exactly after |
| UserProfile.WeekSince | app/agent/user_profile.py:194-199 | the week lies in 1..42; an LMP in the future gives 1; otherwise whole weeks elapsed |
| UserProfile.WeekSinceMonotone | app/agent/user_profile.py:194-199 | the week never decreases as days pass |
| UserProfile.OfType | app/agent/user_profile.py:124-134 | exactly the documents of the type, their number being the type's count |
| UserProfile.OfTypeFilter | app/agent/user_profile.py:130-132 | the documents of the type are the stored list filtered by type: each once, in stored order |
| UserProfile.WithoutDocument | app/agent/user_profile.py:180-189 | removes every document with the id and keeps every other one |
| UserProfile.RemoveAfterAdd | app/agent/user_profile.py:101-189 | removing a document just added under a new id restores the list |
| UserProfile.TallyCounts | app/agent/user_profile.py:151-156 | each type's count is its number of documents |
| UserProfile.TallyTotal | app/agent/user_profile.py:144-156 | the per-type counts add up to the number of documents |
| UserProfile.TallyDistinct | app/agent/user_profile.py:151-156 | every type appears once, with a positive count |
| UserProfile.LatestIndex | app/agent/user_profile.py:159-160 | a document with the latest upload date, the first among equally late ones |
| UserProfile.CountByType | app/agent/user_profile.py:151-156 | the counting loop builds the per-type tally |
| UserProfile.SummarizeDocuments | app/agent/user_profile.py:139-176 | total, counts, latest document and abnormal flag as the summary defines them |
| UserProfile.PregnancyInfoOf | app/agent/user_profile.py:207-226 | the current week, days until the due date exactly when there is one, and the trimester exactly when the week is truthy |
| UserProfile.ApplyKeeps | app/agent/user_profile.py:82-99 | an update changes only the fields it sets and the update time |
| UserProfile.ProfileStore.constructor | app/agent/user_profile.py:51-54 | an empty store |
| UserProfile.ProfileStore.UpdateUserProfile | app/agent/user_profile.py:82-99 | the updated profile when the stored one changed, else `None` |
| UserProfile.ProfileStore.AddMedicalDocument | app/agent/user_profile.py:101-119 | appends the document to the profile's list, true exactly when the profile exists |
| UserProfile.ProfileStore.RemoveMedicalDocument | app/agent/user_profile.py:178-192 | removes every document with that id, true exactly when something was removed |
| UserProfile.ProfileStore.GetUserMedicalDocuments | app/agent/user_profile.py:121-137 | `[]` without a profile, else the documents; with a type given, exactly those of that type, each once, in stored order |
| UserProfile.ProfileStore.GetDocumentSummary | app/agent/user_profile.py:139-176 | the summary of all the user's documents |
| UserProfile.ProfileStore.GetPregnancyInfo | app/agent/user_profile.py:201-226 | `None` exactly without a profile, else the profile's pregnancy information |
| Timeline.MilestoneWeeksInRange | app/agent/timeline.py:12-24 | every milestone week lies in 4..40 |
| Timeline.MilestoneLabelDistinguishes | app/agent/timeline.py:73 | a default week label never equals a milestone's label |
| Timeline.EntryMeaning | app/agent/timeline.py:67-78 | for the intended timeline: date LMP + 7 × week, the milestone label, completed/current/upcoming by comparison with the current week, days-until set exactly when not completed |
| Timeline.CalculateTimeline | app/agent/timeline.py:59-80 | as written: `[]` without an LMP; with one, the countdown raises (`None`) exactly when the current week is at most 40, and otherwise the intended timeline |
| Timeline.IntendedTimeline | app/agent/timeline.py:59-80 | the timeline meant: `[]` without an LMP, otherwise the entries of weeks 1..40 in order |
| Timeline.CountdownExactlyWhenRaises | app/agent/timeline.py:66-76 | the intended timeline counts days down to some week exactly when the code as written raises |
| Timeline.TimelineOrder | app/agent/timeline.py:74 | along the intended timeline statuses run completed, current, upcoming; at most one current week, and one exactly when the current week is in 1..40 |
| Timeline.DaysUntilStep | app/agent/timeline.py:75 | for the intended timeline, consecutive weeks' days-until differ by 7 |
| Timeline.GetPregnancyTimeline | app/agent/timeline.py:26-57 | "User profile not found" exactly without a profile; "Failed to get timeline" exactly when the LMP is set and the week (`or 0`) is at most 40; otherwise the timeline of its week and LMP with the model's insights |
| Timeline.DevelopmentStage | app/agent/timeline.py:127-132 | "עובר" exactly up to week 12, "עובר מתפתח" after |
| Timeline.DetailsOf | app/agent/timeline.py:89-112 | the week's milestone, its date exactly when there is an LMP, its trimester and development stage |
| Timeline.GetWeekDetails | app/agent/timeline.py:82-116 | "User profile not found" exactly without a profile, else the week's details |
| Timeline.MilestonesInMeaning | app/agent/timeline.py:144-147 | exactly the milestone weeks of the window, ascending |
| Timeline.MilestonesInSplit | app/agent/timeline.py:144-168 | adjacent windows concatenate |
| Timeline.UpcomingWeeksMeaning | app/agent/timeline.py:144-147 | the upcoming weeks are the milestone weeks after the current one, up to `weeks_ahead` later |
| Timeline.CompletedWeeksMeaning | app/agent/timeline.py:165-168 | the completed weeks are the milestone weeks up to the current one |
| Timeline.CompletedThenUpcoming | app/agent/timeline.py:134-174 | completed and upcoming windows partition the milestones |
| Timeline.WindowsAgreeWithTimeline | app/agent/timeline.py:74 | a milestone is in the completed window exactly when its timeline entry is not upcoming |
| Timeline.DetailsForWeeks | app/agent/timeline.py:144-147 | the details of each week of the window, in order |
| Timeline.GetUpcomingMilestones | app/agent/timeline.py:134-153 | `[]` without a profile, else the details of the upcoming milestone weeks |
| Timeline.GetCompletedMilestones | app/agent/timeline.py:155-174 | `[]` without a profile, else the details of the completed milestone weeks |
| Tasks.Task.constructor | app/api/tasks.py:15-24 | a task holding the given fields |
| Tasks.Task.Patch | app/api/tasks.py:121-130 | the task becomes the patch of its old fields |
| Tasks.Task.Complete | app/api/tasks.py:190 | only the completion flag changes, to true |
| Tasks.PatchedFields | app/api/tasks.py:121-130 | every given field is overwritten, every missing one kept; id, user, type and metadata never change |
| Tasks.PatchedIdempotent | app/api/tasks.py:121-130 | patching twice equals patching once, and the empty patch changes nothing |
| Tasks.UpdateTask | app/api/tasks.py:111-155 | an error without the task and no change; otherwise the patch and the model's insights on the patched task; a memory "Updated task: …" with the next id when the store is up, and no memory written and a 500 when it is down; the store's availability and conversations never change |
| Tasks.CompleteTask | app/api/tasks.py:182-213 | an error without the task and no change; otherwise completed and the model's insights on the completed task; a memory "Completed task: …" with the next id when the store is up, and no memory written and a 500 when it is down; the store's availability and conversations never change |
| Tasks.GetOverdueTasks | app/api/tasks.py:237-252 | exactly the user's incomplete tasks due strictly before now, each once and in stored order, with their count |
| Tasks.TasksOfInOrder | app/api/tasks.py:52-56 | the query's tasks are the stored tasks it selects, each once, in stored order |
| Tasks.OverdueInOrder | app/api/tasks.py:240-241 | the overdue tasks are the stored tasks that are the user's, incomplete and past due, each once, in stored order |
| Tasks.AiTasksShape | app/api/tasks.py:290-315 | the tests task (priority 2, seven days) exactly when tests is truthy, then the recommendations task (priority 1, three days) exactly when recommendations is truthy |
| Tasks.GenerateAiTasks | app/api/tasks.py:279-319 | new tasks holding exactly the generated task data, in order |
| Tasks.GetUserTasks | app/api/tasks.py:42-63 | an error without a profile; otherwise the stored tasks, then the AI tasks exactly when the week is truthy |
| Tasks.RecommendationsShape | app/api/tasks.py:331-363 | at most three entries in the fixed order, each present exactly when its insight key is truthy |
| Tasks.GenerateTaskRecommendations | app/api/tasks.py:321-367 | the recommendations built from the model's week insights |
| Tasks.GetTaskRecommendations | app/api/tasks.py:215-235 | an error without a profile, else the week's recommendations |
| MedicalApi.UploadCheck | app/api/medical.py:36-58 | a non-PDF name is rejected first; 404 exactly for a missing profile after the earlier checks; no error exactly when every check passes |
| MedicalApi.ChunkIds | app/api/medical.py:77 | one id "{document_id}_chunk_{i}" per chunk, in order |
| MedicalApi.ChunkIdsDistinct | app/api/medical.py:77 | different chunks get different ids |
| MedicalApi.ChunkMetadatas | app/api/medical.py:78-83 | each chunk gets a copy of the document metadata with its position added |
| MedicalApi.ChunkMetadataMeaning | app/api/medical.py:78-83 | a chunk's metadata keeps every document key and adds `chunk_index` and `total_chunks` |
| MedicalApi.UploadMedicalDocument | app/api/medical.py:26-123 | the check's error and no change, or the chunks, ids and metadata for the vector store and the document appended to the profile |
| MedicalApi.QueryDocuments | app/api/medical.py:193-221 | the hits of the user (and type), in order, with their count; a 500 exactly when a read key is missing |
| MongoClient.DerivedFields | app/database/mongo_client.py:57-58 | for the intended creation from DDMMYYYY text: week and due date exist exactly when the LMP parses, the week in 1..42 and the due date 280 days on; other fields are the caller's |
| MongoClient.DerivedIgnoresGiven | app/database/mongo_client.py:57-58 | in the intended creation the caller's week and due date are always overridden |
| MongoClient.MongoDBClient.constructor | app/database/mongo_client.py:14-17 | an empty id cache |
| MongoClient.MongoDBClient.CreateUserProfile | app/database/mongo_client.py:33-65 | a cached id is rejected with 400; a given LMP date raises `TypeError`; in both cases nothing changes; otherwise the profile without week and due date is stored and its id cached |
| MongoClient.Stored | app/database/mongo_client.py:51-62 | a given LMP date raises `TypeError`; without one the profile is stored with no week and no due date, times set to now, other fields the caller's |
| MongoClient.StoredNeverDerives | app/database/mongo_client.py:51-62 | no profile is ever stored with a derived week, even for an LMP whose DDMMYYYY text the intended creation would derive a week and due date from |
| MongoClient.MongoDBClient.GetUserProfile | app/database/mongo_client.py:67-72 | the first stored profile with the id, `None` exactly when there is none |
| MongoClient.MongoDBClient.GetUserDocuments | app/database/mongo_client.py:106-111 | `[]` without a profile, else its documents |
| MongoClient.MongoDBClient.GetUserTasks | app/database/mongo_client.py:122-132 | exactly the user's tasks, only those with the given completion flag when one is given, in stored order |
| MongoClient.FirstProfile | app/database/mongo_client.py:67-72 | the first profile with the id, `None` exactly when there is none |

## Left out

- The language model (`app/utils/ai_model.py`, `app/agent/medical_processor.py`) is not part of this model. It is a total function from requests to replies; prompts, HTTP calls and JSON parsing with default replies are left out.
- Vector database, file storage, PDF text extraction, summaries, HTTP routing and settings are I/O and are not modelled. This covers `app/database/chroma_client.py`, `app/database/file_storage.py`, `extract_text_from_pdf`, `generate_summary`, `app/api/user.py`, `app/api/chat.py`, `app/api/swagger.py`, `app/main.py` and `app/config.py`.
- Floating point is not modelled. Scores and importances are reals, and the cosine quotient is an abstract function.
- Embeddings.GenerateEmbedding: values are the digest bytes 0..255; the division by 255 is left out.
- The clock is a parameter: `now` in seconds and `today` as a day number. Dates are day numbers, not `date`/`datetime` objects or isoformat strings.
- Async execution and concurrency are not modelled; every call is sequential.
- The relevance ranker and embedding calls of the memory store are parameters. The functions it calls are not defined by the embeddings module.
- The supported types, metadata extractor and vector store of the upload endpoint are parameters. The attributes it calls are not defined by the PDF processor.
- The embeddings the upload computes are never used, so they are left out.
- Failures of the Mongo insert and of the vector store during an upload are not modelled.
- Tasks.UpdateTask: the task store helpers are stubs. The task found and the stored tasks are parameters, and every error, a missing task included, surfaces as 500 "Internal server error" because the 404 is re-caught.
- Tasks.CompleteTask: the same abstract task store and 500 error as the update.
- `create_task` and `delete_task` of the task API are not modelled; they only call the stub store.
- Tasks.AiTasks: the description of the tests task is the model's reply rendered as text; pydantic validation of non-string replies is not modelled.
- Values.Show renders lists, dates and nested dictionaries as a fixed placeholder, so texts that quote such values are abstracted. Quotes inside strings are not escaped in list renderings.
- Mongo's order among equal sort keys is taken as insertion order.
- MemoryManager.MemoryStore.UpdateMemoryAccess: it matches the memory by its numeric id. The string-versus-ObjectId mismatch in the source's lookup is not modelled.
- The profile store is always reachable; its exception paths in the chat router and planner handlers are not modelled.
- Digits and whitespace are ASCII here: `int()`, the `\d` of the date pattern in the PDF processor and the `\d` and `\s` of the chat router's contraction patterns match only ASCII digits and the ASCII blank characters, where Python's `int()` and `re` on a `str` also accept other Unicode decimal digits and whitespace.
- ChatRouter.GatherContext: the context passed to the planner, handlers and stored turn holds record ids instead of full records. Context parameters the source ignores are dropped.
- `update_pregnancy_progress` and `get_pregnancy_summary` of the timeline are not modelled. The summary computes a floating-point progress percentage, and the progress update repeats the planner's pregnancy update.
- Timeline.GetWeekDetails: the source fetches the profile a second time; the model uses the same profile.
- `generate_memory_summary` and `analyze_conversation_turn` of the memory manager only forward to the language model and are not modelled.
- `connect`, `close`, `update_user_profile`, `add_medical_document`, `create_task`, `update_task` and `delete_task` of the MongoDB client are not modelled. They are single database calls without rules of their own.
- A failed insert after the cache update in `create_user_profile` is not modelled.
- Height and weight of a profile are not modelled.
- ChatRouter.Converse: the planned action objects are local to the turn, so its contract, and that of ChatRouter.ProcessMessage, does not mention their `completed` flags; ChatRouter.RunActions states them.
- Timeline.DaysUntilStep: the countdown is that of the intended timeline; the code as written never computes one (see Findings).
- The remaining medical-document endpoints (`get_user_documents`, the summary, by-type and delete endpoints of `app/api/medical.py`) are not modelled. They forward to the profile store, whose operations are modelled.

## Findings

| source | as written | input that shows it | evidently intended | confidence | as-written member | corrected member |
|---|---|---|---|---|---|---|
| app/agent/timeline.py:66-76 | the LMP is a `date` and the countdown subtracts `datetime.utcnow()` from `lmp_date + timedelta(weeks=week)`, which raises `TypeError`; `get_pregnancy_timeline` then answers "Failed to get timeline" | a profile with an LMP date and pregnancy week 20 (any week at most 40, or none) | the 40 entries of weeks 1..40 with a whole-day countdown from the current week on | high, not executed | Timeline.CalculateTimeline, Timeline.GetPregnancyTimeline, Timeline.CountdownExactlyWhenRaises | Timeline.IntendedTimeline, with Timeline.EntryMeaning, Timeline.TimelineOrder and Timeline.DaysUntilStep |
| app/database/mongo_client.py:57-58 | the profile's LMP is a `date`, and `parse_ddmmyyyy` takes its `len`, which raises `TypeError`; `except ValueError` does not catch it, so creation fails before the id is cached | any new profile with `lmp_date` set | the week and due date derived from the LMP, the caller's values overridden | high, not executed | MongoClient.MongoDBClient.CreateUserProfile, MongoClient.Stored, MongoClient.StoredNeverDerives | MongoClient.Derived, with MongoClient.DerivedFields and MongoClient.DerivedIgnoresGiven |
