# LLM Council backend — a Dafny model

The LLM Council backend answers a user's question in three stages:

1. **Initial stage.** Every model of a configured registry answers the question on its own.
2. **Discussion rounds.** Each model sees the other models' answers under pseudonyms ("Модель А", "Модель Б", …) and replies with a JSON object that holds a confidence. The rounds stop at a cap, or early once the average confidence is high.
3. **Consensus.** A chairman model writes the final answer.

An HTTP layer stores chats and messages. It runs the council on each new message and streams progress events. It saves the answer together with its discussion record. A separate module turns file attachments (text, PDF, DOCX, XLSX) into a bounded block of context text.

This project models that core and proves properties of the model. One Dafny module stands for each source file:

| file | module | source |
|---|---|---|
| `config.dfy` | `Config` | the model registry, the chairman lookup, the round cap (`backend/config.py`) |
| `schemas.dfy` | `Schemas` | the records with their defaults and checks (`backend/schemas.py`) |
| `council_format.dfy` | `CouncilFormat` | pseudonyms, the discussion transcript, the compact history block, the fence clean-up of replies (`backend/council.py`) |
| `council_replies.dfy` | `CouncilReplies` | how gateway outcomes become responses, the reply fallback, progress events, the average confidence (`backend/council.py`) |
| `council.dfy` | `Council` | the three stages and the round loop of `run_full_council` (`backend/council.py`) |
| `file_extractor.dfy` | `FileExtractor` | extension dispatch, the per-file budget loops, the whole-context budget (`backend/file_extractor.py`) |
| `chat_api.dfy` | `ChatApi` | the request handlers over an in-memory chat store, the history window, the stream of events (`backend/main.py`) |

Two helper modules support these:
- `text.dfy` (`Text`) holds the Python `str` operations the code relies on.
- `wrappers.dfy` (`Wrappers`) holds Option and Result.

The boundaries of the system become inputs:
- **Gateway.** The gateway's answers are a `Gateway` value: one `Ok(text)` or `Err(message)` per request, in request order.
- **JSON decoding.** `json.loads` is a parameter `loads: string -> Option<Json>`, where None stands for a decode error.
- **Reading libraries.** What pdfplumber, python-docx and openpyxl return is an input value.
- **Identifiers and the clock.** The identifiers and the clock reading of a request are parameters.

Each loop of the source is a `method` with loop invariants. It is proved equal to a recursive function that specifies it, and the lemmas state the properties of that function. The state the HTTP layer updates is a class, `ChatStore`, with a map of chats and a sequence of messages.

## Model

| member | source | states |
|---|---|---|
| Config.ChairmanIndex | backend/config.py:28 | The position found is the first entry whose role is "chairman": that entry is one, and no earlier entry is. The result is None exactly when no entry is a chairman. |
| Config.ChairmanOf | backend/config.py:28 | CHAIRMAN_MODEL is a registry entry whose role is "chairman". The lookup fails (StopIteration) exactly when no entry has that role. |
| Config.ConfiguredRegistry | backend/config.py:12-31 | The configured registry has two entries with distinct ids and distinct names. Exactly the first entry is the chairman, and it is CHAIRMAN_MODEL. MAX_DISCUSSION_ROUNDS is 3. |
| Config.NoChairmanFails | backend/config.py:28 | A registry made only of participants makes the chairman lookup fail with StopIteration. |
| Schemas.ParseStageType | backend/schemas.py:10-13 | `StageType(s)` succeeds exactly for "initial", "discussion" and "consensus", and yields the member whose value is `s`. |
| Schemas.StageTypeRoundTrip | backend/schemas.py:10-13 | Parsing a stage type's value gives that stage type back. |
| Schemas.ParseMessageRole | backend/schemas.py:16-19 | `MessageRole(s)` succeeds exactly for "user", "assistant" and "system", and yields the member whose value is `s`. |
| Schemas.MessageRoleRoundTrip | backend/schemas.py:16-19 | Parsing a role's value gives that role back. |
| Schemas.NewModelResponse | backend/schemas.py:23-43 | Validation succeeds exactly when `content` is given and the confidence, if given, lies in [0, 1] with both bounds included. A missing content is refused as a missing field, and a confidence outside [0, 1] as out of range. Every value given is kept; the confidence defaults to 0.8 and the three lists to empty. |
| Schemas.ConfidenceBounds | backend/schemas.py:26-31 | Confidences 0.0 and 1.0 are accepted; 1.5 and -0.1 are refused as out of range. |
| Schemas.NewConsensusResponse | backend/schemas.py:46-64 | Validation succeeds exactly when `final_answer` is given, and a missing one is named in the error. Every value given is kept; `consensus_reached` defaults to true, `summary` to "" and both lists to empty. |
| Schemas.NewStageProgressEvent | backend/schemas.py:158-163 | Validation succeeds exactly when `stage` and `status` are given. A missing field is named in the error. The round number and the model name default to None. |
| Schemas.NewMessageResponse | backend/schemas.py:118-133 | The fields given are kept. `attachments` defaults to empty, and the stage and the three discussion fields default to None. |
| CouncilFormat.AnonymizeModelName | backend/council.py:78-80 | The label of index i is "Модель " followed by the single character whose code is 1040 + i. |
| CouncilFormat.AnonymizeInjective | backend/council.py:78-80 | Distinct indices get distinct labels. |
| CouncilFormat.FirstPseudonyms | backend/council.py:78-80 | The first three labels end in the Cyrillic letters А, Б and В. |
| CouncilFormat.DiscussionBlocksCount | backend/council.py:82-94 | The transcript has one block per input entry, less exactly one when the excluded index is within the input. |
| CouncilFormat.DiscussionBlockAt | backend/council.py:82-94 | The k-th block is the block of an entry that is not the excluded one, and blocks stay in input order. Each block carries the label of its original index, so nothing is re-lettered. |
| CouncilFormat.FormatResponsesForDiscussion | backend/council.py:82-94 | The append loop returns the blocks of the transcript, joined by "\n". |
| CouncilFormat.HistoryLineShape | backend/council.py:109-118 | A history line starts with "[U] " exactly for a user message, where a missing role counts as user, and "[A] " otherwise. The line holds no newline. It is at most 4 + 500 + 5 characters long. |
| CouncilFormat.KeepFromBudget | backend/council.py:119-126 | From any position, the kept lines are the next lines of the input, in order. Their lengths, added to the running total, stay within `max_chars`. When the loop stops early, the next line would have overflowed. |
| CouncilFormat.KeepFromStep | backend/council.py:119-124 | A line that fits is kept in front of the lines kept after it. |
| CouncilFormat.HistoryToonBudget | backend/council.py:106-128 | For a non-empty history, the emitted message lines are a prefix of all the history lines. Their summed length is at most `max_chars`. The omission marker comes last exactly when a line was dropped, and then every later message is dropped too. |
| CouncilFormat.BudgetHistoryLines | backend/council.py:106-126 | The loop emits the header, the kept lines and, when it stopped early, the omission marker. |
| CouncilFormat.FormatChatHistoryToon | backend/council.py:96-128 | The method computes the history block. An empty history gives "". |
| CouncilFormat.CleanReply | backend/council.py:272-276 | The clean-up fails exactly when the stripped reply opens with ``` and holds no newline, which is the IndexError of the source. A reply that does not open with ``` is only stripped. |
| CouncilFormat.FencedIsStripped | backend/council.py:272-276 | Text that opens and closes with ``` has no white space to strip. |
| CouncilFormat.CleanFencedReply | backend/council.py:272-276 | A payload in a fenced block with a language tag comes out of the clean-up unchanged. |
| CouncilFormat.FinalAnswer | backend/council.py:359-364 | The answer neither starts nor ends with white space. A chairman text that does not both open and close with ``` (after stripping) is only stripped. |
| CouncilFormat.FencedLines | backend/council.py:362-363 | Dropping the first and last lines of a fenced block leaves exactly the lines of its body. |
| CouncilFormat.FencedAnswer | backend/council.py:359-364 | A stripped body between a fence line and a closing fence is the final answer. |
| CouncilFormat.FinalAnswerUnwrapsFence | backend/council.py:359-364 | A stripped answer wrapped in a fenced block with a language tag is recovered exactly. |
| CouncilFormat.BareFenceIsEmpty | backend/council.py:359-364 | A reply made of just ``` gives an empty final answer. |
| CouncilReplies.InitialResponse | backend/council.py:172-198 | The response keeps the model's id, name and colour, with stage INITIAL, round 0 and no key points. A success gives its text verbatim with confidence 0.8. A failure gives "Ошибка: " and the message, with confidence 0.0. |
| CouncilReplies.ReadReply | backend/council.py:270-285 | Reading a reply fails exactly when the clean-up fails, and then with IndexError. Otherwise the fields come from decoding the cleaned text. |
| CouncilReplies.DecodeReply | backend/council.py:278-285 | Decoding never fails. A decode error or a value other than an object gives the raw reply, confidence 0.8 and no key points. |
| CouncilReplies.Reply | backend/council.py:264-285 | A failed call gives "Ошибка: " and the message, confidence 0.0 and no key points, without any decoding. A successful call is read as above. |
| CouncilReplies.AsStrings | backend/council.py:289-299 | A `list[str]` field accepts exactly an array of strings, and keeps its items in order. |
| CouncilReplies.Validate | backend/council.py:289-299 | Building the response succeeds exactly when content is a string, confidence a number and key_points a list of strings. The response then carries those values, the model's identity, stage DISCUSSION and the round. A non-string content is refused. |
| CouncilReplies.FallbackNeverRaises | backend/council.py:264-285 | A failed call, or a reply that does not decode, never raises. The response is the error text with confidence 0.0, or the raw reply with confidence 0.8, and has no key points. |
| CouncilReplies.FenceWithoutNewlineRaises | backend/council.py:273-274 | A reply that opens with ``` and holds no newline escapes as IndexError. |
| CouncilReplies.ConfidenceUnchecked | backend/schemas.py:100-109 | A decoded confidence is taken as it is, with no range check, unlike for ModelResponse. |
| CouncilReplies.MissingContentKeepsRaw | backend/council.py:279-281 | A decoded object without "content" keeps the whole raw reply as content, with confidence 0.8. |
| CouncilReplies.CompletedEvents | backend/council.py:182-187 | There is one "completed" event per model, in registry order, naming that model. |
| CouncilReplies.RoundProgressFailed | backend/council.py:263-304 | Once a reply has escaped, the later models change nothing. |
| CouncilReplies.RoundProgressShape | backend/council.py:263-304 | A successful loop yields one response per model, in registry order, after one "completed" event per model. Each response is that model's validated reply and carries the round. |
| CouncilReplies.AverageConfidence | backend/council.py:416 | The average is undefined (ZeroDivisionError) exactly for a round without responses. |
| CouncilReplies.AverageAtLeast | backend/council.py:416 | When every response is at least c confident, so is the average. |
| Council.ConfiguredOrchestrator | backend/council.py:436 | The module-level orchestrator uses the configured registry and its chairman. |
| Council.InitialResponses | backend/council.py:171-198 | There is exactly one initial response per registry entry, in registry order, each built from that entry's outcome. |
| Council.RunInitialStage | backend/council.py:130-200 | One request goes to each model, carrying the model's id, its prompt with the history block, the question, temperature 0.7 and 2048 tokens. The stage returns one response per model, in order. Its events are "started", then one "completed" per model. |
| Council.HistoryReachesPrompt | backend/council.py:145-165 | A model's initial request goes to that model and carries the question as its user message. Its prompt has a history block exactly when the history is not empty. |
| Council.BuildInitialRequests | backend/council.py:146-165 | The request loop builds one request per model, in registry order. |
| Council.ProcessInitialResults | backend/council.py:171-198 | The result loop yields the initial responses and a "started" event followed by one "completed" event per model. |
| Council.IndexOfName | backend/council.py:229 | The lookup finds the first model with that name. It is None exactly when no model has the name. |
| Council.IndexOfOwnName | backend/council.py:229 | With distinct names, a model's name leads back to its own index. |
| Council.LabelledLinesOfRegistry | backend/council.py:224-231 | Earlier-round responses that all come from registry models never make the context lookup fail. |
| Council.RoundsContextFailed | backend/council.py:224-231 | Once a round's lines fail, the whole context fails the same way. |
| Council.BuildLabelledLines | backend/council.py:228-230 | The inner loop yields the labelled lines of a round. |
| Council.BuildRoundsContext | backend/council.py:224-231 | The loop yields the discussion context of the earlier rounds. |
| Council.InitialContents | backend/council.py:221 | `zip` pairs the models with the initial answers and keeps the shorter length. Each content is the answer at that position. |
| Council.OwnAnswerExcluded | backend/council.py:234-256 | Model i's discussion prompt never shows its own initial answer. Every block it holds is another model's answer, under that model's own label. |
| Council.DiscussionRoundShape | backend/council.py:202-306 | A completed round carries its number and one response per model, in registry order. Each response is that model's validated reply. Its events are "started" and one "completed" per model. |
| Council.RunDiscussionRound | backend/council.py:202-306 | The round is its specification. When the context fails, no request is sent. Otherwise one request goes to each model, showing the others' answers and the earlier rounds. |
| Council.ProcessRound | backend/council.py:262-304 | The reply loop yields the responses, or the exception that escaped, together with the "completed" events emitted before it. |
| Council.ConsensusOf | backend/council.py:359-372 | The final answer is the cleaned chairman text. `consensus_reached` is true, the summary is fixed, and both lists are empty. |
| Council.ConsensusStageShape | backend/council.py:308-381 | The stage starts with "started". It fails exactly when the chairman call fails, with that failure and no other event. Otherwise it yields the consensus and one "completed" event. |
| Council.BuildChairmanInitialContext | backend/council.py:326-330 | The loop yields the block of every initial answer, in order. |
| Council.ChairmanInitialSnoc | backend/council.py:326-330 | The context of the first i + 1 answers is that of the first i, followed by answer i's block. |
| Council.BuildChairmanRoundLines | backend/council.py:334-335 | The loop yields a round's responses under the models' real names. |
| Council.BuildChairmanDiscussionContext | backend/council.py:331-335 | The loop yields every round's header and lines. |
| Council.BuildChairmanRequest | backend/council.py:326-349 | The request goes to the chairman and carries both contexts. |
| Council.RunConsensusStage | backend/council.py:308-381 | The chairman request is as specified, and the outcome and events are those of the consensus stage. |
| Council.RoundsLoopShape | backend/council.py:404-418 | A successful loop from some rounds adds at least one round and stays within MAX_DISCUSSION_ROUNDS. Each added round is the next step. Every added round but the last has an average of at most 0.95. The last one exceeds 0.95 unless the cap was reached. |
| Council.ShapedExtend | backend/council.py:404-418 | A round that does not end the loop extends the shape of the rest of the loop. |
| Council.RoundsLoopNumbered | backend/council.py:405-412 | The rounds of a successful loop are numbered 1, 2, … consecutively. |
| Council.StepNumbered | backend/council.py:405-412 | The round computed after k earlier rounds is numbered k + 1. |
| Council.FullCouncilParts | backend/council.py:383-432 | A successful run consists of the initial responses, the rounds of the loop, and the consensus from a successful chairman reply. |
| Council.FullCouncilShape | backend/council.py:383-432 | A successful run has one initial response per model and between 1 and MAX_DISCUSSION_ROUNDS rounds, numbered from 1. It stops early only right after the first round whose average exceeds 0.95. Its consensus comes from the chairman's reply. |
| Council.FullCouncilRounds | backend/council.py:404-414 | Every round of a successful run is the discussion round computed from the rounds before it, with the gateway's outcomes for that round. |
| Council.ShapedRoundsAreSteps | backend/council.py:404-414 | Each round of a loop from no rounds is the discussion round numbered by its position. |
| Council.EmptyRegistryFails | backend/council.py:416 | An empty registry ends the run with ZeroDivisionError at the first round's average. |
| Council.ChairmanFailurePropagates | backend/council.py:421-426 | When the rounds succeed and the chairman call fails, the run fails with the chairman's failure. |
| Council.RunRounds | backend/council.py:404-418 | The loop, with its early `break`, computes the round loop's specification from no rounds. |
| Council.RoundPass | backend/council.py:405-418 | One pass of the loop either ends the loop with its result, or continues after one more round. |
| Council.StepAt | backend/council.py:405-412 | The step after k rounds is discussion round k + 1 with the gateway's outcomes for it. |
| Council.NextRound | backend/council.py:406-412 | One pass runs the discussion round after the earlier rounds. |
| Council.RunFullCouncil | backend/council.py:383-432 | The method's result and its events are those of the whole-run specification. Its initial requests ask every model, in registry order, the user's question with the history block of the chat history it was given. |
| FileExtractor.LastIndexOf | backend/file_extractor.py:22-24 | `rfind` returns None exactly when the character is absent. Otherwise it returns a position that holds the character, with no occurrence after it. |
| FileExtractor.PathName | backend/file_extractor.py:22-24 | The final path component holds no "/". |
| FileExtractor.ExtensionShape | backend/file_extractor.py:22-24 | An extension is "" or a dot followed by at least one character, with no "/" in it. |
| FileExtractor.ExtensionOfName | backend/file_extractor.py:22-24 | A plain name with a non-empty stem and a non-empty part after its last dot has, as its extension, that dot and part, lower-cased. |
| FileExtractor.SuffixOfName | backend/file_extractor.py:22-24 | The suffix of stem + "." + e is "." + e. |
| FileExtractor.NoExtensionAtTheEdges | backend/file_extractor.py:22-24 | A name that starts with its only dot, or ends with a dot, has no extension. |
| FileExtractor.Bracket | backend/file_extractor.py:37-38 | A bracketed message is "[" + its body + "]". |
| FileExtractor.TextFileBudget | backend/file_extractor.py:27-38 | A read failure gives a bracketed error. A file within the budget is returned stripped. A longer one keeps its first `max_chars` characters, then the marker, then is stripped. The result never exceeds `max_chars` plus the marker's length. |
| FileExtractor.WholeCountFits | backend/file_extractor.py:46-58 | The items kept whole fit in the budget, and the first item not kept would have overflowed it. |
| FileExtractor.WholeStep | backend/file_extractor.py:50-58 | An item that fits is kept whole, in front of the items kept after it. |
| FileExtractor.KeptTotal | backend/file_extractor.py:46-58 | The running total never decreases, and it stays within `max_chars` when it started within it. |
| FileExtractor.PartsFromShape | backend/file_extractor.py:46-61 | The parts are the items kept whole, in order. After them, when an item overflowed, come its first `remaining` characters (if any) and the marker. |
| FileExtractor.PartsFromEnd | backend/file_extractor.py:46-61 | With no items left, or an item that does not fit, only the tail remains. |
| FileExtractor.PartsFromStep | backend/file_extractor.py:46-61 | A whole item in front of shaped parts gives shaped parts. |
| FileExtractor.PartsWithinBudget | backend/file_extractor.py:46-61 | The parts hold at most `max_chars` characters besides the marker. Items whose total fits are all kept unchanged. |
| FileExtractor.BudgetParts | backend/file_extractor.py:50-58 | The page or paragraph loop computes the parts of its specification. |
| FileExtractor.PageTexts | backend/file_extractor.py:51 | A page without text counts as "". |
| FileExtractor.ExtractTextFromPdf | backend/file_extractor.py:41-65 | The reader returns the stripped join of the budgeted page texts. A missing library gives the PDF notice, and a read failure a bracketed error. |
| FileExtractor.ExtractTextFromDocx | backend/file_extractor.py:68-91 | The reader returns the stripped join of the budgeted paragraphs. A missing library gives the DOCX notice, and a read failure a bracketed error. |
| FileExtractor.SheetsFromFlat | backend/file_extractor.py:103-117 | The nested sheet and row loops produce the same lines as one budget pass over the workbook's headers and rows, in workbook order. |
| FileExtractor.RowsFromFlat | backend/file_extractor.py:107-115 | From any row on, the row loop produces the same lines as the budget pass over the remaining rows and the later sheets. |
| FileExtractor.CutFacts | backend/file_extractor.py:107-115 | From any running total within the budget, the budget lets through a prefix of the lines and replaces the next line, if any, by the marker. The rows let through take at most `max_chars` + 1. |
| FileExtractor.CutIsFirstOverflow | backend/file_extractor.py:107-110 | The line where the budget stops is the first row whose length would take the running total past `max_chars`. Every row before it fitted when it was reached. |
| FileExtractor.XlsxBudget | backend/file_extractor.py:103-117 | When every row fits, every header and row of the workbook comes out. Otherwise the lines before the first row with total + length > `max_chars` come out, followed by the marker. Either way the rows kept, each counted as its length plus one, take at most `max_chars` + 1. |
| FileExtractor.ExtractTextFromXlsx | backend/file_extractor.py:94-121 | The nested loops, with their early return on overflow, compute the workbook text of the specification, whose row budget `FileExtractor.XlsxBudget` states. |
| FileExtractor.ReaderFor | backend/file_extractor.py:134-153 | Every notice is bracketed and names the file. |
| FileExtractor.OtherFormatsAreNotText | backend/file_extractor.py:13-19 | The extensions with a reader or a notice of their own are not text extensions. |
| FileExtractor.ReaderForExtension | backend/file_extractor.py:138-149 | Each reader serves exactly its extensions: the text reader the text extensions, PDF ".pdf", DOCX ".docx" and XLSX ".xlsx". |
| FileExtractor.ReaderForNotices | backend/file_extractor.py:142-153 | ".doc" and ".xls" get an unsupported notice, ".ppt" and ".pptx" a not-implemented one, and every other extension a generic notice naming the file. |
| FileExtractor.FileNotice | backend/file_extractor.py:144-153 | A notice is "[" + the file name + ": " + the reason + "]". |
| FileExtractor.FailuresAreBracketed | backend/file_extractor.py:37-38 | A failed read, a missing library or an unsupported format always yields a bracketed message and never raises. |
| FileExtractor.ExtractTextFromFile | backend/file_extractor.py:124-153 | The dispatch computes the file's text with the per-file budget. |
| FileExtractor.BlocksFromShape | backend/file_extractor.py:172-192 | The lines are the blocks kept whole, in input order. After them, when a block overflowed, come a truncated block with the marker (when more than 100 characters remain) or the omitted-file line. |
| FileExtractor.BlocksFromEnd | backend/file_extractor.py:172-192 | With no blocks left, or a block that does not fit, only the tail remains. |
| FileExtractor.BlocksFromStep | backend/file_extractor.py:172-192 | A whole block in front of shaped lines gives shaped lines. |
| FileExtractor.BlocksBudget | backend/file_extractor.py:172-192 | The blocks kept whole come first, in input order, and fit in the total budget. |
| FileExtractor.FileBlocksAt | backend/file_extractor.py:172-182 | Block k holds the text extracted from file k, under its name. |
| FileExtractor.FileBlocksSnoc | backend/file_extractor.py:172-182 | The blocks of the first i + 1 files are those of the first i, followed by the block of file i. |
| FileExtractor.ReadBlocks | backend/file_extractor.py:172-182 | The loop extracts every file and formats its block, in input order. |
| FileExtractor.ReadBlock | backend/file_extractor.py:173-182 | One file is extracted and its block formatted. |
| FileExtractor.BudgetBlocks | backend/file_extractor.py:172-195 | The budget loop over the blocks computes its specification. |
| FileExtractor.ExtractTextFromFiles | backend/file_extractor.py:156-197 | The whole context is "" for no files. Otherwise it is the header and the budgeted blocks of the files in input order, joined by "\n". |
| ChatApi.CreateTitle | backend/main.py:79-81 | The title is never empty. A missing or empty title becomes "New Chat"; any other title is kept. |
| ChatApi.AutoTitle | backend/main.py:228-230 | A message of at most 50 characters is its own title. A longer one gives its first 50 characters followed by "...". |
| ChatApi.AutoTitleIdempotent | backend/main.py:228-230 | Titling a derived title changes nothing. |
| ChatApi.Retitled | backend/main.py:227-231 | A chat whose title is a placeholder is renamed after the message, and the rename sets its update time to the request's clock reading. Any other chat is unchanged. |
| ChatApi.RenamedOnce | backend/main.py:227-231 | Once renamed to a title that is not a placeholder, a chat keeps that title on later messages. |
| ChatApi.PlaceholderMessageRenamesAgain | backend/main.py:355-357 | A first message that reads "New Chat" keeps the placeholder, so the next message renames the chat and sets its update time again. |
| ChatApi.PathsDifferOnDefaultTitle | backend/main.py:228 | A chat titled "Новый чат" is renamed by the streaming path, which sets its update time, but not by the non-streaming one. |
| ChatApi.HistoryOnlyWhenStreaming | backend/main.py:259-263 | Every initial request carries the message as its question. Its prompt has a history block exactly when the history it was asked with is not empty, which the non-streaming path never passes (backend/main.py:361). |
| ChatApi.AssistantMessageShape | backend/main.py:292-301 | The saved answer is an assistant message with the chairman's final answer as content. Its discussion data holds exactly the keys `initial_responses`, `discussion_rounds` and `consensus`, each with the run's own value. |
| ChatApi.MessageView | backend/main.py:127-143 | A message with non-empty discussion data is marked CONSENSUS and gets its lists back. The consensus comes back only when the data has that key. Any other message has no stage and no discussion fields. |
| ChatApi.SavedAnswerReadsBack | backend/main.py:364-389 | Reading a chat back shows a council answer exactly as `send_message` returned it. |
| ChatApi.UserMessageReadsBack | backend/main.py:127-143 | A user message reads back without discussion metadata. |
| ChatApi.ChatMessages | backend/main.py:118-123 | The chat's messages are stored messages of that chat. |
| ChatApi.ChatMessagesComplete | backend/main.py:118-123 | Every stored message of the chat is among them. |
| ChatApi.WithoutChat | backend/main.py:154-169 | After a cascading delete, exactly the messages of the other chats remain. |
| ChatApi.HistoryWindow | backend/main.py:233-242 | The history holds at most ten messages. |
| ChatApi.HistoryWindowIsRecent | backend/main.py:233-242 | The window is the last (at most ten) selected messages of the chat, oldest first. |
| ChatApi.SelectedWithFreshId | backend/main.py:237 | Excluding an identifier that no stored message carries selects the whole chat. |
| ChatApi.HistoryBeforeNewMessage | backend/main.py:218-242 | The history passed to the council is the ten most recent messages of the chat from before the new user message, oldest first. |
| ChatApi.SuccessStream | backend/main.py:276-313 | After a successful run the stream holds, in order: every progress event, one `initial_responses` event, one `discussion_round` event per round in round order, one `consensus` event, and `done` with the new message's id. |
| ChatApi.FailureStream | backend/main.py:259-316 | A run that raises streams the progress events shown before it finished, then a single error event. |
| ChatApi.StreamEventOrder | backend/main.py:259-316 | Progress events come first. The stream ends with `done` exactly when the run succeeds, and with an error event exactly when it raises. Neither appears anywhere else. |
| ChatApi.StreamedRoundsNumbered | backend/main.py:284-286 | The round events carry the round numbers 1, 2, … in order. |
| ChatApi.CouncilStreamRounds | backend/main.py:259-313 | The stream of a successful council run carries between one and MAX_DISCUSSION_ROUNDS round events, numbered 1, 2, … in order. |
| ChatApi.KeptMessagesValid | backend/main.py:154-169 | The messages a cascading delete keeps all belong to remaining chats and keep distinct identifiers. |
| ChatApi.KeptDistinct | backend/main.py:154-169 | The messages of the other chats keep their identifiers distinct. |
| ChatApi.ChatReadsBackAfterSend | backend/main.py:104-151 | After a successful send, reading the chat back ends with the user's message and then the council answer, as `send_message` returned it. |
| ChatApi.Stream | backend/main.py:244-316 | The event generator yields the stream of the finished run. |
| ChatApi.StreamRun | backend/main.py:259-316 | The generator yields the events of the run up to the consensus event, or up to the error event. |
| ChatApi.ChatStore.constructor | backend/main.py:73-85 | The store starts empty and valid. |
| ChatApi.ChatStore.CreateChat | backend/main.py:73-85 | A new chat is stored under its id, with its title and both timestamps set to the current time. Messages are unchanged. |
| ChatApi.ChatStore.UpdateChat | backend/main.py:172-196 | An unknown chat gives 404 and nothing changes. Otherwise only a non-empty title replaces the old one, and the update time is set either way. |
| ChatApi.ChatStore.DeleteChat | backend/main.py:154-169 | An unknown chat gives 404 and nothing changes. Otherwise the chat and all of its messages are removed, and nothing else is. |
| ChatApi.ChatStore.GetChat | backend/main.py:104-151 | An unknown chat gives 404. Otherwise the response is the chat with the views of its messages, in store order. |
| ChatApi.ChatStore.SaveUserMessage | backend/main.py:218-231 | The user message is appended. A chat with a placeholder title is renamed after it, and its update time is set. Any other chat is left as it was. |
| ChatApi.ChatStore.SaveAssistantMessage | backend/main.py:291-311 | The assistant message is appended, and the chat's update time is set. |
| ChatApi.ChatStore.LoadHistory | backend/main.py:233-242 | The query returns the history window of the chat, without the new message. |
| ChatApi.ChatStore.Answer | backend/main.py:259-311 | The run is the whole-council specification, and its initial requests ask the configured models the message with the given history. A successful run saves the assistant message and sets the update time. A run that raises leaves the store unchanged. |
| ChatApi.ChatStore.SendMessageStream | backend/main.py:200-316 | An unknown chat gives 404. Otherwise the user message is saved, and a chat with either placeholder is renamed with a new update time. The council is asked the message with the ten most recent earlier messages as history. The stream is the run's stream. A successful run also saves the answer and sets the update time. |
| ChatApi.ChatStore.SendMessage | backend/main.py:329-389 | An unknown chat gives 404. Otherwise the user message is saved, and a chat titled exactly "New Chat" is renamed with a new update time. The council is asked the message with an empty history. A successful run saves and returns the answer. A run that raises fails the request, and the user message stays saved. |

## Left out

**Transport and concurrency**
- HTTP transport and the gateway client are not modelled. The gateway is the `Gateway` input: one outcome per request, in request order.
- Concurrency is not modelled: `asyncio.gather`, the background task, and the queue that `send_message_stream` polls with its 0.5-second timeout. Stages run one after the other. How many progress events were streamed before a failing run finished is the parameter `shown`.
- The exception texts (`str(e)`) are abstract: a gateway failure carries a message string, and an escaping exception is a `Failure` value.
- The code has no fallback answer when the chairman call fails: the failure escapes `run_full_council` (backend/council.py:421-426), as `Council.ChairmanFailurePropagates` states.
- Saving the answer inside the stream generator could itself fail after the consensus event. The model does not cover that case.

**Storage, time and endpoints**
- The SQL database, sessions and ORM are not modelled. The store is a map of chats and a sequence of messages in insertion order, which stands for `created_at` order.
- Identifiers and timestamps are parameters; both messages of one request get the same time.
- `list_chats`, the health check and the models endpoint are not modelled. They only read the store or the configuration.
- `ChatApi.ChatStore.Answer` and `SendMessage` hold the store's validity only for fresh message identifiers. The database generates those.

**Libraries and encodings**
- `json.loads` is the parameter `loads`. Pydantic's lax coercions are not modelled beyond a boolean read as a float; for example, a numeric string read as a float is not.
- The `model_dump` / JSON round trip of the stored discussion data is taken as the identity.
- Confidences and the 0.95 threshold are `real`, not floating point.
- The prompt templates and their Russian wording are opaque constants.
- What pdfplumber, python-docx and openpyxl read is an input value. Each cell is given already as `str(cell)` or None.
- A page, paragraph or row that fails halfway through a document is not told apart from a failure of the whole read.
- `Text.Lower` folds ASCII letters only. File extensions in other scripts are not case-folded.

**Constants and side effects**
- `MAX_CHARS_PER_FILE` and `MAX_TOTAL_CONTEXT_CHARS` are imported at backend/file_extractor.py:10 but are not defined in backend/config.py. They are the parameters `maxChars` and `maxTotal`.
- The directory created at backend/config.py:39 is a side effect and is not modelled.
- `CouncilFormat.AnonymizeModelName` requires the index to stay below 0xD800 - 1040, because Dafny characters exclude the surrogate block. The configured registry has two entries.

**Where the code differs from its documentation and tests**
- The chairman prompt shows the real model names next to the pseudonyms (backend/council.py:326-335). The model follows the code.
- The repository's tests expect Latin labels ("Model A") and three configured models. The code emits Cyrillic labels and configures two models, and the model follows the code.
- The marker of the history block reads "ранние сообщения опущены" ("earlier messages omitted"), but the loop keeps the earliest messages and stops at the first that overflows, so it is the later messages that are omitted (backend/council.py:119-124). The model emits the marker as written.
- `send_message` runs the council without the chat history (backend/main.py:361), unlike the streaming path. The model follows the code.
- The attachment extractor is not called from backend/main.py. `FileExtractor.ExtractTextFromFiles` is modelled on its own. The model extracts every file before budgeting, whereas the source extracts lazily inside the loop. The resulting context is the same.
