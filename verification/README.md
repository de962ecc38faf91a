# penguin-tamer, modelled in Dafny

penguin-tamer is a terminal assistant. It sends the user's questions to an
OpenAI-compatible chat API, streams the answer into the terminal and numbers
the code blocks of the answer, so the user can run one by typing its
number. This project models the logic under its UI, network and
subprocess layers, and proves what that logic promises.

The model covers four groups of behaviour.

- **The streaming turn and its transcript.**
  - The current `StreamProcessor` of the OpenRouter client: wait for the
    first fragment, accumulate the rest, fold usage-only frames into the
    token counters, and commit the user and assistant messages only for a
    non-blank reply.
  - Three older clients (`llm_client.py`, `aiebash/llm_client.py`,
    `aiebash/llm_chat.py`). They commit the user message before the
    request.
  - Each version is proved to grow the transcript by an exact amount.
  - The network stream is a sequence of frames and Ctrl+C a boolean flag.
- **The demo record and playback engine.**
  - The append-only `DemoSession` and its dictionary round trip.
  - The guarded `DemoRecorder` state machine, with its chunk buffers and
    the next-file numbering rule.
  - The mode logic of `DemoSystemManager` and `NullDemoManager`.
  - The in-order playback loop of `DemoPlayer`.
  - The demo directory is a map from file names to contents, and the clock
    an integer.
- **Code-block numbering and the dialog loops.**
  - The `re.sub` scanners of `formatter_text.py` and `app.py`, with
    numbering from 1 on every call.
  - The input classifiers and loops of `cli.py`, `aiebash/__main__.py`,
    `aiebash/chat.py` and the three `ai.py` scripts.
  - The command executor's bounds check, the Windows batch rewrite and the
    output collection rule.
- **Validators, lookups and map updates.** The config menus' value parsers,
  double-click detection and button-row chunking, the provider table, the
  dialogs' save rules, the nested config lookup, the ordered error
  classifier, and the prompt and request builders.

Each Dafny module follows one source file.

| Dafny file | source file |
|---|---|
| base.dfy | shared values: messages, exceptions, JSON values, Python string operations |
| frames.dfy | the stream frames and the unguarded read shared by the older clients |
| openrouter_client.dfy | src/penguin_tamer/llm_clients/openrouter_client.py |
| legacy_client.dfy | src/penguin_tamer/llm_client.py |
| demo_models.dfy, demo_recorder.dfy, demo_manager.dfy, demo_player.dfy | src/penguin_tamer/demo_system/ |
| patterns.dfy | the regular expressions of formatter_text.py and app.py and their `re.sub` |
| formatter_text.dfy, app.dfy | formatter_text.py, app.py |
| command_executor.dfy | src/penguin_tamer/command_executor.py |
| cli.dfy, prompts.dfy, debug.dfy | src/penguin_tamer/cli.py, prompts.py, debug.py |
| config_menu.dfy, textual_config_menu.dfy | src/penguin_tamer/menu/config_menu.py, src/penguin_tamer/textual_config_menu.py |
| provider_manager.dfy, dialogs.dfy | src/penguin_tamer/menu/provider_manager.py, dialogs.py |
| ai_scripts.dfy | ai.py, ai-bash/ai.py, source/ai.py |
| aiebash_errors.dfy, aiebash_clients.dfy, aiebash_chat.dfy, aiebash_main.dfy, aiebash_config.dfy, aiebash_menu.dfy | src/aiebash/ |

Code that changes state step by step is modelled as classes and methods with
loops. Each such method is proved against a function that specifies it, and
the properties are then proved about that function.

## Model

| member | source | states |
|---|---|---|
| OpenRouter.PrepareApiParams | src/penguin_tamer/llm_clients/openrouter_client.py:279-299 | model, temperature, `stream=True` and `stream_options.include_usage=True` are always sent; the request messages are the transcript, plus a user entry exactly when the input is non-empty (the transcript itself is a value and is not changed) |
| OpenRouter.PrepareApiParamsOptional | src/penguin_tamer/llm_clients/openrouter_client.py:301-315 | `max_tokens`, `stop` and `seed` are sent iff set, `top_p` iff set and not 1.0, each penalty iff it is not 0.0, and no other key is sent |
| OpenRouter.DefaultHeaders | src/penguin_tamer/llm_clients/openrouter_client.py:322-327 | the OpenRouter headers are sent exactly when the lower-cased URL contains `openrouter.ai`, and are then exactly the two fixed headers |
| OpenRouter.EntryOf | src/penguin_tamer/llm_clients/openrouter_client.py:386-390 | an entry is listed iff it is a dict with an `id`; its name is `name` when present, the id otherwise |
| OpenRouter.EntriesOf | src/penguin_tamer/llm_clients/openrouter_client.py:385-390 | every listed model comes from some element of `data` |
| OpenRouter.FilterModelsExact | src/penguin_tamer/llm_clients/openrouter_client.py:393-398 | the filter keeps exactly the entries whose id or name contains the lower-cased filter, as a subsequence in the original order; it raises exactly when some entry's test raises |
| OpenRouter.FetchModels | src/penguin_tamer/llm_clients/openrouter_client.py:376-403 | a failed request gives `[]`; without a filter all listed entries are returned; every returned entry is a listed one |
| OpenRouter.ModelsUrl | src/penguin_tamer/llm_clients/openrouter_client.py:424-431 | the URL ends in `/models`; before it is a prefix of the URL without trailing slashes that holds no `/chat/completions`, and is that whole URL when it had none |
| OpenRouter.WaitFirst | src/penguin_tamer/llm_clients/openrouter_client.py:163-180 | a found first fragment is non-empty and lies inside the stream |
| OpenRouter.TranscriptInvariant | src/penguin_tamer/llm_clients/openrouter_client.py:73-106 | the transcript grows by exactly two messages iff the call returns a non-empty reply; it then gains the user message and that non-blank reply as the assistant message; on a connect error, a blank reply or an interruption it is unchanged |
| OpenRouter.FinalizeInvariant | src/penguin_tamer/llm_clients/openrouter_client.py:242-265 | the same transcript invariant for the part of the call after the stream was read |
| OpenRouter.WaitFirstFragments | src/penguin_tamer/llm_clients/openrouter_client.py:163-180 | the first loop consumes exactly the first content fragment, or all of a stream that has none |
| OpenRouter.RestFragments | src/penguin_tamer/llm_clients/openrouter_client.py:211-240 | the second loop appends every later fragment, in order, to the parts already gathered |
| OpenRouter.ReplyIsAllFragments | src/penguin_tamer/llm_clients/openrouter_client.py:144-145 | a non-empty reply is the in-order concatenation of every content fragment of the stream, the first one included |
| OpenRouter.NoContentWarnsOnce | src/penguin_tamer/llm_clients/openrouter_client.py:252-256 | a stream without content returns `""`, prints the empty-response warning once and leaves the transcript unchanged |
| OpenRouter.WaitFirstNoFail | src/penguin_tamer/llm_clients/openrouter_client.py:165-180 | a stream that raises nothing never makes the first loop raise |
| OpenRouter.RestSnoc | src/penguin_tamer/llm_clients/openrouter_client.py:211-236 | one more frame at the end of a stream is handled by exactly one more step of the second loop |
| OpenRouter.UsageFrameCountsOnce | src/penguin_tamer/llm_clients/openrouter_client.py:215-223 | a usage-only frame adds its prompt and completion tokens and exactly one request, and adds no text |
| OpenRouter.WaitFirstPrefix | src/penguin_tamer/llm_clients/openrouter_client.py:166-177 | what follows the first fragment does not change what the first loop returns |
| OpenRouter.UsageBeforeFirstIgnored | src/penguin_tamer/llm_clients/openrouter_client.py:170-171 | usage-only frames before the first fragment are skipped by the first loop and never counted |
| OpenRouter.WaitFirstShift | src/penguin_tamer/llm_clients/openrouter_client.py:170-171 | a frame without content in front of the stream only shifts the first loop's result |
| OpenRouter.RestShift | src/penguin_tamer/llm_clients/openrouter_client.py:211-236 | the second loop does not depend on what precedes its starting point |
| OpenRouter.OpenRouterClient.constructor | src/penguin_tamer/llm_clients/openrouter_client.py:269-277 | a new client has zero token counters and no SDK client yet |
| OpenRouter.OpenRouterClient.Client | src/penguin_tamer/llm_clients/openrouter_client.py:318-334 | the SDK client is built on first access, with the OpenRouter headers when the URL calls for them, and the same client is returned afterwards |
| OpenRouter.OpenRouterClient.AskStream | src/penguin_tamer/llm_clients/openrouter_client.py:336-350 | a fresh processor runs the turn: the reply, the transcript, the counters, the recorded demo chunks and the notices end as `Turn` says |
| OpenRouter.StreamProcessor.constructor | src/penguin_tamer/llm_clients/openrouter_client.py:62-71 | a new processor is not interrupted and has no parts and no input |
| OpenRouter.StreamProcessor.Process | src/penguin_tamer/llm_clients/openrouter_client.py:73-106 | the three phases together change the client's transcript, counters, demo chunks and notices exactly as `Turn` says |
| OpenRouter.StreamProcessor.StreamAndFinalize | src/penguin_tamer/llm_clients/openrouter_client.py:95-106 | streaming and then finalizing change the client exactly as `Finalize` after `Rest` says |
| OpenRouter.StreamProcessor.ConnectAndWait | src/penguin_tamer/llm_clients/openrouter_client.py:125-161 | an error sets the interrupted flag and prints a notice, leaving the parts alone; otherwise the first fragment, if any, is the only part added |
| OpenRouter.StreamProcessor.FinalizeResponse | src/penguin_tamer/llm_clients/openrouter_client.py:242-265 | a blank reply warns and returns `""` with the transcript unchanged; any other reply appends the user and assistant messages and is returned |
| OpenRouter.StreamProcessor.WaitFirstChunk | src/penguin_tamer/llm_clients/openrouter_client.py:163-180 | the loop returns what `WaitFirst` says: the first non-empty content, the end of the stream, or the raised exception |
| OpenRouter.StreamProcessor.StreamWithLiveDisplay | src/penguin_tamer/llm_clients/openrouter_client.py:182-240 | the parts, the three counters and the demo chunks end as `Rest` says, and the escaping exception is `Rest`'s |
| LegacyClient.ApiParams | src/penguin_tamer/llm_client.py:315-320 | model, the whole transcript, temperature and `stream=True` are always sent |
| LegacyClient.ApiParamsOptional | src/penguin_tamer/llm_client.py:322-334 | `max_tokens`, `stop` and `seed` are sent iff set, `top_p` iff set and not 1.0, each penalty iff it is not 0.0; this client never asks for usage frames |
| LegacyClient.DirectWaitScan | src/penguin_tamer/llm_client.py:340-376 | the first loop followed by the second loop reads the same fragments, in the same order, as one unguarded pass over the stream |
| LegacyClient.OnePass | src/penguin_tamer/llm_client.py:340-380 | with an open stream the call returns the concatenation of every content fragment, or raises the first exception the stream raises |
| LegacyClient.TranscriptGrowth | src/penguin_tamer/llm_client.py:283-284 | the educational messages and the user message are committed before the request, whatever follows; a returned reply adds exactly one assistant message, a raised error adds nothing more |
| LegacyClient.DisplayContentShape | src/penguin_tamer/llm_client.py:161-165 | content of at most 500 characters is shown whole; longer content shows its first 500 characters followed by the truncation note |
| LegacyClient.TruncationNoteCounts | src/penguin_tamer/llm_client.py:163 | the number in the truncation note is the decimal length of the whole content |
| LegacyClient.DebugPrintMessages | src/penguin_tamer/llm_client.py:147-181 | one panel per message, each showing that message's possibly truncated content, and the total is the sum of all content lengths |
| LegacyClient.Truncated | src/penguin_tamer/llm_client.py:161-165 | the shown content is the one `DisplayContent` describes |
| LegacyClient.ShownEntries | src/penguin_tamer/llm_client.py:407-418 | `messages`, `console` and `_client` are never shown; every other attribute is shown unchanged except the API key, which is shown masked |
| LegacyClient.ItemLines | src/penguin_tamer/llm_client.py:420-422 | one line `  key=repr,` per shown item, in order |
| LegacyClient.ReadFirst | src/penguin_tamer/llm_client.py:340-346 | the first loop stops at the first non-empty content, at the end of the stream, or at the exception the stream raises |
| LegacyClient.CollectItems | src/penguin_tamer/llm_client.py:407-418 | the loop collects exactly the entries `Shown` describes |
| LegacyClient.ShownAppend | src/penguin_tamer/llm_client.py:408-418 | the attribute filter works entry by entry: filtering a concatenation concatenates the filtered halves |
| LegacyClient.RenderLines | src/penguin_tamer/llm_client.py:420-423 | the class header, one line per item and the closing parenthesis, in that order |
| LegacyClient.OpenRouterClient.constructor | src/penguin_tamer/llm_client.py:244-267 | the settings are stored, the transcript holds only the system message and there is no SDK client yet |
| LegacyClient.OpenRouterClient.Client | src/penguin_tamer/llm_client.py:268-272 | the SDK client is built on first access and the same client is returned afterwards |
| LegacyClient.OpenRouterClient.ToString | src/penguin_tamer/llm_client.py:400-423 | the text is the header, the shown attributes and the closing parenthesis joined by newlines |
| LegacyClient.OpenRouterClient.AskStream | src/penguin_tamer/llm_client.py:275-396 | the reply or the raised error and the new transcript are what `Turn` says, and an SDK client exists afterwards |
| Frames.Fragment | src/penguin_tamer/llm_clients/openrouter_client.py:170-177 | the guarded read yields text only when the frame has choices, and that text is never empty |
| Frames.DirectContent | src/penguin_tamer/llm_client.py:344 | the unguarded read agrees with the guarded one whenever it yields text, and whenever choices and a delta are present |
| Frames.DirectScanFragments | src/penguin_tamer/llm_client.py:362-376 | an unguarded pass that raises nothing gathers exactly the guarded content fragments |
| Frames.ScanChunk | src/penguin_tamer/llm_client.py:363-366 | one chunk read without error appends its content, if any, to the parts and leaves the rest of the pass unchanged |
| Frames.ReadRest | src/penguin_tamer/llm_client.py:362-376 | the second loop gathers the parts, and the exception if one escapes, exactly as `DirectScan` says |
| Frames.WithOptionalKeys | src/penguin_tamer/llm_client.py:322-334 | the optional keys are added exactly under their conditions with the configured values, and the other keys keep their values |
| DemoModels.FromDictFields | src/penguin_tamer/demo_system/models.py:45-49 | reading a session succeeds iff the data is a dict, and otherwise raises AttributeError; a missing version reads as `"2.0"` and missing events as `[]` |
| DemoModels.SessionDict | src/penguin_tamer/demo_system/models.py:37-42 | the dictionary has exactly the keys `version` and `events`, and reading it back gives the same fields |
| DemoModels.DemoSession.constructor | src/penguin_tamer/demo_system/models.py:9-13 | a new session has version `"2.0"` and no events |
| DemoModels.DemoSession.Append | src/penguin_tamer/demo_system/models.py:17 | an event list gains exactly the new event at its end; a value without `append` raises and is left alone |
| DemoModels.DemoSession.AddUserInput | src/penguin_tamer/demo_system/models.py:15-20 | exactly one `input` event with the text is appended |
| DemoModels.DemoSession.AddLlmOutput | src/penguin_tamer/demo_system/models.py:22-27 | exactly one `output` event with the text is appended |
| DemoModels.DemoSession.AddCommandOutput | src/penguin_tamer/demo_system/models.py:29-35 | exactly one `command` event with the command and its output is appended |
| DemoModels.DemoSession.ToDict | src/penguin_tamer/demo_system/models.py:37-42 | reading the dictionary back gives the session's own version and events |
| DemoModels.FromDict | src/penguin_tamer/demo_system/models.py:44-49 | a new session is built iff the data is a dict, holding the fields `FromDictFields` reads; otherwise the same error is raised |
| DemoModels.RoundTrip | src/penguin_tamer/demo_system/models.py:37-49 | `from_dict(to_dict(s))` gives back the same version and events |
| DemoModels.FromDictOfDict | src/penguin_tamer/demo_system/models.py:47-48 | a session read from a dict holds that dict's values, or the defaults for missing keys |
| Recording.AfterLast | src/penguin_tamer/demo_system/recorder.py:186 | `split('_')[-1]` is a suffix of the stem that holds no underscore |
| Recording.MaxDefault | src/penguin_tamer/demo_system/recorder.py:191 | `max(numbers, default=0)` is the default for no numbers, and otherwise a member no smaller than any other |
| Recording.AfterLastSuffix | src/penguin_tamer/demo_system/recorder.py:186 | the last underscore-separated piece of `demo_session_NNN` is `NNN` |
| Recording.SessionFileNumber | src/penguin_tamer/demo_system/recorder.py:186-194 | a name written as `demo_session_{n:03d}.json` matches the glob and reads back as number `n` |
| Recording.NextNameIsFresh | src/penguin_tamer/demo_system/recorder.py:168-195 | the next file name is not taken by any existing file |
| Recording.NextAfterSave | src/penguin_tamer/demo_system/recorder.py:168-195 | once that file exists, the next number is one higher |
| Recording.NextOfNumbers | src/penguin_tamer/demo_system/recorder.py:178-191 | one more than the largest number read (0 when there is none) is the next number |
| Recording.NumbersStep | src/penguin_tamer/demo_system/recorder.py:183-189 | a file name whose number parses adds that number; any other file is skipped |
| Recording.CollectNumbers | src/penguin_tamer/demo_system/recorder.py:182-189 | the loop collects exactly the numbers of the names that parse |
| Recording.NextFilename | src/penguin_tamer/demo_system/recorder.py:168-195 | the chosen number is one above every number in use, and the name is its zero-padded file name |
| Recording.LastRecordingUnique | src/penguin_tamer/demo_system/recorder.py:204-209 | there is exactly one last recording in sorted order |
| Recording.GetLastRecording | src/penguin_tamer/demo_system/recorder.py:197-209 | `None` iff no file matches the glob; otherwise the largest matching name in sorted order |
| Recording.Flushed | src/penguin_tamer/demo_system/recorder.py:83-91 | flushing keeps every earlier event and appends one `output` event holding the joined buffer exactly when recording with a non-empty buffer |
| Recording.FlushTwice | src/penguin_tamer/demo_system/recorder.py:83-91 | flushing twice is flushing once |
| Recording.DemoRecorder.constructor | src/penguin_tamer/demo_system/recorder.py:16-32 | a new recorder is not recording and has no session, no file and empty buffers |
| Recording.DemoRecorder.StartRecording | src/penguin_tamer/demo_system/recorder.py:34-45 | a fresh empty session, recording on, and a file name not yet in the directory that follows the numbering rule |
| Recording.DemoRecorder.RecordUserInput | src/penguin_tamer/demo_system/recorder.py:59-69 | while recording exactly one `input` event is appended; otherwise nothing changes |
| Recording.DemoRecorder.RecordLlmChunk | src/penguin_tamer/demo_system/recorder.py:71-81 | while recording the chunk is appended to the output buffer; otherwise nothing changes |
| Recording.DemoRecorder.FinalizeLlmOutput | src/penguin_tamer/demo_system/recorder.py:83-91 | the session's events become `Flushed`, and the buffer is emptied exactly when it was flushed |
| Recording.DemoRecorder.RecordCommandOutput | src/penguin_tamer/demo_system/recorder.py:93-104 | while recording exactly one `command` event is appended; otherwise nothing changes |
| Recording.DemoRecorder.StartCommandRecording | src/penguin_tamer/demo_system/recorder.py:106-118 | while recording the chunk list is cleared, and the start time and command are set; otherwise nothing changes |
| Recording.DemoRecorder.RecordCommandChunk | src/penguin_tamer/demo_system/recorder.py:120-134 | while recording after a start, one chunk with its delay since the start is appended; otherwise nothing changes |
| Recording.DemoRecorder.FinalizeCommandOutput | src/penguin_tamer/demo_system/recorder.py:136-147 | the call raises TypeError exactly when recording with a session, pending chunks and a command, because `add_command_output` takes no `chunks` keyword |
| Recording.DemoRecorder.SaveSession | src/penguin_tamer/demo_system/recorder.py:149-166 | without a session or file nothing happens and `None` is returned; otherwise the output is flushed and the file is written with the session's dictionary |
| Recording.DemoRecorder.StopRecording | src/penguin_tamer/demo_system/recorder.py:47-57 | recording stops; with auto-save and a session, the file is written as `SaveSession` says, and otherwise nothing else changes |
| DemoManagement.DemoSystemManager.constructor | src/penguin_tamer/demo_system/manager.py:67-115 | `record` builds a recording recorder on a fresh file name; `play` builds a player for the given file or the last recording, and the mode falls back to `off` unless that file exists and loads; any other mode builds neither |
| DemoManagement.DemoSystemManager.RecordUserInput | src/penguin_tamer/demo_system/manager.py:131-139 | while the recorder records, exactly one `input` event is appended to its session; otherwise the session is left unchanged |
| DemoManagement.DemoSystemManager.RecordLlmChunk | src/penguin_tamer/demo_system/manager.py:141-144 | the recorder's output buffer gains the chunk exactly when it records; its recording flag, session, file and command buffers stay as they were |
| DemoManagement.DemoSystemManager.FinalizeLlmOutput | src/penguin_tamer/demo_system/manager.py:146-149 | the recorder's session events become `Flushed` of its buffer and its version is kept; a non-empty buffer is emptied while recording; when not recording the session is unchanged; the recorder's flag, session, file and command buffers stay as they were |
| DemoManagement.DemoSystemManager.RecordCommandOutput | src/penguin_tamer/demo_system/manager.py:151-156 | while the recorder records, exactly one `command` event is appended; otherwise the session is left unchanged |
| DemoManagement.DemoSystemManager.Play | src/penguin_tamer/demo_system/manager.py:158-161 | without a player nothing happens and nothing is raised; with one, the result is that of `play_session`: no session prints the error line; an unreadable event list raises its error; otherwise the console gains what `PlayFrom` shows and the same exception escapes, and the player is no longer playing |
| DemoManagement.DemoSystemManager.StopPlayback | src/penguin_tamer/demo_system/manager.py:163-168 | the player, if any, is no longer playing, and its session and console stay as they were |
| DemoManagement.DemoSystemManager.Finalize | src/penguin_tamer/demo_system/manager.py:170-176 | recording stops and the session file is saved when there is one; otherwise the directory is unchanged |
| DemoManagement.CreateDemoManager | src/penguin_tamer/demo_system/manager.py:187-212 | mode `off` gives the null manager; any other mode gives a valid full manager on the same directory |
| DemoManagement.ActiveModes | src/penguin_tamer/demo_system/manager.py:15-51 | the null manager is never recording, playing or active; a manager is never recording and playing at once, and either makes it active |
| Playback.LoadConfig | src/penguin_tamer/demo_system/player.py:38-59 | the configuration is the parsed file when it parses to a truthy value, and the built-in default otherwise; it is always truthy |
| Playback.Iterate | src/penguin_tamer/demo_system/player.py:90 | iterating a string gives its characters, a list its items and a dict its keys; iterating `None`, a boolean or a number raises |
| Playback.PlayUserInput | src/penguin_tamer/demo_system/player.py:116-134 | the prompt comes first and, unless iterating the text raised, the closing newline last |
| Playback.PlayCommandOutput | src/penguin_tamer/demo_system/player.py:148-162 | the command header comes first; the output line is shown exactly when the output is truthy |
| Playback.PlayEvent | src/penguin_tamer/demo_system/player.py:104-114 | a non-dict event or configuration raises and shows nothing; an event of any other type than `input`, `output` or `command` shows nothing |
| Playback.EventResults | src/penguin_tamer/demo_system/player.py:90-94 | each event is played on its own with the same configuration |
| Playback.PlayFromStep | src/penguin_tamer/demo_system/player.py:89-98 | playback ends at the end of the events or when stopped; Ctrl+C shows the interruption notice and ends; an event that raises ends playback with its error; otherwise its output is followed by the rest |
| Playback.PlayInOrder | src/penguin_tamer/demo_system/player.py:90-94 | without stops or errors every event's output is shown, in order |
| Playback.StopHidesLater | src/penguin_tamer/demo_system/player.py:91-92 | events after the stop point are never played |
| Playback.InterruptEnds | src/penguin_tamer/demo_system/player.py:95-96 | Ctrl+C during event k shows events before it and then only the notice, and nothing is raised |
| Playback.DemoPlayer.constructor | src/penguin_tamer/demo_system/player.py:20-36 | a new player has no session, is not playing, and holds the configuration `LoadConfig` gives |
| Playback.DemoPlayer.LoadSession | src/penguin_tamer/demo_system/player.py:61-79 | loading succeeds iff the file parses to a dict, and then holds that session; otherwise one failure notice is printed and the old session stays |
| Playback.DemoPlayer.Stop | src/penguin_tamer/demo_system/player.py:100-102 | playback is marked as stopped |
| Playback.DemoPlayer.PlaySession | src/penguin_tamer/demo_system/player.py:81-98 | without a session only the notice is printed; otherwise the events are played as `PlayFrom` says and playing is off afterwards |
| Playback.DemoPlayer.PlayEvents | src/penguin_tamer/demo_system/player.py:89-98 | the loop prints and raises exactly what `PlayFrom` says |
| Patterns.FenceBody | formatter_text.py:18 | a match of `` ```.*?\n(.*?)``` `` has its group after the first newline and ends right after the closing fence |
| Patterns.FenceBodyShape | formatter_text.py:18 | the group starts right after the first newline, no newline precedes it after the opening fence, and the group is closed by the first following fence |
| Patterns.DelimitedShape | formatter_text.py:27 | a `###(.*?)###` match opens and closes with the marker, and the group holds no earlier closing marker |
| Patterns.CodeFenceShape | formatter_text.py:18 | every code-fence match has the shape the pattern describes |
| Patterns.BashFenceShape | app.py:17 | every `` ```bash `` match, the word matched case-insensitively, has the shape the pattern describes |
| Patterns.InlineCodeShape | formatter_text.py:35 | an inline-code match holds a non-empty group without backquotes between two backquotes |
| Patterns.BoldShape | formatter_text.py:43 | a bold match holds a group without newlines between `**` and the first following `**` |
| Patterns.PiecesCover | formatter_text.py:19 | `re.sub`'s left-to-right scan splits the text into pieces that concatenate back to the original text |
| Patterns.PiecesShape | formatter_text.py:19 | every matched piece of the scan has its pattern's shape |
| Patterns.RenderStep | formatter_text.py:13-19 | text outside a match is kept, and the n-th match is replaced by its replacement with counter n |
| Patterns.GroupsStep | formatter_text.py:13-15 | the groups are collected in match order |
| FormatterText.HighlightCodeBlocks | formatter_text.py:10-20 | the text is the code-fence substitution, and the blocks are the stripped groups, numbered from 1 on every call |
| FormatterText.FormatAnswer | formatter_text.py:46-52 | the four passes run in order: code blocks, explanations, inline code, bold; the blocks come from the first pass |
| FormatterText.CodeBlocksStripped | formatter_text.py:15 | one block per match, each with no surrounding whitespace |
| FormatterText.ReplacementClean | formatter_text.py:13-44 | each replacement starts with an escape sequence, ends with the reset sequence, and holds no new run of its own marker |
| FormatterText.RenderNoRun | formatter_text.py:19 | after a substitution, any run of the marker characters comes from unmatched text |
| FormatterText.MarkersConsumed | formatter_text.py:19-44 | when the unmatched text holds no marker run, the result holds none |
| FormatterText.NoFenceLeft | formatter_text.py:48 | after the code pass no triple backquote is left, unless unmatched text held one |
| MarkdownViewer.AnnotateBashBlocks | app.py:8-28 | the text is the bash-fence substitution, and the blocks are the groups without trailing newlines, numbered from 1 on every call |
| MarkdownViewer.BashBlocksClean | app.py:22-23 | one block per match; no block ends with a newline or holds a closing fence |
| MarkdownViewer.ReemitRoundTrip | app.py:22-25 | the re-emitted fence `` ```bash\n{code}\n``` `` matches the pattern again and gives back the same block |
| MarkdownViewer.BlocksSurviveReemission | app.py:22-25 | every collected block survives re-emission: annotating the annotated text finds the same code |
| MarkdownViewer.Classify | app.py:51-61 | a shown block number is between 1 and the number of blocks |
| MarkdownViewer.ClassifyShow | app.py:55-61 | an input shows a block iff it is all digits once stripped and its value is in range, and that value is the block shown |
| MarkdownViewer.ClassifyQuit | app.py:52-54 | an input quits iff, stripped and lower-cased, it is `0`, `q` or `exit` |
| MarkdownViewer.DialogueStop | app.py:52-65 | a quit word or the end of input prints the farewell and ends the loop |
| MarkdownViewer.DialogueGoesOn | app.py:55-63 | any other line prints its response and the loop asks again |
| MarkdownViewer.InputAfterEndIgnored | app.py:52-54 | input after a quit is never read |
| MarkdownViewer.DialogueEnds | app.py:50-65 | every dialogue starts with the prompt and ends with a farewell |
| MarkdownViewer.ShowsRequestedBlock | app.py:58-63 | a valid number prints that block's header and raw content, and the prompt comes back |
| MarkdownViewer.QuitEndsDialogue | app.py:52-54 | a quit word ends the dialogue right after the first prompt |
| MarkdownViewer.SelectionLoop | app.py:49-65 | the loop prints exactly what `Dialogue` says |
| MarkdownViewer.SelectionPass | app.py:51-63 | one pass of the loop prints one reply's response and either stops or leaves the rest of the dialogue to the next pass |
| MarkdownViewer.RunViewer | app.py:30-47 | a missing file prints the error and exits with 1; otherwise the annotated Markdown is rendered, followed by the no-blocks notice or the dialogue |
| CommandExecution.CollectLines | src/penguin_tamer/command_executor.py:49-70 | the read loop keeps exactly the lines `Kept` describes |
| CommandExecution.KeptLines | src/penguin_tamer/command_executor.py:51-57 | a kept line is non-empty and stripped; a value is kept iff it is the non-empty stripped form of some output line; no more lines are kept than were read |
| CommandExecution.KeptMember | src/penguin_tamer/command_executor.py:52-57 | a value is kept iff it is non-empty and some output line strips to it |
| CommandExecution.LinuxExecute | src/penguin_tamer/command_executor.py:33-115 | the Linux executor echoes every kept line, and its result is the process outcome with an empty stderr, because stderr is never read |
| CommandExecution.ReplacePauseDisables | src/penguin_tamer/command_executor.py:144 | after `replace('pause', 'rem pause')` every `pause` in the script is preceded by `rem ` |
| CommandExecution.BatchShape | src/penguin_tamer/command_executor.py:142-144 | the batch script starts with `@echo off` on its own line, has every pause disabled, and is the code itself behind that line when it held neither `@echo off` nor `pause` |
| CommandExecution.WindowsExecute | src/penguin_tamer/command_executor.py:140-216 | the script written is the prepared batch text, the temporary file is gone afterwards, and the result and echoed lines are the process outcome |
| CommandExecution.ShowsStderrIff | src/penguin_tamer/command_executor.py:261-262 | the error summary is shown iff stderr is non-empty and no line of it contains `Error:` |
| CommandExecution.SummaryShape | src/penguin_tamer/command_executor.py:256-262 | the report shows the exit code, plus the error summary exactly under that rule; the Linux executor never shows it |
| CommandExecution.ExecuteAndHandleResult | src/penguin_tamer/command_executor.py:238-269 | the executor is chosen from the lower-cased system name; the report, including the interruption and error notices, is `Report`'s, and no temporary file is left |
| CommandExecution.RunCodeBlock | src/penguin_tamer/command_executor.py:272-293 | an index outside 1..n prints only the missing-block notice and runs nothing; otherwise the header, the code and the report are printed and that block is run |
| Cli.SystemContentShape | src/penguin_tamer/cli.py:103-123 | the system prompt is the user content, the JSON rule when JSON mode is on, and the persona text, joined by spaces and stripped |
| Cli.SystemContentDefault | src/penguin_tamer/cli.py:103-123 | with no user content and JSON mode off the system prompt is exactly the persona text |
| Cli.CallFailure | src/penguin_tamer/cli.py:131-133 | a query call fails before reaching the client unless the call matches the client: as written, `ask` does not exist and `ask_stream` takes no `educational_content` (also lines 160-163, 209-212) |
| Cli.SingleQuery | src/penguin_tamer/cli.py:127-137 | only Ctrl+C escapes; otherwise at most one thing is shown, the Markdown reply or the connection error; as written the buffered mode always shows the missing-`ask` error |
| Cli.DispatchOrder | src/penguin_tamer/cli.py:175-212 | an empty line is skipped; an exit word in any case leaves; a line starting with `.` runs the stripped rest as a command, or is skipped when that is empty; a digit string selects an available block or reports it missing; any other line is sent to the model unchanged |
| Cli.ExitWordsAnyCase | src/penguin_tamer/cli.py:181-182 | `Q`, `Exit` and `QUIT` leave the dialog |
| Cli.AppendQueryRemembers | src/penguin_tamer/cli.py:165-215 | after a query, the instruction is cleared and the code blocks replaced exactly when the query was answered |
| Cli.StepRemembers | src/penguin_tamer/cli.py:172-221 | every turn of the loop keeps the rule that the instruction and the blocks reflect the last answered query |
| Cli.StepKeepsMemory | src/penguin_tamer/cli.py:175-205 | a turn that is not a query changes neither the queries, the instruction nor the blocks |
| Cli.RunRemembers | src/penguin_tamer/cli.py:172-221 | the rule holds for the whole loop; as written no query is ever recorded |
| Cli.DialogOneShot | src/penguin_tamer/cli.py:150-221 | with calls the client accepts, each query carries the instruction iff no earlier query was answered, and the blocks offered are those of the last answer |
| Cli.DialogAsWritten | src/penguin_tamer/cli.py:160-215 | as written, no query reaches the client, the instruction is never cleared and no block is ever remembered |
| Cli.AskAsWritten | src/penguin_tamer/cli.py:208-221 | as written, a line meant for the model only shows the error of the failed call |
| Cli.NumberTurn | src/penguin_tamer/cli.py:197-205 | a number never reaches the model: it runs an available block or is reported missing |
| Cli.DialogRaises | src/penguin_tamer/cli.py:157-221 | only Ctrl+C escapes the dialog, and only from the initial prompt's call |
| Cli.Session.constructor | src/penguin_tamer/cli.py:101 | a session starts with the one-message instruction |
| Cli.Session.RunDialogMode | src/penguin_tamer/cli.py:140-221 | the loop prints, records and clears the instruction exactly as `Dialog` says |
| Cli.Session.TakeTurn | src/penguin_tamer/cli.py:173-221 | one turn of the loop changes the state exactly as `Step` says |
| Cli.RouteOf | src/penguin_tamer/cli.py:243-267 | `--settings` opens the menu; otherwise the joined, stripped prompt goes to the single query when it is non-empty and there is no `--dialog`, and to the dialog otherwise |
| Cli.MainAsWritten | src/penguin_tamer/cli.py:229-272 | as written, every run but the settings menu exits with 1, since the client rejects `system_content` |
| Cli.MainExitCodes | src/penguin_tamer/cli.py:240-276 | with the client built as intended, the menu exits 0 unless it raised, and any other run exits 130 after Ctrl+C escaped it and 0 otherwise |
| Prompts.SystemPromptContent | src/penguin_tamer/prompts.py:13-24 | without user content the prompt is exactly the persona text; otherwise it is the user content and the persona joined by a space, with leading whitespace stripped |
| Prompts.SystemPromptEndsWithPersona | src/penguin_tamer/prompts.py:6-26 | the message is a `system` message whose content always ends with the persona text |
| Prompts.EducationalAsksRestart | src/penguin_tamer/prompts.py:29-48 | the instruction is a `user` message that holds every sentence of the numbering rule, including the request to restart numbering at 1 in each reply |
| Prompts.FixedHasPhrase | src/penguin_tamer/prompts.py:15-46 | a fixed text holds each of its sentences |
| Debug.SettingsOf | src/penguin_tamer/debug.py:68-86 | without a client every setting is `None`; otherwise the client's settings are used |
| Debug.SentKeys | src/penguin_tamer/debug.py:106-126 | a key is listed iff it is one of the request keys and it is sent |
| Debug.RequestKeysDistinct | src/penguin_tamer/debug.py:106-126 | no request key is written twice |
| Debug.ApiRequestKeys | src/penguin_tamer/debug.py:106-126 | the dictionary's keys are, in insertion order, `model`, `messages` and `stream` and each optional key under its condition; each key holds its setting |
| Debug.Titles | src/penguin_tamer/debug.py:89-94 | the `response` phase gets the response titles and any other phase the request titles |
| Debug.PanelStyle | src/penguin_tamer/debug.py:140-141 | the border is yellow iff the phase is `request` and green otherwise, and the title colour is its bold form |
| Debug.HeaderTitle | src/penguin_tamer/debug.py:95-99 | the title is the main title, followed by `\| Model: m` exactly when a non-empty model is set |
| Debug.Repeat | src/penguin_tamer/debug.py:101-103 | the rule is n copies of `=` |
| Debug.PanelsShape | src/penguin_tamer/debug.py:169-206 | each message gets its own panel, numbered from 1, followed by an empty line, in order |
| Debug.PanelAt | src/penguin_tamer/debug.py:169-206 | the panel for message i is at position 2i and is followed by an empty line |
| Debug.DebugPrintMessages | src/penguin_tamer/debug.py:39-214 | the output is the header and request panel, the message panels, and the totals |
| Debug.PanelsOf | src/penguin_tamer/debug.py:169-206 | the loop prints exactly the panels `Panels` describes |
| Debug.CountChars | src/penguin_tamer/debug.py:209 | the total is the sum of all content lengths |
| ConfigMenu.Click | src/penguin_tamer/menu/config_menu.py:62-79 | a double-click is posted iff the same row, at least 0, is clicked within 0.5 s of the recorded click, and the state is then reset |
| ConfigMenu.FirstClickPostsNothing | src/penguin_tamer/menu/config_menu.py:76-79 | a first click never posts a double-click |
| ConfigMenu.SecondClick | src/penguin_tamer/menu/config_menu.py:68-72 | a second click on the same row posts it iff it comes within the threshold |
| ConfigMenu.NoTripleClick | src/penguin_tamer/menu/config_menu.py:73-75 | the click after a double-click never posts another one |
| ConfigMenu.DoubleClickDataTable.constructor | src/penguin_tamer/menu/config_menu.py:56-60 | a new table has no recorded click |
| ConfigMenu.DoubleClickDataTable.OnClick | src/penguin_tamer/menu/config_menu.py:62-79 | the click updates the recorded time and row, and posts, exactly as `Click` says |
| ConfigMenu.PerRow | src/penguin_tamer/menu/config_menu.py:100-103 | `min(max(1, width // 19), n)`: no buttons give 0; otherwise between 1 and n, the most that fit in the width, or 1 when none fits |
| ConfigMenu.RowsFlatten | src/penguin_tamer/menu/config_menu.py:123-138 | the rows hold every button once, in the original order |
| ConfigMenu.RowsShape | src/penguin_tamer/menu/config_menu.py:131-138 | every row holds between 1 and the per-row count of buttons, and only the last may be shorter |
| ConfigMenu.ResponsiveButtonRow.constructor | src/penguin_tamer/menu/config_menu.py:85-88 | a new row starts with a layout of 4 and all buttons in one row |
| ConfigMenu.ResponsiveButtonRow.OnResize | src/penguin_tamer/menu/config_menu.py:96-108 | the layout becomes `PerRow` of the width, and the rows are rebuilt exactly when it changed |
| ConfigMenu.ResponsiveButtonRow.RebuildLayout | src/penguin_tamer/menu/config_menu.py:110-138 | the rows become the buttons split into consecutive chunks of the layout size |
| ConfigMenu.StripTagsUntagged | src/penguin_tamer/menu/config_menu.py:365 | after deleting every `[...]` tag, no tag is left |
| ConfigMenu.StripTagsPlain | src/penguin_tamer/menu/config_menu.py:365 | text without `[` is unchanged |
| ConfigMenu.RichToMarkdown | src/penguin_tamer/menu/config_menu.py:356-366 | the result holds no `[...]` tag |
| ConfigMenu.RichToMarkdownPlain | src/penguin_tamer/menu/config_menu.py:356-366 | text without markup is unchanged |
| ConfigMenu.TabId | src/penguin_tamer/menu/config_menu.py:1516-1526 | an id is found iff the tab has one; it is a suffix of the raw id, and ids without the `--content-` prefix are kept unchanged |
| ConfigMenu.TabIdOfPane | src/penguin_tamer/menu/config_menu.py:1518-1524 | `--content-tab-X` becomes `X` when X starts with `tab-`, and `tab-X` otherwise |
| ConfigMenu.MaxTokensInput | src/penguin_tamer/menu/config_menu.py:1802-1819 | the value is cleared iff the stripped, lower-cased input is `null`, `none` or empty; a number is accepted only when positive |
| ConfigMenu.SeedInput | src/penguin_tamer/menu/config_menu.py:1869-1883 | the value is cleared under the same rule; any other input is accepted iff it parses as an integer |
| ConfigMenu.RefreshRateInput | src/penguin_tamer/menu/config_menu.py:1927-1936 | the input is accepted only when it parses as an integer in 1..60 |
| ConfigMenu.MaxTokensOfNumber | src/penguin_tamer/menu/config_menu.py:1809-1817 | a written number is accepted as max tokens iff it is positive |
| ConfigMenu.SeedOfNumber | src/penguin_tamer/menu/config_menu.py:1876-1878 | every written integer is accepted as a seed |
| ConfigMenu.RefreshRateOfNumber | src/penguin_tamer/menu/config_menu.py:1928-1934 | a written number is accepted as refresh rate iff it is in 1..60 |
| ConfigMenu.FirstEmpty | src/penguin_tamer/menu/config_menu.py:284-295 | the first empty field is reported, and every field before it is non-empty |
| ConfigMenu.LlmFormError | src/penguin_tamer/menu/config_menu.py:284-295 | the form is refused iff the name, model or URL is empty, with the message for the first empty one |
| ConfigMenu.LlmDialogPress | src/penguin_tamer/menu/config_menu.py:271-303 | any other button dismisses with no result; Save stays open iff the stripped form is refused, and otherwise dismisses with it |
| ConfigMenu.EditedLlm | src/penguin_tamer/menu/config_menu.py:1735-1741 | an edit takes the new model and URL, and keeps the stored key when the new one is blank |
| ConfigMenu.AfterDelete | src/penguin_tamer/menu/config_menu.py:1767-1773 | deleting removes the chosen LLM only when it is not current and was confirmed; nothing else changes |
| ConfigMenu.SelectedRow | src/penguin_tamer/menu/config_menu.py:1725-1729 | a negative cursor selects nothing; a cursor inside the table selects that row's name |
| ConfigMenu.ConfigMenuApp.SetMaxTokens | src/penguin_tamer/menu/config_menu.py:1799-1819 | an accepted value is stored; a rejected one leaves the settings unchanged with an error notice |
| ConfigMenu.ConfigMenuApp.SetSeed | src/penguin_tamer/menu/config_menu.py:1866-1883 | an accepted seed is stored; a rejected one leaves the settings unchanged with an error notice |
| ConfigMenu.ConfigMenuApp.SetRefreshRate | src/penguin_tamer/menu/config_menu.py:1924-1936 | an accepted rate is stored; a rejected one leaves the settings unchanged with an error notice |
| ConfigMenu.ConfigMenuApp.AddLlm | src/penguin_tamer/menu/config_menu.py:1703-1720 | a saved form adds or overwrites the LLM of that name and reports it; a refusal from the configuration escapes as ValueError with nothing changed or shown; a cancelled dialog changes nothing |
| ConfigMenu.ConfigMenuApp.EditLlm | src/penguin_tamer/menu/config_menu.py:1722-1756 | no selection warns and changes nothing; a saved form replaces the selected LLM as `EditedLlm` says |
| ConfigMenu.ConfigMenuApp.DeleteLlm | src/penguin_tamer/menu/config_menu.py:1758-1783 | no selection warns; the current LLM is refused with an error; otherwise the settings become `AfterDelete` |
| TextualConfigMenu.Truncate | src/penguin_tamer/textual_config_menu.py:138 | `s[:n]` is a prefix of at most n characters, and the whole string when it is short enough |
| TextualConfigMenu.RenderContentPreview | src/penguin_tamer/textual_config_menu.py:133-140 | the preview shows the header, the first three lines of the content (`(empty)` when blank) each cut to 60 characters, and a `...` line iff there are more than three lines |
| TextualConfigMenu.LlmTable | src/penguin_tamer/textual_config_menu.py:178-191 | one row per LLM in order; `✓` marks exactly the current one; the model is cut to 30 characters and the URL to 40, each a prefix of the stored value |
| TextualConfigMenu.OptionalIntInput | src/penguin_tamer/textual_config_menu.py:429-464 | blank, `null` or `none` clears the value; anything else is `int(value)` of the stripped input, with no positivity check, or a ValueError |
| TextualConfigMenu.OptionalIntOfNumber | src/penguin_tamer/textual_config_menu.py:434 | every written integer is accepted as it is |
| TextualConfigMenu.MenusDisagreeOnNonPositive | src/penguin_tamer/textual_config_menu.py:434 | this menu and the other settings menu accept the same written integer as max tokens iff it is positive |
| TextualConfigMenu.RefreshRateResult | src/penguin_tamer/textual_config_menu.py:601-606 | the rate is accepted exactly when it is an integer in 1..60 |
| TextualConfigMenu.ThemeOfButton | src/penguin_tamer/textual_config_menu.py:589-592 | a theme button `theme-T-btn` sets theme T when T holds no `-` |
| TextualConfigMenu.PanelOf | src/penguin_tamer/textual_config_menu.py:800-816 | exactly the four tab ids show a panel |
| TextualConfigMenu.PanelOfInjective | src/penguin_tamer/textual_config_menu.py:800-816 | different tab ids never show the same panel |
| TextualConfigMenu.TextualMenuApp.constructor | src/penguin_tamer/textual_config_menu.py:770-798 | the menu starts with only the LLM panel shown |
| TextualConfigMenu.TextualMenuApp.OnTabActivated | src/penguin_tamer/textual_config_menu.py:800-816 | after a tab activation exactly the matching panel is shown, and an unknown id hides all four |
| TextualConfigMenu.TextualMenuApp.SetMaxTokens | src/penguin_tamer/textual_config_menu.py:429-469 | an accepted value is stored; a rejected one leaves the settings unchanged with an error notice |
| TextualConfigMenu.TextualMenuApp.SetSeed | src/penguin_tamer/textual_config_menu.py:458-469 | an accepted seed is stored; a rejected one leaves the settings unchanged with an error notice |
| TextualConfigMenu.TextualMenuApp.OnSystemButton | src/penguin_tamer/textual_config_menu.py:576-611 | the language buttons set the language, theme buttons the parsed theme, the refresh button an accepted rate or an error notice; any other button changes nothing |
| TextualConfigMenu.TextualMenuApp.OnDebugSwitch | src/penguin_tamer/textual_config_menu.py:613-618 | the debug flag takes the switch's value and the notice says which |
| TextualConfigMenu.TextualMenuApp.SetCurrentLlm | src/penguin_tamer/textual_config_menu.py:289-302 | a selected row becomes the current LLM; otherwise nothing changes |
| TextualConfigMenu.TextualMenuApp.AddLlm | src/penguin_tamer/textual_config_menu.py:204-245 | an LLM is added only when name, model and URL were all given non-empty, and is reported added; the key defaults to empty; a refusal from the configuration is reported as an error and adds nothing |
| TextualConfigMenu.TextualMenuApp.EditSelectedLlm | src/penguin_tamer/textual_config_menu.py:247-287 | each field given replaces the stored one and each cancelled field keeps it; an unknown name changes nothing |
| TextualConfigMenu.TextualMenuApp.PressDelete | src/penguin_tamer/textual_config_menu.py:193-202 | as written the Delete button changes nothing and shows nothing, since the coroutine it calls is never awaited; as intended it does what `delete_selected_llm` does |
| TextualConfigMenu.DeletePressAsWrittenKeeps | src/penguin_tamer/textual_config_menu.py:193-202 | a confirmed deletion of an entry that is not the current LLM removes nothing as written, while the intended reading removes exactly that entry |
| TextualConfigMenu.TextualMenuApp.DeleteSelectedLlm | src/penguin_tamer/textual_config_menu.py:304-328 | the current LLM is refused with an error; otherwise the settings become `AfterDelete` |
| ProviderManagement.Put | src/penguin_tamer/menu/provider_manager.py:97-137 | item assignment stores the value under the name; a new name is added at the end of the insertion order, and an existing one keeps its place |
| ProviderManagement.Remove | src/penguin_tamer/menu/provider_manager.py:170-171 | `del` removes exactly that name from the entries and from the insertion order |
| ProviderManagement.TableRows | src/penguin_tamer/menu/provider_manager.py:63-69 | one row per provider, in insertion order, showing its name and its masked key |
| ProviderManagement.TableCoversProviders | src/penguin_tamer/menu/provider_manager.py:61-69 | the table lists every provider exactly once |
| ProviderManagement.EditedProvider | src/penguin_tamer/menu/provider_manager.py:130-137 | an edit takes the new list URL and API URL, has no filter, and keeps the stored key when the new one is blank |
| ProviderManagement.Edited | src/penguin_tamer/menu/provider_manager.py:127-154 | as written the edit dialog cannot be built (`model_filter` is not accepted) and raises; as intended a saved form stores `EditedProvider` and a cancelled one changes nothing |
| ProviderManagement.EditKeepsNames | src/penguin_tamer/menu/provider_manager.py:127-141 | an intended edit keeps the set of names and their order, changes no other provider, and keeps the key when none is given |
| ProviderManagement.EditAsWrittenChangesNothing | src/penguin_tamer/menu/provider_manager.py:143-154 | as written an edit that would change the list URL raises instead, while the intended edit stores it |
| ProviderManagement.RemoveOthersUntouched | src/penguin_tamer/menu/provider_manager.py:167-175 | deleting a provider removes only it, and the order loses exactly one name |
| ProviderManagement.ProviderManagerScreen.constructor | src/penguin_tamer/menu/provider_manager.py:19-20 | a new screen shows no rows, with the cursor at 0 |
| ProviderManagement.RestoredCursor | src/penguin_tamer/menu/provider_manager.py:53-76 | after a refill the cursor is on a row of a non-empty table, and stays on its old row when that row still exists |
| ProviderManagement.ProviderManagerScreen.UpdateProviderTable | src/penguin_tamer/menu/provider_manager.py:49-76 | the rows become `TableRows`, and the cursor keeps its row clamped to the last one (0 when the old table was empty) |
| ProviderManagement.ProviderManagerScreen.AddProvider | src/penguin_tamer/menu/provider_manager.py:91-111 | a saved form stores the provider under its name, overwriting any entry of that name, refreshes the table and its cursor as `update_provider_table` does, and reports the provider added; a cancelled dialog changes nothing, table and cursor included |
| ProviderManagement.ProviderManagerScreen.EditProvider | src/penguin_tamer/menu/provider_manager.py:113-154 | no selection warns and changes nothing; as written a selection raises the keyword error; as intended the providers become `Edited`, and a saved form refreshes the table and cursor and reports the provider updated; every path without a saved form leaves the table and cursor as they were |
| ProviderManagement.ProviderManagerScreen.DeleteProvider | src/penguin_tamer/menu/provider_manager.py:156-183 | no selection warns and changes nothing; a confirmed selection of a known name removes it, refreshes the table and cursor and reports the provider deleted; otherwise providers, table and cursor stay as they were |
| Dialogs.ModelDialogPress | src/penguin_tamer/menu/dialogs.py:181-203 | Save dismisses with the choice iff provider and model are both set, and otherwise stays with the error for the first missing one; any other button dismisses with no result |
| Dialogs.ModelFetch | src/penguin_tamer/menu/dialogs.py:98-110 | models are fetched iff the provider is known and has a list URL, using that URL and its key |
| Dialogs.ModelOptions | src/penguin_tamer/menu/dialogs.py:159 | one option per model, in order |
| Dialogs.LlmEditDialog.constructor | src/penguin_tamer/menu/dialogs.py:19-32 | a new dialog has no models, is not loading, and its model list is disabled with the placeholder |
| Dialogs.LlmEditDialog.FetchModels | src/penguin_tamer/menu/dialogs.py:113-128 | the fetched models are stored, loading ends, and the select is updated as `UpdateModelSelect` says |
| Dialogs.LlmEditDialog.UpdateModelSelect | src/penguin_tamer/menu/dialogs.py:141-179 | no models disables the list with the placeholder and warns; otherwise one option per model is enabled and the default model is selected iff it is among them |
| Dialogs.ProviderFormError | src/penguin_tamer/menu/dialogs.py:366-378 | the form is refused iff the name, list URL or API URL is empty, with the message for the first empty one |
| Dialogs.ProviderDialogPress | src/penguin_tamer/menu/dialogs.py:354-386 | any other button dismisses with no result; Save stays open iff the stripped form is refused, and otherwise dismisses with it |
| Dialogs.ProviderKeyOptional | src/penguin_tamer/menu/dialogs.py:364-378 | the key never decides whether the form is accepted |
| Dialogs.ConfirmDialog.constructor | src/penguin_tamer/menu/dialogs.py:209-213 | a new dialog answers no |
| Dialogs.ConfirmDialog.OnButtonPressed | src/penguin_tamer/menu/dialogs.py:227-230 | the answer is yes iff the yes button was pressed, or the answer already was yes |
| AiScripts.PlainTemplate | ai.py:15-37 | a template without placeholders is sent unchanged |
| AiScripts.ReleaseFilled | ai.py:21-35 | `$(lsb_release -ds)` becomes the stripped output of the command, or `Ubuntu unknown` when it fails |
| AiScripts.ShellFilled | ai.py:31-36 | `$SHELL` becomes the shell, or `bash` when it is unset |
| AiScripts.HomeFilled | ai.py:32-37 | `$HOME` becomes the home directory, or `/home/user` when it is unset; the two earlier replacements leave it alone |
| AiScripts.FillOne | ai.py:35-37 | one replacement fills the placeholder in place and keeps the text around it |
| Text.ReplaceSkip | ai.py:35-37 | `str.replace` copies a prefix that cannot start the pattern unchanged |
| AiScripts.RemoveFirst | ai.py:56 | `list.remove` drops one element when the value is present, and changes nothing otherwise |
| AiScripts.RemoveFirstMultiset | ai.py:56 | `list.remove` drops exactly one occurrence of the value |
| AiScripts.RemoveFirstAt | ai.py:56 | the occurrence dropped is the first one |
| AiScripts.ParseArgs | ai.py:47-59 | the usage text is shown iff there is no argument, exiting with 0, or with 1 in `ai-bash/ai.py`; run mode is on iff `-run` is among the arguments |
| AiScripts.RunFlagTakenOnce | ai.py:52-59 | only the first `-run` is taken out, and the remaining words, in order, joined by spaces, are the prompt |
| AiScripts.PayloadMessages | ai.py:62-72 | the payload holds a system message and the user's prompt; the system message is the filled-in template followed by the extra context lines, or in `source/ai.py` the bare template |
| AiScripts.SubstitutingScriptsAgree | ai-bash/ai.py:40-49 | `ai.py` and `ai-bash/ai.py` send the same messages |
| AiScripts.PickOf | ai.py:95-110 | a non-digit reply asks again; 0 leaves; a number in range runs that block; any other number reports a missing block |
| AiScripts.PickOfNumber | ai.py:99-110 | a written number n leaves when 0, runs block n when it is in range, and reports a missing block otherwise |
| AiScripts.SelectionRunsOnlyBlocks | ai.py:103-108 | the loop only ever runs code blocks of the answer |
| AiScripts.SelectionEnds | ai.py:93-124 | the loop ends on 0 or Ctrl+C; the only thing that escapes it is the end-of-input error, which the outer handler prints |
| AiScripts.SelectionStep | ai.py:95-110 | any reply but 0 prints its answer and the loop asks again |
| AiScripts.RunStep | ai.py:103-108 | a number in range prints the block header and runs that block, and the loop goes on |
| AiScripts.RunThenLeave | ai.py:99-108 | a number in range followed by 0 runs one block and then says goodbye |
| AiScripts.ZeroLeaves | ai.py:100-102 | 0 leaves the loop |
| AiScripts.SelectionLeave | ai.py:100-102 | leaving prints the goodbye, and no later reply is read |
| AiScripts.SelectionLoop | ai.py:93-113 | the loop prints, runs and raises exactly what `Selection` says |
| AiScripts.ShowAnswer | ai.py:88-89 | `ai.py` and `ai-bash/ai.py` print the formatted answer; `source/ai.py` renders the raw answer as Markdown last |
| AiScripts.NothingRunsWithoutFlag | ai.py:92 | without `-run` no code is ever run |
| AiScripts.OnlyAnswerBlocksRun | ai.py:88-108 | only code blocks of the answer are ever run |
| AiScripts.AnsweredOutput | ai.py:84-113 | an answer is shown, and the selection loop follows exactly when run mode is on and the answer has code blocks |
| AiScripts.ShownRunsNothing | ai.py:88-89 | showing the answer runs nothing |
| AiScripts.LoopRunsOnlyBlocks | ai.py:93-113 | the selection loop runs only the blocks it was given |
| AiScripts.RunScript | ai.py:39-124 | without arguments only the usage is printed, with the script's exit code; otherwise the payload is sent and the output is `AfterResponse` |
| AiScripts.Respond | ai.py:77-124 | the reaction to the response is `AfterResponse`: the answer and loop, the unexpected-format message, or the error message |
| AiScripts.RespondToAnswer | ai.py:84-113 | the answer is shown and the selection loop runs over its code blocks when run mode is on and there are some |
| AiScripts.RunLoop | ai.py:93-113 | the loop's output is `LoopOutput` of `Selection` |
| AiScripts.ShowFormatted | source/ai.py:60-72 | the shown output is `ShowAnswer`, and the blocks are the formatter's code blocks |
| AiebashErrors.FirstMatchIsFirst | src/aiebash/error_messages.py:24-41 | an `isinstance` chain yields the row of the first class the error belongs to |
| AiebashErrors.FirstMatchNone | src/aiebash/error_messages.py:40-41 | an error of none of the tested classes falls through to the final `else` |
| AiebashErrors.ClassifyFollowsOrder | src/aiebash/error_messages.py:24-41 | the classification is the chain 429, 400, 401, connection, 403, 404, API error, client error, in that order, and only non-SDK errors are unknown |
| AiebashErrors.FirstIndex | src/aiebash/error_messages.py:24-39 | an SDK error's kind is that of the first row in the chain it matches |
| AiebashErrors.Dim | src/aiebash/error_messages.py:25-41 | every message is wrapped in `[dim]` … `[/dim]` |
| AiebashErrors.ConnectionErrorText | src/aiebash/error_messages.py:22-41 | every message is dimmed; the function raises exactly for a 400 error whose body is missing or has no `message` |
| AiebashErrors.MessageFor | src/aiebash/error_messages.py:24-41 | the message for each kind is dimmed, and only the 400 message can fail, when the body has no `message` |
| AiebashErrors.TableEntries | src/aiebash/error_messages.py:9-18 | the lazily built table maps each of the eight names to its SDK class |
| AiebashErrors.ErrorMessages.GetOpenaiExceptions | src/aiebash/error_messages.py:4-19 | the table is built on the first call and then cached unchanged |
| AiebashErrors.ErrorMessages.ConnectionError | src/aiebash/error_messages.py:22-41 | the result is `ConnectionErrorText`, and the table is cached afterwards |
| AiebashErrors.KindFromTable | src/aiebash/error_messages.py:24-39 | looking the classes up in the table gives the same kind as `Classify` |
| AiebashClient.NoticeFollowsOrder | src/aiebash/llm_client.py:118-131 | `_handle_api_error` tests rate limit, authentication, API error and client error in that order, and only non-SDK errors are unknown |
| AiebashClient.TranscriptGrowth | src/aiebash/llm_client.py:35-116 | after `ask` and `ask_stream` the transcript is the old one plus the user message, plus the reply when one came |
| AiebashClient.HandledGrows | src/aiebash/llm_client.py:68-116 | a caught error keeps the user message in the transcript |
| AiebashClient.StreamReplyIsFragments | src/aiebash/llm_client.py:99-110 | a stream that does not fail answers with the non-empty content fragments joined in order |
| AiebashClient.OpenRouterClient.constructor | src/aiebash/llm_client.py:24-33 | the client keeps key, URL, model and temperature, and the transcript starts with the system message |
| AiebashClient.OpenRouterClient.Ask | src/aiebash/llm_client.py:35-72 | the reply, printed notice and new transcript are those of `AskTurn` |
| AiebashClient.OpenRouterClient.AskStream | src/aiebash/llm_client.py:74-116 | the reply, printed notice and new transcript are those of `StreamTurn` |
| AiebashChat.CaughtIsSdk | src/aiebash/llm_chat.py:40-45 | the three `except` clauses catch exactly the SDK errors |
| AiebashChat.StreamOutcome | src/aiebash/llm_chat.py:49-86 | a stream without failure answers with the joined fragments and records them; on failure only the user message is kept, a non-SDK error escapes, and a printed notice comes with the fixed error reply |
| AiebashChat.AskOutcome | src/aiebash/llm_chat.py:17-47 | a reply is returned and recorded; on an error only the user message is kept, and exactly the non-SDK errors escape |
| AiebashChat.OpenRouterChat.constructor | src/aiebash/llm_chat.py:7-15 | the chat keeps key, URL, model and temperature, and the transcript starts with the system message |
| AiebashChat.OpenRouterChat.Ask | src/aiebash/llm_chat.py:17-47 | the reply, printed notice and new transcript are those of `AskTurn` |
| AiebashChat.OpenRouterChat.AskStream | src/aiebash/llm_chat.py:49-86 | the reply, printed notice and new transcript are those of `StreamTurn` |
| AiebashChatLoop.Render | src/aiebash/chat.py:11-26 | the answer's rendering prints 3 lines, or 6 in debug mode, and ends with the annotated Markdown |
| AiebashChatLoop.KindOfMeaning | src/aiebash/chat.py:52-63 | a stripped line is an exit word in any case, or else a number when it is all digits, or else a question |
| AiebashChatLoop.ChatLoop | src/aiebash/chat.py:28-76 | the loop's final state and how it ends are those of `Chat` |
| AiebashChatLoop.ExtendsTrans | src/aiebash/chat.py:29-71 | a transcript that only grows keeps growing across steps |
| AiebashChatLoop.ExtendsAppend | src/aiebash/chat.py:37-71 | appending user and assistant entries extends the transcript |
| AiebashChatLoop.LineExtends | src/aiebash/chat.py:52-72 | one line of input never removes or rewrites an earlier entry |
| AiebashChatLoop.StepExtends | src/aiebash/chat.py:44-76 | one pass of the loop never removes or rewrites an earlier entry |
| AiebashChatLoop.RunExtends | src/aiebash/chat.py:43-76 | the whole loop never removes or rewrites an earlier entry |
| AiebashChatLoop.InitialExtends | src/aiebash/chat.py:29-40 | the first question only adds to the opening transcript |
| AiebashChatLoop.SystemEntryIffContext | src/aiebash/chat.py:29-31 | the transcript starts with a system entry iff the context is non-empty |
| AiebashChatLoop.FirstPromptAnswered | src/aiebash/chat.py:36-40 | a first prompt adds the user and assistant entries, and its code blocks become the selectable blocks |
| AiebashChatLoop.ExitWordLeaves | src/aiebash/chat.py:53-54 | an exit word ends the loop without sending anything |
| AiebashChatLoop.NumberNeverSent | src/aiebash/chat.py:57-63 | a number is never sent: it runs the block when in range and otherwise reports that there is no such block |
| AiebashChatLoop.AskLine | src/aiebash/chat.py:66-72 | a question is sent with the transcript so far; a failed call reuses the previous answer, and without one the loop ends on an unbound `answer` |
| AiebashChatLoop.OtherLineSent | src/aiebash/chat.py:47-72 | any other line, after the hint, is handled as a question |
| AiebashChatLoop.InterruptedSend | src/aiebash/chat.py:67-76 | Ctrl-C during the call keeps the user entry and ends the loop |
| AiebashMain.LlmFieldAsWritten | src/aiebash/__main__.py:36-38 | as written, the lookup goes to `supported_LLMs["supported_LLMs"]`, so without an LLM of that name the model, URL and key read as "" |
| AiebashMain.LlmFieldIntended | src/aiebash/__main__.py:36-38 | read from the current LLM's entry, each field is its value there, or "" when it is absent |
| AiebashMain.Unpacked | src/aiebash/__main__.py:92-126 | as written, `reply, code_blocks = ask(...)` unpacks a string, which succeeds only for a reply of length 2; the intended pair is the reply and its code blocks |
| AiebashMain.ExitWordsAnyCase | src/aiebash/__main__.py:106 | the exit words are matched in any case |
| AiebashMain.LowersToExit | src/aiebash/__main__.py:106 | any input whose lower-case form is `exit`, `quit`, `q` or `выход` is an exit word |
| AiebashMain.NotExitWords | src/aiebash/__main__.py:106 | the empty input and other words are not exit words |
| AiebashMain.KindOfMeaning | src/aiebash/__main__.py:104-122 | exit words are tested before the empty-input check, then digits, and everything else is a question |
| AiebashMain.NumberSendsNothing | src/aiebash/__main__.py:114-122 | a number sends nothing and keeps the blocks: it runs the block when in range and otherwise reports it missing |
| AiebashMain.AskedIntended | src/aiebash/__main__.py:125-129 | with the intended unpacking, a question records the exchange, shows the reply and replaces the blocks |
| AiebashMain.AskedAsWritten | src/aiebash/__main__.py:125-136 | as written, a reply whose length is not 2 is recorded by the client, but the unpacking raises, the blocks stay and the error is printed |
| AiebashMain.QuestionStep | src/aiebash/__main__.py:124-136 | a question prints the `AI:` prefix and then the answer; Ctrl-C ends the loop, and any other error is printed and the loop goes on |
| AiebashMain.QuestionReplacesBlocks | src/aiebash/__main__.py:125-129 | with the intended unpacking, a question replaces the selectable blocks with those of the reply |
| AiebashMain.QuestionAsWrittenKeepsBlocks | src/aiebash/__main__.py:125-136 | as written, a question whose reply is not 2 characters long keeps the old blocks and prints the unpacking error |
| AiebashMain.DialogEscapes | src/aiebash/__main__.py:77-136 | the only thing that escapes the dialog is Ctrl-C during the initial prompt |
| AiebashMain.SingleQuery | src/aiebash/__main__.py:65-74 | a single query lets only Ctrl-C escape; every other error is printed |
| AiebashMain.MainExitCodes | src/aiebash/__main__.py:137-182 | `main` returns 0, 1 or 130: as written the settings mode returns 1, because its import fails; as intended it returns 0, or 130 on Ctrl-C and 1 on another error; without dialog mode and a prompt it prints the help and returns 1; 1 comes from nowhere else |
| AiebashMain.RunDialogMode | src/aiebash/__main__.py:77-136 | the blocks, output and transcript are those of `Dialog` |
| AiebashMain.DialogLoop | src/aiebash/__main__.py:102-136 | the loop's blocks, output and transcript are those of `Run` |
| AiebashMain.InitialPrompt | src/aiebash/__main__.py:89-99 | the initial prompt's blocks, output and transcript are those of `Initial` |
| AiebashMain.DialogPass | src/aiebash/__main__.py:103-136 | one pass of the loop is `Step` |
| AiebashMain.AskClient | src/aiebash/__main__.py:125-129 | a question sent to the client is `Asked` |
| AiebashMain.SettingsAsWrittenFails | src/aiebash/__main__.py:144-153 | with `--settings`, a configuration dialog that would succeed still makes `main` return 1 as written, where the intended reading returns 0 |
| AiebashMain.RunMain | src/aiebash/__main__.py:137-182 | the exit code, output and transcript are those of `MainRun` |
| AiebashMain.RunSingleQuery | src/aiebash/__main__.py:65-74 | the output and transcript are those of `SingleQuery`, and the code is 130 exactly when Ctrl-C escaped |
| AiebashConfig.LookupReaches | src/aiebash/config_manager.py:48-59 | a chained `.get` gives the key's value in the dictionary the path reaches, or the default when the path or the key is missing |
| AiebashConfig.EmptyLookup | src/aiebash/config_manager.py:20-59 | every lookup in an empty configuration gives the default |
| AiebashConfig.Route | src/aiebash/config_manager.py:51-57 | `global` and `logging` are top-level sections; any other section name is looked up under `supported_LLMs` |
| AiebashConfig.Loaded | src/aiebash/config_manager.py:30-34 | the loaded configuration is the parsed file when that is truthy, and `{}` otherwise |
| AiebashConfig.LoadedEmpty | src/aiebash/config_manager.py:30-34 | the configuration is `{}` exactly when the file is missing, unparsable, falsy or itself `{}` |
| AiebashConfig.LoadedDict | src/aiebash/config_manager.py:32 | a file holding a dictionary loads as that dictionary |
| AiebashConfig.ConfigManager.constructor | src/aiebash/config_manager.py:19-37 | construction loads the settings, copying the default file when the user file is missing; it raises, through the logger update, exactly when the data read is not a dictionary |
| AiebashConfig.ConfigManager.LoadSettings | src/aiebash/config_manager.py:23-37 | the user file is copied from the default when missing, the data is `Loaded` of it, and the logger update raises exactly when the data is not a dictionary |
| AiebashConfig.ConfigManager.SaveSettings | src/aiebash/config_manager.py:39-46 | a writable file receives the data; a failed write changes nothing |
| AiebashConfig.ConfigManager.LoggingConfig | src/aiebash/config_manager.py:61-63 | the logging section, `{}` when absent; it raises exactly when the data is not a dictionary |
| AiebashConfig.GetValueRouting | src/aiebash/config_manager.py:48-59 | `get_value` reads `global` and `logging` at the top level and every other section under `supported_LLMs`, and falls back to the default |
| AiebashConfig.SaveLoadRoundTrip | src/aiebash/config_manager.py:30-46 | a saved dictionary loads back unchanged |
| AiebashMenu.FilteredKeeps | src/aiebash/config_menu.py:23-37 | the filtered writers pass on exactly the writes that do not mention `Cancelled by user`, in order |
| AiebashMenu.PromptClean | src/aiebash/config_menu.py:17-48 | both writers are restored; the shown text is the filtered writes; Ctrl-C gives `None`; any other error propagates |
| AiebashMenu.FloatOfDigits | src/aiebash/config_menu.py:404 | `float` of a run of digits is its decimal value |
| AiebashMenu.FloatOfPoint | src/aiebash/config_menu.py:404 | `float` of digits, a point and digits is the decimal value |
| AiebashMenu.FloatOfInf | src/aiebash/config_menu.py:404 | `float("-Inf")` is an infinity, not an error |
| AiebashMenu.FloatOfNan | src/aiebash/config_menu.py:404 | `float("nan")` is not a number, not an error |
| AiebashMenu.SignedNan | src/aiebash/config_menu.py:404 | the signed-part parser reads `nan` as non-finite |
| AiebashMenu.SignedMinusInf | src/aiebash/config_menu.py:404 | the signed-part parser reads `-Inf` as non-finite |
| AiebashMenu.ScaledValue | src/aiebash/config_menu.py:404 | scaling by a power of ten multiplies, or divides for a negative exponent |
| AiebashMenu.CommaToPoint | src/aiebash/config_menu.py:402 | replacing commas turns `a,b` into `a.b` for digit runs `a` and `b` |
| AiebashMenu.TemperatureAttempt | src/aiebash/config_menu.py:392-415 | an accepted temperature lies in 0.0–1.0 |
| AiebashMenu.TemperatureCancelIff | src/aiebash/config_menu.py:393-400 | a reply cancels exactly when the prompt was cancelled or the stripped reply is empty |
| AiebashMenu.AttemptOfParsed | src/aiebash/config_menu.py:402-415 | a reply that does not parse asks again with the format error; one that is out of range, or not finite, asks again with the range error; any other value is accepted |
| AiebashMenu.TemperatureComma | src/aiebash/config_menu.py:402-415 | a reply written with a comma is read as the same number written with a point |
| AiebashMenu.TemperatureAboveOne | src/aiebash/config_menu.py:409-411 | a whole number above 1 is refused as out of range |
| AiebashMenu.Attempts | src/aiebash/config_menu.py:383-415 | there is one attempt per reply |
| AiebashMenu.TemperatureKeepsSaid | src/aiebash/config_menu.py:383-415 | the loop only adds output, and a finished loop says something |
| AiebashMenu.TemperatureStoredLast | src/aiebash/config_menu.py:413-415 | a stored temperature is one of the accepted attempts, the loop has finished, and its last line announces the value |
| AiebashMenu.TemperatureStoredInRange | src/aiebash/config_menu.py:409-415 | the stored temperature lies in 0.0–1.0, and the last line announces it |
| AiebashMenu.ApplyAttempt | src/aiebash/config_menu.py:393-415 | a cancellation or acceptance ends the loop, and a refused reply asks again; the printed line matches the outcome, and only an acceptance changes the temperature |
| AiebashMenu.SetTemperature | src/aiebash/config_menu.py:376-415 | the output, whether the loop finished, and the new temperature are those of `Temperature` |
| AiebashMenu.TemperaturePass | src/aiebash/config_menu.py:384-415 | one pass of the loop either ends it with the final state or leaves the rest of the loop's result unchanged |
| AiebashMenu.UnescapeComplete | src/aiebash/config_menu.py:284 | after replacing `\n` escapes, no `\n` escape is left |
| AiebashMenu.UnescapePlain | src/aiebash/config_menu.py:284 | a text without `\n` escapes is kept unchanged |
| AiebashMenu.EditUserContent | src/aiebash/config_menu.py:260-294 | non-empty input is stored stripped and with `\n` escapes turned into newlines; empty input, Ctrl-C and any other error each print their message and change nothing |
| AiebashMenu.AddLlm | src/aiebash/config_menu.py:192-214 | without a name, model or URL nothing is added; a refusal from the configuration is printed and changes nothing; otherwise the entry is stored, and its name listed once |
| AiebashMenu.Changed | src/aiebash/config_menu.py:156-175 | an edit changes exactly the chosen field |
| AiebashMenu.EditLlm | src/aiebash/config_menu.py:127-189 | a field change updates only that entry; the current LLM cannot be deleted; a confirmed deletion removes exactly that entry; every other path changes nothing, and the current LLM stays configured |
| AiebashMenu.SelectedListed | src/aiebash/config_menu.py:243-254 | the current LLM after the menu is the old one or one of the listed names |
| AiebashMenu.SelectNoLlms | src/aiebash/config_menu.py:220-223 | without LLMs the menu says so and returns at once |
| AiebashMenu.SelectSameKeeps | src/aiebash/config_menu.py:246-254 | picking the current LLM, going back or cancelling never changes the current LLM |
| AiebashMenu.SelectLines | src/aiebash/config_menu.py:217-257 | the menu prints at most one line per pick, and exactly one per pick when it did not return |
| AiebashMenu.SelectCurrentLlm | src/aiebash/config_menu.py:217-257 | the new current LLM, the output and whether the menu returned are those of `SelectFrom` |
| AiebashMenu.ManagementStep | src/aiebash/config_menu.py:112-124 | `add` adds, `back` or a cancelled prompt leaves, and any other answer edits the LLM of that name |
| AiebashMenu.SetLogLevel | src/aiebash/config_menu.py:328-341 | a chosen level is stored and announced, and a cancelled prompt changes nothing; the level stays one of the five |
| AiebashMenu.SetStreamMode | src/aiebash/config_menu.py:344-357 | a chosen mode is stored and announced, and a cancelled prompt changes nothing |
| AiebashMenu.SetJsonMode | src/aiebash/config_menu.py:360-373 | a chosen mode is stored and announced, and a cancelled prompt changes nothing |
| Text.ParseFormat03d | src/penguin_tamer/demo_system/recorder.py:187-194 | a number written with `:03d` reads back as the same number with `int` |
| Text.ParseIntToString | src/penguin_tamer/menu/config_menu.py:1810 | `int` reads back every integer written by `str` |

## Left out

- Network, threads, subprocesses, the file system, the clock and randomness are not modelled. Streams are sequences of frames, and Ctrl+C is an item of that sequence or a flag. A process's output is a `Process` value, the demo directory a map from names to contents, and the clock and typing delays integer parameters.
- Floating point: temperatures, `top_p`, the penalties and the stream delays are carried as `real`, with no rounding. The float setters of `src/penguin_tamer/menu/config_menu.py` (temperature, `top_p`, the penalties, the stream delay) and of `src/penguin_tamer/textual_config_menu.py` are not part of this model. Only `float()` as `src/aiebash/config_menu.py:404` uses it is modelled, with NaN and the infinities as one non-finite value.
- Rich and Textual rendering: Markdown, markup colours, spinners, `Live` panels and widget layout are not modelled. Printed output is a sequence of abstract lines, and Rich markup is kept as text.
- Python's `str.lower` is modelled for ASCII and basic Cyrillic letters only, and `str.isdigit` for ASCII digits only. `int()` accepts an optional sign, digits, single underscores between digits and surrounding whitespace.
- The `config` objects that `src/penguin_tamer/config_manager.py` and the menus call (`get_current_llm_config`, `update_llm`, `add_llm`, `remove_llm`, `save`) are not part of this model. Their effect on the LLM and provider maps is modelled as map updates, and a refusal from `add_llm` as an optional message (`ConfigMenu.ConfigMenuApp.AddLlm`, `TextualConfigMenu.TextualMenuApp.AddLlm`, `AiebashMenu.AddLlm`).
- The other screens of `src/penguin_tamer/menu/config_menu.py` and `src/penguin_tamer/textual_config_menu.py` are not part of this model: user content, language and theme pickers, reset, and the selection of the current LLM. `main_menu` and `system_settings_menu` of `src/aiebash/config_menu.py` only dispatch to the modelled functions and are not modelled; of `llm_management_menu` (`src/aiebash/config_menu.py:88-124`) one pass is modelled (`AiebashMenu.ManagementStep`), not the loop that repeats it until the user goes back, nor the `" [текущая]"` marker on the current LLM's entry. `inquirer` itself is a parameter: each prompt yields the answers or a cancellation.
- Console output that only reports or decorates is not modelled: the `[TOKENS]` usage lines of `src/aiebash/llm_client.py:62-65` and `src/aiebash/llm_chat.py:33-36`; the `AI: ` prefix, the echo of each fragment and the closing newline of `ask_stream` in `src/aiebash/llm_chat.py:62-68`; and the header lines that `edit_llm` (`src/aiebash/config_menu.py:131-134`), `edit_user_content` (264-273) and `set_temperature` (379-381) print before their prompts.
- `src/aiebash/config_menu.py:13` imports `config` from `aiebash.config_manager`, which defines only `settings`. The menu is modelled as if that import succeeded.
- The start-up code of `src/aiebash/__main__.py:9-61` is not modelled, except the LLM field lookup at lines 36-38 (`AiebashMain.LlmFieldAsWritten`, `AiebashMain.LlmFieldIntended`); `main` starts from a built client. As written, that code imports a `config_manager` name that `src/aiebash/config_manager.py` does not define, and passes `console=` to `OpenRouterChat`, which does not take it.
- `update_logger_config` and the logging calls are left out. Only whether `get_logging_config` raises is kept, in `load_settings` and in the constructor, which raises with it; the module-level `settings` instance at `src/aiebash/config_manager.py:67` is not modelled apart from the constructor.
- Exception messages are opaque texts (`ExcText`). Python's exact wording, for example the 3.13 text of a failed unpacking, is not modelled.
- `run_code_block` and `annotate_code_blocks` of the `aiebash` package are parameters of the loops that call them (`script_executor.py` and `formatter_text.py` of that package are not part of this model).
- `debug_print_messages` of `src/penguin_tamer/llm_client.py` and `src/penguin_tamer/debug.py` print `str()` of values; that conversion is a function parameter.
- `DemoPlayer.stop()` comes from another thread. It is modelled as the index of the event before which the flag is found cleared. The result of playing each event is computed beforehand, so `PlayEvents` takes those results as a parameter.
- Playback.PlayUserInput: input text that is a dictionary is replayed as one placeholder per key, because the order of a dictionary's keys is not modelled.
- OpenRouter.WaitFirst: usage-only frames that arrive before the first content fragment are skipped, not counted, as `src/penguin_tamer/llm_clients/openrouter_client.py:163-180` does.
- `src/penguin_tamer/demo_system/recorder.py:141-145` calls `add_command_output` with a `chunks=` keyword it does not accept. `Recording.DemoRecorder.FinalizeCommandOutput` models the resulting `TypeError` as written; no corrected version is given, because the intended event shape is not known.

## Findings

| source | as written | input that shows it | evidently intended | confidence | as-written member | corrected member |
|---|---|---|---|---|---|---|
| src/penguin_tamer/cli.py:160-163, 209-212 | `ask_stream(..., educational_content=...)` uses a keyword the method does not take (its parameter is `educational_prompt`), and `ask` does not exist on the client, so every question fails and is only reported | any question in dialog mode | the educational messages go with the first answered question and are then cleared, and the code blocks come from each reply | high, not executed | Cli.DialogAsWritten | Cli.DialogOneShot |
| src/penguin_tamer/cli.py:229-236 | the client is built with `system_content=`, but the constructor takes `system_message` (src/penguin_tamer/llm_client.py:244-245), so `main` returns 1 | any run without `--settings` | the client is built, and `main` returns 0, or 130 on Ctrl+C | high, not executed | Cli.MainAsWritten | Cli.MainExitCodes |
| src/penguin_tamer/menu/provider_manager.py:143-152 | `ProviderEditDialog(..., model_filter=...)` passes a keyword that the dialog forwards to a base class that does not take it, so the edit dialog never opens | editing any provider | the edited fields replace the old ones, a blank key keeps the stored one, and the names stay | medium, not executed | ProviderManagement.EditAsWrittenChangesNothing | ProviderManagement.EditKeepsNames |
| src/aiebash/__main__.py:92, 126 | `reply, code_blocks = chat_client.ask(...)` unpacks the returned string | a reply whose length is not 2 | the reply and its code blocks, which replace the selectable blocks | high, not executed | AiebashMain.QuestionAsWrittenKeepsBlocks | AiebashMain.QuestionReplacesBlocks |
| src/aiebash/__main__.py:36-38 | `get_value("supported_LLMs", CURRENT_LLM, {})` routes the section name to `supported_LLMs["supported_LLMs"]` | any configuration without an LLM named `supported_LLMs` | the current LLM's own entry | high, not executed | AiebashMain.LlmFieldAsWritten | AiebashMain.LlmFieldIntended |
| src/aiebash/__main__.py:147 | `--settings` imports `run_configuration_dialog` from `aiebash.config_manager`, which does not define it; the ImportError is caught and `main` returns 1 | `--settings` | the configuration dialog runs, and `main` returns 0, or 130 on Ctrl-C and 1 when the dialog fails | high, not executed | AiebashMain.SettingsAsWrittenFails | AiebashMain.MainExitCodes |
| src/penguin_tamer/textual_config_menu.py:193-202 | the plain method `on_button_pressed` calls the coroutine `delete_selected_llm` (line 304) without `await`, so the coroutine is never run | pressing Delete with a confirmable LLM selected | the selected LLM is deleted after confirmation, or refused when it is the current one | high, not executed | TextualConfigMenu.DeletePressAsWrittenKeeps | TextualConfigMenu.TextualMenuApp.DeleteSelectedLlm |
