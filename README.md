# Reasonable AI prompt chain, modelled in Dafny

Reasonable AI is a Streamlit chat page (`app.py`) that answers each user
prompt with a chain of calls to the Gemini model client:

- an **analysis** call;
- when reasoning is on, `max_iterations` **refinement** calls, each of which
  may rewrite the query through an `IMPROVED PROMPT:` marker;
- a **final generation** call, whose prompt carries a detail level guessed
  from the analysis.

The session keeps two lists that the turn handler appends to and the reset
button clears:

- `messages`, the conversation;
- `thinking_history`, one list of thinking steps per turn that got far
  enough to store one.

The model has four modules:

- `Text` (`text.dfy`): the Python string operations the chain relies on.
  These are `pat in s`, the second piece of `s.split(sep)` and `s.strip()`
  with Python's whitespace set.
- `Prompts` (`prompts.dfy`): the pure parts of the three prompt builders.
  These are the five-message history window and its `Role: content` lines,
  the `DESIRED_DETAIL_LEVEL` heuristic and the improved-prompt extraction.
- `Pipeline` (`pipeline.dfy`): the chain itself.
  - The model client is an oracle: call number `i` of a turn is answered by
    `oracle(i)`, with text or by raising.
  - `Refine` and `RunPipeline` are the reference definitions of the
    refinement loop and of the `try` block.
  - `RefinePrompt` and `RunPromptChain` are the imperative loop and chain,
    proved equal to them.
- `Session` (`session.dfy`): one submitted prompt as a function `Turn` on the
  session state.
  - Its three paths are a missing key, a pipeline that completes and a
    pipeline that raises.
  - The `ChatSession` class holds the two lists as fields; its `Submit` and
    `Reset` methods update them in place and are proved against `Turn` and
    `ResetStore`.
  - The thinking lookup at `i // 2` done by the display loop is also modelled.

Three behaviours of `app.py` are easy to misread:

- Only the text between the first `IMPROVED PROMPT:` and the next one (or the
  end) becomes the new query, since the code takes `split(...)[1]`.
- The context window is the last five *messages*, not five user/assistant
  pairs.
- Thinking steps are appended to `thinking_history` before the final call.
  So a turn whose final generation raises still stores its thinking, even
  though its reply is an error message (`ThinkingGrowsIff`).

## Model

| member | source | states |
|---|---|---|
| Text.IndexOf | app.py:296-299 | the result is the first index where the pattern occurs, or None when it occurs nowhere; `pat in s` is `IndexOf(s, pat).Some?` |
| Text.SplitSecond | app.py:434 | `split(sep)[1]` (defined only when `sep` occurs) is the slice after the first `sep`; it ends at the end of the string or where `sep` occurs again, and it never contains `sep` |
| Text.SplitSecondIsNextPiece | app.py:434 | the second piece is exactly the slice from the end of the first separator to the next occurrence at or after it (`PieceEnd`), or to the end |
| Text.Strip | app.py:434 | `strip()` yields the slice of its input after the leading whitespace; everything after it is whitespace, and it neither starts nor ends with whitespace |
| Text.StripKeepsOut | app.py:434 | stripping cannot make a pattern appear |
| Prompts.FormatHistory | app.py:217-221 | no contract of its own: renders the last five messages (all of them when there are fewer) as `Role: content` lines, oldest first; `FormatHistoryShape` and `RenderCons` pin it down |
| Prompts.RoleLabel | app.py:220 | the label is "User" exactly for role "user", otherwise "Assistant" |
| Prompts.FormatHistoryShape | app.py:218-221 | the formatted history is empty iff the history is; with at most five messages it renders all of them; with five or more it is the five last lines, oldest first |
| Prompts.OnlyLastFiveMatter | app.py:219 | messages older than the last five never change the formatted history |
| Prompts.FormatHistorySlides | app.py:219-221 | once five messages are kept, appending one drops the oldest line and adds the new one at the end |
| Prompts.RenderAppend | app.py:219-221 | the line-by-line accumulation distributes over concatenation |
| Prompts.RenderCons | app.py:219-221 | the rendering is the first message's line followed by the rest |
| Prompts.DetailLevelOf | app.py:295-300 | BRIEF iff the label and "BRIEF" occur; MODERATE iff the label and "MODERATE" occur but "BRIEF" does not; DETAILED whenever the label is absent |
| Prompts.BriefAnswerSelectsBrief | app.py:295-298 | an analysis containing `DESIRED_DETAIL_LEVEL: BRIEF` selects BRIEF, whatever else it says |
| Prompts.ModerateAnswerSelectsModerate | app.py:295-300 | an analysis containing `DESIRED_DETAIL_LEVEL: MODERATE` and no "BRIEF" selects MODERATE |
| Prompts.NextQuery | app.py:433-434 | without the marker the query is left unchanged; with it the new query never contains the marker |
| Prompts.NextQueryIsStrippedPiece | app.py:433-434 | with the marker, the new query is the whitespace-stripped text between the end of the first marker and the next marker (or the end of the output) |
| Pipeline.AnalyzeQuery | app.py:216-248 | no contract of its own: the analysis request for the query and the formatted history; `PipelineSuccess` places it first and `PipelineContext` fixes its history |
| Pipeline.ImprovePrompt | app.py:251-284 | no contract of its own: the refinement request for the current query, iteration, total, formatted history and analysis; `RefineChained` fixes which query each iteration sends |
| Pipeline.GenerateFinalResponse | app.py:287-326 | no contract of its own: the final request for the refined query, formatted history, analysis and `detail_level.lower()`; `PipelineSuccess` places it last with the detail word of `DetailLevelOf` |
| Pipeline.Refine | app.py:419-434 | no contract of its own: the reference definition of the refinement loop after `k` iterations; `RefineGrows`, `RefineChained` and `RefineSucceedsIff` pin it down |
| Pipeline.RefineGrows | app.py:419-430 | the loop only appends; without error each iteration adds one request and one thinking step, and with an error no step follows the failed request |
| Pipeline.RefineSucceedsIff | app.py:419-430 | the loop ends without error iff each of its calls succeeds |
| Pipeline.RefinePrefix | app.py:419 | an error-free run of `k` iterations extends its first `j` iterations |
| Pipeline.RefineChained | app.py:419-434 | iteration `j` sends the query left by iteration `j-1`, its output is thinking step `j`, and the query it leaves is `NextQuery` (the update rule) of that output |
| Pipeline.RefineStopsOnError | app.py:419-430 | after a raising call, further iterations change nothing |
| Pipeline.FailureIsLastRequest | app.py:419-430 | a loop that stopped on an error stopped on its last request, and the error is that call's |
| Pipeline.RefineContext | app.py:422-429 | every refinement request carries the same formatted history |
| Pipeline.RefinePrompt | app.py:418-434 | the `for` loop's query, thinking steps, requests and error equal the reference definition `Refine` after all iterations |
| Pipeline.RunPromptChain | app.py:399-459 | configuration, analysis, refinement when enabled and the final call produce the requests, stored steps and answer of the reference definition `RunPipeline` |
| Pipeline.RunPipeline | app.py:399-459 | no contract of its own: the reference definition of the `try` block (requests, stored steps, answer or error); `PipelineStoresIff`, `PipelineSuccess` and `PipelineFailsOnLastCall` pin it down |
| Pipeline.PipelineStoresIff | app.py:401-437 | thinking steps are stored iff configuration, the analysis and every refinement call succeed, whatever the final call does |
| Pipeline.PipelineAnswersIff | app.py:399-459 | a turn answers iff configuration and all its 2 + iterations calls succeed |
| Pipeline.PipelineSuccess | app.py:404-459 | on success: 2 + iterations requests, the analysis first and the final generation last, on the refined query with the lower-cased detail word derived from the analysis; the answer is the last call's, and 1 + iterations steps are stored |
| Pipeline.StoredStepsAreOutputs | app.py:409-430 | stored steps are the analysis under its heading, then the refinement outputs in call order |
| Pipeline.PipelineCallBound | app.py:404-459 | a turn never sends more than 2 + iterations requests |
| Pipeline.PipelineFailsOnLastCall | app.py:399-481 | a failed turn reports configuration's error (no request sent) or the error of the last request it sent |
| Pipeline.NoReasoningPassesPrompt | app.py:415-459 | with reasoning off, exactly an analysis and a final request on the user's own prompt are sent |
| Pipeline.PipelineContext | app.py:408-457 | every request of a turn carries the same formatted history |
| Session.Turn | app.py:372-481 | a turn appends exactly the user message and one assistant message, keeps every earlier message and thinking entry, and adds at most one thinking entry |
| Session.MissingKeyTurn | app.py:390-397 | without an API key nothing is sent, the reply is the guidance text stamped with the receipt time, and thinking is unchanged |
| Session.ThinkingGrowsIff | app.py:390-437 | thinking history grows by one iff a key is present and configuration, the analysis and every refinement succeed; otherwise it is unchanged |
| Session.SuccessfulTurn | app.py:399-469 | when every call succeeds: 2 + iterations requests, one thinking entry of the analysis step and the refinement outputs, and the reply is the final text stamped at response time |
| Session.FailedTurn | app.py:471-481 | a raising pipeline's reply is "An error occurred: " plus the error of configuration or of the last request, stamped at error time |
| Session.TurnUsesPriorHistory | app.py:408-457 | every request carries the formatted history of the messages before the turn's own user message |
| Session.TurnKeepsWellFormed | app.py:377-481 | user/assistant alternation, user first, with at most one thinking entry per pair, survives every turn |
| Session.ResetStore | app.py:484-486 | reset leaves both lists empty, a well-formed session |
| Session.ThinkingShown | app.py:347-349 | no contract of its own: the thinking entry shown under message `i` — only for a user message that is not the last, looked up at `i // 2` when that entry exists and is non-empty; `AlignedTurnShowsOwnThinking` and `LookupMisalignsAfterMissingKey` pin it down |
| Session.AlignedTurnShowsOwnThinking | app.py:347-349 | while every turn has stored thinking, the `i // 2` lookup shows a new turn's thinking under its own user message |
| Session.LookupMisalignsAfterMissingKey | app.py:347-349 | after a turn without a key, the `i // 2` lookup shows the second turn's thinking under the first user message and none under the second |
| Session.ChatSession.constructor | app.py:199-202 | a new session starts with both lists empty |
| Session.ChatSession.Submit | app.py:372-481 | the fields after the call and the requests sent are exactly those of `Turn` with `NextQuery`, and a well-formed session stays well formed |
| Session.ChatSession.Reset | app.py:484-486 | both fields are emptied, as `ResetStore` states |

## Left out

- Rendering: everything drawn through Streamlit (chat bubbles, spinners, expanders, CSS, timestamps shown or not, `st.rerun`) and the sidebar widgets themselves. The turn reads their values as `Settings`.
- The Gemini SDK is replaced by an oracle that answers call `i` of a turn. Generation parameters (model name, temperature, top_p, top_k, max output tokens) do not affect the control flow and are not modelled.
- `configure_genai` is reduced to whether it raises (`configureError`). Loading the key from the environment or `.env` is reduced to `keyPresent`.
- `time.strftime` is replaced by three opaque clock strings per turn (`Clock`).
- Prompt template texts are not reproduced. A request records the values its template is filled with: query, iteration, total, formatted history, analysis and detail level.
- Exception messages are opaque strings. `str(e)` is the oracle's error text.
- Pipeline.RefinePrompt: it takes the query update rule as a parameter. The turn handler (`RunPromptChain`) passes `NextQuery`, so the loop's correctness is proved for every rule, the handler's rule included.
- Display of the thinking steps (headings per step, the auto-expand option) is left out. The `i // 2` lookup that chooses which entry to show is modelled by `ThinkingShown`.
- Session.Settings.Valid: the 1..5 slider bound is checked by `Submit`'s precondition only. The pipeline is proved for any iteration count.
- Session.ChatSession.Submit: requires a non-empty prompt. The `if prompt:` guard at app.py:372 belongs to the caller, and the chat input never yields an empty string.
