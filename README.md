# Python Tutor Chatbot: session state and prompt logic

A model, in Dafny, of the core of a small Streamlit chat front-end that
tutors a learner in Python through a language-model API (`app.py`). The
core is the per-session state (`st.session_state`): the teaching settings,
the conversation log and the cached system prompt. It also covers the pure
logic around that state:

- `Prompt` (`prompt.dfy`): `build_system_prompt`, a fixed template into
  which level, focus, style and one of two tone lines are written. A reader
  for that template (`ParsePrompt`) is the inverse. The round trip between
  the two shows that the three settings stand verbatim, in order, after
  their labels.
- `Suggestions` (`suggestions.dfy`): `suggested_prompts`. The six base
  prompts are extended by two level-specific prompts and then cut back to
  six, so the level-specific prompts never appear. This is reproduced as
  written and proved.
- `SettingsStore` (`settings.dfy`): the settings record, the defaults and
  the change detection of `update_settings`. The five text and flag fields
  are compared by inequality. The temperature is compared with a tolerance
  of 1e-9.
- `Chat` (`chat.dfy`): messages, the request sent to the completion
  service (`[system message] + history`), and the outcome of the call.
- `TutorSession` (`session.dfy`): class `Session`, one `Option` field per
  session key (`None` = the key has not been set yet). Its methods update
  the state in place: `init_session_state`, `update_settings`,
  `clear_chat`, `ensure_system_prompt`, a click on a suggestion button, and
  one chat turn. `Valid()` is the invariant that the log never holds a
  system message.

The completion service is a parameter `service: Request -> Completion`,
where `Completion = Success(text) | Failure(error)`. Creating the client is
a parameter too: `ClientOutcome = Ready | Unavailable(error)`. In the
source, creating the client can fail before `ensure_system_prompt` runs. In
that case the cached prompt is left as it was and no request is sent, and
the model keeps that ordering.

Three behaviours of the code are easy to misread; the model follows the code as written:

- Only the empty string is ignored as chat input. Whitespace-only input
  starts a turn (`if user_input:` in `app.py:198`).
- After an update, the stored temperature is the candidate's only when it
  moved by more than 1e-9. Otherwise the old value stays, so the store does
  not always hold the candidate's temperature (`AdoptedWhole`,
  `NearbyTemperatureKept`).
- Settings are plain strings, as in the code, not enumerations. Any level
  other than "Beginner" or "Intermediate" gets the advanced extras.

## Model

| member | source | states |
|---|---|---|
| `Prompt.PromptLayout` | app.py:23-42 | The prompt is a head built from level, focus and style, then the tone text, then a constant tail (blank line, six goals, formatting block). Only the tone depends on the socratic flag. |
| `Prompt.SocraticChangesPrompt` | app.py:24 | For the same level, focus and style, the prompts for socratic and non-socratic tone differ. |
| `Prompt.ParseBuildRoundTrip` | app.py:25-42 | Reading back a prompt built from newline-free level, focus and style gives exactly those three values and the socratic flag. So each stands verbatim after its label, in the order level, focus, style, tone. |
| `Prompt.BuildInjective` | app.py:23-42 | Two newline-free settings tuples that build the same prompt are equal. |
| `Prompt.TakeLineOf` | app.py:27-29 | A value without a newline, followed by a newline, is read back exactly as written. This is the step that makes each labelled line recoverable. |
| `Suggestions.SuggestedPrompts` | app.py:113-137 | For every level, the result has exactly six entries and equals the six base prompts. |
| `Suggestions.LevelPromptsUnreachable` | app.py:122-137 | None of the two prompts appended for the level is among the suggestions. |
| `SettingsStore.Updated` | app.py:64-84 | After an update: model, level, focus, style and socratic equal the candidate's. The temperature is the candidate's or the old one, the old one whenever the candidate's lies within 1e-9 of it, and is always within 1e-9 of the candidate's. |
| `SettingsStore.DiffersIffChanged` | app.py:64-84 | The update reports a change exactly when the stored settings change. |
| `SettingsStore.UpdateIdempotent` | app.py:64-84 | A second update with the same arguments reports no change and leaves the settings as the first update left them. |
| `SettingsStore.AdoptedWhole` | app.py:69-71 | The candidate is stored whole exactly when its temperature moved by more than 1e-9 or was already equal. |
| `SettingsStore.NearbyTemperatureKept` | app.py:69-71 | Concrete case: with current temperature 0.3 and candidate 0.3 + 0.5e-9, no change is reported, 0.3 is kept, and the store does not hold the candidate. |
| `Chat.ComposedRequestShape` | app.py:102-104 | The request's messages over a log without system messages: one more than the log, the system prompt first and the only system message, then the log unchanged. |
| `TutorSession.Session.InitSessionState` | app.py:45-61 | Each missing key gets its default ("gpt-4", 0.3, "Beginner", "Fundamentals", "Explain, then example, then short exercise", true, empty log, empty cache). Present keys are untouched. When every key was present nothing changes, so a second call is a no-op. |
| `TutorSession.Session.UpdateSettings` | app.py:64-84 | New settings = `Updated(old, candidate)`. Result = `Differs(old, candidate)`. Log and cache unchanged. |
| `TutorSession.Session.ClearChat` | app.py:87-88 | The log is empty afterwards. Every setting and the cached prompt are unchanged. |
| `TutorSession.Session.EnsureSystemPrompt` | app.py:91-99 | Returns `build_system_prompt` of the current level, focus, style and socratic flag, and stores that same string as the cached prompt. |
| `TutorSession.Session.Append` | app.py:199 | Appends one user or assistant message and keeps the log free of system messages. |
| `TutorSession.Session.ClickSuggestion` | app.py:186-189 | A click on suggestion button i appends exactly one user message holding the i-th suggestion for the current level. Nothing else changes. |
| `TutorSession.Session.SubmitTurn` | app.py:198-220 | Empty input changes nothing and sends nothing. Otherwise the log grows by exactly two messages: the user's input, then the reply, or the fixed fallback text when the client or the call failed. When the client is ready, the request sent is the freshly built prompt followed by the log that already ends with the user message, with the current model and temperature, and the cache holds that prompt. On failure, "API error: ..." is shown. Settings never change. |

## Left out

- Streamlit rendering and widgets (page config, sidebar, select boxes, slider, checkbox, columns, markdown, spinner, error display) are UI. Their values reach the model as method arguments. The select-box index fallbacks only choose a widget default.
- `get_openai_client` and the `client.chat.completions.create` network call are a foreign SDK and I/O. They are the `client` and `service` parameters of `SubmitTurn`. Extracting `response.choices[0].message.content` is not modelled: the service returns the reply text directly.
- The `OPENAI_API_KEY` environment check in the sidebar is environment I/O and only shows a warning.
- Temperature is an exact `real`. Float rounding of the subtraction and of the literal 1e-9, and the slider step, are not modelled.
- The Streamlit rerun loop that calls these operations in order is not modelled. Each event is a separate method.
- `chat_input` returning no value and returning the empty string are both modelled by the empty string, since both are falsy.
- `Prompt.ParseBuildRoundTrip`: stated only for level, focus and style without newlines. Every value the sidebar offers has none. With newlines in a value, two different settings can build the same prompt.
