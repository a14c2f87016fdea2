# Chat session and assistant-builder state, in Dafny

This project models the two pieces of per-session state behind the chat web front end:

- **`ChatState`** (`ChatModel`): the conversation as a list of turns `{text, is_ai}`, the
  `typing` flag that is set while an assistant reply is pending, and the selected
  knowledge-base id. Four handlers change them: `clear_messages`, `select_assistant`,
  `send_message` and `generate_response`. `generate_response` posts the latest user turn to
  the query endpoint and writes the answer into the last turn. The endpoint's answer is an
  `Outcome` argument: a decoded JSON body, or the description of the exception raised
  instead. The method returns the request it would post, so "no request is made" can be
  stated as `request == None`.
- **`LayoutState`** (`LayoutModel`): page navigation and the assistant-builder flow. It holds
  the form panel flag, the stored name and description, the `creating_assistant` and
  `assistant_created` flags, and the progress dialog. Five handlers change them:
  `set_page`, `open_assistant_upload`, `submit_assistant`, `finish_assistant_creation` and
  `close_assistant_dialog`. Two more events come from the page: the name and description
  inputs call the framework's generated setters `set_assistant_name` and
  `set_assistant_description` on every change. These store the typed text unstripped and
  touch neither status flag.

Each state is a Dafny `class` whose fields are the Python fields. Each handler is a method
with a `modifies this` frame. Each method states its new fields, and it also states that its
`View()` equals a pure transition function (`Step`) applied to the old view. Invariants are
proved about those functions for every sequence of events from the initial state (`Run`):

- chat turns come in user/assistant pairs;
- every user turn is non-empty and already stripped;
- while `typing` holds, the last turn is the empty assistant placeholder;
- an assistant is never both "being created" and "created".

Python's `str.strip()` is modelled in `Text` over the exact character set of
`str.isspace()`. `form_data.get(key, default)` is `Base.Lookup`.

Each handler runs atomically, one after another. The background-task plumbing is not
modelled: the `async with self` sections, `@rx.event(background=True)`, `yield` of the
follow-up event and `asyncio.sleep`.

## Model

| member | source | states |
|---|---|---|
| `Base.Lookup` | chat_app/chat_app/states/layout_state.py:48-49 | `dict.get(key, default)`: the stored value when the key is present, the default otherwise |
| `Text.Strip` | chat_app/chat_app/states/chat_state.py:45 | `strip()` yields "" exactly when every character is whitespace; a non-empty result neither starts nor ends with whitespace; it is never longer than the input |
| `Text.StripIsTrimmedSlice` | chat_app/chat_app/states/chat_state.py:45 | the stripped text is one contiguous slice of the input, with only whitespace before and after it |
| `Text.StripFixesStripped` | chat_app/chat_app/states/layout_state.py:48-49 | `strip()` leaves a string unchanged exactly when it has no leading or trailing whitespace |
| `Text.StripIdempotent` | chat_app/chat_app/states/layout_state.py:48-49 | stripping twice gives the same as stripping once |
| `ChatModel.LastUserIndex` | chat_app/chat_app/states/chat_state.py:71-75 | the index found is a user turn and every later turn is the assistant's; -1 when no turn is the user's |
| `ChatModel.QueryText` | chat_app/chat_app/states/chat_state.py:71-75 | the query is the text of the user turn after which only assistant turns follow, or "" when there is no user turn |
| `ChatModel.FindQuery` | chat_app/chat_app/states/chat_state.py:71-75 | the reversed loop with `break` returns exactly that query |
| `ChatModel.ReplyText` | chat_app/chat_app/states/chat_state.py:100-106 | on success the reply is the body's "response" field, or "" without one; on failure it is "Error contacting chat API: " followed by the error description |
| `ChatModel.SetLastText` | chat_app/chat_app/states/chat_state.py:109-111 | overwriting the last turn's text keeps the length, every earlier turn and the last turn's author |
| `ChatModel.SendStatusOf` | chat_app/chat_app/states/chat_state.py:43-50 | a send is ignored exactly while `typing`; it raises `KeyError` exactly when not typing and the "message" field is missing; it dispatches exactly when the message is not all whitespace |
| `ChatModel.Send` | chat_app/chat_app/states/chat_state.py:43-49 | an ignored send changes nothing; a dispatched one keeps every earlier turn, appends the stripped user turn and then an empty assistant turn, sets `typing` and keeps the knowledge base |
| `ChatModel.Request` | chat_app/chat_app/states/chat_state.py:63-89 | a request is posted exactly when the conversation is non-empty and the knowledge-base id is neither None nor ""; it carries that id and the query text |
| `ChatModel.Generate` | chat_app/chat_app/states/chat_state.py:63-112 | `typing` ends false and the knowledge base is kept; no turn is added or removed and no author changes; only the last turn's text changes, to the fixed "No assistant selected..." text without a knowledge base, otherwise to the outcome's reply |
| `ChatModel.SendKeepsWellFormed` | chat_app/chat_app/states/chat_state.py:43-49 | a send keeps the turns paired, the user turns stripped and non-empty, and the placeholder last while typing |
| `ChatModel.GenerateKeepsWellFormed` | chat_app/chat_app/states/chat_state.py:109-112 | writing the reply keeps the conversation well formed |
| `ChatModel.StepKeepsWellFormed` | chat_app/chat_app/states/chat_state.py:22-112 | every one of the four handlers keeps the conversation well formed |
| `ChatModel.RunKeepsWellFormed` | chat_app/chat_app/states/chat_state.py:22-112 | any sequence of handler calls keeps a well-formed conversation well formed |
| `ChatModel.ReachableWellFormed` | chat_app/chat_app/states/chat_state.py:15-20 | every session reachable from the initial fields is well formed |
| `ChatModel.QueryOfWellFormed` | chat_app/chat_app/states/chat_state.py:71-75 | in a well-formed non-empty conversation the query is the turn just before the last one, and it is never "" |
| `ChatModel.SendThenRequest` | chat_app/chat_app/states/chat_state.py:45-89 | after a dispatched send, the next `generate_response` posts the stripped message to the selected knowledge base, or posts nothing when none is selected |
| `ChatModel.SendThenGenerate` | chat_app/chat_app/states/chat_state.py:45-111 | a dispatched send followed by `generate_response` leaves the earlier turns, the stripped user turn and the reply, with `typing` false |
| `ChatModel.NoAssistantIgnoresOutcome` | chat_app/chat_app/states/chat_state.py:78-84 | with no knowledge base selected nothing is posted and the endpoint's outcome has no effect |
| `ChatModel.ChatState.constructor` | chat_app/chat_app/states/chat_state.py:15-20 | a new session has no turns, is not typing and has no knowledge base |
| `ChatModel.ChatState.ClearMessages` | chat_app/chat_app/states/chat_state.py:22-26 | the turns become empty and `typing` false; the knowledge base is unchanged |
| `ChatModel.ChatState.SelectAssistant` | chat_app/chat_app/states/chat_state.py:28-38 | the knowledge base becomes the argument, the turns empty and `typing` false |
| `ChatModel.ChatState.SendMessage` | chat_app/chat_app/states/chat_state.py:40-50 | the status is `SendStatusOf`; an ignored send leaves every field unchanged; a dispatched one appends the two turns and sets `typing`; well-formedness is kept |
| `ChatModel.ChatState.GenerateResponse` | chat_app/chat_app/states/chat_state.py:52-112 | the posted request is `Request` of the old state; `typing` becomes false; only the last turn's text may change, as `Generate` says; well-formedness is kept |
| `LayoutModel.Step` | chat_app/chat_app/states/layout_state.py:26-77 | every event keeps "not creating and created at once"; opening the builder, submitting, finishing and leaving for a page other than "projects" establish it; the two field setters, closing the dialog and visiting "projects" leave both status flags as they were |
| `LayoutModel.RunKeepsNotBoth` | chat_app/chat_app/states/layout_state.py:26-77 | any sequence of events keeps "not creating and created at once" |
| `LayoutModel.ReachableNotBoth` | chat_app/chat_app/states/layout_state.py:19-20 | from the initial fields, no sequence of events makes `creating_assistant` and `assistant_created` both true |
| `LayoutModel.SubmitThenFinish` | chat_app/chat_app/states/layout_state.py:44-71 | submit followed by finish leaves the dialog open with the success message, the form hidden, the assistant created and not creating, the stripped name and description stored and the page unchanged |
| `LayoutModel.OpenUploadResets` | chat_app/chat_app/states/layout_state.py:35-42 | opening the builder shows the form and resets both status flags and the dialog whatever came before, keeping name, description and page |
| `LayoutModel.LayoutState.constructor` | chat_app/chat_app/states/layout_state.py:9-24 | the initial page is "dashboard"; every flag is false and every text "" |
| `LayoutModel.LayoutState.SetAssistantName` | chat_app/chat_app/chat_app.py:154 | the generated setter stores the typed name as is, unstripped, and changes no other field |
| `LayoutModel.LayoutState.SetAssistantDescription` | chat_app/chat_app/chat_app.py:173 | the generated setter stores the typed description as is, unstripped, and changes no other field |
| `LayoutModel.LayoutState.SetPage` | chat_app/chat_app/states/layout_state.py:26-33 | the page becomes the argument; for any page but "projects" the panel, creating and created flags become false; for "projects" nothing else changes |
| `LayoutModel.LayoutState.OpenAssistantUpload` | chat_app/chat_app/states/layout_state.py:35-42 | the panel is shown, both status flags are false, the dialog is closed with message ""; name, description and page are unchanged |
| `LayoutModel.LayoutState.SubmitAssistant` | chat_app/chat_app/states/layout_state.py:44-58 | the stripped name and description are stored ("" for a missing field); creating is set and created cleared; the dialog opens with "Assistant creation in progress..."; page and panel are unchanged |
| `LayoutModel.LayoutState.FinishAssistantCreation` | chat_app/chat_app/states/layout_state.py:60-71 | creating is cleared and created set, the message becomes "Assistant created successfully!" and the panel is hidden; the dialog's open flag and every other field are unchanged |
| `LayoutModel.LayoutState.CloseAssistantDialog` | chat_app/chat_app/states/layout_state.py:73-77 | only the dialog's open flag changes, to false |

## Left out

- The HTTP call to the query endpoint (`requests.post` with its 60-second timeout, `raise_for_status` and JSON decoding) is foreign network I/O. Its result is the `Outcome` argument. `Ok` carries a body that decoded to a JSON object, as a map from strings to strings. A body that decodes to a list, a string or a number makes `.get` raise `AttributeError`, which the handler turns into an error reply; the model covers that case as `Err`. A "response" field holding a non-string JSON value is not modelled.
- The `print` of the received reply is logging and is not modelled.
- `has_openai_key` reads the process environment and is not modelled.
- Concurrency is not modelled: `async with self` locking, background events, the `yield` that schedules the follow-up handler, and `asyncio.sleep(2)`. Each handler is atomic. `generate_response` is therefore one step, and a change to the turns between its snapshot and its write-back is not captured.
- The aliasing between the snapshot list and the live turns is not modelled. The Python copy is shallow, so both share the same dictionaries. The model works on sequence values, so the in-place write to `messages[-1]["text"]` becomes a sequence update.
- `ChatModel.ChatState.SendMessage`: a missing "message" field raises `KeyError` in Python. The model reports this as the status `MissingMessage` and changes nothing, as the exception leaves the fields untouched. A field holding something other than a string is not modelled.
- `LayoutModel.LayoutState.SubmitAssistant`: the model describes the handler given a map from field names to text, not what the page's button delivers. In `chat_app/chat_app/chat_app.py` the "Create Assistant" button is `type="button"` and passes the result of `rx.upload_files(upload_id="assistant_upload")`, not the form's fields. So as wired, `form_data.get(...)` cannot see the typed name or description. The upload itself is not modelled either.
- Template loading (`load_templates`) is file I/O with JSON parsing and is not part of this model. The same goes for the page and component builders (`chat_app.py`, `preset_cards.py`, `message_bubble.py`, `chat_interface.py`), which only lay out the UI.
- `AIAssitant/AIAssitant.py` is an entry point with no logic and is not part of this model.
