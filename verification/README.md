# NUST Bank Assistant front end: session state machine

The front end is a Streamlit script. On every page run it reads and updates a
per-browser session store. The store holds:

- the API key;
- the "API key submitted" flag, which switches between the credential-entry view and the main view;
- the "document uploaded" flag;
- the list of uploaded documents (name, MIME type, date);
- the chat transcript (role, content).

Four user actions change the store. Three of them make a single request to
the backend and then act on the reply; "Change API Key" makes no request:

- **Submit API Key** (credential-entry view);
- **Change API Key** (main view);
- **Process Document** (main view);
- a **chat submission** (main view).

This project models that store and those four actions. For the three actions
that call the backend, the reply is an input: the HTTP status code and, where
the script reads the JSON body, which of the keys `message` and `error` the
body holds.

- `decimal.dfy` (module `Decimal`): how Python writes an `int` in an f-string,
  and the reading that gets the integer back.
- `session_spec.dfy` (module `SessionSpec`): the state as a value.
  - One function per action returns the new state and the banner shown.
  - `Step`/`Run` apply a sequence of actions.
  - The session invariant `Inv` says the upload flag is set exactly when a
    document was recorded, and that the transcript is a sequence of whole
    user/assistant turns.
  - Lemmas prove that every state reachable through actions whose requests
    return keeps `Inv`, that the lists only grow by appending, and what a run
    of chat turns leaves in the transcript.
- `session.dfy` (module `SessionController`): the class `Session`, whose fields
  the methods assign and append to as the script does. Each method is proved to
  produce exactly the new state of the matching `SessionSpec` function, and to
  keep `Inv`.

Where a widget is not rendered, its action does nothing. Upload and chat exist
only in the main view (app.py:117), "Change API Key" only there, and "Submit
API Key" only in credential entry. An empty chat prompt is falsy in the
script's `if prompt := ...`, so it adds no turn. Chat never consults the upload
flag; that flag only controls an advisory banner.

In these details the model follows the script exactly:

- A failed or empty credential submission still replaces the stored key with
  the typed text (app.py:88). So "state unchanged" holds for every field
  except `apiKey`.
- Every successful upload assigns `document_uploaded = True`, not only the
  first one. The flag still goes false-to-true at most once, because nothing
  clears it.
- An upload answered with status 200 whose body has neither `message` nor
  `error` shows no banner at all. This is a separate case in `ProcessDocument`.
- When the body has both `message` and `error`, `message` wins. The payload is
  modelled as two optional fields so that this case can be stated.

## Model

| member | source | states |
|---|---|---|
| `SessionSpec.Init` | app.py:60-73 | A fresh session has an empty key, both flags false and both lists empty, and it satisfies the session invariant |
| `SessionController.Session.constructor` | app.py:60-76 | The first page load creates a valid session whose state is `Init()` |
| `Decimal.NatToString` | app.py:199 | A non-negative status code is written as a non-empty string of digits, with a leading '0' only for zero |
| `Decimal.IntToString` | app.py:199 | The decimal text of an int is non-empty and starts with '-' exactly when the int is negative |
| `Decimal.DigitsValueOfNatToString` | app.py:199 | Reading the digits of a non-negative integer's text gives back that integer |
| `Decimal.ParseIntOfIntToString` | app.py:199 | The text of every int is a well-formed integer string, and parsing it returns the int |
| `Decimal.IntToStringInjective` | app.py:199 | Distinct status codes are written as distinct texts |
| `SessionSpec.StatusBetweenFormatted` | app.py:199 | From any text written as prefix + code + suffix, the status code can be read back exactly |
| `SessionSpec.ChatErrorText` | app.py:199 | The chat error text is the prefix "Error: Could not process your request (Status code: ", then the decimal status code, then ")" |
| `SessionSpec.ChatErrorTextNamesStatus` | app.py:199 | Reading the status code back from between "Error: Could not process your request (Status code: " and ")" in the chat error text gives exactly the code that failed |
| `SessionSpec.ChatErrorText503` | app.py:198-201 | Status 503 yields exactly "Error: Could not process your request (Status code: 503)" |
| `SessionSpec.NoticeText` | app.py:94-154 | The upload warning names the failing status code, which can be read back; a backend-reported upload error is shown after "Error: " |
| `SessionSpec.AssistantReply` | app.py:193-201 | On status 200 the reply is the payload's `message`, or "No response received." when there is none; on any other status it is the chat error text for that status |
| `SessionSpec.FailedReplyNamesStatus` | app.py:198-201 | The reply to a failed chat request names the failing status code, which can be read back, and does not depend on the payload |
| `SessionSpec.SubmitApiKey` | app.py:87-97 | In credential entry the typed key is stored. The flag becomes true exactly when the key is non-empty and the status is 200. Upload flag, documents and transcript are unchanged. The banner is a success on 200 and a warning on any other status, and nothing is shown for an empty key. In the main view nothing happens |
| `SessionSpec.ChangeApiKey` | app.py:98-102 | Afterwards the key is never submitted; the stored key, upload flag, documents and transcript are unchanged |
| `SessionSpec.ProcessDocument` | app.py:133-154 | In the main view, status 200 with a `message` key (even when `error` is also present) appends exactly one record with the file's name, type and date, and sets the upload flag. Every other reply leaves the state unchanged: the banner is the backend's `error` text, a warning naming the status for a non-200 reply, or nothing when neither key is present. Key, key flag and transcript are never touched |
| `SessionSpec.ChatTurn` | app.py:184-201 | In the main view a non-empty prompt grows the transcript by exactly two: the user's prompt, then the assistant's reply, with the old transcript kept as a prefix. Key, flags and documents are unchanged. The upload flag is not required. Otherwise nothing changes |
| `SessionSpec.Step` | app.py:87-201 | Without a submitted key, upload and chat do nothing. No action shortens documents or transcript, and no action clears the upload flag |
| `SessionSpec.GatedRun` | app.py:117 | Before a key is accepted, any sequence of upload and chat actions leaves the session exactly as it was |
| `SessionSpec.AlternatesExtend` | app.py:185-201 | Appending a user message followed by an assistant message to a transcript of whole turns keeps it a transcript of whole turns |
| `SessionSpec.UserAnsweredNext` | app.py:184-201 | In a transcript of whole turns, every user message is immediately followed by an assistant message |
| `SessionSpec.StepPreservesInv` | app.py:87-201 | Every action keeps the invariant: upload flag set iff documents non-empty, and a transcript of whole turns |
| `SessionSpec.RunPreservesInv` | app.py:87-201 | Any sequence of actions from a state satisfying the invariant ends in a state satisfying it |
| `SessionSpec.ReachableInv` | app.py:60-201 | Every state reachable from a fresh session has: upload flag set exactly when the document list is non-empty, and an even-length alternating transcript |
| `SessionSpec.RunOnlyGrows` | app.py:140-201 | Over any sequence of actions, documents and transcript only grow by appending at the end, and a set upload flag stays set |
| `SessionSpec.TranscriptLength` | app.py:184-201 | N answered chat requests make exactly 2N messages |
| `SessionSpec.TranscriptAt` | app.py:184-201 | The k-th exchange puts its prompt as a user message at offset 2k and its reply as an assistant message at offset 2k+1 |
| `SessionSpec.TranscriptAlternates` | app.py:184-201 | The messages of a sequence of exchanges alternate user/assistant, beginning with user |
| `SessionSpec.ExchangesAt` | app.py:184-201 | The k-th exchange of a run of chat requests holds the k-th prompt and the reply that its status and payload call for |
| `SessionSpec.StepChat` | app.py:184-201 | A non-empty chat request in the main view appends its prompt and reply and changes nothing else |
| `SessionSpec.ChatRun` | app.py:184-201 | In the main view, a run of non-empty chat requests changes only the transcript, by appending each prompt and its reply in order |
| `SessionSpec.ChatFromEmpty` | app.py:72-201 | From an empty transcript in the main view, N chat requests leave exactly 2N messages, alternating user/assistant and beginning with user. The k-th prompt stands at offset 2k and its reply right after it |
| `SessionController.Session.SubmitApiKey` | app.py:87-97 | The new state and banner are those of `SessionSpec.SubmitApiKey`, and the session invariant is kept |
| `SessionController.Session.ChangeApiKey` | app.py:98-102 | The new state is that of `SessionSpec.ChangeApiKey`, and the session invariant is kept |
| `SessionController.Session.ProcessDocument` | app.py:133-154 | The new state and banner are those of `SessionSpec.ProcessDocument`, and the session invariant is kept |
| `SessionController.Session.ChatTurn` | app.py:184-201 | The user message and then the assistant reply are appended in place. The new state is that of `SessionSpec.ChatTurn`, and the session invariant is kept |

## Left out

- Page rendering is not modelled: page configuration, CSS, the header, the
  sidebar "About" text, columns, spinners, chat bubbles, the document list
  display, the footer and `st.rerun` (app.py:7-57, 104-114, 156-182, 203-206).
  Banners are modelled only as the `Notice` value an action returns and its
  text.
- The three HTTP requests (app.py:91, 138, 191) are not made. Each reply is an
  input to the action: a status code, plus the presence of the `message` and
  `error` keys.
- The request bodies are not modelled, and neither is the file content sent to
  the backend.
- A JSON body that fails to parse is not modelled; the script does not handle
  that case.
- `SessionSpec.ChatTurn`: the script appends the user message (app.py:185)
  before `requests.post` (app.py:191) and `response.json()` (app.py:194). If
  either raises, the run stops with the prompt unanswered. That happens on a
  transport error, on a non-JSON body with status 200, or on a JSON body that
  is not an object, where `.get` fails. The model has no such half turn: every
  chat request returns a status and, on 200, a JSON object.
- `SessionSpec.ReachableInv`: with `RunPreservesInv` and `StepPreservesInv`, it
  covers only runs in which every request returns, and a 200 reply carries a
  JSON object. After a chat request that raised, the next user message lands
  at an odd offset, and the transcript no longer alternates.
- `SessionSpec.ProcessDocument`: a 200 upload reply whose JSON body is a list
  or a string makes `"message" in data` (app.py:142) a membership or substring
  test, not a key lookup. The model takes every body to be an object.
- A `message` value that is not a string (for example `null`) is not modelled:
  every value is taken to be a string.
- The upload date comes from the wall clock, `datetime.now().strftime`
  (app.py:149). The model takes it as an opaque string parameter.
- The uploader's file-extension filter (app.py:127-131) is not modelled; the
  widget enforces it, not the script's logic.
- `SessionSpec.SubmitApiKey`: the text box rewrites `api_key` on every run of
  the credential-entry view (app.py:88), not only when the button is pressed.
  The model stores the key only as part of a submission.
- `sidebar_state` (app.py:75-76) is not modelled; it is set but never read.
- The unused `import re` is not modelled.
