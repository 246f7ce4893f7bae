# Document chat portal client, modelled in Dafny

This project models the state logic of a single-page client for a document
question-answering portal. Users log in or register. They upload and delete
documents, ask questions against them, read the chat transcript and fetch a
public webhook URL. Every asynchronous handler in the client wraps one HTTP call. The model
turns the call's outcome into an input:

- `Net.Response<T>` is `Ok(payload)` for a 2xx response, `HttpError(detail)` for
  a non-2xx response carrying a `detail` field, or `NetworkError` when `fetch` or
  JSON decoding threw.
- `Net.JsValue` is `Undefined | Null | Str(s)`. It covers a JSON field that may be
  missing. This matters because template literals render a missing field as
  `undefined`, and `localStorage.setItem` stores it as that string.

The model then treats each handler as one deterministic state transition.

Modules, one per component:

- `Chat` (`src/chat.jsx`): the chat panel. This is class `ChatPanel`, with the
  transcript, the question input, the loading flag, the upload status, the
  webhook URL and the file-mutation counter. The module also holds the
  flattening of the history response and ECMAScript `trim`. `ChatPanel.Valid()`
  says the transcript is made of whole turns: a user message followed by a bot
  message.
- `FileList` (`src/FileList.jsx`): the document list, class `FileListView`. A
  confirmed and successful delete calls the chat panel's `FileDeleted`, the `onFileDeleted`
  callback.
- `Login` (`src/login.jsx`): the login and registration form, class `LoginForm`.
  Its `setToken` callback is the session's `SetToken`.
- `App` (`src/App.jsx`): the session, class `Session`. It holds the token in
  memory and local storage as a `map<string, string>`. The module also holds the
  route table.

Where the documented design and the code differ, the model follows the code:

- A failed file-list fetch keeps the previous list rather than hiding it.
- An asked question is appended to the transcript and never rolled back.
- A chat or upload failure shows the server's detail with a prefix: `Error: `
  or `Upload failed: `. A missing detail prints as `undefined`.
- A successful login hands over `access_token` even when that field is missing.

## Model

| member | source | states |
|---|---|---|
| `Chat.Flatten` | src/chat.jsx:28-31 | n history items give exactly 2n messages; message 2i is the user's question i and message 2i+1 the bot's answer i, in server order |
| `Chat.UnflattenFlatten` | src/chat.jsx:28-31 | the question/answer pairs can be read back from the flattened transcript unchanged (no pair lost, reordered or altered) |
| `Chat.FlattenUnflatten` | src/chat.jsx:28-31 | every transcript made of whole turns is the flattening of some history: its own pairs |
| `Chat.FlattenPaired` | src/chat.jsx:28-31 | a flattened history is made of whole turns, a user message then a bot message |
| `Chat.FlattenAppend` | src/chat.jsx:28-31 | flattening distributes over concatenation of histories, so later items come after earlier ones |
| `Chat.TurnAppend` | src/chat.jsx:84-107 | appending a question and its one reply keeps the transcript made of whole turns |
| `Chat.TrimStart` | src/chat.jsx:82 | the leading-whitespace strip of `trim`: a suffix of the input, everything dropped is whitespace, the result does not start with whitespace |
| `Chat.TrimEnd` | src/chat.jsx:82 | the trailing-whitespace strip of `trim`: a prefix of the input, everything dropped is whitespace, the result does not end with whitespace |
| `Chat.IsBlank` | src/chat.jsx:82 | a question is blank exactly when its leading-whitespace strip is empty, the test `!question.trim()` makes |
| `Chat.BlankIffAllWhitespace` | src/chat.jsx:82 | a question counts as blank exactly when every character is ECMAScript whitespace (the empty question included) |
| `Chat.BotReply` | src/chat.jsx:96-107 | the bot's reply is the answer on an ok response, `Error: ` followed by the rendered `detail` (`undefined` or `null` when not a string) on a non-ok one, and the fixed text 'An error occurred while asking the question.' on a network failure |
| `Chat.ChatPanel.constructor` | src/chat.jsx:8-15 | the panel starts with no file, an empty question and transcript, no status, no webhook URL, nothing loading and counter 0 |
| `Chat.ChatPanel.LoadHistory` | src/chat.jsx:19-40 | a successful history fetch replaces the transcript by the flattened history; a failed one leaves it; loading ends false |
| `Chat.ChatPanel.ChooseFile` | src/chat.jsx:48-51 | choosing a file records it (or none) and clears the upload status |
| `Chat.ChatPanel.EditQuestion` | src/chat.jsx:169-173 | typing sets the question input |
| `Chat.ChatPanel.Upload` | src/chat.jsx:53-79 | with no file: status 'Please select a file first.', nothing sent, counter and loading flag unchanged; otherwise the file is sent, the counter grows by exactly 1 on success only, the status is the success, `Upload failed: <detail>` or network text, and loading ends false |
| `Chat.ChatPanel.AskQuestion` | src/chat.jsx:81-110 | a blank question sends nothing and changes nothing; otherwise the request carries the question and language, the transcript becomes the old one plus the user message and exactly one bot message (answer, `Error: <detail>` or the fixed network text), the input is empty and loading is false |
| `Chat.ChatPanel.AskOnKeyPress` | src/chat.jsx:174 | Enter asks exactly as the button does unless a request is in flight: a blank question changes nothing, any other question is sent and answered as in `AskQuestion`; any other key or a pending request changes nothing |
| `Chat.ChatPanel.GetWebhook` | src/chat.jsx:112-129 | the URL becomes the payload URL, 'Could not fetch webhook URL.' or 'An error occurred.' by outcome; webhook loading ends false |
| `Chat.ChatPanel.FileDeleted` | src/chat.jsx:136-140 | the counter grows by exactly 1 and the transcript becomes empty |
| `FileList.WithoutId` | src/FileList.jsx:40 | the filtered list is never longer than before |
| `FileList.WithoutIdMembers` | src/FileList.jsx:40 | after the filter an entry is present exactly when it was present before and its id differs from `fileId`; so no entry with `fileId` remains |
| `FileList.WithoutIdCounts` | src/FileList.jsx:40 | every entry whose id differs is kept as many times as it occurred |
| `FileList.WithoutIdKeepsOrder` | src/FileList.jsx:40 | the kept entries stay in their original relative order |
| `FileList.WithoutIdAppend` | src/FileList.jsx:40 | filtering a concatenation filters each part in place |
| `FileList.WithoutIdAbsent` | src/FileList.jsx:40 | deleting an id no entry carries leaves the list as it was |
| `FileList.FileListView.constructor` | src/FileList.jsx:4-5 | the list starts empty and loading |
| `FileList.FileListView.FetchFiles` | src/FileList.jsx:9-22 | a successful fetch replaces the list with the payload, a failed one keeps the previous list; loading ends false |
| `FileList.FileListView.Delete` | src/FileList.jsx:28-49 | the request is sent exactly when confirmed; `onFileDeleted` runs exactly when confirmed and successful, and then the list is the filter of the old one, the chat transcript is empty and the counter has grown by 1; declined or failed deletes change neither the list nor the chat panel |
| `Login.Endpoint` | src/login.jsx:13 | the endpoint is `/register` exactly in registering mode and `/token` otherwise |
| `Login.SubmitError` | src/login.jsx:33-41 | after a submission the error is empty exactly when the response was ok; otherwise it is the server's truthy `detail`, else 'An error occurred.', or on a network failure 'Failed to connect to the server.' |
| `Login.LoginForm.constructor` | src/login.jsx:4-7 | empty credentials, login mode, no error |
| `Login.LoginForm.EditUsername` | src/login.jsx:51 | typing sets the username |
| `Login.LoginForm.EditPassword` | src/login.jsx:55 | typing sets the password |
| `Login.LoginForm.Toggle` | src/login.jsx:60 | the mode flips, so toggling twice restores it |
| `Login.LoginForm.Submit` | src/login.jsx:10-42 | the submission goes to `Endpoint(mode)` and carries the current username and password; the error is reset and ends as `SubmitError(outcome)`; `setToken` receives `access_token` exactly on an ok response, and the session is untouched otherwise |
| `App.AcceptsStored` | src/App.jsx:12 | a stored value is accepted exactly when it is present, non-empty and differs from the strings `setItem` writes for `undefined` and `null` |
| `App.Restored` | src/App.jsx:10-15 | the mount effect accepts a stored token exactly when it is present, non-empty and neither 'null' nor 'undefined', and otherwise the token stays null |
| `App.PersistRestore` | src/App.jsx:12-19 | a token written by `handleSetToken` is restored after a reload exactly when it is a non-empty string other than the two sentinels; a missing or null token is stored as a sentinel and comes back as no token |
| `App.RemovedRestoresNothing` | src/App.jsx:22-25 | once the storage key is removed, the reload restores no token |
| `App.Session.constructor` | src/App.jsx:8-15 | a page load keeps storage and ends with the token `Restored(storage)` |
| `App.Session.Mount` | src/App.jsx:10-15 | the mount effect sets the stored token when it is accepted and leaves the token alone otherwise |
| `App.Session.SetToken` | src/App.jsx:17-20 | the in-memory token and the stored copy are both set to the new token |
| `App.Session.Logout` | src/App.jsx:22-26 | the token is null and the storage key is absent, also after the reload; other keys are kept |
| `App.Session.Reload` | src/App.jsx:25 | a reload leaves the token as the mount effect restores it from storage |
| `App.Resolve` | src/App.jsx:31-37 | with a token the route shows the chat or redirects to `/en`; without one, the login form or a redirect to `/login`; the login form only at `/login`, the chat only at a one-segment path naming its language; `/login` shows the form without a token and redirects to `/en` with one; any other one-segment path shows the chat in that language with a token and redirects to `/login` without one |
| `App.Settle` | src/App.jsx:31-37 | after following the redirect there is no further redirect; the chat is shown exactly with a token and the login form exactly without one; a token at `/<lang>` shows that language, a token anywhere else shows `/en` |
| `App.LandingAsWritten` | src/App.jsx:8-37 | as written, a page load ends on the `/en` chat whenever the stored token is accepted, whatever the path, and on the login form otherwise |
| `App.DeepLinkLosesLanguage` | src/App.jsx:8-37 | as written, reloading `/fr` with a valid stored token ends on the `/en` chat |
| `App.Landing` | src/App.jsx:8-37 | with the token restored before the first render, a page load with an accepted stored token shows the chat in the language of a one-segment path (other than `/login`) and `/en` elsewhere; without one, the login form |
| `App.LandingKeepsLanguage` | src/App.jsx:8-37 | with the token restored before the first render, reloading `/<lang>` with a valid stored token shows the chat in that language |

## Left out

- HTTP itself is not modelled: `fetch`, the API base URL, the bearer header, and the JSON, FormData and URL-encoded bodies. Each call is reduced to its outcome.
- A response body that is not JSON makes the code's `response.json()` throw. Such a body is modelled as `NetworkError`, the branch the code then takes.
- Only the error `detail` fields and the login's `access_token` are `JsValue`s, so only they may be missing or null. A non-string `detail` (FastAPI's validation list renders as `[object Object]`) is not modelled.
- The other JSON fields are plain strings: a history item's `question` and `answer`, the ask's `answer`, the webhook's `webhook_url`, and a file entry's `filename`. A missing or non-string value in any of them is not modelled, although the code would render a missing one as `undefined` (src/chat.jsx:29-30, 99 and 121).
- Rendering is not modelled: JSX, ReactMarkdown, the "Thinking..." and "Loading files..." indicators, and the scroll-to-bottom effect. They are presentation only.
- `alert`, `console.error`, the clipboard copy (`copyToClipboard`) and the text of the delete confirmation are browser side effects. `window.confirm` is the `confirmed` input, so `Delete` takes no file name.
- Concurrency is not modelled. Each handler is one atomic transition, although upload and ask share `isLoading` and an ask's two messages can be interleaved with other updates. `ChatPanel.Valid()` (whole turns) holds under this atomic reading only. Because no handler ends with `isLoading` true, the in-flight branch of `AskOnKeyPress` and the disabled Upload and Ask buttons (src/chat.jsx:153 and 176) are never reached from a state the model produces.
- Effect triggers are not modelled: the file list refetches when the token or the counter changes. `FetchFiles` and `LoadHistory` are operations the environment calls.
- React Router's matching is simplified. A path is its list of non-empty segments. Case-insensitive matching and `Navigate`'s effect on browser history (each redirect pushes an entry) are not modelled, and the page URL is only followed through `LandingAsWritten`.
- The browser's required-field check on the username and password inputs is not modelled; it happens before submission. The body's encoding (JSON for registration, URL-encoded for login) is part of HTTP, left out above.
- The `a{` typo in `src/App.jsx`'s first import and the import-path casing are build problems, not behaviour.

## Findings

| source | as written | input that shows it | evidently intended | confidence | as-written member | corrected member |
|---|---|---|---|---|---|---|
| src/App.jsx:8-15 | the token starts as `null` and the stored token is read in an effect after the first render. The first render sends `/fr` to `/login`, and the restored token then sends `/login` to `/en` | stored token `abc123`, page reloaded at `/fr` | the chat reopens at `/fr` in the same language | medium; not executed | `App.DeepLinkLosesLanguage` | `App.LandingKeepsLanguage` |
