# Clippy widget and chat session, modelled in Dafny

Clippy is a desktop assistant: a small floating widget (`ClippyApp` in
`App.tsx`) that the user drags, resizes and minimises, with a chat box that
handles a few commands locally (`open <host>`, `clear`, arithmetic) and sends
everything else to a language model (OpenAI or Gemini). This project models
the two pieces of state logic in that component and proves what they promise.

- `wrappers.dfy` (`Wrappers`): the `Option` type.
- `text.dfy` (`Text`): the JavaScript string operations the pipeline relies
  on, `trim`, `toLowerCase`, `startsWith` and `substring(0, n)`. Trim is
  defined by the index of the first and the last character that is not
  white space, over the ECMAScript white-space and line-terminator set.
- `messages.dfy` (`Messages`): roles and chat entries.
- `widget.dfy` (`Widget`): the widget's interaction state machine. It has a
  pure transition per handler (mouse down, window mouse move, window mouse
  up, minimise button, badge click, double click) and runs of events. The
  `Controller` class holds the same state in fields that its methods update
  in place, each method proved equal to its transition.
- `commands.dfy` (`Commands`): the decision `handleCommand` takes on an input
  (open a URL, clear the log, evaluate arithmetic, or none).
- `provider.dfy` (`Provider`): the settings, the request `callAI` would post
  for each provider, and how a decoded answer becomes the one chat entry it
  appends.
- `transcript.dfy` (`Transcript`): the text `exportChat` produces, with a
  parser for one block that inverts the formatter.
- `session.dfy` (`Session`): the `ChatSession` class. Its fields are the
  message log, the input box, the loading flag, the settings, the two
  storage slots, the requests handed to the network and the URLs handed to
  the browser. Its methods are `addMessage`, `handleCommand`, `callAI`,
  `handleSend`, `handleClipboard`, `exportChat` and the settings inputs.
  Two scenario methods at the end exercise the class on concrete inputs.

The network, the JavaScript `eval` and the clipboard are inputs to the model:
the decoded server answer is a `Response` value, evaluation is a function
`string -> Option<string>` (`None` when the evaluation throws), and the
clipboard text and the pasted text are parameters.

## Model

| member | source | states |
|---|---|---|
| Text.TrimShape | App.tsx:220 | `trim` (`Text.Trim`) keeps an infix of its input with only white space cut on either side |
| Text.TrimEnds | App.tsx:220 | the text `trim` keeps neither starts nor ends with white space |
| Text.TrimChars | App.tsx:220 | `trim` keeps its characters in place, from the first non-space character on |
| Text.TrimEmptyIffAllSpace | App.tsx:262 | `input.trim()` is empty exactly when every character of the input is white space (the blank-send test) |
| Text.TrimKeepsTrimmed | App.tsx:220 | text that neither starts nor ends with white space is unchanged by `trim` |
| Text.TrimIdempotent | App.tsx:220 | trimming twice gives the same as trimming once |
| Text.TrimIgnoresPadding | App.tsx:220 | white space added around a string does not change its trim |
| Text.SkipSpace | App.tsx:220 | the index returned is the first non-space character at or after the start index, or the end |
| Text.SkipSpaceBack | App.tsx:220 | the index returned is just past the last non-space character before the end index, or the lower bound |
| Text.LowerChar | App.tsx:220 | an ASCII capital becomes its small letter (code + 32); every other character is kept |
| Text.ToLower | App.tsx:220 | `toLowerCase` maps each character to its lower-case form, one for one (ASCII only, see below) |
| Text.ToLowerIdempotent | App.tsx:220 | lower-casing twice is lower-casing once |
| Text.ToLowerAppend | App.tsx:220 | lower-casing distributes over concatenation |
| Text.ToLowerKeepsSpace | App.tsx:220 | white space is unchanged by lower-casing |
| Text.StartsWithPointwise | App.tsx:221 | `startsWith` (`Text.StartsWith`) holds exactly when the prefix is no longer than the text and agrees with it character by character |
| Text.Prefix | App.tsx:276 | `substring(0, n)` is a prefix of the text of length `min(n, length)` |
| Messages.RoleName | App.tsx:13 | the three roles are written `user`, `assistant` and `system` |
| Messages.CountRole | App.tsx:257-259 | the number of entries with a role is at most the log length, and zero exactly when no entry has that role |
| Messages.CountRoleAppend | App.tsx:257-259 | counting entries of a role is additive over concatenated logs |
| Widget.Max | App.tsx:189-190 | `Math.max` is an upper bound of both arguments and equal to one of them |
| Widget.ResizedTo | App.tsx:189-191 | a resize gives at least 300 on each axis and at least the cursor's distance from the corner, and is one of the two |
| Widget.OnMouseDown | App.tsx:173-180 | a press on the resize handle only starts resizing; otherwise a press on the drag handle, or anywhere while minimised, starts a drag anchored at cursor minus corner; any other press changes nothing; geometry is untouched; from idle the result is in at most one mode |
| Widget.OnMouseMove | App.tsx:183-193 | a drag puts the corner at cursor minus anchor offset; a resize sets the size from the cursor and the corner as it was; the flags and offset are kept; with no gesture nothing changes |
| Widget.OnMouseUp | App.tsx:194 | mouse-up leaves the widget idle and keeps position, size, view and offset |
| Widget.OnMinimize | App.tsx:325 | the minimise button minimises and keeps geometry and gesture flags |
| Widget.OnBadgeClick | App.tsx:312 | a click on the badge opens the widget and keeps geometry and gesture flags |
| Widget.OnDoubleClick | App.tsx:300 | a double click opens a minimised widget and leaves an open one exactly as it was |
| Widget.RunKeepsMinimumSize | App.tsx:189-191 | from a state at least 300 by 300, no sequence of events makes the widget smaller than that |
| Widget.RunKeepsOneMode | App.tsx:173-194 | when every mouse-down arrives with no gesture in progress, dragging and resizing are never both set |
| Widget.SecondPressDuringResizeSetsBothModes | App.tsx:173-179 | the handlers do not guard a second press: a press on the drag handle during a resize sets both flags |
| Widget.DragMovesFollowCursor | App.tsx:184-186 | during a drag every move keeps the gesture and the size, and the corner follows the last cursor position minus the anchor offset |
| Widget.DragIsOffsetInvariant | App.tsx:178-185 | grabbing the drag handle at any point and moving by (dx, dy) moves the corner by exactly (dx, dy) and keeps the size |
| Widget.ResizeMovesKeepCorner | App.tsx:187-191 | during a resize the corner and the view never change, and the size is the last cursor position's distance floored at 300 |
| Widget.Controller.constructor | App.tsx:144-153 | the widget mounts idle, at (50, 50), 340 by 420, open |
| Widget.Controller.HandleMouseDown | App.tsx:173-180 | the fields become `OnMouseDown` of the old fields; pressed when idle, the invariants are kept |
| Widget.Controller.HandleMouseMove | App.tsx:183-193 | the fields become `OnMouseMove` of the old fields; one-mode and minimum size are kept |
| Widget.Controller.HandleMouseUp | App.tsx:194 | the fields become `OnMouseUp` of the old fields, which is idle |
| Widget.Controller.Minimize | App.tsx:325 | the fields become `OnMinimize` of the old fields |
| Widget.Controller.ClickBadge | App.tsx:312 | the fields become `OnBadgeClick` of the old fields |
| Widget.Controller.DoubleClickWidget | App.tsx:300 | the fields become `OnDoubleClick` of the old fields |
| Commands.NormalizeShape | App.tsx:220 | the normal form `toLowerCase().trim()` (`Commands.Normalize`) is no longer than the input, has no capitals, and neither starts nor ends with white space |
| Commands.IsArithmetic | App.tsx:223 | the regular expression `^[\d\s+\-*/().]+$` matches exactly the non-empty strings whose every character is in the class |
| Commands.ClassifyNormalized | App.tsx:219-227 | on the normalised text: an `open ` prefix gives a URL that is `https://` plus the rest, exactly `clear` clears, an arithmetic-pattern text whose evaluation succeeds gives its value, and nothing else is a command |
| Commands.Classify | App.tsx:219-227 | on the raw input: a URL is opened exactly when the normal form starts with `open `, the log is cleared exactly when the normal form is `clear`, and an evaluated value is the evaluation of the normal form |
| Commands.OpenedUrlIsLowerCase | App.tsx:220-221 | the URL handed to the browser is `https://` followed by at least one character, with no capitals: the command's case is lost |
| Commands.PatternsAreDisjoint | App.tsx:221-223 | the three patterns exclude each other, so the order of the tests does not matter |
| Commands.GoesRemoteIff | App.tsx:219-227 | an input goes to the language model exactly when it is none of the commands, or arithmetic whose evaluation threw |
| Commands.ClassifyIgnoresCaseAndPadding | App.tsx:220 | adding white space around an input or lower-casing it does not change the decision |
| Commands.NormalizeKeepsNormalText | App.tsx:220 | text with no capital and no white space at either end is its own normal form |
| Commands.TwoPlusTwo | App.tsx:223-224 | `2+2` is handled locally when evaluation gives 4 |
| Provider.BuildRequest | App.tsx:240-247 | OpenAI gets a chat completion to its endpoint with a bearer token, model `gpt-3.5-turbo`, the system prompt and the text; Gemini gets the key in the URL and one text made of the prompt, `\nUser: ` and the text |
| Provider.ReplyField | App.tsx:252 | the reply is read from `choices` for OpenAI and `candidates` for Gemini |
| Provider.Reply | App.tsx:249-254 | a reply path read without error becomes an assistant entry with its text (empty when the last field is unset); a thrown error, an error body (its message or `API Error`) or a path broken before its last field becomes a system entry with the error text; never a user entry |
| Provider.CallAI | App.tsx:237-255 | nothing is sent exactly when the key is empty, in which case the entry is the missing-key notice; otherwise the provider's request is sent and its reply appended |
| Provider.MissingKeyNeverReachesProvider | App.tsx:238 | without a key no request is made and the appended entry is a system entry, whatever the network would answer |
| Provider.ErrorsBecomeSystemMessages | App.tsx:249-254 | a failed request, a provider-reported error or a reply path broken before its last field never becomes an assistant entry |
| Provider.LoadSettings | App.tsx:160-163 | stored settings are used when present and no demo key is compiled in; otherwise the defaults |
| Provider.SettingsRoundTrip | App.tsx:163-167 | settings saved and loaded back in this build come back unchanged |
| Transcript.HeaderDeterminesRole | App.tsx:230 | a text opens with the `[role]: ` header of at most one role |
| Transcript.Block | App.tsx:230 | a block is its header followed by the message content |
| Transcript.BlockRoundTrip | App.tsx:230 | parsing a block gives back the message it was made from |
| Transcript.Render | App.tsx:229-230 | the transcript is empty exactly for an empty log |
| Transcript.RenderStartsWithFirstBlock | App.tsx:230 | a non-empty log's transcript opens with its first message's block |
| Transcript.RenderAppend | App.tsx:230 | appending a message appends its block, after a blank line when the log was not empty: one block per message, in log order |
| Transcript.RenderStep | App.tsx:230 | the transcript of the first i + 1 messages is that of the first i, a blank line if i > 0, and the next block |
| Transcript.RenderConcat | App.tsx:230 | the transcript of two logs is their transcripts joined by one blank line |
| Session.ResultMessage | App.tsx:224 | an evaluated command is answered by the assistant with `Result: ` and the value |
| Session.Requests | App.tsx:237-247 | a call sends at most one request, and one exactly when the call outcome has a request |
| Session.ClipboardText | App.tsx:269-274 | the clipboard text is used when non-empty, else the pasted text, else nothing |
| Session.ClipboardPreview | App.tsx:276 | the preview is `[Clipboard]: `, at most the first 50 characters of the text, and `...` |
| Session.MissingKeySendCounts | App.tsx:238 | with no key, a send to the model adds one user entry, one system entry and no assistant entry |
| Session.ChatSession.constructor | App.tsx:159-165 | the session starts with the loaded settings, the stored history or an empty log, an empty input and nothing sent |
| Session.ChatSession.SetInput | App.tsx:349 | typing changes only the input box |
| Session.ChatSession.AddMessage | App.tsx:257-259 | the entry is appended at the end of the log, which storage then holds; nothing else changes |
| Session.ChatSession.HandleCommand | App.tsx:219-227 | `open` launches the URL, `clear` empties the log, an evaluated expression appends its result; the answer is true exactly for a command; nothing is sent |
| Session.ChatSession.CallAI | App.tsx:237-255 | the log gets exactly the call's one entry, the request (if any) is recorded, and a missing key clears the loading flag |
| Session.ChatSession.HandleSend | App.tsx:261-265 | a blank input changes nothing; otherwise the input is cleared, the text is logged as the user, and then the command is carried out or the model asked, with the loading flag down afterwards |
| Session.ChatSession.Submit | App.tsx:263-264 | after the user entry, each kind of command has its effect on the log, the launched URLs and the requests; only a non-command sends and clears the loading flag |
| Session.ChatSession.HandleClipboard | App.tsx:268-280 | no text posts `No text provided.`; otherwise the preview is posted as the user and a summary of the text requested, with the loading flag down afterwards |
| Session.ChatSession.ExportChat | App.tsx:229-233 | the file is `chat-history.txt` and its text is the transcript of the log |
| Session.ChatSession.Reopen | App.tsx:160-168 | a session mounted again from what this one stored has the same settings and the same log |
| Session.ChatSession.UpdateApiKey | App.tsx:333 | only the key changes, and storage holds the new settings |
| Session.ChatSession.UpdateSystemPrompt | App.tsx:334 | only the system prompt changes, and storage holds the new settings |
| Session.ChatSession.SelectTheme | App.tsx:335 | only the theme changes, and storage holds the new settings |

Where the code and the system's documented design differ, the model follows
the code:

- An arithmetic-looking input whose evaluation throws is not reported as an
  evaluation error. `handleCommand` answers false and the text goes to the
  language model (App.tsx:224), as `Commands.GoesRemoteIff` states.
- Nothing rejects a second send while the model is answering. The loading
  flag only changes what the page shows, so `HandleSend` has no busy check.
- A corrupt stored blob is not replaced by the defaults: `JSON.parse` throws
  at mount (App.tsx:163-164). The model takes the stored values as already
  decoded.

## Left out

- `Provider.Reply`: when the last field of the reply path is `undefined` or `null`, the source posts that value itself as the assistant's content; the model posts an empty string, since an entry's content is a string here. The page shows nothing for it either way; the transcript would show `undefined` or `null`.

- `MotateBackground` (the animated canvas) is cosmetic. It uses floating point, randomness and animation frames.
- The HTTP exchange (`fetch`, `res.json()`) is not modelled. The decoded answer is an input, and the request is recorded as a value.
- The JSON encoding of the request bodies is not modelled. A request holds the fields the body would carry.
- JavaScript evaluation of arithmetic (`Function(...)`) is not modelled. It is the `eval` parameter, and its floating-point results are not modelled.
- `localStorage` and `JSON.parse` are not modelled. Storage is two fields written after every change. A corrupt stored blob, which throws in the source, is not modelled.
- `generateId` (random) and `Date.now` are not modelled. Entries carry role and content only.
- `setTimeout` delays are taken as immediate: the missing-key notice (500 ms) and the file-drop reply.
- React state updates are taken as immediate and in program order. The source's batching and asynchronous `await` interleavings are not modelled.
- The file-drop handler is not modelled. It is a stub that posts a fixed reply.
- The settings-panel toggle, `window.open` itself, `scrollIntoView`, the Blob/anchor download and all JSX and styling are not modelled. Opening a URL is recorded in `launched`.
- `Text.LowerChar`: only ASCII capitals are lower-cased. `toLowerCase` on other scripts is not modelled.
- `Text.ToLower`: maps one character to one. JavaScript's `toLowerCase` can lengthen a string (U+0130 becomes two code units); that case is not modelled.
- `Text.Prefix`: a string is a sequence of characters. UTF-16 code units, which `substring` counts, are not modelled.
- `Widget.OnMouseDown`: the window reference is taken as mounted. Click targets are reduced to the resize handle, the drag handle and elsewhere.
- `Widget.RunKeepsOneMode` holds only when every mouse-down arrives with no gesture in progress. `Widget.SecondPressDuringResizeSetsBothModes` shows why.
- `electron/main.ts` (window creation) and `main.tsx` (React mount) are not part of this model.
